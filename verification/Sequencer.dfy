/** The sequencer's fields and the loops that update them. The ghost field `state` is the relay
    machine's state the fields stand for; every method makes the machine's step. */
module Sequencing {
  import opened RoRnet
  import opened Identity
  import opened Threads
  import opened Session
  import Relay
  import RelayMembership
  import RelayNames
  import RelayUndefined
  import SpamFilter
  import Utf8

  /** Distinct clients have distinct threads and filters, hence are distinct themselves. */
  predicate Separate(cs: seq<Client>) {
    forall i, j :: 0 <= i < j < |cs| ==>
      cs[i].broadcaster != cs[j].broadcaster && cs[i].receiver != cs[j].receiver && cs[i].spamFilter != cs[j].spamFilter
  }

  predicate Disjoint(cs: seq<Client>, ds: seq<Client>) {
    forall i, j :: 0 <= i < |cs| && 0 <= j < |ds| ==>
      cs[i].broadcaster != ds[j].broadcaster && cs[i].receiver != ds[j].receiver && cs[i].spamFilter != ds[j].spamFilter
  }

  /** The objects belong to `repr` and look like the given values, one by one. */
  ghost predicate Represents(cs: seq<Client>, views: seq<Relay.Client>, repr: set<object>)
    reads repr
  {
    |cs| == |views| && forall i :: 0 <= i < |cs| ==>
      && cs[i] in repr && cs[i].broadcaster in repr && cs[i].receiver in repr && cs[i].spamFilter in repr
      && cs[i].View() == views[i]
  }

  lemma RepresentsWider(cs: seq<Client>, views: seq<Relay.Client>, repr: set<object>, more: set<object>)
    requires Represents(cs, views, repr) && repr <= more
    ensures Represents(cs, views, more)
  {
  }

  lemma RepresentsMore(cs: seq<Client>, c: Client, views: seq<Relay.Client>, repr: set<object>, more: set<object>)
    requires Represents(cs, views, repr) && more == repr + {c, c.broadcaster, c.receiver, c.spamFilter}
    requires c !in repr && c.broadcaster !in repr && c.receiver !in repr && c.spamFilter !in repr && Separate(cs)
    ensures Represents(cs + [c], views + [c.View()], more) && Separate(cs + [c])
  {
  }

  lemma NewcomerApart(cs: seq<Client>, c: Client, ds: seq<Client>, views: seq<Relay.Client>, repr: set<object>)
    requires Represents(ds, views, repr) && Disjoint(cs, ds)
    requires c.broadcaster !in repr && c.receiver !in repr && c.spamFilter !in repr
    ensures Disjoint(cs + [c], ds)
  {
  }

  /** A client nobody else knows, at the end of the first of three lists. */
  lemma NewcomerFits(cs: seq<Client>, c: Client, ks: seq<Client>, bs: seq<Client>, s: Relay.Server, repr: set<object>,
                     more: set<object>)
    requires Represents(cs, s.clients, repr) && Represents(ks, s.killQueue, repr) && Represents(bs, s.killing, repr)
    requires Separate(cs) && Disjoint(cs, ks) && Disjoint(cs, bs) && DistinctUids(Relay.Users(s.clients))
    requires c !in repr && c.broadcaster !in repr && c.receiver !in repr && c.spamFilter !in repr
    requires more == repr + {c, c.broadcaster, c.receiver, c.spamFilter}
    requires IndexOf(Relay.Users(s.clients), c.user.uid) < 0
    ensures Represents(cs + [c], s.clients + [c.View()], more) && Separate(cs + [c])
    ensures Represents(ks, s.killQueue, more) && Represents(bs, s.killing, more)
    ensures Disjoint(cs + [c], ks) && Disjoint(cs + [c], bs) && DistinctUids(Relay.Users(s.clients + [c.View()]))
  {
    AppendKeepsIds(s.clients, c.View());
    RepresentsMore(cs, c, s.clients, repr, more);
    RepresentsWider(ks, s.killQueue, repr, more);
    RepresentsWider(bs, s.killing, repr, more);
    NewcomerApart(cs, c, ks, s.killQueue, repr);
    NewcomerApart(cs, c, bs, s.killing, repr);
  }

  lemma RepresentsLess(cs: seq<Client>, views: seq<Relay.Client>, repr: set<object>, p: nat)
    requires Represents(cs, views, repr) && Separate(cs) && p < |cs|
    ensures Represents(RemoveAt(cs, p), RemoveAt(views, p), repr) && Separate(RemoveAt(cs, p))
    ensures Disjoint(RemoveAt(cs, p), [cs[p]])
  {
    forall i | 0 <= i < |cs| - 1
      ensures RemoveAt(cs, p)[i] == cs[if i < p then i else i + 1]
      ensures RemoveAt(views, p)[i] == views[if i < p then i else i + 1]
    {
    }
  }

  lemma DisjointLess(cs: seq<Client>, ds: seq<Client>, p: nat)
    requires Disjoint(cs, ds) && p < |cs|
    ensures Disjoint(RemoveAt(cs, p), ds) && Disjoint([cs[p]], ds)
  {
    forall i | 0 <= i < |cs| - 1 ensures RemoveAt(cs, p)[i] == cs[if i < p then i else i + 1] {
    }
  }

  lemma DisjointBoth(cs: seq<Client>, c: Client, ds: seq<Client>)
    requires Disjoint(cs, ds) && Disjoint([c], ds)
    ensures Disjoint(cs + [c], ds) && Disjoint(ds, cs + [c])
  {
    forall i, j | 0 <= i < |cs + [c]| && 0 <= j < |ds|
      ensures (cs + [c])[i].broadcaster != ds[j].broadcaster && (cs + [c])[i].receiver != ds[j].receiver
      ensures (cs + [c])[i].spamFilter != ds[j].spamFilter
    {
      assert i == |cs| ==> [c][0] == (cs + [c])[i];
    }
  }

  /** A client that leaves one list for the end of another. */
  lemma MovedApart(cs: seq<Client>, ks: seq<Client>, bs: seq<Client>, p: nat)
    requires Separate(cs) && Separate(ks) && Disjoint(cs, ks) && Disjoint(cs, bs) && Disjoint(ks, bs) && p < |cs|
    ensures Separate(ks + [cs[p]])
    ensures Disjoint(RemoveAt(cs, p), bs) && Disjoint(ks + [cs[p]], bs)
    ensures Disjoint(RemoveAt(cs, p), [cs[p]]) ==> Disjoint(RemoveAt(cs, p), ks + [cs[p]])
  {
    DisjointLess(cs, ks, p);
    DisjointLess(cs, bs, p);
    DisjointBoth(ks, cs[p], bs);
    if Disjoint(RemoveAt(cs, p), [cs[p]]) {
      DisjointBoth(ks, cs[p], RemoveAt(cs, p));
    }
  }

  predicate InAudience(a: Relay.Audience, i: nat, c: Client)
    reads c
  {
    match a
    case Everyone => true
    case Listening => c.isReceivingData
    case ListeningUid(uid) => c.isReceivingData && c.user.uid == uid
    case ListeningBut(at) => c.isReceivingData && i != at
  }

  /** Everybody has been told that the client at `i` leaves, and it is not counted any more. */
  function LeaveAnnounced(s: Relay.Server, i: nat): (s': Relay.Server)
    requires i < |s.clients|
    ensures |s'.clients| == |s.clients|
  {
    s.(clients := Relay.Tell(s.clients, Relay.Everyone, Relay.LeaveMessage(s.clients[i].user.uid)),
       botCount := s.botCount - if IsBot(s.clients[i].user) then 1 else 0)
  }

  function MovedOut(s: Relay.Server, pos: nat): Relay.Server
    requires pos < |s.clients|
  {
    s.(clients := RemoveAt(s.clients, pos), killQueue := s.killQueue + [s.clients[pos]])
  }

  /** A disconnect, with the last position of the id in the list. */
  lemma DisconnectedAt(s: Relay.Server, uid: nat, i: nat, pos: nat)
    requires DistinctUids(Relay.Users(s.clients)) && Relay.Find(s.clients, uid) == i
    requires pos == LastIndexOf(Relay.Users(LeaveAnnounced(s, i).clients), uid)
    ensures pos < |s.clients| && s.clients[i].user.uid == uid
    ensures Relay.Disconnect(s, uid) == MovedOut(LeaveAnnounced(s, i), pos)
  {
    IndexOfIs(Relay.Users(s.clients), i);
    assert Relay.Users(s.clients)[i] == s.clients[i].user;
    assert Relay.Users(LeaveAnnounced(s, i).clients) == Relay.Users(s.clients);
  }

  function Parts(c: Client): set<object> {
    {c, c.broadcaster, c.receiver, c.spamFilter}
  }

  lemma PartsApart(cs: seq<Client>, ds: seq<Client>, i: nat, j: nat)
    requires i < |cs| && j < |ds| && Disjoint(cs, ds)
    ensures Parts(cs[i]) !! Parts(ds[j])
  {
  }

  lemma PartsDistinct(cs: seq<Client>, i: nat, j: nat)
    requires i < |cs| && j < |cs| && i != j && Separate(cs)
    ensures Parts(cs[i]) !! Parts(cs[j])
  {
  }

  /** The client at `at` has been changed, and looks like `view` now. */
  datatype Change = Change(sequencer: Sequencer, at: nat, view: Relay.Client)

  /** The fields stand for the state in which that client is replaced. */
  twostate lemma StaysValid(ch: Change)
    requires old(ch.sequencer.Valid()) && ch.at < |ch.sequencer.clients|
    requires ch.sequencer.clients == old(ch.sequencer.clients) && ch.sequencer.killQueue == old(ch.sequencer.killQueue)
    requires ch.sequencer.beingKilled == old(ch.sequencer.beingKilled) && ch.sequencer.repr == old(ch.sequencer.repr)
    requires ch.sequencer.botCount == old(ch.sequencer.botCount)
    requires ch.sequencer.freeUserId == old(ch.sequencer.freeUserId)
    requires ch.sequencer.killerState == old(ch.sequencer.killerState)
    requires unchanged(ch.sequencer.repr - Parts(ch.sequencer.clients[ch.at]))
    requires ch.view.user == old(ch.sequencer.state).clients[ch.at].user
    requires ch.sequencer.clients[ch.at].View() == ch.view
    requires ch.sequencer.state == old(ch.sequencer.state).(clients := old(ch.sequencer.state).clients[ch.at := ch.view])
    ensures ch.sequencer.Valid()
  {
    var s, cs, at := old(ch.sequencer.state), ch.sequencer.clients, ch.at;
    RelayNames.UpdateUsers(s.clients, at, ch.view);
    forall i | 0 <= i < |cs| && i != at ensures cs[i].View() == s.clients[i] {
      PartsDistinct(cs, i, at);
    }
    forall i | 0 <= i < |ch.sequencer.killQueue| ensures ch.sequencer.killQueue[i].View() == s.killQueue[i] {
      PartsApart(cs, ch.sequencer.killQueue, at, i);
    }
    forall i | 0 <= i < |ch.sequencer.beingKilled| ensures ch.sequencer.beingKilled[i].View() == s.killing[i] {
      PartsApart(cs, ch.sequencer.beingKilled, at, i);
    }
  }

  lemma SentOneMore(c: Relay.Client, keys: set<nat>, sent: seq<Message>, msg: Message)
    requires keys != {} && keys <= c.streams.Keys
    requires msg == Relay.RegisterMessage(c.user.uid, Relay.Min(keys), c.streams[Relay.Min(keys)])
    ensures sent + Relay.Registers(c, keys) == (sent + [msg]) + Relay.Registers(c, keys - {Relay.Min(keys)})
  {
    var rest := Relay.Registers(c, keys - {Relay.Min(keys)});
    assert sent + ([msg] + rest) == (sent + [msg]) + rest;
  }

  class Sequencer {
    var clients: seq<Client>
    var botCount: int
    var freeUserId: nat
    var killQueue: seq<Client>
    var killerState: ThreadState
    var beingKilled: seq<Client>          // the killer thread's local client, if it has one
    ghost var state: Relay.Server
    ghost var repr: set<object>

    ghost predicate Valid()
      reads this, repr
    {
      && this !in repr
      && Separate(clients) && Separate(killQueue) && |beingKilled| <= 1
      && DistinctUids(Relay.Users(state.clients))
      && Disjoint(clients, killQueue) && Disjoint(clients, beingKilled) && Disjoint(killQueue, beingKilled)
      && Represents(clients, state.clients, repr)
      && Represents(killQueue, state.killQueue, repr)
      && Represents(beingKilled, state.killing, repr)
      && state.botCount == botCount && state.freeUid == freeUserId && state.killer == killerState
    }

    constructor ()
      ensures Valid() && state == Relay.STARTED && repr == {}
    {
      clients, botCount, freeUserId := [], 0, 1;
      killQueue, killerState, beingKilled := [], Running, [];
      state, repr := Relay.STARTED, {};
    }

    /** Position of the client with this id, or -1. */
    method FindClientById(uid: nat) returns (i: int)
      requires Valid()
      ensures i == Relay.Find(state.clients, uid)
    {
      i := 0;
      while i < |clients| && clients[i].user.uid != uid
        invariant 0 <= i <= |clients|
        invariant forall j :: 0 <= j < i ==> state.clients[j].user.uid != uid
      {
        assert clients[i].View() == state.clients[i];
        i := i + 1;
      }
      if i == |clients| {
        i := -1;
      } else {
        assert clients[i].View() == state.clients[i];
      }
      ghost var us := Relay.Users(state.clients);
      assert forall j :: 0 <= j < |us| ==> us[j] == state.clients[j].user;
    }

    method QueueTo(i: nat, msg: Message)
      requires Valid() && i < |clients|
      modifies this`state, clients[i].broadcaster
      ensures Valid()
      ensures state == old(state).(clients := old(state).clients[i := Relay.Told(old(state).clients[i], msg)])
    {
      assert clients[i].View() == state.clients[i];
      clients[i].QueueMessage(msg);
      state := state.(clients := state.clients[i := Relay.Told(state.clients[i], msg)]);
      StaysValid(Change(this, i, clients[i].View()));
    }

    /** The loop of all broadcasts: queue `msg` for every client of the audience. */
    method QueueToAudience(audience: Relay.Audience, msg: Message)
      requires Valid()
      modifies this`state, repr
      ensures Valid() && state == old(state).(clients := Relay.Tell(old(state).clients, audience, msg))
    {
      ghost var before, told := state, Relay.Tell(state.clients, audience, msg);
      var i := 0;
      while i < |clients|
        invariant 0 <= i <= |clients| == |told|
        invariant Valid() && state == before.(clients := state.clients)
        invariant forall j :: 0 <= j < |told| ==> state.clients[j] == if j < i then told[j] else before.clients[j]
      {
        assert clients[i].View() == state.clients[i];
        if InAudience(audience, i, clients[i]) {
          QueueTo(i, msg);
        }
        i := i + 1;
      }
      assert state.clients == told;
    }

    // -------------------------------------------------------------- server text

    method ServerSay(audience: Relay.Audience)
      requires Valid()
      modifies this`state, repr
      ensures Valid() && state == old(state).(clients := Relay.Tell(old(state).clients, audience, Relay.NOTICE))
    {
      QueueToAudience(audience, Relay.NOTICE);
    }

    method SayLines(audience: Relay.Audience, lines: nat)
      requires Valid()
      modifies this`state, repr
      ensures Valid()
      ensures state == old(state).(clients := Relay.TellAll(old(state).clients, audience, Relay.NOTICE, lines))
    {
      var said := 0;
      while said < lines
        invariant said <= lines && Valid() && state == old(state).(clients := state.clients)
        invariant Relay.TellAll(state.clients, audience, Relay.NOTICE, lines - said)
               == Relay.TellAll(old(state).clients, audience, Relay.NOTICE, lines)
      {
        ServerSay(audience);
        said := said + 1;
      }
    }

    method SayEach(notices: seq<Relay.Audience>)
      requires Valid()
      modifies this`state, repr
      ensures Valid() && state == old(state).(clients := Relay.SayAll(old(state).clients, notices))
    {
      var said := 0;
      while said < |notices|
        invariant said <= |notices| && Valid()
        invariant state == old(state).(clients := Relay.SayAll(old(state).clients, notices[..said]))
      {
        ServerSay(notices[said]);
        assert notices[..said + 1][..said] == notices[..said];
        said := said + 1;
      }
      assert notices[..said] == notices;
    }

    // -------------------------------------------------------------- joining

    method CheckNickIsUnique(nick: string) returns (taken: bool)
      requires Valid()
      ensures taken <==> nick in Names(Relay.Users(state.clients))
    {
      ghost var us := Relay.Users(state.clients);
      for i := 0 to |clients|
        invariant forall j :: 0 <= j < i ==> us[j].name != nick
      {
        assert clients[i].View() == state.clients[i] && us[i] == state.clients[i].user;
        if clients[i].user.name == nick {
          return true;
        }
      }
      return false;
    }

    method GetFreePlayerColour() returns (col: nat)
      requires Valid()
      ensures col == FreeColour(Relay.Users(state.clients), 0)
    {
      ghost var us := Relay.Users(state.clients);
      col := 0;
      while true
        invariant col <= |us| && forall k :: 0 <= k < col ==> ColourUsed(us, k)
        decreases |us| - col
      {
        var collision := false;
        for i := 0 to |clients|
          invariant !collision && forall j :: 0 <= j < i ==> us[j].colour != col
        {
          assert clients[i].View() == state.clients[i] && us[i] == state.clients[i].user;
          if clients[i].user.colour == col {
            collision := true;
            break;
          }
        }
        if !collision {
          assert !ColourUsed(us, col) && !ColourUsed(us, FreeColour(us, 0));
          return;
        }
        col := col + 1;
        ColoursNeedUsers(us, col);
      }
    }

    /** The name createClient writes into the user record. */
    method ComposeNick(wanted: string) returns (nick: string)
      requires Valid()
      ensures nick == ChosenName(Names(Relay.Users(state.clients)), wanted)
    {
      ghost var taken := Names(Relay.Users(state.clients));
      nick := NonEmpty(wanted);
      var duplicate := CheckNickIsUnique(nick);
      if !duplicate {
        return;
      }
      ghost var options := Candidates(nick);
      var base := NameBase(nick);
      var i := FIRST_SUFFIX;
      while i < SUFFIX_LIMIT
        invariant FIRST_SUFFIX <= i <= SUFFIX_LIMIT
        invariant FirstFree(taken, options[i - FIRST_SUFFIX..], nick) == FirstFree(taken, options, nick)
      {
        var composed := base + Decimal(i);
        duplicate := CheckNickIsUnique(composed);
        if !duplicate {
          return composed;
        }
        assert options[i - FIRST_SUFFIX..][1..] == options[i + 1 - FIRST_SUFFIX..];
        i := i + 1;
      }
    }

    /** Appends a client nobody else knows. */
    method PushClient(c: Client)
      requires Valid() && c !in repr && c.broadcaster !in repr && c.receiver !in repr && c.spamFilter !in repr
      requires IndexOf(Relay.Users(state.clients), c.user.uid) < 0
      modifies this`clients, this`state, this`repr
      ensures Valid() && repr == old(repr) + {c, c.broadcaster, c.receiver, c.spamFilter}
      ensures clients == old(clients) + [c]
      ensures state == old(state).(clients := old(state).clients + [c.View()])
    {
      ghost var more := repr + {c, c.broadcaster, c.receiver, c.spamFilter};
      NewcomerFits(clients, c, killQueue, beingKilled, state, repr, more);
      clients := clients + [c];
      repr := more;
      state := state.(clients := state.clients + [c.View()]);
    }

    /** The record of the new user: next id, least free colour, unused name. */
    method ComposeUser(user: UserInfo) returns (u: UserInfo)
      requires Valid()
      ensures u == Relay.NewUser(Relay.Users(state.clients), user, freeUserId)
    {
      var nick := ComposeNick(user.name);
      var colour := GetFreePlayerColour();
      u := user.(uid := freeUserId, colour := colour, name := nick);
    }

    method CountUser(u: UserInfo)
      requires Valid()
      modifies this`botCount, this`freeUserId, this`state
      ensures Valid()
      ensures state == old(state).(botCount := old(state).botCount + if IsBot(u) then 1 else 0,
                                   freeUid := Relay.NextUid(old(state).freeUid))
    {
      if IsBot(u) {
        botCount := botCount + 1;
      }
      freeUserId := (freeUserId + 1) % UINT32_LIMIT;
      state := state.(botCount := botCount, freeUid := freeUserId);
    }

    /** Puts the new client into the list and starts its threads. */
    method Admit(cfg: Relay.Config, user: UserInfo, memory: nat -> Octet)
      requires Valid() && Relay.Find(state.clients, state.freeUid) < 0
      modifies this
      ensures Valid() && fresh(repr - old(repr)) && old(repr) <= repr
      ensures state == Relay.Admitted(cfg, old(state), user)
      ensures |clients| == |old(clients)| + 1
    {
      var u := ComposeUser(user);
      CountUser(u);
      var toAdd := NewRunningClient(cfg, u, memory);
      PushClient(toAdd);
    }

    method CreateClient(cfg: Relay.Config, user: UserInfo, banned: bool, welcomed: bool, memory: nat -> Octet)
        returns (outcome: Relay.JoinOutcome)
      requires Valid() && Relay.Find(state.clients, state.freeUid) < 0
      modifies this, repr
      ensures Valid() && fresh(repr - old(repr))
      ensures state == Relay.CreateClient(cfg, old(state), user, banned, welcomed)
      ensures outcome == Relay.JoinResult(cfg, old(state), banned, welcomed)
    {
      if banned {
        return Relay.Banned;
      }
      if |clients| >= cfg.maxClients + botCount {
        return Relay.ServerFull;
      }
      var clientId := freeUserId;
      Admit(cfg, user, memory);
      if !welcomed {
        QueueClientForDisconnect(clientId);
        return Relay.WelcomeFailed;
      }
      var last := clients[|clients| - 1];
      assert last.View() == state.clients[|clients| - 1];
      QueueToAudience(Relay.Everyone, Relay.JoinMessage(last.user));
      return Relay.Joined;
    }

    // -------------------------------------------------------------- leaving

    /** Position of the last client with this id, or 0. */
    method FindPosition(uid: nat) returns (pos: nat)
      requires Valid()
      ensures pos == LastIndexOf(Relay.Users(state.clients), uid)
    {
      ghost var us := Relay.Users(state.clients);
      pos := 0;
      for i := 0 to |clients|
        invariant pos == LastIndexOf(us[..i], uid)
      {
        assert clients[i].View() == state.clients[i] && us[i] == state.clients[i].user;
        assert us[..i + 1][..i] == us[..i];
        if clients[i].user.uid == uid {
          pos := i;
        }
      }
      assert us[..|clients|] == us;
    }

    method UncountBot(u: UserInfo)
      requires Valid()
      modifies this`botCount, this`state
      ensures Valid()
      ensures state == old(state).(botCount := old(state).botCount - if IsBot(u) then 1 else 0)
    {
      if IsBot(u) {
        botCount := botCount - 1;
      }
      state := state.(botCount := botCount);
    }

    method MoveToKillQueue(pos: nat)
      requires Valid() && pos < |clients|
      modifies this`clients, this`killQueue, this`state
      ensures Valid() && state == MovedOut(old(state), pos)
    {
      RelayMembership.UsersRemoveAt(state.clients, pos);
      RelayMembership.RemovedDistinct(Relay.Users(state.clients), pos);
      RepresentsLess(clients, state.clients, repr, pos);
      MovedApart(clients, killQueue, beingKilled, pos);
      var client := clients[pos];
      assert client.View() == state.clients[pos];
      state := MovedOut(state, pos);
      clients := RemoveAt(clients, pos);
      killQueue := killQueue + [client];
    }

    /** The client at `i` is not counted any more, and everybody is told. */
    method AnnounceLeave(i: nat)
      requires Valid() && i < |clients|
      modifies this`botCount, this`state, repr
      ensures Valid() && state == LeaveAnnounced(old(state), i)
    {
      assert clients[i].View() == state.clients[i];
      var user := clients[i].user;
      UncountBot(user);
      QueueToAudience(Relay.Everyone, Relay.LeaveMessage(user.uid));
    }

    method QueueClientForDisconnect(uid: nat)
      requires Valid()
      modifies this`clients, this`botCount, this`killQueue, this`state, repr
      ensures Valid() && state == Relay.Disconnect(old(state), uid)
    {
      var i := FindClientById(uid);
      if i < 0 {
        return;
      }
      ghost var before := state;
      AnnounceLeave(i);
      var pos := FindPosition(uid);
      DisconnectedAt(before, uid, i, pos);
      MoveToKillQueue(pos);
    }

    method DisconnectClient(uid: nat)
      requires Valid()
      modifies this`clients, this`botCount, this`killQueue, this`state, repr
      ensures Valid() && state == Relay.Disconnect(old(state), uid)
    {
      QueueClientForDisconnect(uid);
    }

    // -------------------------------------------------------------- late introduction

    /** Registers of one client's streams, by ascending id, for the client at `to`. */
    method SendRegisters(streams: map<nat, Registration>, owner: UserInfo, to: nat, ghost c: Relay.Client)
      requires Valid() && to < |clients| && c.streams == streams && c.user == owner
      modifies this`state, clients[to].broadcaster
      ensures Valid() && old(state).clients != []
      ensures state == old(state).(clients := Extended(old(state).clients, to, Relay.Registers(c, streams.Keys)))
    {
      var keys := streams.Keys;
      ghost var all := Relay.Registers(c, keys);
      ghost var sent := [];
      ExtendedByNothing(state.clients, to);
      while keys != {}
        invariant keys <= streams.Keys && sent + Relay.Registers(c, keys) == all
        invariant Valid() && state == old(state).(clients := Extended(old(state).clients, to, sent))
        decreases keys
      {
        var sid := LeastOf(keys);
        var msg := Relay.RegisterMessage(owner.uid, sid, streams[sid]);
        ExtendedByOne(old(state).clients, to, sent, msg);
        SentOneMore(c, keys, sent, msg);
        QueueTo(to, msg);
        sent := sent + [msg];
        keys := keys - {sid};
      }
      assert sent == all;
    }

    /** One round of the introduction: the new user to the client at `i`, that client to the new user. */
    method IntroduceTo(i: nat, at: nat)
      requires Valid() && i < |clients| && at < |clients|
      modifies this`state, repr
      ensures Valid() && state == RoundMade(old(state), at, i)
    {
      assert clients[i].View() == state.clients[i] && clients[at].View() == state.clients[at];
      var newUser, client := clients[at].user, clients[i];
      ghost var c := state.clients[i];
      IntroduceToResult(state.clients, at, i);
      QueueTo(i, Relay.InfoMessage(newUser));
      QueueTo(at, Relay.InfoMessage(client.user));
      SendRegisters(client.streams, client.user, at, c);
    }

    /** The loop over all clients, the new one included. */
    method IntroduceToAll(at: nat)
      requires Valid() && at < |clients|
      modifies this`state, repr
      ensures Valid() && state == RoundsMade(old(state), at, |old(state).clients|)
    {
      ghost var before := state;
      var i := 0;
      while i < |clients|
        invariant 0 <= i <= |clients| == |before.clients|
        invariant Valid() && state == RoundsMade(before, at, i)
      {
        IntroduceTo(i, at);
        i := i + 1;
      }
    }

    method IntroduceNewClientToAllVehicles(at: nat)
      requires Valid() && at < |clients|
      modifies this`state, repr
      ensures Valid()
      ensures state == old(state).(clients := Introduced(old(state).clients, at, |old(state).clients|))
    {
      RoundsIntroduce(state, at, |state.clients|);
      IntroduceToAll(at);
    }

    method NotifyAllVehicles(at: nat)
      requires Valid() && at < |clients|
      modifies this`state, repr
      ensures Valid()
      ensures state == old(state).(clients :=
                if old(state).clients[at].initialized then old(state).clients
                else Relay.Introduce(old(state).clients, at))
    {
      ghost var before := state.clients;
      assert clients[at].View() == state.clients[at];
      if !clients[at].isInitialized {
        IntroduceNewClientToAllVehicles(at);
        MarkInitialized(at);
        IntroducedToAll(before, at);
      }
    }

    method MarkInitialized(at: nat)
      requires Valid() && at < |clients|
      modifies this`state, clients[at]
      ensures Valid()
      ensures state == old(state).(clients := old(state).clients[at := old(state).clients[at].(initialized := true)])
    {
      ghost var c: Relay.Client := state.clients[at].(initialized := true);
      var client := clients[at];
      client.isInitialized := true;
      state := state.(clients := state.clients[at := c]);
      StaysValid(Change(this, at, c));
    }

    /** The receiver thread has started. */
    method SetReceiveData(at: nat)
      requires Valid() && at < |clients|
      modifies this`state, clients[at]
      ensures Valid()
      ensures state == old(state).(clients := old(state).clients[at := old(state).clients[at].(receiving := true)])
    {
      ghost var c: Relay.Client := state.clients[at].(receiving := true);
      var client := clients[at];
      client.isReceivingData := true;
      state := state.(clients := state.clients[at := c]);
      StaysValid(Change(this, at, c));
    }

    // -------------------------------------------------------------- messages

    method ReportQuality(at: nat, dropping: bool)
      requires Valid() && at < |clients|
      modifies this`state, clients[at], clients[at].broadcaster
      ensures Valid()
      ensures state == old(state).(clients :=
                old(state).clients[at := Relay.QualityStep(old(state).clients[at], dropping)])
    {
      ghost var c: Relay.Client := Relay.QualityStep(state.clients[at], dropping);
      clients[at].ReportQuality(dropping);
      state := state.(clients := state.clients[at := c]);
      StaysValid(Change(this, at, c));
    }

    /** Stream data: late introduction, then publication of data of registered streams. */
    method PublishData(at: nat, r: Relay.Request)
      requires Valid() && at < |clients| && r.len <= |r.buffer|
      modifies this`state, repr
      ensures Valid() && state == old(state).(clients := Relay.RelayData(old(state).clients, at, r))
    {
      NotifyAllVehicles(at);
      var client := clients[at];
      assert client.View() == state.clients[at];
      if r.streamid in client.streams {
        QueueToAudience(Relay.ListeningBut(at),
                        Message(r.kind, client.user.uid, r.streamid, Octets(r.buffer[..r.len])));
      }
    }

    method SetStreams(at: nat, streams: map<nat, Registration>, ghost announced: map<nat, Registration>)
      requires Valid() && at < |clients|
      modifies this`state, clients[at]
      ensures Valid()
      ensures state == old(state).(clients :=
                old(state).clients[at := old(state).clients[at].(streams := streams, announced := announced)])
    {
      ghost var c: Relay.Client := state.clients[at].(streams := streams, announced := announced);
      clients[at].SetStreams(streams, announced);
      state := state.(clients := state.clients[at := c]);
      StaysValid(Change(this, at, c));
    }

    method PublishUnregister(at: nat, r: Relay.Request)
      requires Valid() && at < |clients| && r.len <= |r.buffer|
      modifies this`state, repr
      ensures Valid() && state == old(state).(clients := Relay.RemoveStream(old(state).clients, at, r))
    {
      var client := clients[at];
      assert client.View() == state.clients[at];
      if r.streamid in client.streams {
        var uid := client.user.uid;
        SetStreams(at, client.streams - {r.streamid}, client.announced - {r.streamid});
        QueueToAudience(Relay.Listening, Message(StreamUnregister, uid, r.streamid, Octets(r.buffer[..r.len])));
      }
    }

    /** The limiter's records are updated first, then the player is warned if need be. */
    method CheckSpawn(cfg: Relay.Config, at: nat, r: Relay.Request) returns (allowed: bool)
      requires Valid() && at < |clients| && Relay.WellSized(r)
      modifies this`state, repr
      ensures Valid()
      ensures allowed == Relay.SpawnVerdict(cfg, old(state).clients[at], r).allowed
      ensures state == old(state).(clients := Relay.SpawnChecked(cfg, old(state).clients, at, r))
    {
      ghost var before := state.clients;
      assert clients[at].View() == state.clients[at];
      var uid := clients[at].user.uid;
      allowed := true;
      if Relay.IsVehicle(r.buffer) {
        var warned;
        allowed, warned := RecordSpawn(cfg, at, r);
        if warned {
          ServerSay(Relay.ListeningUid(uid));
        }
      }
      SpawnCheckedResult(cfg, before, at, r);
    }

    method RecordSpawn(cfg: Relay.Config, at: nat, r: Relay.Request) returns (allowed: bool, warned: bool)
      requires Valid() && at < |clients| && Relay.WellSized(r) && Relay.IsVehicle(r.buffer)
      modifies this`state, clients[at]
      ensures Valid()
      ensures var c := old(state).clients[at];
              var v := Relay.SpawnVerdict(cfg, c, r);
              && allowed == v.allowed && warned == v.warned
              && state == old(state).(clients := old(state).clients[at :=
                   c.(stamps := v.stamps, spawnChecks := Relay.ChecksAfter(c, r))])
    {
      var client := clients[at];
      assert client.View() == state.clients[at];
      ghost var v := Relay.SpawnVerdict(cfg, state.clients[at], r);
      ghost var c: Relay.Client :=
        state.clients[at].(stamps := v.stamps, spawnChecks := Relay.ChecksAfter(state.clients[at], r));
      allowed, warned := client.CheckSpawnRate(cfg.spawnInterval, cfg.maxSpawnRate, r.now, r.later);
      state := state.(clients := state.clients[at := c]);
      StaysValid(Change(this, at, c));
    }

    /** Too many streams: a notice to the player, one to all, and the player is gone. */
    method Refuse(uid: nat, toPlayer: bool)
      requires Valid()
      modifies this`clients, this`botCount, this`killQueue, this`state, repr
      ensures Valid()
      ensures var cs := old(state).clients;
              var cs1 := if toPlayer then Relay.Tell(cs, Relay.ListeningUid(uid), Relay.NOTICE) else cs;
              state == Relay.Disconnect(old(state).(clients := Relay.Tell(cs1, Relay.Listening, Relay.NOTICE)), uid)
    {
      if toPlayer {
        ServerSay(Relay.ListeningUid(uid));
      }
      ServerSay(Relay.Listening);
      QueueClientForDisconnect(uid);
    }

    method StoreAndPublish(cfg: Relay.Config, at: nat, r: Relay.Request)
      requires Valid() && at < |clients| && Relay.WellSized(r)
      modifies this`state, repr
      ensures Valid() && state == old(state).(clients := Relay.AddStream(cfg, old(state).clients, at, r))
    {
      var client := clients[at];
      assert client.View() == state.clients[at];
      var uid, streams, data := client.user.uid, client.streams, Relay.Terminated(r.buffer);
      streams := streams[r.streamid := data[..REGISTRATION_SIZE]];
      SetStreams(at, streams, client.announced[r.streamid := Padded(data[..r.len])]);
      if Relay.NearLimit(cfg, |streams|) {
        ServerSay(Relay.ListeningUid(uid));
      }
      QueueToAudience(Relay.ListeningBut(at), Relay.RegisterMessage(uid, r.streamid, data[..r.len]));
    }

    /** `undefined` when the name is read although no zero ends it. */
    method RegisterStream(cfg: Relay.Config, at: nat, r: Relay.Request) returns (undefined: bool)
      requires Valid() && at < |clients| && Relay.WellSized(r)
      modifies this`clients, this`botCount, this`killQueue, this`state, repr
      ensures Valid()
      ensures undefined <==> Relay.ReadsName(cfg, old(state).clients[at], r) && 0 !in r.buffer[NAME_OFFSET..]
      ensures !undefined ==> state == Relay.RegisterStream(cfg, old(state), at, r)
    {
      var client := clients[at];
      assert client.View() == state.clients[at];
      if |client.streams| >= cfg.maxVehicles + Relay.NON_VEHICLE_STREAMS {
        Refuse(client.user.uid, true);
        return false;
      }
      undefined := RegisterWithinLimit(cfg, at, r);
    }

    method RegisterWithinLimit(cfg: Relay.Config, at: nat, r: Relay.Request) returns (undefined: bool)
      requires Valid() && at < |clients| && Relay.WellSized(r)
      requires |state.clients[at].streams| < cfg.maxVehicles + Relay.NON_VEHICLE_STREAMS
      modifies this`clients, this`botCount, this`killQueue, this`state, repr
      ensures Valid()
      ensures undefined <==> Relay.ReadsName(cfg, old(state).clients[at], r) && 0 !in r.buffer[NAME_OFFSET..]
      ensures !undefined ==> state == Relay.RegisterStream(cfg, old(state), at, r)
    {
      assert clients[at].View() == state.clients[at];
      RegistrationWithinLimit(cfg, state, at, r);
      var uid := clients[at].user.uid;
      var allowed := CheckSpawn(cfg, at, r);
      if allowed && Relay.IsVehicle(r.buffer) && 0 !in r.buffer[NAME_OFFSET..] {
        return true;
      }
      if !allowed || (Relay.IsVehicle(r.buffer) && !Relay.ValidVehicleName(Relay.CString(r.buffer[NAME_OFFSET..]))) {
        Refuse(uid, false);
      } else {
        StoreAndPublish(cfg, at, r);
      }
      return false;
    }

    method RunCommand(at: nat, command: Relay.Command)
      requires Valid() && at < |clients|
      modifies this`clients, this`botCount, this`killQueue, this`state, repr
      ensures Valid() && state == Relay.RunCommand(old(state), at, command)
    {
      assert clients[at].View() == state.clients[at];
      var user := clients[at].user;
      match command
      case Answered(notices) => SayEach(notices);
      case KickCommand(target) =>
        var found := FindClientById(target);
        if !IsStaff(user) || found < 0 {
          ServerSay(Relay.ListeningUid(user.uid));
        } else {
          ServerSay(Relay.Listening);
          QueueClientForDisconnect(target);
        }
    }

    /** The sender's filter is asked about a line that is no command. */
    method Moderate(cfg: Relay.Config, at: nat, text: SpamFilter.Text, r: Relay.Request)
        returns (spam: bool, notices: nat)
      requires Valid() && at < |clients| && text == Relay.LineText(r)
      modifies this`state, clients[at].spamFilter
      ensures Valid()
      ensures state == old(state).(clients :=
                old(state).clients[at := Relay.Spoken(cfg, old(state).clients[at], r)])
      ensures spam <==> SpamFilter.IsActive(cfg.spam) && Relay.FilterAfter(cfg, old(state).clients[at], r).gag.Gagged?
      ensures notices == Relay.FilterNotices(cfg, old(state).clients[at], r)
    {
      assert clients[at].View() == state.clients[at];
      ghost var c: Relay.Client := Relay.Spoken(cfg, state.clients[at], r);
      spam, notices := clients[at].Moderate(cfg, text, r);
      state := state.(clients := state.clients[at := c]);
      StaysValid(Change(this, at, c));
    }

    /** A line that is no command. */
    method SayLine(cfg: Relay.Config, at: nat, text: SpamFilter.Text, r: Relay.Request)
      requires Valid() && at < |clients| && Relay.WellSized(r) && text == Relay.LineText(r) && !Relay.IsCommand(r)
      modifies this`state, repr
      ensures Valid() && state == old(state).(clients := Relay.SayLine(cfg, old(state).clients, at, r))
    {
      assert clients[at].View() == state.clients[at];
      var uid := clients[at].user.uid;
      var spam, notices := Moderate(cfg, at, text, r);
      SayLines(Relay.ListeningUid(uid), notices);
      if !spam {
        QueueToAudience(Relay.Listening, Relay.LineMessage(uid, r));
      }
    }

    /** Chat: the payload buffer is read up to its first zero and cleaned; commands are carried out, other lines
        are published as the spam filter says. `undefined` when there is no zero or the cleaning overruns. */
    method HandleChat(cfg: Relay.Config, at: nat, r: Relay.Request) returns (undefined: bool)
      requires Valid() && at < |clients| && Relay.WellSized(r)
      modifies this`clients, this`botCount, this`killQueue, this`state, repr
      ensures Valid()
      ensures undefined <==> 0 !in r.buffer || Utf8.Overruns(Relay.CString(r.buffer))
      ensures !undefined ==> state == Relay.Chat(cfg, old(state), at, r)
    {
      if 0 !in r.buffer {
        return true;
      }
      var str := Utf8.SanitizeUtf8(Relay.CString(r.buffer), Utf8.REPLACEMENT);
      if str.Overrun? {
        return true;
      }
      if str.text != [] && str.text[0] == Relay.BANG {
        RunCommand(at, r.command);
      } else {
        SayLine(cfg, at, str.text, r);
      }
      return false;
    }

    method ForwardResult(uid: nat, r: Relay.Request)
      requires Valid() && Relay.WellSized(r)
      modifies this`state, repr
      ensures Valid() && state == old(state).(clients := Relay.ForwardResult(old(state).clients, uid, r))
    {
      var origin := FindClientById(Relay.OriginUid(r.buffer));
      if origin >= 0 {
        QueueTo(origin, Message(StreamRegisterResult, uid, r.streamid, Octets(r.buffer[..REGISTRATION_SIZE])));
      }
    }

    /** Private chat looks for its addressee under the sender's own id. `undefined` when the unsigned length of
        the copy exceeds the queue entry. */
    method PassPrivateChat(at: nat, r: Relay.Request) returns (undefined: bool)
      requires Valid() && at < |clients| && Relay.WellSized(r)
      modifies this`state, repr
      ensures Valid()
      ensures undefined <==> r.len < ADDRESS_SIZE
      ensures !undefined ==> state == old(state).(clients := Relay.PrivateChat(old(state).clients, at, r))
    {
      assert clients[at].View() == state.clients[at];
      assert Relay.Users(state.clients)[at] == state.clients[at].user;
      RelayUndefined.ShortLinesOverflow(r.len);
      var uid := clients[at].user.uid;
      var to := FindClientById(uid);
      undefined := false;
      if to >= 0 {
        undefined := RelayUndefined.CopiedLength(r.len) > MAX_MESSAGE_LENGTH;
        if !undefined {
          QueueTo(to, Relay.PrivateMessage(uid, r));
        }
      }
    }

    /** Whether the queue of the client with this id is dropping packets. */
    ghost function IsDropping(uid: nat): bool
      requires Valid()
      reads this, repr
    {
      var i := Relay.Find(state.clients, uid);
      i >= 0 && clients[i].broadcaster.isDroppingPackets
    }

    /** queueMessage: called by the receiver threads. The sender's queue says whether packets are dropped. */
    method QueueMessage(cfg: Relay.Config, uid: nat, received: Relay.Request) returns (undefined: bool)
      requires Valid() && Relay.WellSized(received)
      modifies this`clients, this`botCount, this`killQueue, this`state, repr
      ensures Valid()
      ensures undefined <==> RelayUndefined.BreaksOff(cfg, old(state), uid, received)
      ensures !undefined ==>
                state == Relay.Receive(cfg, old(state), uid, received.(dropping := old(IsDropping(uid))))
    {
      var at := FindClientById(uid);
      if at < 0 {
        return false;
      }
      var r := received.(dropping := clients[at].broadcaster.isDroppingPackets);
      StillUndefined(cfg, state.clients[at], received, r.dropping);
      ReportQuality(at, r.dropping);
      undefined := HandleMessage(cfg, at, r);
    }

    method HandleMessage(cfg: Relay.Config, at: nat, r: Relay.Request) returns (undefined: bool)
      requires Valid() && Relay.WellSized(r) && at < |clients|
      modifies this`clients, this`botCount, this`killQueue, this`state, repr
      ensures Valid()
      ensures undefined <==> Relay.Undefined(cfg, old(state).clients[at], r)
      ensures !undefined ==> state == Relay.Handle(cfg, old(state), at, r)
    {
      assert clients[at].View() == state.clients[at];
      var uid := clients[at].user.uid;
      undefined := false;
      match r.kind
      case StreamData => PublishData(at, r);
      case StreamDataDiscardable => PublishData(at, r);
      case StreamRegister => undefined := RegisterStream(cfg, at, r);
      case StreamRegisterResult => ForwardResult(uid, r);
      case StreamUnregister => PublishUnregister(at, r);
      case UserLeave => QueueClientForDisconnect(uid);
      case Utf8Chat => undefined := HandleChat(cfg, at, r);
      case Utf8PrivateChat => undefined := PassPrivateChat(at, r);
      case _ =>
    }

    /** The receiver thread of the client has started. */
    method Listen(uid: nat)
      requires Valid()
      modifies this`state, repr
      ensures Valid()
      ensures state == old(state).(clients := Relay.StartListening(old(state).clients, uid))
    {
      var at := FindClientById(uid);
      if at >= 0 {
        SetReceiveData(at);
      }
    }

    // -------------------------------------------------------------- killer thread

    /** Only a running thread is asked to stop. */
    method StopKillerThread()
      requires Valid()
      modifies this`killerState, this`state
      ensures Valid() && state == Relay.KillerStop(old(state))
    {
      if !killerState.Running? {
        return;
      }
      killerState := StopRequested;
      state := Relay.KillerStop(state);
    }

    /** The section in which the killer thread looks at its queue, after the wait. */
    method KillerThreadWaitForClient() returns (killer: ThreadState)
      requires Valid() && beingKilled == []
      modifies this`killQueue, this`beingKilled, this`state
      ensures Valid() && state == Relay.KillerTake(old(state)) && killer == killerState == old(killerState)
    {
      killer := killerState;
      if killQueue != [] {
        var client := killQueue[0];
        killQueue := killQueue[1..];
        if !killer.StopRequested? {
          beingKilled := [client];
        }
      }
      state := Relay.KillerTake(state);
    }

    /** Stops and joins both threads of the client, then deletes it. */
    method KillerThreadProcessClient(socketOk: nat -> bool)
      requires Valid() && beingKilled != []
      requires state.killing[0].receiver.Running? && state.killing[0].broadcaster.Running?
      modifies this`beingKilled, this`state, repr
      ensures Valid()
      ensures state == old(state).(killing := [],
                                   destroyed := old(state).destroyed + [Relay.Stopped(old(state).killing[0])])
    {
      var client := beingKilled[0];
      assert client.View() == state.killing[0];
      client.Disconnect(socketOk);
      state := state.(killing := [], destroyed := state.destroyed + [Relay.Stopped(state.killing[0])]);
      beingKilled := [];
    }
  }

  lemma RegistrationWithinLimit(cfg: Relay.Config, s: Relay.Server, at: nat, r: Relay.Request)
    requires at < |s.clients| && Relay.WellSized(r)
    requires |s.clients[at].streams| < cfg.maxVehicles + Relay.NON_VEHICLE_STREAMS
    ensures var c, cs := s.clients[at], Relay.SpawnChecked(cfg, s.clients, at, r);
            Relay.RegisterStream(cfg, s, at, r)
              == if !Relay.SpawnVerdict(cfg, c, r).allowed
                    || (Relay.IsVehicle(r.buffer) && !Relay.ValidVehicleName(Relay.CString(r.buffer[NAME_OFFSET..])))
                 then Relay.Disconnect(s.(clients := Relay.Tell(cs, Relay.Listening, Relay.NOTICE)), c.user.uid)
                 else s.(clients := Relay.AddStream(cfg, cs, at, r))
  {
  }

  /** What the report on the connection changes has no influence on what is undefined. */
  lemma StillUndefined(cfg: Relay.Config, c: Relay.Client, r: Relay.Request, dropping: bool)
    requires Relay.WellSized(r)
    ensures Relay.Undefined(cfg, Relay.QualityStep(c, dropping), r.(dropping := dropping))
       <==> Relay.Undefined(cfg, c, r)
  {
  }

  lemma SpawnCheckedResult(cfg: Relay.Config, cs: seq<Relay.Client>, at: nat, r: Relay.Request)
    requires at < |cs| && Relay.WellSized(r)
    ensures var v := Relay.SpawnVerdict(cfg, cs[at], r);
            var cs1 := cs[at := cs[at].(stamps := v.stamps, spawnChecks := Relay.ChecksAfter(cs[at], r))];
            Relay.SpawnChecked(cfg, cs, at, r)
              == if v.warned then Relay.Tell(cs1, Relay.ListeningUid(cs[at].user.uid), Relay.NOTICE) else cs1
    ensures !Relay.IsVehicle(r.buffer) ==> Relay.SpawnChecked(cfg, cs, at, r) == cs
  {
  }

  /** The client at `to` has been sent `ms` in addition. */
  function Extended(cs: seq<Relay.Client>, to: nat, ms: seq<Message>): (r: seq<Relay.Client>)
    requires to < |cs|
    ensures |r| == |cs|
  {
    cs[to := cs[to].(log := cs[to].log + ms)]
  }

  lemma ExtendedByNothing(cs: seq<Relay.Client>, to: nat)
    requires to < |cs|
    ensures Extended(cs, to, []) == cs
  {
    assert cs[to].log + [] == cs[to].log;
  }

  lemma ExtendedByOne(cs: seq<Relay.Client>, to: nat, ms: seq<Message>, m: Message)
    requires to < |cs|
    ensures var cs' := Extended(cs, to, ms); cs'[to := Relay.Told(cs'[to], m)] == Extended(cs, to, ms + [m])
  {
    assert cs[to].log + (ms + [m]) == cs[to].log + ms + [m];
  }

  /** The clients after the one at `i` has been told of the newcomer at `at`, and the newcomer of it. */
  function Round(cs: seq<Relay.Client>, at: nat, i: nat): (r: seq<Relay.Client>)
    requires at < |cs| && i < |cs|
    ensures |r| == |cs|
  {
    var cs1 := if i == at then cs else cs[i := Relay.Told(cs[i], Relay.InfoMessage(cs[at].user))];
    Extended(cs1, at, Relay.Section(cs, at, i))
  }

  /** The two USER_INFO messages and the registrations make up one section of the introduction. */
  lemma IntroduceToResult(cs: seq<Relay.Client>, at: nat, i: nat)
    requires at < |cs| && i < |cs|
    ensures var c, info := cs[i], Relay.InfoMessage(cs[at].user);
            var told := cs[i := Relay.Told(c, info)];
            Extended(told[at := Relay.Told(told[at], Relay.InfoMessage(c.user))], at, Relay.Registers(c, c.streams.Keys))
              == Round(cs, at, i)
  {
    var c, info := cs[i], Relay.InfoMessage(cs[at].user);
    var regs := Relay.Registers(c, c.streams.Keys);
    var log := cs[at].log;
    if i == at {
      assert log + [info] + [info] + regs == log + ([info] + [info] + regs);
    } else {
      assert log + [Relay.InfoMessage(c.user)] + regs == log + ([] + [Relay.InfoMessage(c.user)] + regs);
    }
  }

  /** The clients after the newcomer at `at` has been introduced to the first `n` of them. */
  function Introduced(cs: seq<Relay.Client>, at: nat, n: nat): (r: seq<Relay.Client>)
    requires at < |cs| && n <= |cs|
    ensures |r| == |cs|
  {
    seq(|cs|, i requires 0 <= i < |cs| =>
      if i == at then cs[at].(log := cs[at].log + Relay.Introduction(cs, at, n))
      else if i < n then Relay.Told(cs[i], Relay.InfoMessage(cs[at].user))
      else cs[i])
  }

  function RoundMade(s: Relay.Server, at: nat, i: nat): (s': Relay.Server)
    requires at < |s.clients| && i < |s.clients|
    ensures |s'.clients| == |s.clients|
  {
    s.(clients := Round(s.clients, at, i))
  }

  function RoundsMade(s: Relay.Server, at: nat, n: nat): (s': Relay.Server)
    requires at < |s.clients| && n <= |s.clients|
    ensures |s'.clients| == |s.clients|
  {
    if n == 0 then s else RoundMade(RoundsMade(s, at, n - 1), at, n - 1)
  }

  /** The rounds, one by one, make the introduction. */
  lemma {:induction false} RoundsIntroduce(s: Relay.Server, at: nat, n: nat)
    requires at < |s.clients| && n <= |s.clients|
    ensures RoundsMade(s, at, n) == s.(clients := Introduced(s.clients, at, n))
  {
    if n == 0 {
      assert s.clients[at].log + [] == s.clients[at].log;
      assert Introduced(s.clients, at, 0) == s.clients;
    } else {
      RoundsIntroduce(s, at, n - 1);
      IntroducedOneMore(s.clients, at, n - 1);
    }
  }

  lemma IntroducedToAll(cs: seq<Relay.Client>, at: nat)
    requires at < |cs|
    ensures var cs' := Introduced(cs, at, |cs|); cs'[at := cs'[at].(initialized := true)] == Relay.Introduce(cs, at)
  {
  }

  lemma SectionSame(cs: seq<Relay.Client>, cs': seq<Relay.Client>, at: nat, k: nat)
    requires |cs'| == |cs| && at < |cs| && k < |cs|
    requires cs'[k].user == cs[k].user && cs'[k].streams == cs[k].streams
    ensures Relay.Section(cs', at, k) == Relay.Section(cs, at, k)
  {
    RegistersSame(cs[k], cs'[k], cs[k].streams.Keys);
  }

  lemma {:induction false} RegistersSame(c: Relay.Client, c': Relay.Client, keys: set<nat>)
    requires c'.user == c.user && c'.streams == c.streams && keys <= c.streams.Keys
    ensures Relay.Registers(c', keys) == Relay.Registers(c, keys)
  {
    if keys != {} {
      RegistersSame(c, c', keys - {Relay.Min(keys)});
    }
  }

  lemma IntroducedOneMore(cs: seq<Relay.Client>, at: nat, n: nat)
    requires at < |cs| && n < |cs|
    ensures Introduced(cs, at, n + 1) == Round(Introduced(cs, at, n), at, n)
  {
    var cs1 := Introduced(cs, at, n);
    SectionSame(cs, cs1, at, n);
    assert cs[at].log + (Relay.Introduction(cs, at, n) + Relay.Section(cs, at, n))
        == (cs[at].log + Relay.Introduction(cs, at, n)) + Relay.Section(cs, at, n);
  }

  /** The first key of a std::map. */
  method LeastOf(keys: set<nat>) returns (m: nat)
    requires keys != {}
    ensures m == Relay.Min(keys)
  {
    m :| m in keys;
    var rest := keys - {m};
    while rest != {}
      invariant rest <= keys && m in keys && m !in rest
      invariant forall k :: k in keys && k !in rest ==> m <= k
      decreases rest
    {
      var k :| k in rest;
      if k < m {
        m := k;
      }
      rest := rest - {k};
    }
  }

  method NewRunningClient(cfg: Relay.Config, u: UserInfo, memory: nat -> Octet) returns (c: Client)
    ensures fresh(c) && fresh(c.broadcaster) && fresh(c.receiver) && fresh(c.spamFilter)
    ensures c.View() == Relay.NewClient(cfg, u)
  {
    c := new Client(cfg, u, memory);
    c.StartThreads();
  }

  lemma AppendKeepsIds(cs: seq<Relay.Client>, c: Relay.Client)
    requires DistinctUids(Relay.Users(cs)) && IndexOf(Relay.Users(cs), c.user.uid) < 0
    ensures DistinctUids(Relay.Users(cs + [c]))
  {
    RelayMembership.UsersAppend(cs, c);
  }
}
