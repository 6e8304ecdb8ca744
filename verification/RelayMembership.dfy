/** Introductions, leaves and joins keep every view in step with the server. */
module RelayMembership {
  import opened RoRnet
  import opened Identity
  import opened Replica
  import opened Relay
  import opened RelayInvariant

  // ---------------------------------------------------------------- introduction

  lemma ShowSeen(log: seq<Message>, m: Message, u: UserInfo)
    requires m == InfoMessage(u) || m == JoinMessage(u)
    ensures var v, v' := Replay(log), Replay(log + [m]);
            v'.streams == v.streams &&
            forall uid :: UserSeen(v', uid) == if uid == u.uid then Some(Public(u)) else UserSeen(v, uid)
  {
    ReplayAppend(log, m);
  }

  lemma {:induction false} RegistersSeen(log: seq<Message>, c: Client, keys: set<nat>)
    requires keys <= c.streams.Keys
    ensures var v, v' := Replay(log), Replay(log + Registers(c, keys));
            v'.users == v.users &&
            forall u, s :: StreamSeen(v', u, s)
              == if u == c.user.uid && s in keys then Some(c.streams[s]) else StreamSeen(v, u, s)
    decreases keys
  {
    if keys == {} {
      assert log + Registers(c, keys) == log;
    } else {
      var sid := Min(keys);
      var m := RegisterMessage(c.user.uid, sid, c.streams[sid]);
      RegisterSeen(log, c.user.uid, sid, c.streams[sid]);
      RegistersSeen(log + [m], c, keys - {sid});
      assert log + Registers(c, keys) == log + [m] + Registers(c, keys - {sid});
      assert Padded(c.streams[sid]) == c.streams[sid];
    }
  }

  /** Exactly one client is shown anew, with its streams. */
  ghost predicate ShowsClient(c: Client, v: View, v': View) {
    && (forall u :: UserSeen(v', u) == if u == c.user.uid then Some(Public(c.user)) else UserSeen(v, u))
    && (forall u, s :: StreamSeen(v', u, s) ==
          if u == c.user.uid && s in c.streams then Some(c.streams[s]) else StreamSeen(v, u, s))
  }

  /** What the messages about one client show to the newcomer. */
  lemma SectionSeen(log: seq<Message>, section: seq<Message>, c: Client, own: bool)
    requires section == (if own then [InfoMessage(c.user)] else []) + [InfoMessage(c.user)]
                        + Registers(c, c.streams.Keys)
    ensures ShowsClient(c, Replay(log), Replay(log + section))
  {
    var first := if own then [InfoMessage(c.user)] else [];
    var log1 := log + first;
    var log2 := log1 + [InfoMessage(c.user)];
    if own {
      ShowSeen(log, InfoMessage(c.user), c.user);
    } else {
      assert log1 == log;
    }
    ShowSeen(log1, InfoMessage(c.user), c.user);
    RegistersSeen(log2, c, c.streams.Keys);
    assert log + section == log2 + Registers(c, c.streams.Keys);
  }

  /** The client at `i`, and nobody else, is found under its id. */
  lemma FoundAt(cs: seq<Client>, i: nat)
    requires DistinctUids(Users(cs)) && i < |cs|
    ensures forall u :: Find(cs, u) == i <==> u == cs[i].user.uid
    ensures Member(Users(cs), cs[i].user.uid) == Some(Public(cs[i].user))
  {
    IndexOfIs(Users(cs), i);
    assert Users(cs)[i] == cs[i].user;
  }

  /** What is shown after the first `n` clients have been introduced: exactly they, as they are. */
  ghost predicate ShowsFirst(cs: seq<Client>, n: nat, v: View, v': View) {
    && (forall u :: UserSeen(v', u) == if 0 <= Find(cs, u) < n then Member(Users(cs), u) else UserSeen(v, u))
    && (forall u, s :: StreamSeen(v', u, s) ==
          if 0 <= Find(cs, u) < n && s in cs[Find(cs, u)].streams then Registered(cs, u, s) else StreamSeen(v, u, s))
  }

  lemma IntroductionOneMore(cs: seq<Client>, at: nat, k: nat, log: seq<Message>, intro: seq<Message>,
                            section: seq<Message>)
    requires DistinctUids(Users(cs)) && at < |cs| && k < |cs| && section == Section(cs, at, k)
    requires ShowsFirst(cs, k, Replay(log), Replay(log + intro))
    ensures ShowsFirst(cs, k + 1, Replay(log), Replay(log + (intro + section)))
  {
    SectionSeen(log + intro, section, cs[k], k == at);
    ShowsOneMore(cs, k, Replay(log), Replay(log + intro), Replay(log + intro + section));
    assert log + (intro + section) == log + intro + section;
  }

  lemma {:induction false} IntroductionSeen(cs: seq<Client>, at: nat, n: nat, log: seq<Message>)
    requires DistinctUids(Users(cs)) && at < |cs| && n <= |cs|
    ensures ShowsFirst(cs, n, Replay(log), Replay(log + Introduction(cs, at, n)))
  {
    if n == 0 {
      assert log + Introduction(cs, at, n) == log;
    } else {
      var intro, section := Introduction(cs, at, n - 1), Section(cs, at, n - 1);
      IntroductionSeen(cs, at, n - 1, log);
      IntroductionOneMore(cs, at, n - 1, log, intro, section);
    }
  }

  lemma ShowsOneMore(cs: seq<Client>, k: nat, v: View, v1: View, v2: View)
    requires DistinctUids(Users(cs)) && k < |cs| && ShowsFirst(cs, k, v, v1)
    requires ShowsClient(cs[k], v1, v2)
    ensures ShowsFirst(cs, k + 1, v, v2)
  {
    FoundAt(cs, k);
  }

  lemma {:induction false} RegistersOrdinary(c: Client, keys: set<nat>)
    requires keys <= c.streams.Keys
    ensures Ordinary(Registers(c, keys))
  {
    if keys != {} {
      RegistersOrdinary(c, keys - {Min(keys)});
    }
  }

  lemma {:induction false} IntroductionOrdinary(cs: seq<Client>, at: nat, n: nat)
    requires at < |cs| && n <= |cs|
    ensures Ordinary(Introduction(cs, at, n))
    ensures at < n ==> Introduced(Introduction(cs, at, n), cs[at].user.uid)
  {
    if n > 0 {
      var init := Introduction(cs, at, n - 1);
      IntroductionOrdinary(cs, at, n - 1);
      RegistersOrdinary(cs[n - 1], cs[n - 1].streams.Keys);
      assert Introduction(cs, at, n) == init + Section(cs, at, n - 1);
      if at == n - 1 {
        assert OwnInfo((init + Section(cs, at, n - 1))[|init|], cs[at].user.uid);
      } else if at < n - 1 {
        var i :| 0 <= i < |init| && OwnInfo(init[i], cs[at].user.uid);
        assert (init + Section(cs, at, n - 1))[i] == init[i];
      }
    }
  }

  lemma NewcomerIntroduced(cfg: Config, cs: seq<Client>, at: nat)
    requires Sound(cfg, cs) && at < |cs| && cs[at].receiving
    ensures var r := Introduce(cs, at)[at]; ClientOk(cfg, r) && MirrorsUsers(cs, r) && MirrorsStreams(cs, r)
  {
    assert ClientOk(cfg, cs[at]) && MirrorsUsers(cs, cs[at]) && MirrorsStreams(cs, cs[at]);
    IntroductionSeen(cs, at, |cs|, cs[at].log);
    IntroductionOrdinary(cs, at, |cs|);
    LogAppendMany(cs[at].log, Introduction(cs, at, |cs|), cs[at].user.uid, cs[at].initialized);
    QualityAppendMany(cs[at].log, Introduction(cs, at, |cs|), cfg.freshMemory(cs[at].user.uid), cs[at].dropState);
  }

  lemma InfoSeen(cs: seq<Client>, at: nat, r: Client)
    requires DistinctUids(Users(cs)) && at < |cs| && MirrorsUsers(cs, r) && MirrorsStreams(cs, r)
    ensures var r' := Told(r, InfoMessage(cs[at].user)); MirrorsUsers(cs, r') && MirrorsStreams(cs, r')
  {
    ShowSeen(r.log, InfoMessage(cs[at].user), cs[at].user);
    FoundAt(cs, at);
  }

  lemma OthersHearIntroduction(cfg: Config, cs: seq<Client>, at: nat, i: nat)
    requires Sound(cfg, cs) && at < |cs| && i < |cs| && i != at
    ensures var r := Told(cs[i], InfoMessage(cs[at].user));
            ClientOk(cfg, r) && MirrorsUsers(cs, r) && MirrorsStreams(cs, r)
  {
    assert ClientOk(cfg, cs[i]) && MirrorsUsers(cs, cs[i]) && MirrorsStreams(cs, cs[i]);
    assert Users(cs)[i].uid != Users(cs)[at].uid;
    ToldOk(cfg, cs[i], InfoMessage(cs[at].user));
    InfoSeen(cs, at, cs[i]);
  }

  /** The newcomer's view becomes exact; the others are shown what they already may know. */
  lemma IntroduceKeepsSound(cfg: Config, cs: seq<Client>, at: nat)
    requires Sound(cfg, cs) && at < |cs| && cs[at].receiving
    ensures Sound(cfg, Introduce(cs, at)) && SameTables(cs, Introduce(cs, at))
  {
    var cs' := Introduce(cs, at);
    TablesKept(cs, cs');
    forall i | 0 <= i < |cs|
      ensures ClientOk(cfg, cs'[i]) && MirrorsUsers(cs', cs'[i]) && MirrorsStreams(cs', cs'[i])
    {
      if i == at {
        NewcomerIntroduced(cfg, cs, at);
      } else {
        OthersHearIntroduction(cfg, cs, at, i);
      }
    }
  }

  // ---------------------------------------------------------------- leaving

  lemma LeaveSeen(log: seq<Message>, uid: nat)
    ensures var v, v' := Replay(log), Replay(log + [LeaveMessage(uid)]);
            (forall u :: UserSeen(v', u) == if u == uid then None else UserSeen(v, u)) &&
            (forall u, s :: StreamSeen(v', u, s) == if u == uid then None else StreamSeen(v, u, s)) &&
            (v.streams == map[] ==> v'.streams == map[])
  {
    ReplayAppend(log, LeaveMessage(uid));
  }

  lemma RemovedDistinct(us: seq<UserInfo>, p: nat)
    requires DistinctUids(us) && p < |us|
    ensures DistinctUids(RemoveAt(us, p))
  {
    assert forall j :: 0 <= j < |us| - 1 ==> RemoveAt(us, p)[j] == us[if j < p then j else j + 1];
  }

  lemma RemovedAt(us: seq<UserInfo>, p: nat, j: nat)
    requires p < |us| && j < |us| - 1
    ensures RemoveAt(us, p)[j] == us[if j < p then j else j + 1]
  {
  }

  lemma RemoveFound(us: seq<UserInfo>, p: nat, u: nat, i: nat)
    requires DistinctUids(us) && p < |us| && i < |us| && i != p && us[i].uid == u
    ensures IndexOf(RemoveAt(us, p), u) == if i < p then i else i - 1
  {
    var k := if i < p then i else i - 1;
    RemovedDistinct(us, p);
    RemovedAt(us, p, k);
    IndexOfIs(RemoveAt(us, p), k);
  }

  lemma RemoveUser(us: seq<UserInfo>, p: nat, u: nat)
    requires DistinctUids(us) && p < |us|
    ensures var i := IndexOf(us, u);
            IndexOf(RemoveAt(us, p), u) == if i == p then -1 else if i < p then i else i - 1
  {
    var i := IndexOf(us, u);
    if i >= 0 && i != p {
      RemoveFound(us, p, u, i);
    } else {
      forall j | 0 <= j < |us| - 1 ensures RemoveAt(us, p)[j].uid != u {
        RemovedAt(us, p, j);
      }
    }
  }

  lemma UsersRemoveAt(cs: seq<Client>, p: nat)
    requires p < |cs|
    ensures Users(RemoveAt(cs, p)) == RemoveAt(Users(cs), p)
  {
  }

  lemma OthersHearLeave(cfg: Config, cs: seq<Client>, told: seq<Client>, p: nat, j: nat)
    requires Sound(cfg, cs) && p < |cs| && j < |cs| && j != p && SameTables(cs, told)
    ensures var r := Told(cs[j], LeaveMessage(cs[p].user.uid));
            ClientOk(cfg, r) && MirrorsUsers(RemoveAt(told, p), r) && MirrorsStreams(RemoveAt(told, p), r)
  {
    var uid := cs[p].user.uid;
    TablesAfterLeave(cs, told, p);
    assert ClientOk(cfg, cs[j]) && MirrorsUsers(cs, cs[j]) && MirrorsStreams(cs, cs[j]);
    ToldOk(cfg, cs[j], LeaveMessage(uid));
    LeaveSeen(cs[j].log, uid);
  }

  lemma LeaveKeepsDistinct(us: seq<UserInfo>, p: nat)
    requires DistinctUids(us) && DistinctColours(us) && p < |us|
    ensures DistinctUids(RemoveAt(us, p)) && DistinctColours(RemoveAt(us, p))
  {
    var us' := RemoveAt(us, p);
    assert forall j :: 0 <= j < |us'| ==> us'[j] == us[if j < p then j else j + 1];
  }

  /** One of the clients that stay. */
  lemma StayerKeepsView(cfg: Config, cs: seq<Client>, told: seq<Client>, p: nat, i: nat)
    requires Sound(cfg, cs) && p < |cs| && i < |cs| - 1 && told == Tell(cs, Everyone, LeaveMessage(cs[p].user.uid))
    ensures var cs' := RemoveAt(told, p);
            ClientOk(cfg, cs'[i]) && MirrorsUsers(cs', cs'[i]) && MirrorsStreams(cs', cs'[i])
  {
    var j := if i < p then i else i + 1;
    assert RemoveAt(told, p)[i] == told[j] == Told(cs[j], LeaveMessage(cs[p].user.uid));
    OthersHearLeave(cfg, cs, told, p, j);
  }

  /** Once the client at `p` is gone and everybody has been told, every view is right again. */
  lemma LeaveKeepsSound(cfg: Config, cs: seq<Client>, p: nat)
    requires Sound(cfg, cs) && p < |cs|
    ensures Sound(cfg, RemoveAt(Tell(cs, Everyone, LeaveMessage(cs[p].user.uid)), p))
  {
    var uid := cs[p].user.uid;
    var told := Tell(cs, Everyone, LeaveMessage(uid));
    var cs' := RemoveAt(told, p);
    assert Users(told) == Users(cs);
    UsersRemoveAt(told, p);
    LeaveKeepsDistinct(Users(cs), p);
    forall i | 0 <= i < |cs'|
      ensures ClientOk(cfg, cs'[i]) && MirrorsUsers(cs', cs'[i]) && MirrorsStreams(cs', cs'[i])
    {
      StayerKeepsView(cfg, cs, told, p, i);
    }
  }

  lemma TablesAfterLeave(cs: seq<Client>, told: seq<Client>, p: nat)
    requires DistinctUids(Users(cs)) && p < |cs| && SameTables(cs, told)
    ensures forall u :: Member(Users(RemoveAt(told, p)), u)
              == if u == cs[p].user.uid then None else Member(Users(cs), u)
    ensures forall u, s :: Registered(RemoveAt(told, p), u, s)
              == if u == cs[p].user.uid then None else Registered(cs, u, s)
    ensures forall u, s :: Announced(RemoveAt(told, p), u, s)
              == if u == cs[p].user.uid then None else Announced(cs, u, s)
  {
    var cs' := RemoveAt(told, p);
    forall u ensures Member(Users(cs'), u) == if u == cs[p].user.uid then None else Member(Users(cs), u) {
      FindAfterLeave(cs, told, p, u);
    }
    forall u, s
      ensures Registered(cs', u, s) == if u == cs[p].user.uid then None else Registered(cs, u, s)
      ensures Announced(cs', u, s) == if u == cs[p].user.uid then None else Announced(cs, u, s)
    {
      FindAfterLeave(cs, told, p, u);
    }
  }

  lemma IndexAfterLeave(cs: seq<Client>, told: seq<Client>, p: nat, u: nat)
    requires DistinctUids(Users(cs)) && p < |cs| && SameTables(cs, told)
    ensures var cs', i := RemoveAt(told, p), Find(cs, u);
            && Find(cs', u) == (if i == p then -1 else if i < p then i else i - 1)
            && Users(cs') == RemoveAt(Users(cs), p)
  {
    assert Users(told) == Users(cs);
    UsersRemoveAt(told, p);
    RemoveUser(Users(cs), p, u);
  }

  lemma FindAfterLeave(cs: seq<Client>, told: seq<Client>, p: nat, u: nat)
    requires DistinctUids(Users(cs)) && p < |cs| && SameTables(cs, told)
    ensures var cs', i := RemoveAt(told, p), Find(cs, u);
            && (i == p <==> u == cs[p].user.uid)
            && Find(cs', u) == (if i == p then -1 else if i < p then i else i - 1)
            && Users(cs') == RemoveAt(Users(cs), p)
            && (i >= 0 && i != p ==> SameStreams(cs[i], cs'[Find(cs', u)]))
  {
    var i := Find(cs, u);
    FoundAt(cs, p);
    IndexAfterLeave(cs, told, p, u);
    if i >= 0 && i != p {
      LeftAt(told, p, i);
    }
  }

  lemma LeftAt<T>(s: seq<T>, p: nat, i: nat)
    requires p < |s| && i < |s| && i != p
    ensures RemoveAt(s, p)[if i < p then i else i - 1] == s[i]
  {
  }

  /** Telling everybody that a stranger left changes no view that matters. */
  lemma StrangerLeavesSound(cfg: Config, cs: seq<Client>, uid: nat)
    requires Sound(cfg, cs) && Find(cs, uid) < 0
    ensures Sound(cfg, Tell(cs, Everyone, LeaveMessage(uid)))
  {
    var cs' := Tell(cs, Everyone, LeaveMessage(uid));
    TablesKept(cs, cs');
    forall i | 0 <= i < |cs|
      ensures ClientOk(cfg, cs'[i]) && MirrorsUsers(cs', cs'[i]) && MirrorsStreams(cs', cs'[i])
    {
      assert ClientOk(cfg, cs[i]) && MirrorsUsers(cs, cs[i]) && MirrorsStreams(cs, cs[i]);
      ToldOk(cfg, cs[i], LeaveMessage(uid));
      LeaveSeen(cs[i].log, uid);
    }
  }

  // ---------------------------------------------------------------- joining

  lemma AppendUser(us: seq<UserInfo>, u: UserInfo, uid: nat)
    requires IndexOf(us, u.uid) < 0
    ensures Member(us + [u], uid) == if uid == u.uid then Some(Public(u)) else Member(us, uid)
    ensures IndexOf(us + [u], uid) == if uid == u.uid then |us| else IndexOf(us, uid)
  {
    var us' := us + [u];
    assert us'[|us|] == u && forall j :: 0 <= j < |us| ==> us'[j] == us[j];
  }

  lemma UsersAppend(cs: seq<Client>, c: Client)
    ensures Users(cs + [c]) == Users(cs) + [c.user]
  {
  }

  /** The new client starts with its own JOIN message and nothing else. */
  lemma FreshClient(cfg: Config, u: UserInfo)
    ensures ClientOk(cfg, Told(NewClient(cfg, u), JoinMessage(u)))
    ensures Replay([JoinMessage(u)]) == View(map[u.uid := Public(u)], map[])
  {
    var m := JoinMessage(u);
    assert [m][..0] == [] && Replay([]) == EMPTY;
    assert [] + [m] == [m];
    LogAppend([], u.uid, false, m);
    QualityAppend([], cfg.freshMemory(u.uid), cfg.freshMemory(u.uid), m);
  }

  lemma KnownClientsHearJoin(cfg: Config, cs: seq<Client>, cs': seq<Client>, i: nat, u: UserInfo)
    requires Sound(cfg, cs) && Find(cs, u.uid) < 0 && i < |cs|
    requires SameTables(cs + [NewClient(cfg, u)], cs')
    ensures var r := Told(cs[i], JoinMessage(u)); ClientOk(cfg, r) && MirrorsUsers(cs', r) && MirrorsStreams(cs', r)
  {
    var m := JoinMessage(u);
    TablesAfterJoin(cfg, cs, cs', u);
    assert ClientOk(cfg, cs[i]) && MirrorsUsers(cs, cs[i]) && MirrorsStreams(cs, cs[i]);
    ShowSeen(cs[i].log, m, u);
    ToldOk(cfg, cs[i], m);
  }

  lemma NewClientMirrors(cfg: Config, cs: seq<Client>, cs': seq<Client>, u: UserInfo)
    requires Find(cs, u.uid) < 0 && SameTables(cs + [NewClient(cfg, u)], cs')
    ensures var r := Told(NewClient(cfg, u), JoinMessage(u));
            ClientOk(cfg, r) && MirrorsUsers(cs', r) && MirrorsStreams(cs', r)
  {
    TablesAfterJoin(cfg, cs, cs', u);
    FreshClient(cfg, u);
  }

  lemma JoinKeepsDistinct(us: seq<UserInfo>, u: UserInfo)
    requires DistinctUids(us) && DistinctColours(us) && IndexOf(us, u.uid) < 0 && !ColourUsed(us, u.colour)
    ensures DistinctUids(us + [u]) && DistinctColours(us + [u])
  {
  }

  /** A new client with a fresh id and colour, announced to everybody. */
  lemma JoinKeepsSound(cfg: Config, cs: seq<Client>, u: UserInfo)
    requires Sound(cfg, cs) && Find(cs, u.uid) < 0 && !ColourUsed(Users(cs), u.colour)
    ensures Sound(cfg, Tell(cs + [NewClient(cfg, u)], Everyone, JoinMessage(u)))
  {
    var cs1 := cs + [NewClient(cfg, u)];
    var cs' := Tell(cs1, Everyone, JoinMessage(u));
    UsersAppend(cs, NewClient(cfg, u));
    assert Users(cs') == Users(cs) + [u];
    JoinKeepsDistinct(Users(cs), u);
    NewClientMirrors(cfg, cs, cs', u);
    forall i | 0 <= i < |cs'|
      ensures ClientOk(cfg, cs'[i]) && MirrorsUsers(cs', cs'[i]) && MirrorsStreams(cs', cs'[i])
    {
      if i < |cs| {
        assert cs'[i] == Told(cs[i], JoinMessage(u));
        KnownClientsHearJoin(cfg, cs, cs', i, u);
      } else {
        assert cs'[i] == Told(NewClient(cfg, u), JoinMessage(u));
      }
    }
  }

  lemma TablesAfterJoin(cfg: Config, cs: seq<Client>, cs': seq<Client>, u: UserInfo)
    requires Find(cs, u.uid) < 0 && SameTables(cs + [NewClient(cfg, u)], cs')
    ensures forall uid :: Member(Users(cs'), uid) == if uid == u.uid then Some(Public(u)) else Member(Users(cs), uid)
    ensures forall uid, s :: Registered(cs', uid, s) == Registered(cs, uid, s)
    ensures forall uid, s :: Announced(cs', uid, s) == Announced(cs, uid, s)
  {
    forall uid
      ensures Member(Users(cs'), uid) == if uid == u.uid then Some(Public(u)) else Member(Users(cs), uid)
    {
      FindAfterJoin(cfg, cs, cs', u, uid);
    }
    forall uid, s
      ensures Registered(cs', uid, s) == Registered(cs, uid, s) && Announced(cs', uid, s) == Announced(cs, uid, s)
    {
      FindAfterJoin(cfg, cs, cs', u, uid);
    }
  }

  lemma FindAfterJoin(cfg: Config, cs: seq<Client>, cs': seq<Client>, u: UserInfo, uid: nat)
    requires Find(cs, u.uid) < 0 && SameTables(cs + [NewClient(cfg, u)], cs')
    ensures Users(cs') == Users(cs) + [u]
    ensures Find(cs', uid) == if uid == u.uid then |cs| else Find(cs, uid)
    ensures cs'[|cs|].streams == map[] == cs'[|cs|].announced && forall i :: 0 <= i < |cs| ==> SameStreams(cs[i], cs'[i])
    ensures Member(Users(cs'), uid) == if uid == u.uid then Some(Public(u)) else Member(Users(cs), uid)
  {
    var cs1 := cs + [NewClient(cfg, u)];
    UsersAppend(cs, NewClient(cfg, u));
    assert Users(cs') == Users(cs1);
    AppendUser(Users(cs), u, uid);
    assert cs1[|cs|] == NewClient(cfg, u) && forall i :: 0 <= i < |cs| ==> cs1[i] == cs[i];
  }
}
