/** The relay's promises, for every run from the start of the server. */
module RelayTheorems {
  import opened RoRnet
  import opened Identity
  import opened Replica
  import opened Threads
  import opened Relay
  import opened RelayInvariant
  import opened RelayMembership
  import opened RelayRuns

  ghost predicate RegularRun(cfg: Config, s: Server, events: seq<Event>)
    decreases |events|
  {
    events == [] ||
    (Enabled(cfg, s, events[0]) && Regular(s, events[0]) && RegularRun(cfg, Next(cfg, s, events[0]), events[1..]))
  }

  lemma {:induction false} RunKeepsInv(cfg: Config, s: Server, events: seq<Event>)
    requires Inv(cfg, s) && RegularRun(cfg, s, events)
    ensures Runs(cfg, s, events) && Inv(cfg, Run(cfg, s, events))
    decreases |events|
  {
    if events != [] {
      NextKeepsInv(cfg, s, events[0]);
      RunKeepsInv(cfg, Next(cfg, s, events[0]), events[1..]);
    }
  }

  /** A state of the server that some run reaches. */
  ghost predicate Reachable(cfg: Config, s: Server) {
    exists events :: RegularRun(cfg, STARTED, events) && Runs(cfg, STARTED, events) && s == Run(cfg, STARTED, events)
  }

  lemma ReachableInv(cfg: Config, s: Server)
    requires Reachable(cfg, s)
    ensures Inv(cfg, s)
  {
    var events :| RegularRun(cfg, STARTED, events) && Runs(cfg, STARTED, events) && s == Run(cfg, STARTED, events);
    StartedInv(cfg);
    RunKeepsInv(cfg, STARTED, events);
  }

  lemma {:induction false} RegularRunOn(cfg: Config, s: Server, events: seq<Event>, e: Event)
    requires RegularRun(cfg, s, events) && Runs(cfg, s, events)
    requires Enabled(cfg, Run(cfg, s, events), e) && Regular(Run(cfg, s, events), e)
    ensures RegularRun(cfg, s, events + [e]) && Runs(cfg, s, events + [e])
    ensures Run(cfg, s, events + [e]) == Next(cfg, Run(cfg, s, events), e)
    decreases |events|
  {
    if events == [] {
      assert [e][1..] == [];
    } else {
      RegularRunOn(cfg, Next(cfg, s, events[0]), events[1..], e);
      assert (events + [e])[1..] == events[1..] + [e];
    }
  }

  /** What can be reached from a reachable state is reachable. */
  lemma ReachableNext(cfg: Config, s: Server, e: Event)
    requires Reachable(cfg, s) && Enabled(cfg, s, e) && Regular(s, e)
    ensures Reachable(cfg, Next(cfg, s, e))
  {
    var events :| RegularRun(cfg, STARTED, events) && Runs(cfg, STARTED, events) && s == Run(cfg, STARTED, events);
    RegularRunOn(cfg, STARTED, events, e);
  }

  lemma StartIsReachable(cfg: Config)
    ensures Reachable(cfg, STARTED)
  {
    assert RegularRun(cfg, STARTED, []) && Runs(cfg, STARTED, []) && STARTED == Run(cfg, STARTED, []);
  }

  // ---------------------------------------------------------------- replication

  /** The roster a client should see: every connected user's public record. */
  function Roster(cs: seq<Client>): map<nat, UserInfo> {
    map uid | uid in Uids(Users(cs)) && Member(Users(cs), uid).Some? :: Member(Users(cs), uid).value
  }

  function StreamKeys(cs: seq<Client>): set<(nat, nat)> {
    set i, sid | 0 <= i < |cs| && sid in cs[i].streams :: (cs[i].user.uid, sid)
  }

  /** The streams a client should see: those of all other clients. */
  function StreamTable(cs: seq<Client>, self: nat): map<(nat, nat), Registration> {
    map k | k in StreamKeys(cs) && k.0 != self && Registered(cs, k.0, k.1).Some? :: Registered(cs, k.0, k.1).value
  }

  function OthersStreams(v: View, self: nat): map<(nat, nat), Registration> {
    map k | k in v.streams && k.0 != self :: v.streams[k]
  }

  lemma RosterHas(cs: seq<Client>, uid: nat)
    ensures uid in Roster(cs) <==> Member(Users(cs), uid).Some?
  {
    var i := Find(cs, uid);
    assert i >= 0 ==> Uids(Users(cs))[i] == uid;
  }

  lemma TableHas(cs: seq<Client>, self: nat, uid: nat, sid: nat)
    requires uid != self
    ensures (uid, sid) in StreamTable(cs, self) <==> Registered(cs, uid, sid).Some?
  {
    var i := Find(cs, uid);
    if i >= 0 && sid in cs[i].streams {
      assert Users(cs)[i] == cs[i].user;
      assert (uid, sid) in StreamKeys(cs);
    }
  }

  /** The view shows the server's roster and the streams of all other clients, nothing missing and nothing
      stale; every stream as it is stored or as its registration was announced. */
  ghost predicate Replicates(v: View, cs: seq<Client>, self: nat) {
    var seen := OthersStreams(v, self);
    && v.users == Roster(cs)
    && seen.Keys == StreamTable(cs, self).Keys
    && forall k :: k in seen ==>
         Registered(cs, k.0, k.1) == Some(seen[k]) || Announced(cs, k.0, k.1) == Some(seen[k])
  }

  /** Every stream was announced as it is stored. */
  predicate Agreed(cs: seq<Client>) {
    forall i :: 0 <= i < |cs| ==> cs[i].announced == cs[i].streams
  }

  /** In every reachable state, replaying everything queued for an introduced client gives the server's
      roster and stream table; exactly, where registrations were announced as they were stored. */
  lemma ViewsAreReplicas(cfg: Config, s: Server, i: nat)
    requires Reachable(cfg, s) && i < |s.clients| && s.clients[i].initialized
    ensures var r := s.clients[i];
            && Replicates(Replay(r.log), s.clients, r.user.uid)
            && (Agreed(s.clients) ==> OthersStreams(Replay(r.log), r.user.uid) == StreamTable(s.clients, r.user.uid))
  {
    ReachableInv(cfg, s);
    assert ClientOk(cfg, s.clients[i]);
    MirrorIsReplica(cfg, s.clients, s.clients[i]);
    ReplicaIsExact(Replay(s.clients[i].log), s.clients, s.clients[i].user.uid);
  }

  lemma BothTables(cfg: Config, cs: seq<Client>, uid: nat, sid: nat)
    requires Sound(cfg, cs)
    ensures Announced(cs, uid, sid).Some? <==> Registered(cs, uid, sid).Some?
  {
    var i := Find(cs, uid);
    if i >= 0 {
      assert ClientOk(cfg, cs[i]);
      assert sid in cs[i].announced.Keys <==> sid in cs[i].streams.Keys;
    }
  }

  lemma RosterMirrored(cs: seq<Client>, r: Client)
    requires r.initialized && MirrorsUsers(cs, r)
    ensures Replay(r.log).users == Roster(cs)
  {
    var v := Replay(r.log);
    forall uid: nat
      ensures uid in v.users <==> uid in Roster(cs)
      ensures uid in v.users ==> v.users[uid] == Roster(cs)[uid]
    {
      RosterHas(cs, uid);
      assert Tracks(UserSeen(v, uid), Member(Users(cs), uid), true);
    }
  }

  /** One stream in the view of an introduced client. */
  ghost predicate StreamReplicated(v: View, cs: seq<Client>, self: nat, k: (nat, nat)) {
    var seen := OthersStreams(v, self);
    && (k in seen <==> k in StreamTable(cs, self))
    && (k in seen ==> Registered(cs, k.0, k.1) == Some(seen[k]) || Announced(cs, k.0, k.1) == Some(seen[k]))
  }

  lemma StreamMirrored(cfg: Config, cs: seq<Client>, r: Client, k: (nat, nat))
    requires Sound(cfg, cs) && r.initialized && MirrorsStreams(cs, r)
    ensures StreamReplicated(Replay(r.log), cs, r.user.uid, k)
  {
    var v, self := Replay(r.log), r.user.uid;
    if k.0 != self {
      TableHas(cs, self, k.0, k.1);
      BothTables(cfg, cs, k.0, k.1);
      assert TracksEither(StreamSeen(v, k.0, k.1), Registered(cs, k.0, k.1), Announced(cs, k.0, k.1), true);
    }
  }

  lemma MirrorIsReplica(cfg: Config, cs: seq<Client>, r: Client)
    requires Sound(cfg, cs) && r.initialized && MirrorsUsers(cs, r) && MirrorsStreams(cs, r)
    ensures Replicates(Replay(r.log), cs, r.user.uid)
  {
    var v, self := Replay(r.log), r.user.uid;
    RosterMirrored(cs, r);
    forall k ensures StreamReplicated(v, cs, self, k) {
      StreamMirrored(cfg, cs, r, k);
    }
    ReplicatesByStream(v, cs, self);
  }

  lemma ReplicatesByStream(v: View, cs: seq<Client>, self: nat)
    requires v.users == Roster(cs) && forall k :: StreamReplicated(v, cs, self, k)
    ensures Replicates(v, cs, self)
  {
    var seen, table := OthersStreams(v, self), StreamTable(cs, self);
    forall k ensures k in seen.Keys <==> k in table.Keys {
      assert StreamReplicated(v, cs, self, k);
    }
    forall k | k in seen ensures Registered(cs, k.0, k.1) == Some(seen[k]) || Announced(cs, k.0, k.1) == Some(seen[k]) {
      assert StreamReplicated(v, cs, self, k);
    }
  }

  lemma ReplicaIsExact(v: View, cs: seq<Client>, self: nat)
    requires Replicates(v, cs, self)
    ensures Agreed(cs) ==> OthersStreams(v, self) == StreamTable(cs, self)
  {
    var seen, table := OthersStreams(v, self), StreamTable(cs, self);
    if Agreed(cs) {
      forall k | k in seen ensures k in table && seen[k] == table[k] {
        assert k in seen.Keys && k in table.Keys;
        assert Announced(cs, k.0, k.1) == Registered(cs, k.0, k.1);
      }
      assert forall k :: k in table <==> k in table.Keys;
    }
  }

  /** Before its introduction a client may miss things, but is never shown anything stale. */
  lemma EarlyViewsAreSound(cfg: Config, s: Server, i: nat, uid: nat, sid: nat)
    requires Reachable(cfg, s) && i < |s.clients| && uid != s.clients[i].user.uid
    ensures var v := Replay(s.clients[i].log);
            && (uid in v.users ==> Member(Users(s.clients), uid) == Some(v.users[uid]))
            && ((uid, sid) in v.streams ==>
                  && Registered(s.clients, uid, sid).Some?
                  && Some(v.streams[(uid, sid)]) in {Registered(s.clients, uid, sid), Announced(s.clients, uid, sid)})
  {
    ReachableInv(cfg, s);
    var v := Replay(s.clients[i].log);
    BothTables(cfg, s.clients, uid, sid);
    assert MirrorsUsers(s.clients, s.clients[i]) && MirrorsStreams(s.clients, s.clients[i]);
    assert Tracks(UserSeen(v, uid), Member(Users(s.clients), uid), s.clients[i].initialized);
    assert TracksEither(StreamSeen(v, uid, sid), Registered(s.clients, uid, sid), Announced(s.clients, uid, sid),
                        s.clients[i].initialized);
  }

  // ---------------------------------------------------------------- stream data

  lemma {:induction false} BackedAt(log: seq<Message>, self: nat, k: nat)
    requires DataBacked(log, self) && k < |log| && IsData(log[k]) && Introduced(log[..k], self)
    ensures StreamSeen(Replay(log[..k]), log[k].source, log[k].streamid).Some?
  {
    if k < |log| - 1 {
      assert log[..|log| - 1][..k] == log[..k];
      BackedAt(log[..|log| - 1], self, k);
    }
  }

  /** Every stream-data message queued for a client after its introduction belongs to a stream
      whose registration the client had been sent, not unregistered and its owner not gone. */
  lemma DataFollowsRegistration(cfg: Config, s: Server, i: nat, k: nat)
    requires Reachable(cfg, s) && i < |s.clients| && k < |s.clients[i].log|
    requires IsData(s.clients[i].log[k]) && Introduced(s.clients[i].log[..k], s.clients[i].user.uid)
    ensures var log := s.clients[i].log;
            StreamSeen(Replay(log[..k]), log[k].source, log[k].streamid).Some?
  {
    ReachableInv(cfg, s);
    assert ClientOk(cfg, s.clients[i]);
    BackedAt(s.clients[i].log, s.clients[i].user.uid, k);
  }

  /** `log'` continues `log`, with no stream data. */
  predicate NoDataAdded(log: seq<Message>, log': seq<Message>) {
    log <= log' && forall k :: |log| <= k < |log'| ==> !IsData(log'[k])
  }

  lemma NothingButInfo(cs: seq<Client>, at: nat, dropping: bool, i: nat)
    requires at < |cs| && i < |cs|
    ensures var cs1 := cs[at := QualityStep(cs[at], dropping)];
            NoDataAdded(cs[i].log, cs1[i].log) && NoDataAdded(cs[i].log, Introduce(cs1, at)[i].log)
  {
    var cs1 := cs[at := QualityStep(cs[at], dropping)];
    IntroductionOrdinary(cs1, at, |cs1|);
  }

  /** Data for a stream its sender has not registered reaches nobody. */
  lemma UnregisteredDataIsDropped(cfg: Config, s: Server, uid: nat, r: Request)
    requires Enabled(cfg, s, Arrive(uid, r)) && (r.kind.StreamData? || r.kind.StreamDataDiscardable?)
    requires Registered(s.clients, uid, r.streamid).None?
    ensures var s' := Next(cfg, s, Arrive(uid, r));
            && |s'.clients| == |s.clients|
            && forall i :: 0 <= i < |s.clients| ==> NoDataAdded(s.clients[i].log, s'.clients[i].log)
  {
    var at := Find(s.clients, uid);
    if at >= 0 {
      forall i | 0 <= i < |s.clients|
        ensures NoDataAdded(s.clients[i].log, Next(cfg, s, Arrive(uid, r)).clients[i].log)
      {
        NothingButInfo(s.clients, at, r.dropping, i);
      }
    }
  }

  // ---------------------------------------------------------------- registry

  /** Ids are unique and below the next one, colours are unique, the bot counter is right, and
      the players other than bots never exceed the limit. */
  lemma RegistryHolds(cfg: Config, s: Server)
    requires Reachable(cfg, s)
    ensures DistinctUids(Users(s.clients)) && DistinctColours(Users(s.clients))
    ensures forall i :: 0 <= i < |s.clients| ==> 1 <= s.clients[i].user.uid < s.freeUid
    ensures s.botCount == Bots(Users(s.clients)) && |s.clients| - s.botCount <= cfg.maxClients
    ensures forall i :: 0 <= i < |s.clients| ==> |s.clients[i].streams| <= cfg.maxVehicles + NON_VEHICLE_STREAMS
  {
    ReachableInv(cfg, s);
    forall i | 0 <= i < |s.clients|
      ensures 1 <= s.clients[i].user.uid < s.freeUid && |s.clients[i].streams| <= cfg.maxVehicles + NON_VEHICLE_STREAMS
    {
      var uid := s.clients[i].user.uid;
      CountNone(s.clients, uid);
      assert Places(s, uid) > 0;
      assert ClientOk(cfg, s.clients[i]);
    }
  }

  /** The id given to a new client clashes with nobody exactly while it has not come round again
      to the id of a connected client. */
  lemma NewUidClashes(cfg: Config, s: Server, user: UserInfo)
    requires DistinctUids(Users(s.clients))
    ensures DistinctUids(Users(Admitted(cfg, s, user).clients)) <==> Find(s.clients, s.freeUid) < 0
  {
    var us, us' := Users(s.clients), Users(Admitted(cfg, s, user).clients);
    var u := NewUser(us, user, s.freeUid);
    UsersAppend(s.clients, NewClient(cfg, u));
    assert us' == us + [u];
    var i := Find(s.clients, s.freeUid);
    if i >= 0 {
      assert us'[i].uid == us'[|us|].uid;
    }
  }

  // ---------------------------------------------------------------- life cycle

  /** Until the killer thread is told to stop, every client ever created is connected, waiting to be
      killed, being killed or destroyed, and exactly one of these; threads run until they are
      joined and not after the deletion. */
  lemma LifeCycle(cfg: Config, s: Server, uid: nat)
    requires Reachable(cfg, s) && s.killer.Running? && 1 <= uid < s.freeUid
    ensures Count(s.clients, uid) + Count(s.killQueue, uid) + Count(s.killing, uid) + Count(s.destroyed, uid) == 1
    ensures ThreadsAre(s.clients, Running) && ThreadsAre(s.killQueue, Running) && ThreadsAre(s.destroyed, NotRunning)
  {
    ReachableInv(cfg, s);
    assert Places(s, uid) == 1;
    forall i | 0 <= i < |s.clients|
      ensures s.clients[i].receiver == Running && s.clients[i].broadcaster == Running
    {
      assert ClientOk(cfg, s.clients[i]);
    }
    assert Count([], uid) == 0;
  }

  /** However often and by whomever a client is reported, it leaves once: a second report finds nobody,
      and the others keep their places in line. */
  lemma SecondReportFindsNobody(cfg: Config, s: Server, uid: nat)
    requires Reachable(cfg, s) && Find(s.clients, uid) >= 0
    ensures var i, s' := Find(s.clients, uid), Next(cfg, s, Drop(uid));
            && Users(s'.clients) == Users(s.clients)[..i] + Users(s.clients)[i + 1..]
            && Count(s'.killQueue, uid) == 1
            && Next(cfg, s', Drop(uid)) == s'
  {
    ReachableInv(cfg, s);
    var i, s' := Find(s.clients, uid), Next(cfg, s, Drop(uid));
    DisconnectRemovesOne(s, uid);
    assert Users(s.clients)[i] == s.clients[i].user;
    CountNone(s.clients, uid);
    assert Places(s, uid) <= 1;
    CountAppend(s.killQueue, Told(s.clients[i], LeaveMessage(uid)), uid);
  }

  // ---------------------------------------------------------------- network quality

  /** The states announced by the NETQUALITY messages of a log. */
  function QualityStates(log: seq<Message>): seq<Payload> {
    if log == [] then []
    else QualityStates(log[..|log| - 1])
         + if log[|log| - 1].kind.NetQuality? then [log[|log| - 1].payload] else []
  }

  /** The announcement number `k` when the drop state was `initial` at first. */
  function Alternating(initial: int, k: nat): int {
    if k % 2 == 0 then 1 - initial else initial
  }

  lemma {:induction false} AlternationSpelledOut(log: seq<Message>, initial: int, state: int)
    requires QualityAlternates(log, initial, state)
    ensures var q := QualityStates(log);
            && (q != [] ==> initial == 0 || initial == 1)
            && state == (if |q| % 2 == 0 then initial else 1 - initial)
            && forall k :: 0 <= k < |q| ==> q[k] == Quality(Alternating(initial, k))
  {
    if log != [] {
      var m := log[|log| - 1];
      AlternationSpelledOut(log[..|log| - 1], initial, if m.kind.NetQuality? then 1 - state else state);
    }
  }

  /** Every client is told about its connection in strict alternation. Which way it starts depends on what
      the memory of its drop state held: bad, good, bad, ... if that was 0; good, bad, good, ... if it was
      1; and with any other value it is never told anything. */
  lemma QualityMessagesAlternate(cfg: Config, s: Server, i: nat)
    requires Reachable(cfg, s) && i < |s.clients|
    ensures var q, initial := QualityStates(s.clients[i].log), cfg.freshMemory(s.clients[i].user.uid);
            if initial == 0 || initial == 1 then forall k :: 0 <= k < |q| ==> q[k] == Quality(Alternating(initial, k))
            else q == []
  {
    ReachableInv(cfg, s);
    assert ClientOk(cfg, s.clients[i]);
    AlternationSpelledOut(s.clients[i].log, cfg.freshMemory(s.clients[i].user.uid), s.clients[i].dropState);
  }

  // ---------------------------------------------------------------- private chat

  /** In every reachable state: whoever a private line is addressed to, it is its sender it is sent to, without the
      addressee's id, and nobody else notices. */
  lemma PrivateLineComesBack(cfg: Config, s: Server, uid: nat, r: Request, j: nat)
    requires Reachable(cfg, s) && Enabled(cfg, s, Arrive(uid, r)) && r.kind.Utf8PrivateChat?
    requires Find(s.clients, uid) >= 0 && j < |s.clients|
    ensures var at, cs' := Find(s.clients, uid), Next(cfg, s, Arrive(uid, r)).clients;
            && |cs'| == |s.clients|
            && cs'[j] == if j == at then Told(QualityStep(s.clients[at], r.dropping), PrivateMessage(uid, r))
                         else s.clients[j]
  {
    var at := Find(s.clients, uid);
    var cs := s.clients[at := QualityStep(s.clients[at], r.dropping)];
    assert Users(s.clients)[at] == s.clients[at].user;
    assert Users(cs) == Users(s.clients);
    assert Handle(cfg, s.(clients := cs), at, r).clients == PrivateChat(cs, at, r);
  }

  // ---------------------------------------------------------------- payload buffers

  /** A registration broadcast decodes to the stored one exactly when the buffer is zero behind the payload. */
  lemma FaithfulMeansCleared(r: Request)
    requires WellSized(r)
    ensures Faithful(r) <==> forall i :: r.len <= i < REGISTRATION_SIZE && i != NAME_LAST ==> r.buffer[i] == 0
  {
    var data := Terminated(r.buffer);
    var a, b := Padded(data[..r.len]), data[..REGISTRATION_SIZE];
    assert forall i :: 0 <= i < REGISTRATION_SIZE ==> a[i] == if i < r.len then data[i] else 0;
    if forall i :: r.len <= i < REGISTRATION_SIZE && i != NAME_LAST ==> r.buffer[i] == 0 {
      assert a == b;
    }
    if a == b {
      forall i | r.len <= i < REGISTRATION_SIZE && i != NAME_LAST ensures r.buffer[i] == 0 {
        assert a[i] == b[i];
      }
    }
  }

  /** What another listening client hears of an accepted registration: that message and no other. */
  lemma HeardOfRegistration(cfg: Config, cs: seq<Client>, at: nat, j: nat, r: Request)
    requires DistinctUids(Users(cs)) && at < |cs| && j < |cs| && j != at && cs[j].receiving && WellSized(r)
    ensures AddStream(cfg, SpawnChecked(cfg, cs, at, r), at, r)[j].log
            == cs[j].log + [RegisterMessage(cs[at].user.uid, r.streamid, Terminated(r.buffer)[..r.len])]
  {
    assert Users(cs)[j].uid != Users(cs)[at].uid;
    assert SpawnChecked(cfg, cs, at, r)[j] == cs[j];
  }

  lemma RegistrationStored(cfg: Config, cs: seq<Client>, at: nat, r: Request)
    requires at < |cs| && WellSized(r)
    ensures var cs' := AddStream(cfg, SpawnChecked(cfg, cs, at, r), at, r);
            && Users(cs') == Users(cs)
            && r.streamid in cs'[at].streams
            && cs'[at].streams[r.streamid] == Terminated(r.buffer)[..REGISTRATION_SIZE]
  {
    assert Users(SpawnChecked(cfg, cs, at, r)) == Users(cs);
  }

  lemma AcceptedRegistration(cfg: Config, s: Server, uid: nat, at: nat, r: Request)
    requires WellSized(r) && r.kind.StreamRegister? && at < |s.clients| && Find(s.clients, uid) == at
    requires RegisterResult(cfg, s.clients[at], r).Accepted?
    ensures var cs := s.clients[at := QualityStep(s.clients[at], r.dropping)];
            Receive(cfg, s, uid, r) == s.(clients := AddStream(cfg, SpawnChecked(cfg, cs, at, r), at, r))
  {
    var c := QualityStep(s.clients[at], r.dropping);
    assert c.streams == s.clients[at].streams && c.stamps == s.clients[at].stamps;
    assert RegisterResult(cfg, c, r).Accepted?;
  }

  lemma SeesStoredExactly(cs: seq<Client>, at: nat, log: seq<Message>, r: Request)
    requires DistinctUids(Users(cs)) && at < |cs| && WellSized(r) && r.streamid in cs[at].streams
    requires cs[at].streams[r.streamid] == Terminated(r.buffer)[..REGISTRATION_SIZE]
    ensures var uid := cs[at].user.uid;
            var log' := log + [RegisterMessage(uid, r.streamid, Terminated(r.buffer)[..r.len])];
            StreamSeen(Replay(log'), uid, r.streamid) == Registered(cs, uid, r.streamid) <==> Faithful(r)
  {
    RegisterSeen(log, cs[at].user.uid, r.streamid, Terminated(r.buffer)[..r.len]);
    assert Users(cs)[at].uid == cs[at].user.uid;
    IndexOfIs(Users(cs), at);
  }

  /** The view of the client at `j` shows a stream of the client at `at` as the server has it. */
  predicate ShownAsStored(cs: seq<Client>, j: nat, at: nat, sid: nat)
    requires j < |cs| && at < |cs|
  {
    StreamSeen(Replay(cs[j].log), cs[at].user.uid, sid) == Registered(cs, cs[at].user.uid, sid)
  }

  lemma AddedStreamShown(cfg: Config, cs: seq<Client>, at: nat, j: nat, r: Request)
    requires DistinctUids(Users(cs)) && at < |cs| && j < |cs| && j != at && cs[j].receiving && WellSized(r)
    ensures ShownAsStored(AddStream(cfg, SpawnChecked(cfg, cs, at, r), at, r), j, at, r.streamid) <==> Faithful(r)
  {
    var cs' := AddStream(cfg, SpawnChecked(cfg, cs, at, r), at, r);
    HeardOfRegistration(cfg, cs, at, j, r);
    RegistrationStored(cfg, cs, at, r);
    assert Users(cs')[at] == cs'[at].user && Users(cs)[at] == cs[at].user;
    SeesStoredExactly(cs', at, cs[j].log, r);
  }

  /** After an accepted registration the other listeners' views show it as stored exactly when the
      buffer behind the payload was clear. */
  lemma RegistrationMirrorsExactly(cfg: Config, s: Server, at: nat, j: nat, r: Request)
    requires DistinctUids(Users(s.clients)) && WellSized(r) && r.kind.StreamRegister?
    requires at < |s.clients| && j < |s.clients| && j != at && s.clients[j].receiving
    requires RegisterResult(cfg, s.clients[at], r).Accepted?
    ensures var s' := Receive(cfg, s, s.clients[at].user.uid, r);
            |s'.clients| == |s.clients| && (ShownAsStored(s'.clients, j, at, r.streamid) <==> Faithful(r))
  {
    var cs := s.clients[at := QualityStep(s.clients[at], r.dropping)];
    IndexOfIs(Users(s.clients), at);
    assert Users(cs) == Users(s.clients);
    AcceptedRegistration(cfg, s, s.clients[at].user.uid, at, r);
    AddedStreamShown(cfg, cs, at, j, r);
  }

  /** A registration message without payload, after another one whose first octet was 3. */
  function EmptyRegistration(): (r: Request)
    ensures WellSized(r) && r.kind.StreamRegister? && r.len == 0
  {
    Request(StreamRegister, 1, seq(MAX_MESSAGE_LENGTH, i => if i == 0 then 3 else 0), 0, false, 0, 0, Answered([]))
  }

  lemma EmptyRegistrationNotFaithful()
    ensures !Faithful(EmptyRegistration()) && !IsVehicle(EmptyRegistration().buffer)
  {
    var r := EmptyRegistration();
    FaithfulMeansCleared(r);
    assert r.buffer[0] == 3;
  }

  /** Two users have joined, one after the other. */
  function TwoJoined(cfg: Config, user: UserInfo): Server {
    CreateClient(cfg, CreateClient(cfg, STARTED, user, false, true), user, false, true)
  }

  lemma FirstJoined(cfg: Config, user: UserInfo)
    requires cfg.maxClients >= 2
    ensures var s := CreateClient(cfg, STARTED, user, false, true);
            && Reachable(cfg, s) && s.freeUid == 2 && |s.clients| == 1 && 0 <= s.botCount
            && s.clients[0].user.uid == 1 && s.clients[0].streams == map[]
  {
    StartIsReachable(cfg);
    ReachableNext(cfg, STARTED, Join(user, false, true));
    JoinedResult(cfg, STARTED, user);
  }

  lemma TwoJoinedState(cfg: Config, user: UserInfo)
    requires cfg.maxClients >= 2
    ensures var s := TwoJoined(cfg, user);
            && Reachable(cfg, s) && |s.clients| == 2
            && s.clients[0].user.uid == 1 && s.clients[1].user.uid == 2 && s.clients[0].streams == map[]
  {
    var s1 := CreateClient(cfg, STARTED, user, false, true);
    FirstJoined(cfg, user);
    ReachableNext(cfg, s1, Join(user, false, true));
    JoinedResult(cfg, s1, user);
  }

  /** Two users have joined and both listen. */
  function TwoListeners(cfg: Config, user: UserInfo): Server {
    var s := TwoJoined(cfg, user);
    var cs := StartListening(s.clients, 1);
    s.(clients := StartListening(cs, 2))
  }

  lemma TwoListenersState(cfg: Config, user: UserInfo)
    requires cfg.maxClients >= 2
    ensures var s := TwoListeners(cfg, user);
            && Reachable(cfg, s) && |s.clients| == 2 && s.clients[0].receiving && s.clients[1].receiving
            && s.clients[0].user.uid == 1 && s.clients[0].streams == map[]
  {
    var s := TwoJoined(cfg, user);
    TwoJoinedState(cfg, user);
    var s1 := Next(cfg, s, Listen(1));
    ReachableNext(cfg, s, Listen(1));
    ReachableNext(cfg, s1, Listen(2));
    assert Users(s.clients)[0].uid == 1 && Users(s.clients)[1].uid == 2;
    assert Users(s1.clients) == Users(s.clients);
  }

  lemma FirstOfTwo(cfg: Config, user: UserInfo)
    requires cfg.maxClients >= 2
    ensures var s := TwoListeners(cfg, user); |s.clients| == 2 && Find(s.clients, 1) == 0 && s.clients[0].user.uid == 1
  {
    var s := TwoListeners(cfg, user);
    TwoListenersState(cfg, user);
    ReachableInv(cfg, s);
    IndexOfIs(Users(s.clients), 0);
    assert Users(s.clients)[0] == s.clients[0].user;
  }

  lemma AcceptedIsStored(cfg: Config, s: Server, at: nat, r: Request)
    requires DistinctUids(Users(s.clients)) && WellSized(r) && r.kind.StreamRegister? && at < |s.clients|
    requires RegisterResult(cfg, s.clients[at], r).Accepted?
    ensures var cs := Receive(cfg, s, s.clients[at].user.uid, r).clients;
            |cs| == |s.clients| && r.streamid in cs[at].streams
  {
    IndexOfIs(Users(s.clients), at);
    assert Users(s.clients)[at] == s.clients[at].user;
    AcceptedRegistration(cfg, s, s.clients[at].user.uid, at, r);
    RegistrationStored(cfg, s.clients[at := QualityStep(s.clients[at], r.dropping)], at, r);
  }

  lemma EmptyRegistrationAccepted(cfg: Config, s: Server, c: Client)
    requires Find(s.clients, 1) == 0 && c == s.clients[0] && c.receiving && c.streams == map[]
    ensures Enabled(cfg, s, Arrive(1, EmptyRegistration())) && RegisterResult(cfg, c, EmptyRegistration()).Accepted?
  {
    EmptyRegistrationNotFaithful();
  }

  /** In a state with two listeners that is reached on every server with room for two: after an empty
      registration message of the first, the second one's view does not show the stream as it is stored. */
  lemma EmptyRegistrationCounterexample(cfg: Config, user: UserInfo)
    requires cfg.maxClients >= 2
    ensures var s, r := TwoListeners(cfg, user), EmptyRegistration();
            && Reachable(cfg, s) && Enabled(cfg, s, Arrive(1, r))
            && var cs := Next(cfg, s, Arrive(1, r)).clients;
               |cs| == 2 && r.streamid in cs[0].streams && !ShownAsStored(cs, 1, 0, r.streamid)
  {
    var s, r := TwoListeners(cfg, user), EmptyRegistration();
    TwoListenersState(cfg, user);
    FirstOfTwo(cfg, user);
    ReachableInv(cfg, s);
    EmptyRegistrationAccepted(cfg, s, s.clients[0]);
    EmptyRegistrationNotFaithful();
    RegistrationMirrorsExactly(cfg, s, 0, 1, r);
    AcceptedIsStored(cfg, s, 0, r);
  }
}
