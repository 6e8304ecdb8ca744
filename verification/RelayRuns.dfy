/** The server invariant, and what it means for every run of the relay. */
module RelayRuns {
  import opened RoRnet
  import opened Identity
  import opened Replica
  import opened Threads
  import opened Relay
  import opened RelayInvariant
  import opened RelayMembership
  import SpamFilter
  import SpawnRate

  // ---------------------------------------------------------------- invariant

  /** How often a user id occurs in a list of clients. */
  function Count(cs: seq<Client>, uid: nat): nat {
    multiset(Uids(Users(cs)))[uid]
  }

  /** How often it occurs in all the places a client can be once it has been created. */
  function Places(s: Server, uid: nat): nat {
    Count(s.clients, uid) + Count(s.killQueue, uid) + Count(s.killing, uid)
    + Count(s.destroyed, uid) + Count(s.abandoned, uid)
  }

  /** Every user id handed out so far is in exactly one place, once. */
  ghost predicate AccountedOnce(s: Server) {
    forall uid: nat :: Places(s, uid) == if 1 <= uid < s.freeUid then 1 else 0
  }

  predicate ThreadsAre(cs: seq<Client>, state: ThreadState) {
    forall i :: 0 <= i < |cs| ==> cs[i].receiver == state && cs[i].broadcaster == state
  }

  /** The bot counter is right and the players fit. */
  predicate CountsOk(cfg: Config, s: Server) {
    && s.botCount == Bots(Users(s.clients))
    && |s.clients| <= cfg.maxClients + s.botCount
    && 1 <= s.freeUid
  }

  /** Clients waiting for the killer still run both threads, deleted ones run none. */
  predicate LifecycleOk(s: Server) {
    && |s.killing| <= 1
    && ThreadsAre(s.killQueue, Running) && ThreadsAre(s.killing, Running) && ThreadsAre(s.destroyed, NotRunning)
    && (s.killer.Running? ==> s.abandoned == [])
  }

  ghost predicate Inv(cfg: Config, s: Server) {
    Sound(cfg, s.clients) && CountsOk(cfg, s) && AccountedOnce(s) && LifecycleOk(s)
  }

  /** The step does not exhaust the 32-bit user ids. */
  predicate Regular(s: Server, e: Event) {
    e.Join? ==> s.freeUid + 1 < UINT32_LIMIT
  }

  // ---------------------------------------------------------------- accounting of user ids

  lemma CountAppend(cs: seq<Client>, c: Client, uid: nat)
    ensures Count(cs + [c], uid) == Count(cs, uid) + if c.user.uid == uid then 1 else 0
  {
    assert Uids(Users(cs + [c])) == Uids(Users(cs)) + [c.user.uid];
  }

  lemma CountRemove(cs: seq<Client>, p: nat, uid: nat)
    requires p < |cs|
    ensures Count(cs, uid) == Count(RemoveAt(cs, p), uid) + if cs[p].user.uid == uid then 1 else 0
  {
    var us := Uids(Users(cs));
    assert Uids(Users(RemoveAt(cs, p))) == RemoveAt(us, p);
    RemoveAtMultiset(us, p);
    assert us[p] == cs[p].user.uid && us[p] in multiset(us);
  }

  lemma CountNone(cs: seq<Client>, uid: nat)
    ensures Count(cs, uid) == 0 <==> forall i :: 0 <= i < |cs| ==> cs[i].user.uid != uid
  {
    var us := Uids(Users(cs));
    assert Count(cs, uid) > 0 <==> uid in us;
    assert forall i :: 0 <= i < |cs| ==> us[i] == cs[i].user.uid;
  }

  lemma CountSame(cs: seq<Client>, cs': seq<Client>, uid: nat)
    requires Users(cs) == Users(cs')
    ensures Count(cs, uid) == Count(cs', uid)
  {
  }

  /** The next user id is not in use. */
  lemma FreeUidIsFresh(cfg: Config, s: Server)
    requires Inv(cfg, s)
    ensures Find(s.clients, s.freeUid) < 0
  {
    assert Places(s, s.freeUid) == 0;
    CountNone(s.clients, s.freeUid);
    assert forall i :: 0 <= i < |s.clients| ==> Users(s.clients)[i].uid != s.freeUid;
  }

  // ---------------------------------------------------------------- disconnecting

  lemma DisconnectAccounts(s: Server, uid: nat)
    requires DistinctUids(Users(s.clients)) && AccountedOnce(s)
    ensures AccountedOnce(Disconnect(s, uid))
  {
    var i := Find(s.clients, uid);
    if i >= 0 {
      var s' := Disconnect(s, uid);
      var told := Tell(s.clients, Everyone, LeaveMessage(uid));
      IndexOfIs(Users(s.clients), i);
      assert Users(told) == Users(s.clients);
      forall u: nat ensures Places(s', u) == Places(s, u) {
        CountRemove(told, i, u);
        CountSame(told, s.clients, u);
        CountAppend(s.killQueue, told[i], u);
      }
    }
  }

  /** Exactly the reported client leaves, once; the others stay as they are, in order, and hear of it. */
  lemma DisconnectRemovesOne(s: Server, uid: nat)
    requires DistinctUids(Users(s.clients))
    ensures var i, s' := Find(s.clients, uid), Disconnect(s, uid);
            if i < 0 then s' == s
            else
              && Users(s'.clients) == Users(s.clients)[..i] + Users(s.clients)[i + 1..]
              && s'.killQueue == s.killQueue + [Told(s.clients[i], LeaveMessage(uid))]
              && Find(s'.clients, uid) < 0
              && Disconnect(s', uid) == s'
  {
    var i := Find(s.clients, uid);
    if i >= 0 {
      var told := Tell(s.clients, Everyone, LeaveMessage(uid));
      IndexOfIs(Users(s.clients), i);
      FindAfterLeave(s.clients, told, i, uid);
    }
  }

  lemma DisconnectKeepsInv(cfg: Config, s: Server, uid: nat)
    requires Inv(cfg, s)
    ensures Inv(cfg, Disconnect(s, uid))
  {
    var i := Find(s.clients, uid);
    if i >= 0 {
      var told := Tell(s.clients, Everyone, LeaveMessage(uid));
      IndexOfIs(Users(s.clients), i);
      LeaveKeepsSound(cfg, s.clients, i);
      DisconnectAccounts(s, uid);
      assert Users(told) == Users(s.clients);
      UsersRemoveAt(told, i);
      BotsRemove(Users(s.clients), i);
      assert ClientOk(cfg, s.clients[i]);
    }
  }

  // ---------------------------------------------------------------- joining

  lemma AdmittedAccounts(cfg: Config, s: Server, user: UserInfo)
    requires AccountedOnce(s) && 1 <= s.freeUid && s.freeUid + 1 < UINT32_LIMIT
    ensures AccountedOnce(Admitted(cfg, s, user))
  {
    var s' := Admitted(cfg, s, user);
    forall u: nat ensures Places(s', u) == if 1 <= u < s'.freeUid then 1 else 0 {
      assert Places(s, u) == if 1 <= u < s.freeUid then 1 else 0;
      CountAppend(s.clients, s'.clients[|s.clients|], u);
    }
  }

  /** Only logs, streams and flags of the connected clients differ. */
  lemma AccountsKept(s: Server, cs: seq<Client>)
    requires AccountedOnce(s) && Users(cs) == Users(s.clients)
    ensures AccountedOnce(s.(clients := cs))
  {
    forall u ensures Places(s.(clients := cs), u) == Places(s, u) {
      CountSame(s.clients, cs, u);
    }
  }

  lemma JoinedResult(cfg: Config, s: Server, user: UserInfo)
    requires JoinResult(cfg, s, false, true).Joined?
    ensures var s1, u := Admitted(cfg, s, user), NewUser(Users(s.clients), user, s.freeUid);
            var s' := CreateClient(cfg, s, user, false, true);
            && s1.clients == s.clients + [NewClient(cfg, u)]
            && s' == s1.(clients := Tell(s1.clients, Everyone, JoinMessage(u)))
            && Users(s'.clients) == Users(s1.clients) == Users(s.clients) + [u]
  {
    var s1, u := Admitted(cfg, s, user), NewUser(Users(s.clients), user, s.freeUid);
    UsersAppend(s.clients, NewClient(cfg, u));
    assert Users(Tell(s1.clients, Everyone, JoinMessage(u))) == Users(s1.clients);
  }

  lemma JoinedCounts(cfg: Config, s: Server, user: UserInfo)
    requires CountsOk(cfg, s) && s.freeUid + 1 < UINT32_LIMIT && JoinResult(cfg, s, false, true).Joined?
    ensures CountsOk(cfg, CreateClient(cfg, s, user, false, true))
  {
    JoinedResult(cfg, s, user);
    BotsAppend(Users(s.clients), NewUser(Users(s.clients), user, s.freeUid));
  }

  lemma JoinedAccounts(cfg: Config, s: Server, user: UserInfo)
    requires AccountedOnce(s) && 1 <= s.freeUid && s.freeUid + 1 < UINT32_LIMIT
    requires JoinResult(cfg, s, false, true).Joined?
    ensures AccountedOnce(CreateClient(cfg, s, user, false, true))
  {
    JoinedResult(cfg, s, user);
    AdmittedAccounts(cfg, s, user);
    AccountsKept(Admitted(cfg, s, user), CreateClient(cfg, s, user, false, true).clients);
  }

  lemma JoinedKeepsInv(cfg: Config, s: Server, user: UserInfo)
    requires Inv(cfg, s) && s.freeUid + 1 < UINT32_LIMIT && JoinResult(cfg, s, false, true).Joined?
    ensures Inv(cfg, CreateClient(cfg, s, user, false, true))
  {
    FreeUidIsFresh(cfg, s);
    JoinedResult(cfg, s, user);
    JoinKeepsSound(cfg, s.clients, NewUser(Users(s.clients), user, s.freeUid));
    JoinedCounts(cfg, s, user);
    JoinedAccounts(cfg, s, user);
  }

  lemma AdmittedFound(cfg: Config, s: Server, user: UserInfo)
    requires DistinctUids(Users(s.clients)) && Find(s.clients, s.freeUid) < 0
    ensures var cs := Admitted(cfg, s, user).clients;
            && DistinctUids(Users(cs))
            && Find(cs, s.freeUid) == |s.clients|
            && LastIndexOf(Users(cs), s.freeUid) == |s.clients|
            && forall m :: RemoveAt(Tell(cs, Everyone, m), |s.clients|) == Tell(s.clients, Everyone, m)
  {
    var cs := Admitted(cfg, s, user).clients;
    var u := NewUser(Users(s.clients), user, s.freeUid);
    UsersAppend(s.clients, NewClient(cfg, u));
    assert Users(cs) == Users(s.clients) + [u];
    assert cs[|s.clients|].user == u && Users(cs)[|s.clients|].uid == s.freeUid;
    assert DistinctUids(Users(cs));
    IndexOfIs(Users(cs), |s.clients|);
    forall m ensures RemoveAt(Tell(cs, Everyone, m), |s.clients|) == Tell(s.clients, Everyone, m) {
      assert RemoveAt(Tell(cs, Everyone, m), |s.clients|) == Tell(cs, Everyone, m)[..|s.clients|];
    }
  }

  /** A client whose welcome fails is gone again; the others only hear that a stranger left. */
  lemma WelcomeFailedResult(cfg: Config, s: Server, user: UserInfo)
    requires DistinctUids(Users(s.clients)) && Find(s.clients, s.freeUid) < 0
    requires JoinResult(cfg, s, false, false).WelcomeFailed?
    ensures var s1, s' := Admitted(cfg, s, user), CreateClient(cfg, s, user, false, false);
            s' == s1.(clients := Tell(s.clients, Everyone, LeaveMessage(s.freeUid)), botCount := s.botCount,
                      killQueue := s.killQueue + [Told(s1.clients[|s.clients|], LeaveMessage(s.freeUid))])
  {
    AdmittedFound(cfg, s, user);
  }

  lemma WelcomeFailedAccounts(cfg: Config, s: Server, user: UserInfo)
    requires AccountedOnce(s) && 1 <= s.freeUid && s.freeUid + 1 < UINT32_LIMIT
    requires DistinctUids(Users(s.clients)) && Find(s.clients, s.freeUid) < 0
    requires JoinResult(cfg, s, false, false).WelcomeFailed?
    ensures AccountedOnce(CreateClient(cfg, s, user, false, false))
  {
    AdmittedFound(cfg, s, user);
    AdmittedAccounts(cfg, s, user);
    DisconnectAccounts(Admitted(cfg, s, user), s.freeUid);
  }

  lemma WelcomeFailedCounts(cfg: Config, s: Server, user: UserInfo)
    requires CountsOk(cfg, s) && LifecycleOk(s) && s.freeUid + 1 < UINT32_LIMIT
    requires DistinctUids(Users(s.clients)) && Find(s.clients, s.freeUid) < 0
    requires JoinResult(cfg, s, false, false).WelcomeFailed?
    ensures var s' := CreateClient(cfg, s, user, false, false); CountsOk(cfg, s') && LifecycleOk(s')
  {
    WelcomeFailedResult(cfg, s, user);
    assert Users(Tell(s.clients, Everyone, LeaveMessage(s.freeUid))) == Users(s.clients);
  }

  lemma WelcomeFailedKeepsInv(cfg: Config, s: Server, user: UserInfo)
    requires Inv(cfg, s) && s.freeUid + 1 < UINT32_LIMIT && JoinResult(cfg, s, false, false).WelcomeFailed?
    ensures Inv(cfg, CreateClient(cfg, s, user, false, false))
  {
    FreeUidIsFresh(cfg, s);
    WelcomeFailedAccounts(cfg, s, user);
    WelcomeFailedCounts(cfg, s, user);
    WelcomeFailedResult(cfg, s, user);
    StrangerLeavesSound(cfg, s.clients, s.freeUid);
  }

  lemma CreateKeepsInv(cfg: Config, s: Server, user: UserInfo, banned: bool, welcomed: bool)
    requires Inv(cfg, s) && s.freeUid + 1 < UINT32_LIMIT
    ensures Inv(cfg, CreateClient(cfg, s, user, banned, welcomed))
  {
    match JoinResult(cfg, s, banned, welcomed)
    case Banned =>
    case ServerFull =>
    case Joined => JoinedKeepsInv(cfg, s, user);
    case WelcomeFailed => WelcomeFailedKeepsInv(cfg, s, user);
  }

  // ---------------------------------------------------------------- messages

  /** Only the clients' streams, logs and flags changed. */
  lemma ClientsKeepInv(cfg: Config, s: Server, cs: seq<Client>)
    requires Inv(cfg, s) && Sound(cfg, cs) && |cs| == |s.clients|
    requires forall i :: 0 <= i < |cs| ==> cs[i].user == s.clients[i].user
    ensures Inv(cfg, s.(clients := cs)) && Users(cs) == Users(s.clients)
  {
    assert Users(cs) == Users(s.clients);
    AccountsKept(s, cs);
  }

  lemma OnlyOwner(cs: seq<Client>, at: nat)
    requires DistinctUids(Users(cs)) && at < |cs|
    ensures Find(cs, cs[at].user.uid) == at
    ensures forall i :: 0 <= i < |cs| && cs[i].user.uid == cs[at].user.uid ==> i == at
  {
    IndexOfIs(Users(cs), at);
    forall i | 0 <= i < |cs| && cs[i].user.uid == cs[at].user.uid ensures i == at {
      assert Users(cs)[i].uid == Users(cs)[at].uid;
    }
  }

  lemma DataKeepsSound(cfg: Config, cs: seq<Client>, at: nat, m: Message)
    requires Sound(cfg, cs) && at < |cs| && IsData(m) && m.source == cs[at].user.uid && m.streamid in cs[at].streams
    ensures Sound(cfg, Tell(cs, ListeningBut(at), m)) && SameTables(cs, Tell(cs, ListeningBut(at), m))
  {
    OnlyOwner(cs, at);
    TellKeepsSound(cfg, cs, ListeningBut(at), m);
  }

  lemma PublishedKeepsSound(cfg: Config, cs: seq<Client>, at: nat, r: Request)
    requires Sound(cfg, cs) && at < |cs| && r.len <= |r.buffer| && (r.kind.StreamData? || r.kind.StreamDataDiscardable?)
    ensures Sound(cfg, Published(cs, at, r)) && SameTables(cs, Published(cs, at, r))
  {
    if r.streamid in cs[at].streams {
      DataKeepsSound(cfg, cs, at, Message(r.kind, cs[at].user.uid, r.streamid, Octets(r.buffer[..r.len])));
    }
  }

  lemma RelayDataKeepsSound(cfg: Config, cs: seq<Client>, at: nat, r: Request)
    requires Sound(cfg, cs) && at < |cs| && cs[at].receiving && r.len <= |r.buffer|
    requires r.kind.StreamData? || r.kind.StreamDataDiscardable?
    ensures Sound(cfg, RelayData(cs, at, r)) && SameTables(cs, RelayData(cs, at, r))
  {
    if cs[at].initialized {
      PublishedKeepsSound(cfg, cs, at, r);
    } else {
      IntroduceKeepsSound(cfg, cs, at);
      PublishedKeepsSound(cfg, Introduce(cs, at), at, r);
    }
  }

  lemma StampsFollowChecks(cfg: Config, c: Client, r: Request)
    requires WellSized(r)
    requires c.stamps == SpawnRate.Held(c.spawnChecks, |c.spawnChecks|, cfg.spawnInterval, cfg.maxSpawnRate)
    ensures SpawnVerdict(cfg, c, r).stamps
         == SpawnRate.Held(ChecksAfter(c, r), |ChecksAfter(c, r)|, cfg.spawnInterval, cfg.maxSpawnRate)
  {
    SpawnRate.HeldMore(c.spawnChecks, (r.now, r.later), cfg.spawnInterval, cfg.maxSpawnRate);
  }

  lemma SpawnCheckedKeepsSound(cfg: Config, cs: seq<Client>, at: nat, r: Request)
    requires Sound(cfg, cs) && at < |cs| && WellSized(r)
    ensures Sound(cfg, SpawnChecked(cfg, cs, at, r)) && SameTables(cs, SpawnChecked(cfg, cs, at, r))
  {
    var v := SpawnVerdict(cfg, cs[at], r);
    var a := ListeningUid(cs[at].user.uid);
    TellKeepsSound(cfg, cs, a, NOTICE);
    var warned := if v.warned then Tell(cs, a, NOTICE) else cs;
    assert ClientOk(cfg, cs[at]) && ClientOk(cfg, warned[at]);
    StampsFollowChecks(cfg, cs[at], r);
    UpdateKeepsSound(cfg, warned, at, warned[at].(stamps := v.stamps, spawnChecks := ChecksAfter(cs[at], r)));
  }

  /** The notice about the limit goes to the owner only, so its place among the others' messages is free. */
  lemma NoticeCommutes(cs: seq<Client>, at: nat, m: Message)
    requires DistinctUids(Users(cs)) && at < |cs|
    ensures Tell(Tell(cs, ListeningUid(cs[at].user.uid), NOTICE), ListeningBut(at), m)
         == Tell(Tell(cs, ListeningBut(at), m), ListeningUid(cs[at].user.uid), NOTICE)
  {
    var a := ListeningUid(cs[at].user.uid);
    forall i | 0 <= i < |cs| && i != at ensures !Hears(a, i, cs[i]) {
      assert Users(cs)[i].uid != Users(cs)[at].uid;
    }
  }

  lemma AddStreamKeepsSound(cfg: Config, cs: seq<Client>, at: nat, r: Request)
    requires Sound(cfg, cs) && at < |cs| && WellSized(r)
    requires |cs[at].streams| < cfg.maxVehicles + NON_VEHICLE_STREAMS
    ensures Sound(cfg, AddStream(cfg, cs, at, r))
  {
    var data := Terminated(r.buffer);
    var reg := data[..REGISTRATION_SIZE];
    var c := WithStream(cs[at], r.streamid, reg, data[..r.len]);
    var cs1 := cs[at := c];
    var m := RegisterMessage(c.user.uid, r.streamid, data[..r.len]);
    assert Users(cs1) == Users(cs);
    RegisterKeepsSound(cfg, cs, at, r.streamid, reg, data[..r.len]);
    if NearLimit(cfg, |c.streams|) {
      NoticeCommutes(cs1, at, m);
      TellKeepsSound(cfg, Tell(cs1, ListeningBut(at), m), ListeningUid(c.user.uid), NOTICE);
    }
  }

  lemma AddStreamKeepsUsers(cfg: Config, cs: seq<Client>, at: nat, r: Request)
    requires at < |cs| && WellSized(r)
    ensures forall i :: 0 <= i < |cs| ==> AddStream(cfg, cs, at, r)[i].user == cs[i].user
  {
  }

  /** A registration that is refused ends with a notice to all and the sender's removal. */
  lemma RefusalKeepsInv(cfg: Config, s: Server, cs: seq<Client>, uid: nat)
    requires Inv(cfg, s) && Sound(cfg, cs) && SameTables(s.clients, cs)
    ensures Inv(cfg, Disconnect(s.(clients := Tell(cs, Listening, NOTICE)), uid))
  {
    TellKeepsSound(cfg, cs, Listening, NOTICE);
    ClientsKeepInv(cfg, s, Tell(cs, Listening, NOTICE));
    DisconnectKeepsInv(cfg, s.(clients := Tell(cs, Listening, NOTICE)), uid);
  }

  lemma RegisterKeepsInv(cfg: Config, s: Server, at: nat, r: Request)
    requires Inv(cfg, s) && at < |s.clients| && WellSized(r)
    ensures Inv(cfg, RegisterStream(cfg, s, at, r))
  {
    var c := s.clients[at];
    var a := ListeningUid(c.user.uid);
    TellKeepsSound(cfg, s.clients, a, NOTICE);
    SpawnCheckedKeepsSound(cfg, s.clients, at, r);
    var cs := SpawnChecked(cfg, s.clients, at, r);
    match RegisterResult(cfg, c, r)
    case TooManyStreams => RefusalKeepsInv(cfg, s, Tell(s.clients, a, NOTICE), c.user.uid);
    case TooFast => RefusalKeepsInv(cfg, s, cs, c.user.uid);
    case BadName => RefusalKeepsInv(cfg, s, cs, c.user.uid);
    case Accepted =>
      AddStreamKeepsSound(cfg, cs, at, r);
      AddStreamKeepsUsers(cfg, cs, at, r);
      ClientsKeepInv(cfg, s, AddStream(cfg, cs, at, r));
  }

  lemma SpokenOk(cfg: Config, c: Client, r: Request)
    requires ClientOk(cfg, c)
    ensures ClientOk(cfg, Spoken(cfg, c, r))
  {
    SpamFilter.AfterSnoc(cfg.spam, c.said, LineOf(r));
  }

  lemma SayLineKeepsSound(cfg: Config, cs: seq<Client>, at: nat, r: Request)
    requires Sound(cfg, cs) && at < |cs| && r.len <= |r.buffer|
    ensures Sound(cfg, SayLine(cfg, cs, at, r)) && SameTables(cs, SayLine(cfg, cs, at, r))
  {
    var c, a, times := Spoken(cfg, cs[at], r), ListeningUid(cs[at].user.uid), FilterNotices(cfg, cs[at], r);
    assert ClientOk(cfg, cs[at]);
    SpokenOk(cfg, cs[at], r);
    UpdateKeepsSound(cfg, cs, at, c);
    TellAllKeepsSound(cfg, cs[at := c], a, NOTICE, times);
    TellKeepsSound(cfg, TellAll(cs[at := c], a, NOTICE, times), Listening, LineMessage(cs[at].user.uid, r));
  }

  lemma KickKeepsInv(cfg: Config, s: Server, target: nat)
    requires Inv(cfg, s)
    ensures Inv(cfg, Disconnect(s.(clients := Tell(s.clients, Listening, NOTICE)), target))
  {
    TellKeepsSound(cfg, s.clients, Listening, NOTICE);
    ClientsKeepInv(cfg, s, Tell(s.clients, Listening, NOTICE));
    DisconnectKeepsInv(cfg, s.(clients := Tell(s.clients, Listening, NOTICE)), target);
  }

  lemma CommandKeepsInv(cfg: Config, s: Server, at: nat, command: Command)
    requires Inv(cfg, s) && at < |s.clients|
    ensures Inv(cfg, RunCommand(s, at, command))
  {
    var cs, a := s.clients, ListeningUid(s.clients[at].user.uid);
    match command
    case Answered(notices) =>
      SayAllKeepsSound(cfg, cs, notices);
      ClientsKeepInv(cfg, s, SayAll(cs, notices));
    case KickCommand(target) =>
      TellKeepsSound(cfg, cs, a, NOTICE);
      ClientsKeepInv(cfg, s, Tell(cs, a, NOTICE));
      KickKeepsInv(cfg, s, target);
  }

  lemma ChatKeepsInv(cfg: Config, s: Server, at: nat, r: Request)
    requires Inv(cfg, s) && at < |s.clients| && r.len <= |r.buffer|
    ensures Inv(cfg, Chat(cfg, s, at, r))
  {
    if IsCommand(r) {
      CommandKeepsInv(cfg, s, at, r.command);
    } else {
      SayLineKeepsSound(cfg, s.clients, at, r);
      ClientsKeepInv(cfg, s, SayLine(cfg, s.clients, at, r));
    }
  }

  lemma ResultKeepsInv(cfg: Config, s: Server, origin: nat, m: Message)
    requires Inv(cfg, s) && origin < |s.clients| && (m.kind.StreamRegisterResult? || m.kind.Utf8PrivateChat?)
    ensures Inv(cfg, s.(clients := s.clients[origin := Told(s.clients[origin], m)]))
  {
    var c := s.clients[origin];
    assert ClientOk(cfg, c);
    ReplayAppend(c.log, m);
    ToldOk(cfg, c, m);
    UpdateKeepsSound(cfg, s.clients, origin, Told(c, m));
    ClientsKeepInv(cfg, s, s.clients[origin := Told(c, m)]);
  }

  lemma UnregisterKeepsInv(cfg: Config, s: Server, at: nat, r: Request)
    requires Inv(cfg, s) && at < |s.clients| && r.len <= |r.buffer|
    ensures Inv(cfg, s.(clients := RemoveStream(s.clients, at, r)))
  {
    var c := s.clients[at];
    if r.streamid in c.streams {
      var m := Message(StreamUnregister, c.user.uid, r.streamid, Octets(r.buffer[..r.len]));
      UnregisterKeepsSound(cfg, s.clients, at, m);
    }
    ClientsKeepInv(cfg, s, RemoveStream(s.clients, at, r));
  }

  lemma DataKeepsInv(cfg: Config, s: Server, at: nat, r: Request)
    requires Inv(cfg, s) && at < |s.clients| && s.clients[at].receiving && r.len <= |r.buffer|
    requires r.kind.StreamData? || r.kind.StreamDataDiscardable?
    ensures Inv(cfg, s.(clients := RelayData(s.clients, at, r)))
  {
    RelayDataKeepsSound(cfg, s.clients, at, r);
    ClientsKeepInv(cfg, s, RelayData(s.clients, at, r));
  }

  lemma QualityKeepsInv(cfg: Config, s: Server, at: nat, dropping: bool)
    requires Inv(cfg, s) && at < |s.clients|
    ensures var cs := s.clients[at := QualityStep(s.clients[at], dropping)];
            Inv(cfg, s.(clients := cs)) && Users(cs) == Users(s.clients)
  {
    var cs := s.clients[at := QualityStep(s.clients[at], dropping)];
    QualityStepKeepsSound(cfg, s.clients, at, dropping);
    ClientsKeepInv(cfg, s, cs);
  }

  lemma ForwardKeepsInv(cfg: Config, s: Server, at: nat, r: Request)
    requires Inv(cfg, s) && at < |s.clients| && WellSized(r)
    ensures Inv(cfg, s.(clients := ForwardResult(s.clients, s.clients[at].user.uid, r)))
  {
    var origin := Find(s.clients, OriginUid(r.buffer));
    if origin >= 0 {
      ResultKeepsInv(cfg, s, origin,
        Message(StreamRegisterResult, s.clients[at].user.uid, r.streamid, Octets(r.buffer[..REGISTRATION_SIZE])));
    }
  }

  lemma PrivateChatKeepsInv(cfg: Config, s: Server, at: nat, r: Request)
    requires Inv(cfg, s) && at < |s.clients| && ADDRESS_SIZE <= r.len <= |r.buffer|
    ensures Inv(cfg, s.(clients := PrivateChat(s.clients, at, r)))
  {
    var to := Find(s.clients, s.clients[at].user.uid);
    if to >= 0 {
      ResultKeepsInv(cfg, s, to, PrivateMessage(s.clients[at].user.uid, r));
    }
  }

  lemma HandleKeepsInv(cfg: Config, s: Server, at: nat, r: Request)
    requires Inv(cfg, s) && WellSized(r) && Addressed(r) && at < |s.clients| && s.clients[at].receiving
    ensures Inv(cfg, Handle(cfg, s, at, r))
  {
    match r.kind
    case StreamData => DataKeepsInv(cfg, s, at, r);
    case StreamDataDiscardable => DataKeepsInv(cfg, s, at, r);
    case StreamRegister => RegisterKeepsInv(cfg, s, at, r);
    case StreamRegisterResult => ForwardKeepsInv(cfg, s, at, r);
    case StreamUnregister => UnregisterKeepsInv(cfg, s, at, r);
    case UserLeave => DisconnectKeepsInv(cfg, s, s.clients[at].user.uid);
    case Utf8Chat => ChatKeepsInv(cfg, s, at, r);
    case Utf8PrivateChat => PrivateChatKeepsInv(cfg, s, at, r);
    case _ =>
  }

  lemma ReceiveKeepsInv(cfg: Config, s: Server, uid: nat, r: Request)
    requires Inv(cfg, s) && Enabled(cfg, s, Arrive(uid, r))
    ensures Inv(cfg, Receive(cfg, s, uid, r))
  {
    var at := Find(s.clients, uid);
    if at >= 0 {
      QualityKeepsInv(cfg, s, at, r.dropping);
      HandleKeepsInv(cfg, s.(clients := s.clients[at := QualityStep(s.clients[at], r.dropping)]), at, r);
    }
  }

  // ---------------------------------------------------------------- killer thread

  lemma KillerTakeKeepsPlaces(s: Server, u: nat)
    requires s.killing == []
    ensures Places(KillerTake(s), u) == Places(s, u)
  {
    if s.killQueue != [] {
      var c := s.killQueue[0];
      assert RemoveAt(s.killQueue, 0) == s.killQueue[1..];
      assert [] + [c] == [c];
      CountRemove(s.killQueue, 0, u);
      CountAppend([], c, u);
      CountAppend(s.abandoned, c, u);
    }
  }

  lemma KillerTakeAccounts(s: Server)
    requires AccountedOnce(s) && s.killing == []
    ensures AccountedOnce(KillerTake(s))
  {
    forall u: nat ensures Places(KillerTake(s), u) == if 1 <= u < KillerTake(s).freeUid then 1 else 0 {
      KillerTakeKeepsPlaces(s, u);
    }
  }

  lemma KillerTakeKeepsInv(cfg: Config, s: Server)
    requires Inv(cfg, s) && Enabled(cfg, s, KillerTakes)
    ensures Inv(cfg, KillerTake(s))
  {
    KillerTakeAccounts(s);
  }

  lemma KillerDestroyKeepsPlaces(s: Server, c: Client, u: nat)
    requires s.killing == [c]
    ensures Places(s.(killing := [], destroyed := s.destroyed + [Stopped(c)]), u) == Places(s, u)
  {
    assert [c] == [] + [c];
    CountAppend([], c, u);
    CountAppend(s.destroyed, Stopped(c), u);
  }

  lemma KillerDestroyKeepsInv(cfg: Config, s: Server)
    requires Inv(cfg, s) && Enabled(cfg, s, KillerDestroys)
    ensures Inv(cfg, Next(cfg, s, KillerDestroys))
  {
    var s' := Next(cfg, s, KillerDestroys);
    assert s.killing == [s.killing[0]];
    forall u: nat ensures Places(s', u) == if 1 <= u < s'.freeUid then 1 else 0 {
      KillerDestroyKeepsPlaces(s, s.killing[0], u);
    }
  }

  // ---------------------------------------------------------------- all steps

  lemma ListenKeepsInv(cfg: Config, s: Server, uid: nat)
    requires Inv(cfg, s)
    ensures Inv(cfg, s.(clients := StartListening(s.clients, uid)))
  {
    var at := Find(s.clients, uid);
    if at >= 0 {
      assert ClientOk(cfg, s.clients[at]);
      UpdateKeepsSound(cfg, s.clients, at, s.clients[at].(receiving := true));
      ClientsKeepInv(cfg, s, StartListening(s.clients, uid));
    }
  }

  lemma MotdKeepsInv(cfg: Config, s: Server, uid: nat, lines: nat)
    requires Inv(cfg, s)
    ensures Inv(cfg, s.(clients := TellAll(s.clients, ListeningUid(uid), NOTICE, lines)))
  {
    TellAllKeepsSound(cfg, s.clients, ListeningUid(uid), NOTICE, lines);
    ClientsKeepInv(cfg, s, TellAll(s.clients, ListeningUid(uid), NOTICE, lines));
  }

  lemma KillerStopKeepsInv(cfg: Config, s: Server)
    requires Inv(cfg, s)
    ensures Inv(cfg, KillerStop(s))
  {
    assert forall u :: Places(KillerStop(s), u) == Places(s, u);
  }

  lemma NextKeepsInv(cfg: Config, s: Server, e: Event)
    requires Inv(cfg, s) && Enabled(cfg, s, e) && Regular(s, e)
    ensures Inv(cfg, Next(cfg, s, e))
  {
    match e
    case Join(user, banned, welcomed) => CreateKeepsInv(cfg, s, user, banned, welcomed);
    case Listen(uid) => ListenKeepsInv(cfg, s, uid);
    case Motd(uid, lines) => MotdKeepsInv(cfg, s, uid, lines);
    case Arrive(uid, r) => ReceiveKeepsInv(cfg, s, uid, r);
    case Drop(uid) => DisconnectKeepsInv(cfg, s, uid);
    case KillerTakes => KillerTakeKeepsInv(cfg, s);
    case KillerDestroys => KillerDestroyKeepsInv(cfg, s);
    case KillerStops => KillerStopKeepsInv(cfg, s);
  }

  lemma StartedInv(cfg: Config)
    ensures Inv(cfg, STARTED)
  {
    assert Users([]) == [] && forall u :: Count([], u) == 0;
  }
}
