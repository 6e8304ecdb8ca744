/** Vehicle spawns over whole runs: the accepted registrations of vehicles, read off the run itself. */
module RelaySpawns {
  import opened RoRnet
  import opened Identity
  import opened Relay
  import opened RelayInvariant
  import opened RelayRuns
  import opened RelayTheorems
  import opened RelayLogs
  import RelayNames
  import SpawnRate

  /** The step is an accepted registration of a vehicle by the client with this id. */
  predicate IsSpawn(cfg: Config, s: Server, e: Event, uid: nat)
    requires Enabled(cfg, s, e)
  {
    && e.Arrive? && e.uid == uid && Find(s.clients, uid) >= 0
    && e.request.kind.StreamRegister? && IsVehicle(e.request.buffer)
    && RegisterResult(cfg, s.clients[Find(s.clients, uid)], e.request).Accepted?
  }

  function SpawnReadings(cfg: Config, s: Server, e: Event, uid: nat): seq<(int, int)>
    requires Enabled(cfg, s, e)
  {
    if IsSpawn(cfg, s, e, uid) then [(e.request.now, e.request.later)] else []
  }

  /** The clock readings of all spawns of the client in a run. */
  ghost function Spawns(cfg: Config, s: Server, events: seq<Event>, uid: nat): seq<(int, int)>
    requires Runs(cfg, s, events)
    decreases |events|
  {
    if events == [] then []
    else SpawnReadings(cfg, s, events[0], uid) + Spawns(cfg, Next(cfg, s, events[0]), events[1..], uid)
  }

  // ---------------------------------------------------------------- one step

  lemma AddStreamChecks(cfg: Config, cs: seq<Client>, at: nat, r: Request)
    requires at < |cs| && WellSized(r)
    ensures Users(AddStream(cfg, cs, at, r)) == Users(cs)
    ensures AddStream(cfg, cs, at, r)[at].spawnChecks == cs[at].spawnChecks
  {
  }

  lemma SpawnCheckedChecks(cfg: Config, cs: seq<Client>, at: nat, r: Request)
    requires at < |cs| && WellSized(r)
    ensures Users(SpawnChecked(cfg, cs, at, r)) == Users(cs)
    ensures SpawnChecked(cfg, cs, at, r)[at].spawnChecks == ChecksAfter(cs[at], r)
  {
  }

  /** An accepted registration of a vehicle is recorded with its clock readings, and the limiter, asked
      about everything recorded, allows it. */
  lemma SpawnIsRecorded(cfg: Config, s: Server, e: Event, uid: nat)
    requires Inv(cfg, s) && Enabled(cfg, s, e) && IsSpawn(cfg, s, e, uid)
    ensures var i, cs' := Find(s.clients, uid), Next(cfg, s, e).clients;
            var checks := s.clients[i].spawnChecks + [(e.request.now, e.request.later)];
            && Find(cs', uid) == i && cs'[i].spawnChecks == checks
            && (SpawnRate.AllAllowed(s.clients[i].spawnChecks, cfg.spawnInterval, cfg.maxSpawnRate) ==>
                  SpawnRate.AllAllowed(checks, cfg.spawnInterval, cfg.maxSpawnRate))
  {
    var i, r := Find(s.clients, uid), e.request;
    var cs := s.clients[i := QualityStep(s.clients[i], r.dropping)];
    AcceptedRegistration(cfg, s, uid, i, r);
    SpawnCheckedChecks(cfg, cs, i, r);
    AddStreamChecks(cfg, SpawnChecked(cfg, cs, i, r), i, r);
    assert Users(cs) == Users(s.clients);
    assert ClientOk(cfg, s.clients[i]);
    if SpawnRate.AllAllowed(s.clients[i].spawnChecks, cfg.spawnInterval, cfg.maxSpawnRate) {
      SpawnRate.AllowedMore(s.clients[i].spawnChecks, (r.now, r.later), cfg.spawnInterval, cfg.maxSpawnRate);
    }
  }

  lemma RefusedIsGone(cfg: Config, s: Server, at: nat, r: Request)
    requires DistinctUids(Users(s.clients)) && at < |s.clients| && WellSized(r)
    requires !RegisterResult(cfg, s.clients[at], r).Accepted?
    ensures Find(RegisterStream(cfg, s, at, r).clients, s.clients[at].user.uid) < 0
  {
    var uid := s.clients[at].user.uid;
    var told := Tell(Tell(s.clients, ListeningUid(uid), NOTICE), Listening, NOTICE);
    var checked := Tell(SpawnChecked(cfg, s.clients, at, r), Listening, NOTICE);
    SpawnCheckedChecks(cfg, s.clients, at, r);
    RelayNames.TellUsers(SpawnChecked(cfg, s.clients, at, r), Listening, NOTICE);
    RelayNames.TellUsers(s.clients, ListeningUid(uid), NOTICE);
    RelayNames.TellUsers(Tell(s.clients, ListeningUid(uid), NOTICE), Listening, NOTICE);
    DisconnectRemovesOne(s.(clients := told), uid);
    DisconnectRemovesOne(s.(clients := checked), uid);
  }

  lemma RegistrationHandled(cfg: Config, s: Server, uid: nat, r: Request)
    requires WellSized(r) && r.kind.StreamRegister? && Find(s.clients, uid) >= 0
    ensures var i := Find(s.clients, uid);
            Receive(cfg, s, uid, r)
            == RegisterStream(cfg, s.(clients := s.clients[i := QualityStep(s.clients[i], r.dropping)]), i, r)
  {
  }

  lemma SameResult(cfg: Config, c: Client, r: Request)
    requires WellSized(r)
    ensures RegisterResult(cfg, QualityStep(c, r.dropping), r) == RegisterResult(cfg, c, r)
  {
  }

  /** A vehicle registration that is refused ends the client's connection. */
  lemma RefusedVehicleIsGone(cfg: Config, s: Server, uid: nat, r: Request)
    requires Inv(cfg, s) && WellSized(r) && r.kind.StreamRegister? && Find(s.clients, uid) >= 0
    requires !RegisterResult(cfg, s.clients[Find(s.clients, uid)], r).Accepted?
    ensures Find(Receive(cfg, s, uid, r).clients, uid) < 0
  {
    var i := Find(s.clients, uid);
    var s1 := s.(clients := s.clients[i := QualityStep(s.clients[i], r.dropping)]);
    SameResult(cfg, s.clients[i], r);
    RelayNames.UpdateUsers(s.clients, i, QualityStep(s.clients[i], r.dropping));
    assert Users(s.clients)[i] == s.clients[i].user;
    RefusedIsGone(cfg, s1, i, r);
    RegistrationHandled(cfg, s, uid, r);
  }

  /** A client that registers no vehicle keeps its records, and a new one has none. */
  lemma OthersKeepRecords(cfg: Config, s: Server, e: Event, uid: nat)
    requires Inv(cfg, s) && Enabled(cfg, s, e) && !IsSpawn(cfg, s, e, uid) && Find(Next(cfg, s, e).clients, uid) >= 0
    ensures var i, cs' := Find(s.clients, uid), Next(cfg, s, e).clients;
            cs'[Find(cs', uid)].spawnChecks == if i >= 0 then s.clients[i].spawnChecks else []
  {
    var i, cs' := Find(s.clients, uid), Next(cfg, s, e).clients;
    FreeUidIsFresh(cfg, s);
    NextFollows(cfg, s, e, Find(cs', uid));
    assert Users(cs')[Find(cs', uid)] == cs'[Find(cs', uid)].user;
    if i >= 0 && Sender(cfg, s, e).spawning && Sender(cfg, s, e).uid == uid {
      assert Users(s.clients)[i] == s.clients[i].user;
      RefusedVehicleIsGone(cfg, s, uid, e.request);
    }
  }

  /** What one step does to the spawn records of one client. */
  lemma {:induction false} StepRecords(cfg: Config, s: Server, e: Event, uid: nat)
    requires Inv(cfg, s) && Enabled(cfg, s, e)
    ensures var i, s' := Find(s.clients, uid), Next(cfg, s, e);
            var i' := Find(s'.clients, uid);
            && (i >= 0 && i' >= 0 ==>
                  s'.clients[i'].spawnChecks == s.clients[i].spawnChecks + SpawnReadings(cfg, s, e, uid))
            && (i < 0 && i' >= 0 ==> s'.clients[i'].spawnChecks == [])
            && (IsSpawn(cfg, s, e, uid) ==> i' >= 0)
  {
    if IsSpawn(cfg, s, e, uid) {
      SpawnIsRecorded(cfg, s, e, uid);
    } else if Find(Next(cfg, s, e).clients, uid) >= 0 {
      var i := Find(s.clients, uid);
      OthersKeepRecords(cfg, s, e, uid);
      assert i >= 0 ==> s.clients[i].spawnChecks + [] == s.clients[i].spawnChecks;
    }
  }

  // ---------------------------------------------------------------- whole runs

  /** Everything the client has spawned so far was allowed by the limiter, and is what it has recorded if
      it is still connected. */
  ghost predicate Recorded(cfg: Config, s: Server, uid: nat, spawns: seq<(int, int)>) {
    && SpawnRate.AllAllowed(spawns, cfg.spawnInterval, cfg.maxSpawnRate)
    && (Find(s.clients, uid) >= 0 ==> s.clients[Find(s.clients, uid)].spawnChecks == spawns)
    && (uid >= s.freeUid ==> spawns == [])
  }

  lemma FreeUidGrows(cfg: Config, s: Server, e: Event)
    requires Enabled(cfg, s, e) && Regular(s, e)
    ensures s.freeUid <= Next(cfg, s, e).freeUid
    ensures s.freeUid < UINT32_LIMIT ==> Next(cfg, s, e).freeUid < UINT32_LIMIT
  {
    if e.Arrive? && Find(s.clients, e.uid) >= 0 {
      var at := Find(s.clients, e.uid);
      var cs := s.clients[at := QualityStep(s.clients[at], e.request.dropping)];
      HandleKeepsFreeUid(cfg, s.(clients := cs), at, e.request);
    }
  }

  lemma HandleKeepsFreeUid(cfg: Config, s: Server, at: nat, r: Request)
    requires at < |s.clients| && WellSized(r) && Addressed(r)
    ensures Handle(cfg, s, at, r).freeUid == s.freeUid
  {
  }

  lemma FoundIsOld(cfg: Config, s: Server, uid: nat)
    requires Inv(cfg, s) && Find(s.clients, uid) >= 0
    ensures uid < s.freeUid
  {
    CountNone(s.clients, uid);
    assert Users(s.clients)[Find(s.clients, uid)] == s.clients[Find(s.clients, uid)].user;
    assert Places(s, uid) > 0;
  }

  lemma {:induction false} StepKeepsRecorded(cfg: Config, s: Server, e: Event, uid: nat, spawns: seq<(int, int)>)
    requires Inv(cfg, s) && Enabled(cfg, s, e) && Regular(s, e) && Recorded(cfg, s, uid, spawns)
    ensures Recorded(cfg, Next(cfg, s, e), uid, spawns + SpawnReadings(cfg, s, e, uid))
  {
    var i, s' := Find(s.clients, uid), Next(cfg, s, e);
    StepRecords(cfg, s, e, uid);
    FreeUidGrows(cfg, s, e);
    assert spawns + [] == spawns;
    if IsSpawn(cfg, s, e, uid) {
      SpawnIsRecorded(cfg, s, e, uid);
      FoundIsOld(cfg, s, uid);
    } else if i < 0 && Find(s'.clients, uid) >= 0 && uid < s.freeUid {
      RelayNames.GoneStaysGone(cfg, s, e, uid);
    }
  }

  lemma Regrouped<T>(a: seq<T>, b: seq<T>, c: seq<T>)
    ensures a + b + c == a + (b + c)
  {
  }

  lemma {:induction false} SpawnsAllowed(cfg: Config, s: Server, events: seq<Event>, uid: nat, spawns: seq<(int, int)>)
    requires Inv(cfg, s) && RegularRun(cfg, s, events) && Runs(cfg, s, events) && Recorded(cfg, s, uid, spawns)
    ensures Recorded(cfg, Run(cfg, s, events), uid, spawns + Spawns(cfg, s, events, uid))
    decreases |events|
  {
    if events == [] {
      assert spawns + [] == spawns;
    } else {
      var e, s' := events[0], Next(cfg, s, events[0]);
      var now := SpawnReadings(cfg, s, e, uid);
      StepKeepsRecorded(cfg, s, e, uid, spawns);
      NextKeepsInv(cfg, s, e);
      SpawnsAllowed(cfg, s', events[1..], uid, spawns + now);
      Regrouped(spawns, now, Spawns(cfg, s', events[1..], uid));
    }
  }

  lemma {:induction false} SpawnsOfRun(cfg: Config, events: seq<Event>, uid: nat)
    requires RegularRun(cfg, STARTED, events) && Runs(cfg, STARTED, events)
    ensures SpawnRate.AllAllowed(Spawns(cfg, STARTED, events, uid), cfg.spawnInterval, cfg.maxSpawnRate)
  {
    StartedInv(cfg);
    SpawnsAllowed(cfg, STARTED, events, uid, []);
    assert [] + Spawns(cfg, STARTED, events, uid) == Spawns(cfg, STARTED, events, uid);
  }

  /** In every run, no closed time window of the configured length holds more than the maximum rate plus
      one accepted vehicle registrations of one client. */
  lemma {:induction false} SpawnsAreBounded(cfg: Config, events: seq<Event>, uid: nat, from: int)
    requires RegularRun(cfg, STARTED, events) && Runs(cfg, STARTED, events)
    requires cfg.spawnInterval != 0 && cfg.maxSpawnRate > 0
    requires SpawnRate.ClockMonotone(Spawns(cfg, STARTED, events, uid))
    ensures var spawns := Spawns(cfg, STARTED, events, uid);
            SpawnRate.Within(spawns, |spawns|, from, from + cfg.spawnInterval) <= cfg.maxSpawnRate + 1
  {
    var spawns := Spawns(cfg, STARTED, events, uid);
    SpawnsOfRun(cfg, events, uid);
    AllowedAreBounded(spawns, cfg.spawnInterval, cfg.maxSpawnRate, from);
  }

  lemma AllowedAreBounded(spawns: seq<(int, int)>, interval: int, maxRate: int, from: int)
    requires interval != 0 && maxRate > 0
    requires SpawnRate.AllAllowed(spawns, interval, maxRate) && SpawnRate.ClockMonotone(spawns)
    ensures SpawnRate.Within(spawns, |spawns|, from, from + interval) <= maxRate + 1
  {
    SpawnRate.WithinOfAllowed(spawns, |spawns|, interval, maxRate, from, from + interval);
    SpawnRate.WindowBound(spawns, |spawns|, interval, maxRate, from);
  }
}
