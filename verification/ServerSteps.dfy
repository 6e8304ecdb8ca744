/** Every step of the server machine, made by the sequencer's own methods. */
module ServerSteps {
  import opened RoRnet
  import opened Sequencing
  import opened Session
  import BroadcastQueue
  import Relay
  import RelayLogs
  import RelayNames
  import RelayRuns
  import RelaySpawns
  import RelayTheorems
  import RelayUndefined
  import SpawnRate
  import Utf8

  predicate Possible(cfg: Relay.Config, s: Relay.Server, e: Relay.Event) {
    Relay.Enabled(cfg, s, e) && RelayRuns.Regular(s, e)
  }

  /** Whether a step can be made, seen from the fields. */
  method CanMake(sequencer: Sequencer, cfg: Relay.Config, e: Relay.Event) returns (can: bool)
    requires sequencer.Valid()
    ensures can <==> Possible(cfg, sequencer.state, e)
  {
    match e
    case Join(user, banned, welcomed) => can := sequencer.freeUserId + 1 < UINT32_LIMIT;
    case Arrive(uid, r) => can := CanHandle(sequencer, cfg, uid, r);
    case KillerTakes => can := sequencer.beingKilled == [] && !sequencer.killerState.NotRunning?;
    case KillerDestroys => can := sequencer.beingKilled != [];
    case _ => can := true;
  }

  method CanHandle(sequencer: Sequencer, cfg: Relay.Config, uid: nat, r: Relay.Request) returns (can: bool)
    requires sequencer.Valid()
    ensures can <==> Relay.Enabled(cfg, sequencer.state, Relay.Arrive(uid, r))
  {
    if !Relay.WellSized(r) {
      return false;
    }
    var at := sequencer.FindClientById(uid);
    if at < 0 {
      return true;
    }
    assert sequencer.clients[at].View() == sequencer.state.clients[at];
    var undefined := IsUndefined(sequencer.clients[at], cfg, r);
    can := sequencer.clients[at].isReceivingData && !undefined;
  }

  method IsUndefined(client: Client, cfg: Relay.Config, r: Relay.Request) returns (undefined: bool)
    requires Relay.WellSized(r)
    ensures undefined <==> Relay.Undefined(cfg, client.View(), r)
  {
    match r.kind
    case StreamRegister =>
      var v := SpawnRate.Check(client.streamRegTimestamps, cfg.spawnInterval, cfg.maxSpawnRate, r.now, r.later);
      undefined := |client.streams| < cfg.maxVehicles + Relay.NON_VEHICLE_STREAMS && Relay.IsVehicle(r.buffer)
                   && v.allowed && 0 !in r.buffer[NAME_OFFSET..];
    case Utf8Chat => undefined := 0 !in r.buffer || Utf8.Overruns(Relay.CString(r.buffer));
    case Utf8PrivateChat => undefined := !Relay.Addressed(r);
    case _ => undefined := false;
  }

  /** The step, with the sender's queue seen as it is. */
  function Observed(e: Relay.Event, dropping: bool): Relay.Event {
    if e.Arrive? then Relay.Arrive(e.uid, e.request.(dropping := dropping)) else e
  }

  /** How a queue is seen has no influence on whether the step can be made. */
  lemma ObservedPossible(cfg: Relay.Config, s: Relay.Server, e: Relay.Event, dropping: bool)
    requires Possible(cfg, s, e)
    ensures Possible(cfg, s, Observed(e, dropping))
  {
  }

  ghost function QueueDrops(sequencer: Sequencer, e: Relay.Event): bool
    requires sequencer.Valid()
    reads sequencer, sequencer.repr
  {
    e.Arrive? && sequencer.IsDropping(e.uid)
  }

  /** Whatever step the machine can make in a state that satisfies the server invariant, the object makes it. */
  method Make(sequencer: Sequencer, cfg: Relay.Config, e: Relay.Event, memory: nat -> Octet, socketOk: nat -> bool)
    requires sequencer.Valid() && RelayRuns.Inv(cfg, sequencer.state) && Possible(cfg, sequencer.state, e)
    modifies sequencer, sequencer.repr
    ensures sequencer.Valid() && fresh(sequencer.repr - old(sequencer.repr))
    ensures Relay.Enabled(cfg, old(sequencer.state), Observed(e, old(QueueDrops(sequencer, e))))
    ensures sequencer.state == Relay.Next(cfg, old(sequencer.state), Observed(e, old(QueueDrops(sequencer, e))))
  {
    ObservedPossible(cfg, sequencer.state, e, QueueDrops(sequencer, e));
    match e
    case Join(user, banned, welcomed) =>
      RelayRuns.FreeUidIsFresh(cfg, sequencer.state);
      var _ := sequencer.CreateClient(cfg, user, banned, welcomed, memory);
    case Listen(uid) => sequencer.Listen(uid);
    case Motd(uid, lines) => sequencer.SayLines(Relay.ListeningUid(uid), lines);
    case Arrive(uid, r) => var _ := sequencer.QueueMessage(cfg, uid, r);
    case Drop(uid) => sequencer.DisconnectClient(uid);
    case KillerTakes => var _ := sequencer.KillerThreadWaitForClient();
    case KillerDestroys => sequencer.KillerThreadProcessClient(socketOk);
    case KillerStops => sequencer.StopKillerThread();
  }

  // ---------------------------------------------------------------- what a thread can rely on

  /** The client listens, if it is connected at all. */
  predicate Listens(cs: seq<Relay.Client>, uid: nat) {
    var i := Relay.Find(cs, uid);
    i >= 0 ==> cs[i].receiving
  }

  /** No step of any thread clears the flag, and nobody comes back under the same id. */
  lemma NextListens(cfg: Relay.Config, s: Relay.Server, e: Relay.Event, uid: nat)
    requires RelayRuns.Inv(cfg, s) && Relay.Enabled(cfg, s, e) && uid < s.freeUid && Listens(s.clients, uid)
    ensures Listens(Relay.Next(cfg, s, e).clients, uid)
  {
    var cs' := Relay.Next(cfg, s, e).clients;
    var j := Relay.Find(cs', uid);
    if j >= 0 {
      RelayRuns.FreeUidIsFresh(cfg, s);
      RelayLogs.NextFollows(cfg, s, e, j);
      assert Relay.Users(cs')[j] == cs'[j].user;
      if Relay.Find(s.clients, uid) < 0 {
        RelayNames.GoneStaysGone(cfg, s, e, uid);
      }
    }
  }

  /** So a message from a client whose thread has started can be handled whatever happens in between: in
      every run the step is enabled, unless the language promises nothing about it. */
  lemma {:induction false} ListensForever(cfg: Relay.Config, s: Relay.Server, events: seq<Relay.Event>, uid: nat,
                                          r: Relay.Request)
    requires RelayRuns.Inv(cfg, s) && RelayTheorems.RegularRun(cfg, s, events) && Relay.Runs(cfg, s, events)
    requires uid < s.freeUid && Listens(s.clients, uid) && Relay.WellSized(r)
    ensures var s' := Relay.Run(cfg, s, events);
            && Listens(s'.clients, uid)
            && (Relay.Enabled(cfg, s', Relay.Arrive(uid, r)) <==> !RelayUndefined.BreaksOff(cfg, s', uid, r))
    decreases |events|
  {
    if events != [] {
      NextListens(cfg, s, events[0], uid);
      RelayRuns.NextKeepsInv(cfg, s, events[0]);
      RelaySpawns.FreeUidGrows(cfg, s, events[0]);
      ListensForever(cfg, Relay.Next(cfg, s, events[0]), events[1..], uid, r);
    }
  }

  /** What holds whenever a thread of the client `uid` is about to make a step. */
  ghost predicate Ready(cfg: Relay.Config, s: Relay.Server, uid: nat, listening: bool) {
    RelayTheorems.Reachable(cfg, s) && uid < s.freeUid && (listening ==> Listens(s.clients, uid))
  }

  lemma StaysReady(cfg: Relay.Config, s: Relay.Server, e: Relay.Event, uid: nat, listening: bool)
    requires Ready(cfg, s, uid, listening) && Possible(cfg, s, e)
    ensures Ready(cfg, Relay.Next(cfg, s, e), uid, listening)
  {
    RelayTheorems.ReachableInv(cfg, s);
    RelayTheorems.ReachableNext(cfg, s, e);
    RelaySpawns.FreeUidGrows(cfg, s, e);
    if listening {
      NextListens(cfg, s, e, uid);
    }
  }

  // ---------------------------------------------------------------- runs, one step at a time

  /** The run from `s` through `events` ends in `s'`. */
  ghost predicate Leads(cfg: Relay.Config, s: Relay.Server, events: seq<Relay.Event>, s': Relay.Server)
    decreases |events|
  {
    if events == [] then s' == s
    else Relay.Enabled(cfg, s, events[0]) && Leads(cfg, Relay.Next(cfg, s, events[0]), events[1..], s')
  }

  lemma {:induction false} LeadsIsRun(cfg: Relay.Config, s: Relay.Server, events: seq<Relay.Event>, s': Relay.Server)
    ensures Leads(cfg, s, events, s') <==> Relay.Runs(cfg, s, events) && Relay.Run(cfg, s, events) == s'
    decreases |events|
  {
    if events != [] && Relay.Enabled(cfg, s, events[0]) {
      LeadsIsRun(cfg, Relay.Next(cfg, s, events[0]), events[1..], s');
    }
  }

  lemma LeadsFrom(cfg: Relay.Config, s: Relay.Server, e: Relay.Event, rest: seq<Relay.Event>, s': Relay.Server)
    requires Relay.Enabled(cfg, s, e) && Leads(cfg, Relay.Next(cfg, s, e), rest, s')
    ensures Leads(cfg, s, [e] + rest, s')
  {
    assert ([e] + rest)[1..] == rest;
  }

  lemma {:induction false} LeadsThrough(cfg: Relay.Config, s: Relay.Server, events: seq<Relay.Event>, s1: Relay.Server,
                                        more: seq<Relay.Event>, s2: Relay.Server)
    requires Leads(cfg, s, events, s1) && Leads(cfg, s1, more, s2)
    ensures Leads(cfg, s, events + more, s2)
    decreases |events|
  {
    if events == [] {
      assert events + more == more;
    } else {
      var first, rest := events[0], events[1..];
      LeadsThrough(cfg, Relay.Next(cfg, s, first), rest, s1, more, s2);
      LeadsFrom(cfg, s, first, rest + more, s2);
      Regrouped(events, more);
    }
  }

  lemma Regrouped(events: seq<Relay.Event>, more: seq<Relay.Event>)
    requires events != []
    ensures [events[0]] + (events[1..] + more) == events + more
  {
  }

  lemma LeadsByOne(cfg: Relay.Config, s: Relay.Server, e: Relay.Event)
    requires Relay.Enabled(cfg, s, e)
    ensures Leads(cfg, s, [e], Relay.Next(cfg, s, e))
  {
    assert [e][1..] == [];
  }

  lemma LeadsOn(cfg: Relay.Config, s: Relay.Server, events: seq<Relay.Event>, s1: Relay.Server, e: Relay.Event)
    requires Leads(cfg, s, events, s1) && Relay.Enabled(cfg, s1, e)
    ensures Leads(cfg, s, events + [e], Relay.Next(cfg, s1, e))
  {
    LeadsThrough(cfg, s, events, s1, [e], Relay.Next(cfg, s1, e));
  }

  // ---------------------------------------------------------------- what other threads do

  /** What another thread wants to do: a step of the server, or a section of the sending thread of a client. */
  datatype Act = Serve(e: Relay.Event) | Send(uid: nat, socketOk: bool)

  /** The steps of the server that these acts make, from `s` on: those that are possible when it is their turn, each
      with its sender's queue seen as the flag says. Sending threads make none. */
  function Performed(cfg: Relay.Config, s: Relay.Server, wanted: seq<Act>, flags: seq<bool>): seq<Relay.Event>
    requires |flags| == |wanted|
    decreases |wanted|
  {
    if wanted == [] then []
    else if wanted[0].Serve? && Possible(cfg, s, wanted[0].e) then
      var e := Observed(wanted[0].e, flags[0]);
      ObservedPossible(cfg, s, wanted[0].e, flags[0]);
      [e] + Performed(cfg, Relay.Next(cfg, s, e), wanted[1..], flags[1..])
    else Performed(cfg, s, wanted[1..], flags[1..])
  }

  function PerformedNext(cfg: Relay.Config, s: Relay.Server, act: Act, flag: bool): seq<Relay.Event> {
    if act.Serve? && Possible(cfg, s, act.e) then [Observed(act.e, flag)] else []
  }

  lemma {:induction false} PerformedMore(cfg: Relay.Config, s: Relay.Server, wanted: seq<Act>, flags: seq<bool>,
                                         s1: Relay.Server, act: Act, flag: bool)
    requires |flags| == |wanted| && Leads(cfg, s, Performed(cfg, s, wanted, flags), s1)
    ensures Performed(cfg, s, wanted + [act], flags + [flag])
         == Performed(cfg, s, wanted, flags) + PerformedNext(cfg, s1, act, flag)
    decreases |wanted|
  {
    if wanted == [] {
      assert [act][1..] == [] && [flag][1..] == [];
    } else {
      assert (wanted + [act])[1..] == wanted[1..] + [act] && (flags + [flag])[1..] == flags[1..] + [flag];
      if wanted[0].Serve? && Possible(cfg, s, wanted[0].e) {
        var e := Observed(wanted[0].e, flags[0]);
        ObservedPossible(cfg, s, wanted[0].e, flags[0]);
        var rest := Performed(cfg, Relay.Next(cfg, s, e), wanted[1..], flags[1..]);
        assert ([e] + rest)[1..] == rest;
        PerformedMore(cfg, Relay.Next(cfg, s, e), wanted[1..], flags[1..], s1, act, flag);
        assert [e] + (rest + PerformedNext(cfg, s1, act, flag)) == [e] + rest + PerformedNext(cfg, s1, act, flag);
      } else {
        PerformedMore(cfg, s, wanted[1..], flags[1..], s1, act, flag);
      }
    }
  }

  /** What one section of a running sending thread makes of its channel: the wait ends, or what is in hand is sent. */
  function Sectioned(ch: BroadcastQueue.Channel, socketOk: bool): BroadcastQueue.Channel {
    match ch.phase
    case Waiting => BroadcastQueue.Next(ch, BroadcastQueue.Woken)
    case Sending =>
      BroadcastQueue.Next(ch, BroadcastQueue.Sent(ch.inHand.None? || ch.inHand.value.kind.Invalid? || socketOk))
    case _ => ch
  }

  /** One section of the sending thread of a client, if it is connected. The server's state stays as it is. */
  method SendingThreadActs(sequencer: Sequencer, uid: nat, socketOk: bool)
    requires sequencer.Valid()
    modifies sequencer.repr
    ensures sequencer.Valid() && sequencer.state == old(sequencer.state) && sequencer.repr == old(sequencer.repr)
    ensures sequencer.clients == old(sequencer.clients)
    ensures var i := Relay.Find(sequencer.state.clients, uid);
            i >= 0 ==> sequencer.clients[i].broadcaster.Abs()
                       == Sectioned(old(sequencer.clients[i].broadcaster.Abs()), socketOk)
  {
    var i := sequencer.FindClientById(uid);
    if i < 0 {
      return;
    }
    ghost var view := sequencer.state.clients[i];
    assert sequencer.clients[i].View() == view;
    MakeSection(sequencer.clients[i], socketOk);
    StaysValid(Change(sequencer, i, view));
  }

  method MakeSection(client: Client, socketOk: bool)
    modifies client.broadcaster
    ensures client.broadcaster.Abs() == Sectioned(old(client.broadcaster.Abs()), socketOk)
    ensures client.View() == old(client.View())
  {
    match client.broadcaster.phase
    case Waiting => var _, _ := client.broadcaster.ThreadWaitForMessage();
    case Sending => var _, _ := client.broadcaster.SendInHand(client.broadcaster.inHand, socketOk);
    case _ =>
  }

  /** A step of the server, if it is possible. */
  method StepActs(sequencer: Sequencer, cfg: Relay.Config, wanted: Relay.Event, memory: nat -> Octet,
                  socketOk: nat -> bool, ghost uid: nat, ghost listening: bool)
    requires sequencer.Valid() && Ready(cfg, sequencer.state, uid, listening)
    modifies sequencer, sequencer.repr
    ensures sequencer.Valid() && fresh(sequencer.repr - old(sequencer.repr))
    ensures Ready(cfg, sequencer.state, uid, listening)
    ensures var e := Observed(wanted, old(QueueDrops(sequencer, wanted)));
            if Possible(cfg, old(sequencer.state), wanted) then Leads(cfg, old(sequencer.state), [e], sequencer.state)
            else sequencer.state == old(sequencer.state)
  {
    var can := CanMake(sequencer, cfg, wanted);
    if can {
      ghost var s, e := sequencer.state, Observed(wanted, QueueDrops(sequencer, wanted));
      ObservedPossible(cfg, s, wanted, QueueDrops(sequencer, wanted));
      RelayTheorems.ReachableInv(cfg, s);
      StaysReady(cfg, s, e, uid, listening);
      LeadsByOne(cfg, s, e);
      Make(sequencer, cfg, wanted, memory, socketOk);
    }
  }

  /** Another thread acts: it makes the step of the server that it wants if that is possible, or a section of a
      sending thread. */
  method OtherActs(sequencer: Sequencer, cfg: Relay.Config, act: Act, memory: nat -> Octet, socketOk: nat -> bool,
                   ghost uid: nat, ghost listening: bool)
    returns (ghost flag: bool)
    requires sequencer.Valid() && Ready(cfg, sequencer.state, uid, listening)
    modifies sequencer, sequencer.repr
    ensures sequencer.Valid() && fresh(sequencer.repr - old(sequencer.repr))
    ensures Ready(cfg, sequencer.state, uid, listening)
    ensures flag == (act.Serve? && old(QueueDrops(sequencer, act.e)))
    ensures act.Send? ==>
              var i := Relay.Find(old(sequencer.state).clients, act.uid);
              && sequencer.state == old(sequencer.state) && sequencer.clients == old(sequencer.clients)
              && (i >= 0 ==> sequencer.clients[i].broadcaster.Abs()
                             == Sectioned(old(sequencer.clients[i].broadcaster.Abs()), act.socketOk))
    ensures Leads(cfg, old(sequencer.state), PerformedNext(cfg, old(sequencer.state), act, flag), sequencer.state)
  {
    flag := act.Serve? && QueueDrops(sequencer, act.e);
    if act.Send? {
      SendingThreadActs(sequencer, act.uid, act.socketOk);
    } else {
      StepActs(sequencer, cfg, act.e, memory, socketOk, uid, listening);
    }
  }

  /** The acts lead from `start` to `s`, with the queues seen as the flags say. */
  ghost predicate Brings(cfg: Relay.Config, start: Relay.Server, wanted: seq<Act>, flags: seq<bool>, s: Relay.Server) {
    |flags| == |wanted| && Leads(cfg, start, Performed(cfg, start, wanted, flags), s)
  }

  lemma BringsNothing(cfg: Relay.Config, s: Relay.Server)
    ensures Brings(cfg, s, [], [], s)
  {
  }

  lemma BringsOn(cfg: Relay.Config, start: Relay.Server, wanted: seq<Act>, flags: seq<bool>, s: Relay.Server,
                 act: Act, flag: bool, s': Relay.Server)
    requires Brings(cfg, start, wanted, flags, s) && Leads(cfg, s, PerformedNext(cfg, s, act, flag), s')
    ensures Brings(cfg, start, wanted + [act], flags + [flag], s')
  {
    PerformedMore(cfg, start, wanted, flags, s, act, flag);
    LeadsThrough(cfg, start, Performed(cfg, start, wanted, flags), s, PerformedNext(cfg, s, act, flag), s');
  }

  /** The same after some acts. */
  method OneMoreActs(sequencer: Sequencer, cfg: Relay.Config, act: Act, memory: nat -> Octet, socketOk: nat -> bool,
                     ghost uid: nat, ghost listening: bool, ghost start: Relay.Server, ghost done: seq<Act>,
                     ghost flags: seq<bool>)
    returns (ghost flag: bool)
    requires sequencer.Valid() && Ready(cfg, sequencer.state, uid, listening)
    requires Brings(cfg, start, done, flags, sequencer.state)
    modifies sequencer, sequencer.repr
    ensures sequencer.Valid() && fresh(sequencer.repr - old(sequencer.repr))
    ensures Ready(cfg, sequencer.state, uid, listening)
    ensures Brings(cfg, start, done + [act], flags + [flag], sequencer.state)
  {
    ghost var s := sequencer.state;
    flag := OtherActs(sequencer, cfg, act, memory, socketOk, uid, listening);
    BringsOn(cfg, start, done, flags, s, act, flag, sequencer.state);
  }

  /** The other threads act as they want, one after the other. */
  method OthersAct(sequencer: Sequencer, cfg: Relay.Config, wanted: seq<Act>, memory: nat -> Octet,
                   socketOk: nat -> bool, ghost uid: nat, ghost listening: bool)
    returns (ghost flags: seq<bool>)
    requires sequencer.Valid() && Ready(cfg, sequencer.state, uid, listening)
    modifies sequencer, sequencer.repr
    ensures sequencer.Valid() && fresh(sequencer.repr - old(sequencer.repr))
    ensures Ready(cfg, sequencer.state, uid, listening)
    ensures Brings(cfg, old(sequencer.state), wanted, flags, sequencer.state)
  {
    ghost var start := sequencer.state;
    flags := [];
    BringsNothing(cfg, start);
    var i := 0;
    while i < |wanted|
      invariant i <= |wanted|
      invariant sequencer.Valid() && fresh(sequencer.repr - old(sequencer.repr))
      invariant Ready(cfg, sequencer.state, uid, listening)
      invariant Brings(cfg, start, wanted[..i], flags, sequencer.state)
    {
      ghost var flag :=
        OneMoreActs(sequencer, cfg, wanted[i], memory, socketOk, uid, listening, start, wanted[..i], flags);
      assert wanted[..i + 1] == wanted[..i] + [wanted[i]];
      flags := flags + [flag];
      i := i + 1;
    }
    assert wanted[..|wanted|] == wanted;
  }

  // ---------------------------------------------------------------- one thread and all others

  /** `made` is what the others do from `s` on, wanting this. */
  ghost predicate Acted(cfg: Relay.Config, s: Relay.Server, wanted: seq<Act>, made: seq<Relay.Event>) {
    exists flags :: |flags| == |wanted| && made == Performed(cfg, s, wanted, flags)
  }

  /** One step of a thread: what the others do before, the server then, the step, and the server after it. */
  datatype Round = Round(made: seq<Relay.Event>, between: Relay.Server, own: Relay.Event, after: Relay.Server)

  ghost predicate Turn(cfg: Relay.Config, s: Relay.Server, wanted: seq<Act>, r: Round) {
    && Acted(cfg, s, wanted, r.made) && Leads(cfg, s, r.made, r.between)
    && Relay.Enabled(cfg, r.between, r.own) && r.after == Relay.Next(cfg, r.between, r.own)
  }

  /** What the first `k` rounds end in. */
  function End<S, R>(start: S, rounds: seq<R>, after: R -> S, k: nat): S
    requires k <= |rounds|
  {
    if k == 0 then start else after(rounds[k - 1])
  }

  ghost predicate Fitting<S, R>(start: S, rounds: seq<R>, after: R -> S, turn: (nat, S, R) -> bool, k: nat)
    requires k < |rounds|
  {
    turn(k, End(start, rounds, after, k), rounds[k])
  }

  /** Each round fits to what the ones before it end in. */
  ghost predicate Chained<S, R>(start: S, rounds: seq<R>, after: R -> S, turn: (nat, S, R) -> bool) {
    forall k :: 0 <= k < |rounds| ==> Fitting(start, rounds, after, turn, k)
  }

  lemma ChainedMore<S, R>(start: S, rounds: seq<R>, after: R -> S, turn: (nat, S, R) -> bool, r: R)
    requires Chained(start, rounds, after, turn) && turn(|rounds|, End(start, rounds, after, |rounds|), r)
    ensures Chained(start, rounds + [r], after, turn)
  {
    var more := rounds + [r];
    forall k | 0 <= k < |more| ensures Fitting(start, more, after, turn, k) {
      assert k < |rounds| ==> Fitting(start, rounds, after, turn, k);
      assert End(start, more, after, k) == End(start, rounds, after, k);
    }
  }

  lemma ChainedLess<S, R>(start: S, rounds: seq<R>, after: R -> S, turn: (nat, S, R) -> bool, n: nat)
    requires Chained(start, rounds, after, turn) && n < |rounds|
    ensures Chained(start, rounds[..n], after, turn) && turn(n, End(start, rounds[..n], after, n), rounds[n])
  {
    assert Fitting(start, rounds, after, turn, n);
    forall k | 0 <= k < n ensures Fitting(start, rounds[..n], after, turn, k) {
      assert Fitting(start, rounds, after, turn, k);
    }
  }

  ghost function Turns(cfg: Relay.Config, wanted: nat -> seq<Act>): (nat, Relay.Server, Round) -> bool {
    (k: nat, s: Relay.Server, r: Round) => Turn(cfg, s, wanted(k), r)
  }

  function After(): Round -> Relay.Server {
    (r: Round) => r.after
  }

  /** From `start` to `s` a thread makes its steps, and before step number `k` the others act as they want then. */
  ghost predicate ThreadRun(cfg: Relay.Config, start: Relay.Server, wanted: nat -> seq<Act>, rounds: seq<Round>,
                            s: Relay.Server) {
    Chained(start, rounds, After(), Turns(cfg, wanted)) && s == End(start, rounds, After(), |rounds|)
  }

  function OwnSteps(rounds: seq<Round>): (own: seq<Relay.Event>)
    ensures |own| == |rounds|
  {
    seq(|rounds|, k requires 0 <= k < |rounds| => rounds[k].own)
  }

  function AllSteps(rounds: seq<Round>): seq<Relay.Event> {
    if rounds == [] then []
    else
      var r := rounds[|rounds| - 1];
      AllSteps(rounds[..|rounds| - 1]) + r.made + [r.own]
  }

  lemma ThreadRunMore(cfg: Relay.Config, start: Relay.Server, wanted: nat -> seq<Act>, rounds: seq<Round>,
                      s: Relay.Server, r: Round)
    requires ThreadRun(cfg, start, wanted, rounds, s) && Turns(cfg, wanted)(|rounds|, s, r)
    ensures ThreadRun(cfg, start, wanted, rounds + [r], r.after) && OwnSteps(rounds + [r]) == OwnSteps(rounds) + [r.own]
  {
    ChainedMore(start, rounds, After(), Turns(cfg, wanted), r);
  }

  lemma TurnLeads(cfg: Relay.Config, start: Relay.Server, earlier: seq<Relay.Event>, s: Relay.Server, wanted: seq<Act>,
                  r: Round)
    requires Leads(cfg, start, earlier, s) && Turn(cfg, s, wanted, r)
    ensures Leads(cfg, start, earlier + r.made + [r.own], r.after)
  {
    LeadsThrough(cfg, start, earlier, s, r.made, r.between);
    LeadsOn(cfg, start, earlier + r.made, r.between, r.own);
  }

  /** All these steps together are a run of the server. */
  lemma {:induction false} ThreadRunLeads(cfg: Relay.Config, start: Relay.Server, wanted: nat -> seq<Act>,
                                          rounds: seq<Round>, s: Relay.Server)
    requires ThreadRun(cfg, start, wanted, rounds, s)
    ensures Leads(cfg, start, AllSteps(rounds), s)
  {
    if rounds != [] {
      var n := |rounds| - 1;
      var before := End(start, rounds[..n], After(), n);
      ChainedLess(start, rounds, After(), Turns(cfg, wanted), n);
      ThreadRunLeads(cfg, start, wanted, rounds[..n], before);
      TurnLeads(cfg, start, AllSteps(rounds[..n]), before, wanted(n), rounds[n]);
    }
  }
}
