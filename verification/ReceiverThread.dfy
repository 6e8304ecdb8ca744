/** The main loop of a receiver thread, as steps of the server. */
module ReceiverThread {
  import opened RoRnet
  import opened Sequencing
  import opened ServerSteps
  import Relay
  import RelayTheorems
  import RelayUndefined
  import Session

  /** What one turn of the loop gets from the socket. */
  datatype Received = Broken | Complete(header: Session.Header, request: Relay.Request)

  predicate Fits(m: Received) {
    m.Complete? ==> Relay.WellSized(m.request) && Session.RequestFits(m.request, m.header, m.request.buffer)
  }

  predicate AllFit(inputs: seq<Received>) {
    forall i :: 0 <= i < |inputs| ==> Fits(inputs[i])
  }

  /** The steps of the loop: messages are handed on until one is broken or out of range; then the client
      is reported. The list ends early when the thread is asked to stop. */
  function MessageEvents(uid: nat, inputs: seq<Received>): seq<Relay.Event> {
    if inputs == [] then []
    else if inputs[0].Broken? || !Session.CommandInRange(inputs[0].header.command) then [Relay.Drop(uid)]
    else [Relay.Arrive(uid, inputs[0].request)] + MessageEvents(uid, inputs[1..])
  }

  function ThreadEvents(uid: nat, lines: nat, inputs: seq<Received>): seq<Relay.Event> {
    [Relay.Listen(uid), Relay.Motd(uid, lines)] + MessageEvents(uid, inputs)
  }

  lemma {:induction false} MessageEventsShape(uid: nat, inputs: seq<Received>, k: nat)
    requires AllFit(inputs) && k < |MessageEvents(uid, inputs)|
    ensures var e := MessageEvents(uid, inputs)[k];
            if k < |MessageEvents(uid, inputs)| - 1 then e.Arrive? else e.Arrive? || e.Drop?
    ensures var e := MessageEvents(uid, inputs)[k];
            e.uid == uid && (e.Arrive? ==> 1000 <= Code(e.request.kind) <= 1050
                                           && k < |inputs| && inputs[k].Complete? && e.request == inputs[k].request)
  {
    if k > 0 {
      MessageEventsShape(uid, inputs[1..], k - 1);
    }
  }

  /** The client listens before its first message is handled; only commands of the protocol's range are
      handled, each received message once and in order; the client is reported at most once, at the end. */
  lemma ThreadEventsShape(uid: nat, lines: nat, inputs: seq<Received>, k: nat)
    requires AllFit(inputs) && k < |ThreadEvents(uid, lines, inputs)|
    ensures var events := ThreadEvents(uid, lines, inputs);
            && events[0] == Relay.Listen(uid) && events[1] == Relay.Motd(uid, lines)
            && (k >= 2 ==> events[k].Arrive? || (events[k] == Relay.Drop(uid) && k == |events| - 1))
            && (events[k].Arrive? ==> 2 <= k < |inputs| + 2 && 1000 <= Code(events[k].request.kind) <= 1050
                                      && inputs[k - 2].Complete?
                                      && events[k] == Relay.Arrive(uid, inputs[k - 2].request))
  {
    if k >= 2 {
      MessageEventsShape(uid, inputs, k - 2);
    }
  }

  /** A message that the loop hands on: complete, and its command word lies between 1000 and 1050. */
  predicate IsHandedOn(m: Received) {
    m.Complete? && 1000 <= m.header.command <= 1050
  }

  lemma {:induction false} MessageEventsExactly(uid: nat, inputs: seq<Received>, n: nat)
    requires n <= |inputs| && (forall k :: 0 <= k < n ==> IsHandedOn(inputs[k]))
    requires n < |inputs| ==> !IsHandedOn(inputs[n])
    ensures var events := MessageEvents(uid, inputs);
            && |events| == n + (if n < |inputs| then 1 else 0)
            && (forall k :: 0 <= k < n ==> IsHandedOn(inputs[k]) && events[k] == Relay.Arrive(uid, inputs[k].request))
            && (n < |inputs| ==> events[n] == Relay.Drop(uid))
  {
    if n > 0 {
      var rest := inputs[1..];
      forall k | 0 <= k < n - 1 ensures IsHandedOn(rest[k]) {
        assert rest[k] == inputs[k + 1];
      }
      MessageEventsExactly(uid, rest, n - 1);
    }
  }

  /** The steps of the thread, exactly: it listens, the message of the day goes out, every message up to the first one
      that is broken or out of range is handed on, in order, and then the client is reported, if there is such a
      message. */
  lemma ThreadEventsExactly(uid: nat, lines: nat, inputs: seq<Received>, n: nat)
    requires n <= |inputs| && (forall k :: 0 <= k < n ==> IsHandedOn(inputs[k]))
    requires n < |inputs| ==> !IsHandedOn(inputs[n])
    ensures var events := ThreadEvents(uid, lines, inputs);
            && |events| == n + (if n < |inputs| then 3 else 2)
            && events[0] == Relay.Listen(uid) && events[1] == Relay.Motd(uid, lines)
            && (forall k :: 0 <= k < n ==>
                  IsHandedOn(inputs[k]) && events[k + 2] == Relay.Arrive(uid, inputs[k].request))
            && (n < |inputs| ==> events[n + 2] == Relay.Drop(uid))
  {
    var handled, events := MessageEvents(uid, inputs), ThreadEvents(uid, lines, inputs);
    MessageEventsExactly(uid, inputs, n);
    assert events[2..] == handled && events[..2] == [Relay.Listen(uid), Relay.Motd(uid, lines)];
    assert forall k :: 0 <= k < |handled| ==> events[k + 2] == handled[k];
  }

  // ---------------------------------------------------------------- one turn

  /** The message is handed on. */
  predicate Passes(m: Received) {
    m.Complete? && Session.CommandInRange(m.header.command)
  }

  lemma {:induction false} OneMoreMessage(uid: nat, inputs: seq<Received>, m: Received, rest: seq<Received>)
    requires forall i :: 0 <= i < |inputs| ==> Passes(inputs[i])
    ensures MessageEvents(uid, inputs + [m] + if Passes(m) then [] else rest)
            == MessageEvents(uid, inputs) + [Handled(uid, m)]
  {
    var more := if Passes(m) then [] else rest;
    var all := inputs + [m] + more;
    if inputs == [] {
      assert all[1..] == more;
    } else {
      OneMoreMessage(uid, inputs[1..], m, rest);
      assert all[1..] == inputs[1..] + [m] + more;
    }
  }

  function Handled(uid: nat, m: Received): Relay.Event {
    if Passes(m) then Relay.Arrive(uid, m.request) else Relay.Drop(uid)
  }

  // ---------------------------------------------------------------- the loop

  /** Message `i` was handled when the client's queue was dropping packets as `flags[i]` says. */
  function Flagged(inputs: seq<Received>, flags: seq<bool>): (r: seq<Received>)
    requires |flags| == |inputs|
    ensures |r| == |inputs|
    ensures AllFit(inputs) ==> AllFit(r)
  {
    seq(|inputs|, i requires 0 <= i < |inputs| => WithFlag(inputs[i], flags[i]))
  }

  function WithFlag(m: Received, dropping: bool): (r: Received)
    ensures Fits(m) ==> Fits(r)
    ensures Passes(m) <==> Passes(r)
  {
    if m.Complete? then m.(request := m.request.(dropping := dropping)) else m
  }

  predicate AllPass(inputs: seq<Received>) {
    forall i :: 0 <= i < |inputs| ==> Passes(inputs[i])
  }

  lemma FlaggedMore(inputs: seq<Received>, flags: seq<bool>, i: nat, flag: bool)
    requires i < |inputs| && |flags| == i
    ensures Flagged(inputs[..i + 1], flags + [flag]) == Flagged(inputs[..i], flags) + [WithFlag(inputs[i], flag)]
    ensures AllPass(inputs[..i]) ==> AllPass(Flagged(inputs[..i], flags))
    ensures AllPass(inputs[..i]) && Passes(inputs[i]) ==> AllPass(inputs[..i + 1])
  {
  }

  lemma FlaggedUpTo(inputs: seq<Received>, flags: seq<bool>, i: nat, flag: bool, no: seq<bool>)
    requires i < |inputs| && |flags| == i && |no| == |inputs| - i - 1
    ensures Flagged(inputs, flags + [flag] + no)
         == Flagged(inputs[..i], flags) + [WithFlag(inputs[i], flag)] + Flagged(inputs[i + 1..], no)
  {
  }

  function NoFlags(n: nat): (r: seq<bool>)
    ensures |r| == n
  {
    seq(n, _ => false)
  }

  /** The thread's steps after its first two, when the last message it read was `m`. */
  lemma StepAdded(uid: nat, first: seq<Relay.Event>, done: seq<Received>, m: Received, rest: seq<Received>)
    requires AllPass(done)
    ensures var read := done + [m] + if Passes(m) then [] else rest;
            first + MessageEvents(uid, read) == first + MessageEvents(uid, done) + [Handled(uid, m)]
  {
    OneMoreMessage(uid, done, m, rest);
  }

  /** The thread has made the steps `own`, before each of which the others acted as they wanted. */
  ghost predicate Stepped(cfg: Relay.Config, start: Relay.Server, wanted: nat -> seq<Act>, rounds: seq<Round>,
                          own: seq<Relay.Event>, s: Relay.Server) {
    ThreadRun(cfg, start, wanted, rounds, s) && OwnSteps(rounds) == own
  }

  /** The same, and it is the thread's turn. */
  ghost predicate Reached(cfg: Relay.Config, sequencer: Sequencer, uid: nat, listening: bool, start: Relay.Server,
                          wanted: nat -> seq<Act>, rounds: seq<Round>, own: seq<Relay.Event>)
    reads sequencer, sequencer.repr
  {
    && sequencer.Valid() && Ready(cfg, sequencer.state, uid, listening)
    && Stepped(cfg, start, wanted, rounds, own, sequencer.state)
  }

  lemma SteppedNothing(cfg: Relay.Config, s: Relay.Server, wanted: nat -> seq<Act>)
    ensures Stepped(cfg, s, wanted, [], [], s)
  {
  }

  lemma SteppedMore(cfg: Relay.Config, start: Relay.Server, wanted: nat -> seq<Act>, rounds: seq<Round>,
                    own: seq<Relay.Event>, s: Relay.Server, r: Round)
    requires Stepped(cfg, start, wanted, rounds, own, s) && Turn(cfg, s, wanted(|rounds|), r)
    ensures Stepped(cfg, start, wanted, rounds + [r], own + [r.own], r.after)
  {
    ThreadRunMore(cfg, start, wanted, rounds, s, r);
  }

  /** One more message has been handled. */
  lemma MessageAdded(cfg: Relay.Config, start: Relay.Server, wanted: nat -> seq<Act>, rounds: seq<Round>, uid: nat,
                     first: seq<Relay.Event>, inputs: seq<Received>, flags: seq<bool>, i: nat, flag: bool,
                     s: Relay.Server, r: Round)
    requires i < |inputs| && |flags| == i && AllPass(inputs[..i])
    requires Stepped(cfg, start, wanted, rounds, first + MessageEvents(uid, Flagged(inputs[..i], flags)), s)
    requires Turn(cfg, s, wanted(|rounds|), r) && r.own == Handled(uid, WithFlag(inputs[i], flag))
    ensures var more := if Passes(inputs[i]) then Flagged(inputs[..i + 1], flags + [flag])
                        else Flagged(inputs, flags + [flag] + NoFlags(|inputs| - i - 1));
            Stepped(cfg, start, wanted, rounds + [r], first + MessageEvents(uid, more), r.after)
  {
    var done, m, no := Flagged(inputs[..i], flags), WithFlag(inputs[i], flag), NoFlags(|inputs| - i - 1);
    FlaggedMore(inputs, flags, i, flag);
    FlaggedUpTo(inputs, flags, i, flag, no);
    StepAdded(uid, first, done, m, Flagged(inputs[i + 1..], no));
    assert done + [m] + [] == done + [m];
    SteppedMore(cfg, start, wanted, rounds, first + MessageEvents(uid, done), s, r);
  }

  /** The thread has made the steps `own`, the others have acted, and the next message is one of which the language
      does not say what happens. */
  ghost predicate BrokenOff(cfg: Relay.Config, start: Relay.Server, wanted: nat -> seq<Act>, rounds: seq<Round>,
                            own: seq<Relay.Event>, uid: nat, m: Received)
    requires Fits(m)
  {
    exists s, r :: Stepped(cfg, start, wanted, rounds, own, s) && NoTurn(cfg, s, wanted(|rounds|), r, uid, m)
  }

  /** After the others have acted, the language does not say what the message does. */
  ghost predicate NoTurn(cfg: Relay.Config, s: Relay.Server, wanted: seq<Act>, r: Round, uid: nat, m: Received)
    requires Fits(m)
  {
    && Acted(cfg, s, wanted, r.made) && Leads(cfg, s, r.made, r.between)
    && Passes(m) && RelayUndefined.BreaksOff(cfg, r.between, uid, m.request)
  }

  lemma MessagePossible(cfg: Relay.Config, s: Relay.Server, uid: nat, r: Relay.Request, dropping: bool)
    requires Listens(s.clients, uid) && Relay.WellSized(r) && !RelayUndefined.BreaksOff(cfg, s, uid, r)
    ensures Possible(cfg, s, Relay.Arrive(uid, r.(dropping := dropping)))
  {
    ObservedPossible(cfg, s, Relay.Arrive(uid, r), dropping);
  }

  /** The thread's own part of one turn: the message is handed on with the flag of the client's own queue, or the
      client is reported. */
  method HandleMessage(sequencer: Sequencer, cfg: Relay.Config, uid: nat, m: Received)
    returns (more: bool, undefined: bool, ghost flag: bool)
    requires sequencer.Valid() && Ready(cfg, sequencer.state, uid, true) && Fits(m)
    modifies sequencer, sequencer.repr
    ensures fresh(sequencer.repr - old(sequencer.repr)) && flag == old(sequencer.IsDropping(uid))
    ensures undefined <==> Passes(m) && RelayUndefined.BreaksOff(cfg, old(sequencer.state), uid, m.request)
    ensures more <==> Passes(m) && !undefined
    ensures !undefined ==>
              var e := Handled(uid, WithFlag(m, flag));
              && sequencer.Valid() && Ready(cfg, sequencer.state, uid, true)
              && Relay.Enabled(cfg, old(sequencer.state), e)
              && sequencer.state == Relay.Next(cfg, old(sequencer.state), e)
  {
    flag := sequencer.IsDropping(uid);
    ghost var s, e := sequencer.state, Handled(uid, WithFlag(m, flag));
    if m.Broken? || !Session.CommandInRange(m.header.command) {
      StaysReady(cfg, s, e, uid, true);
      sequencer.DisconnectClient(uid);
      more, undefined := false, false;
    } else {
      if !RelayUndefined.BreaksOff(cfg, s, uid, m.request) {
        MessagePossible(cfg, s, uid, m.request, flag);
        StaysReady(cfg, s, e, uid, true);
      }
      undefined := sequencer.QueueMessage(cfg, uid, m.request);
      more := !undefined;
    }
  }

  /** One turn of the loop: others act as they want, then the thread does. */
  method TakeTurn(sequencer: Sequencer, cfg: Relay.Config, uid: nat, m: Received, wanted: seq<Act>,
                  memory: nat -> Octet, socketOk: nat -> bool)
    returns (more: bool, undefined: bool, ghost flag: bool, ghost r: Round)
    requires sequencer.Valid() && Ready(cfg, sequencer.state, uid, true) && Fits(m)
    modifies sequencer, sequencer.repr
    ensures fresh(sequencer.repr - old(sequencer.repr)) && (more <==> Passes(m) && !undefined)
    ensures undefined ==> NoTurn(cfg, old(sequencer.state), wanted, r, uid, m)
    ensures !undefined ==>
              && sequencer.Valid() && Ready(cfg, sequencer.state, uid, true)
              && Turn(cfg, old(sequencer.state), wanted, r) && r.after == sequencer.state
              && r.own == Handled(uid, WithFlag(m, flag))
  {
    ghost var start := sequencer.state;
    ghost var made := OthersTurn(sequencer, cfg, wanted, memory, socketOk, uid, true);
    ghost var between := sequencer.state;
    more, undefined, flag := HandleMessage(sequencer, cfg, uid, m);
    r := Round(made, between, Handled(uid, WithFlag(m, flag)), sequencer.state);
  }

  method OthersTurn(sequencer: Sequencer, cfg: Relay.Config, wanted: seq<Act>, memory: nat -> Octet,
                    socketOk: nat -> bool, ghost uid: nat, ghost listening: bool)
    returns (ghost made: seq<Relay.Event>)
    requires sequencer.Valid() && Ready(cfg, sequencer.state, uid, listening)
    modifies sequencer, sequencer.repr
    ensures sequencer.Valid() && fresh(sequencer.repr - old(sequencer.repr))
    ensures Ready(cfg, sequencer.state, uid, listening)
    ensures Acted(cfg, old(sequencer.state), wanted, made) && Leads(cfg, old(sequencer.state), made, sequencer.state)
  {
    ghost var start := sequencer.state;
    ghost var seen := OthersAct(sequencer, cfg, wanted, memory, socketOk, uid, listening);
    made := Performed(cfg, start, wanted, seen);
  }

  /** The same for message number `i`, as part of the whole run. */
  method NextMessage(sequencer: Sequencer, cfg: Relay.Config, uid: nat, inputs: seq<Received>, i: nat,
                     wanted: nat -> seq<Act>, memory: nat -> Octet, socketOk: nat -> bool, ghost start: Relay.Server,
                     ghost before: seq<Round>, ghost first: seq<Relay.Event>, ghost flags: seq<bool>)
    returns (more: bool, undefined: bool, ghost flag: bool, ghost rounds: seq<Round>)
    requires i < |inputs| && AllFit(inputs) && |flags| == i && |before| == i + 2 && AllPass(inputs[..i])
    requires Reached(cfg, sequencer, uid, true, start, wanted, before,
                     first + MessageEvents(uid, Flagged(inputs[..i], flags)))
    modifies sequencer, sequencer.repr
    ensures fresh(sequencer.repr - old(sequencer.repr)) && (more <==> Passes(inputs[i]) && !undefined)
    ensures undefined ==> BrokenOff(cfg, start, wanted, before, first + MessageEvents(uid, Flagged(inputs[..i], flags)),
                                    uid, inputs[i])
    ensures more ==>
              && |rounds| == i + 3
              && Reached(cfg, sequencer, uid, true, start, wanted, rounds,
                         first + MessageEvents(uid, Flagged(inputs[..i + 1], flags + [flag])))
    ensures !more && !undefined ==>
              Reached(cfg, sequencer, uid, true, start, wanted, rounds,
                      first + MessageEvents(uid, Flagged(inputs, flags + [flag] + NoFlags(|inputs| - i - 1))))
  {
    ghost var s := sequencer.state;
    ghost var r;
    more, undefined, flag, r := TakeTurn(sequencer, cfg, uid, inputs[i], wanted(i + 2), memory, socketOk);
    rounds := before;
    if !undefined {
      MessageAdded(cfg, start, wanted, before, uid, first, inputs, flags, i, flag, s, r);
      rounds := before + [r];
    }
  }

  /** The loop, with the acts of the other threads before each turn. It ends early when a message is broken or out of
      range, and breaks off when the language does not say what a message does. */
  method HandleMessages(sequencer: Sequencer, cfg: Relay.Config, uid: nat, inputs: seq<Received>,
                        wanted: nat -> seq<Act>, memory: nat -> Octet, socketOk: nat -> bool,
                        ghost start: Relay.Server, ghost before: seq<Round>, ghost first: seq<Relay.Event>)
    returns (undefined: bool, ghost flags: seq<bool>, ghost rounds: seq<Round>)
    requires AllFit(inputs) && |before| == 2 && Reached(cfg, sequencer, uid, true, start, wanted, before, first)
    modifies sequencer, sequencer.repr
    ensures fresh(sequencer.repr - old(sequencer.repr))
    ensures !undefined ==>
              && |flags| == |inputs|
              && Reached(cfg, sequencer, uid, true, start, wanted, rounds,
                         first + MessageEvents(uid, Flagged(inputs, flags)))
    ensures undefined ==>
              && |flags| < |inputs|
              && BrokenOff(cfg, start, wanted, rounds, first + MessageEvents(uid, Flagged(inputs[..|flags|], flags)),
                           uid, inputs[|flags|])
  {
    flags, rounds := [], before;
    var i := 0;
    assert first + MessageEvents(uid, Flagged(inputs[..0], [])) == first;
    while i < |inputs|
      invariant 0 <= i == |flags| <= |inputs| && |rounds| == i + 2 && AllPass(inputs[..i])
      invariant fresh(sequencer.repr - old(sequencer.repr))
      invariant Reached(cfg, sequencer, uid, true, start, wanted, rounds,
                        first + MessageEvents(uid, Flagged(inputs[..i], flags)))
    {
      var more;
      ghost var flag, next;
      more, undefined, flag, next :=
        NextMessage(sequencer, cfg, uid, inputs, i, wanted, memory, socketOk, start, rounds, first, flags);
      if undefined {
        return;
      }
      FlaggedMore(inputs, flags, i, flag);
      rounds := next;
      if !more {
        flags := flags + [flag] + NoFlags(|inputs| - i - 1);
        return;
      }
      flags := flags + [flag];
      i := i + 1;
    }
    assert inputs[..i] == inputs;
    undefined := false;
  }

  /** One of the two steps before the loop: others may act, then the thread does. */
  method Begin(sequencer: Sequencer, cfg: Relay.Config, uid: nat, e: Relay.Event, wanted: nat -> seq<Act>,
               memory: nat -> Octet, socketOk: nat -> bool, k: nat, ghost start: Relay.Server,
               ghost before: seq<Round>, ghost own: seq<Relay.Event>)
    returns (ghost rounds: seq<Round>)
    requires e == Relay.Listen(uid) || (e.Motd? && e.uid == uid)
    requires |before| == k && Reached(cfg, sequencer, uid, e.Motd?, start, wanted, before, own)
    modifies sequencer, sequencer.repr
    ensures fresh(sequencer.repr - old(sequencer.repr)) && |rounds| == k + 1
    ensures Reached(cfg, sequencer, uid, true, start, wanted, rounds, own + [e])
  {
    ghost var s := sequencer.state;
    ghost var made := OthersTurn(sequencer, cfg, wanted(k), memory, socketOk, uid, e.Motd?);
    ghost var between := sequencer.state;
    StaysReady(cfg, between, e, uid, e.Motd?);
    if e.Listen? {
      ListenListens(between.clients, uid);
      sequencer.Listen(uid);
    } else {
      sequencer.SayLines(Relay.ListeningUid(uid), e.lines);
    }
    ghost var r := Round(made, between, e, sequencer.state);
    SteppedMore(cfg, start, wanted, before, own, s, r);
    rounds := before + [r];
  }

  method BeginBoth(sequencer: Sequencer, cfg: Relay.Config, uid: nat, lines: nat, wanted: nat -> seq<Act>,
                   memory: nat -> Octet, socketOk: nat -> bool)
    returns (ghost rounds: seq<Round>)
    requires sequencer.Valid() && Ready(cfg, sequencer.state, uid, false)
    modifies sequencer, sequencer.repr
    ensures fresh(sequencer.repr - old(sequencer.repr)) && |rounds| == 2
    ensures Reached(cfg, sequencer, uid, true, old(sequencer.state), wanted, rounds,
                    [Relay.Listen(uid), Relay.Motd(uid, lines)])
  {
    ghost var start := sequencer.state;
    SteppedNothing(cfg, start, wanted);
    rounds := Begin(sequencer, cfg, uid, Relay.Listen(uid), wanted, memory, socketOk, 0, start, [], []);
    assert [] + [Relay.Listen(uid)] == [Relay.Listen(uid)];
    rounds := Begin(sequencer, cfg, uid, Relay.Motd(uid, lines), wanted, memory, socketOk, 1, start, rounds,
                    [Relay.Listen(uid)]);
    assert [Relay.Listen(uid)] + [Relay.Motd(uid, lines)] == [Relay.Listen(uid), Relay.Motd(uid, lines)];
  }

  lemma ListenListens(cs: seq<Relay.Client>, uid: nat)
    ensures Listens(Relay.StartListening(cs, uid), uid)
  {
    assert Relay.Users(Relay.StartListening(cs, uid)) == Relay.Users(cs);
  }

  /** The thread function of one client. Before each of its own steps the other threads do what they want then, as far
      as it is possible, sending threads included; the object makes the thread's own steps in their order, and all
      steps together are a run of the server. That ends early only when the language does not say what the next
      message does. */
  method ThreadMain(sequencer: Sequencer, cfg: Relay.Config, uid: nat, lines: nat, inputs: seq<Received>,
                    wanted: nat -> seq<Act>, memory: nat -> Octet, socketOk: nat -> bool)
    returns (undefined: bool, ghost flags: seq<bool>, ghost rounds: seq<Round>)
    requires sequencer.Valid() && RelayTheorems.Reachable(cfg, sequencer.state) && uid < sequencer.state.freeUid
    requires AllFit(inputs)
    modifies sequencer, sequencer.repr
    ensures !undefined ==>
              && sequencer.Valid() && RelayTheorems.Reachable(cfg, sequencer.state) && |flags| == |inputs|
              && Stepped(cfg, old(sequencer.state), wanted, rounds, ThreadEvents(uid, lines, Flagged(inputs, flags)),
                         sequencer.state)
              && Leads(cfg, old(sequencer.state), AllSteps(rounds), sequencer.state)
    ensures undefined ==>
              && |flags| < |inputs|
              && BrokenOff(cfg, old(sequencer.state), wanted, rounds,
                           ThreadEvents(uid, lines, Flagged(inputs[..|flags|], flags)), uid, inputs[|flags|])
  {
    ghost var start, first := sequencer.state, [Relay.Listen(uid), Relay.Motd(uid, lines)];
    rounds := BeginBoth(sequencer, cfg, uid, lines, wanted, memory, socketOk);
    undefined, flags, rounds :=
      HandleMessages(sequencer, cfg, uid, inputs, wanted, memory, socketOk, start, rounds, first);
    if !undefined {
      ThreadRunLeads(cfg, start, wanted, rounds, sequencer.state);
    }
  }
}
