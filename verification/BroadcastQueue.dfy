/** The outgoing queue of one client as a state machine: producers queue messages under
    the mutex, the broadcaster thread takes, sends and finally drains them. */
module BroadcastQueue {
  import opened RoRnet
  import opened Replica
  import opened Threads

  // ---------------------------------------------------------------- coalescing

  predicate Discardable(m: Message) {
    m.kind.StreamDataDiscardable?
  }

  /** `prior` may be overwritten in place by `m`. */
  predicate Supersedes(m: Message, prior: Message) {
    Discardable(m) && Discardable(prior) && m.source == prior.source && m.streamid == prior.streamid
  }

  /** What the thread puts on the socket for a message. */
  function Transmitted(m: Message): seq<Message> {
    if m.kind.Invalid? then []
    else if Discardable(m) then [m.(kind := StreamData)]
    else [m]
  }

  function AllTransmitted(ms: seq<Message>): seq<Message> {
    if ms == [] then [] else AllTransmitted(ms[..|ms| - 1]) + Transmitted(ms[|ms| - 1])
  }

  /** Position of the first entry that `m` may overwrite, or -1. */
  function Slot(entries: seq<Message>, m: Message): (i: int)
    ensures -1 <= i < |entries|
    ensures i >= 0 ==> Supersedes(m, entries[i])
    ensures forall j :: 0 <= j < (if i < 0 then |entries| else i) ==> !Supersedes(m, entries[j])
  {
    if entries == [] then -1
    else if Supersedes(m, entries[0]) then 0
    else
      var i := Slot(entries[1..], m);
      assert forall j :: 1 <= j < |entries| ==> entries[j] == entries[1..][j - 1];
      if i < 0 then -1 else i + 1
  }

  /** What one arrival did to the queue. */
  datatype Arrival = OntoEmpty | Replacing | Behind

  function Classify(entries: seq<Message>, m: Message): Arrival {
    if entries == [] then OntoEmpty
    else if Slot(entries, m) >= 0 then Replacing
    else Behind
  }

  datatype Queue = Queue(entries: seq<Message>, dropping: bool, drops: nat, goods: nat)

  /** QueueMessage, under the mutex. */
  function Enqueue(q: Queue, m: Message): Queue {
    match Classify(q.entries, m)
    case OntoEmpty =>
      Queue([m], if q.goods + 1 > 3 then false else q.dropping, 0, q.goods + 1)
    case Replacing =>
      Queue(q.entries[Slot(q.entries, m) := m], if q.drops + 1 > 3 then true else q.dropping, q.drops + 1, 0)
    case Behind =>
      q.(entries := q.entries + [m])
  }

  // ---------------------------------------------------------------- thread

  datatype Phase = Waiting | Sending | Draining | Exited

  /** `accepted`, `arrivals`, `delivered`, `drained`, `replaced` and `wire` are history:
      everything ever queued, what each arrival did, what was sent by the loop, what was
      sent by the final drain, how many entries were overwritten, and what went to the socket. */
  datatype Channel = Channel(
    queue: Queue,
    thread: ThreadState,
    phase: Phase,
    inHand: Option<Message>,
    accepted: seq<Message>,
    arrivals: seq<Arrival>,
    delivered: seq<Message>,
    drained: seq<Message>,
    replaced: nat,
    wire: seq<Message>)

  const STARTED := Channel(Queue([], false, 0, 0), Running, Waiting, None, [], [], [], [], 0, [])

  datatype Event =
    | Enqueued(m: Message)
    | Woken                 // the wait ends: notified or spuriously
    | Sent(ok: bool)
    | StopAsked
    | Drained(count: nat)   // the drain sends `count` messages, then empties out or fails
    | Joined

  predicate Enabled(ch: Channel, e: Event) {
    match e
    case Enqueued(_) => true
    case Woken => ch.phase.Waiting?
    case Sent(_) => ch.phase.Sending?
    case StopAsked => ch.thread.Running?
    case Drained(count) => ch.phase.Draining? && count <= |ch.queue.entries|
    case Joined => ch.phase.Exited? && ch.thread.StopRequested?
  }

  function Next(ch: Channel, e: Event): Channel
    requires Enabled(ch, e)
  {
    match e
    case Enqueued(m) =>
      var arrival := Classify(ch.queue.entries, m);
      ch.(queue := Enqueue(ch.queue, m),
          accepted := ch.accepted + [m],
          arrivals := ch.arrivals + [arrival],
          replaced := ch.replaced + if arrival.Replacing? then 1 else 0)
    case Woken =>
      var q := ch.queue.entries;
      ch.(queue := if q == [] then ch.queue else ch.queue.(entries := q[1..]),
          inHand := if q == [] then None else Some(q[0]),
          phase := if ch.thread.StopRequested? then Draining else Sending)
    case Sent(ok) =>
      if ch.inHand.None? then ch.(phase := Waiting)
      else if ok then
        ch.(phase := Waiting, inHand := None, delivered := ch.delivered + [ch.inHand.value],
            wire := ch.wire + Transmitted(ch.inHand.value))
      else ch.(phase := Exited)
    case StopAsked => ch.(thread := StopRequested)
    case Drained(count) =>
      ch.(queue := ch.queue.(entries := ch.queue.entries[count..]),
          drained := ch.queue.entries[..count],
          wire := ch.wire + AllTransmitted(ch.queue.entries[..count]),
          phase := Exited)
    case Joined => ch.(thread := NotRunning)
  }

  ghost predicate Runs(ch: Channel, events: seq<Event>)
    decreases |events|
  {
    events == [] || (Enabled(ch, events[0]) && Runs(Next(ch, events[0]), events[1..]))
  }

  function Run(ch: Channel, events: seq<Event>): Channel
    requires Runs(ch, events)
    decreases |events|
  {
    if events == [] then ch else Run(Next(ch, events[0]), events[1..])
  }

  // ---------------------------------------------------------------- specification

  /** Messages that may not be dropped. */
  function Firm(ms: seq<Message>): seq<Message> {
    if ms == [] then []
    else Firm(ms[..|ms| - 1]) + if ms[|ms| - 1].kind.StreamDataDiscardable? then [] else [ms[|ms| - 1]]
  }

  /** A message on the socket is the one queued; that it could have been dropped is not told. */
  predicate Carries(w: Message, m: Message) {
    && w.source == m.source && w.streamid == m.streamid && w.payload == m.payload
    && w.kind == if m.kind.StreamDataDiscardable? then StreamData else m.kind
  }

  /** The socket has carried these messages, one by one and in their order; those without a type are left out. */
  predicate Carried(wire: seq<Message>, ms: seq<Message>)
    decreases |ms|
  {
    if ms == [] then wire == []
    else
      var init, m := ms[..|ms| - 1], ms[|ms| - 1];
      if m.kind.Invalid? then Carried(wire, init)
      else wire != [] && Carries(wire[|wire| - 1], m) && Carried(wire[..|wire| - 1], init)
  }

  /** The discardable messages of one (source, stream) pair. */
  function OfKey(ms: seq<Message>, source: nat, sid: nat): seq<Message> {
    if ms == [] then []
    else
      OfKey(ms[..|ms| - 1], source, sid) + One(ms[|ms| - 1], source, sid)
  }

  function One(m: Message, source: nat, sid: nat): seq<Message> {
    if m.kind.StreamDataDiscardable? && m.source == source && m.streamid == sid then [m] else []
  }

  predicate Subsequence<T(==)>(a: seq<T>, b: seq<T>) {
    if a == [] then true
    else if b == [] then false
    else (a[|a| - 1] == b[|b| - 1] && Subsequence(a[..|a| - 1], b[..|b| - 1]))
         || Subsequence(a, b[..|b| - 1])
  }

  function AsSeq<T>(o: Option<T>): seq<T> {
    if o.None? then [] else [o.value]
  }

  /** Messages the thread has taken out of the queue. */
  function Taken(ch: Channel): seq<Message> {
    ch.delivered + AsSeq(ch.inHand) + ch.drained
  }

  /** Every message still accounted for, from the first delivered to the last queued. */
  function Path(ch: Channel): seq<Message> {
    Taken(ch) + ch.queue.entries
  }

  /** Number of replacements since the last arrival on an empty queue. */
  function DropRun(h: seq<Arrival>): nat {
    if h == [] || h[|h| - 1].OntoEmpty? then 0
    else DropRun(h[..|h| - 1]) + if h[|h| - 1].Replacing? then 1 else 0
  }

  /** Number of arrivals on an empty queue since the last replacement. */
  function GoodRun(h: seq<Arrival>): nat {
    if h == [] || h[|h| - 1].Replacing? then 0
    else GoodRun(h[..|h| - 1]) + if h[|h| - 1].OntoEmpty? then 1 else 0
  }

  predicate Trips(h: seq<Arrival>, i: nat)
    requires i < |h|
  {
    h[i].Replacing? && DropRun(h[..i + 1]) >= 4
  }

  predicate Clears(h: seq<Arrival>, i: nat)
    requires i < |h|
  {
    h[i].OntoEmpty? && GoodRun(h[..i + 1]) >= 4
  }

  /** The client counts as dropping: some arrival tripped the flag and none has cleared it since. */
  ghost predicate IsDropping(h: seq<Arrival>) {
    exists i :: 0 <= i < |h| && Trips(h, i) && forall j :: i < j < |h| ==> !Clears(h, j)
  }

  /** Both are discardable data of the same stream. */
  predicate SameStream(m: Message, m': Message) {
    && m.kind.StreamDataDiscardable? && m'.kind.StreamDataDiscardable?
    && m.source == m'.source && m.streamid == m'.streamid
  }

  predicate AtMostOnePerKey(entries: seq<Message>) {
    forall i, j :: 0 <= i < j < |entries| ==> !SameStream(entries[i], entries[j])
  }

  /** The newest discardable message of each stream is never lost while the path holds it, and
      the surviving ones keep the order in which they were queued. */
  predicate NewestKept(kept: seq<Message>, all: seq<Message>) {
    && Subsequence(kept, all)
    && (all != [] ==> kept != [] && kept[|kept| - 1] == all[|all| - 1])
  }

  predicate KeepsNewest(ch: Channel, source: nat, sid: nat) {
    NewestKept(OfKey(Path(ch), source, sid), OfKey(ch.accepted, source, sid))
  }

  ghost predicate Consistent(ch: Channel) {
    && Firm(ch.accepted) == Firm(Path(ch))
    && AtMostOnePerKey(ch.queue.entries)
    && (forall source, sid :: KeepsNewest(ch, source, sid))
    && |ch.accepted| == |Path(ch)| + ch.replaced
    && Carried(ch.wire, ch.delivered + ch.drained)
    && ch.queue.drops == DropRun(ch.arrivals)
    && ch.queue.goods == GoodRun(ch.arrivals)
    && (ch.queue.dropping <==> IsDropping(ch.arrivals))
    && (ch.phase.Waiting? ==> ch.inHand.None?)
    && (ch.phase.Waiting? || ch.phase.Sending? || ch.phase.Draining? ==> ch.drained == [])
  }

  // ---------------------------------------------------------------- proofs

  lemma {:induction false} FirmConcat(a: seq<Message>, b: seq<Message>)
    ensures Firm(a + b) == Firm(a) + Firm(b)
  {
    if b == [] {
      assert a + b == a;
    } else {
      assert (a + b)[..|a + b| - 1] == a + b[..|b| - 1];
      FirmConcat(a, b[..|b| - 1]);
    }
  }

  lemma {:induction false} OfKeyConcat(a: seq<Message>, b: seq<Message>, source: nat, sid: nat)
    ensures OfKey(a + b, source, sid) == OfKey(a, source, sid) + OfKey(b, source, sid)
  {
    if b == [] {
      assert a + b == a;
    } else {
      assert (a + b)[..|a + b| - 1] == a + b[..|b| - 1];
      OfKeyConcat(a, b[..|b| - 1], source, sid);
    }
  }

  lemma {:induction false} OfKeyNone(ms: seq<Message>, from: nat, source: nat, sid: nat)
    requires from <= |ms|
    requires forall i :: from <= i < |ms| ==>
               !(ms[i].kind.StreamDataDiscardable? && ms[i].source == source && ms[i].streamid == sid)
    ensures OfKey(ms[from..], source, sid) == []
  {
    if from < |ms| {
      var init := ms[..|ms| - 1];
      assert ms[from..][..|ms| - from - 1] == init[from..];
      OfKeyNone(init, from, source, sid);
    }
  }

  /** Dropping the last element of a subsequence leaves a subsequence. */
  lemma {:induction false} SubsequenceInit<T>(a: seq<T>, x: T, b: seq<T>)
    requires Subsequence(a + [x], b)
    ensures Subsequence(a, b)
    decreases |b|
  {
    assert (a + [x])[..|a|] == a;
    if a != [] {
      var b' := b[..|b| - 1];
      if x == b[|b| - 1] && Subsequence(a, b') {
      } else {
        SubsequenceInit(a, x, b');
      }
    }
  }

  lemma SubsequenceSnoc<T>(a: seq<T>, b: seq<T>, x: T)
    requires Subsequence(a, b)
    ensures Subsequence(a + [x], b + [x])
  {
    assert (a + [x])[..|a|] == a && (b + [x])[..|b|] == b;
  }

  /** Overwriting one discardable entry by another leaves the firm messages alone. */
  lemma FirmUpdate(ms: seq<Message>, i: nat, m: Message)
    requires i < |ms| && Discardable(ms[i]) && Discardable(m)
    ensures Firm(ms[i := m]) == Firm(ms)
  {
    var a, b := ms[..i], ms[i + 1..];
    assert ms == a + [ms[i]] + b && ms[i := m] == a + [m] + b;
    FirmConcat(a + [ms[i]], b);
    FirmConcat(a + [m], b);
    FirmConcat(a, [ms[i]]);
    FirmConcat(a, [m]);
    assert Firm([m]) == [] && Firm([ms[i]]) == [];
  }

  lemma OfKeySingle(m: Message, source: nat, sid: nat)
    ensures OfKey([m], source, sid) == One(m, source, sid)
  {
    assert [m][..0] == [];
  }

  lemma OfKeySplit(ms: seq<Message>, i: nat, m: Message, source: nat, sid: nat)
    requires i < |ms|
    ensures OfKey(ms[i := m], source, sid)
         == OfKey(ms[..i], source, sid) + One(m, source, sid) + OfKey(ms[i + 1..], source, sid)
  {
    var a, b := ms[..i], ms[i + 1..];
    assert ms[i := m] == a + [m] + b;
    OfKeyConcat(a + [m], b, source, sid);
    OfKeyConcat(a, [m], source, sid);
    OfKeySingle(m, source, sid);
  }

  lemma OfKeySnoc(ms: seq<Message>, m: Message, source: nat, sid: nat)
    ensures OfKey(ms + [m], source, sid) == OfKey(ms, source, sid) + One(m, source, sid)
  {
    assert (ms + [m])[..|ms|] == ms;
  }

  lemma NewestKeptSnoc(kept: seq<Message>, all: seq<Message>, x: seq<Message>)
    requires NewestKept(kept, all) && |x| <= 1
    ensures NewestKept(kept + x, all + x)
  {
    if x == [] {
      assert kept + x == kept && all + x == all;
    } else {
      assert x == [x[0]];
      SubsequenceSnoc(kept, all, x[0]);
    }
  }

  lemma NewestKeptReplace(before: seq<Message>, x: Message, all: seq<Message>, m: Message)
    requires NewestKept(before + [x], all)
    ensures NewestKept(before + [m], all + [m])
  {
    SubsequenceInit(before, x, all);
    SubsequenceSnoc(before, all, m);
  }

  // ---------------------------------------------------------------- what goes to the socket

  lemma CarriedMore(wire: seq<Message>, ms: seq<Message>, m: Message)
    requires Carried(wire, ms)
    ensures Carried(wire + Transmitted(m), ms + [m])
  {
    assert (ms + [m])[..|ms|] == ms;
    if m.kind.Invalid? {
      assert wire + [] == wire;
    } else {
      var w := Transmitted(m)[0];
      assert (wire + [w])[..|wire|] == wire;
    }
  }

  lemma {:induction false} CarriedAll(wire: seq<Message>, ms: seq<Message>, more: seq<Message>)
    requires Carried(wire, ms)
    ensures Carried(wire + AllTransmitted(more), ms + more)
  {
    if more == [] {
      assert wire + [] == wire && ms + [] == ms;
    } else {
      var init, m := more[..|more| - 1], more[|more| - 1];
      CarriedAll(wire, ms, init);
      CarriedMore(wire + AllTransmitted(init), ms + init, m);
      assert wire + AllTransmitted(more) == wire + AllTransmitted(init) + Transmitted(m);
      assert ms + more == ms + init + [m];
    }
  }

  lemma AllTransmittedMore(ms: seq<Message>, m: Message)
    ensures AllTransmitted(ms + [m]) == AllTransmitted(ms) + Transmitted(m)
  {
    assert (ms + [m])[..|ms|] == ms;
  }

  lemma OneMoreTransmitted(before: seq<Message>, all: seq<Message>, count: nat, wire: seq<Message>)
    requires count < |all| && wire == before + AllTransmitted(all[..count])
    ensures wire + [] == wire && wire + Transmitted(all[count]) == before + AllTransmitted(all[..count + 1])
  {
    AllTransmittedMore(all[..count], all[count]);
    assert all[..count + 1] == all[..count] + [all[count]];
  }

  lemma NextKeepsCarried(ch: Channel, e: Event)
    requires Carried(ch.wire, ch.delivered + ch.drained) && Enabled(ch, e) && (!ch.phase.Exited? ==> ch.drained == [])
    ensures Carried(Next(ch, e).wire, Next(ch, e).delivered + Next(ch, e).drained)
  {
    assert ch.delivered + [] == ch.delivered;
    match e
    case Sent(ok) =>
      if ch.inHand.Some? && ok {
        CarriedMore(ch.wire, ch.delivered, ch.inHand.value);
        assert ch.delivered + [ch.inHand.value] + [] == ch.delivered + [ch.inHand.value];
      }
    case Drained(count) => CarriedAll(ch.wire, ch.delivered, ch.queue.entries[..count]);
    case _ =>
  }

  /** In every run: the socket has carried what was delivered and then what was drained, each message once and in
      order, and nothing else. */
  lemma SocketCarries(events: seq<Event>)
    requires Runs(STARTED, events)
    ensures var ch := Run(STARTED, events); Carried(ch.wire, ch.delivered + ch.drained)
  {
    ReachableConsistent(events);
  }

  /** What the socket has carried shows a client the same as the messages themselves. */
  lemma {:induction false} CarriedReplays(wire: seq<Message>, ms: seq<Message>)
    requires Carried(wire, ms)
    ensures Replay(wire) == Replay(ms)
    decreases |ms|
  {
    if ms != [] {
      var init, m := ms[..|ms| - 1], ms[|ms| - 1];
      if m.kind.Invalid? {
        CarriedReplays(wire, init);
      } else {
        CarriedReplays(wire[..|wire| - 1], init);
      }
    }
  }

  /** A thread that waits has sent exactly what it has delivered. */
  lemma IdleSocketReplays(ch: Channel)
    requires Consistent(ch) && ch.phase.Waiting?
    ensures Carried(ch.wire, ch.delivered) && Replay(ch.wire) == Replay(ch.delivered)
  {
    assert ch.delivered + [] == ch.delivered;
    CarriedReplays(ch.wire, ch.delivered);
  }

  // ---------------------------------------------------------------- arrivals

  /** What an arrival does: an entry of the same stream, the first one, is overwritten if both may be dropped;
      otherwise the message goes behind the others. */
  lemma ArrivalMeans(ch: Channel, m: Message)
    ensures var q, ch' := ch.queue.entries, Next(ch, Enqueued(m));
            && ch'.accepted == ch.accepted + [m] && |ch'.arrivals| == |ch.arrivals| + 1
            && ch'.arrivals[..|ch.arrivals|] == ch.arrivals
            && match ch'.arrivals[|ch.arrivals|]
               case OntoEmpty => q == [] && ch'.queue.entries == [m]
               case Replacing =>
                 exists i :: 0 <= i < |q| && SameStream(m, q[i]) && (forall j :: 0 <= j < i ==> !SameStream(m, q[j]))
                             && ch'.queue.entries == q[..i] + [m] + q[i + 1..]
               case Behind =>
                 q != [] && (forall j :: 0 <= j < |q| ==> !SameStream(m, q[j])) && ch'.queue.entries == q + [m]
  {
    var q, i := ch.queue.entries, Slot(ch.queue.entries, m);
    if q != [] && i >= 0 {
      assert q[i := m] == q[..i] + [m] + q[i + 1..];
      assert SameStream(m, q[i]) && forall j :: 0 <= j < i ==> !Supersedes(m, q[j]);
    } else if q != [] {
      assert forall j :: 0 <= j < |q| ==> !Supersedes(m, q[j]);
    }
  }

  lemma QueueKeepsFirm(ch: Channel, m: Message)
    requires Consistent(ch)
    ensures Firm(Next(ch, Enqueued(m)).accepted) == Firm(Path(Next(ch, Enqueued(m))))
    ensures |ch.accepted| + 1 == |Path(Next(ch, Enqueued(m)))| + Next(ch, Enqueued(m)).replaced
  {
    var ch' := Next(ch, Enqueued(m));
    var q := ch.queue.entries;
    FirmConcat(ch.accepted, [m]);
    if Classify(q, m).Replacing? {
      var i := Slot(q, m);
      var at := |Path(ch)| - |q| + i;
      assert Path(ch') == Path(ch)[at := m];
      FirmUpdate(Path(ch), at, m);
      assert Firm([m]) == [];
    } else {
      assert Path(ch') == Path(ch) + [m];
      FirmConcat(Path(ch), [m]);
    }
  }

  /** Overwriting the one entry of a stream replaces the last message of that stream. */
  lemma ReplacedIsLast(q: seq<Message>, i: nat, m: Message)
    requires AtMostOnePerKey(q) && i < |q| && Supersedes(m, q[i])
    ensures OfKey(q, m.source, m.streamid) == OfKey(q[..i], m.source, m.streamid) + [q[i]]
    ensures OfKey(q[i := m], m.source, m.streamid) == OfKey(q[..i], m.source, m.streamid) + [m]
  {
    assert forall j :: i < j < |q| ==> !SameStream(q[i], q[j]);
    OfKeyNone(q, i + 1, m.source, m.streamid);
    OfKeySplit(q, i, m, m.source, m.streamid);
    OfKeySplit(q, i, q[i], m.source, m.streamid);
    assert q[i := q[i]] == q;
  }

  lemma OtherKeysUntouched(q: seq<Message>, i: nat, m: Message, source: nat, sid: nat)
    requires i < |q| && Supersedes(m, q[i]) && (m.source != source || m.streamid != sid)
    ensures OfKey(q[i := m], source, sid) == OfKey(q, source, sid)
  {
    OfKeySplit(q, i, m, source, sid);
    OfKeySplit(q, i, q[i], source, sid);
    assert q[i := q[i]] == q;
  }

  lemma AppendKeepsNewest(path: seq<Message>, accepted: seq<Message>, m: Message, source: nat, sid: nat)
    requires NewestKept(OfKey(path, source, sid), OfKey(accepted, source, sid))
    ensures NewestKept(OfKey(path + [m], source, sid), OfKey(accepted + [m], source, sid))
  {
    OfKeySnoc(path, m, source, sid);
    OfKeySnoc(accepted, m, source, sid);
    NewestKeptSnoc(OfKey(path, source, sid), OfKey(accepted, source, sid), One(m, source, sid));
  }

  lemma ReplacementKeepsNewest(taken: seq<Message>, q: seq<Message>, i: nat, m: Message,
                               accepted: seq<Message>, source: nat, sid: nat)
    requires AtMostOnePerKey(q) && i < |q| && Supersedes(m, q[i])
    requires NewestKept(OfKey(taken + q, source, sid), OfKey(accepted, source, sid))
    ensures NewestKept(OfKey(taken + q[i := m], source, sid), OfKey(accepted + [m], source, sid))
  {
    OfKeyConcat(taken, q, source, sid);
    OfKeyConcat(taken, q[i := m], source, sid);
    OfKeySnoc(accepted, m, source, sid);
    var sent, all := OfKey(taken, source, sid), OfKey(accepted, source, sid);
    if m.source == source && m.streamid == sid {
      ReplacedIsLast(q, i, m);
      NewestReplaced(sent, OfKey(q[..i], source, sid), q[i], all, m);
    } else {
      OtherKeysUntouched(q, i, m, source, sid);
      assert all + [] == all;
    }
  }

  lemma NewestReplaced(sent: seq<Message>, front: seq<Message>, x: Message, all: seq<Message>, m: Message)
    requires NewestKept(sent + (front + [x]), all)
    ensures NewestKept(sent + (front + [m]), all + [m])
  {
    assert sent + (front + [x]) == sent + front + [x];
    assert sent + (front + [m]) == sent + front + [m];
    NewestKeptReplace(sent + front, x, all, m);
  }

  /** What an arrival does to the path. */
  lemma ArrivalOnPath(ch: Channel, m: Message)
    ensures var ch', q, i := Next(ch, Enqueued(m)), ch.queue.entries, Slot(ch.queue.entries, m);
            && ch'.accepted == ch.accepted + [m] && Path(ch) == Taken(ch) + q
            && Path(ch') == if q != [] && i >= 0 then Taken(ch) + q[i := m] else Path(ch) + [m]
  {
  }

  lemma QueueKeepsNewest(ch: Channel, m: Message, source: nat, sid: nat)
    requires Consistent(ch)
    ensures KeepsNewest(Next(ch, Enqueued(m)), source, sid)
  {
    var q, i := ch.queue.entries, Slot(ch.queue.entries, m);
    assert KeepsNewest(ch, source, sid);
    ArrivalOnPath(ch, m);
    if q != [] && i >= 0 {
      ReplacementKeepsNewest(Taken(ch), q, i, m, ch.accepted, source, sid);
    } else {
      AppendKeepsNewest(Path(ch), ch.accepted, m, source, sid);
    }
  }

  lemma QueueKeepsKeysUnique(ch: Channel, m: Message)
    requires Consistent(ch)
    ensures AtMostOnePerKey(Next(ch, Enqueued(m)).queue.entries)
  {
    var q := ch.queue.entries;
    var q' := Next(ch, Enqueued(m)).queue.entries;
    forall i, j | 0 <= i < j < |q'|
      ensures !SameStream(q'[i], q'[j])
    {
      if j < |q| {
        assert !SameStream(q[i], q[j]);
      } else {
        assert !Supersedes(m, q[i]);
      }
    }
  }

  lemma ArrivalMovesFlag(q: Queue, h: seq<Arrival>, m: Message)
    requires q.drops == DropRun(h) && q.goods == GoodRun(h) && (q.dropping <==> IsDropping(h))
    ensures var h' := h + [Classify(q.entries, m)];
            var q' := Enqueue(q, m);
            q'.drops == DropRun(h') && q'.goods == GoodRun(h') && (q'.dropping <==> IsDropping(h'))
  {
    var a := Classify(q.entries, m);
    var h' := h + [a];
    var n := |h|;
    assert h'[..n] == h && h'[..n + 1] == h';
    forall i | 0 <= i < n
      ensures (Trips(h', i) <==> Trips(h, i)) && (Clears(h', i) <==> Clears(h, i))
    {
      assert h'[..i + 1] == h[..i + 1];
    }
    if Trips(h', n) {
      assert IsDropping(h');
    } else if Clears(h', n) {
      assert !IsDropping(h');
    } else if IsDropping(h) {
      var i :| 0 <= i < n && Trips(h, i) && forall j :: i < j < n ==> !Clears(h, j);
      assert Trips(h', i) && forall j :: i < j < n + 1 ==> !Clears(h', j);
    }
  }

  /** Every step of producers and thread, in any order, keeps the queue consistent. */
  lemma NextKeepsConsistent(ch: Channel, e: Event)
    requires Consistent(ch) && Enabled(ch, e)
    ensures Consistent(Next(ch, e))
  {
    var ch' := Next(ch, e);
    NextKeepsCarried(ch, e);
    if e.Enqueued? {
      QueueKeepsFirm(ch, e.m);
      QueueKeepsKeysUnique(ch, e.m);
      forall source, sid ensures KeepsNewest(ch', source, sid) {
        QueueKeepsNewest(ch, e.m, source, sid);
      }
      ArrivalMovesFlag(ch.queue, ch.arrivals, e.m);
    } else {
      OtherStepsKeepPath(ch, e);
      forall source, sid ensures KeepsNewest(ch', source, sid) {
        assert KeepsNewest(ch, source, sid);
      }
    }
  }

  /** One message, or none, moves from the front of the queue into the thread's hand. */
  lemma TakingKeepsPath(delivered: seq<Message>, q: seq<Message>)
    requires q != []
    ensures delivered + [] + [] + q == delivered + [q[0]] + [] + q[1..]
  {
  }

  lemma DrainingKeepsPath(sent: seq<Message>, q: seq<Message>, count: nat)
    requires count <= |q|
    ensures sent + [] + q == sent + q[..count] + q[count..]
  {
  }

  /** The thread moves messages along the path; only producers change it. */
  lemma OtherStepsKeepPath(ch: Channel, e: Event)
    requires Enabled(ch, e) && !e.Enqueued?
    requires (ch.phase.Waiting? ==> ch.inHand.None?) && (!ch.phase.Exited? ==> ch.drained == [])
    ensures Path(Next(ch, e)) == Path(ch)
  {
    var q := ch.queue.entries;
    match e
    case Woken =>
      if q != [] {
        TakingKeepsPath(ch.delivered, q);
      }
    case Sent(ok) => assert ch.delivered + [] == ch.delivered;
    case Drained(count) => DrainingKeepsPath(ch.delivered + AsSeq(ch.inHand), q, count);
    case StopAsked =>
    case Joined =>
  }

  lemma StartedConsistent()
    ensures Consistent(STARTED)
  {
    assert Path(STARTED) == [];
  }

  lemma {:induction false} RunKeepsConsistent(ch: Channel, events: seq<Event>)
    requires Consistent(ch) && Runs(ch, events)
    ensures Consistent(Run(ch, events))
    decreases |events|
  {
    if events != [] {
      NextKeepsConsistent(ch, events[0]);
      RunKeepsConsistent(Next(ch, events[0]), events[1..]);
    }
  }

  // ---------------------------------------------------------------- whole runs

  /** The run from `ch` through `events` ends in `ch'`. */
  ghost predicate Leads(ch: Channel, events: seq<Event>, ch': Channel) {
    Runs(ch, events) && Run(ch, events) == ch'
  }

  lemma {:induction false} LeadsOn(ch: Channel, events: seq<Event>, ch1: Channel, e: Event)
    requires Leads(ch, events, ch1) && Enabled(ch1, e)
    ensures Leads(ch, events + [e], Next(ch1, e))
    decreases |events|
  {
    if events == [] {
      assert [e][1..] == [];
    } else {
      LeadsOn(Next(ch, events[0]), events[1..], ch1, e);
      assert (events + [e])[1..] == events[1..] + [e];
    }
  }

  lemma ReachableConsistent(events: seq<Event>)
    requires Runs(STARTED, events)
    ensures Consistent(Run(STARTED, events))
  {
    StartedConsistent();
    RunKeepsConsistent(STARTED, events);
  }

  /** Firm messages leave in the order they were queued. Only the one in hand when the loop
      ends can be missing between what was sent before and what the drain sent. */
  lemma FirmMessagesKeepOrder(events: seq<Event>)
    requires Runs(STARTED, events)
    ensures var ch := Run(STARTED, events);
            Firm(ch.accepted)
            == Firm(ch.delivered) + Firm(AsSeq(ch.inHand)) + Firm(ch.drained) + Firm(ch.queue.entries)
  {
    ReachableConsistent(events);
    var ch := Run(STARTED, events);
    FirmConcat(Taken(ch), ch.queue.entries);
    FirmConcat(ch.delivered + AsSeq(ch.inHand), ch.drained);
    FirmConcat(ch.delivered, AsSeq(ch.inHand));
  }

  /** The same for one channel while its loop runs. */
  lemma FirmWhileRunning(ch: Channel)
    requires Consistent(ch) && (ch.phase.Waiting? || ch.phase.Sending?)
    ensures Firm(ch.accepted) == Firm(ch.delivered) + Firm(AsSeq(ch.inHand)) + Firm(ch.queue.entries)
  {
    assert Path(ch) == ch.delivered + AsSeq(ch.inHand) + ch.queue.entries;
    FirmConcat(ch.delivered + AsSeq(ch.inHand), ch.queue.entries);
    FirmConcat(ch.delivered, AsSeq(ch.inHand));
  }

  /** Nothing is lost or duplicated silently: every accepted message is delivered, in hand,
      drained, queued, or was overwritten, and exactly one of these. */
  lemma AcceptedAreCounted(events: seq<Event>)
    requires Runs(STARTED, events)
    ensures var ch := Run(STARTED, events);
            |ch.accepted| == |ch.delivered| + |AsSeq(ch.inHand)| + |ch.drained| + |ch.queue.entries| + ch.replaced
  {
    ReachableConsistent(events);
  }

  /** Until a send error or a stop, the newest data queued for a stream is delivered, in hand or queued: it
      is the last of what survives of the stream, which is in the order it was queued, as is what has been
      delivered of it. */
  lemma NewestDataSurvives(events: seq<Event>, source: nat, sid: nat)
    requires Runs(STARTED, events)
    requires Run(STARTED, events).phase.Waiting? || Run(STARTED, events).phase.Sending?
    ensures var ch := Run(STARTED, events);
            var all := OfKey(ch.accepted, source, sid);
            var kept := OfKey(ch.delivered + (AsSeq(ch.inHand) + ch.queue.entries), source, sid);
            && Subsequence(OfKey(ch.delivered, source, sid), all)
            && Subsequence(kept, all)
            && (all != [] ==> kept != [] && kept[|kept| - 1] == all[|all| - 1])
  {
    ReachableConsistent(events);
    var ch := Run(STARTED, events);
    assert KeepsNewest(ch, source, sid);
    PathWhileRunning(ch);
    DeliveredInOrder(ch.delivered, AsSeq(ch.inHand) + ch.queue.entries, OfKey(ch.accepted, source, sid), source, sid);
  }

  lemma PathWhileRunning(ch: Channel)
    requires ch.drained == []
    ensures Path(ch) == ch.delivered + (AsSeq(ch.inHand) + ch.queue.entries)
  {
  }

  lemma DeliveredInOrder(delivered: seq<Message>, rest: seq<Message>, all: seq<Message>, source: nat, sid: nat)
    requires Subsequence(OfKey(delivered + rest, source, sid), all)
    ensures Subsequence(OfKey(delivered, source, sid), all)
  {
    OfKeyConcat(delivered, rest, source, sid);
    SubsequencePrefix(OfKey(delivered, source, sid), OfKey(rest, source, sid), all);
  }

  lemma {:induction false} SubsequencePrefix<T>(a: seq<T>, b: seq<T>, all: seq<T>)
    requires Subsequence(a + b, all)
    ensures Subsequence(a, all)
    decreases |b|
  {
    if b == [] {
      assert a + b == a;
    } else {
      assert a + b == (a + b[..|b| - 1]) + [b[|b| - 1]];
      SubsequenceInit(a + b[..|b| - 1], b[|b| - 1], all);
      SubsequencePrefix(a, b[..|b| - 1], all);
    }
  }

  /** In every reachable state at most one entry per stream is waiting, and the dropping flag says
      exactly what the history of arrivals says. */
  lemma QueueFactsHold(events: seq<Event>)
    requires Runs(STARTED, events)
    ensures var ch := Run(STARTED, events);
            AtMostOnePerKey(ch.queue.entries) && (ch.queue.dropping <==> IsDropping(ch.arrivals))
  {
    ReachableConsistent(events);
  }

  /** Waking up to an empty queue while running sends nothing and changes nothing. */
  lemma SpuriousWakeChangesNothing(ch: Channel, ok: bool)
    requires Enabled(ch, Woken) && ch.queue.entries == [] && ch.inHand.None? && !ch.thread.StopRequested?
    ensures Runs(ch, [Woken, Sent(ok)]) && Run(ch, [Woken, Sent(ok)]) == ch
  {
    var ch1 := Next(ch, Woken);
    assert [Woken, Sent(ok)][1..] == [Sent(ok)] && [Sent(ok)][1..] == [];
    assert Runs(ch1, [Sent(ok)]) && Run(ch1, [Sent(ok)]) == Next(ch1, Sent(ok));
  }

  // ---------------------------------------------------------------- stopping

  /** How many sections the thread may still go through once it has been asked to stop. */
  function PhasesLeft(p: Phase): nat {
    match p
    case Sending => 3
    case Waiting => 2
    case Draining => 1
    case Exited => 0
  }

  /** Whether the socket, which would answer `ok`, lets the entry pass. */
  predicate Transmits(m: Message, ok: bool) {
    m.kind.Invalid? || ok
  }

  /** How many entries the drain sends: all before the first one that does not pass. */
  function Drainable(q: seq<Message>, socketOk: nat -> bool, from: nat): (n: nat)
    ensures n <= |q|
    ensures forall i :: 0 <= i < n ==> Transmits(q[i], socketOk(from + i))
    ensures n < |q| ==> !Transmits(q[n], socketOk(from + n))
  {
    if q == [] || !Transmits(q[0], socketOk(from)) then 0 else 1 + Drainable(q[1..], socketOk, from + 1)
  }

  lemma {:induction false} DrainableIs(q: seq<Message>, socketOk: nat -> bool, from: nat, n: nat)
    requires n <= |q| && forall i :: 0 <= i < n ==> Transmits(q[i], socketOk(from + i))
    requires n < |q| ==> !Transmits(q[n], socketOk(from + n))
    ensures Drainable(q, socketOk, from) == n
  {
    if n > 0 {
      forall i | 0 <= i < n - 1 ensures Transmits(q[1..][i], socketOk(from + 1 + i)) {
        assert Transmits(q[i + 1], socketOk(from + (i + 1)));
      }
      DrainableIs(q[1..], socketOk, from + 1, n - 1);
    }
  }

  /** The channel when the thread, asked to stop, has exited without anything being queued meanwhile. */
  function Stopping(ch: Channel, socketOk: nat -> bool): (end: Channel)
    requires ch.thread.StopRequested?
    ensures end.phase.Exited? && end.thread.StopRequested?
    decreases PhasesLeft(ch.phase)
  {
    match ch.phase
    case Sending =>
      Stopping(Next(ch, Sent(ch.inHand.None? || Transmits(ch.inHand.value, socketOk(0)))), socketOk)
    case Waiting => Stopping(Next(ch, Woken), socketOk)
    case Draining => Next(ch, Drained(Drainable(ch.queue.entries, socketOk, 1)))
    case Exited => ch
  }

  /** From an idle thread: the first entry is taken and never sent, the others are sent in order until one does not
      pass, and that one and those behind it stay. */
  lemma StoppingIdle(ch: Channel, socketOk: nat -> bool)
    requires ch.thread.StopRequested? && ch.phase.Waiting?
    ensures var q, end := ch.queue.entries, Stopping(ch, socketOk);
            && end.phase.Exited? && end.accepted == ch.accepted && end.delivered == ch.delivered
            && end.inHand == (if q == [] then None else Some(q[0]))
            && var rest := if q == [] then [] else q[1..];
               var n := Drainable(rest, socketOk, 1);
               end.drained == rest[..n] && end.queue.entries == rest[n..]
  {
    assert Next(ch, Woken).phase.Draining?;
  }

  ghost predicate Works(socketOk: nat -> bool) {
    forall i :: socketOk(i)
  }

  /** A stop with a socket that works delivers everything if and only if the queue is empty when the thread looks
      at it; otherwise exactly the first entry is lost, and a message that may not be dropped with it unless that entry
      may be. */
  lemma StopLosesExactly(ch: Channel, socketOk: nat -> bool)
    requires Consistent(ch) && ch.thread.StopRequested? && (ch.phase.Waiting? || ch.phase.Sending?) && Works(socketOk)
    ensures var q, end := ch.queue.entries, Stopping(ch, socketOk);
            && end.queue.entries == [] && (end.inHand.Some? <==> q != [])
            && end.delivered + end.drained
                 == ch.delivered + AsSeq(ch.inHand) + (if q == [] then [] else q[1..])
            && (end.delivered + end.drained == ch.delivered + AsSeq(ch.inHand) + q <==> q == [])
            && (Firm(end.delivered + end.drained) == Firm(ch.accepted) <==> q == [] || q[0].kind.StreamDataDiscardable?)
  {
    var q := ch.queue.entries;
    StoppingWorks(ch, socketOk);
    FirmWhileRunning(ch);
    FirmConcat(ch.delivered, AsSeq(ch.inHand));
    FirstLost(ch.delivered + AsSeq(ch.inHand), q);
  }

  lemma StoppingWorks(ch: Channel, socketOk: nat -> bool)
    requires ch.thread.StopRequested? && (ch.phase.Waiting? ==> ch.inHand.None?) && Works(socketOk)
    requires ch.phase.Waiting? || ch.phase.Sending?
    ensures var q, end := ch.queue.entries, Stopping(ch, socketOk);
            && end.queue.entries == [] && (end.inHand.Some? <==> q != [])
            && end.delivered + end.drained
                 == ch.delivered + AsSeq(ch.inHand) + (if q == [] then [] else q[1..])
  {
    var idle := if ch.phase.Sending? then Next(ch, Sent(true)) else ch;
    assert Stopping(ch, socketOk) == Stopping(idle, socketOk);
    assert idle.delivered == ch.delivered + AsSeq(ch.inHand);
    StoppingIdle(idle, socketOk);
  }

  lemma FirstLost(sent: seq<Message>, q: seq<Message>)
    ensures sent + (if q == [] then [] else q[1..]) == sent + q <==> q == []
    ensures Firm(sent + (if q == [] then [] else q[1..])) == Firm(sent) + Firm(q) <==>
            q == [] || q[0].kind.StreamDataDiscardable?
  {
    if q != [] {
      assert q == [q[0]] + q[1..];
      LossShows(sent, [q[0]], q[1..]);
      FirmConcat([q[0]], q[1..]);
      FirmConcat(sent, q[1..]);
      assert [q[0]][..0] == [];
      LossShows(Firm(sent), Firm([q[0]]), Firm(q[1..]));
    } else {
      FirmConcat(sent, q);
    }
  }

  lemma LossShows<T>(a: seq<T>, b: seq<T>, c: seq<T>)
    ensures a + c == a + (b + c) <==> b == []
  {
    if b == [] {
      assert b + c == c;
    } else {
      assert |a + c| < |a + (b + c)|;
    }
  }

  /** A message that may not be dropped, queued right before the stop of an idle thread, is accepted and lost. */
  lemma StopLosesMessage(m: Message)
    requires !m.kind.StreamDataDiscardable?
    ensures var events := [Enqueued(m), StopAsked, Woken, Drained(0), Joined];
            Runs(STARTED, events) &&
            var end := Run(STARTED, events);
            end.accepted == [m] && end.delivered == end.drained == end.queue.entries == [] && end.thread.NotRunning?
  {
    var a := Next(STARTED, Enqueued(m));
    var b := Next(a, StopAsked);
    var c := Next(b, Woken);
    var d := Next(c, Drained(0));
    assert Leads(STARTED, [], STARTED);
    LeadsOn(STARTED, [], STARTED, Enqueued(m));
    LeadsOn(STARTED, [] + [Enqueued(m)], a, StopAsked);
    LeadsOn(STARTED, [] + [Enqueued(m)] + [StopAsked], b, Woken);
    LeadsOn(STARTED, [] + [Enqueued(m)] + [StopAsked] + [Woken], c, Drained(0));
    LeadsOn(STARTED, [] + [Enqueued(m)] + [StopAsked] + [Woken] + [Drained(0)], d, Joined);
    assert [] + [Enqueued(m)] + [StopAsked] + [Woken] + [Drained(0)] + [Joined]
        == [Enqueued(m), StopAsked, Woken, Drained(0), Joined];
  }

  /** In every run, a message that may not be dropped is missing once the loop has ended if and only if the thread still
      holds one; that is the one it could not send, or the one it took when it was asked to stop. */
  lemma MissingIsInHand(events: seq<Event>)
    requires Runs(STARTED, events)
    ensures var ch := Run(STARTED, events);
            Firm(ch.accepted) == Firm(ch.delivered) + Firm(ch.drained) + Firm(ch.queue.entries)
            <==> ch.inHand.None? || ch.inHand.value.kind.StreamDataDiscardable?
  {
    var ch := Run(STARTED, events);
    FirmMessagesKeepOrder(events);
    FirmInHand(ch.inHand);
    LossBetween(Firm(ch.delivered), Firm(AsSeq(ch.inHand)), Firm(ch.drained), Firm(ch.queue.entries));
  }

  lemma FirmInHand(hand: Option<Message>)
    ensures Firm(AsSeq(hand)) == [] <==> hand.None? || hand.value.kind.StreamDataDiscardable?
  {
    if hand.Some? {
      assert AsSeq(hand)[..0] == [];
    }
  }

  lemma LossBetween<T>(a: seq<T>, b: seq<T>, c: seq<T>, d: seq<T>)
    ensures a + b + c + d == a + c + d <==> b == []
  {
    if b == [] {
      assert a + b == a;
    } else {
      assert |a + b + c + d| > |a + c + d|;
    }
  }

  // ---------------------------------------------------------------- views

  /** Only firm messages shape a view. */
  lemma {:induction false} ReplayFirm(ms: seq<Message>)
    ensures Replay(Firm(ms)) == Replay(ms)
  {
    if ms != [] {
      var init, last := ms[..|ms| - 1], ms[|ms| - 1];
      ReplayFirm(init);
      if !Discardable(last) {
        ReplayAppend(Firm(init), last);
      } else {
        assert Firm(ms) == Firm(init);
      }
    }
  }

  /** Whenever the thread is idle with an empty queue, what was delivered shows the client
      exactly what was queued for it. */
  lemma CaughtUpViews(ch: Channel)
    requires Consistent(ch) && ch.phase.Waiting? && ch.queue.entries == []
    ensures Replay(ch.delivered) == Replay(ch.accepted)
  {
    assert Path(ch) == ch.delivered;
    ReplayFirm(ch.delivered);
    ReplayFirm(ch.accepted);
  }

  // ---------------------------------------------------------------- catching up

  /** So many turns of the thread's loop with a socket that works. */
  function Turns(n: nat): (events: seq<Event>)
    ensures |events| == 2 * n
  {
    if n == 0 then [] else [Woken, Sent(true)] + Turns(n - 1)
  }

  lemma TurnSends(ch: Channel)
    requires ch.thread.Running? && ch.phase.Waiting? && ch.queue.entries != []
    ensures Enabled(ch, Woken) && Enabled(Next(ch, Woken), Sent(true))
    ensures var q, end := ch.queue.entries, Next(Next(ch, Woken), Sent(true));
            end == ch.(queue := ch.queue.(entries := q[1..]), inHand := None, delivered := ch.delivered + [q[0]],
                       wire := ch.wire + Transmitted(q[0]))
  {
  }

  lemma LeadsFrom(ch: Channel, e: Event, events: seq<Event>, end: Channel)
    requires Enabled(ch, e) && Leads(Next(ch, e), events, end)
    ensures Leads(ch, [e] + events, end)
  {
    assert ([e] + events)[0] == e && ([e] + events)[1..] == events;
  }

  /** A thread that waits, with a socket that works, catches up: in as many turns as there are entries it sends them
      all, in order, and waits again. */
  lemma {:induction false} CatchesUp(ch: Channel)
    requires ch.thread.Running? && ch.phase.Waiting?
    ensures var q := ch.queue.entries;
            exists end :: Leads(ch, Turns(|q|), end) && end.phase.Waiting? && end.queue.entries == []
                          && end.delivered == ch.delivered + q && end.accepted == ch.accepted
    decreases |ch.queue.entries|
  {
    var q := ch.queue.entries;
    if q == [] {
      assert ch.delivered + q == ch.delivered && Turns(|q|) == [];
      assert Leads(ch, Turns(|q|), ch);
    } else {
      var next := Next(Next(ch, Woken), Sent(true));
      TurnSends(ch);
      CatchesUp(next);
      var end :| Leads(next, Turns(|q| - 1), end) && end.phase.Waiting? && end.queue.entries == []
                 && end.delivered == next.delivered + q[1..] && end.accepted == next.accepted;
      LeadsFrom(Next(ch, Woken), Sent(true), Turns(|q| - 1), end);
      LeadsFrom(ch, Woken, [Sent(true)] + Turns(|q| - 1), end);
      assert Turns(|q|) == [Woken] + ([Sent(true)] + Turns(|q| - 1));
      assert ch.delivered + [q[0]] + q[1..] == ch.delivered + q;
    }
  }
}
