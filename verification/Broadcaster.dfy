/** The broadcaster of one client: its queue fields, the mutex sections that change them and
    the thread's sections. `phase` and `inHand` stand for the thread's program counter and local
    message; the ghost fields record the history the abstract channel speaks of. Every section
    is one step of the channel, so the theorems about channel runs apply to the object. */
module Broadcasting {
  import opened RoRnet
  import opened BroadcastQueue
  import opened Threads

  class Broadcaster {
    var threadState: ThreadState
    var msgQueue: seq<Message>
    var isDroppingPackets: bool
    var packetDropCounter: nat
    var packetGoodCounter: nat
    var phase: Phase                 // where the thread is
    var inHand: Option<Message>      // the thread's local message
    ghost var accepted: seq<Message>
    ghost var arrivals: seq<Arrival>
    ghost var delivered: seq<Message>
    ghost var drained: seq<Message>
    ghost var replaced: nat
    ghost var wire: seq<Message>     // what the thread has put on the socket

    ghost function Abs(): Channel
      reads this
    {
      Channel(Queue(msgQueue, isDroppingPackets, packetDropCounter, packetGoodCounter),
              threadState, phase, inHand, accepted, arrivals, delivered, drained, replaced, wire)
    }

    constructor ()
      ensures Abs() == STARTED.(thread := NotRunning)
    {
      threadState := NotRunning;
      msgQueue, isDroppingPackets, packetDropCounter, packetGoodCounter := [], false, 0, 0;
      phase, inHand := Waiting, None;
      accepted, arrivals, delivered, drained, replaced, wire := [], [], [], [], 0, [];
    }

    method Start()
      modifies this
      ensures Abs() == STARTED
    {
      isDroppingPackets := false;
      packetDropCounter := 0;
      packetGoodCounter := 0;
      msgQueue := [];
      threadState := Running;
      phase, inHand := Waiting, None;
      accepted, arrivals, delivered, drained, replaced, wire := [], [], [], [], 0, [];
    }

    /** Position of the first entry `msg` supersedes, or -1. */
    method FindSuperseded(msg: Message) returns (i: int)
      ensures i == Slot(msgQueue, msg)
    {
      i := 0;
      while i < |msgQueue| && !Supersedes(msg, msgQueue[i])
        invariant 0 <= i <= |msgQueue|
        invariant forall j :: 0 <= j < i ==> !Supersedes(msg, msgQueue[j])
      {
        i := i + 1;
      }
      if i == |msgQueue| {
        i := -1;
      }
    }

    method QueueMessage(msg: Message)
      modifies this
      ensures Abs() == Next(old(Abs()), Enqueued(msg))
    {
      ghost var before, arrival := Abs(), Classify(msgQueue, msg);
      accepted := accepted + [msg];
      arrivals := arrivals + [arrival];
      Arrives(msg, before);
    }

    /** The queue, the counters and the flag follow an arrival that the history has recorded already. */
    method Arrives(msg: Message, ghost before: Channel)
      requires Abs() == before.(accepted := accepted, arrivals := arrivals)
      requires accepted == before.accepted + [msg]
      requires arrivals == before.arrivals + [Classify(msgQueue, msg)]
      modifies this
      ensures Abs() == Next(before, Enqueued(msg))
    {
      if msgQueue == [] {
        packetDropCounter := 0;
        packetGoodCounter := packetGoodCounter + 1;
        isDroppingPackets := if packetGoodCounter > 3 then false else isDroppingPackets;
      } else if Discardable(msg) {
        var search := FindSuperseded(msg);
        if search >= 0 {
          msgQueue := msgQueue[search := msg];
          packetGoodCounter := 0;
          packetDropCounter := packetDropCounter + 1;
          isDroppingPackets := if packetDropCounter > 3 then true else isDroppingPackets;
          replaced := replaced + 1;
          return;
        }
      }
      msgQueue := msgQueue + [msg];
    }

    /** The section after the condition wait: `msg` is None when nothing was there. */
    method ThreadWaitForMessage() returns (state: ThreadState, msg: Option<Message>)
      requires phase.Waiting?
      modifies this
      ensures Abs() == Next(old(Abs()), Woken)
      ensures state == threadState && msg == inHand
    {
      msg := None;
      if msgQueue != [] {
        msg := Some(msgQueue[0]);
        msgQueue := msgQueue[1..];
      }
      inHand := msg;
      state := threadState;
      phase := if threadState.StopRequested? then Draining else Sending;
    }

    /** Sends one entry; `socketOk` is the outcome of the socket, should it be used. */
    method ThreadTransmitMessage(msg: Message, socketOk: bool) returns (ok: bool, sent: seq<Message>)
      ensures ok <==> msg.kind.Invalid? || socketOk
      ensures sent == if ok then Transmitted(msg) else []
    {
      if msg.kind.Invalid? {
        return true, [];
      }
      var kind := if msg.kind.StreamDataDiscardable? then StreamData else msg.kind;
      ok := socketOk;
      sent := if ok then [msg.(kind := kind)] else [];
    }

    /** The running branch of the thread loop: transmit what the wait returned. */
    method SendInHand(msg: Option<Message>, socketOk: bool) returns (ok: bool, sent: seq<Message>)
      requires phase.Sending? && msg == inHand
      modifies this
      ensures Abs() == Next(old(Abs()), Sent(ok))
      ensures ok <==> msg.None? || msg.value.kind.Invalid? || socketOk
      ensures sent == if ok && msg.Some? then Transmitted(msg.value) else []
    {
      if msg.None? {
        ok, sent := true, [];
      } else {
        ok, sent := ThreadTransmitMessage(msg.value, socketOk);
      }
      wire := wire + sent;
      assert delivered + [] == delivered && old(wire) + [] == old(wire);
      if ok {
        delivered := delivered + AsSeq(inHand);
        phase, inHand := Waiting, None;
      } else {
        phase := Exited;
      }
    }

    /** The loop of the drain: entries are sent from the front until the socket fails. */
    method SendQueue(socketOk: nat -> bool, from: nat) returns (count: nat)
      modifies this`msgQueue, this`wire
      ensures count == Drainable(old(msgQueue), socketOk, from) && msgQueue == old(msgQueue)[count..]
      ensures wire == old(wire) + AllTransmitted(old(msgQueue)[..count])
    {
      ghost var all, before := msgQueue, wire;
      count := 0;
      assert before + [] == before;
      while msgQueue != []
        invariant count <= |all| && msgQueue == all[count..]
        invariant wire == before + AllTransmitted(all[..count])
        invariant forall i :: 0 <= i < count ==> Transmits(all[i], socketOk(from + i))
        decreases |msgQueue|
      {
        var ok, sent := ThreadTransmitMessage(msgQueue[0], socketOk(from + count));
        OneMoreTransmitted(before, all, count, wire);
        wire := wire + sent;
        if !ok {
          break;
        }
        msgQueue := msgQueue[1..];
        count := count + 1;
      }
      DrainableIs(all, socketOk, from, count);
    }

    /** The stopping branch: send what is left, in order, until the socket fails. */
    method Drain(socketOk: nat -> bool, from: nat) returns (count: nat)
      requires phase.Draining?
      modifies this
      ensures count == Drainable(old(msgQueue), socketOk, from)
      ensures Abs() == Next(old(Abs()), Drained(count))
    {
      ghost var all := msgQueue;
      count := SendQueue(socketOk, from);
      drained := all[..count];
      phase := Exited;
    }

    /** First section of Stop: true when the thread has to be joined. */
    method RequestStop() returns (join: bool)
      modifies this
      ensures join <==> old(threadState).Running?
      ensures Abs() == if join then Next(old(Abs()), StopAsked) else old(Abs())
    {
      join := threadState.Running?;
      if join {
        threadState := StopRequested;
      }
    }

    /** What the thread still does once it has been asked to stop; the join waits for this. `events` are
        its steps so far, and then with the remaining ones. */
    method RunToExit(socketOk: nat -> bool, ghost start: Channel, ghost first: seq<Event>)
      returns (ghost events: seq<Event>)
      requires threadState.StopRequested? && Leads(start, first, Abs())
      modifies this
      ensures phase.Exited? && threadState.StopRequested? && accepted == old(accepted)
      ensures Abs() == Stopping(old(Abs()), socketOk)
      ensures Leads(start, events, Abs())
    {
      events := first;
      while !phase.Exited?
        invariant threadState.StopRequested? && accepted == old(accepted)
        invariant Stopping(Abs(), socketOk) == Stopping(old(Abs()), socketOk)
        invariant Leads(start, events, Abs())
        decreases PhasesLeft(phase)
      {
        ghost var before := Abs();
        match phase
        case Sending =>
          var ok, _ := SendInHand(inHand, socketOk(0));
          LeadsOn(start, events, before, Sent(ok));
          events := events + [Sent(ok)];
        case Waiting =>
          var _, _ := ThreadWaitForMessage();
          LeadsOn(start, events, before, Woken);
          events := events + [Woken];
        case Draining =>
          var count := Drain(socketOk, 1);
          LeadsOn(start, events, before, Drained(count));
          events := events + [Drained(count)];
      }
    }

    /** Stop: ask, join, mark as stopped; nothing to do for a thread that is not running. What happens
        to the queue meanwhile is a run of the channel, in which nothing is queued. */
    method Stop(socketOk: nat -> bool) returns (ghost events: seq<Event>)
      modifies this
      ensures accepted == old(accepted)
      ensures threadState == if old(threadState).Running? then NotRunning else old(threadState)
      ensures Abs() == if old(threadState).Running?
                       then Next(Stopping(Next(old(Abs()), StopAsked), socketOk), Joined) else old(Abs())
      ensures Leads(old(Abs()), events, Abs())
    {
      ghost var start := Abs();
      events := [];
      var join := RequestStop();
      if join {
        LeadsOn(start, [], start, StopAsked);
        events := RunToExit(socketOk, start, [] + [StopAsked]);
        LeadsOn(start, events, Abs(), Joined);
        threadState := NotRunning;
        events := events + [Joined];
      }
    }
  }
}
