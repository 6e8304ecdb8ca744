/** One client of the server: its receiver thread's buffers, its spawn limiter and its threads. */
module Session {
  import opened RoRnet
  import opened Threads
  import opened Broadcasting
  import opened Replica
  import Relay
  import RelayInvariant
  import RelayLogs
  import RelayTheorems
  import RelayUndefined
  import SpamFilter
  import SpawnRate

  datatype Header = Header(command: nat, streamid: nat, size: nat)

  const NO_HEADER := Header(0, 0, 0)

  /** What the receiver loop does with a complete message. */
  predicate CommandInRange(command: nat) {
    1000 <= command <= 1050
  }

  class Receiver {
    var threadState: ThreadState
    var recvHeader: Header
    const recvPayload: array<Octet>

    ghost predicate Valid()
    {
      recvPayload.Length == MAX_MESSAGE_LENGTH
    }

    /** The payload buffer begins with whatever the memory held. */
    constructor (memory: nat -> Octet)
      ensures Valid() && threadState == NotRunning && fresh(recvPayload)
      ensures forall i: nat :: i < MAX_MESSAGE_LENGTH ==> recvPayload[i] == memory(i)
    {
      threadState := NotRunning;
      recvHeader := NO_HEADER;
      recvPayload := new Octet[MAX_MESSAGE_LENGTH];
      new;
      forall i | 0 <= i < MAX_MESSAGE_LENGTH {
        recvPayload[i] := memory(i);
      }
    }

    method Start()
      requires threadState.NotRunning?
      modifies this`threadState
      ensures threadState == Running
    {
      threadState := Running;
    }

    /** Stop: ask the thread, join it, mark it as stopped. */
    method Stop()
      modifies this`threadState
      ensures threadState == if old(threadState).Running? then NotRunning else old(threadState)
    {
      if !threadState.Running? {
        return;
      }
      threadState := StopRequested;
      threadState := NotRunning;
    }

    /** `input` is what the socket delivers: a header, or nothing when it fails. */
    method ThreadReceiveHeader(input: Option<Header>) returns (ok: bool)
      modifies this`recvHeader
      ensures ok <==> input.Some? && input.value.size <= 8192
      ensures ok ==> recvHeader == input.value
    {
      recvHeader := NO_HEADER;
      if input.None? {
        return false;
      }
      recvHeader := input.value;
      return recvHeader.size <= MAX_MESSAGE_LENGTH;
    }

    /** The buffer is cleared, then filled from the front. */
    method ThreadReceivePayload(input: Option<seq<Octet>>) returns (ok: bool)
      requires Valid() && (input.Some? ==> |input.value| == recvHeader.size <= MAX_MESSAGE_LENGTH)
      modifies recvPayload
      ensures ok <==> input.Some?
      ensures ok ==> recvPayload[..] == input.value + seq(MAX_MESSAGE_LENGTH - |input.value|, _ => 0)
    {
      for i := 0 to MAX_MESSAGE_LENGTH
        invariant forall k :: 0 <= k < i ==> recvPayload[k] == 0
      {
        recvPayload[i] := 0;
      }
      if input.None? {
        return false;
      }
      for i := 0 to |input.value|
        invariant recvPayload[..i] == input.value[..i]
        invariant forall k :: i <= k < MAX_MESSAGE_LENGTH ==> recvPayload[k] == 0
      {
        recvPayload[i] := input.value[i];
      }
      return true;
    }

    /** A message without payload leaves the buffer of the previous message in place. */
    method ThreadReceiveMessage(header: Option<Header>, payload: Option<seq<Octet>>) returns (ok: bool)
      requires Valid()
      requires header.Some? && payload.Some? ==> |payload.value| == header.value.size
      modifies this`recvHeader, recvPayload
      ensures ok <==> header.Some? && header.value.size <= 8192 && (header.value.size > 0 ==> payload.Some?)
      ensures ok ==> recvHeader == header.value
      ensures ok && recvHeader.size > 0 ==>
        recvPayload[..] == payload.value + seq(MAX_MESSAGE_LENGTH - recvHeader.size, _ => 0)
      ensures ok && recvHeader.size == 0 ==> recvPayload[..] == old(recvPayload[..])
    {
      ok := ThreadReceiveHeader(header);
      if !ok {
        return;
      }
      if recvHeader.size > 0 {
        ok := ThreadReceivePayload(payload);
      }
    }
  }

  /** The request a received message amounts to; clock, queue state and chat handling come from elsewhere. */
  predicate RequestFits(r: Relay.Request, header: Header, buffer: seq<Octet>) {
    r.kind == OfCode(header.command) && r.streamid == header.streamid && r.buffer == buffer && r.len == header.size
  }

  /** Every registration received with a payload is broadcast as it is stored. */
  lemma ReceivedRegistrationFaithful(r: Relay.Request, header: Header, payload: seq<Octet>)
    requires 0 < header.size <= MAX_MESSAGE_LENGTH && |payload| == header.size
    requires RequestFits(r, header, payload + seq(MAX_MESSAGE_LENGTH - header.size, _ => 0))
    ensures Relay.WellSized(r) && RelayInvariant.Faithful(r)
  {
    RelayTheorems.FaithfulMeansCleared(r);
  }

  /** The request is what a message received with a payload amounts to. */
  ghost predicate HasPayload(r: Relay.Request) {
    exists header: Header, payload: seq<Octet> ::
      && 0 < header.size <= MAX_MESSAGE_LENGTH && |payload| == header.size
      && RequestFits(r, header, payload + seq(MAX_MESSAGE_LENGTH - header.size, _ => 0))
  }

  /** After every run in which each REGISTER is received with a payload, an introduced client's log replays to exactly
      the server's roster and stream table. */
  lemma PayloadViewsAreExact(cfg: Relay.Config, events: seq<Relay.Event>, i: nat)
    requires RelayTheorems.RegularRun(cfg, Relay.STARTED, events) && Relay.Runs(cfg, Relay.STARTED, events)
    requires forall k :: 0 <= k < |events| && events[k].Arrive? && events[k].request.kind.StreamRegister? ==>
               HasPayload(events[k].request)
    requires var s := Relay.Run(cfg, Relay.STARTED, events); i < |s.clients| && s.clients[i].initialized
    ensures var s := Relay.Run(cfg, Relay.STARTED, events);
            var r := s.clients[i];
            && Replay(r.log).users == RelayTheorems.Roster(s.clients)
            && RelayTheorems.OthersStreams(Replay(r.log), r.user.uid) == RelayTheorems.StreamTable(s.clients, r.user.uid)
  {
    forall k | 0 <= k < |events| && events[k].Arrive? && events[k].request.kind.StreamRegister?
      ensures Relay.WellSized(events[k].request) && RelayInvariant.Faithful(events[k].request)
    {
      PayloadIsFaithful(events[k].request);
    }
    RelayLogs.FaithfulViewsAreExact(cfg, events, i);
  }

  lemma PayloadIsFaithful(r: Relay.Request)
    requires HasPayload(r)
    ensures Relay.WellSized(r) && RelayInvariant.Faithful(r)
  {
    var header: Header, payload: seq<Octet> :|
      && 0 < header.size <= MAX_MESSAGE_LENGTH && |payload| == header.size
      && RequestFits(r, header, payload + seq(MAX_MESSAGE_LENGTH - header.size, _ => 0));
    ReceivedRegistrationFaithful(r, header, payload);
  }

  /** Behind a payload that does not fill the buffer there is a zero, so no string in it is endless. */
  lemma ShorterPayloadsEnd(r: Relay.Request, header: Header, payload: seq<Octet>, from: nat)
    requires |payload| == header.size < MAX_MESSAGE_LENGTH && from < MAX_MESSAGE_LENGTH
    requires RequestFits(r, header, payload + seq(MAX_MESSAGE_LENGTH - header.size, _ => 0))
    ensures !RelayUndefined.Endless(r.buffer, from)
  {
    assert r.buffer[MAX_MESSAGE_LENGTH - 1] == 0;
  }

  class Client {
    var user: UserInfo
    var dropState: int
    var streams: map<nat, Registration>
    var isReceivingData: bool
    var isInitialized: bool
    var streamRegTimestamps: seq<int>
    ghost var announced: map<nat, Registration>
    ghost var spawnChecks: seq<(int, int)>
    const broadcaster: Broadcaster
    const receiver: Receiver
    const spamFilter: SpamFilter.Filter

    ghost function View(): Relay.Client
      reads this, broadcaster, receiver, spamFilter
    {
      Relay.Client(user, isReceivingData, isInitialized, dropState, streams, streamRegTimestamps, spamFilter.Abs(),
                   receiver.threadState, broadcaster.threadState, announced, spawnChecks, spamFilter.said,
                   broadcaster.accepted)
    }

    /** A new client; StartThreads follows before anybody else can see it. Nothing initialises the drop
        state or the payload buffer. */
    constructor (cfg: Relay.Config, user: UserInfo, memory: nat -> Octet)
      ensures fresh(broadcaster) && fresh(receiver) && fresh(receiver.recvPayload) && receiver.Valid()
      ensures fresh(spamFilter)
      ensures View() == Relay.NewClient(cfg, user).(receiver := NotRunning, broadcaster := NotRunning)
    {
      this.user := user;
      dropState := cfg.freshMemory(user.uid);
      streams, announced := map[], map[];
      isReceivingData, isInitialized := false, false;
      streamRegTimestamps, spawnChecks := [], [];
      broadcaster := new Broadcaster();
      receiver := new Receiver(memory);
      spamFilter := new SpamFilter.Filter();
    }

    method StartThreads()
      requires receiver.threadState.NotRunning? && broadcaster.accepted == []
      modifies broadcaster, receiver
      ensures View() == old(View()).(receiver := Running, broadcaster := Running)
    {
      receiver.Start();
      broadcaster.Start();
    }

    /** Stops both threads; the socket is not modelled. */
    method Disconnect(socketOk: nat -> bool)
      requires receiver.threadState.Running? && broadcaster.threadState.Running?
      modifies broadcaster, receiver
      ensures View() == Relay.Stopped(old(View()))
    {
      ghost var _ := broadcaster.Stop(socketOk);
      receiver.Stop();
    }

    method SetStreams(streams: map<nat, Registration>, ghost announced: map<nat, Registration>)
      modifies this`streams, this`announced
      ensures View() == old(View()).(streams := streams, announced := announced)
    {
      this.streams := streams;
      this.announced := announced;
    }

    method QueueMessage(msg: Message)
      modifies broadcaster
      ensures View() == Relay.Told(old(View()), msg)
    {
      broadcaster.QueueMessage(msg);
    }

    /** Erases the timestamps before `since` and counts the others. */
    method PurgeTimestamps(since: int) returns (rate: nat)
      modifies this`streamRegTimestamps
      ensures streamRegTimestamps == SpawnRate.Recent(old(streamRegTimestamps), since)
      ensures rate == |streamRegTimestamps|
    {
      ghost var kept, rest := [], streamRegTimestamps;
      rate := 0;
      while rate < |streamRegTimestamps|
        invariant streamRegTimestamps == kept + rest && rate == |kept|
        invariant SpawnRate.Recent(old(streamRegTimestamps), since) == kept + SpawnRate.Recent(rest, since)
        decreases |rest|
      {
        ghost var first := rest[0];
        assert streamRegTimestamps[rate] == first && rest == [first] + rest[1..];
        SpawnRate.RecentHead(first, rest[1..], since);
        rest := rest[1..];
        if streamRegTimestamps[rate] < since {
          streamRegTimestamps := streamRegTimestamps[..rate] + streamRegTimestamps[rate + 1..];
        } else {
          kept := kept + [first];
          rate := rate + 1;
        }
      }
    }

    /** Purges the registration timestamps, then records the new one; `warned` says whether the
        player is to be warned. */
    method CheckSpawnRate(interval: int, maxRate: int, now: int, later: int) returns (allowed: bool, warned: bool)
      modifies this`streamRegTimestamps, this`spawnChecks
      ensures var v := SpawnRate.Check(old(streamRegTimestamps), interval, maxRate, now, later);
              && allowed == v.allowed && warned == v.warned
              && View() == old(View()).(stamps := v.stamps, spawnChecks := old(spawnChecks) + [(now, later)])
    {
      spawnChecks := spawnChecks + [(now, later)];
      if interval == 0 || maxRate == 0 {
        return true, false;
      }
      var rate := PurgeTimestamps(now - interval);
      warned := maxRate > 0 && 10 * rate > 7 * maxRate;
      streamRegTimestamps := streamRegTimestamps + [later];
      allowed := rate <= maxRate;
    }

    /** A chat line that is no command: the filter is asked, if it is active. `spam` means that the line is to be
        withheld. */
    method Moderate(cfg: Relay.Config, text: SpamFilter.Text, r: Relay.Request) returns (spam: bool, notices: nat)
      requires text == Relay.LineText(r)
      modifies spamFilter
      ensures View() == Relay.Spoken(cfg, old(View()), r)
      ensures spam <==> SpamFilter.IsActive(cfg.spam) && View().filter.gag.Gagged?
      ensures notices == Relay.FilterNotices(cfg, old(View()), r)
    {
      spamFilter.said := spamFilter.said + [Relay.LineOf(r)];
      spam, notices := false, 0;
      if SpamFilter.IsActive(cfg.spam) {
        spam, notices := spamFilter.CheckForSpam(cfg.spam, text, r.now);
      }
    }

    /** Tells the player about a change of its connection, as queueMessage does first. */
    method ReportQuality(isDropping: bool)
      modifies this`dropState, broadcaster
      ensures View() == Relay.QualityStep(old(View()), isDropping)
    {
      if isDropping && dropState == 0 {
        dropState := 1;
        QueueMessage(Relay.QualityMessage(1));
      } else if !isDropping && dropState == 1 {
        dropState := 0;
        QueueMessage(Relay.QualityMessage(0));
      }
    }
  }
}
