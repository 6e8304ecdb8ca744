/** What each step of the server does, told in the messages themselves: who is sent what, and what becomes of
    everybody's state. Nothing here is put in terms of how the server goes about it. */
module RelayEffects {
  import opened RoRnet
  import opened Identity
  import opened Relay
  import opened RelayInvariant
  import opened RelayMembership
  import opened RelayTheorems
  import SpawnRate

  // ---------------------------------------------------------------- vocabulary

  /** The client has been sent these messages, and nothing else about it has changed. */
  predicate Sent(c: Client, c': Client, ms: seq<Message>) {
    c' == c.(log := c.log + ms)
  }

  /** A line of server text. */
  const SERVER_LINE: Message := Message(Utf8Chat, 0xFFFF_FFFF, 0xFFFF_FFFF, Text)

  function Lines(n: nat): seq<Message> {
    seq(n, _ => SERVER_LINE)
  }

  /** Messages that are sent if the condition holds. */
  function When(b: bool, ms: seq<Message>): seq<Message> {
    if b then ms else []
  }

  /** The report on its connection that the sender of any message gets first. */
  function Report(c: Client, dropping: bool): seq<Message> {
    if dropping && c.dropState == 0 then [Message(NetQuality, 0xFFFF_FFFF, 0, Quality(1))]
    else if !dropping && c.dropState == 1 then [Message(NetQuality, 0xFFFF_FFFF, 0, Quality(0))]
    else []
  }

  function Reported(c: Client, dropping: bool): Client {
    var report := Report(c, dropping);
    c.(log := c.log + report, dropState := if report == [] then c.dropState else 1 - c.dropState)
  }

  /** The client at `j` when the message of the one at `i` comes to be handled. */
  function Before(s: Server, i: nat, r: Request, j: nat): Client
    requires j < |s.clients|
  {
    if j == i then Reported(s.clients[j], r.dropping) else s.clients[j]
  }

  function AllBefore(s: Server, i: nat, r: Request): (cs: seq<Client>)
    ensures |cs| == |s.clients|
  {
    seq(|s.clients|, j requires 0 <= j < |s.clients| => Before(s, i, r, j))
  }

  /** In a state that some run reaches, a message of the client at `i` is handled. */
  ghost predicate Arrives(cfg: Config, s: Server, i: nat, r: Request) {
    Reachable(cfg, s) && i < |s.clients| && Enabled(cfg, s, Arrive(s.clients[i].user.uid, r))
  }

  function AfterMessage(cfg: Config, s: Server, i: nat, r: Request): Server
    requires i < |s.clients| && Enabled(cfg, s, Arrive(s.clients[i].user.uid, r))
  {
    Next(cfg, s, Arrive(s.clients[i].user.uid, r))
  }

  /** The same clients are connected, and nothing but them has changed. */
  predicate SameMembers(s: Server, s': Server) {
    |s'.clients| == |s.clients| && s' == s.(clients := s'.clients)
  }

  /** The client at `i` has left: it waits to be killed, behind those who waited before, and the others have
      closed up in order. */
  predicate Departed(s: Server, s': Server, i: nat)
    requires i < |s.clients|
  {
    && |s'.clients| == |s.clients| - 1
    && |s'.killQueue| == |s.killQueue| + 1 && s'.killQueue[..|s.killQueue|] == s.killQueue
    && s' == s.(clients := s'.clients, killQueue := s'.killQueue,
                botCount := s.botCount - if s.clients[i].user.auth & 8 != 0 then 1 else 0)
  }

  /** The client at `j` after the one at `i` has left. */
  function Later(s: Server, s': Server, i: nat, j: nat): Client
    requires i < |s.clients| && j < |s.clients| && Departed(s, s', i)
  {
    if j == i then s'.killQueue[|s.killQueue|] else s'.clients[if j < i then j else j - 1]
  }

  // ---------------------------------------------------------------- common ground

  lemma BeforeThus(s: Server, i: nat, r: Request)
    requires i < |s.clients|
    ensures AllBefore(s, i, r) == s.clients[i := QualityStep(s.clients[i], r.dropping)]
    ensures AllBefore(s, i, r) == s.clients[i := Reported(s.clients[i], r.dropping)]
    ensures Users(AllBefore(s, i, r)) == Users(s.clients)
  {
    var c := s.clients[i];
    assert c.log + [] == c.log;
    assert QualityStep(c, r.dropping) == Reported(c, r.dropping);
  }

  lemma ReceivedThus(cfg: Config, s: Server, i: nat, r: Request)
    requires DistinctUids(Users(s.clients)) && i < |s.clients| && Enabled(cfg, s, Arrive(s.clients[i].user.uid, r))
    ensures s.clients[i].receiving && !Undefined(cfg, s.clients[i], r)
    ensures WellSized(r) && Addressed(r)
    ensures AfterMessage(cfg, s, i, r)
         == Handle(cfg, s.(clients := s.clients[i := QualityStep(s.clients[i], r.dropping)]), i, r)
  {
    FoundAt(s.clients, i);
  }

  lemma HandledThus(cfg: Config, s: Server, i: nat, r: Request)
    requires Arrives(cfg, s, i, r)
    ensures DistinctUids(Users(s.clients)) && Users(AllBefore(s, i, r)) == Users(s.clients)
    ensures s.clients[i].receiving && !Undefined(cfg, s.clients[i], r)
    ensures WellSized(r) && Addressed(r)
    ensures AfterMessage(cfg, s, i, r) == Handle(cfg, s.(clients := AllBefore(s, i, r)), i, r)
  {
    assert Sound(cfg, s.clients) by { ReachableInv(cfg, s); }
    BeforeThus(s, i, r);
    ReceivedThus(cfg, s, i, r);
  }

  /** Whoever is reported leaves, and everybody, the leaving one too, is sent one LEAVE. */
  lemma LeaveTold(s: Server, i: nat)
    requires DistinctUids(Users(s.clients)) && i < |s.clients|
    ensures var uid := s.clients[i].user.uid;
            var s' := Disconnect(s, uid);
            && Departed(s, s', i)
            && forall j :: 0 <= j < |s.clients| ==>
                 Sent(s.clients[j], Later(s, s', i, j), [Message(UserLeave, uid, 0, Text)])
  {
    var uid, told := s.clients[i].user.uid, Tell(s.clients, Everyone, LeaveMessage(s.clients[i].user.uid));
    FoundAt(s.clients, i);
    IndexOfIs(Users(s.clients), i);
    assert Users(s.clients)[i] == s.clients[i].user;
    assert Disconnect(s, uid).clients == RemoveAt(told, i);
  }

  // ---------------------------------------------------------------- introductions

  /** The message shows a connected client as it is, or one of its streams as it is stored. */
  predicate Shows(cs: seq<Client>, m: Message) {
    var p := Find(cs, m.source);
    p >= 0 &&
    (|| m == Message(UserInfoMsg, cs[p].user.uid, 0, User(cs[p].user.(token := "", guid := "")))
     || (m.streamid in cs[p].streams
         && m == Message(StreamRegister, cs[p].user.uid, m.streamid, Octets(cs[p].streams[m.streamid]))))
  }

  /** Clients come in the order of the list, each followed by its streams in the order of their ids. */
  predicate ComesFirst(cs: seq<Client>, m: Message, m': Message) {
    var p, p' := Find(cs, m.source), Find(cs, m'.source);
    || p < p'
    || (p == p' && m'.kind.StreamRegister? && (m.kind.UserInfoMsg? || m.streamid < m'.streamid))
  }

  predicate InLine(cs: seq<Client>, ms: seq<Message>) {
    forall a, b :: 0 <= a < b < |ms| ==> ComesFirst(cs, ms[a], ms[b])
  }

  /** The first `n` clients and all their streams are shown. */
  ghost predicate ShowsAll(cs: seq<Client>, n: nat, ms: seq<Message>)
    requires n <= |cs|
  {
    forall p :: 0 <= p < n ==> ShowsWhole(cs[p], ms)
  }

  ghost predicate ShowsWhole(c: Client, ms: seq<Message>) {
    && Message(UserInfoMsg, c.user.uid, 0, User(c.user.(token := "", guid := ""))) in ms
    && forall sid :: sid in c.streams ==> Message(StreamRegister, c.user.uid, sid, Octets(c.streams[sid])) in ms
  }

  /** The messages show all of the first `n` clients, nothing else and nothing twice, in order. */
  ghost predicate Presents(cs: seq<Client>, n: nat, ms: seq<Message>)
    requires n <= |cs|
  {
    && ShowsAll(cs, n, ms) && InLine(cs, ms)
    && forall k :: 0 <= k < |ms| ==> Shows(cs, ms[k]) && Find(cs, ms[k].source) < n
  }

  /** The same, but that one of them is sent twice in a row. */
  ghost predicate PresentsWithEcho(cs: seq<Client>, echo: Message, ms: seq<Message>) {
    exists d :: EchoAt(echo, ms, d) && Presents(cs, |cs|, RemoveAt(ms, d))
  }

  predicate EchoAt(echo: Message, ms: seq<Message>, d: nat) {
    d + 1 < |ms| && ms[d] == ms[d + 1] == echo
  }

  predicate IsRegisterOf(c: Client, m: Message) {
    m.streamid in c.streams && m == Message(StreamRegister, c.user.uid, m.streamid, Octets(c.streams[m.streamid]))
  }

  lemma {:induction false} RegistersInLine(c: Client, keys: set<nat>)
    requires keys <= c.streams.Keys
    ensures var ms := Registers(c, keys);
            && (forall k :: 0 <= k < |ms| ==> IsRegisterOf(c, ms[k]) && ms[k].streamid in keys)
            && (forall a, b :: 0 <= a < b < |ms| ==> ms[a].streamid < ms[b].streamid)
            && (forall sid :: sid in keys ==> Message(StreamRegister, c.user.uid, sid, Octets(c.streams[sid])) in ms)
  {
    if keys != {} {
      var sid := Min(keys);
      RegistersInLine(c, keys - {sid});
      assert forall k :: k in keys ==> k == sid || k in keys - {sid};
    }
  }

  /** What the client at `p` shows of itself. */
  function OwnPart(cs: seq<Client>, p: nat): seq<Message>
    requires p < |cs|
  {
    [InfoMessage(cs[p].user)] + Registers(cs[p], cs[p].streams.Keys)
  }

  function Parts(cs: seq<Client>, n: nat): seq<Message>
    requires n <= |cs|
  {
    if n == 0 then [] else Parts(cs, n - 1) + OwnPart(cs, n - 1)
  }

  /** One client's part of an introduction. */
  ghost predicate IsPartOf(cs: seq<Client>, p: nat, ms: seq<Message>)
    requires p < |cs|
  {
    && ShowsWhole(cs[p], ms) && InLine(cs, ms)
    && forall k :: 0 <= k < |ms| ==> Shows(cs, ms[k]) && Find(cs, ms[k].source) == p
  }

  lemma OwnPartPresents(cs: seq<Client>, p: nat)
    requires DistinctUids(Users(cs)) && p < |cs|
    ensures IsPartOf(cs, p, OwnPart(cs, p))
  {
    var c, ms := cs[p], OwnPart(cs, p);
    var rest := Registers(c, c.streams.Keys);
    FoundAt(cs, p);
    RegistersInLine(c, c.streams.Keys);
    assert ms[0] == InfoMessage(c.user) && forall k :: 0 < k < |ms| ==> ms[k] == rest[k - 1];
    forall sid | sid in c.streams ensures Message(StreamRegister, c.user.uid, sid, Octets(c.streams[sid])) in ms {
      assert Message(StreamRegister, c.user.uid, sid, Octets(c.streams[sid])) in rest;
    }
    forall k | 0 <= k < |ms| ensures Shows(cs, ms[k]) && Find(cs, ms[k].source) == p {
    }
    forall a, b | 0 <= a < b < |ms| ensures ComesFirst(cs, ms[a], ms[b]) {
      if a > 0 {
        assert rest[a - 1].streamid < rest[b - 1].streamid;
      }
    }
  }

  lemma PresentsMore(cs: seq<Client>, p: nat, before: seq<Message>, part: seq<Message>)
    requires p < |cs| && Presents(cs, p, before) && IsPartOf(cs, p, part)
    ensures Presents(cs, p + 1, before + part)
  {
    var ms := before + part;
    forall q | 0 <= q < p + 1 ensures ShowsWhole(cs[q], ms) {
      assert q < p ==> ShowsWhole(cs[q], before);
    }
    forall k | 0 <= k < |ms| ensures Shows(cs, ms[k]) && Find(cs, ms[k].source) < p + 1 {
    }
    forall a, b | 0 <= a < b < |ms| ensures ComesFirst(cs, ms[a], ms[b]) {
      if b < |before| {
        assert ComesFirst(cs, before[a], before[b]);
      } else if a >= |before| {
        assert ComesFirst(cs, part[a - |before|], part[b - |before|]);
      }
    }
  }

  lemma {:induction false} PartsPresent(cs: seq<Client>, n: nat)
    requires DistinctUids(Users(cs)) && n <= |cs|
    ensures Presents(cs, n, Parts(cs, n))
  {
    if n > 0 {
      PartsPresent(cs, n - 1);
      OwnPartPresents(cs, n - 1);
      PresentsMore(cs, n - 1, Parts(cs, n - 1), OwnPart(cs, n - 1));
    }
  }

  /** The introduction of the client at `at` is these parts, with its own record doubled. */
  lemma {:induction false} IntroductionIs(cs: seq<Client>, at: nat, n: nat)
    requires at < |cs| && n <= |cs|
    ensures n <= at ==> Introduction(cs, at, n) == Parts(cs, n)
    ensures n > at ==> var d, ms := |Parts(cs, at)|, Introduction(cs, at, n);
                       EchoAt(InfoMessage(cs[at].user), ms, d) && RemoveAt(ms, d) == Parts(cs, n)
  {
    if n > 0 {
      IntroductionIs(cs, at, n - 1);
      var echo, part := InfoMessage(cs[at].user), OwnPart(cs, n - 1);
      if n - 1 == at {
        assert Section(cs, at, at) == [echo] + part;
        EchoInFront(Parts(cs, at), echo, part);
      } else {
        assert Section(cs, at, n - 1) == part;
        if n - 1 > at {
          EchoFurther(Introduction(cs, at, n - 1), echo, |Parts(cs, at)|, part);
        }
      }
    }
  }

  lemma EchoInFront(before: seq<Message>, echo: Message, part: seq<Message>)
    requires part != [] && part[0] == echo
    ensures var ms := before + ([echo] + part); EchoAt(echo, ms, |before|) && RemoveAt(ms, |before|) == before + part
  {
  }

  lemma EchoFurther(ms: seq<Message>, echo: Message, d: nat, part: seq<Message>)
    requires EchoAt(echo, ms, d)
    ensures EchoAt(echo, ms + part, d) && RemoveAt(ms + part, d) == RemoveAt(ms, d) + part
  {
  }

  lemma {:induction false} IntroductionPresents(cs: seq<Client>, at: nat)
    requires DistinctUids(Users(cs)) && at < |cs|
    ensures PresentsWithEcho(cs, InfoMessage(cs[at].user), Introduction(cs, at, |cs|))
  {
    IntroductionIs(cs, at, |cs|);
    PartsPresent(cs, |cs|);
    var d := |Parts(cs, at)|;
    assert EchoAt(InfoMessage(cs[at].user), Introduction(cs, at, |cs|), d);
  }

  // ---------------------------------------------------------------- stream data

  predicate CarriesData(r: Request) {
    r.kind.StreamData? || r.kind.StreamDataDiscardable?
  }

  lemma DataRelayed(cs: seq<Client>, i: nat, r: Request, j: nat)
    requires i < |cs| && j < |cs| && r.len <= |r.buffer| && CarriesData(r)
    ensures var c, d, cs' := cs[i], cs[j], RelayData(cs, i, r);
            var info := Message(UserInfoMsg, c.user.uid, 0, User(c.user.(token := "", guid := "")));
            var data := Message(r.kind, c.user.uid, r.streamid, Octets(r.buffer[..r.len]));
            && (j != i ==> Sent(d, cs'[j], When(!c.initialized, [info])
                                           + When(r.streamid in c.streams && d.receiving, [data])))
            && (j == i ==> cs'[i].initialized && NoDataAdded(c.log, cs'[i].log) && (c.initialized ==> cs'[i] == c))
  {
    IntroductionOrdinary(cs, i, |cs|);
  }

  lemma DataHandled(cfg: Config, s: Server, i: nat, r: Request)
    requires WellSized(r) && Addressed(r) && i < |s.clients| && CarriesData(r)
    ensures Handle(cfg, s, i, r) == s.(clients := RelayData(s.clients, i, r))
  {
  }

  /** In every reachable state: data of a registered stream is sent to every other client that listens, once, as
      the last thing it is sent, octet for octet; whoever does not listen gets no data, nor does the sender. Data of
      any other stream goes to nobody. Everybody else is told before who the sender is, unless it has been
      introduced; after that it is. */
  lemma DataIsRelayed(cfg: Config, s: Server, i: nat, r: Request, j: nat)
    requires Arrives(cfg, s, i, r) && CarriesData(r) && j < |s.clients|
    ensures var c, d, s' := s.clients[i], s.clients[j], AfterMessage(cfg, s, i, r);
            var info := Message(UserInfoMsg, c.user.uid, 0, User(c.user.(token := "", guid := "")));
            var data := Message(r.kind, c.user.uid, r.streamid, Octets(r.buffer[..r.len]));
            && SameMembers(s, s')
            && (j != i ==> Sent(d, s'.clients[j], When(!c.initialized, [info])
                                + When(Registered(s.clients, c.user.uid, r.streamid).Some? && d.receiving, [data])))
            && (j == i ==> s'.clients[i].initialized && NoDataAdded(c.log, s'.clients[i].log)
                           && (c.initialized ==> s'.clients[i] == Reported(c, r.dropping)))
  {
    HandledThus(cfg, s, i, r);
    FoundAt(s.clients, i);
    DataHandled(cfg, s.(clients := AllBefore(s, i, r)), i, r);
    DataRelayed(AllBefore(s, i, r), i, r, j);
  }

  lemma NewcomerShown(cs: seq<Client>, i: nat, r: Request)
    requires i < |cs| && r.len <= |r.buffer| && !cs[i].initialized
    ensures Sent(cs[i].(initialized := true), RelayData(cs, i, r)[i], Introduction(cs, i, |cs|))
  {
  }

  /** In every reachable state: with its first data a client is shown all clients as they are and all their streams as
      they are stored, in order, nothing else and nothing twice but its own record. */
  lemma IntroductionIsComplete(cfg: Config, s: Server, i: nat, r: Request)
    requires Arrives(cfg, s, i, r) && CarriesData(r) && !s.clients[i].initialized
    ensures var c, s', cs := s.clients[i], AfterMessage(cfg, s, i, r), AllBefore(s, i, r);
            var own := Message(UserInfoMsg, c.user.uid, 0, User(c.user.(token := "", guid := "")));
            |s'.clients| == |s.clients|
            && exists ms :: Sent(cs[i].(initialized := true), s'.clients[i], ms) && PresentsWithEcho(cs, own, ms)
  {
    var cs := AllBefore(s, i, r);
    HandledThus(cfg, s, i, r);
    DataHandled(cfg, s.(clients := cs), i, r);
    NewcomerShown(cs, i, r);
    IntroductionPresents(cs, i);
  }

  /** The log has grown by no data but this message, last. */
  predicate OnlyDataIs(log: seq<Message>, log': seq<Message>, data: Message) {
    && log' != [] && log'[|log'| - 1] == data
    && multiset(log')[data] == multiset(log)[data] + 1
    && NoDataAdded(log, log'[..|log'| - 1])
  }

  lemma LastOfSent(log: seq<Message>, news: seq<Message>, data: Message)
    requires IsData(data) && forall k :: 0 <= k < |news| ==> !IsData(news[k])
    ensures OnlyDataIs(log, log + (news + [data]), data) && NoDataAdded(log, log + (news + []))
  {
    assert log + (news + [data]) == log + news + [data];
    assert (log + news + [data])[..|log + news|] == log + news;
    assert data !in multiset(news);
  }

  /** So, in every reachable state, what a listener other than the sender is sent last is the data of a registered
      stream, and it has been sent that once more than before; everybody else has been sent no data at all. */
  lemma DataComesLast(cfg: Config, s: Server, i: nat, r: Request, j: nat)
    requires Arrives(cfg, s, i, r) && CarriesData(r) && j < |s.clients|
    requires Registered(s.clients, s.clients[i].user.uid, r.streamid).Some?
    ensures |AfterMessage(cfg, s, i, r).clients| == |s.clients|
    ensures var log, log' := s.clients[j].log, AfterMessage(cfg, s, i, r).clients[j].log;
            var data := Message(r.kind, s.clients[i].user.uid, r.streamid, Octets(r.buffer[..r.len]));
            if j != i && s.clients[j].receiving then OnlyDataIs(log, log', data) else NoDataAdded(log, log')
  {
    var c, log := s.clients[i], s.clients[j].log;
    var info := Message(UserInfoMsg, c.user.uid, 0, User(c.user.(token := "", guid := "")));
    var data := Message(r.kind, c.user.uid, r.streamid, Octets(r.buffer[..r.len]));
    DataIsRelayed(cfg, s, i, r, j);
    LastOfSent(log, When(!c.initialized, [info]), data);
  }

  // ---------------------------------------------------------------- registrations

  /** Too many timestamps of vehicle registrations lie within the interval. */
  predicate Crowded(cfg: Config, c: Client, now: int) {
    && cfg.spawnInterval != 0 && cfg.maxSpawnRate != 0
    && |set k | 0 <= k < |c.stamps| && c.stamps[k] >= now - cfg.spawnInterval| > cfg.maxSpawnRate
  }

  predicate TypeIsVehicle(buffer: seq<Octet>) {
    |buffer| >= 4 && buffer[..4] == [0, 0, 0, 0]
  }

  /** From octet 16 on there is a string of printable characters that are not all blanks. */
  ghost predicate HoldsGoodName(buffer: seq<Octet>) {
    exists end :: NameEnds(buffer, end)
  }

  predicate NameEnds(buffer: seq<Octet>, end: nat) {
    && 16 <= end < |buffer| && buffer[end] == 0
    && (forall k :: 16 <= k < end ==> 0x20 <= buffer[k] <= 0x7E)
    && (exists k :: 16 <= k < end && buffer[k] != 0x20)
  }

  /** What a registration may be refused for. */
  ghost predicate Refused(cfg: Config, c: Client, r: Request) {
    || |c.streams| >= cfg.maxVehicles + 2
    || (TypeIsVehicle(r.buffer) && (Crowded(cfg, c, r.now) || !HoldsGoodName(r.buffer)))
  }

  lemma {:induction false} StringEnds(octets: seq<Octet>, n: nat)
    requires n < |octets| && octets[n] == 0 && forall k :: 0 <= k < n ==> octets[k] != 0
    ensures CString(octets) == octets[..n]
  {
    if n > 0 {
      StringEnds(octets[1..], n - 1);
      assert octets[..n] == [octets[0]] + octets[1..][..n - 1];
    }
  }

  lemma {:induction false} FirstZero(octets: seq<Octet>) returns (n: nat)
    requires 0 in octets
    ensures n < |octets| && octets[n] == 0 && forall k :: 0 <= k < n ==> octets[k] != 0
  {
    if octets[0] == 0 {
      n := 0;
    } else {
      assert octets == [octets[0]] + octets[1..];
      n := FirstZero(octets[1..]);
      n := n + 1;
    }
  }

  lemma NameIsGood(buffer: seq<Octet>)
    requires |buffer| >= 16 && 0 in buffer[16..]
    ensures ValidVehicleName(CString(buffer[16..])) <==> HoldsGoodName(buffer)
  {
    var n := FirstZero(buffer[16..]);
    var name := buffer[16..][..n];
    StringEnds(buffer[16..], n);
    assert forall k :: 0 <= k < n ==> name[k] == buffer[16 + k];
    if ValidVehicleName(name) {
      var k :| 0 <= k < n && name[k] != 0x20;
      assert buffer[16 + k] != 0x20;
      forall k | 16 <= k < 16 + n ensures 0x20 <= buffer[k] <= 0x7E {
        assert Printable(name[k - 16]);
      }
      assert NameEnds(buffer, 16 + n);
    }
    if HoldsGoodName(buffer) {
      var end :| NameEnds(buffer, end);
      assert end == 16 + n;
      forall k | 0 <= k < n ensures Printable(name[k]) {
        assert 0x20 <= buffer[16 + k] <= 0x7E;
      }
      var k :| 16 <= k < end && buffer[k] != 0x20;
      assert name[k - 16] != 0x20;
    }
  }

  /** The limiter warns when more than seven tenths of its rate are used up. */
  predicate Warned(cfg: Config, c: Client, r: Request) {
    && TypeIsVehicle(r.buffer) && cfg.spawnInterval != 0 && cfg.maxSpawnRate > 0
    && var n := |set k | 0 <= k < |c.stamps| && c.stamps[k] >= r.now - cfg.spawnInterval|;
       (n as real) / (cfg.maxSpawnRate as real) > 0.7
  }

  lemma VerdictIs(cfg: Config, c: Client, r: Request)
    requires WellSized(r)
    ensures TypeIsVehicle(r.buffer) <==> IsVehicle(r.buffer)
    ensures SpawnVerdict(cfg, c, r).allowed <==> !(TypeIsVehicle(r.buffer) && Crowded(cfg, c, r.now))
    ensures SpawnVerdict(cfg, c, r).warned <==> Warned(cfg, c, r)
  {
    var since := r.now - cfg.spawnInterval;
    SpawnRate.RecentCounted(c.stamps, since);
    SpawnRate.Tenths(|SpawnRate.RecentPlaces(c.stamps, since)|, cfg.maxSpawnRate);
    if IsVehicle(r.buffer) {
      assert r.buffer[..4] == [0, 0, 0, 0];
    }
    if TypeIsVehicle(r.buffer) {
      assert forall k :: 0 <= k < 4 ==> r.buffer[k] == r.buffer[..4][k];
    }
  }

  lemma RefusedFor(cfg: Config, c: Client, r: Request)
    requires WellSized(r) && r.kind.StreamRegister? && !Undefined(cfg, c, r)
    ensures RegisterResult(cfg, c, r).Accepted? <==> !Refused(cfg, c, r)
    ensures RegisterResult(cfg, c, r).TooManyStreams? <==> |c.streams| >= cfg.maxVehicles + 2
  {
    VerdictIs(cfg, c, r);
    if ReadsName(cfg, c, r) {
      NameIsGood(r.buffer);
    }
  }

  /** The records of the sender of a registration: one more spawn check, if it is of a vehicle. */
  function Checked(c: Client, c': Client, r: Request): Client {
    c.(stamps := c'.stamps,
       spawnChecks := if TypeIsVehicle(r.buffer) then c.spawnChecks + [(r.now, r.later)] else c.spawnChecks)
  }

  lemma SpawnCheckTold(cfg: Config, cs: seq<Client>, i: nat, r: Request, j: nat)
    requires DistinctUids(Users(cs)) && i < |cs| && j < |cs| && WellSized(r) && cs[i].receiving
    ensures var c' := SpawnChecked(cfg, cs, i, r)[j];
            Sent(if j == i then Checked(cs[i], c', r) else cs[j], c',
                 When(j == i && Warned(cfg, cs[i], r), [SERVER_LINE]))
  {
    VerdictIs(cfg, cs[i], r);
    assert Users(cs)[i].uid == Users(cs)[j].uid <==> i == j;
  }

  /** The client has one stream more, or another under the same id: stored as the first 272 octets, told as the
      payload. */
  function Registering(c: Client, sid: nat, data: seq<Octet>, len: nat): Client
    requires 272 <= |data| && len <= |data|
  {
    c.(streams := c.streams[sid := data[..272]], announced := c.announced[sid := Padded(data[..len])])
  }

  /** Three more vehicles, or fewer, and the limit is reached. */
  predicate NearTheEnd(cfg: Config, streams: nat) {
    streams >= cfg.maxVehicles + 2 - 3 && streams > 2
  }

  lemma StreamAddedTold(cfg: Config, cs: seq<Client>, i: nat, r: Request, j: nat)
    requires DistinctUids(Users(cs)) && i < |cs| && j < |cs| && WellSized(r) && cs[i].receiving
    ensures var c', data := AddStream(cfg, cs, i, r)[j], r.buffer[143 := 0];
            var m := Message(StreamRegister, cs[i].user.uid, r.streamid, Octets(data[..r.len]));
            && (j != i ==> Sent(cs[j], c', When(cs[j].receiving, [m])))
            && (j == i ==> Sent(Registering(cs[i], r.streamid, data, r.len), c',
                                When(NearTheEnd(cfg, |c'.streams|), [SERVER_LINE])))
  {
    assert Users(cs)[i].uid == Users(cs)[j].uid <==> i == j;
  }

  lemma RegistrationAccepted(cfg: Config, cs: seq<Client>, i: nat, r: Request, j: nat)
    requires DistinctUids(Users(cs)) && i < |cs| && j < |cs| && WellSized(r) && cs[i].receiving
    ensures var c, c', data := cs[i], AddStream(cfg, SpawnChecked(cfg, cs, i, r), i, r)[j], r.buffer[143 := 0];
            var m := Message(StreamRegister, c.user.uid, r.streamid, Octets(data[..r.len]));
            && (j != i ==> Sent(cs[j], c', When(cs[j].receiving, [m])))
            && (j == i ==> Sent(Registering(Checked(c, c', r), r.streamid, data, r.len), c',
                                When(Warned(cfg, c, r), [SERVER_LINE])
                                + When(NearTheEnd(cfg, |c'.streams|), [SERVER_LINE])))
  {
    var cs1 := SpawnChecked(cfg, cs, i, r);
    SpawnCheckTold(cfg, cs, i, r, i);
    SpawnCheckTold(cfg, cs, i, r, j);
    assert Users(cs1) == Users(cs);
    StreamAddedTold(cfg, cs1, i, r, j);
  }

  lemma SameReasons(cfg: Config, s: Server, i: nat, r: Request)
    requires i < |s.clients| && WellSized(r)
    ensures var c, c1 := s.clients[i], AllBefore(s, i, r)[i];
            && (Refused(cfg, c1, r) <==> Refused(cfg, c, r)) && (Warned(cfg, c1, r) <==> Warned(cfg, c, r))
            && (Undefined(cfg, c1, r) <==> Undefined(cfg, c, r)) && c1.streams == c.streams && c1.user == c.user
            && c1.receiving == c.receiving
  {
  }

  lemma RegistrationHandled(cfg: Config, s: Server, i: nat, r: Request)
    requires WellSized(r) && Addressed(r) && i < |s.clients| && r.kind.StreamRegister?
    ensures Handle(cfg, s, i, r) == RegisterStream(cfg, s, i, r)
    ensures RegisterResult(cfg, s.clients[i], r).Accepted? ==>
              RegisterStream(cfg, s, i, r)
              == s.(clients := AddStream(cfg, SpawnChecked(cfg, s.clients, i, r), i, r))
  {
  }

  /** In every reachable state: a registration that is not refused is stored, its name terminated, and sent with the
      same change to everybody else who listens, once; its sender is warned about the limits it is close to. */
  lemma RegistrationIsRelayed(cfg: Config, s: Server, i: nat, r: Request, j: nat)
    requires Arrives(cfg, s, i, r) && r.kind.StreamRegister? && j < |s.clients|
    requires !Refused(cfg, s.clients[i], r)
    ensures var c, s', data := s.clients[i], AfterMessage(cfg, s, i, r), r.buffer[143 := 0];
            var m := Message(StreamRegister, c.user.uid, r.streamid, Octets(data[..r.len]));
            && SameMembers(s, s')
            && (j != i ==> Sent(s.clients[j], s'.clients[j], When(s.clients[j].receiving, [m])))
            && (j == i ==> var c' := s'.clients[i];
                           Sent(Registering(Checked(Before(s, i, r, i), c', r), r.streamid, data, r.len), c',
                                When(Warned(cfg, c, r), [SERVER_LINE])
                                + When(NearTheEnd(cfg, |c'.streams|), [SERVER_LINE])))
  {
    var cs := AllBefore(s, i, r);
    HandledThus(cfg, s, i, r);
    SameReasons(cfg, s, i, r);
    RefusedFor(cfg, cs[i], r);
    RegistrationHandled(cfg, s.(clients := cs), i, r);
    RegistrationAccepted(cfg, cs, i, r, j);
  }

  /** What the sender of a refused registration is told before everybody is. */
  function Reasons(cfg: Config, c: Client, r: Request): seq<Message> {
    When(|c.streams| >= cfg.maxVehicles + 2 || Warned(cfg, c, r), [SERVER_LINE])
  }

  /** Its records: there is no spawn check when there are too many streams. */
  function Dismissed(cfg: Config, c: Client, c': Client, r: Request): Client {
    if |c.streams| >= cfg.maxVehicles + 2 then c else Checked(c, c', r)
  }

  /** The connected clients right before the sender of a refused registration leaves. */
  function ToldOff(cfg: Config, cs: seq<Client>, i: nat, r: Request): (cs': seq<Client>)
    requires i < |cs| && WellSized(r)
    ensures |cs'| == |cs|
  {
    Tell(if |cs[i].streams| >= cfg.maxVehicles + 2 then Tell(cs, ListeningUid(cs[i].user.uid), NOTICE)
         else SpawnChecked(cfg, cs, i, r), Listening, NOTICE)
  }

  lemma RefusalTold(cfg: Config, cs: seq<Client>, i: nat, r: Request, j: nat)
    requires DistinctUids(Users(cs)) && i < |cs| && j < |cs| && WellSized(r) && cs[i].receiving
    ensures var c, c', told := cs[i], ToldOff(cfg, cs, i, r)[j], When(cs[j].receiving, [SERVER_LINE]);
            if j == i then Sent(Dismissed(cfg, c, c', r), c', Reasons(cfg, c, r) + [SERVER_LINE])
            else Sent(cs[j], c', told)
  {
    assert Users(cs)[i].uid == Users(cs)[j].uid <==> i == j;
    SpawnCheckTold(cfg, cs, i, r, j);
  }

  lemma RefusalHandled(cfg: Config, s: Server, i: nat, r: Request)
    requires i < |s.clients| && WellSized(r) && r.kind.StreamRegister? && !Undefined(cfg, s.clients[i], r)
    requires Refused(cfg, s.clients[i], r)
    ensures RegisterStream(cfg, s, i, r)
         == Disconnect(s.(clients := ToldOff(cfg, s.clients, i, r)), s.clients[i].user.uid)
  {
    RefusedFor(cfg, s.clients[i], r);
  }

  lemma ToldOffUsers(cfg: Config, cs: seq<Client>, i: nat, r: Request)
    requires i < |cs| && WellSized(r)
    ensures Users(ToldOff(cfg, cs, i, r)) == Users(cs)
  {
  }

  lemma SentOn(a: Client, b: Client, c: Client, ms: seq<Message>, m: Message)
    requires Sent(a, b, ms) && Sent(b, c, [m])
    ensures Sent(a, c, ms + [m])
  {
    assert a.log + ms + [m] == a.log + (ms + [m]);
  }

  lemma RefusedLeaves(cfg: Config, s: Server, i: nat, r: Request, j: nat)
    requires DistinctUids(Users(s.clients)) && i < |s.clients| && j < |s.clients| && WellSized(r)
    requires s.clients[i].receiving
    ensures var c, s' := s.clients[i], Disconnect(s.(clients := ToldOff(cfg, s.clients, i, r)), s.clients[i].user.uid);
            var leave := Message(UserLeave, c.user.uid, 0, Text);
            && Departed(s, s', i)
            && var d' := Later(s, s', i, j);
               if j == i then Sent(Dismissed(cfg, c, d', r), d', Reasons(cfg, c, r) + [SERVER_LINE] + [leave])
               else Sent(s.clients[j], d', When(s.clients[j].receiving, [SERVER_LINE]) + [leave])
  {
    var c, told := s.clients[i], ToldOff(cfg, s.clients, i, r);
    var s1, leave := s.(clients := told), Message(UserLeave, c.user.uid, 0, Text);
    ToldOffUsers(cfg, s.clients, i, r);
    assert Users(told)[i] == told[i].user && Users(s.clients)[i] == c.user;
    RefusalTold(cfg, s.clients, i, r, j);
    LeaveTold(s1, i);
    var s' := Disconnect(s1, c.user.uid);
    assert Departed(s, s', i) && Later(s1, s', i, j) == Later(s, s', i, j);
    if j == i {
      SentOn(Dismissed(cfg, c, told[j], r), told[j], Later(s, s', i, j), Reasons(cfg, c, r) + [SERVER_LINE], leave);
    } else {
      SentOn(s.clients[j], told[j], Later(s, s', i, j), When(s.clients[j].receiving, [SERVER_LINE]), leave);
    }
  }

  /** In every reachable state: the sender of a refused registration is gone. Everybody is sent one LEAVE, and before
      that, who listens, one line of the server; the sender is told its reasons before. */
  lemma RegistrationIsRefused(cfg: Config, s: Server, i: nat, r: Request, j: nat)
    requires Arrives(cfg, s, i, r) && r.kind.StreamRegister? && j < |s.clients|
    requires Refused(cfg, s.clients[i], r)
    ensures var c, s' := s.clients[i], AfterMessage(cfg, s, i, r);
            var leave := Message(UserLeave, c.user.uid, 0, Text);
            && Departed(s, s', i)
            && var d' := Later(s, s', i, j);
               if j == i then Sent(Dismissed(cfg, Before(s, i, r, i), d', r), d',
                                   Reasons(cfg, c, r) + [SERVER_LINE] + [leave])
               else Sent(s.clients[j], d', When(s.clients[j].receiving, [SERVER_LINE]) + [leave])
  {
    var cs := AllBefore(s, i, r);
    var s1 := s.(clients := cs);
    HandledThus(cfg, s, i, r);
    SameReasons(cfg, s, i, r);
    RegistrationHandled(cfg, s1, i, r);
    RefusalHandled(cfg, s1, i, r);
    RefusedLeaves(cfg, s1, i, r, j);
    DepartedAlike(s, s1, AfterMessage(cfg, s, i, r), i, j);
  }

  lemma DepartedAlike(s: Server, s1: Server, s': Server, i: nat, j: nat)
    requires s1 == s.(clients := s1.clients) && |s1.clients| == |s.clients| && i < |s.clients| && j < |s.clients|
    requires s1.clients[i].user == s.clients[i].user && Departed(s1, s', i)
    ensures Departed(s, s', i) && Later(s, s', i, j) == Later(s1, s', i, j)
  {
  }

  // ---------------------------------------------------------------- single messages

  lemma StreamRemoved(cs: seq<Client>, i: nat, r: Request, j: nat)
    requires i < |cs| && j < |cs| && r.len <= |r.buffer| && cs[i].announced.Keys == cs[i].streams.Keys
    ensures var c := cs[i];
            var m := Message(StreamUnregister, c.user.uid, r.streamid, Octets(r.buffer[..r.len]));
            Sent(if j == i then c.(streams := c.streams - {r.streamid}, announced := c.announced - {r.streamid})
                 else cs[j], RemoveStream(cs, i, r)[j], When(r.streamid in c.streams && cs[j].receiving, [m]))
  {
    var c := cs[i];
    if r.streamid !in c.streams {
      assert r.streamid !in c.announced.Keys;
      assert c.streams - {r.streamid} == c.streams && c.announced - {r.streamid} == c.announced;
    }
  }

  /** An existing stream ends: it is gone from the sender's table, and everybody who listens, the sender too, is sent
      the message once. A stream that does not exist leaves everything as it is. */
  lemma StreamEnds(cfg: Config, s: Server, i: nat, r: Request, j: nat)
    requires Arrives(cfg, s, i, r) && r.kind.StreamUnregister? && j < |s.clients|
    ensures var c, s' := s.clients[i], AfterMessage(cfg, s, i, r);
            var m := Message(StreamUnregister, c.user.uid, r.streamid, Octets(r.buffer[..r.len]));
            var news := When(r.streamid in c.streams && s.clients[j].receiving, [m]);
            && SameMembers(s, s')
            && Sent(if j == i then Before(s, i, r, i).(streams := c.streams - {r.streamid},
                                                       announced := c.announced - {r.streamid})
                    else s.clients[j], s'.clients[j], news)
  {
    HandledThus(cfg, s, i, r);
    assert ClientOk(cfg, s.clients[i]) by { ReachableInv(cfg, s); }
    StreamRemoved(AllBefore(s, i, r), i, r, j);
  }

  lemma ResultForwarded(cs: seq<Client>, uid: nat, r: Request, j: nat)
    requires DistinctUids(Users(cs)) && j < |cs| && WellSized(r)
    ensures var m := Message(StreamRegisterResult, uid, r.streamid, Octets(r.buffer[..272]));
            Sent(cs[j], ForwardResult(cs, uid, r)[j], When(cs[j].user.uid == OriginUid(r.buffer), [m]))
  {
    var at := Find(cs, OriginUid(r.buffer));
    FoundAt(cs, j);
    assert at >= 0 ==> Users(cs)[at] == cs[at].user;
  }

  lemma ResultHandled(cfg: Config, s: Server, i: nat, r: Request)
    requires WellSized(r) && Addressed(r) && i < |s.clients| && r.kind.StreamRegisterResult?
    ensures Handle(cfg, s, i, r) == s.(clients := ForwardResult(s.clients, s.clients[i].user.uid, r))
  {
  }

  /** The answer to a registration goes, as the 272 octets of a registration, to the client with the id in octets 8
      to 11, lowest first, whether it listens or not; nobody else notices. */
  lemma ResultGoesToOwner(cfg: Config, s: Server, i: nat, r: Request, j: nat)
    requires Arrives(cfg, s, i, r) && r.kind.StreamRegisterResult? && j < |s.clients|
    ensures var uid, s', b := s.clients[i].user.uid, AfterMessage(cfg, s, i, r), r.buffer;
            var owner := (b[8] as int) + 256 * ((b[9] as int) + 256 * ((b[10] as int) + 256 * (b[11] as int)));
            var m := Message(StreamRegisterResult, uid, r.streamid, Octets(b[..272]));
            && SameMembers(s, s')
            && Sent(Before(s, i, r, j), s'.clients[j], When(s.clients[j].user.uid == owner, [m]))
  {
    HandledThus(cfg, s, i, r);
    ResultHandled(cfg, s.(clients := AllBefore(s, i, r)), i, r);
    ResultForwarded(AllBefore(s, i, r), s.clients[i].user.uid, r, j);
  }

  /** A private line comes back to its sender, without the four octets of the addressee; nobody else notices. */
  lemma PrivateLineReturns(cfg: Config, s: Server, i: nat, r: Request, j: nat)
    requires Arrives(cfg, s, i, r) && r.kind.Utf8PrivateChat? && j < |s.clients|
    ensures var uid, s' := s.clients[i].user.uid, AfterMessage(cfg, s, i, r);
            && 4 <= r.len <= |r.buffer| && SameMembers(s, s')
            && Sent(Before(s, i, r, j), s'.clients[j],
                    When(j == i, [Message(Utf8PrivateChat, uid, r.streamid, Octets(r.buffer[4..r.len]))]))
  {
    HandledThus(cfg, s, i, r);
    FoundAt(s.clients, i);
  }

  /** Messages of all other types are not relayed: only the sender may hear about its own connection. */
  lemma OthersAreIgnored(cfg: Config, s: Server, i: nat, r: Request)
    requires Arrives(cfg, s, i, r) && !CarriesData(r)
    requires !r.kind.StreamRegister? && !r.kind.StreamRegisterResult? && !r.kind.StreamUnregister?
    requires !r.kind.UserLeave? && !r.kind.Utf8Chat? && !r.kind.Utf8PrivateChat?
    ensures AfterMessage(cfg, s, i, r) == s.(clients := s.clients[i := Reported(s.clients[i], r.dropping)])
  {
    HandledThus(cfg, s, i, r);
    assert AllBefore(s, i, r) == s.clients[i := Reported(s.clients[i], r.dropping)];
  }

  /** Whoever takes its leave is gone, and everybody is sent one LEAVE. */
  lemma LeavingIsTold(cfg: Config, s: Server, i: nat, r: Request, j: nat)
    requires Arrives(cfg, s, i, r) && r.kind.UserLeave? && j < |s.clients|
    ensures var uid, s' := s.clients[i].user.uid, AfterMessage(cfg, s, i, r);
            && Departed(s, s', i)
            && Sent(Before(s, i, r, j), Later(s, s', i, j), [Message(UserLeave, uid, 0, Text)])
  {
    var s1 := s.(clients := AllBefore(s, i, r));
    HandledThus(cfg, s, i, r);
    LeaveTold(s1, i);
    assert s1.clients[j] == Before(s, i, r, j) && s1.clients[i].user == s.clients[i].user;
  }

  lemma DroppedThus(cfg: Config, s: Server, uid: nat)
    ensures Next(cfg, s, Drop(uid)) == Disconnect(s, uid)
  {
  }

  /** The same for a client that some thread reports. */
  lemma DroppingIsTold(cfg: Config, s: Server, i: nat, j: nat)
    requires Reachable(cfg, s) && i < |s.clients| && j < |s.clients|
    ensures var uid := s.clients[i].user.uid;
            var s' := Next(cfg, s, Drop(uid));
            && Departed(s, s', i)
            && Sent(s.clients[j], Later(s, s', i, j), [Message(UserLeave, uid, 0, Text)])
  {
    assert DistinctUids(Users(s.clients)) by { ReachableInv(cfg, s); }
    DroppedThus(cfg, s, s.clients[i].user.uid);
    LeaveTold(s, i);
  }

  /** Reporting or hearing from somebody who is not connected changes nothing. */
  lemma StrangersChangeNothing(cfg: Config, s: Server, uid: nat, r: Request)
    requires WellSized(r) && forall i :: 0 <= i < |s.clients| ==> s.clients[i].user.uid != uid
    ensures Enabled(cfg, s, Arrive(uid, r)) && Next(cfg, s, Arrive(uid, r)) == s && Next(cfg, s, Drop(uid)) == s
  {
    forall i | 0 <= i < |s.clients| ensures Users(s.clients)[i].uid != uid {
      assert s.clients[i].user.uid != uid;
    }
  }
}
