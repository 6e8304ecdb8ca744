/** Messages of which the language does not say what the server does: exactly which, and that they arise. */
module RelayUndefined {
  import opened RoRnet
  import opened Relay
  import opened RelayRuns
  import opened RelayTheorems
  import Utf8

  /** How many octets of a private line are copied into the queue entry: the difference is unsigned. */
  function CopiedLength(len: nat): nat
    requires len < UINT32_LIMIT
  {
    (len + UINT32_LIMIT - ADDRESS_SIZE) % UINT32_LIMIT
  }

  /** No zero ends the string that starts there. */
  predicate Endless(buffer: seq<Octet>, from: nat) {
    forall i :: from <= i < |buffer| ==> buffer[i] != 0
  }

  lemma EndlessMeansNoZero(buffer: seq<Octet>, from: nat)
    requires from <= |buffer|
    ensures Endless(buffer, from) <==> 0 !in buffer[from..]
  {
    if 0 !in buffer[from..] {
      forall i | from <= i < |buffer| ensures buffer[i] != 0 {
        assert buffer[from..][i - from] == buffer[i];
      }
    }
  }

  /** The sender of the message is connected, and the language promises nothing about handling it. */
  predicate BreaksOff(cfg: Config, s: Server, uid: nat, r: Request)
    requires WellSized(r)
  {
    var i := Find(s.clients, uid);
    i >= 0 && Undefined(cfg, s.clients[i], r)
  }

  /** In every reachable state: a message from a listening client is handled unless it is a private line whose copy
      outgrows a queue entry, a chat line without an end or one that outgrows the sanitiser's buffer, or the
      registration of a vehicle whose name is looked at and has no end. */
  lemma HandledExactly(cfg: Config, s: Server, uid: nat, c: Client, r: Request)
    requires Reachable(cfg, s) && Find(s.clients, uid) >= 0 && c == s.clients[Find(s.clients, uid)]
    requires c.receiving && WellSized(r)
    ensures !Enabled(cfg, s, Arrive(uid, r)) <==>
              || (r.kind.Utf8PrivateChat? && CopiedLength(r.len) > MAX_MESSAGE_LENGTH)
              || (r.kind.Utf8Chat? && (Endless(r.buffer, 0) || Utf8.Bursts([], 0, CString(r.buffer))))
              || (r.kind.StreamRegister? && IsVehicle(r.buffer) && RegisterResult(cfg, c, r) in {BadName, Accepted}
                  && Endless(r.buffer, NAME_OFFSET))
  {
    EndlessMeansNoZero(r.buffer, 0);
    assert r.buffer[0..] == r.buffer;
    EndlessMeansNoZero(r.buffer, NAME_OFFSET);
    Utf8.BurstsExactly(CString(r.buffer));
  }

  /** The copy outgrows the queue entry exactly when the line is too short to name its addressee. */
  lemma ShortLinesOverflow(len: nat)
    requires len <= MAX_MESSAGE_LENGTH
    ensures CopiedLength(len) > MAX_MESSAGE_LENGTH <==> len < ADDRESS_SIZE
    ensures len < ADDRESS_SIZE ==> CopiedLength(len) == UINT32_LIMIT - (ADDRESS_SIZE - len)
  {
  }

  // ---------------------------------------------------------------- examples

  /** A private line without any payload. */
  function EmptyPrivateLine(): Request {
    Request(Utf8PrivateChat, 0, seq(MAX_MESSAGE_LENGTH, _ => 0), 0, false, 0, 0, Answered([]))
  }

  const STRAY_LINE: seq<Octet> := [0xF8, 0x80, 0x80, 0x80, 0x80, 0x80]

  function StrayLine(): Request {
    Request(Utf8Chat, 0, STRAY_LINE + seq(MAX_MESSAGE_LENGTH - 6, _ => 0), 6, false, 0, 0, Answered([]))
  }

  /** A vehicle whose name fills the buffer. */
  function EndlessName(): Request {
    Request(StreamRegister, 1, seq(MAX_MESSAGE_LENGTH, i => if i < NAME_OFFSET then 0 else 0x41), MAX_MESSAGE_LENGTH,
            false, 0, 0, Answered([]))
  }

  lemma {:induction false} CStringEnds(octets: seq<Octet>, rest: seq<Octet>)
    requires Endless(octets, 0) && rest != [] && rest[0] == 0
    ensures CString(octets + rest) == octets
  {
    if octets == [] {
      assert octets + rest == rest;
    } else {
      assert (octets + rest)[1..] == octets[1..] + rest;
      CStringEnds(octets[1..], rest);
    }
  }

  lemma StrayLineOverruns()
    ensures Utf8.Overruns(CString(StrayLine().buffer))
  {
    CStringEnds(STRAY_LINE, seq(MAX_MESSAGE_LENGTH - 6, _ => 0));
    Utf8.OverrunsOccur();
  }

  lemma EndlessNameIsRead(cfg: Config, c: Client)
    requires c.streams == map[] && c.stamps == [] && cfg.maxSpawnRate >= 0
    ensures Undefined(cfg, c, EndlessName())
  {
    var r := EndlessName();
    assert Endless(r.buffer, NAME_OFFSET);
    EndlessMeansNoZero(r.buffer, NAME_OFFSET);
    assert IsVehicle(r.buffer);
  }

  lemma StrayLineIsUndefined(cfg: Config, c: Client)
    ensures Undefined(cfg, c, StrayLine())
  {
    StrayLineOverruns();
  }

  /** A message of the client with this id, which listens, is not handled for that reason. */
  predicate Unhandled(cfg: Config, s: Server, uid: nat, r: Request) {
    && WellSized(r) && BreaksOff(cfg, s, uid, r) && !Enabled(cfg, s, Arrive(uid, r))
    && s.clients[Find(s.clients, uid)].receiving
  }

  lemma UndefinedIsUnhandled(cfg: Config, s: Server, uid: nat, r: Request)
    requires WellSized(r) && Find(s.clients, uid) >= 0 && s.clients[Find(s.clients, uid)].receiving
    requires Undefined(cfg, s.clients[Find(s.clients, uid)], r)
    ensures Unhandled(cfg, s, uid, r)
  {
  }

  lemma FirstIsNew(cfg: Config, user: UserInfo)
    requires cfg.maxClients >= 2
    ensures var s := TwoListeners(cfg, user); |s.clients| == 2 && s.clients[0].stamps == []
  {
    var s1 := CreateClient(cfg, STARTED, user, false, true);
    FirstJoined(cfg, user);
    JoinedResult(cfg, STARTED, user);
    JoinedResult(cfg, s1, user);
  }

  /** In a state with two listeners that is reached on every server with room for two, each of the three messages
      of the first client is one of these, the shortest private line among them. */
  lemma UndefinedOccurs(cfg: Config, user: UserInfo)
    requires cfg.maxClients >= 2
    ensures var s := TwoListeners(cfg, user);
            && Reachable(cfg, s) && EmptyPrivateLine().len == 0
            && Unhandled(cfg, s, 1, EmptyPrivateLine()) && Unhandled(cfg, s, 1, StrayLine())
            && (cfg.maxSpawnRate >= 0 ==> Unhandled(cfg, s, 1, EndlessName()))
  {
    var s := TwoListeners(cfg, user);
    TwoListenersState(cfg, user);
    FirstOfTwo(cfg, user);
    FirstIsNew(cfg, user);
    UndefinedIsUnhandled(cfg, s, 1, EmptyPrivateLine());
    StrayLineIsUndefined(cfg, s.clients[0]);
    UndefinedIsUnhandled(cfg, s, 1, StrayLine());
    if cfg.maxSpawnRate >= 0 {
      EndlessNameIsRead(cfg, s.clients[0]);
      UndefinedIsUnhandled(cfg, s, 1, EndlessName());
    }
  }
}
