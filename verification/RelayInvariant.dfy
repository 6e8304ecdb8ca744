/** What every step of the relay keeps. */
module RelayInvariant {
  import opened RoRnet
  import opened Identity
  import opened Replica
  import opened Relay
  import SpamFilter
  import SpawnRate

  // ---------------------------------------------------------------- replication

  /** The registration the server holds for a stream. */
  function Registered(cs: seq<Client>, uid: nat, sid: nat): Option<Registration> {
    var i := Find(cs, uid);
    if i >= 0 && sid in cs[i].streams then Some(cs[i].streams[sid]) else None
  }

  /** The same as its last REGISTER message told it. */
  function Announced(cs: seq<Client>, uid: nat, sid: nat): Option<Registration> {
    var i := Find(cs, uid);
    if i >= 0 && sid in cs[i].announced then Some(cs[i].announced[sid]) else None
  }

  /** What was shown is the truth; before the introduction things may still be missing. */
  predicate Tracks<T(==)>(seen: Option<T>, truth: Option<T>, exact: bool) {
    seen == truth || (!exact && seen.None?)
  }

  /** The same for two forms of the truth. */
  predicate TracksEither<T(==)>(seen: Option<T>, truth: Option<T>, told: Option<T>, exact: bool) {
    seen == truth || seen == told || (!exact && seen.None?)
  }

  ghost predicate MirrorsUsers(cs: seq<Client>, r: Client) {
    forall uid :: Tracks(UserSeen(Replay(r.log), uid), Member(Users(cs), uid), r.initialized)
  }

  /** Streams of all other clients, each as it is stored (late introductions send that) or as it was
      announced. A client that does not listen yet has been shown none. */
  ghost predicate MirrorsStreams(cs: seq<Client>, r: Client) {
    && (forall uid, sid :: uid != r.user.uid ==>
          TracksEither(StreamSeen(Replay(r.log), uid, sid),
                       Registered(cs, uid, sid), Announced(cs, uid, sid), r.initialized))
    && (!r.receiving ==> Replay(r.log).streams == map[])
  }

  // ---------------------------------------------------------------- single clients

  /** The NETQUALITY messages in the log alternate between 0 and 1, the last one is `state`, and before
      the first one the state was `initial`; there are none if that is neither 0 nor 1. */
  predicate QualityAlternates(log: seq<Message>, initial: int, state: int) {
    if log == [] then state == initial
    else
      var init, m := log[..|log| - 1], log[|log| - 1];
      if m.kind.NetQuality? then
        m.payload == Quality(state) && (state == 0 || state == 1) && QualityAlternates(init, initial, 1 - state)
      else QualityAlternates(init, initial, state)
  }

  predicate IsData(m: Message) {
    m.kind.StreamData? || m.kind.StreamDataDiscardable?
  }

  predicate OwnInfo(m: Message, self: nat) {
    m.kind.UserInfoMsg? && m.source == self
  }

  /** A client is sent its own USER_INFO when it is introduced, and only then. */
  predicate Introduced(log: seq<Message>, self: nat) {
    exists i :: 0 <= i < |log| && OwnInfo(log[i], self)
  }

  /** From the introduction on, stream data is sent only for streams whose REGISTER was sent
      before, with no UNREGISTER and no LEAVE of the owner in between. */
  predicate DataBacked(log: seq<Message>, self: nat) {
    log == [] ||
    var init, m := log[..|log| - 1], log[|log| - 1];
    DataBacked(init, self) &&
    (IsData(m) && Introduced(init, self) ==> StreamSeen(Replay(init), m.source, m.streamid).Some?)
  }

  predicate LogOk(log: seq<Message>, self: nat, introduced: bool) {
    (Introduced(log, self) <==> introduced) && DataBacked(log, self)
  }

  predicate ClientOk(cfg: Config, c: Client) {
    && |c.streams| <= cfg.maxVehicles + NON_VEHICLE_STREAMS
    && c.announced.Keys == c.streams.Keys
    && (c.initialized ==> c.receiving)
    && LogOk(c.log, c.user.uid, c.initialized)
    && QualityAlternates(c.log, cfg.freshMemory(c.user.uid), c.dropState)
    && c.receiver.Running? && c.broadcaster.Running?
    && c.stamps == SpawnRate.Held(c.spawnChecks, |c.spawnChecks|, cfg.spawnInterval, cfg.maxSpawnRate)
    && c.filter == (if SpamFilter.IsActive(cfg.spam) then SpamFilter.After(cfg.spam, c.said) else SpamFilter.UNUSED)
  }

  ghost predicate Sound(cfg: Config, cs: seq<Client>) {
    && DistinctUids(Users(cs))
    && DistinctColours(Users(cs))
    && (forall i :: 0 <= i < |cs| ==> ClientOk(cfg, cs[i]))
    && (forall i :: 0 <= i < |cs| ==> MirrorsUsers(cs, cs[i]))
    && (forall i :: 0 <= i < |cs| ==> MirrorsStreams(cs, cs[i]))
  }

  lemma IntroducedAppend(log: seq<Message>, self: nat, m: Message)
    ensures Introduced(log + [m], self) <==> Introduced(log, self) || OwnInfo(m, self)
  {
    var log' := log + [m];
    assert log'[|log|] == m;
    if Introduced(log, self) {
      var i :| 0 <= i < |log| && OwnInfo(log[i], self);
      assert log'[i] == log[i];
    }
  }

  lemma LogAppend(log: seq<Message>, self: nat, introduced: bool, m: Message)
    requires LogOk(log, self, introduced)
    requires IsData(m) && introduced ==> StreamSeen(Replay(log), m.source, m.streamid).Some?
    ensures LogOk(log + [m], self, introduced || OwnInfo(m, self))
  {
    IntroducedAppend(log, self, m);
    assert (log + [m])[..|log|] == log;
  }

  lemma QualityAppend(log: seq<Message>, initial: int, state: int, m: Message)
    requires if m.kind.NetQuality?
             then m.payload == Quality(state) && (state == 0 || state == 1) && QualityAlternates(log, initial, 1 - state)
             else QualityAlternates(log, initial, state)
    ensures QualityAlternates(log + [m], initial, state)
  {
    assert (log + [m])[..|log|] == log;
  }

  /** Neither network quality nor stream data. */
  predicate Ordinary(ms: seq<Message>) {
    forall i :: 0 <= i < |ms| ==> !ms[i].kind.NetQuality? && !IsData(ms[i])
  }

  lemma {:induction false} LogAppendMany(log: seq<Message>, ms: seq<Message>, self: nat, introduced: bool)
    requires LogOk(log, self, introduced) && Ordinary(ms)
    ensures LogOk(log + ms, self, introduced || Introduced(ms, self))
  {
    if ms == [] {
      assert log + ms == log;
    } else {
      var init, m := ms[..|ms| - 1], ms[|ms| - 1];
      LogAppendMany(log, init, self, introduced);
      LogAppend(log + init, self, introduced || Introduced(init, self), m);
      assert log + ms == (log + init) + [m];
      assert ms == init + [m];
      IntroducedAppend(init, self, m);
    }
  }

  lemma {:induction false} QualityAppendMany(log: seq<Message>, ms: seq<Message>, initial: int, state: int)
    requires QualityAlternates(log, initial, state) && Ordinary(ms)
    ensures QualityAlternates(log + ms, initial, state)
  {
    if ms == [] {
      assert log + ms == log;
    } else {
      var init, m := ms[..|ms| - 1], ms[|ms| - 1];
      QualityAppendMany(log, init, initial, state);
      QualityAppend(log + init, initial, state, m);
      assert log + ms == (log + init) + [m];
    }
  }

  /** A message other than network quality; data only for a stream that has been shown. */
  lemma HeardOk(cfg: Config, c: Client, m: Message)
    requires ClientOk(cfg, c) && !m.kind.NetQuality? && !OwnInfo(m, c.user.uid)
    requires IsData(m) && c.initialized ==> StreamSeen(Replay(c.log), m.source, m.streamid).Some?
    ensures ClientOk(cfg, Told(c, m))
  {
    LogAppend(c.log, c.user.uid, c.initialized, m);
    QualityAppend(c.log, cfg.freshMemory(c.user.uid), c.dropState, m);
  }

  /** A message that is no network quality, no data and not the client's own USER_INFO. */
  lemma ToldOk(cfg: Config, c: Client, m: Message)
    requires ClientOk(cfg, c) && Ordinary([m]) && !OwnInfo(m, c.user.uid)
    ensures ClientOk(cfg, Told(c, m))
  {
    assert [m][0] == m;
    HeardOk(cfg, c, m);
  }

  // ---------------------------------------------------------------- steps that change no table

  predicate SameStreams(c: Client, c': Client) {
    c'.user == c.user && c'.streams == c.streams && c'.announced == c.announced
  }

  /** Same clients with the same streams, in the same places. */
  predicate SameTables(cs: seq<Client>, cs': seq<Client>) {
    |cs'| == |cs| && forall i :: 0 <= i < |cs| ==> SameStreams(cs[i], cs'[i])
  }

  /** The client as seen by others is the same and so is its view. */
  predicate SameView(c: Client, c': Client) {
    && SameStreams(c, c') && c'.initialized == c.initialized
    && (c.receiving ==> c'.receiving)
    && Replay(c'.log) == Replay(c.log)
  }

  lemma TablesKept(cs: seq<Client>, cs': seq<Client>)
    requires SameTables(cs, cs')
    ensures Users(cs') == Users(cs)
    ensures forall uid, sid :: Registered(cs', uid, sid) == Registered(cs, uid, sid)
    ensures forall uid, sid :: Announced(cs', uid, sid) == Announced(cs, uid, sid)
  {
    assert Users(cs') == Users(cs);
  }

  lemma ViewsKept(cfg: Config, cs: seq<Client>, cs': seq<Client>)
    requires Sound(cfg, cs) && |cs'| == |cs|
    requires forall i :: 0 <= i < |cs| ==> SameView(cs[i], cs'[i])
    requires forall i :: 0 <= i < |cs| ==> ClientOk(cfg, cs'[i])
    ensures Sound(cfg, cs')
  {
    TablesKept(cs, cs');
    forall i | 0 <= i < |cs|
      ensures MirrorsUsers(cs', cs'[i]) && MirrorsStreams(cs', cs'[i])
    {
      assert SameView(cs[i], cs'[i]) && MirrorsUsers(cs, cs[i]) && MirrorsStreams(cs, cs[i]);
    }
  }

  /** A neutral message other than network quality; data only for a registered stream of another client. */
  lemma TellKeepsSound(cfg: Config, cs: seq<Client>, a: Audience, m: Message)
    requires Sound(cfg, cs) && Neutral(m) && !m.kind.NetQuality?
    requires IsData(m) ==>
      (Registered(cs, m.source, m.streamid).Some? &&
       forall i :: 0 <= i < |cs| && cs[i].user.uid == m.source ==> !Hears(a, i, cs[i]))
    ensures Sound(cfg, Tell(cs, a, m)) && SameTables(cs, Tell(cs, a, m))
  {
    var cs' := Tell(cs, a, m);
    forall i | 0 <= i < |cs|
      ensures SameView(cs[i], cs'[i]) && ClientOk(cfg, cs'[i])
    {
      if Hears(a, i, cs[i]) {
        assert ClientOk(cfg, cs[i]) && MirrorsStreams(cs, cs[i]);
        ReplayAppend(cs[i].log, m);
        HeardOk(cfg, cs[i], m);
      }
    }
    ViewsKept(cfg, cs, cs');
  }

  lemma {:induction false} TellAllKeepsSound(cfg: Config, cs: seq<Client>, a: Audience, m: Message, times: nat)
    requires Sound(cfg, cs) && Neutral(m) && !m.kind.NetQuality? && !IsData(m)
    ensures Sound(cfg, TellAll(cs, a, m, times)) && SameTables(cs, TellAll(cs, a, m, times))
    decreases times
  {
    if times > 0 {
      TellKeepsSound(cfg, cs, a, m);
      TellAllKeepsSound(cfg, Tell(cs, a, m), a, m, times - 1);
    }
  }

  lemma {:induction false} SayAllKeepsSound(cfg: Config, cs: seq<Client>, notices: seq<Audience>)
    requires Sound(cfg, cs)
    ensures Sound(cfg, SayAll(cs, notices)) && SameTables(cs, SayAll(cs, notices))
  {
    if notices != [] {
      SayAllKeepsSound(cfg, cs, notices[..|notices| - 1]);
      TellKeepsSound(cfg, SayAll(cs, notices[..|notices| - 1]), notices[|notices| - 1], NOTICE);
    }
  }

  lemma UpdateKeepsSound(cfg: Config, cs: seq<Client>, at: nat, c: Client)
    requires Sound(cfg, cs) && at < |cs| && SameView(cs[at], c) && ClientOk(cfg, c)
    ensures Sound(cfg, cs[at := c]) && SameTables(cs, cs[at := c])
  {
    ViewsKept(cfg, cs, cs[at := c]);
  }

  lemma QualityStepKeepsSound(cfg: Config, cs: seq<Client>, at: nat, dropping: bool)
    requires Sound(cfg, cs) && at < |cs|
    ensures var cs' := cs[at := QualityStep(cs[at], dropping)]; Sound(cfg, cs') && SameTables(cs, cs')
  {
    var c := cs[at];
    var state := if dropping then 1 else 0;
    if c.dropState == 1 - state {
      LogAppend(c.log, c.user.uid, c.initialized, QualityMessage(state));
      QualityAppend(c.log, cfg.freshMemory(c.user.uid), state, QualityMessage(state));
      ReplayAppend(c.log, QualityMessage(state));
    }
    UpdateKeepsSound(cfg, cs, at, QualityStep(c, dropping));
  }

  // ---------------------------------------------------------------- streams come and go

  /** Same clients, and only the streams of the one at `at` differ. */
  predicate OthersSame(cs: seq<Client>, cs': seq<Client>, at: nat) {
    |cs'| == |cs| && forall i :: 0 <= i < |cs| ==>
      cs'[i].user == cs[i].user && (i != at ==> SameStreams(cs[i], cs'[i]))
  }

  /** The payload that is broadcast decodes to the registration that is stored. */
  predicate Faithful(r: Request)
    requires WellSized(r)
  {
    Padded(Terminated(r.buffer)[..r.len]) == Terminated(r.buffer)[..REGISTRATION_SIZE]
  }

  /** The stream tables of the server changed at one place only. */
  ghost predicate TableUpdated(cs: seq<Client>, cs': seq<Client>, uid: nat, sid: nat,
                               reg: Option<Registration>, told: Option<Registration>) {
    && Users(cs') == Users(cs)
    && (forall u, s :: Registered(cs', u, s) == if u == uid && s == sid then reg else Registered(cs, u, s))
    && (forall u, s :: Announced(cs', u, s) == if u == uid && s == sid then told else Announced(cs, u, s))
  }

  predicate DiffersAt(m: map<nat, Registration>, m': map<nat, Registration>, sid: nat) {
    m' - {sid} == m - {sid}
  }

  lemma StillThere(m: map<nat, Registration>, m': map<nat, Registration>, sid: nat, s: nat)
    requires DiffersAt(m, m', sid) && s != sid
    ensures (s in m' <==> s in m) && (s in m ==> m'[s] == m[s])
  {
    assert s in m <==> s in m - {sid};
    assert s in m' <==> s in m' - {sid};
    assert s in m ==> (m - {sid})[s] == m[s];
    assert s in m' ==> (m' - {sid})[s] == m'[s];
  }

  function At(m: map<nat, Registration>, sid: nat): Option<Registration> {
    if sid in m then Some(m[sid]) else None
  }

  lemma StreamChanged(cs: seq<Client>, cs': seq<Client>, at: nat, sid: nat)
    requires DistinctUids(Users(cs)) && OthersSame(cs, cs', at) && at < |cs|
    requires DiffersAt(cs[at].streams, cs'[at].streams, sid) && DiffersAt(cs[at].announced, cs'[at].announced, sid)
    ensures TableUpdated(cs, cs', cs[at].user.uid, sid, At(cs'[at].streams, sid), At(cs'[at].announced, sid))
  {
    assert Users(cs') == Users(cs);
    IndexOfIs(Users(cs), at);
    var uid := cs[at].user.uid;
    forall u, s
      ensures Registered(cs', u, s) == if u == uid && s == sid then At(cs'[at].streams, sid) else Registered(cs, u, s)
      ensures Announced(cs', u, s) == if u == uid && s == sid then At(cs'[at].announced, sid) else Announced(cs, u, s)
    {
      var i := Find(cs, u);
      assert i >= 0 ==> Users(cs)[i] == cs[i].user;
      assert i == at <==> u == uid;
      if u == uid && s != sid {
        StillThere(cs[at].streams, cs'[at].streams, sid, s);
        StillThere(cs[at].announced, cs'[at].announced, sid, s);
      }
    }
  }

  /** The view after hearing that one stream now is `told`. */
  ghost predicate SeesChange(v: View, v': View, uid: nat, sid: nat, told: Option<Registration>) {
    && v'.users == v.users
    && forall u, s :: StreamSeen(v', u, s) == if u == uid && s == sid then told else StreamSeen(v, u, s)
  }

  /** A client that heard of the change, or need not hear of it, keeps mirroring the server. */
  lemma MirrorsChange(cs: seq<Client>, cs': seq<Client>, r: Client, r': Client,
                      uid: nat, sid: nat, reg: Option<Registration>, told: Option<Registration>)
    requires MirrorsUsers(cs, r) && MirrorsStreams(cs, r) && TableUpdated(cs, cs', uid, sid, reg, told)
    requires r'.user == r.user && r'.initialized == r.initialized && r'.receiving == r.receiving
    requires r.initialized ==> r.receiving
    requires (r.receiving && SeesChange(Replay(r.log), Replay(r'.log), uid, sid, told))
             || (r'.log == r.log && (!r.receiving || r.user.uid == uid))
    ensures MirrorsUsers(cs', r') && MirrorsStreams(cs', r')
  {
    forall u, s | u != r'.user.uid
      ensures TracksEither(StreamSeen(Replay(r'.log), u, s), Registered(cs', u, s), Announced(cs', u, s), r'.initialized)
    {
      assert TracksEither(StreamSeen(Replay(r.log), u, s), Registered(cs, u, s), Announced(cs, u, s), r.initialized);
    }
  }

  lemma RegisterSeen(log: seq<Message>, owner: nat, sid: nat, data: seq<Octet>)
    ensures SeesChange(Replay(log), Replay(log + [RegisterMessage(owner, sid, data)]), owner, sid, Some(Padded(data)))
  {
    ReplayAppend(log, RegisterMessage(owner, sid, data));
  }

  lemma UnregisterSeen(log: seq<Message>, m: Message)
    requires m.kind.StreamUnregister?
    ensures SeesChange(Replay(log), Replay(log + [m]), m.source, m.streamid, None)
  {
    ReplayAppend(log, m);
  }

  /** One client after the registration, whether it hears of it or not. */
  lemma HearsRegister(cfg: Config, cs: seq<Client>, cs': seq<Client>, at: nat, i: nat,
                      sid: nat, reg: Registration, data: seq<Octet>)
    requires Sound(cfg, cs) && at < |cs| && i < |cs| && i != at
    requires TableUpdated(cs, cs', cs[at].user.uid, sid, Some(reg), Some(Padded(data)))
    ensures var m := RegisterMessage(cs[at].user.uid, sid, data);
            var r := if cs[i].receiving then Told(cs[i], m) else cs[i];
            ClientOk(cfg, r) && MirrorsUsers(cs', r) && MirrorsStreams(cs', r)
  {
    var m := RegisterMessage(cs[at].user.uid, sid, data);
    var r := if cs[i].receiving then Told(cs[i], m) else cs[i];
    assert ClientOk(cfg, cs[i]) && MirrorsUsers(cs, cs[i]) && MirrorsStreams(cs, cs[i]);
    ToldOk(cfg, cs[i], m);
    RegisterSeen(cs[i].log, cs[at].user.uid, sid, data);
    MirrorsChange(cs, cs', cs[i], r, cs[at].user.uid, sid, Some(reg), Some(Padded(data)));
  }

  lemma EntryAdded(m: map<nat, Registration>, sid: nat, reg: Registration)
    ensures DiffersAt(m, m[sid := reg], sid) && At(m[sid := reg], sid) == Some(reg)
    ensures m[sid := reg].Keys == m.Keys + {sid} && |m[sid := reg]| <= |m| + 1
  {
    var more := m[sid := reg];
    assert more - {sid} == m - {sid};
    assert more.Keys == m.Keys + {sid};
    assert |more| == |more.Keys| && |m| == |m.Keys|;
  }

  lemma StreamAdded(c: Client, sid: nat, reg: Registration, data: seq<Octet>)
    ensures var c' := WithStream(c, sid, reg, data);
            && DiffersAt(c.streams, c'.streams, sid) && DiffersAt(c.announced, c'.announced, sid)
            && At(c'.streams, sid) == Some(reg) && At(c'.announced, sid) == Some(Padded(data))
            && |c'.streams| <= |c.streams| + 1
            && (c.announced.Keys == c.streams.Keys ==> c'.announced.Keys == c'.streams.Keys)
  {
    EntryAdded(c.streams, sid, reg);
    EntryAdded(c.announced, sid, Padded(data));
  }

  /** The owner after its stream has been stored, which hears nothing of it. */
  lemma OwnerRegisters(cfg: Config, cs: seq<Client>, cs': seq<Client>, at: nat, sid: nat, reg: Registration,
                       data: seq<Octet>)
    requires Sound(cfg, cs) && at < |cs| && |cs[at].streams| < cfg.maxVehicles + NON_VEHICLE_STREAMS
    requires TableUpdated(cs, cs', cs[at].user.uid, sid, Some(reg), Some(Padded(data)))
    ensures var c := WithStream(cs[at], sid, reg, data);
            ClientOk(cfg, c) && MirrorsUsers(cs', c) && MirrorsStreams(cs', c)
  {
    var c := WithStream(cs[at], sid, reg, data);
    assert ClientOk(cfg, cs[at]) && MirrorsUsers(cs, cs[at]) && MirrorsStreams(cs, cs[at]);
    StreamAdded(cs[at], sid, reg, data);
    MirrorsChange(cs, cs', cs[at], c, c.user.uid, sid, Some(reg), Some(Padded(data)));
  }

  lemma RegisterHeard(cs: seq<Client>, at: nat, i: nat, c: Client, m: Message)
    requires at < |cs| && i < |cs|
    ensures Tell(cs[at := c], ListeningBut(at), m)[i]
            == if i == at then c else if cs[i].receiving then Told(cs[i], m) else cs[i]
  {
  }

  /** One client after the stream has been stored. */
  lemma RegisteredOne(cfg: Config, cs: seq<Client>, cs': seq<Client>, at: nat, i: nat, sid: nat, reg: Registration,
                      data: seq<Octet>)
    requires Sound(cfg, cs) && at < |cs| && i < |cs|
    requires |cs[at].streams| < cfg.maxVehicles + NON_VEHICLE_STREAMS
    requires cs' == Tell(cs[at := WithStream(cs[at], sid, reg, data)], ListeningBut(at),
                         RegisterMessage(cs[at].user.uid, sid, data))
    requires TableUpdated(cs, cs', cs[at].user.uid, sid, Some(reg), Some(Padded(data)))
    ensures ClientOk(cfg, cs'[i]) && MirrorsUsers(cs', cs'[i]) && MirrorsStreams(cs', cs'[i])
  {
    RegisterHeard(cs, at, i, WithStream(cs[at], sid, reg, data), RegisterMessage(cs[at].user.uid, sid, data));
    if i == at {
      OwnerRegisters(cfg, cs, cs', at, sid, reg, data);
    } else {
      HearsRegister(cfg, cs, cs', at, i, sid, reg, data);
    }
  }

  lemma RegisteredTables(cs: seq<Client>, at: nat, sid: nat, reg: Registration, data: seq<Octet>)
    requires DistinctUids(Users(cs)) && at < |cs|
    ensures TableUpdated(cs, Tell(cs[at := WithStream(cs[at], sid, reg, data)], ListeningBut(at),
                                  RegisterMessage(cs[at].user.uid, sid, data)),
                         cs[at].user.uid, sid, Some(reg), Some(Padded(data)))
  {
    StreamAdded(cs[at], sid, reg, data);
    StreamChanged(cs, Tell(cs[at := WithStream(cs[at], sid, reg, data)], ListeningBut(at),
                           RegisterMessage(cs[at].user.uid, sid, data)), at, sid);
  }

  /** Storing a stream and telling every other listener about it keeps all views, whatever is told. */
  lemma RegisterKeepsSound(cfg: Config, cs: seq<Client>, at: nat, sid: nat, reg: Registration, data: seq<Octet>)
    requires Sound(cfg, cs) && at < |cs|
    requires |cs[at].streams| < cfg.maxVehicles + NON_VEHICLE_STREAMS
    ensures var c := WithStream(cs[at], sid, reg, data);
            Sound(cfg, Tell(cs[at := c], ListeningBut(at), RegisterMessage(c.user.uid, sid, data)))
  {
    var c := WithStream(cs[at], sid, reg, data);
    var cs' := Tell(cs[at := c], ListeningBut(at), RegisterMessage(c.user.uid, sid, data));
    RegisteredTables(cs, at, sid, reg, data);
    forall i | 0 <= i < |cs|
      ensures ClientOk(cfg, cs'[i]) && MirrorsUsers(cs', cs'[i]) && MirrorsStreams(cs', cs'[i])
    {
      RegisteredOne(cfg, cs, cs', at, i, sid, reg, data);
    }
  }

  lemma EntryDropped(m: map<nat, Registration>, sid: nat)
    ensures DiffersAt(m, m - {sid}, sid) && At(m - {sid}, sid) == None
    ensures (m - {sid}).Keys == m.Keys - {sid} && |m - {sid}| <= |m|
  {
    var rest := m - {sid};
    assert rest.Keys == m.Keys - {sid};
    assert |rest| == |rest.Keys| && |m| == |m.Keys|;
    assert rest - {sid} == rest;
  }

  lemma StreamDropped(c: Client, sid: nat)
    ensures var c' := WithoutStream(c, sid);
            && DiffersAt(c.streams, c'.streams, sid) && DiffersAt(c.announced, c'.announced, sid)
            && At(c'.streams, sid) == None && At(c'.announced, sid) == None
            && |c'.streams| <= |c.streams|
            && (c.announced.Keys == c.streams.Keys ==> c'.announced.Keys == c'.streams.Keys)
  {
    EntryDropped(c.streams, sid);
    EntryDropped(c.announced, sid);
  }

  lemma HearsUnregister(cfg: Config, cs: seq<Client>, cs': seq<Client>, i: nat, c: Client, m: Message)
    requires Sound(cfg, cs) && i < |cs| && m.kind.StreamUnregister?
    requires TableUpdated(cs, cs', m.source, m.streamid, None, None)
    requires c == cs[i].(streams := c.streams, announced := c.announced)
    requires |c.streams| <= |cs[i].streams| && c.announced.Keys == c.streams.Keys
    ensures var r := if c.receiving then Told(c, m) else c;
            ClientOk(cfg, r) && MirrorsUsers(cs', r) && MirrorsStreams(cs', r)
  {
    var r := if c.receiving then Told(c, m) else c;
    assert ClientOk(cfg, cs[i]) && MirrorsUsers(cs, cs[i]) && MirrorsStreams(cs, cs[i]);
    ToldOk(cfg, c, m);
    UnregisterSeen(c.log, m);
    MirrorsChange(cs, cs', cs[i], r, m.source, m.streamid, None, None);
  }

  /** One client after the stream has been dropped. */
  lemma UnregisteredOne(cfg: Config, cs: seq<Client>, cs': seq<Client>, at: nat, i: nat, m: Message)
    requires Sound(cfg, cs) && at < |cs| && i < |cs| && m.kind.StreamUnregister? && m.source == cs[at].user.uid
    requires cs' == Tell(cs[at := WithoutStream(cs[at], m.streamid)], Listening, m)
    requires TableUpdated(cs, cs', m.source, m.streamid, None, None)
    ensures ClientOk(cfg, cs'[i]) && MirrorsUsers(cs', cs'[i]) && MirrorsStreams(cs', cs'[i])
  {
    assert ClientOk(cfg, cs[i]);
    if i == at {
      StreamDropped(cs[at], m.streamid);
      HearsUnregister(cfg, cs, cs', i, WithoutStream(cs[at], m.streamid), m);
    } else {
      HearsUnregister(cfg, cs, cs', i, cs[i], m);
    }
  }

  lemma UnregisteredTables(cs: seq<Client>, at: nat, m: Message)
    requires DistinctUids(Users(cs)) && at < |cs| && m.source == cs[at].user.uid
    ensures TableUpdated(cs, Tell(cs[at := WithoutStream(cs[at], m.streamid)], Listening, m),
                         m.source, m.streamid, None, None)
  {
    StreamDropped(cs[at], m.streamid);
    StreamChanged(cs, Tell(cs[at := WithoutStream(cs[at], m.streamid)], Listening, m), at, m.streamid);
  }

  /** Dropping a stream and telling every listener about it keeps all views. */
  lemma UnregisterKeepsSound(cfg: Config, cs: seq<Client>, at: nat, m: Message)
    requires Sound(cfg, cs) && at < |cs| && m.kind.StreamUnregister? && m.source == cs[at].user.uid
    ensures Sound(cfg, Tell(cs[at := WithoutStream(cs[at], m.streamid)], Listening, m))
  {
    var cs' := Tell(cs[at := WithoutStream(cs[at], m.streamid)], Listening, m);
    UnregisteredTables(cs, at, m);
    forall i | 0 <= i < |cs|
      ensures ClientOk(cfg, cs'[i]) && MirrorsUsers(cs', cs'[i]) && MirrorsStreams(cs', cs'[i])
    {
      UnregisteredOne(cfg, cs, cs', at, i, m);
    }
  }
}
