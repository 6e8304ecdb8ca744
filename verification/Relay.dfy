/** The relay server as a state machine. Every entry point that holds the clients mutex is one
    step; the receiver thread's start and the killer thread's sections are steps of their own. */
module Relay {
  import opened RoRnet
  import opened Identity
  import opened Threads
  import SpamFilter
  import SpawnRate
  import Utf8

  /** `freshMemory` is what the drop state of a new client holds, by user id: nothing initialises it. */
  datatype Config = Config(
    maxClients: nat,
    maxVehicles: nat,
    spawnInterval: int,
    maxSpawnRate: int,
    spam: SpamFilter.Settings,
    freshMemory: nat -> int)

  const NON_VEHICLE_STREAMS: nat := 2

  /** `announced`, `spawnChecks`, `said` and `log` are history: each registered stream as its last REGISTER
      message told it, the clock readings of every spawn check, every chat line of the client that was no
      command, and everything ever queued for the client. */
  datatype Client = Client(
    user: UserInfo,
    receiving: bool,
    initialized: bool,
    dropState: int,
    streams: map<nat, Registration>,
    stamps: seq<int>,
    filter: SpamFilter.State,
    receiver: ThreadState,
    broadcaster: ThreadState,
    announced: map<nat, Registration>,
    spawnChecks: seq<(int, int)>,
    said: seq<SpamFilter.Line>,
    log: seq<Message>)

  /** `destroyed` and `abandoned` are history: clients deleted by the killer thread, and clients it
      had popped when it was told to stop. */
  datatype Server = Server(
    clients: seq<Client>,
    botCount: int,
    freeUid: nat,
    killer: ThreadState,
    killQueue: seq<Client>,
    killing: seq<Client>,
    destroyed: seq<Client>,
    abandoned: seq<Client>)

  const STARTED: Server := Server([], 0, 1, Running, [], [], [], [])

  function Users(cs: seq<Client>): (r: seq<UserInfo>)
    ensures |r| == |cs|
  {
    seq(|cs|, i requires 0 <= i < |cs| => cs[i].user)
  }

  function Find(cs: seq<Client>, uid: nat): (i: int)
    ensures -1 <= i < |cs|
  {
    IndexOf(Users(cs), uid)
  }

  // ---------------------------------------------------------------- queueing messages

  datatype Audience =
    | Everyone
    | Listening                     // clients whose receiver is running
    | ListeningUid(uid: nat)
    | ListeningBut(at: nat)         // all of them but the one at this position

  predicate Hears(a: Audience, i: nat, c: Client) {
    match a
    case Everyone => true
    case Listening => c.receiving
    case ListeningUid(uid) => c.receiving && c.user.uid == uid
    case ListeningBut(at) => c.receiving && i != at
  }

  function Told(c: Client, m: Message): Client {
    c.(log := c.log + [m])
  }

  function Tell(cs: seq<Client>, a: Audience, m: Message): (r: seq<Client>)
    ensures |r| == |cs|
  {
    seq(|cs|, i requires 0 <= i < |cs| => if Hears(a, i, cs[i]) then Told(cs[i], m) else cs[i])
  }

  function TellAll(cs: seq<Client>, a: Audience, m: Message, times: nat): (r: seq<Client>)
    ensures |r| == |cs|
    decreases times
  {
    if times == 0 then cs else TellAll(Tell(cs, a, m), a, m, times - 1)
  }

  /** A line of server text, as serverSay queues it. */
  const NOTICE: Message := Message(Utf8Chat, SERVER_UID, 0xFFFF_FFFF, Text)

  function QualityMessage(state: int): Message {
    Message(NetQuality, SERVER_UID, 0, Quality(state))
  }

  function JoinMessage(u: UserInfo): Message {
    Message(UserJoin, u.uid, 0, User(Public(u)))
  }

  function InfoMessage(u: UserInfo): Message {
    Message(UserInfoMsg, u.uid, 0, User(Public(u)))
  }

  function LeaveMessage(uid: nat): Message {
    Message(UserLeave, uid, 0, Text)
  }

  function RegisterMessage(uid: nat, sid: nat, data: seq<Octet>): Message {
    Message(StreamRegister, uid, sid, Octets(data))
  }

  // ---------------------------------------------------------------- joining and leaving

  function NextUid(uid: nat): nat {
    (uid + 1) % UINT32_LIMIT
  }

  function NewUser(us: seq<UserInfo>, user: UserInfo, uid: nat): UserInfo {
    user.(uid := uid, colour := FreeColour(us, 0), name := ChosenName(Names(us), user.name))
  }

  function NewClient(cfg: Config, user: UserInfo): Client {
    Client(user, false, false, cfg.freshMemory(user.uid), map[], [], SpamFilter.UNUSED, Running, Running,
           map[], [], [], [])
  }

  datatype JoinOutcome = Banned | ServerFull | WelcomeFailed | Joined

  function JoinResult(cfg: Config, s: Server, banned: bool, welcomed: bool): JoinOutcome {
    if banned then Banned
    else if |s.clients| >= cfg.maxClients + s.botCount then ServerFull
    else if !welcomed then WelcomeFailed
    else Joined
  }

  /** The server right after the new client has been put into the list. */
  function Admitted(cfg: Config, s: Server, user: UserInfo): Server {
    var u := NewUser(Users(s.clients), user, s.freeUid);
    s.(clients := s.clients + [NewClient(cfg, u)],
       botCount := s.botCount + if IsBot(u) then 1 else 0,
       freeUid := NextUid(s.freeUid))
  }

  function CreateClient(cfg: Config, s: Server, user: UserInfo, banned: bool, welcomed: bool): Server {
    match JoinResult(cfg, s, banned, welcomed)
    case Banned => s
    case ServerFull => s
    case WelcomeFailed => Disconnect(Admitted(cfg, s, user), s.freeUid)
    case Joined =>
      var s' := Admitted(cfg, s, user);
      var u := s'.clients[|s.clients|].user;
      s'.(clients := Tell(s'.clients, Everyone, JoinMessage(u)))
  }

  /** QueueClientForDisconnect. */
  function Disconnect(s: Server, uid: nat): Server {
    var i := Find(s.clients, uid);
    if i < 0 then s
    else
      var told := Tell(s.clients, Everyone, LeaveMessage(uid));
      s.(clients := RemoveAt(told, LastIndexOf(Users(s.clients), uid)),
         botCount := s.botCount - if IsBot(s.clients[i].user) then 1 else 0,
         killQueue := s.killQueue + [told[i]])
  }

  // ---------------------------------------------------------------- late introduction

  function Min(keys: set<nat>): (m: nat)
    requires keys != {}
    ensures m in keys && forall k :: k in keys ==> m <= k
  {
    MinExists(keys);
    var m :| m in keys && forall k :: k in keys ==> m <= k;
    m
  }

  lemma MinExists(keys: set<nat>)
    requires keys != {}
    ensures exists m :: m in keys && forall k :: k in keys ==> m <= k
  {
    var x :| x in keys;
    if exists k :: k in keys && k < x {
      var k :| k in keys && k < x;
      assert k in keys - {x};
      MinExists(keys - {x});
      var m :| m in keys - {x} && forall k :: k in keys - {x} ==> m <= k;
      assert forall k :: k in keys ==> k == x || k in keys - {x};
      assert forall k :: k in keys ==> m <= k;
    }
  }

  /** REGISTER messages for the given streams of a client, by ascending stream id. */
  function Registers(c: Client, keys: set<nat>): seq<Message>
    requires keys <= c.streams.Keys
  {
    if keys == {} then []
    else
      var sid := Min(keys);
      [RegisterMessage(c.user.uid, sid, c.streams[sid])] + Registers(c, keys - {sid})
  }

  /** What the newcomer at `at` is told about the client at `k`; about itself it is told twice. */
  function Section(cs: seq<Client>, at: nat, k: nat): seq<Message>
    requires k < |cs| && at < |cs|
  {
    (if k == at then [InfoMessage(cs[k].user)] else [])
    + [InfoMessage(cs[k].user)] + Registers(cs[k], cs[k].streams.Keys)
  }

  /** What the newcomer at `at` is told about the first `n` clients. */
  function Introduction(cs: seq<Client>, at: nat, n: nat): seq<Message>
    requires n <= |cs| && at < |cs|
  {
    if n == 0 then [] else Introduction(cs, at, n - 1) + Section(cs, at, n - 1)
  }

  function Introduce(cs: seq<Client>, at: nat): (r: seq<Client>)
    requires at < |cs|
    ensures |r| == |cs|
  {
    seq(|cs|, i requires 0 <= i < |cs| =>
      if i == at then cs[at].(log := cs[at].log + Introduction(cs, at, |cs|), initialized := true)
      else Told(cs[i], InfoMessage(cs[at].user)))
  }

  // ---------------------------------------------------------------- messages from clients

  /** What a command does: nothing of its text is modelled but this. */
  datatype Command =
    | Answered(notices: seq<Audience>)
    | KickCommand(target: nat)

  datatype Request = Request(
    kind: MessageType,
    streamid: nat,
    buffer: seq<Octet>,   // the receiver's payload buffer
    len: nat,             // payload length from the header
    dropping: bool,       // the sender's broadcaster is dropping packets
    now: int,             // clock when old spawn timestamps are purged or the spam filter is asked
    later: int,           // clock when the new timestamp is recorded
    command: Command)     // what the text means, should it be a command

  /** The buffer is the receiver's and holds the payload. */
  predicate WellSized(r: Request) {
    r.len <= |r.buffer| == MAX_MESSAGE_LENGTH
  }

  function QualityStep(c: Client, dropping: bool): Client {
    if dropping && c.dropState == 0 then Told(c.(dropState := 1), QualityMessage(1))
    else if !dropping && c.dropState == 1 then Told(c.(dropState := 0), QualityMessage(0))
    else c
  }

  /** The octets up to the first zero. */
  function CString(octets: seq<Octet>): seq<Octet> {
    if octets == [] || octets[0] == 0 then [] else [octets[0]] + CString(octets[1..])
  }

  predicate Printable(o: Octet) {
    0x20 <= o <= 0x7E
  }

  predicate ValidVehicleName(name: seq<Octet>) {
    (forall i :: 0 <= i < |name| ==> Printable(name[i])) && (exists i :: 0 <= i < |name| && name[i] != 0x20)
  }

  /** Stream type STREAM_REG_TYPE_VEHICLE is zero. */
  predicate IsVehicle(buffer: seq<Octet>)
    requires |buffer| >= REGISTRATION_SIZE
  {
    buffer[0] == 0 && buffer[1] == 0 && buffer[2] == 0 && buffer[3] == 0
  }

  /** Field origin_sourceid, little-endian. */
  function OriginUid(buffer: seq<Octet>): nat
    requires |buffer| >= REGISTRATION_SIZE
  {
    (buffer[8] as nat) + 0x100 * (buffer[9] as nat) + 0x1_0000 * (buffer[10] as nat) + 0x100_0000 * (buffer[11] as nat)
  }

  /** The payload buffer after the name has been forcibly terminated. */
  function Terminated(buffer: seq<Octet>): (r: seq<Octet>)
    requires |buffer| >= REGISTRATION_SIZE
    ensures |r| == |buffer|
  {
    buffer[NAME_LAST := 0]
  }

  function ChecksAfter(c: Client, r: Request): seq<(int, int)>
    requires WellSized(r)
  {
    if IsVehicle(r.buffer) then c.spawnChecks + [(r.now, r.later)] else c.spawnChecks
  }

  datatype RegisterOutcome = TooManyStreams | TooFast | BadName | Accepted

  function SpawnVerdict(cfg: Config, c: Client, r: Request): SpawnRate.Verdict
    requires WellSized(r)
  {
    if IsVehicle(r.buffer) then SpawnRate.Check(c.stamps, cfg.spawnInterval, cfg.maxSpawnRate, r.now, r.later)
    else SpawnRate.Verdict(true, false, c.stamps)
  }

  function RegisterResult(cfg: Config, c: Client, r: Request): RegisterOutcome
    requires WellSized(r)
  {
    if |c.streams| >= cfg.maxVehicles + NON_VEHICLE_STREAMS then TooManyStreams
    else if !SpawnVerdict(cfg, c, r).allowed then TooFast
    else if IsVehicle(r.buffer) && !ValidVehicleName(CString(r.buffer[NAME_OFFSET..])) then BadName
    else Accepted
  }

  /** The sender after its spawn check, with the limiter's warning if there is one. */
  function SpawnChecked(cfg: Config, cs: seq<Client>, at: nat, r: Request): (cs': seq<Client>)
    requires at < |cs| && WellSized(r)
    ensures |cs'| == |cs|
  {
    var v := SpawnVerdict(cfg, cs[at], r);
    var warned := if v.warned then Tell(cs, ListeningUid(cs[at].user.uid), NOTICE) else cs;
    warned[at := warned[at].(stamps := v.stamps, spawnChecks := ChecksAfter(cs[at], r))]
  }

  function RegisterStream(cfg: Config, s: Server, at: nat, r: Request): Server
    requires at < |s.clients| && WellSized(r)
  {
    var c := s.clients[at];
    match RegisterResult(cfg, c, r)
    case TooManyStreams =>
      var cs := Tell(Tell(s.clients, ListeningUid(c.user.uid), NOTICE), Listening, NOTICE);
      Disconnect(s.(clients := cs), c.user.uid)
    case TooFast =>
      Disconnect(s.(clients := Tell(SpawnChecked(cfg, s.clients, at, r), Listening, NOTICE)), c.user.uid)
    case BadName =>
      Disconnect(s.(clients := Tell(SpawnChecked(cfg, s.clients, at, r), Listening, NOTICE)), c.user.uid)
    case Accepted =>
      s.(clients := AddStream(cfg, SpawnChecked(cfg, s.clients, at, r), at, r))
  }

  predicate NearLimit(cfg: Config, count: nat) {
    count + 3 >= cfg.maxVehicles + NON_VEHICLE_STREAMS && count > NON_VEHICLE_STREAMS
  }

  /** A stream is stored as `reg`; the others are told `data`. */
  function WithStream(c: Client, sid: nat, reg: Registration, data: seq<Octet>): Client {
    c.(streams := c.streams[sid := reg], announced := c.announced[sid := Padded(data)])
  }

  function WithoutStream(c: Client, sid: nat): Client {
    c.(streams := c.streams - {sid}, announced := c.announced - {sid})
  }

  function AddStream(cfg: Config, cs: seq<Client>, at: nat, r: Request): (cs': seq<Client>)
    requires at < |cs| && WellSized(r)
    ensures |cs'| == |cs|
  {
    var data := Terminated(r.buffer);
    var c := WithStream(cs[at], r.streamid, data[..REGISTRATION_SIZE], data[..r.len]);
    var cs1 := cs[at := c];
    var cs2 := if NearLimit(cfg, |c.streams|) then Tell(cs1, ListeningUid(c.user.uid), NOTICE) else cs1;
    Tell(cs2, ListeningBut(at), RegisterMessage(c.user.uid, r.streamid, data[..r.len]))
  }

  function RemoveStream(cs: seq<Client>, at: nat, r: Request): (cs': seq<Client>)
    requires at < |cs| && r.len <= |r.buffer|
    ensures |cs'| == |cs|
  {
    if r.streamid !in cs[at].streams then cs
    else
      var cs1 := cs[at := WithoutStream(cs[at], r.streamid)];
      Tell(cs1, Listening, Message(StreamUnregister, cs[at].user.uid, r.streamid, Octets(r.buffer[..r.len])))
  }

  /** Data of a registered stream goes to all other listeners. */
  function Published(cs: seq<Client>, at: nat, r: Request): (cs': seq<Client>)
    requires at < |cs| && r.len <= |r.buffer|
    ensures |cs'| == |cs|
  {
    if r.streamid !in cs[at].streams then cs
    else Tell(cs, ListeningBut(at), Message(r.kind, cs[at].user.uid, r.streamid, Octets(r.buffer[..r.len])))
  }

  /** Stream data: introduce the sender if it has not been, then relay the data. */
  function RelayData(cs: seq<Client>, at: nat, r: Request): (cs': seq<Client>)
    requires at < |cs| && r.len <= |r.buffer|
    ensures |cs'| == |cs|
  {
    Published(if cs[at].initialized then cs else Introduce(cs, at), at, r)
  }

  function SayAll(cs: seq<Client>, notices: seq<Audience>): (r: seq<Client>)
    ensures |r| == |cs|
  {
    if notices == [] then cs
    else Tell(SayAll(cs, notices[..|notices| - 1]), notices[|notices| - 1], NOTICE)
  }

  // ---------------------------------------------------------------- chat

  const BANG: Octet := 0x21

  /** The chat line as the server reads it: the payload buffer up to its first zero, cleaned. */
  function LineText(r: Request): SpamFilter.Text {
    Utf8.Sanitized(CString(r.buffer), Utf8.REPLACEMENT)
  }

  predicate IsCommand(r: Request) {
    var text := LineText(r);
    text != [] && text[0] == BANG
  }

  function LineOf(r: Request): SpamFilter.Line {
    SpamFilter.Line(r.now, LineText(r))
  }

  /** The sender's filter after a line that is no command. */
  function FilterAfter(cfg: Config, c: Client, r: Request): SpamFilter.State {
    if SpamFilter.IsActive(cfg.spam) then SpamFilter.Checked(cfg.spam, c.filter, LineOf(r)) else c.filter
  }

  function FilterNotices(cfg: Config, c: Client, r: Request): nat {
    if SpamFilter.IsActive(cfg.spam) then SpamFilter.Notices(c.filter.gag, FilterAfter(cfg, c, r).gag) else 0
  }

  /** Commands are published to nobody, lines of gagged players neither. */
  predicate Publishes(cfg: Config, c: Client, r: Request) {
    !IsCommand(r) && !(SpamFilter.IsActive(cfg.spam) && FilterAfter(cfg, c, r).gag.Gagged?)
  }

  function LineMessage(uid: nat, r: Request): Message
    requires r.len <= |r.buffer|
  {
    Message(Utf8Chat, uid, r.streamid, Octets(r.buffer[..r.len]))
  }

  function Spoken(cfg: Config, c: Client, r: Request): Client {
    c.(filter := FilterAfter(cfg, c, r), said := c.said + [LineOf(r)])
  }

  /** The sender's filter is asked, the sender told about its gag, and the line published or not. */
  function SayLine(cfg: Config, cs: seq<Client>, at: nat, r: Request): (cs': seq<Client>)
    requires at < |cs| && r.len <= |r.buffer|
    ensures |cs'| == |cs|
  {
    var uid := cs[at].user.uid;
    var told := TellAll(cs[at := Spoken(cfg, cs[at], r)], ListeningUid(uid), NOTICE, FilterNotices(cfg, cs[at], r));
    if Publishes(cfg, cs[at], r) then Tell(told, Listening, LineMessage(uid, r)) else told
  }

  function RunCommand(s: Server, at: nat, command: Command): Server
    requires at < |s.clients|
  {
    match command
    case Answered(notices) => s.(clients := SayAll(s.clients, notices))
    case KickCommand(target) =>
      if !IsStaff(s.clients[at].user) || Find(s.clients, target) < 0
      then s.(clients := Tell(s.clients, ListeningUid(s.clients[at].user.uid), NOTICE))
      else Disconnect(s.(clients := Tell(s.clients, Listening, NOTICE)), target)
  }

  function Chat(cfg: Config, s: Server, at: nat, r: Request): Server
    requires at < |s.clients| && r.len <= |r.buffer|
  {
    if IsCommand(r) then RunCommand(s, at, r.command) else s.(clients := SayLine(cfg, s.clients, at, r))
  }

  /** The answer to a registration is passed on to the client it names. */
  function ForwardResult(cs: seq<Client>, uid: nat, r: Request): (cs': seq<Client>)
    requires WellSized(r)
    ensures |cs'| == |cs|
  {
    var origin := Find(cs, OriginUid(r.buffer));
    if origin < 0 then cs
    else cs[origin := Told(cs[origin],
           Message(StreamRegisterResult, uid, r.streamid, Octets(r.buffer[..REGISTRATION_SIZE])))]
  }

  function PrivateMessage(uid: nat, r: Request): Message
    requires ADDRESS_SIZE <= r.len <= |r.buffer|
  {
    Message(Utf8PrivateChat, uid, r.streamid, Octets(r.buffer[ADDRESS_SIZE..r.len]))
  }

  /** A private line is long enough to name its addressee. */
  predicate Addressed(r: Request) {
    r.kind.Utf8PrivateChat? ==> r.len >= ADDRESS_SIZE
  }

  /** A private line is sent to the client found under the sender's own id. */
  function PrivateChat(cs: seq<Client>, at: nat, r: Request): (cs': seq<Client>)
    requires at < |cs| && ADDRESS_SIZE <= r.len <= |r.buffer|
    ensures |cs'| == |cs|
  {
    var to := Find(cs, cs[at].user.uid);
    if to < 0 then cs else cs[to := Told(cs[to], PrivateMessage(cs[at].user.uid, r))]
  }

  // ---------------------------------------------------------------- undefined behaviour

  /** A registration gets as far as having its vehicle name read. */
  predicate ReadsName(cfg: Config, c: Client, r: Request)
    requires WellSized(r)
  {
    |c.streams| < cfg.maxVehicles + NON_VEHICLE_STREAMS && IsVehicle(r.buffer) && SpawnVerdict(cfg, c, r).allowed
  }

  /** The language promises nothing about a message from this client: it makes the server read a string behind
      the end of the buffer, or write behind that of the sanitiser or of a queue entry. */
  predicate Undefined(cfg: Config, c: Client, r: Request)
    requires WellSized(r)
  {
    match r.kind
    case StreamRegister => ReadsName(cfg, c, r) && 0 !in r.buffer[NAME_OFFSET..]
    case Utf8Chat => 0 !in r.buffer || Utf8.Overruns(CString(r.buffer))
    case Utf8PrivateChat => !Addressed(r)
    case _ => false
  }

  /** What queueMessage does with a message, by its type. */
  function Handle(cfg: Config, s: Server, at: nat, r: Request): Server
    requires WellSized(r) && Addressed(r) && at < |s.clients|
  {
    match r.kind
    case StreamData => s.(clients := RelayData(s.clients, at, r))
    case StreamDataDiscardable => s.(clients := RelayData(s.clients, at, r))
    case StreamRegister => RegisterStream(cfg, s, at, r)
    case StreamRegisterResult => s.(clients := ForwardResult(s.clients, s.clients[at].user.uid, r))
    case StreamUnregister => s.(clients := RemoveStream(s.clients, at, r))
    case UserLeave => Disconnect(s, s.clients[at].user.uid)
    case Utf8Chat => Chat(cfg, s, at, r)
    case Utf8PrivateChat => s.(clients := PrivateChat(s.clients, at, r))
    case _ => s
  }

  /** queueMessage: the sender is told if its queue started or stopped dropping packets, then the message is
      handled. */
  function Receive(cfg: Config, s: Server, uid: nat, r: Request): Server
    requires WellSized(r) && (Find(s.clients, uid) >= 0 ==> Addressed(r))
  {
    var at := Find(s.clients, uid);
    if at < 0 then s
    else Handle(cfg, s.(clients := s.clients[at := QualityStep(s.clients[at], r.dropping)]), at, r)
  }

  // ---------------------------------------------------------------- steps and runs

  datatype Event =
    | Join(user: UserInfo, banned: bool, welcomed: bool)
    | Listen(uid: nat)                 // the receiver thread has started
    | Motd(uid: nat, lines: nat)
    | Arrive(uid: nat, request: Request)
    | Drop(uid: nat)                   // disconnectClient from any thread
    | KillerTakes
    | KillerDestroys
    | KillerStops

  /** A message is handled in a step only if the sender listens and the language says what happens. */
  predicate Enabled(cfg: Config, s: Server, e: Event) {
    match e
    case Arrive(uid, r) =>
      WellSized(r) && (Find(s.clients, uid) >= 0 ==> Handles(cfg, s.clients[Find(s.clients, uid)], r))
    case KillerTakes => s.killing == [] && !s.killer.NotRunning?
    case KillerDestroys => s.killing != []
    case _ => true
  }

  function StartListening(cs: seq<Client>, uid: nat): seq<Client> {
    var at := Find(cs, uid);
    if at < 0 then cs else cs[at := cs[at].(receiving := true)]
  }

  predicate Handles(cfg: Config, c: Client, r: Request)
    requires WellSized(r)
  {
    c.receiving && !Undefined(cfg, c, r)
  }

  /** Only a running killer thread is asked to stop. */
  function KillerStop(s: Server): Server {
    if s.killer.Running? then s.(killer := StopRequested) else s
  }

  /** The section in which the killer thread looks at its queue. */
  function KillerTake(s: Server): Server {
    if s.killQueue == [] then s
    else if s.killer.StopRequested? then
      s.(killQueue := s.killQueue[1..], abandoned := s.abandoned + [s.killQueue[0]])
    else s.(killQueue := s.killQueue[1..], killing := [s.killQueue[0]])
  }

  /** Both threads of the client are stopped and joined before it is deleted. */
  function Stopped(c: Client): Client {
    c.(receiver := NotRunning, broadcaster := NotRunning)
  }

  function Next(cfg: Config, s: Server, e: Event): Server
    requires Enabled(cfg, s, e)
  {
    match e
    case Join(user, banned, welcomed) => CreateClient(cfg, s, user, banned, welcomed)
    case Listen(uid) => s.(clients := StartListening(s.clients, uid))
    case Motd(uid, lines) => s.(clients := TellAll(s.clients, ListeningUid(uid), NOTICE, lines))
    case Arrive(uid, r) => Receive(cfg, s, uid, r)
    case Drop(uid) => Disconnect(s, uid)
    case KillerTakes => KillerTake(s)
    case KillerDestroys => s.(killing := [], destroyed := s.destroyed + [Stopped(s.killing[0])])
    case KillerStops => KillerStop(s)
  }

  ghost predicate Runs(cfg: Config, s: Server, events: seq<Event>)
    decreases |events|
  {
    events == [] || (Enabled(cfg, s, events[0]) && Runs(cfg, Next(cfg, s, events[0]), events[1..]))
  }

  function Run(cfg: Config, s: Server, events: seq<Event>): Server
    requires Runs(cfg, s, events)
    decreases |events|
  {
    if events == [] then s else Run(cfg, Next(cfg, s, events[0]), events[1..])
  }
}
