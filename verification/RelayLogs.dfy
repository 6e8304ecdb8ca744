/** What each step of the server does to the clients that stay connected: what they have been sent only
    grows, stream data gets into it from registered streams only, flags stay set, spawn records change by
    spawning only. */
module RelayLogs {
  import opened RoRnet
  import opened Identity
  import opened Replica
  import opened Relay
  import opened RelayInvariant
  import opened RelayRuns
  import opened RelayTheorems

  /** What a step can be the origin of: the sender of a message and the streams it has registered, whether
      it registers a vehicle, says and publishes a chat line, and announces a registration as it is stored. */
  datatype Origin = Origin(
    uid: nat, sids: set<nat>, spawning: bool, speaking: bool, publishing: bool, faithful: bool)

  /** A user's record is shown without its token and guid. */
  predicate NoSecret(m: Message) {
    m.payload.User? ==> m.payload.info.token == "" && m.payload.info.guid == ""
  }

  /** Stream data is of the origin's registered streams, a chat line is the origin's, and no record shows a secret. */
  predicate ComesFrom(m: Message, o: Origin) {
    && NoSecret(m)
    && (IsData(m) ==> m.source == o.uid && m.streamid in o.sids)
    && (m.kind.Utf8Chat? && m.source != SERVER_UID ==> o.publishing && m.source == o.uid)
  }

  predicate Extends(before: seq<Message>, after: seq<Message>, o: Origin) {
    before <= after && forall k :: |before| <= k < |after| ==> ComesFrom(after[k], o)
  }

  /** The same client later. */
  predicate Continues(c: Client, c': Client, o: Origin) {
    && c'.user == c.user && (c.receiving ==> c'.receiving) && Extends(c.log, c'.log, o)
    && (c'.spawnChecks == c.spawnChecks || (o.spawning && c.user.uid == o.uid))
    && (c'.said == c.said || (o.speaking && c.user.uid == o.uid))
    && (o.faithful && c.announced == c.streams ==> c'.announced == c'.streams)
  }

  predicate AllContinue(cs: seq<Client>, cs': seq<Client>, o: Origin) {
    |cs'| == |cs| && forall i :: 0 <= i < |cs| ==> Continues(cs[i], cs'[i], o)
  }

  lemma AllContinueOn(a: seq<Client>, b: seq<Client>, c: seq<Client>, o: Origin)
    requires AllContinue(a, b, o) && AllContinue(b, c, o)
    ensures AllContinue(a, c, o)
  {
    forall i | 0 <= i < |a| ensures Continues(a[i], c[i], o) {
      assert Continues(a[i], b[i], o) && Continues(b[i], c[i], o);
    }
  }

  lemma TellContinues(cs: seq<Client>, a: Audience, m: Message, o: Origin)
    requires ComesFrom(m, o)
    ensures AllContinue(cs, Tell(cs, a, m), o)
  {
  }

  lemma {:induction false} TellAllContinues(cs: seq<Client>, a: Audience, times: nat, o: Origin)
    ensures AllContinue(cs, TellAll(cs, a, NOTICE, times), o)
    decreases times
  {
    if times > 0 {
      var cs1 := Tell(cs, a, NOTICE);
      TellContinues(cs, a, NOTICE, o);
      TellAllContinues(cs1, a, times - 1, o);
      AllContinueOn(cs, cs1, TellAll(cs, a, NOTICE, times), o);
    }
  }

  lemma {:induction false} SayAllContinues(cs: seq<Client>, notices: seq<Audience>, o: Origin)
    ensures AllContinue(cs, SayAll(cs, notices), o)
  {
    if notices != [] {
      var cs1 := SayAll(cs, notices[..|notices| - 1]);
      SayAllContinues(cs, notices[..|notices| - 1], o);
      TellContinues(cs1, notices[|notices| - 1], NOTICE, o);
      AllContinueOn(cs, cs1, SayAll(cs, notices), o);
    }
  }

  lemma QualityContinues(cs: seq<Client>, at: nat, dropping: bool, o: Origin)
    requires at < |cs|
    ensures AllContinue(cs, cs[at := QualityStep(cs[at], dropping)], o)
  {
  }

  lemma {:induction false} RegistersPlain(c: Client, keys: set<nat>, o: Origin)
    requires keys <= c.streams.Keys
    ensures forall k :: 0 <= k < |Registers(c, keys)| ==> ComesFrom(Registers(c, keys)[k], o)
  {
    if keys != {} {
      RegistersPlain(c, keys - {Min(keys)}, o);
    }
  }

  lemma {:induction false} IntroductionPlain(cs: seq<Client>, at: nat, n: nat, o: Origin)
    requires at < |cs| && n <= |cs|
    ensures forall k :: 0 <= k < |Introduction(cs, at, n)| ==> ComesFrom(Introduction(cs, at, n)[k], o)
  {
    if n > 0 {
      IntroductionPlain(cs, at, n - 1, o);
      RegistersPlain(cs[n - 1], cs[n - 1].streams.Keys, o);
    }
  }

  lemma IntroduceContinues(cs: seq<Client>, at: nat, o: Origin)
    requires at < |cs|
    ensures AllContinue(cs, Introduce(cs, at), o)
  {
    IntroductionPlain(cs, at, |cs|, o);
  }

  lemma RelayDataContinues(cs: seq<Client>, at: nat, r: Request, o: Origin)
    requires at < |cs| && r.len <= |r.buffer| && (r.kind.StreamData? || r.kind.StreamDataDiscardable?)
    requires o.uid == cs[at].user.uid && o.sids == cs[at].streams.Keys
    ensures AllContinue(cs, RelayData(cs, at, r), o)
  {
    var cs1 := if cs[at].initialized then cs else Introduce(cs, at);
    IntroduceContinues(cs, at, o);
    if r.streamid in cs1[at].streams {
      var m := Message(r.kind, o.uid, r.streamid, Octets(r.buffer[..r.len]));
      TellContinues(cs1, ListeningBut(at), m, o);
      AllContinueOn(cs, cs1, RelayData(cs, at, r), o);
    }
  }

  lemma SpawnCheckedContinues(cfg: Config, cs: seq<Client>, at: nat, r: Request, o: Origin)
    requires at < |cs| && WellSized(r) && o.uid == cs[at].user.uid && o.spawning == IsVehicle(r.buffer)
    ensures AllContinue(cs, SpawnChecked(cfg, cs, at, r), o)
  {
  }

  lemma StreamAgrees(c: Client, r: Request)
    requires WellSized(r) && Faithful(r) && c.announced == c.streams
    ensures var data := Terminated(r.buffer);
            var c' := WithStream(c, r.streamid, data[..REGISTRATION_SIZE], data[..r.len]);
            c'.announced == c'.streams
  {
  }

  lemma AddStreamContinues(cfg: Config, cs: seq<Client>, at: nat, r: Request, o: Origin)
    requires at < |cs| && WellSized(r) && o.faithful == Faithful(r)
    ensures AllContinue(cs, AddStream(cfg, cs, at, r), o)
  {
    var data := Terminated(r.buffer);
    var c := WithStream(cs[at], r.streamid, data[..REGISTRATION_SIZE], data[..r.len]);
    var cs1 := cs[at := c];
    var cs2 := if NearLimit(cfg, |c.streams|) then Tell(cs1, ListeningUid(c.user.uid), NOTICE) else cs1;
    if Faithful(r) && cs[at].announced == cs[at].streams {
      StreamAgrees(cs[at], r);
    }
    assert AllContinue(cs, cs1, o);
    TellContinues(cs1, ListeningUid(c.user.uid), NOTICE, o);
    AllContinueOn(cs, cs1, cs2, o);
    TellContinues(cs2, ListeningBut(at), RegisterMessage(c.user.uid, r.streamid, data[..r.len]), o);
    AllContinueOn(cs, cs2, AddStream(cfg, cs, at, r), o);
  }

  /** A message passed on to a single client. */
  lemma PassingContinues(cs: seq<Client>, to: nat, m: Message, o: Origin)
    requires to < |cs| && ComesFrom(m, o)
    ensures AllContinue(cs, cs[to := Told(cs[to], m)], o)
  {
  }

  lemma ResultContinues(cs: seq<Client>, uid: nat, r: Request, o: Origin)
    requires WellSized(r)
    ensures AllContinue(cs, ForwardResult(cs, uid, r), o)
  {
    var to := Find(cs, OriginUid(r.buffer));
    if to >= 0 {
      PassingContinues(cs, to, Message(StreamRegisterResult, uid, r.streamid, Octets(r.buffer[..REGISTRATION_SIZE])), o);
    }
  }

  lemma PrivateChatContinues(cs: seq<Client>, at: nat, r: Request, o: Origin)
    requires at < |cs| && ADDRESS_SIZE <= r.len <= |r.buffer|
    ensures AllContinue(cs, PrivateChat(cs, at, r), o)
  {
    var to := Find(cs, cs[at].user.uid);
    if to >= 0 {
      PassingContinues(cs, to, PrivateMessage(cs[at].user.uid, r), o);
    }
  }

  lemma RemoveStreamContinues(cs: seq<Client>, at: nat, r: Request, o: Origin)
    requires at < |cs| && r.len <= |r.buffer|
    ensures AllContinue(cs, RemoveStream(cs, at, r), o)
  {
    if r.streamid in cs[at].streams {
      var cs1 := cs[at := WithoutStream(cs[at], r.streamid)];
      var m := Message(StreamUnregister, cs[at].user.uid, r.streamid, Octets(r.buffer[..r.len]));
      assert AllContinue(cs, cs1, o);
      TellContinues(cs1, Listening, m, o);
      AllContinueOn(cs, cs1, Tell(cs1, Listening, m), o);
    }
  }

  // ---------------------------------------------------------------- steps of the server

  /** The connected clients after a step: all of them later, or all but one, or one more. */
  ghost predicate Evolves(cs: seq<Client>, cs': seq<Client>, o: Origin) {
    || AllContinue(cs, cs', o)
    || (exists later, p :: AllContinue(cs, later, o) && Left(later, p, cs'))
  }

  predicate Left(later: seq<Client>, p: nat, cs': seq<Client>) {
    p < |later| && cs' == RemoveAt(later, p)
  }

  lemma DisconnectEvolves(s: Server, cs: seq<Client>, gone: nat, o: Origin)
    requires AllContinue(cs, s.clients, o)
    ensures Evolves(cs, Disconnect(s, gone).clients, o)
  {
    if Find(s.clients, gone) >= 0 {
      var told := Tell(s.clients, Everyone, LeaveMessage(gone));
      TellContinues(s.clients, Everyone, LeaveMessage(gone), o);
      AllContinueOn(cs, s.clients, told, o);
      assert Left(told, LastIndexOf(Users(s.clients), gone), Disconnect(s, gone).clients);
    }
  }

  lemma RefusalEvolves(s: Server, cs: seq<Client>, gone: nat, o: Origin)
    requires AllContinue(s.clients, cs, o)
    ensures Evolves(s.clients, Disconnect(s.(clients := Tell(cs, Listening, NOTICE)), gone).clients, o)
  {
    var told := Tell(cs, Listening, NOTICE);
    TellContinues(cs, Listening, NOTICE, o);
    AllContinueOn(s.clients, cs, told, o);
    DisconnectEvolves(s.(clients := told), s.clients, gone, o);
  }

  lemma RegisterEvolves(cfg: Config, s: Server, at: nat, r: Request, o: Origin)
    requires at < |s.clients| && WellSized(r)
    requires o.uid == s.clients[at].user.uid && o.spawning == IsVehicle(r.buffer) && o.faithful == Faithful(r)
    ensures Evolves(s.clients, RegisterStream(cfg, s, at, r).clients, o)
  {
    var c, cs := s.clients[at], SpawnChecked(cfg, s.clients, at, r);
    SpawnCheckedContinues(cfg, s.clients, at, r, o);
    match RegisterResult(cfg, c, r)
    case TooManyStreams =>
      TellContinues(s.clients, ListeningUid(c.user.uid), NOTICE, o);
      RefusalEvolves(s, Tell(s.clients, ListeningUid(c.user.uid), NOTICE), c.user.uid, o);
    case TooFast => RefusalEvolves(s, cs, c.user.uid, o);
    case BadName => RefusalEvolves(s, cs, c.user.uid, o);
    case Accepted =>
      AddStreamContinues(cfg, cs, at, r, o);
      AllContinueOn(s.clients, cs, AddStream(cfg, cs, at, r), o);
  }

  lemma SayLineContinues(cfg: Config, cs: seq<Client>, at: nat, r: Request, o: Origin)
    requires at < |cs| && r.len <= |r.buffer| && o.uid == cs[at].user.uid
    requires o.speaking && o.publishing == Publishes(cfg, cs[at], r)
    ensures AllContinue(cs, SayLine(cfg, cs, at, r), o)
  {
    var cs1 := cs[at := Spoken(cfg, cs[at], r)];
    var told := TellAll(cs1, ListeningUid(o.uid), NOTICE, FilterNotices(cfg, cs[at], r));
    assert AllContinue(cs, cs1, o);
    TellAllContinues(cs1, ListeningUid(o.uid), FilterNotices(cfg, cs[at], r), o);
    AllContinueOn(cs, cs1, told, o);
    if o.publishing {
      TellContinues(told, Listening, LineMessage(o.uid, r), o);
      AllContinueOn(cs, told, Tell(told, Listening, LineMessage(o.uid, r)), o);
    }
  }

  lemma ChatEvolves(cfg: Config, s: Server, at: nat, r: Request, o: Origin)
    requires at < |s.clients| && r.len <= |r.buffer|
    requires o.uid == s.clients[at].user.uid && o.speaking == !IsCommand(r)
    requires o.publishing == Publishes(cfg, s.clients[at], r)
    ensures Evolves(s.clients, Chat(cfg, s, at, r).clients, o)
  {
    var cs := s.clients;
    if !IsCommand(r) {
      SayLineContinues(cfg, cs, at, r, o);
    } else if r.command.Answered? {
      SayAllContinues(cs, r.command.notices, o);
    } else if !IsStaff(cs[at].user) || Find(cs, r.command.target) < 0 {
      TellContinues(cs, ListeningUid(o.uid), NOTICE, o);
    } else {
      assert AllContinue(cs, cs, o);
      RefusalEvolves(s, cs, r.command.target, o);
    }
  }

  lemma EvolvesOn(a: seq<Client>, b: seq<Client>, c: seq<Client>, o: Origin)
    requires AllContinue(a, b, o) && Evolves(b, c, o)
    ensures Evolves(a, c, o)
  {
    if AllContinue(b, c, o) {
      AllContinueOn(a, b, c, o);
    } else {
      var later, p :| AllContinue(b, later, o) && Left(later, p, c);
      AllContinueOn(a, b, later, o);
    }
  }

  /** The origin that a message from the client at `at` is. */
  function OriginOf(cfg: Config, cs: seq<Client>, at: nat, r: Request): Origin
    requires at < |cs| && WellSized(r)
  {
    Origin(cs[at].user.uid, cs[at].streams.Keys,
           r.kind.StreamRegister? && IsVehicle(r.buffer),
           r.kind.Utf8Chat? && !IsCommand(r),
           r.kind.Utf8Chat? && Publishes(cfg, cs[at], r),
           r.kind.StreamRegister? ==> Faithful(r))
  }

  const NOBODY: Origin := Origin(0, {}, false, false, false, true)

  lemma ReceiveEvolves(cfg: Config, s: Server, at: nat, r: Request)
    requires WellSized(r) && Addressed(r) && at < |s.clients| && Find(s.clients, s.clients[at].user.uid) == at
    ensures Evolves(s.clients, Receive(cfg, s, s.clients[at].user.uid, r).clients, OriginOf(cfg, s.clients, at, r))
  {
    var uid, o := s.clients[at].user.uid, OriginOf(cfg, s.clients, at, r);
    var cs := s.clients[at := QualityStep(s.clients[at], r.dropping)];
    var s1 := s.(clients := cs);
    QualityContinues(s.clients, at, r.dropping, o);
    if r.kind.UserLeave? {
      DisconnectEvolves(s1, s.clients, uid, o);
    } else {
      HandleEvolves(cfg, s1, at, r, o);
      EvolvesOn(s.clients, cs, Receive(cfg, s, uid, r).clients, o);
    }
  }

  lemma HandleEvolves(cfg: Config, s: Server, at: nat, r: Request, o: Origin)
    requires WellSized(r) && Addressed(r) && at < |s.clients| && o == OriginOf(cfg, s.clients, at, r)
    ensures Evolves(s.clients, Handle(cfg, s, at, r).clients, o)
  {
    match r.kind
    case StreamData => RelayDataContinues(s.clients, at, r, o);
    case StreamDataDiscardable => RelayDataContinues(s.clients, at, r, o);
    case StreamRegister => RegisterEvolves(cfg, s, at, r, o);
    case StreamRegisterResult => ResultContinues(s.clients, s.clients[at].user.uid, r, o);
    case StreamUnregister => RemoveStreamContinues(s.clients, at, r, o);
    case UserLeave => DisconnectEvolves(s, s.clients, s.clients[at].user.uid, o);
    case Utf8Chat => ChatEvolves(cfg, s, at, r, o);
    case Utf8PrivateChat => PrivateChatContinues(s.clients, at, r, o);
    case _ =>
  }

  // ---------------------------------------------------------------- by user id

  function LogOf(cs: seq<Client>, uid: nat): seq<Message> {
    var i := Find(cs, uid);
    if i < 0 then [] else cs[i].log
  }

  /** The origin that a step is. */
  function Sender(cfg: Config, s: Server, e: Event): Origin
    requires Enabled(cfg, s, e)
  {
    if e.Arrive? && Find(s.clients, e.uid) >= 0 then OriginOf(cfg, s.clients, Find(s.clients, e.uid), e.request)
    else NOBODY
  }

  /** A client that has just joined. */
  predicate IsFresh(c: Client) {
    && !c.receiving && c.spawnChecks == [] && c.said == [] && c.streams == map[] == c.announced
    && forall k :: 0 <= k < |c.log| ==> c.log[k].kind.UserJoin? && NoSecret(c.log[k])
  }

  /** The client goes on from where it was, or has just joined. */
  predicate Follows(cs: seq<Client>, c': Client, o: Origin) {
    var i := Find(cs, c'.user.uid);
    if i >= 0 then Continues(cs[i], c', o) else IsFresh(c')
  }

  lemma FoundLog(cs: seq<Client>, i: nat)
    requires DistinctUids(Users(cs)) && i < |cs|
    ensures Find(cs, cs[i].user.uid) == i && LogOf(cs, cs[i].user.uid) == cs[i].log
  {
    IndexOfIs(Users(cs), i);
    assert Users(cs)[i] == cs[i].user;
  }

  lemma EvolvesByUid(cs: seq<Client>, cs': seq<Client>, o: Origin, j: nat)
    requires DistinctUids(Users(cs)) && Evolves(cs, cs', o) && j < |cs'|
    ensures Follows(cs, cs'[j], o) && Find(cs, cs'[j].user.uid) >= 0
  {
    if AllContinue(cs, cs', o) {
      assert Continues(cs[j], cs'[j], o);
      FoundLog(cs, j);
    } else {
      var later, p :| AllContinue(cs, later, o) && Left(later, p, cs');
      var i := if j < p then j else j + 1;
      assert cs'[j] == later[i] && Continues(cs[i], later[i], o);
      FoundLog(cs, i);
    }
  }

  lemma JoinFollows(cfg: Config, s: Server, user: UserInfo, banned: bool, welcomed: bool, j: nat)
    requires DistinctUids(Users(s.clients)) && Find(s.clients, s.freeUid) < 0
    requires j < |CreateClient(cfg, s, user, banned, welcomed).clients|
    ensures Follows(s.clients, CreateClient(cfg, s, user, banned, welcomed).clients[j], NOBODY)
  {
    var cs, cs' := s.clients, CreateClient(cfg, s, user, banned, welcomed).clients;
    match JoinResult(cfg, s, banned, welcomed)
    case Banned => FoundLog(cs, j);
    case ServerFull => FoundLog(cs, j);
    case WelcomeFailed =>
      WelcomeFailedResult(cfg, s, user);
      TellContinues(cs, Everyone, LeaveMessage(s.freeUid), NOBODY);
      EvolvesByUid(cs, cs', NOBODY, j);
    case Joined =>
      var m := JoinMessage(NewUser(Users(cs), user, s.freeUid));
      JoinedResult(cfg, s, user);
      if j < |cs| {
        assert cs'[j] == Told(cs[j], m) && Continues(cs[j], cs'[j], NOBODY);
        FoundLog(cs, j);
      }
  }

  lemma ArriveFollows(cfg: Config, s: Server, uid: nat, r: Request, j: nat)
    requires DistinctUids(Users(s.clients)) && Enabled(cfg, s, Arrive(uid, r)) && j < |Receive(cfg, s, uid, r).clients|
    ensures Follows(s.clients, Receive(cfg, s, uid, r).clients[j], Sender(cfg, s, Arrive(uid, r)))
  {
    var at, o := Find(s.clients, uid), Sender(cfg, s, Arrive(uid, r));
    if at >= 0 {
      assert Users(s.clients)[at] == s.clients[at].user;
      ReceiveEvolves(cfg, s, at, r);
    } else {
      assert AllContinue(s.clients, s.clients, o);
    }
    EvolvesByUid(s.clients, Receive(cfg, s, uid, r).clients, o, j);
  }

  lemma MotdFollows(cs: seq<Client>, uid: nat, lines: nat, j: nat)
    requires DistinctUids(Users(cs)) && j < |TellAll(cs, ListeningUid(uid), NOTICE, lines)|
    ensures Follows(cs, TellAll(cs, ListeningUid(uid), NOTICE, lines)[j], NOBODY)
  {
    TellAllContinues(cs, ListeningUid(uid), lines, NOBODY);
    EvolvesByUid(cs, TellAll(cs, ListeningUid(uid), NOTICE, lines), NOBODY, j);
  }

  lemma DropFollows(s: Server, uid: nat, j: nat)
    requires DistinctUids(Users(s.clients)) && j < |Disconnect(s, uid).clients|
    ensures Follows(s.clients, Disconnect(s, uid).clients[j], NOBODY)
  {
    assert AllContinue(s.clients, s.clients, NOBODY);
    DisconnectEvolves(s, s.clients, uid, NOBODY);
    EvolvesByUid(s.clients, Disconnect(s, uid).clients, NOBODY, j);
  }

  lemma ListenFollows(cs: seq<Client>, uid: nat, j: nat)
    requires DistinctUids(Users(cs)) && j < |StartListening(cs, uid)|
    ensures Follows(cs, StartListening(cs, uid)[j], NOBODY)
  {
    assert AllContinue(cs, StartListening(cs, uid), NOBODY);
    EvolvesByUid(cs, StartListening(cs, uid), NOBODY, j);
  }

  /** In every step each client goes on from where it was: its log is extended, stream data and chat lines
      come from the client whose message is handled, flags stay set, spawn records change only for the client
      that registers a vehicle, and only the sender of a chat line has said one. */
  lemma NextFollows(cfg: Config, s: Server, e: Event, j: nat)
    requires DistinctUids(Users(s.clients)) && Find(s.clients, s.freeUid) < 0
    requires Enabled(cfg, s, e) && j < |Next(cfg, s, e).clients|
    ensures Follows(s.clients, Next(cfg, s, e).clients[j], Sender(cfg, s, e))
  {
    var cs, o := s.clients, Sender(cfg, s, e);
    match e
    case Join(user, banned, welcomed) => JoinFollows(cfg, s, user, banned, welcomed, j);
    case Motd(to, lines) => MotdFollows(cs, to, lines, j);
    case Drop(gone) => DropFollows(s, gone, j);
    case Listen(to) => ListenFollows(cs, to, j);
    case Arrive(from, r) => ArriveFollows(cfg, s, from, r, j);
    case _ =>
      assert AllContinue(cs, cs, o);
      EvolvesByUid(cs, cs, o, j);
  }

  /** A state some run reaches, the step made there, and a client after it. */
  predicate ClientAfter(cfg: Config, s: Server, e: Event, j: nat, c: Client) {
    Enabled(cfg, s, e) && j < |Next(cfg, s, e).clients| && c == Next(cfg, s, e).clients[j]
  }

  lemma ReachableFollows(cfg: Config, s: Server, e: Event, j: nat, c: Client)
    requires Reachable(cfg, s) && ClientAfter(cfg, s, e, j, c)
    ensures Follows(s.clients, c, Sender(cfg, s, e)) && LogOf(s.clients, c.user.uid) <= c.log
  {
    ReachableInv(cfg, s);
    FreeUidIsFresh(cfg, s);
    NextFollows(cfg, s, e, j);
  }

  /** In every run: whenever stream data is queued for anybody, it is the data of a connected client that
      has registered the stream and not unregistered it since. */
  lemma DataComesFromRegisteredStreams(cfg: Config, s: Server, e: Event, j: nat, c: Client, k: nat)
    requires Reachable(cfg, s) && ClientAfter(cfg, s, e, j, c)
    requires |LogOf(s.clients, c.user.uid)| <= k < |c.log| && IsData(c.log[k])
    ensures e.Arrive? && c.log[k].source == e.uid && Registered(s.clients, e.uid, c.log[k].streamid).Some?
  {
    ReachableFollows(cfg, s, e, j, c);
  }

  /** In every run: a chat line of a client reaches others only when that very line is published; a command, or
      a line of a gagged player, reaches nobody. */
  lemma ChatComesFromPublishedLines(cfg: Config, s: Server, e: Event, j: nat, c: Client, k: nat)
    requires Reachable(cfg, s) && ClientAfter(cfg, s, e, j, c)
    requires |LogOf(s.clients, c.user.uid)| <= k < |c.log|
    requires c.log[k].kind.Utf8Chat? && c.log[k].source != SERVER_UID
    ensures e.Arrive? && Find(s.clients, e.uid) >= 0 && c.log[k].source == e.uid && e.request.kind.Utf8Chat?
            && Publishes(cfg, s.clients[Find(s.clients, e.uid)], e.request)
  {
    ReachableFollows(cfg, s, e, j, c);
  }

  /** In every run the receiving flag of a connected client, once set, stays set. */
  lemma FlagsStaySet(cfg: Config, s: Server, e: Event, j: nat, c: Client)
    requires Reachable(cfg, s) && ClientAfter(cfg, s, e, j, c)
    ensures var i := Find(s.clients, c.user.uid); i >= 0 && s.clients[i].receiving ==> c.receiving
  {
    ReachableFollows(cfg, s, e, j, c);
  }

  // ---------------------------------------------------------------- tokens

  /** Nobody has been sent anybody's token or guid. */
  predicate NoSecrets(cs: seq<Client>) {
    forall i, k :: 0 <= i < |cs| && 0 <= k < |cs[i].log| ==> NoSecret(cs[i].log[k])
  }

  lemma NextKeepsSecrets(cfg: Config, s: Server, e: Event)
    requires Inv(cfg, s) && NoSecrets(s.clients) && Enabled(cfg, s, e)
    ensures NoSecrets(Next(cfg, s, e).clients)
  {
    var cs' := Next(cfg, s, e).clients;
    FreeUidIsFresh(cfg, s);
    forall j, k | 0 <= j < |cs'| && 0 <= k < |cs'[j].log| ensures NoSecret(cs'[j].log[k]) {
      NextFollows(cfg, s, e, j);
      var i := Find(s.clients, cs'[j].user.uid);
      if i >= 0 && k < |s.clients[i].log| {
        assert NoSecret(s.clients[i].log[k]);
      }
    }
  }

  lemma {:induction false} RunKeepsSecrets(cfg: Config, s: Server, events: seq<Event>)
    requires Inv(cfg, s) && NoSecrets(s.clients) && RegularRun(cfg, s, events)
    ensures Runs(cfg, s, events) && NoSecrets(Run(cfg, s, events).clients)
    decreases |events|
  {
    if events != [] {
      NextKeepsSecrets(cfg, s, events[0]);
      NextKeepsInv(cfg, s, events[0]);
      RunKeepsSecrets(cfg, Next(cfg, s, events[0]), events[1..]);
    }
  }

  /** In every reachable state: no user record that anybody was ever sent shows a token or a guid. */
  lemma SecretsAreKept(cfg: Config, s: Server, i: nat, k: nat)
    requires Reachable(cfg, s) && i < |s.clients| && k < |s.clients[i].log| && s.clients[i].log[k].payload.User?
    ensures s.clients[i].log[k].payload.info.token == "" && s.clients[i].log[k].payload.info.guid == ""
  {
    var events :| RegularRun(cfg, STARTED, events) && Runs(cfg, STARTED, events) && s == Run(cfg, STARTED, events);
    StartedInv(cfg);
    RunKeepsSecrets(cfg, STARTED, events);
    assert NoSecret(s.clients[i].log[k]);
  }

  // ---------------------------------------------------------------- faithful runs

  /** Registrations come over a clear buffer, as every one with a payload does. */
  predicate FaithfulRun(events: seq<Event>) {
    forall i :: 0 <= i < |events| && events[i].Arrive? && events[i].request.kind.StreamRegister? ==>
      WellSized(events[i].request) && Faithful(events[i].request)
  }

  lemma NextAgrees(cfg: Config, s: Server, e: Event)
    requires Inv(cfg, s) && Agreed(s.clients) && Enabled(cfg, s, e) && FaithfulRun([e])
    ensures Agreed(Next(cfg, s, e).clients)
  {
    var cs' := Next(cfg, s, e).clients;
    FreeUidIsFresh(cfg, s);
    assert [e][0] == e;
    forall j | 0 <= j < |cs'| ensures cs'[j].announced == cs'[j].streams {
      NextFollows(cfg, s, e, j);
    }
  }

  lemma {:induction false} RunAgrees(cfg: Config, s: Server, events: seq<Event>)
    requires Inv(cfg, s) && Agreed(s.clients) && RegularRun(cfg, s, events) && FaithfulRun(events)
    ensures Runs(cfg, s, events) && Agreed(Run(cfg, s, events).clients)
    decreases |events|
  {
    if events != [] {
      assert [events[0]][0] == events[0];
      NextAgrees(cfg, s, events[0]);
      NextKeepsInv(cfg, s, events[0]);
      RunAgrees(cfg, Next(cfg, s, events[0]), events[1..]);
    }
  }

  /** After a run whose registrations all come over a clear buffer, every introduced client's log replays
      to exactly the server's roster and stream table. */
  lemma FaithfulViewsAreExact(cfg: Config, events: seq<Event>, i: nat)
    requires RegularRun(cfg, STARTED, events) && FaithfulRun(events) && Runs(cfg, STARTED, events)
    requires var s := Run(cfg, STARTED, events); i < |s.clients| && s.clients[i].initialized
    ensures var s := Run(cfg, STARTED, events);
            var r := s.clients[i];
            && Replay(r.log).users == Roster(s.clients)
            && OthersStreams(Replay(r.log), r.user.uid) == StreamTable(s.clients, r.user.uid)
  {
    var s := Run(cfg, STARTED, events);
    StartedInv(cfg);
    RunAgrees(cfg, STARTED, events);
    ViewsAreReplicas(cfg, s, i);
  }
}
