/** Nicknames over whole runs. Names are ASCII, so sanitising them changes nothing. */
module RelayNames {
  import opened RoRnet
  import opened Identity
  import opened Relay
  import opened RelayMembership
  import opened RelayRuns
  import opened RelayTheorems

  // ---------------------------------------------------------------- how the user list changes

  /** One step leaves the users alone, removes one, or appends the one who joins. */
  ghost predicate UsersEvolve(s: Server, e: Event, us': seq<UserInfo>) {
    var us := Users(s.clients);
    || us' == us
    || (exists p :: 0 <= p < |us| && us' == RemoveAt(us, p))
    || (e.Join? && us' == us + [NewUser(us, e.user, s.freeUid)])
  }

  lemma TellUsers(cs: seq<Client>, a: Audience, m: Message)
    ensures Users(Tell(cs, a, m)) == Users(cs)
  {
  }

  lemma {:induction false} TellAllUsers(cs: seq<Client>, a: Audience, m: Message, times: nat)
    ensures Users(TellAll(cs, a, m, times)) == Users(cs)
    decreases times
  {
    if times > 0 {
      TellUsers(cs, a, m);
      TellAllUsers(Tell(cs, a, m), a, m, times - 1);
    }
  }

  lemma {:induction false} SayAllUsers(cs: seq<Client>, notices: seq<Audience>)
    ensures Users(SayAll(cs, notices)) == Users(cs)
  {
    if notices != [] {
      SayAllUsers(cs, notices[..|notices| - 1]);
      TellUsers(SayAll(cs, notices[..|notices| - 1]), notices[|notices| - 1], NOTICE);
    }
  }

  lemma UpdateUsers(cs: seq<Client>, at: nat, c: Client)
    requires at < |cs| && c.user == cs[at].user
    ensures Users(cs[at := c]) == Users(cs)
  {
  }

  lemma DisconnectUsers(s: Server, uid: nat)
    ensures var us, us' := Users(s.clients), Users(Disconnect(s, uid).clients);
            us' == us || exists p :: 0 <= p < |us| && us' == RemoveAt(us, p)
  {
    if Find(s.clients, uid) >= 0 {
      var p := LastIndexOf(Users(s.clients), uid);
      var told := Tell(s.clients, Everyone, LeaveMessage(uid));
      TellUsers(s.clients, Everyone, LeaveMessage(uid));
      UsersRemoveAt(told, p);
      assert Users(Disconnect(s, uid).clients) == RemoveAt(Users(s.clients), p);
    }
  }

  lemma CreateUsers(cfg: Config, s: Server, user: UserInfo, banned: bool, welcomed: bool)
    requires DistinctUids(Users(s.clients)) && Find(s.clients, s.freeUid) < 0
    ensures UsersEvolve(s, Join(user, banned, welcomed), Users(CreateClient(cfg, s, user, banned, welcomed).clients))
  {
    var u := NewUser(Users(s.clients), user, s.freeUid);
    UsersAppend(s.clients, NewClient(cfg, u));
    match JoinResult(cfg, s, banned, welcomed)
    case Joined => TellUsers(Admitted(cfg, s, user).clients, Everyone, JoinMessage(u));
    case WelcomeFailed =>
      RelayRuns.WelcomeFailedResult(cfg, s, user);
      TellUsers(s.clients, Everyone, LeaveMessage(s.freeUid));
    case _ =>
  }

  lemma RelayDataUsers(cs: seq<Client>, at: nat, r: Request)
    requires at < |cs| && r.len <= |r.buffer|
    ensures Users(RelayData(cs, at, r)) == Users(cs)
  {
  }

  lemma SpawnCheckedUsers(cfg: Config, cs: seq<Client>, at: nat, r: Request)
    requires at < |cs| && WellSized(r)
    ensures Users(SpawnChecked(cfg, cs, at, r)) == Users(cs)
  {
  }

  lemma AddStreamUsers(cfg: Config, cs: seq<Client>, at: nat, r: Request)
    requires at < |cs| && WellSized(r)
    ensures Users(AddStream(cfg, cs, at, r)) == Users(cs)
  {
  }

  lemma RegisterUsers(cfg: Config, s: Server, at: nat, r: Request)
    requires at < |s.clients| && WellSized(r)
    ensures var us, us' := Users(s.clients), Users(RegisterStream(cfg, s, at, r).clients);
            us' == us || exists p :: 0 <= p < |us| && us' == RemoveAt(us, p)
  {
    var c, a := s.clients[at], ListeningUid(s.clients[at].user.uid);
    var cs := SpawnChecked(cfg, s.clients, at, r);
    SpawnCheckedUsers(cfg, s.clients, at, r);
    AddStreamUsers(cfg, cs, at, r);
    TellUsers(cs, Listening, NOTICE);
    TellUsers(s.clients, a, NOTICE);
    TellUsers(Tell(s.clients, a, NOTICE), Listening, NOTICE);
    DisconnectUsers(s.(clients := Tell(cs, Listening, NOTICE)), c.user.uid);
    DisconnectUsers(s.(clients := Tell(Tell(s.clients, a, NOTICE), Listening, NOTICE)), c.user.uid);
  }

  lemma SayLineUsers(cfg: Config, cs: seq<Client>, at: nat, r: Request)
    requires at < |cs| && r.len <= |r.buffer|
    ensures Users(SayLine(cfg, cs, at, r)) == Users(cs)
  {
    var c, a, times := Spoken(cfg, cs[at], r), ListeningUid(cs[at].user.uid), FilterNotices(cfg, cs[at], r);
    UpdateUsers(cs, at, c);
    TellAllUsers(cs[at := c], a, NOTICE, times);
    TellUsers(TellAll(cs[at := c], a, NOTICE, times), Listening, LineMessage(cs[at].user.uid, r));
  }

  lemma ChatUsers(cfg: Config, s: Server, at: nat, r: Request)
    requires at < |s.clients| && r.len <= |r.buffer|
    ensures var us, us' := Users(s.clients), Users(Chat(cfg, s, at, r).clients);
            us' == us || exists p :: 0 <= p < |us| && us' == RemoveAt(us, p)
  {
    var cs := s.clients;
    if !IsCommand(r) {
      SayLineUsers(cfg, cs, at, r);
    } else if r.command.Answered? {
      SayAllUsers(cs, r.command.notices);
    } else {
      TellUsers(cs, ListeningUid(cs[at].user.uid), NOTICE);
      TellUsers(cs, Listening, NOTICE);
      DisconnectUsers(s.(clients := Tell(cs, Listening, NOTICE)), r.command.target);
    }
  }

  lemma ReceiveUsers(cfg: Config, s: Server, uid: nat, r: Request)
    requires WellSized(r) && Addressed(r)
    ensures var us, us' := Users(s.clients), Users(Receive(cfg, s, uid, r).clients);
            us' == us || exists p :: 0 <= p < |us| && us' == RemoveAt(us, p)
  {
    var at := Find(s.clients, uid);
    if at >= 0 {
      var c := QualityStep(s.clients[at], r.dropping);
      var cs := s.clients[at := c];
      UpdateUsers(s.clients, at, c);
      match r.kind
      case StreamData => RelayDataUsers(cs, at, r);
      case StreamDataDiscardable => RelayDataUsers(cs, at, r);
      case StreamRegister => RegisterUsers(cfg, s.(clients := cs), at, r);
      case StreamUnregister => assert Users(RemoveStream(cs, at, r)) == Users(cs);
      case UserLeave => DisconnectUsers(s.(clients := cs), uid);
      case Utf8Chat => ChatUsers(cfg, s.(clients := cs), at, r);
      case StreamRegisterResult =>
        var origin := Find(cs, OriginUid(r.buffer));
        if origin >= 0 {
          UpdateUsers(cs, origin, Told(cs[origin],
            Message(StreamRegisterResult, uid, r.streamid, Octets(r.buffer[..REGISTRATION_SIZE]))));
        }
      case Utf8PrivateChat => PrivateChatUsers(cs, at, r);
      case _ =>
    }
  }

  lemma PrivateChatUsers(cs: seq<Client>, at: nat, r: Request)
    requires at < |cs| && ADDRESS_SIZE <= r.len <= |r.buffer|
    ensures Users(PrivateChat(cs, at, r)) == Users(cs)
  {
  }

  lemma NextUsers(cfg: Config, s: Server, e: Event)
    requires Enabled(cfg, s, e) && DistinctUids(Users(s.clients)) && Find(s.clients, s.freeUid) < 0
    ensures UsersEvolve(s, e, Users(Next(cfg, s, e).clients))
  {
    match e
    case Join(user, banned, welcomed) => CreateUsers(cfg, s, user, banned, welcomed);
    case Listen(uid) => assert Users(StartListening(s.clients, uid)) == Users(s.clients);
    case Motd(uid, lines) => TellAllUsers(s.clients, ListeningUid(uid), NOTICE, lines);
    case Arrive(uid, r) =>
      if Find(s.clients, uid) >= 0 {
        ReceiveUsers(cfg, s, uid, r);
      }
    case Drop(uid) => DisconnectUsers(s, uid);
    case _ =>
  }

  // ---------------------------------------------------------------- names

  predicate NamesOk(us: seq<UserInfo>) {
    DistinctNames(us) && NamesFit(us)
  }

  /** Joining keeps names apart exactly when the wanted name or one of the 97 substitutes is free. */
  lemma JoinKeepsNamesExactly(us: seq<UserInfo>, user: UserInfo, uid: nat)
    requires DistinctNames(us)
    ensures DistinctNames(us + [NewUser(us, user, uid)])
       <==> NonEmpty(user.name) !in Names(us)
            || exists o :: o in Candidates(NonEmpty(user.name)) && o !in Names(us)
  {
    var u := NewUser(us, user, uid);
    var us' := us + [u];
    ChosenNameIsFree(Names(us), user.name);
    if u.name in Names(us) {
      var i :| 0 <= i < |us| && us[i].name == u.name;
      assert us'[i].name == us'[|us|].name;
    } else {
      assert forall i :: 0 <= i < |us| ==> us[i].name in Names(us);
    }
  }

  /** The user who joins sends a name that fits the field, and meets at most 96 others. */
  predicate NamesRegular(s: Server, e: Event) {
    e.Join? ==> |e.user.name| < MAX_USERNAME_LEN && |s.clients| < SUFFIX_LIMIT - FIRST_SUFFIX
  }

  lemma EvolveKeepsNames(s: Server, e: Event, us': seq<UserInfo>)
    requires NamesOk(Users(s.clients)) && NamesRegular(s, e) && UsersEvolve(s, e, us')
    ensures NamesOk(us')
  {
    var us := Users(s.clients);
    if us' == us {
    } else if e.Join? && us' == us + [NewUser(us, e.user, s.freeUid)] {
      ChosenNameIsNew(us, e.user.name);
      ChosenNameFits(Names(us), e.user.name);
      assert forall i :: 0 <= i < |us| ==> us[i].name in Names(us);
    } else {
      var p :| 0 <= p < |us| && us' == RemoveAt(us, p);
      assert forall j :: 0 <= j < |us'| ==> us'[j] == us[if j < p then j else j + 1];
    }
  }

  ghost predicate NamesRegularRun(cfg: Config, s: Server, events: seq<Event>)
    requires RegularRun(cfg, s, events)
    decreases |events|
  {
    events == [] || (NamesRegular(s, events[0]) && NamesRegularRun(cfg, Next(cfg, s, events[0]), events[1..]))
  }

  /** Nicknames stay distinct and fit the field in every run in which names fit when they arrive
      and nobody joins a crowd of more than 96. */
  lemma {:induction false} NamesStayDistinct(cfg: Config, s: Server, events: seq<Event>)
    requires Inv(cfg, s) && RegularRun(cfg, s, events) && NamesRegularRun(cfg, s, events)
    requires NamesOk(Users(s.clients))
    ensures Runs(cfg, s, events) && NamesOk(Users(Run(cfg, s, events).clients))
    decreases |events|
  {
    RunKeepsInv(cfg, s, events);
    if events != [] {
      var s' := Next(cfg, s, events[0]);
      FreeUidIsFresh(cfg, s);
      NextUsers(cfg, s, events[0]);
      EvolveKeepsNames(s, events[0], Users(s'.clients));
      NextKeepsInv(cfg, s, events[0]);
      NamesStayDistinct(cfg, s', events[1..]);
    }
  }

  // ---------------------------------------------------------------- servers without bots

  /** Every user who joins has a name that fits and is no bot. */
  predicate PlayersOnly(events: seq<Event>) {
    forall i :: 0 <= i < |events| && events[i].Join? ==>
      |events[i].user.name| < MAX_USERNAME_LEN && !IsBot(events[i].user)
  }

  lemma EvolveKeepsBotless(s: Server, e: Event, us': seq<UserInfo>)
    requires Bots(Users(s.clients)) == 0 && UsersEvolve(s, e, us') && (e.Join? ==> !IsBot(e.user))
    ensures Bots(us') == 0
  {
    var us := Users(s.clients);
    if us' == us {
    } else if e.Join? && us' == us + [NewUser(us, e.user, s.freeUid)] {
      BotsAppend(us, NewUser(us, e.user, s.freeUid));
    } else {
      var p :| 0 <= p < |us| && us' == RemoveAt(us, p);
      BotsRemove(us, p);
    }
  }

  /** Without bots the limit of at most 64 players keeps every join below the crowd of 97. */
  lemma {:induction false} BotlessRunsAreRegular(cfg: Config, s: Server, events: seq<Event>)
    requires Inv(cfg, s) && RegularRun(cfg, s, events) && cfg.maxClients <= 64
    requires Bots(Users(s.clients)) == 0 && PlayersOnly(events)
    ensures NamesRegularRun(cfg, s, events)
    decreases |events|
  {
    if events != [] {
      var s' := Next(cfg, s, events[0]);
      FreeUidIsFresh(cfg, s);
      NextUsers(cfg, s, events[0]);
      EvolveKeepsBotless(s, events[0], Users(s'.clients));
      NextKeepsInv(cfg, s, events[0]);
      BotlessRunsAreRegular(cfg, s', events[1..]);
    }
  }

  /** On a server without bots nicknames are always distinct. */
  lemma BotlessNamesDistinct(cfg: Config, events: seq<Event>)
    requires cfg.maxClients <= 64 && RegularRun(cfg, STARTED, events) && PlayersOnly(events)
    ensures Runs(cfg, STARTED, events) && NamesOk(Users(Run(cfg, STARTED, events).clients))
  {
    StartedInv(cfg);
    assert Users(STARTED.clients) == [];
    assert Bots([]) == 0;
    BotlessRunsAreRegular(cfg, STARTED, events);
    NamesStayDistinct(cfg, STARTED, events);
  }

  // ---------------------------------------------------------------- nobody comes back

  /** A user id that has been given out and is not connected never shows up again. */
  lemma GoneStaysGone(cfg: Config, s: Server, e: Event, uid: nat)
    requires Inv(cfg, s) && Enabled(cfg, s, e) && uid < s.freeUid && Find(s.clients, uid) < 0
    ensures Find(Next(cfg, s, e).clients, uid) < 0
  {
    var us, us' := Users(s.clients), Users(Next(cfg, s, e).clients);
    FreeUidIsFresh(cfg, s);
    NextUsers(cfg, s, e);
    if us' == us {
    } else if e.Join? && us' == us + [NewUser(us, e.user, s.freeUid)] {
      AppendUser(us, NewUser(us, e.user, s.freeUid), uid);
    } else {
      var p :| 0 <= p < |us| && us' == RemoveAt(us, p);
      RemoveUser(us, p, uid);
    }
  }
}
