/** Who comes, who is listened to and who is deleted, told in the state of the server itself. */
module RelayMembers {
  import opened RoRnet
  import opened Identity
  import opened Threads
  import opened Relay
  import opened RelayRuns
  import opened RelayTheorems
  import opened RelayEffects
  import SpamFilter

  // ---------------------------------------------------------------- joining

  function BotPlaces(us: seq<UserInfo>): set<int> {
    set k | 0 <= k < |us| && us[k].auth & 8 != 0
  }

  lemma BotPlacesMore(us: seq<UserInfo>, n: nat)
    requires |us| == n + 1
    ensures |BotPlaces(us)| == |BotPlaces(us[..n])| + if us[n].auth & 8 != 0 then 1 else 0
  {
    assert BotPlaces(us) == BotPlaces(us[..n]) + if us[n].auth & 8 != 0 then {n} else {};
  }

  lemma {:induction false} BotsCounted(us: seq<UserInfo>)
    ensures Bots(us) == |BotPlaces(us)|
  {
    if us == [] {
      assert BotFlags(us) == [];
    } else {
      var n := |us| - 1;
      BotsCounted(us[..n]);
      BotsAppend(us[..n], us[n]);
      assert us == us[..n] + [us[n]];
      BotPlacesMore(us, n);
    }
  }

  /** The players other than bots fill the server. */
  predicate IsFull(cfg: Config, cs: seq<Client>) {
    |cs| - |set k | 0 <= k < |cs| && (cs[k].user.auth & 8) != 0| >= cfg.maxClients
  }

  lemma FullMeans(cfg: Config, s: Server)
    requires s.botCount == Bots(Users(s.clients))
    ensures IsFull(cfg, s.clients) <==> |s.clients| >= cfg.maxClients + s.botCount
  {
    BotsCounted(Users(s.clients));
    assert BotPlaces(Users(s.clients)) == set k | 0 <= k < |s.clients| && s.clients[k].user.auth & 8 != 0;
  }

  /** In every reachable state: who is banned does not get in, nor does anybody while the server is full; nobody
      notices. */
  lemma RefusedAtTheDoor(cfg: Config, s: Server, user: UserInfo, banned: bool, welcomed: bool)
    requires Reachable(cfg, s)
    ensures banned || IsFull(cfg, s.clients) ==> Next(cfg, s, Join(user, banned, welcomed)) == s
  {
    assert CountsOk(cfg, s) by { ReachableInv(cfg, s); }
    FullMeans(cfg, s);
  }

  predicate HasColour(cs: seq<Client>, c: int) {
    exists k :: 0 <= k < |cs| && cs[k].user.colour == c
  }

  /** The record of a new user: the next id, the least colour that nobody has, and the name chosen for it. */
  ghost predicate IsNewcomer(s: Server, user: UserInfo, u: UserInfo) {
    var cs := s.clients;
    && u == user.(uid := s.freeUid, colour := u.colour, name := u.name)
    && u.colour >= 0 && (forall k :: 0 <= k < |cs| ==> cs[k].user.colour != u.colour)
    && (forall c :: 0 <= c < u.colour ==> HasColour(cs, c))
    && NamedFor(set k | 0 <= k < |cs| :: cs[k].user.name, user.name, u.name)
  }

  lemma NewcomerIs(s: Server, user: UserInfo)
    ensures IsNewcomer(s, user, NewUser(Users(s.clients), user, s.freeUid))
  {
    var cs, us := s.clients, Users(s.clients);
    var u := NewUser(us, user, s.freeUid);
    var taken := set k | 0 <= k < |cs| :: cs[k].user.name;
    assert forall k :: 0 <= k < |cs| ==> us[k] == cs[k].user;
    forall n ensures n in taken <==> n in Names(us) {
      if n in taken {
        var k :| 0 <= k < |cs| && n == cs[k].user.name;
        assert us[k].name == n;
      }
    }
    assert taken == Names(us);
    ChosenNameSpelled(taken, user.name);
    forall c | 0 <= c < u.colour ensures HasColour(cs, c) {
      assert ColourUsed(us, c);
      var k :| 0 <= k < |us| && us[k].colour == c;
      assert cs[k].user.colour == c;
    }
    forall k | 0 <= k < |cs| ensures cs[k].user.colour != u.colour {
      assert us[k].colour != u.colour;
    }
  }

  /** A client as it is created: it does not listen and is not introduced, it has no streams and has said nothing, and
      both its threads run. */
  function Fresh(cfg: Config, u: UserInfo, log: seq<Message>): Client {
    Client(u, false, false, cfg.freshMemory(u.uid), map[], [], SpamFilter.State([], SpamFilter.Free), Running, Running,
           map[], [], [], log)
  }

  lemma CreatedFresh(cfg: Config, u: UserInfo, m: Message)
    ensures Told(NewClient(cfg, u), m) == Fresh(cfg, u, [m])
  {
    assert [] + [m] == [m];
  }

  lemma GoneAtOnce(cfg: Config, s: Server, user: UserInfo)
    requires DistinctUids(Users(s.clients)) && Find(s.clients, s.freeUid) < 0
    requires JoinResult(cfg, s, false, false).WelcomeFailed?
    ensures var s', u := CreateClient(cfg, s, user, false, false), NewUser(Users(s.clients), user, s.freeUid);
            var leave := Message(UserLeave, s.freeUid, 0, Text);
            s' == s.(clients := Tell(s.clients, Everyone, leave), killQueue := s.killQueue + [Fresh(cfg, u, [leave])],
                     freeUid := (s.freeUid + 1) % 0x1_0000_0000)
  {
    var u := NewUser(Users(s.clients), user, s.freeUid);
    WelcomeFailedResult(cfg, s, user);
    CreatedFresh(cfg, u, LeaveMessage(s.freeUid));
    assert Admitted(cfg, s, user).clients[|s.clients|] == NewClient(cfg, u);
  }

  lemma OutcomeIs(cfg: Config, s: Server, user: UserInfo, welcomed: bool)
    requires Reachable(cfg, s) && !IsFull(cfg, s.clients)
    ensures Next(cfg, s, Join(user, false, welcomed)) == CreateClient(cfg, s, user, false, welcomed)
    ensures JoinResult(cfg, s, false, welcomed) == if welcomed then Joined else WelcomeFailed
    ensures DistinctUids(Users(s.clients)) && Find(s.clients, s.freeUid) < 0
  {
    ReachableInv(cfg, s);
    FreeUidIsFresh(cfg, s);
    FullMeans(cfg, s);
  }

  /** In every reachable state: anybody else who can be welcomed is the last client from then on, under the next id,
      and everybody, the newcomer too, is sent one JOIN with the new record but for its token and guid. */
  lemma JoiningIsTold(cfg: Config, s: Server, user: UserInfo)
    requires Reachable(cfg, s) && !IsFull(cfg, s.clients)
    ensures var s', n := Next(cfg, s, Join(user, false, true)), |s.clients|;
            && |s'.clients| == n + 1
            && var u := s'.clients[n].user;
               var join := Message(UserJoin, s.freeUid, 0, User(u.(token := "", guid := "")));
               && IsNewcomer(s, user, u) && s'.clients[n] == Fresh(cfg, u, [join])
               && (forall j :: 0 <= j < n ==> Sent(s.clients[j], s'.clients[j], [join]))
               && s' == s.(clients := s'.clients, freeUid := (s.freeUid + 1) % 0x1_0000_0000,
                           botCount := s.botCount + if user.auth & 8 != 0 then 1 else 0)
  {
    var u := NewUser(Users(s.clients), user, s.freeUid);
    OutcomeIs(cfg, s, user, true);
    JoinedResult(cfg, s, user);
    CreatedFresh(cfg, u, JoinMessage(u));
    NewcomerIs(s, user);
  }

  /** If it cannot be welcomed, it is gone at once, but its id is used up: it waits to be killed, and everybody is sent
      one LEAVE. */
  lemma WelcomeFailureIsTold(cfg: Config, s: Server, user: UserInfo)
    requires Reachable(cfg, s) && !IsFull(cfg, s.clients)
    ensures var s', n := Next(cfg, s, Join(user, false, false)), |s.killQueue|;
            var leave := Message(UserLeave, s.freeUid, 0, Text);
            && |s'.clients| == |s.clients|
            && (forall j :: 0 <= j < |s.clients| ==> Sent(s.clients[j], s'.clients[j], [leave]))
            && |s'.killQueue| == n + 1
            && var u := s'.killQueue[n].user;
               && IsNewcomer(s, user, u) && s'.killQueue == s.killQueue + [Fresh(cfg, u, [leave])]
               && s' == s.(clients := s'.clients, killQueue := s'.killQueue,
                           freeUid := (s.freeUid + 1) % 0x1_0000_0000)
  {
    OutcomeIs(cfg, s, user, false);
    GoneAtOnce(cfg, s, user);
    NewcomerIs(s, user);
  }

  // ---------------------------------------------------------------- listening

  /** When its receiver thread starts, exactly that client listens from then on. */
  lemma ListeningStarts(cfg: Config, s: Server, uid: nat, j: nat)
    requires Reachable(cfg, s) && j < |s.clients|
    ensures var s', c := Next(cfg, s, Listen(uid)), s.clients[j];
            SameMembers(s, s') && s'.clients[j] == c.(receiving := c.receiving || c.user.uid == uid)
  {
    assert DistinctUids(Users(s.clients)) by { ReachableInv(cfg, s); }
    var at := Find(s.clients, uid);
    assert Users(s.clients)[j] == s.clients[j].user;
    assert at >= 0 ==> Users(s.clients)[at] == s.clients[at].user;
  }

  // ---------------------------------------------------------------- deleting

  /** Everybody who has left, in the order in which they are deleted. */
  function Departures(s: Server): seq<Client> {
    s.destroyed + s.killing + s.killQueue
  }

  /** The same clients, and perhaps others behind them. */
  predicate LeavesBehind(before: seq<Client>, after: seq<Client>) {
    |before| <= |after| && forall k :: 0 <= k < |before| ==> after[k].user == before[k].user
  }

  /** Only the end of the kill queue may have changed. */
  predicate OnlyQueued(s: Server, s': Server) {
    && s'.destroyed == s.destroyed && s'.killing == s.killing && s'.abandoned == s.abandoned && s'.killer == s.killer
    && s.killQueue <= s'.killQueue
  }

  lemma RegisterOnlyQueues(cfg: Config, s: Server, at: nat, r: Request)
    requires at < |s.clients| && WellSized(r)
    ensures OnlyQueued(s, RegisterStream(cfg, s, at, r))
  {
  }

  lemma ChatOnlyQueues(cfg: Config, s: Server, at: nat, r: Request)
    requires at < |s.clients| && WellSized(r)
    ensures OnlyQueued(s, Chat(cfg, s, at, r))
  {
  }

  lemma HandleOnlyQueues(cfg: Config, s: Server, at: nat, r: Request)
    requires at < |s.clients| && WellSized(r) && Addressed(r)
    ensures OnlyQueued(s, Handle(cfg, s, at, r))
  {
    match r.kind
    case StreamRegister => RegisterOnlyQueues(cfg, s, at, r);
    case Utf8Chat => ChatOnlyQueues(cfg, s, at, r);
    case _ =>
  }

  lemma OthersOnlyQueue(cfg: Config, s: Server, e: Event)
    requires Enabled(cfg, s, e) && !e.KillerTakes? && !e.KillerDestroys? && !e.KillerStops?
    ensures OnlyQueued(s, Next(cfg, s, e))
  {
    if e.Arrive? && Find(s.clients, e.uid) >= 0 {
      var at := Find(s.clients, e.uid);
      var cs := s.clients[at := QualityStep(s.clients[at], e.request.dropping)];
      HandleOnlyQueues(cfg, s.(clients := cs), at, e.request);
    }
  }

  /** Once the killer thread has been told to stop, it is never again just running. */
  lemma StepKeepsOrder(cfg: Config, s: Server, e: Event)
    requires Enabled(cfg, s, e) && |s.killing| <= 1 && Next(cfg, s, e).killer.Running?
    ensures s.killer.Running? && |Next(cfg, s, e).killing| <= 1
    ensures LeavesBehind(Departures(s), Departures(Next(cfg, s, e)))
  {
    var s' := Next(cfg, s, e);
    match e
    case KillerTakes =>
      if s.killQueue != [] {
        assert s.destroyed + [] + s.killQueue == s.destroyed + [s.killQueue[0]] + s.killQueue[1..];
      }
    case KillerDestroys =>
      assert s.destroyed + s.killing + s.killQueue == s.destroyed + [s.killing[0]] + s.killQueue;
    case KillerStops =>
    case _ => OthersOnlyQueue(cfg, s, e);
  }

  lemma {:induction false} RunKeepsOrder(cfg: Config, s: Server, events: seq<Event>)
    requires Runs(cfg, s, events) && |s.killing| <= 1 && Run(cfg, s, events).killer.Running?
    ensures s.killer.Running? && LeavesBehind(Departures(s), Departures(Run(cfg, s, events)))
    decreases |events|
  {
    if events != [] {
      var s1 := Next(cfg, s, events[0]);
      KillingIsOne(cfg, s, events[0]);
      RunKeepsOrder(cfg, s1, events[1..]);
      StepKeepsOrder(cfg, s, events[0]);
    }
  }

  lemma KillingIsOne(cfg: Config, s: Server, e: Event)
    requires Enabled(cfg, s, e) && |s.killing| <= 1
    ensures |Next(cfg, s, e).killing| <= 1
  {
    if !e.KillerTakes? && !e.KillerDestroys? && !e.KillerStops? {
      OthersOnlyQueue(cfg, s, e);
    }
  }

  /** As long as the killer thread runs, clients are deleted in the order in which they left, whatever else happens:
      whoever has left keeps its place in line, and nobody gets in before it. */
  lemma DeletedInOrder(cfg: Config, s: Server, events: seq<Event>)
    requires Reachable(cfg, s) && Runs(cfg, s, events) && Run(cfg, s, events).killer.Running?
    ensures LeavesBehind(s.destroyed + s.killing + s.killQueue,
                         var s' := Run(cfg, s, events); s'.destroyed + s'.killing + s'.killQueue)
  {
    ReachableInv(cfg, s);
    RunKeepsOrder(cfg, s, events);
  }

  /** The killer thread gets on: with somebody waiting and no request to stop it takes the first; then it deletes that
      one, with both its threads stopped. After a request it gives up whom it takes, and deletes nobody any more. */
  lemma KillerGetsOn(cfg: Config, s: Server)
    requires Reachable(cfg, s)
    ensures s.killing == [] && s.killQueue != [] && s.killer.Running? ==>
              var s' := Next(cfg, s, KillerTakes);
              s'.killing == [s.killQueue[0]] && s'.killQueue == s.killQueue[1..] && s'.destroyed == s.destroyed
    ensures s.killing == [] && s.killQueue != [] && s.killer.StopRequested? ==>
              var s' := Next(cfg, s, KillerTakes);
              s'.killing == [] && s'.killQueue == s.killQueue[1..] && s'.destroyed == s.destroyed
              && s'.abandoned == s.abandoned + [s.killQueue[0]]
    ensures s.killing != [] ==>
              var s' := Next(cfg, s, KillerDestroys);
              s'.killing == [] && s'.killQueue == s.killQueue
              && s'.destroyed == s.destroyed + [s.killing[0].(receiver := NotRunning, broadcaster := NotRunning)]
    ensures Next(cfg, s, KillerStops) == s.(killer := if s.killer.Running? then StopRequested else s.killer)
  {
  }
}
