/** Chat in whole runs: what the spam filter's verdict means for everybody's log. */
module RelayChat {
  import opened RoRnet
  import opened Identity
  import opened Relay
  import opened RelayInvariant
  import opened RelayRuns
  import opened RelayTheorems
  import opened RelayLogs
  import RelayNames
  import RelaySpawns
  import SpamFilter

  /** The step is a chat line, and no command, of a connected client. */
  predicate IsLine(s: Server, e: Event, uid: nat) {
    e.Arrive? && e.uid == uid && Find(s.clients, uid) >= 0 && e.request.kind.Utf8Chat? && !IsCommand(e.request)
  }

  function LinesOf(s: Server, e: Event, uid: nat): seq<SpamFilter.Line> {
    if IsLine(s, e, uid) then [LineOf(e.request)] else []
  }

  /** Everything the client said in a run. */
  ghost function Said(cfg: Config, s: Server, events: seq<Event>, uid: nat): seq<SpamFilter.Line>
    requires Runs(cfg, s, events)
    decreases |events|
  {
    if events == [] then []
    else LinesOf(s, events[0], uid) + Said(cfg, Next(cfg, s, events[0]), events[1..], uid)
  }

  /** The filter, asked about these lines one by one, has found the player gagged. */
  predicate Silenced(st: SpamFilter.Settings, said: seq<SpamFilter.Line>) {
    SpamFilter.IsActive(st) && SpamFilter.After(st, said).gag.Gagged?
  }

  /** The same, counted over everything the player has said. */
  predicate SilencedByHistory(st: SpamFilter.Settings, said: seq<SpamFilter.Line>) {
    SpamFilter.IsActive(st) && SpamFilter.GagAfter(st, said).Gagged?
  }

  /** A chat line of the client has been queued for `c` since `s`. */
  predicate Reached(s: Server, c: Client, uid: nat) {
    exists k :: |LogOf(s.clients, c.user.uid)| <= k < |c.log| && c.log[k].kind.Utf8Chat? && c.log[k].source == uid
  }

  // ---------------------------------------------------------------- user ids

  lemma {:induction false} FreeUidBounded(cfg: Config, s: Server, events: seq<Event>)
    requires RegularRun(cfg, s, events) && Runs(cfg, s, events) && s.freeUid < UINT32_LIMIT
    ensures Run(cfg, s, events).freeUid < UINT32_LIMIT
    decreases |events|
  {
    if events != [] {
      RelaySpawns.FreeUidGrows(cfg, s, events[0]);
      FreeUidBounded(cfg, Next(cfg, s, events[0]), events[1..]);
    }
  }

  /** No client has the id of the server's own messages. */
  lemma NobodyIsServer(cfg: Config, s: Server, uid: nat)
    requires Reachable(cfg, s) && Find(s.clients, uid) >= 0
    ensures uid != SERVER_UID
  {
    var events :| RegularRun(cfg, STARTED, events) && Runs(cfg, STARTED, events) && s == Run(cfg, STARTED, events);
    FreeUidBounded(cfg, STARTED, events);
    ReachableInv(cfg, s);
    CountNone(s.clients, uid);
    assert Users(s.clients)[Find(s.clients, uid)].uid == uid;
    assert Places(s, uid) > 0;
  }

  // ---------------------------------------------------------------- one line

  lemma {:induction false} TellAllKeeps(cs: seq<Client>, a: Audience, m: Message, times: nat, j: nat)
    requires j < |cs| && !a.Everyone?
    ensures var c := TellAll(cs, a, m, times)[j];
            && c.receiving == cs[j].receiving && c.user == cs[j].user && c.said == cs[j].said
            && |c.log| >= |cs[j].log| && (!c.receiving ==> c.log == cs[j].log)
    decreases times
  {
    if times > 0 {
      TellAllKeeps(Tell(cs, a, m), a, m, times - 1, j);
    }
  }

  /** One client after a line: the sender has said it; those who listen, and only they, have heard it if it is
      published. */
  lemma LineSaid(cfg: Config, cs: seq<Client>, at: nat, r: Request, j: nat)
    requires at < |cs| && j < |cs| && r.len <= |r.buffer|
    ensures var c, c' := cs[j], SayLine(cfg, cs, at, r)[j];
            && c'.user == c.user && c'.receiving == c.receiving && |c'.log| >= |c.log|
            && c'.said == (if j == at then c.said + [LineOf(r)] else c.said)
            && (c.receiving && Publishes(cfg, cs[at], r) ==>
                  |c'.log| > |c.log| && c'.log[|c'.log| - 1] == LineMessage(cs[at].user.uid, r))
            && (!c.receiving ==> c'.log == c.log)
  {
    var uid := cs[at].user.uid;
    TellAllKeeps(cs[at := Spoken(cfg, cs[at], r)], ListeningUid(uid), NOTICE, FilterNotices(cfg, cs[at], r), j);
  }

  /** Handling a line in a step of the server. */
  lemma LineHandled(cfg: Config, s: Server, e: Event)
    requires Enabled(cfg, s, e) && e.Arrive? && IsLine(s, e, e.uid)
    ensures var at, r := Find(s.clients, e.uid), e.request;
            var cs := s.clients[at := QualityStep(s.clients[at], r.dropping)];
            Next(cfg, s, e) == s.(clients := SayLine(cfg, cs, at, r))
  {
  }

  /** A published line is the last entry in the log of every listening client, and in no other. */
  lemma PublishedIsHeard(cfg: Config, s: Server, e: Event, j: nat)
    requires DistinctUids(Users(s.clients)) && Enabled(cfg, s, e) && e.Arrive? && IsLine(s, e, e.uid)
    requires Publishes(cfg, s.clients[Find(s.clients, e.uid)], e.request) && j < |s.clients|
    ensures |Next(cfg, s, e).clients| == |s.clients|
    ensures var c := Next(cfg, s, e).clients[j];
            c.user == s.clients[j].user && (c.receiving <==> Reached(s, c, e.uid))
  {
    var at, r := Find(s.clients, e.uid), e.request;
    var cs := s.clients[at := QualityStep(s.clients[at], r.dropping)];
    assert Users(s.clients)[at] == s.clients[at].user;
    LineHandled(cfg, s, e);
    LineSaid(cfg, cs, at, r, j);
    FoundLog(s.clients, j);
    var c := Next(cfg, s, e).clients[j];
    if c.receiving {
      assert c.log[|c.log| - 1] == LineMessage(e.uid, r);
    }
  }

  // ---------------------------------------------------------------- what has been said

  /** A line is recorded as said. */
  lemma LineIsRecorded(cfg: Config, s: Server, e: Event)
    requires Enabled(cfg, s, e) && e.Arrive? && IsLine(s, e, e.uid)
    ensures var i, cs' := Find(s.clients, e.uid), Next(cfg, s, e).clients;
            Find(cs', e.uid) == i && cs'[i].said == s.clients[i].said + [LineOf(e.request)]
  {
    var i, r := Find(s.clients, e.uid), e.request;
    var cs := s.clients[i := QualityStep(s.clients[i], r.dropping)];
    LineHandled(cfg, s, e);
    LineSaid(cfg, cs, i, r, i);
    RelayNames.UpdateUsers(s.clients, i, QualityStep(s.clients[i], r.dropping));
    RelayNames.SayLineUsers(cfg, cs, i, r);
  }

  /** Whoever says nothing has said no more than before, and a new client nothing. */
  lemma OthersSayNothing(cfg: Config, s: Server, e: Event, uid: nat)
    requires Inv(cfg, s) && Enabled(cfg, s, e) && !IsLine(s, e, uid) && Find(Next(cfg, s, e).clients, uid) >= 0
    ensures var i, cs' := Find(s.clients, uid), Next(cfg, s, e).clients;
            cs'[Find(cs', uid)].said == if i >= 0 then s.clients[i].said else []
  {
    var i, cs' := Find(s.clients, uid), Next(cfg, s, e).clients;
    FreeUidIsFresh(cfg, s);
    NextFollows(cfg, s, e, Find(cs', uid));
    assert Users(cs')[Find(cs', uid)] == cs'[Find(cs', uid)].user;
    if e.Arrive? && Find(s.clients, e.uid) >= 0 {
      assert Users(s.clients)[Find(s.clients, e.uid)] == s.clients[Find(s.clients, e.uid)].user;
    }
  }

  /** What the client has said so far is what it has recorded, if it is still connected. */
  ghost predicate Recorded(s: Server, uid: nat, said: seq<SpamFilter.Line>) {
    && (Find(s.clients, uid) >= 0 ==> s.clients[Find(s.clients, uid)].said == said)
    && (uid >= s.freeUid ==> said == [])
  }

  lemma StepKeepsRecorded(cfg: Config, s: Server, e: Event, uid: nat, said: seq<SpamFilter.Line>)
    requires Inv(cfg, s) && Enabled(cfg, s, e) && Regular(s, e) && Recorded(s, uid, said)
    ensures Recorded(Next(cfg, s, e), uid, said + LinesOf(s, e, uid))
  {
    var i, s' := Find(s.clients, uid), Next(cfg, s, e);
    RelaySpawns.FreeUidGrows(cfg, s, e);
    assert said + [] == said;
    if IsLine(s, e, uid) {
      LineIsRecorded(cfg, s, e);
      RelaySpawns.FoundIsOld(cfg, s, uid);
    } else if Find(s'.clients, uid) >= 0 {
      OthersSayNothing(cfg, s, e, uid);
      if i < 0 && uid < s.freeUid {
        RelayNames.GoneStaysGone(cfg, s, e, uid);
      }
    }
  }

  lemma {:induction false} RunKeepsRecorded(cfg: Config, s: Server, events: seq<Event>, uid: nat,
                                            said: seq<SpamFilter.Line>)
    requires Inv(cfg, s) && RegularRun(cfg, s, events) && Runs(cfg, s, events) && Recorded(s, uid, said)
    ensures Recorded(Run(cfg, s, events), uid, said + Said(cfg, s, events, uid))
    decreases |events|
  {
    if events == [] {
      assert said + [] == said;
    } else {
      var e, s' := events[0], Next(cfg, s, events[0]);
      StepKeepsRecorded(cfg, s, e, uid, said);
      NextKeepsInv(cfg, s, e);
      RunKeepsRecorded(cfg, s', events[1..], uid, said + LinesOf(s, e, uid));
      RelaySpawns.Regrouped(said, LinesOf(s, e, uid), Said(cfg, s', events[1..], uid));
    }
  }

  /** In every run: a connected client's filter has been asked about exactly what the client has said in the run,
      line by line, if the filter is active at all. */
  lemma {:induction false} FilterFollowsRun(cfg: Config, events: seq<Event>, uid: nat)
    requires RegularRun(cfg, STARTED, events) && Runs(cfg, STARTED, events)
    requires Find(Run(cfg, STARTED, events).clients, uid) >= 0
    ensures var s, said := Run(cfg, STARTED, events), Said(cfg, STARTED, events, uid);
            var c := s.clients[Find(s.clients, uid)];
            && c.said == said
            && (SpamFilter.IsActive(cfg.spam) ==> c.filter == SpamFilter.After(cfg.spam, said))
  {
    var s, said := Run(cfg, STARTED, events), Said(cfg, STARTED, events, uid);
    StartedInv(cfg);
    RunKeepsInv(cfg, STARTED, events);
    RunKeepsRecorded(cfg, STARTED, events, uid, []);
    assert [] + said == said;
    assert ClientOk(cfg, s.clients[Find(s.clients, uid)]);
  }

  lemma {:induction false} SaidSnoc(cfg: Config, s: Server, events: seq<Event>, e: Event, uid: nat)
    requires Runs(cfg, s, events) && Enabled(cfg, Run(cfg, s, events), e)
    ensures Runs(cfg, s, events + [e])
    ensures Said(cfg, s, events + [e], uid) == Said(cfg, s, events, uid) + LinesOf(Run(cfg, s, events), e, uid)
    decreases |events|
  {
    if events == [] {
      assert [e][1..] == [] && Said(cfg, Next(cfg, s, e), [], uid) == [];
    } else {
      var first, rest, s1 := LinesOf(s, events[0], uid), events[1..], Next(cfg, s, events[0]);
      SaidSnoc(cfg, s1, rest, e, uid);
      assert (events + [e])[1..] == rest + [e];
      RelaySpawns.Regrouped(first, Said(cfg, s1, rest, uid), LinesOf(Run(cfg, s1, rest), e, uid));
    }
  }

  // ---------------------------------------------------------------- who hears a line

  /** A line is published unless the filter, asked about everything said before and then the line, silences it. */
  lemma PublishedUnlessSilenced(cfg: Config, events: seq<Event>, e: Event)
    requires RegularRun(cfg, STARTED, events) && Runs(cfg, STARTED, events)
    requires var s := Run(cfg, STARTED, events); Enabled(cfg, s, e) && e.Arrive? && IsLine(s, e, e.uid)
    ensures var s := Run(cfg, STARTED, events);
            Publishes(cfg, s.clients[Find(s.clients, e.uid)], e.request)
            <==> !Silenced(cfg.spam, Said(cfg, STARTED, events, e.uid) + [LineOf(e.request)])
  {
    FilterFollowsRun(cfg, events, e.uid);
    SpamFilter.AfterSnoc(cfg.spam, Said(cfg, STARTED, events, e.uid), LineOf(e.request));
  }

  /** In every run: a line that is no command reaches exactly the listening clients, unless the filter, asked about
      everything its sender has said in the whole run, finds the sender gagged; then it reaches nobody. While the
      clock does not run backwards, the verdict is the one counted over everything the sender has said. */
  lemma {:induction false} LineReaches(cfg: Config, events: seq<Event>, e: Event, j: nat, c: Client)
    requires RegularRun(cfg, STARTED, events) && Runs(cfg, STARTED, events)
    requires var s := Run(cfg, STARTED, events); ClientAfter(cfg, s, e, j, c) && e.Arrive? && IsLine(s, e, e.uid)
    ensures Runs(cfg, STARTED, events + [e])
    ensures var reached, said := Reached(Run(cfg, STARTED, events), c, e.uid), Said(cfg, STARTED, events + [e], e.uid);
            && (reached <==> c.receiving && !Silenced(cfg.spam, said))
            && (SpamFilter.ClockMonotone(said) ==> (reached <==> c.receiving && !SilencedByHistory(cfg.spam, said)))
  {
    var s := Run(cfg, STARTED, events);
    SaidSnoc(cfg, STARTED, events, e, e.uid);
    PublishedUnlessSilenced(cfg, events, e);
    ReachedIfPublished(cfg, s, e, j, c);
    var said := Said(cfg, STARTED, events + [e], e.uid);
    if SpamFilter.ClockMonotone(said) {
      SpamFilter.FilterAnswers(cfg.spam, said);
    }
  }

  /** In every run, while the clock does not run backwards: a line that is no command reaches exactly the listening
      clients if the filter is off, and otherwise if it is not spam, counted over everything its sender has said, and
      no gag is left. So a gagged player is heard again with the first line after the gag's expiry that is not spam. */
  lemma {:induction false} LineReachesExactly(cfg: Config, events: seq<Event>, e: Event, j: nat, c: Client)
    requires RegularRun(cfg, STARTED, events) && Runs(cfg, STARTED, events)
    requires var s := Run(cfg, STARTED, events); ClientAfter(cfg, s, e, j, c) && e.Arrive? && IsLine(s, e, e.uid)
    requires SpamFilter.ClockMonotone(Said(cfg, STARTED, events, e.uid) + [LineOf(e.request)])
    ensures var said, now, text := Said(cfg, STARTED, events, e.uid), e.request.now, LineText(e.request);
            var gag := SpamFilter.GagAfter(cfg.spam, said);
            Reached(Run(cfg, STARTED, events), c, e.uid) <==>
              && c.receiving
              && (cfg.spam.interval > 0 && cfg.spam.count > 0 ==>
                    && |SpamFilter.Repeats(said, cfg.spam.interval, text, now)| <= cfg.spam.count
                    && (gag.Gagged? ==> gag.expiry < now))
  {
    var s, said, line := Run(cfg, STARTED, events), Said(cfg, STARTED, events, e.uid), LineOf(e.request);
    LineReaches(cfg, events, e, j, c);
    SaidSnoc(cfg, STARTED, events, e, e.uid);
    SpamFilter.GagMoves(cfg.spam, said, line);
  }

  lemma ReachedIfPublished(cfg: Config, s: Server, e: Event, j: nat, c: Client)
    requires Reachable(cfg, s) && ClientAfter(cfg, s, e, j, c) && e.Arrive? && IsLine(s, e, e.uid)
    ensures Reached(s, c, e.uid) <==> c.receiving && Publishes(cfg, s.clients[Find(s.clients, e.uid)], e.request)
  {
    ReachableInv(cfg, s);
    NobodyIsServer(cfg, s, e.uid);
    ReachableFollows(cfg, s, e, j, c);
    if Publishes(cfg, s.clients[Find(s.clients, e.uid)], e.request) {
      LineHandled(cfg, s, e);
      PublishedIsHeard(cfg, s, e, j);
    }
  }

  /** While a player is gagged, no line reaches anybody up to the time the gag is to end, in any run. */
  lemma {:induction false} GaggedReachNobody(cfg: Config, events: seq<Event>, e: Event, j: nat, c: Client, k: nat)
    requires RegularRun(cfg, STARTED, events) && Runs(cfg, STARTED, events)
    requires var s := Run(cfg, STARTED, events); ClientAfter(cfg, s, e, j, c) && e.Arrive? && IsLine(s, e, e.uid)
    requires SpamFilter.IsActive(cfg.spam) && cfg.spam.gagDuration >= 0
    requires var said := Said(cfg, STARTED, events, e.uid);
             && k <= |said| && SpamFilter.GagAt(cfg.spam, said, k).Gagged?
             && (forall i :: k <= i < |said| ==> said[i].time <= SpamFilter.GagAt(cfg.spam, said, k).expiry)
             && e.request.now <= SpamFilter.GagAt(cfg.spam, said, k).expiry
    ensures !Reached(Run(cfg, STARTED, events), c, e.uid)
  {
    var said := Said(cfg, STARTED, events, e.uid);
    LineReaches(cfg, events, e, j, c);
    SaidSnoc(cfg, STARTED, events, e, e.uid);
    var more := said + [LineOf(e.request)];
    assert more[..k] == said[..k];
    SpamFilter.GagHoldsUntilExpiry(cfg.spam, more, k);
  }
}
