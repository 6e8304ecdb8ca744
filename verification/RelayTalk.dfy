/** What is said on the server, told in the messages themselves: chat lines, commands and server lines. */
module RelayTalk {
  import opened RoRnet
  import opened Identity
  import opened Relay
  import opened RelayMembership
  import opened RelayEffects
  import SpamFilter
  import Utf8

  // ---------------------------------------------------------------- reading a line

  /** A line is a command exactly when its first octet is an exclamation mark. */
  lemma CommandMeans(r: Request)
    requires WellSized(r)
    ensures IsCommand(r) <==> r.buffer[0] == 0x21
  {
    var s := CString(r.buffer);
    if s != [] {
      Utf8.Kinds(s[0]);
      if !Utf8.IsLead1b(s[0]) && !Utf8.IsCont(s[0]) {
        Utf8.ChunkCleaned(0, s, Utf8.REPLACEMENT);
      }
    }
  }

  /** The line is what stands before the first zero, if that is well-formed, and otherwise that cleaned with U+FFFD. */
  lemma TextIsRead(r: Request, n: nat)
    requires WellSized(r) && n < |r.buffer| && r.buffer[n] == 0 && forall k :: 0 <= k < n ==> r.buffer[k] != 0
    ensures LineText(r) == Utf8.Sanitized(r.buffer[..n], [0xEF, 0xBF, 0xBD])
    ensures Utf8.WellFormed(r.buffer[..n]) ==> LineText(r) == r.buffer[..n]
  {
    StringEnds(r.buffer, n);
    if Utf8.WellFormed(r.buffer[..n]) {
      Utf8.WellFormedKept(0, r.buffer[..n], Utf8.REPLACEMENT);
    }
  }

  // ---------------------------------------------------------------- server lines

  lemma {:induction false} NoticesTold(cs: seq<Client>, uid: nat, times: nat, j: nat)
    requires j < |cs|
    ensures Sent(cs[j], TellAll(cs, ListeningUid(uid), NOTICE, times)[j],
                 When(cs[j].receiving && cs[j].user.uid == uid, Lines(times)))
    decreases times
  {
    if times > 0 {
      NoticesTold(Tell(cs, ListeningUid(uid), NOTICE), uid, times - 1, j);
      assert Lines(times) == [SERVER_LINE] + Lines(times - 1);
      var log := cs[j].log;
      assert log + [SERVER_LINE] + Lines(times - 1) == log + ([SERVER_LINE] + Lines(times - 1));
    } else {
      assert cs[j].log + [] == cs[j].log && Lines(0) == [];
    }
  }

  /** The message of the day goes to the client it is for, if that listens, line by line, and to nobody else. */
  lemma MotdIsTold(cfg: Config, s: Server, uid: nat, lines: nat, j: nat)
    requires j < |s.clients|
    ensures var s', c := Next(cfg, s, Motd(uid, lines)), s.clients[j];
            SameMembers(s, s') && Sent(c, s'.clients[j], When(c.receiving && c.user.uid == uid, Lines(lines)))
  {
    NoticesTold(s.clients, uid, lines, j);
  }

  // ---------------------------------------------------------------- chat lines

  lemma LineTold(cfg: Config, cs: seq<Client>, i: nat, r: Request, j: nat)
    requires DistinctUids(Users(cs)) && i < |cs| && j < |cs| && r.len <= |r.buffer| && !IsCommand(r)
    requires cs[i].receiving
    ensures var c, c', d, d' := cs[i], SayLine(cfg, cs, i, r)[i], cs[j], SayLine(cfg, cs, i, r)[j];
            var active := cfg.spam.interval > 0 && cfg.spam.count > 0;
            var gagged := active && c'.filter.gag.Gagged?;
            var line := Message(Utf8Chat, c.user.uid, r.streamid, Octets(r.buffer[..r.len]));
            && (j != i ==> Sent(d, d', When(d.receiving && !gagged, [line])))
            && (j == i ==> Sent(c.(filter := c'.filter, said := c.said + [SpamFilter.Line(r.now, LineText(r))]), c',
                                When(gagged || (active && c.filter.gag.Gagged?), [SERVER_LINE])
                                + When(!gagged, [line])))
  {
    var c := cs[i];
    var cs1, n := cs[i := Spoken(cfg, c, r)], FilterNotices(cfg, c, r);
    assert Users(cs)[i].uid == Users(cs)[j].uid <==> i == j;
    NoticesTold(cs1, c.user.uid, n, j);
    NoticesTold(cs1, c.user.uid, n, i);
    assert n <= 1 && Lines(n) == if n == 1 then [SERVER_LINE] else [];
  }

  lemma LineHandledThus(cfg: Config, s: Server, i: nat, r: Request)
    requires WellSized(r) && Addressed(r) && i < |s.clients| && r.kind.Utf8Chat? && !IsCommand(r)
    ensures Handle(cfg, s, i, r) == s.(clients := SayLine(cfg, s.clients, i, r))
  {
  }

  /** In every reachable state: a line that is no command is sent, as it came, to everybody who listens, the sender
      too, unless the filter is on and has its sender gagged after the line. The sender is told so first, and also when
      the gag has just ended. */
  lemma LineIsHeard(cfg: Config, s: Server, i: nat, r: Request, j: nat)
    requires Arrives(cfg, s, i, r) && r.kind.Utf8Chat? && r.buffer[0] != 0x21 && j < |s.clients|
    ensures var c, d, s' := s.clients[i], s.clients[j], AfterMessage(cfg, s, i, r);
            && SameMembers(s, s')
            && var c', d', b := s'.clients[i], s'.clients[j], Before(s, i, r, i);
               var active := cfg.spam.interval > 0 && cfg.spam.count > 0;
               var gagged := active && c'.filter.gag.Gagged?;
               var line := Message(Utf8Chat, c.user.uid, r.streamid, Octets(r.buffer[..r.len]));
               && (j != i ==> Sent(d, d', When(d.receiving && !gagged, [line])))
               && (j == i ==> Sent(b.(filter := c'.filter, said := c.said + [SpamFilter.Line(r.now, LineText(r))]), c',
                                   When(gagged || (active && c.filter.gag.Gagged?), [SERVER_LINE])
                                   + When(!gagged, [line])))
  {
    HandledThus(cfg, s, i, r);
    CommandMeans(r);
    LineHandledThus(cfg, s.(clients := AllBefore(s, i, r)), i, r);
    LineTold(cfg, AllBefore(s, i, r), i, r, j);
  }

  // ---------------------------------------------------------------- commands

  /** A server line for these is for the client at `j`. */
  predicate IsFor(a: Audience, j: nat, c: Client) {
    || a.Everyone?
    || (c.receiving && (a.Listening? || a == ListeningUid(c.user.uid) || (a.ListeningBut? && a.at != j)))
  }

  /** Which of the lines are for the client at `j`. */
  function LinesFor(notices: seq<Audience>, j: nat, c: Client): set<int> {
    set k | 0 <= k < |notices| && IsFor(notices[k], j, c)
  }

  lemma OneLineMore(notices: seq<Audience>, a: Audience, j: nat, c: Client)
    ensures |LinesFor(notices + [a], j, c)| == |LinesFor(notices, j, c)| + if IsFor(a, j, c) then 1 else 0
  {
    var all := notices + [a];
    assert forall k :: 0 <= k < |notices| ==> all[k] == notices[k];
    assert LinesFor(all, j, c) == LinesFor(notices, j, c) + if IsFor(a, j, c) then {|notices|} else {};
  }

  lemma {:induction false} AnswersTold(cs: seq<Client>, notices: seq<Audience>, j: nat)
    requires j < |cs|
    ensures Sent(cs[j], SayAll(cs, notices)[j], Lines(|LinesFor(notices, j, cs[j])|))
  {
    if notices == [] {
      assert Lines(0) == [] && LinesFor(notices, j, cs[j]) == {};
    } else {
      var n := |notices| - 1;
      AnswersTold(cs, notices[..n], j);
      OneLineMore(notices[..n], notices[n], j, cs[j]);
      assert notices == notices[..n] + [notices[n]];
      var before := |LinesFor(notices[..n], j, cs[j])|;
      assert Lines(before + 1) == Lines(before) + [SERVER_LINE];
      assert cs[j].log + Lines(before) + [SERVER_LINE] == cs[j].log + (Lines(before) + [SERVER_LINE]);
    }
  }

  lemma CommandHandledThus(cfg: Config, s: Server, i: nat, r: Request)
    requires WellSized(r) && Addressed(r) && i < |s.clients| && r.kind.Utf8Chat? && IsCommand(r)
    ensures Handle(cfg, s, i, r) == RunCommand(s, i, r.command)
  {
  }

  /** A command that is answered is published to nobody; everybody is sent the lines of the answer that are for it. */
  lemma CommandIsAnswered(cfg: Config, s: Server, i: nat, r: Request, j: nat)
    requires Arrives(cfg, s, i, r) && r.kind.Utf8Chat? && r.buffer[0] == 0x21 && r.command.Answered? && j < |s.clients|
    ensures var s', n := AfterMessage(cfg, s, i, r),
                         |set k | 0 <= k < |r.command.notices| && IsFor(r.command.notices[k], j, s.clients[j])|;
            SameMembers(s, s') && Sent(Before(s, i, r, j), s'.clients[j], Lines(n))
  {
    HandledThus(cfg, s, i, r);
    CommandMeans(r);
    CommandHandledThus(cfg, s.(clients := AllBefore(s, i, r)), i, r);
    AnswersTold(AllBefore(s, i, r), r.command.notices, j);
    assert forall a :: IsFor(a, j, Before(s, i, r, j)) <==> IsFor(a, j, s.clients[j]);
    assert LinesFor(r.command.notices, j, Before(s, i, r, j)) == LinesFor(r.command.notices, j, s.clients[j]);
  }

  /** Administrators have the first bit set, moderators the third. */
  predicate MayKick(u: UserInfo) {
    u.auth & 1 != 0 || u.auth & 4 != 0
  }

  lemma StaffMayKick(u: UserInfo)
    ensures IsStaff(u) <==> MayKick(u)
  {
  }

  /** A kick that fails: the client at `i` may not kick, or nobody has that id. */
  predicate KicksNobody(cs: seq<Client>, i: nat, target: nat)
    requires i < |cs|
  {
    !MayKick(cs[i].user) || forall k :: 0 <= k < |cs| ==> cs[k].user.uid != target
  }

  lemma FailureTold(s: Server, i: nat, target: nat, j: nat)
    requires DistinctUids(Users(s.clients)) && i < |s.clients| && j < |s.clients| && s.clients[i].receiving
    requires KicksNobody(s.clients, i, target)
    ensures var s' := RunCommand(s, i, KickCommand(target));
            SameMembers(s, s') && Sent(s.clients[j], s'.clients[j], When(j == i, [SERVER_LINE]))
  {
    var cs := s.clients;
    StaffMayKick(cs[i].user);
    var at := Find(cs, target);
    if at >= 0 {
      assert Users(cs)[at] == cs[at].user;
    }
    assert Users(cs)[i].uid == Users(cs)[j].uid <==> i == j;
  }

  /** Who is no staff, or names nobody, kicks nobody: only the sender hears of it, in one line. */
  lemma KickFails(cfg: Config, s: Server, i: nat, r: Request, j: nat)
    requires Arrives(cfg, s, i, r) && r.kind.Utf8Chat? && r.buffer[0] == 0x21 && r.command.KickCommand?
    requires KicksNobody(s.clients, i, r.command.target) && j < |s.clients|
    ensures var s' := AfterMessage(cfg, s, i, r);
            SameMembers(s, s') && Sent(Before(s, i, r, j), s'.clients[j], When(j == i, [SERVER_LINE]))
  {
    var cs := AllBefore(s, i, r);
    HandledThus(cfg, s, i, r);
    CommandMeans(r);
    CommandHandledThus(cfg, s.(clients := cs), i, r);
    if MayKick(s.clients[i].user) {
      forall k | 0 <= k < |cs| ensures cs[k].user.uid != r.command.target {
        assert s.clients[k].user.uid != r.command.target;
      }
    }
    FailureTold(s.(clients := cs), i, r.command.target, j);
  }

  lemma KickTold(s: Server, i: nat, t: nat, j: nat)
    requires DistinctUids(Users(s.clients)) && i < |s.clients| && t < |s.clients| && j < |s.clients|
    requires MayKick(s.clients[i].user)
    ensures var uid, c := s.clients[t].user.uid, s.clients[j];
            var s' := RunCommand(s, i, KickCommand(uid));
            && Departed(s, s', t)
            && Sent(c, Later(s, s', t, j), When(c.receiving, [SERVER_LINE]) + [Message(UserLeave, uid, 0, Text)])
  {
    var uid, told := s.clients[t].user.uid, Tell(s.clients, Listening, NOTICE);
    var s1 := s.(clients := told);
    StaffMayKick(s.clients[i].user);
    FoundAt(s.clients, t);
    assert Users(told) == Users(s.clients);
    LeaveTold(s1, t);
    var s' := RunCommand(s, i, KickCommand(uid));
    assert s' == Disconnect(s1, uid);
    DepartedAlike(s, s1, s', t, j);
    var c, m := s.clients[j], Message(UserLeave, uid, 0, Text);
    SentOn(c, told[j], Later(s, s', t, j), When(c.receiving, [SERVER_LINE]), m);
  }

  /** Staff kicks exactly the client it names: everybody who listens gets one line, then everybody the LEAVE. */
  lemma KickSucceeds(cfg: Config, s: Server, i: nat, r: Request, t: nat, j: nat)
    requires Arrives(cfg, s, i, r) && r.kind.Utf8Chat? && r.buffer[0] == 0x21
    requires t < |s.clients| && r.command == KickCommand(s.clients[t].user.uid) && j < |s.clients|
    requires MayKick(s.clients[i].user)
    ensures var uid, s', c := s.clients[t].user.uid, AfterMessage(cfg, s, i, r), s.clients[j];
            && Departed(s, s', t)
            && Sent(Before(s, i, r, j), Later(s, s', t, j),
                    When(c.receiving, [SERVER_LINE]) + [Message(UserLeave, uid, 0, Text)])
  {
    var s1 := s.(clients := AllBefore(s, i, r));
    HandledThus(cfg, s, i, r);
    CommandMeans(r);
    CommandHandledThus(cfg, s1, i, r);
    KickTold(s1, i, t, j);
    DepartedAlike(s, s1, AfterMessage(cfg, s, i, r), t, j);
  }
}
