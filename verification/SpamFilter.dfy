/** The chat spam filter of one client: a cache of recent lines and a gag that grows while the
    player keeps repeating a line. */
module SpamFilter {

  /** Thresholds from the server's configuration. */
  datatype Settings = Settings(interval: int, count: int, gagDuration: int)

  /** Without a positive interval and count no line is checked. */
  predicate IsActive(s: Settings) {
    s.interval > 0 && s.count > 0
  }

  type Text = seq<bv8>

  datatype Line = Line(time: int, text: Text)

  // ---------------------------------------------------------------- specification

  /** The lines that have not expired at `now`. */
  function Fresh(lines: seq<Line>, interval: int, now: int): seq<Line> {
    if lines == [] then []
    else Fresh(lines[..|lines| - 1], interval, now)
         + if lines[|lines| - 1].time + interval < now then [] else [lines[|lines| - 1]]
  }

  function Occurrences(lines: seq<Line>, text: Text): nat {
    if lines == [] then 0
    else Occurrences(lines[..|lines| - 1], text) + if lines[|lines| - 1].text == text then 1 else 0
  }

  datatype Gag = Free | Gagged(expiry: int)

  /** UpdateGag: what happens to the gag when a line arrives and was seen `repeats` times before. */
  function NextGag(s: Settings, gag: Gag, repeats: nat, now: int): Gag {
    if repeats > s.count then Gagged((if gag.Gagged? then gag.expiry else now) + s.gagDuration)
    else if gag.Gagged? && gag.expiry < now then Free
    else gag
  }

  /** The places of the lines that read `text` and are not older than the interval. */
  function Repeats(lines: seq<Line>, interval: int, text: Text, now: int): set<int> {
    set i | 0 <= i < |lines| && lines[i].text == text && lines[i].time + interval >= now
  }

  /** A line is spam when it was repeated too often within the interval. */
  predicate IsSpam(s: Settings, history: seq<Line>, line: Line) {
    |Repeats(history, s.interval, line.text, line.time)| > s.count
  }

  /** The gag after a chat history. */
  function GagAfter(s: Settings, history: seq<Line>): Gag {
    if history == [] then Free
    else
      var init, last := history[..|history| - 1], history[|history| - 1];
      NextGag(s, GagAfter(s, init), Occurrences(Fresh(init, s.interval, last.time), last.text), last.time)
  }

  /** The lines sent to the player: that the gag is over, or how long it will still last. */
  function Notices(before: Gag, after: Gag): (n: nat)
    ensures n <= 1 && (n == 1 <==> before.Gagged? || after.Gagged?)
  {
    if after.Gagged? || before.Gagged? then 1 else 0
  }

  predicate ClockMonotone(history: seq<Line>) {
    forall i, j :: 0 <= i < j < |history| ==> history[i].time <= history[j].time
  }

  /** Where the current gag began: the first line of the present gag. */
  function GagStart(s: Settings, history: seq<Line>): nat
    requires GagAfter(s, history).Gagged?
    ensures GagStart(s, history) < |history|
  {
    var init := history[..|history| - 1];
    if GagAfter(s, init).Gagged? then GagStart(s, init) else |history| - 1
  }

  /** How many of the lines from position `from` on were spam. */
  function Detections(s: Settings, history: seq<Line>, from: nat): nat {
    if |history| <= from then 0
    else Detections(s, history[..|history| - 1], from)
         + if IsSpam(s, history[..|history| - 1], history[|history| - 1]) then 1 else 0
  }

  // ---------------------------------------------------------------- lemmas

  lemma FreshSnoc(lines: seq<Line>, line: Line, interval: int, now: int)
    ensures Fresh(lines + [line], interval, now)
         == Fresh(lines, interval, now) + if line.time + interval < now then [] else [line]
  {
    assert (lines + [line])[..|lines|] == lines;
  }

  lemma OccurrencesSnoc(lines: seq<Line>, line: Line, text: Text)
    ensures Occurrences(lines + [line], text) == Occurrences(lines, text) + if line.text == text then 1 else 0
  {
    assert (lines + [line])[..|lines|] == lines;
  }

  lemma {:induction false} FreshHead(line: Line, lines: seq<Line>, interval: int, now: int)
    ensures Fresh([line] + lines, interval, now)
         == (if line.time + interval < now then [] else [line]) + Fresh(lines, interval, now)
  {
    if lines == [] {
      assert [line] + lines == [line] && [line][..0] == [];
    } else {
      assert ([line] + lines)[..|lines|] == [line] + lines[..|lines| - 1];
      FreshHead(line, lines[..|lines| - 1], interval, now);
    }
  }

  lemma PurgeStep(kept: seq<Line>, line: Line, rest: seq<Line>, interval: int, now: int, target: seq<Line>)
    requires target == kept + Fresh([line] + rest, interval, now)
    ensures target == (if line.time + interval < now then kept else kept + [line]) + Fresh(rest, interval, now)
  {
    FreshHead(line, rest, interval, now);
  }

  lemma {:induction false} FreshTwice(lines: seq<Line>, interval: int, a: int, b: int)
    requires a <= b
    ensures Fresh(Fresh(lines, interval, a), interval, b) == Fresh(lines, interval, b)
  {
    if lines != [] {
      var init, last := lines[..|lines| - 1], lines[|lines| - 1];
      FreshTwice(init, interval, a, b);
      if last.time + interval >= a {
        assert Fresh(lines, interval, a) == Fresh(init, interval, a) + [last];
        FreshSnoc(Fresh(init, interval, a), last, interval, b);
      } else {
        assert Fresh(lines, interval, a) == Fresh(init, interval, a);
      }
    }
  }

  lemma RepeatsSnoc(lines: seq<Line>, line: Line, interval: int, text: Text, now: int)
    ensures |Repeats(lines + [line], interval, text, now)|
         == |Repeats(lines, interval, text, now)| + if line.text == text && line.time + interval >= now then 1 else 0
  {
    var all, before := lines + [line], Repeats(lines, interval, text, now);
    assert forall i :: 0 <= i < |lines| ==> all[i] == lines[i];
    assert all[|lines|] == line;
    if line.text == text && line.time + interval >= now {
      assert Repeats(all, interval, text, now) == before + {|lines|};
    } else {
      assert Repeats(all, interval, text, now) == before;
    }
  }

  /** The loop over the recent lines counts exactly the repeated ones. */
  lemma {:induction false} OccurrencesAreRepeats(lines: seq<Line>, interval: int, text: Text, now: int)
    ensures Occurrences(Fresh(lines, interval, now), text) == |Repeats(lines, interval, text, now)|
  {
    if lines == [] {
      assert Repeats(lines, interval, text, now) == {};
    } else {
      var init, last := lines[..|lines| - 1], lines[|lines| - 1];
      assert lines == init + [last];
      OccurrencesAreRepeats(init, interval, text, now);
      RepeatsSnoc(init, last, interval, text, now);
      FreshSnoc(init, last, interval, now);
      OccurrencesSnoc(Fresh(init, interval, now), last, text);
      assert Fresh(init, interval, now) + [] == Fresh(init, interval, now);
    }
  }

  /** What one more line does to the gag, exactly: it is free afterwards if and only if the line is not spam and the
      gag, if there was one, has ended before; a spam line makes it longer, or begins one. */
  lemma GagMoves(s: Settings, history: seq<Line>, line: Line)
    ensures var gag, gag', spam := GagAfter(s, history), GagAfter(s, history + [line]), IsSpam(s, history, line);
            && (gag'.Free? <==> !spam && (gag.Gagged? ==> gag.expiry < line.time))
            && (gag'.Gagged? ==>
                  gag'.expiry == (if gag.Gagged? then gag.expiry else line.time) + if spam then s.gagDuration else 0)
  {
    assert (history + [line])[..|history|] == history;
    OccurrencesAreRepeats(history, s.interval, line.text, line.time);
  }

  /** The same for the filter, which counts over its cache, however the clock runs. */
  lemma FilterMoves(s: Settings, f: State, line: Line)
    ensures var gag, gag' := f.gag, Checked(s, f, line).gag;
            var spam := |Repeats(f.cache, s.interval, line.text, line.time)| > s.count;
            && (gag'.Free? <==> !spam && (gag.Gagged? ==> gag.expiry < line.time))
            && (gag'.Gagged? ==>
                  gag'.expiry == (if gag.Gagged? then gag.expiry else line.time) + if spam then s.gagDuration else 0)
  {
    OccurrencesAreRepeats(f.cache, s.interval, line.text, line.time);
  }

  lemma OneMore(d: nat, duration: int)
    ensures (d + 1) * duration == d * duration + duration
  {
  }

  /** A gag goes on after one more line: it is longer by one duration if that line was spam. */
  lemma GagGoesOn(s: Settings, init: seq<Line>, last: Line)
    requires GagAfter(s, init).Gagged? && GagAfter(s, init + [last]).Gagged?
    ensures GagAfter(s, init + [last]).expiry
         == GagAfter(s, init).expiry + if IsSpam(s, init, last) then s.gagDuration else 0
  {
    GagMoves(s, init, last);
  }

  lemma GagBegins(s: Settings, init: seq<Line>, last: Line)
    requires GagAfter(s, init).Free? && GagAfter(s, init + [last]).Gagged?
    ensures IsSpam(s, init, last) && GagAfter(s, init + [last]).expiry == last.time + s.gagDuration
  {
    GagMoves(s, init, last);
  }

  /** While a player is gagged, the gag ends one duration per detected spam line after it began. */
  lemma {:induction false} ExpiryCountsDetections(s: Settings, history: seq<Line>)
    requires GagAfter(s, history).Gagged?
    ensures var start := GagStart(s, history);
            && IsSpam(s, history[..start], history[start])
            && GagAfter(s, history).expiry
                 == history[start].time + Detections(s, history, start) * s.gagDuration
  {
    var n := |history| - 1;
    var init, last := history[..n], history[n];
    assert history == init + [last];
    if GagAfter(s, init).Gagged? {
      var start := GagStart(s, init);
      ExpiryCountsDetections(s, init);
      GagGoesOn(s, init, last);
      assert history[..start] == init[..start];
      OneMore(Detections(s, init, start), s.gagDuration);
    } else {
      GagBegins(s, init, last);
      assert Detections(s, init, n) == 0;
      assert Detections(s, history, n) == 1;
    }
  }

  // ---------------------------------------------------------------- the filter's own state

  /** What the filter remembers: recent lines, and the gag. */
  datatype State = State(cache: seq<Line>, gag: Gag)

  const UNUSED: State := State([], Free)

  /** CheckForSpam: old lines are erased, the new one is counted and remembered. */
  function Checked(s: Settings, f: State, line: Line): State {
    var recent := Fresh(f.cache, s.interval, line.time);
    State(recent + [line], NextGag(s, f.gag, Occurrences(recent, line.text), line.time))
  }

  /** The filter after it has been asked about these lines, one by one. */
  function After(s: Settings, lines: seq<Line>): State {
    if lines == [] then UNUSED else Checked(s, After(s, lines[..|lines| - 1]), lines[|lines| - 1])
  }

  lemma AfterSnoc(s: Settings, lines: seq<Line>, line: Line)
    ensures After(s, lines + [line]) == Checked(s, After(s, lines), line)
  {
    assert (lines + [line])[..|lines|] == lines;
  }

  /** After the purge the cache and the new line answer every later question like the whole history. */
  lemma CacheAnswers(history: seq<Line>, line: Line, interval: int)
    ensures forall later :: line.time <= later ==>
              Fresh(Fresh(history, interval, line.time) + [line], interval, later)
                == Fresh(history + [line], interval, later)
  {
    forall later | line.time <= later
      ensures Fresh(Fresh(history, interval, line.time) + [line], interval, later)
           == Fresh(history + [line], interval, later)
    {
      FreshSnoc(history, line, interval, later);
      FreshSnoc(Fresh(history, interval, line.time), line, interval, later);
      FreshTwice(history, interval, line.time, later);
    }
  }

  /** The cache answers like the whole history for every clock reading still to come. */
  ghost predicate AnswersLike(cache: seq<Line>, history: seq<Line>, interval: int, from: int) {
    forall now :: from <= now ==> Fresh(cache, interval, now) == Fresh(history, interval, now)
  }

  /** While the clock does not run backwards, the filter comes to the verdicts that the full history gives,
      although old lines have been erased. */
  lemma {:induction false} FilterAnswers(s: Settings, history: seq<Line>)
    requires ClockMonotone(history)
    ensures After(s, history).gag == GagAfter(s, history)
    ensures history != [] ==>
              AnswersLike(After(s, history).cache, history, s.interval, history[|history| - 1].time)
  {
    if history != [] {
      var init, last := history[..|history| - 1], history[|history| - 1];
      assert history == init + [last];
      FilterAnswers(s, init);
      assert Fresh(After(s, init).cache, s.interval, last.time) == Fresh(init, s.interval, last.time);
      CacheAnswers(init, last, s.interval);
    }
  }

  /** The gag as the filter has it after the first `k` lines. */
  function GagAt(s: Settings, lines: seq<Line>, k: nat): Gag
    requires k <= |lines|
  {
    After(s, lines[..k]).gag
  }

  /** No line sent up to the end of a gag is passed on, however the clock runs: every later line not after the
      expiry finds the player still gagged, with an expiry no earlier. */
  lemma {:induction false} GagHoldsUntilExpiry(s: Settings, lines: seq<Line>, k: nat)
    requires 0 <= s.gagDuration && k <= |lines| && GagAt(s, lines, k).Gagged?
    requires forall j :: k <= j < |lines| ==> lines[j].time <= GagAt(s, lines, k).expiry
    ensures After(s, lines).gag.Gagged? && After(s, lines).gag.expiry >= GagAt(s, lines, k).expiry
  {
    if k == |lines| {
      assert lines[..k] == lines;
    } else {
      var init := lines[..|lines| - 1];
      assert init[..k] == lines[..k];
      GagHoldsUntilExpiry(s, init, k);
    }
  }

  // ---------------------------------------------------------------- the filter object

  function AsGag(gagged: bool, expiry: int): Gag {
    if gagged then Gagged(expiry) else Free
  }

  class Filter {
    var cache: seq<Line>
    var gagged: bool
    var gagExpiry: int
    ghost var said: seq<Line>       // every line of the player, asked about or not

    ghost function Abs(): State
      reads this
    {
      State(cache, AsGag(gagged, gagExpiry))
    }

    constructor ()
      ensures Abs() == UNUSED && said == []
    {
      cache, gagged, gagExpiry, said := [], false, 0, [];
    }

    /** Erases the expired lines and counts those equal to `text`. */
    method PurgeAndCount(s: Settings, now: int, text: Text) returns (repeats: nat)
      modifies this`cache
      ensures cache == Fresh(old(cache), s.interval, now)
      ensures repeats == Occurrences(cache, text)
    {
      ghost var kept, rest, target := [], cache, Fresh(cache, s.interval, now);
      var i := 0;
      repeats := 0;
      while i < |cache|
        invariant cache == kept + rest && i == |kept| && repeats == Occurrences(kept, text)
        invariant target == kept + Fresh(rest, s.interval, now)
        decreases |rest|
      {
        var line := cache[i];
        assert rest == [line] + rest[1..];
        PurgeStep(kept, line, rest[1..], s.interval, now, target);
        rest := rest[1..];
        if line.time + s.interval < now {
          cache := cache[..i] + cache[i + 1..];
          assert cache == kept + rest;
        } else {
          if line.text == text {
            repeats := repeats + 1;
          }
          OccurrencesSnoc(kept, line, text);
          kept := kept + [line];
          i := i + 1;
          assert cache == kept + rest;
        }
      }
      assert cache == kept;
    }

    method UpdateGag(s: Settings, repeats: nat, now: int) returns (notices: nat)
      modifies this`gagged, this`gagExpiry
      ensures AsGag(gagged, gagExpiry) == NextGag(s, AsGag(old(gagged), old(gagExpiry)), repeats, now)
      ensures notices == Notices(AsGag(old(gagged), old(gagExpiry)), AsGag(gagged, gagExpiry))
      ensures !gagged <==> repeats <= s.count && (old(gagged) ==> old(gagExpiry) < now)
    {
      notices := 0;
      if repeats > s.count {
        if !gagged {
          gagExpiry := now;
        }
        gagged := true;
        gagExpiry := gagExpiry + s.gagDuration;
      } else if gagged && gagExpiry < now {
        gagged := false;
        notices := notices + 1;
      }
      if gagged {
        notices := notices + 1;
      }
    }

    /** CheckForSpam: true when the line is to be withheld. */
    method CheckForSpam(s: Settings, text: Text, now: int) returns (spam: bool, notices: nat)
      modifies this
      ensures Abs() == Checked(s, old(Abs()), Line(now, text)) && said == old(said)
      ensures spam <==> Abs().gag.Gagged?
      ensures notices == Notices(old(Abs()).gag, Abs().gag)
      ensures !spam <==>
                |Repeats(old(cache), s.interval, text, now)| <= s.count && (old(gagged) ==> old(gagExpiry) < now)
    {
      FilterMoves(s, Abs(), Line(now, text));
      var repeats := PurgeAndCount(s, now, text);
      cache := cache + [Line(now, text)];
      notices := UpdateGag(s, repeats, now);
      return gagged, notices;
    }
  }
}
