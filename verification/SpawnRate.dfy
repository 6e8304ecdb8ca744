/** The vehicle spawn limiter: registration timestamps of one client, purged on every check. */
module SpawnRate {

  /** Outcome of one check: whether the spawn is allowed, whether the client is warned, and the
      timestamps kept. */
  datatype Verdict = Verdict(allowed: bool, warned: bool, stamps: seq<int>)

  predicate Limited(interval: int, maxRate: int) {
    interval != 0 && maxRate != 0
  }

  /** The timestamps not older than `since`. */
  function Recent(stamps: seq<int>, since: int): seq<int> {
    RecentTo(stamps, |stamps|, since)
  }

  /** The same for the first `n` timestamps. */
  function RecentTo(stamps: seq<int>, n: nat, since: int): seq<int>
    requires n <= |stamps|
  {
    if n == 0 then [] else RecentTo(stamps, n - 1, since) + if stamps[n - 1] < since then [] else [stamps[n - 1]]
  }

  /** The places of the timestamps not older than `since`. */
  function RecentPlaces(stamps: seq<int>, since: int): set<int> {
    set k | 0 <= k < |stamps| && stamps[k] >= since
  }

  /** CheckSpawnRate: `now` is the clock reading used for purging, `later` the one recorded. */
  function Check(stamps: seq<int>, interval: int, maxRate: int, now: int, later: int): Verdict {
    if !Limited(interval, maxRate) then Verdict(true, false, stamps)
    else
      var kept := Recent(stamps, now - interval);
      Verdict(|kept| <= maxRate, maxRate > 0 && 10 * |kept| > 7 * maxRate, kept + [later])
  }

  // ---------------------------------------------------------------- sequences of checks

  /** The timestamps held after the first `k` checks. */
  function Held(readings: seq<(int, int)>, k: nat, interval: int, maxRate: int): seq<int>
    requires k <= |readings|
  {
    if k == 0 then []
    else Check(Held(readings, k - 1, interval, maxRate), interval, maxRate, readings[k - 1].0, readings[k - 1].1).stamps
  }

  /** The verdict on check number `k`. */
  predicate Allowed(readings: seq<(int, int)>, k: nat, interval: int, maxRate: int)
    requires k < |readings|
  {
    Check(Held(readings, k, interval, maxRate), interval, maxRate, readings[k].0, readings[k].1).allowed
  }

  predicate ClockMonotone(readings: seq<(int, int)>) {
    (forall i :: 0 <= i < |readings| ==> readings[i].0 <= readings[i].1) &&
    (forall i, j :: 0 <= i < j < |readings| ==> readings[i].1 <= readings[j].0)
  }

  /** Every timestamp recorded by the first `k` checks. */
  function Recorded(readings: seq<(int, int)>, k: nat): (r: seq<int>)
    requires k <= |readings|
    ensures |r| == k
  {
    if k == 0 then [] else Recorded(readings, k - 1) + [readings[k - 1].1]
  }

  /** How many of the first `k` checks allowed a spawn in the closed window [from, to]. */
  function AllowedWithin(readings: seq<(int, int)>, k: nat, interval: int, maxRate: int, from: int, to: int): nat
    requires k <= |readings|
  {
    if k == 0 then 0
    else AllowedWithin(readings, k - 1, interval, maxRate, from, to)
         + if from <= readings[k - 1].1 <= to && Allowed(readings, k - 1, interval, maxRate) then 1 else 0
  }

  lemma {:induction false} HeldPrefix(readings: seq<(int, int)>, more: seq<(int, int)>, k: nat, interval: int,
                                      maxRate: int)
    requires k <= |readings|
    ensures Held(readings + more, k, interval, maxRate) == Held(readings, k, interval, maxRate)
  {
    if k > 0 {
      HeldPrefix(readings, more, k - 1, interval, maxRate);
      assert (readings + more)[k - 1] == readings[k - 1];
    }
  }

  lemma {:induction false} RecentToPrefix(stamps: seq<int>, more: seq<int>, n: nat, since: int)
    requires n <= |stamps|
    ensures RecentTo(stamps + more, n, since) == RecentTo(stamps, n, since)
  {
    if n > 0 {
      RecentToPrefix(stamps, more, n - 1, since);
      assert (stamps + more)[n - 1] == stamps[n - 1];
    }
  }

  lemma RecentSnoc(stamps: seq<int>, x: int, since: int)
    ensures Recent(stamps + [x], since) == Recent(stamps, since) + if x < since then [] else [x]
  {
    RecentToPrefix(stamps, [x], |stamps|, since);
    assert (stamps + [x])[|stamps|] == x;
  }

  lemma PlacesMore(stamps: seq<int>, n: nat, since: int)
    requires |stamps| == n + 1
    ensures |RecentPlaces(stamps, since)|
         == |RecentPlaces(stamps[..n], since)| + if stamps[n] < since then 0 else 1
  {
    assert RecentPlaces(stamps, since) == RecentPlaces(stamps[..n], since) + if stamps[n] < since then {} else {n};
  }

  lemma {:induction false} RecentCounted(stamps: seq<int>, since: int)
    ensures |Recent(stamps, since)| == |RecentPlaces(stamps, since)|
  {
    if stamps != [] {
      var n := |stamps| - 1;
      var init := stamps[..n];
      RecentCounted(init, since);
      RecentSnoc(init, stamps[n], since);
      assert stamps == init + [stamps[n]];
      PlacesMore(stamps, n, since);
    }
  }

  lemma {:induction false} RecentHeadTo(x: int, stamps: seq<int>, n: nat, since: int)
    requires n <= |stamps|
    ensures RecentTo([x] + stamps, n + 1, since) == (if x < since then [] else [x]) + RecentTo(stamps, n, since)
  {
    var all := [x] + stamps;
    if n == 0 {
      assert RecentTo(all, 0, since) == [] && all[0] == x;
    } else {
      RecentHeadTo(x, stamps, n - 1, since);
      assert all[n] == stamps[n - 1];
    }
  }

  lemma RecentHead(x: int, stamps: seq<int>, since: int)
    ensures Recent([x] + stamps, since) == (if x < since then [] else [x]) + Recent(stamps, since)
  {
    RecentHeadTo(x, stamps, |stamps|, since);
  }

  lemma {:induction false} RecentTwiceTo(stamps: seq<int>, n: nat, a: int, b: int)
    requires a <= b && n <= |stamps|
    ensures Recent(RecentTo(stamps, n, a), b) == RecentTo(stamps, n, b)
  {
    if n > 0 {
      RecentTwiceTo(stamps, n - 1, a, b);
      RecentSnoc(RecentTo(stamps, n - 1, a), stamps[n - 1], b);
      assert RecentTo(stamps, n - 1, a) + [] == RecentTo(stamps, n - 1, a);
    }
  }

  lemma RecentTwice(stamps: seq<int>, a: int, b: int)
    requires a <= b
    ensures Recent(Recent(stamps, a), b) == Recent(stamps, b)
  {
    RecentTwiceTo(stamps, |stamps|, a, b);
  }

  /** Purging once more, later, after one more timestamp. */
  lemma PurgedAgain(held: seq<int>, all: seq<int>, x: int, a: int, b: int)
    requires a <= b && Recent(held, a) == Recent(all, a)
    ensures Recent(Recent(held, a) + [x], b) == Recent(all + [x], b)
  {
    RecentSnoc(all, x, b);
    RecentSnoc(Recent(all, a), x, b);
    RecentTwice(all, a, b);
  }

  /** Erasing old timestamps forgets nothing that a later check would count: the held ones are
      exactly the recent part of everything recorded. */
  lemma {:induction false} PurgingLosesNothing(readings: seq<(int, int)>, k: nat, interval: int, maxRate: int,
                                               since: int)
    requires Limited(interval, maxRate) && ClockMonotone(readings) && k <= |readings|
    requires k > 0 ==> readings[k - 1].0 - interval <= since
    ensures Recent(Held(readings, k, interval, maxRate), since) == Recent(Recorded(readings, k), since)
  {
    if k > 0 {
      var purge := readings[k - 1].0 - interval;
      PurgingLosesNothing(readings, k - 1, interval, maxRate, purge);
      PurgedAgain(Held(readings, k - 1, interval, maxRate), Recorded(readings, k - 1), readings[k - 1].1, purge, since);
    }
  }

  /** In terms of everything recorded, while the clock does not run backwards: a check allows the spawn exactly when
      no more spawns than the maximum rate were recorded within the interval, and warns exactly when more than seven
      tenths of it were; without limits it allows everything. */
  lemma CheckCounts(readings: seq<(int, int)>, interval: int, maxRate: int, now: int, later: int)
    requires ClockMonotone(readings + [(now, later)])
    ensures var v := Check(Held(readings, |readings|, interval, maxRate), interval, maxRate, now, later);
            var n := |set k | 0 <= k < |readings| && readings[k].1 >= now - interval|;
            && (v.allowed <==> interval == 0 || maxRate == 0 || n <= maxRate)
            && (v.warned <==> interval != 0 && maxRate > 0 && (n as real) / (maxRate as real) > 0.7)
  {
    var all := readings + [(now, later)];
    assert forall k :: 0 <= k < |readings| ==> all[k] == readings[k];
    if Limited(interval, maxRate) {
      var since, stamps := now - interval, Recorded(readings, |readings|);
      assert ClockMonotone(readings) && all[|readings|] == (now, later);
      PurgingLosesNothing(readings, |readings|, interval, maxRate, since);
      RecentCounted(stamps, since);
      RecordedAre(readings, |readings|);
      assert RecentPlaces(stamps, since) == set k | 0 <= k < |readings| && readings[k].1 >= since;
      Tenths(|RecentPlaces(stamps, since)|, maxRate);
    }
  }

  lemma Tenths(n: nat, maxRate: int)
    ensures maxRate > 0 ==> (10 * n > 7 * maxRate <==> (n as real) / (maxRate as real) > 0.7)
  {
    if maxRate > 0 {
      QuotientCompared(n as real, maxRate as real);
      assert (10 * n) as real == 10.0 * (n as real) && (7 * maxRate) as real == 7.0 * (maxRate as real);
    }
  }

  lemma QuotientCompared(n: real, d: real)
    requires d > 0.0
    ensures n / d > 0.7 <==> 10.0 * n > 7.0 * d
  {
    var q := n / d;
    assert q * d == n;
    if q > 0.7 {
      assert (q - 0.7) * d > 0.0;
    } else {
      assert (0.7 - q) * d >= 0.0;
    }
  }

  lemma {:induction false} RecordedAre(readings: seq<(int, int)>, k: nat)
    requires k <= |readings|
    ensures forall i :: 0 <= i < k ==> Recorded(readings, k)[i] == readings[i].1
  {
    if k > 0 {
      RecordedAre(readings, k - 1);
    }
  }

  /** A closed window no longer than the interval is covered by what the last check counted. */
  lemma {:induction false} WindowCounted(readings: seq<(int, int)>, k: nat, interval: int, maxRate: int,
                                         from: int, to: int, since: int)
    requires k <= |readings| && since <= from
    ensures AllowedWithin(readings, k, interval, maxRate, from, to) <= |Recent(Recorded(readings, k), since)|
  {
    if k > 0 {
      WindowCounted(readings, k - 1, interval, maxRate, from, to, since);
      RecentSnoc(Recorded(readings, k - 1), readings[k - 1].1, since);
    }
  }

  /** A window that check `k` is in holds no more than what that check counted, and that check. */
  lemma WindowOfCheck(readings: seq<(int, int)>, k: nat, interval: int, maxRate: int, from: int, since: int)
    requires Limited(interval, maxRate) && ClockMonotone(readings) && k < |readings|
    requires readings[k].0 - interval <= since <= from
    ensures AllowedWithin(readings, k + 1, interval, maxRate, from, from + interval)
            <= |Recent(Held(readings, k, interval, maxRate), since)| + 1
  {
    PurgingLosesNothing(readings, k, interval, maxRate, since);
    WindowCounted(readings, k, interval, maxRate, from, from + interval, since);
  }

  /** However a client times its registrations, no closed window of the configured length
      contains more than the maximum rate plus one allowed vehicle spawns. */
  lemma {:induction false} WindowBound(readings: seq<(int, int)>, k: nat, interval: int, maxRate: int, from: int)
    requires Limited(interval, maxRate) && ClockMonotone(readings) && k <= |readings|
    ensures AllowedWithin(readings, k, interval, maxRate, from, from + interval)
         <= if maxRate < 0 then 0 else maxRate + 1
  {
    if k > 0 {
      if from <= readings[k - 1].1 <= from + interval && Allowed(readings, k - 1, interval, maxRate) {
        WindowOfCheck(readings, k - 1, interval, maxRate, from, readings[k - 1].0 - interval);
      } else {
        WindowBound(readings, k - 1, interval, maxRate, from);
      }
    }
  }

  // ---------------------------------------------------------------- the announced limit

  function Copies<T>(n: nat, x: T): (r: seq<T>)
    ensures |r| == n && forall i :: 0 <= i < n ==> r[i] == x
  {
    seq(n, _ => x)
  }

  lemma CopiesMore<T>(n: nat, x: T)
    ensures Copies(n + 1, x) == Copies(n, x) + [x]
  {
  }

  lemma {:induction false} RecentOfCopies(n: nat, t: int, since: int)
    requires since <= t
    ensures Recent(Copies(n, t), since) == Copies(n, t)
  {
    if n > 0 {
      RecentOfCopies(n - 1, t, since);
      CopiesMore(n - 1, t);
      RecentSnoc(Copies(n - 1, t), t, since);
    }
  }

  lemma {:induction false} BurstHeld(burst: seq<(int, int)>, k: nat, t: int, interval: int, maxRate: int)
    requires interval > 0 && maxRate > 0 && k <= |burst| && burst == Copies(|burst|, (t, t))
    ensures Held(burst, k, interval, maxRate) == Copies(k, t)
  {
    if k > 0 {
      BurstHeld(burst, k - 1, t, interval, maxRate);
      RecentOfCopies(k - 1, t, t - interval);
      CopiesMore(k - 1, t);
    }
  }

  lemma BurstAllows(burst: seq<(int, int)>, k: nat, t: int, interval: int, maxRate: int)
    requires interval > 0 && maxRate > 0 && k < |burst| <= maxRate + 1 && burst == Copies(|burst|, (t, t))
    ensures Allowed(burst, k, interval, maxRate) && burst[k] == (t, t)
  {
    BurstHeld(burst, k, t, interval, maxRate);
    RecentOfCopies(k, t, t - interval);
  }

  lemma WithinOneMore(readings: seq<(int, int)>, k: nat, interval: int, maxRate: int, from: int, to: int)
    requires k < |readings| && Allowed(readings, k, interval, maxRate) && from <= readings[k].1 <= to
    ensures AllowedWithin(readings, k + 1, interval, maxRate, from, to)
         == AllowedWithin(readings, k, interval, maxRate, from, to) + 1
  {
  }

  lemma {:induction false} BurstAllowed(burst: seq<(int, int)>, k: nat, t: int, interval: int, maxRate: int)
    requires interval > 0 && maxRate > 0 && k <= |burst| <= maxRate + 1 && burst == Copies(|burst|, (t, t))
    ensures AllowedWithin(burst, k, interval, maxRate, t, t + interval) == k
  {
    if k > 0 {
      BurstAllowed(burst, k - 1, t, interval, maxRate);
      BurstAllows(burst, k - 1, t, interval, maxRate);
      WithinOneMore(burst, k - 1, interval, maxRate, t, t + interval);
    }
  }

  /** The bound is reached, whatever the limits: one more spawn than the notice to the player announces is
      allowed at once. */
  lemma BoundIsReached(interval: int, maxRate: int, t: int)
    requires interval > 0 && maxRate > 0
    ensures AllowedWithin(Copies(maxRate + 1, (t, t)), maxRate + 1, interval, maxRate, t, t + interval) == maxRate + 1
  {
    BurstAllowed(Copies(maxRate + 1, (t, t)), maxRate + 1, t, interval, maxRate);
  }

  predicate AllAllowed(readings: seq<(int, int)>, interval: int, maxRate: int) {
    forall k :: 0 <= k < |readings| ==> Allowed(readings, k, interval, maxRate)
  }

  /** How many of the timestamps that check `k` finds lie in the window that it closes. */
  function Crowd(readings: seq<(int, int)>, k: nat, interval: int, maxRate: int): nat
    requires k < |readings|
  {
    |Recent(Held(readings, k, interval, maxRate), readings[k].1 - interval)|
  }

  predicate NeverCrowded(readings: seq<(int, int)>, interval: int, maxRate: int) {
    forall k :: 0 <= k < |readings| ==> Crowd(readings, k, interval, maxRate) < maxRate
  }

  lemma {:induction false} WindowOfAllowed(readings: seq<(int, int)>, k: nat, interval: int, maxRate: int, from: int,
                                           to: int)
    requires AllAllowed(readings, interval, maxRate) && k <= |readings|
    requires forall i :: 0 <= i < k ==> readings[i].1 <= to
    ensures AllowedWithin(readings, k, interval, maxRate, from, to) == |Recent(Recorded(readings, k), from)|
  {
    if k > 0 {
      WindowOfAllowed(readings, k - 1, interval, maxRate, from, to);
      RecentSnoc(Recorded(readings, k - 1), readings[k - 1].1, from);
    }
  }

  /** The window that check `k` closes holds that one and the crowd before it. */
  lemma ClosedWindow(readings: seq<(int, int)>, k: nat, interval: int, maxRate: int)
    requires interval > 0 && maxRate > 0 && k < |readings|
    requires ClockMonotone(readings) && AllAllowed(readings, interval, maxRate)
    ensures AllowedWithin(readings, k + 1, interval, maxRate, readings[k].1 - interval, readings[k].1)
            == Crowd(readings, k, interval, maxRate) + 1
  {
    var from := readings[k].1 - interval;
    WindowOfAllowed(readings, k, interval, maxRate, from, readings[k].1);
    PurgingLosesNothing(readings, k, interval, maxRate, from);
  }

  lemma {:induction false} MoreWithin(readings: seq<(int, int)>, n: nat, k: nat, interval: int, maxRate: int, from: int,
                                      to: int)
    requires n <= k <= |readings|
    ensures AllowedWithin(readings, n, interval, maxRate, from, to)
         <= AllowedWithin(readings, k, interval, maxRate, from, to)
    decreases k
  {
    if n < k {
      MoreWithin(readings, n, k - 1, interval, maxRate, from, to);
    }
  }

  /** Any window holds no more than the crowd of some check in it, and that check. */
  lemma {:induction false} NeverCrowdedWindow(readings: seq<(int, int)>, k: nat, interval: int, maxRate: int, from: int)
    requires interval > 0 && maxRate > 0 && k <= |readings|
    requires ClockMonotone(readings) && NeverCrowded(readings, interval, maxRate)
    ensures AllowedWithin(readings, k, interval, maxRate, from, from + interval) <= maxRate
  {
    if k > 0 {
      if from <= readings[k - 1].1 <= from + interval {
        WindowOfCheck(readings, k - 1, interval, maxRate, from, readings[k - 1].1 - interval);
        assert Crowd(readings, k - 1, interval, maxRate) < maxRate;
      } else {
        NeverCrowdedWindow(readings, k - 1, interval, maxRate, from);
      }
    }
  }

  /** The window that begins at `from` holds no more spawns than announced. */
  predicate LimitHolds(readings: seq<(int, int)>, interval: int, maxRate: int, from: int) {
    AllowedWithin(readings, |readings|, interval, maxRate, from, from + interval) <= maxRate
  }

  lemma NeverCrowdedHolds(readings: seq<(int, int)>, interval: int, maxRate: int, from: int)
    requires interval > 0 && maxRate > 0 && ClockMonotone(readings) && NeverCrowded(readings, interval, maxRate)
    ensures LimitHolds(readings, interval, maxRate, from)
  {
    NeverCrowdedWindow(readings, |readings|, interval, maxRate, from);
  }

  lemma CrowdedBreaks(readings: seq<(int, int)>, k: nat, interval: int, maxRate: int)
    requires interval > 0 && maxRate > 0 && ClockMonotone(readings) && AllAllowed(readings, interval, maxRate)
    requires k < |readings| && Crowd(readings, k, interval, maxRate) >= maxRate
    ensures !LimitHolds(readings, interval, maxRate, readings[k].1 - interval)
  {
    var to := readings[k].1;
    ClosedWindow(readings, k, interval, maxRate);
    MoreWithin(readings, k + 1, |readings|, interval, maxRate, to - interval, to);
  }

  /** The announced limit itself holds for a client's spawns if and only if none of them finds as many
      timestamps as the limit in the window that it closes. */
  lemma AnnouncedLimitExactly(readings: seq<(int, int)>, interval: int, maxRate: int)
    requires interval > 0 && maxRate > 0 && ClockMonotone(readings) && AllAllowed(readings, interval, maxRate)
    ensures NeverCrowded(readings, interval, maxRate) <==> forall from :: LimitHolds(readings, interval, maxRate, from)
  {
    if NeverCrowded(readings, interval, maxRate) {
      forall from ensures LimitHolds(readings, interval, maxRate, from) {
        NeverCrowdedHolds(readings, interval, maxRate, from);
      }
    } else {
      var k :| 0 <= k < |readings| && Crowd(readings, k, interval, maxRate) >= maxRate;
      CrowdedBreaks(readings, k, interval, maxRate);
    }
  }

  /** How many of the first `k` readings were recorded in the closed window [from, to]. */
  function Within(readings: seq<(int, int)>, k: nat, from: int, to: int): nat
    requires k <= |readings|
  {
    if k == 0 then 0 else Within(readings, k - 1, from, to) + if from <= readings[k - 1].1 <= to then 1 else 0
  }

  lemma {:induction false} WithinOfAllowed(readings: seq<(int, int)>, k: nat, interval: int, maxRate: int, from: int,
                                           to: int)
    requires AllAllowed(readings, interval, maxRate) && k <= |readings|
    ensures Within(readings, k, from, to) == AllowedWithin(readings, k, interval, maxRate, from, to)
  {
    if k > 0 {
      WithinOfAllowed(readings, k - 1, interval, maxRate, from, to);
    }
  }

  /** One more check, allowed. */
  lemma AllowedMore(readings: seq<(int, int)>, x: (int, int), interval: int, maxRate: int)
    requires AllAllowed(readings, interval, maxRate)
    requires Check(Held(readings, |readings|, interval, maxRate), interval, maxRate, x.0, x.1).allowed
    ensures AllAllowed(readings + [x], interval, maxRate)
  {
    var all := readings + [x];
    forall k | 0 <= k < |all| ensures Allowed(all, k, interval, maxRate) {
      HeldPrefix(readings, [x], k, interval, maxRate);
      assert all[k] == if k < |readings| then readings[k] else x;
      assert k < |readings| ==> Allowed(readings, k, interval, maxRate);
    }
  }

  lemma HeldMore(readings: seq<(int, int)>, x: (int, int), interval: int, maxRate: int)
    ensures Held(readings + [x], |readings| + 1, interval, maxRate)
            == Check(Held(readings, |readings|, interval, maxRate), interval, maxRate, x.0, x.1).stamps
  {
    HeldPrefix(readings, [x], |readings|, interval, maxRate);
    assert (readings + [x])[|readings|] == x;
  }
}
