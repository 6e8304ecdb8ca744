/** What the editing and sorting operations of script arrays mean for the sequence of elements. */
module ArrayEdits {

  /** What a comparison callback did. */
  datatype Answer = Failed | Said(less: bool)

  function Repeated<T>(n: nat, x: T): (r: seq<T>)
    ensures |r| == n
  {
    seq(n, _ => x)
  }

  function Min(a: nat, b: nat): (m: nat)
    ensures m == a || m == b
    ensures m <= a && m <= b
  {
    if a < b then a else b
  }

  /** Room made (`delta` positive) or elements taken out (`delta` negative) at a position, both cut
      to what there is. */
  function Resized<T>(s: seq<T>, delta: int, at: nat, zero: T): (r: seq<T>)
    ensures |r| == if |s| + delta < 0 then 0 else |s| + delta
  {
    if delta < 0 then
      var d := Min(-delta, |s|);
      var a := Min(at, |s| - d);
      s[..a] + s[a + d..]
    else
      var a := Min(at, |s|);
      s[..a] + Repeated(delta, zero) + s[a..]
  }

  /** Cutting change and position beforehand makes no difference. */
  lemma CutToSize<T>(s: seq<T>, change: int, position: nat, delta: int, at: nat, zero: T)
    requires delta == if change < 0 && -change > |s| then -|s| else change
    requires at == if delta < 0 then Min(position, |s| + delta) else Min(position, |s|)
    ensures Resized(s, delta, at, zero) == Resized(s, change, position, zero)
  {
  }

  /** Elements replaced one after the other from a position on; those that would fall behind the end are dropped. */
  function Overwritten<T>(s: seq<T>, at: nat, t: seq<T>): (r: seq<T>)
    ensures |r| == |s|
  {
    seq(|s|, k requires 0 <= k < |s| => if at <= k < at + |t| then t[k - at] else s[k])
  }

  function Spliced<T>(s: seq<T>, at: nat, t: seq<T>): seq<T>
    requires at <= |s|
  {
    s[..at] + t + s[at..]
  }

  function Removed<T>(s: seq<T>, start: nat, count: nat): seq<T>
    requires start <= |s|
  {
    s[..start] + s[start + Min(count, |s| - start)..]
  }

  /** Room made, element by element. */
  lemma RoomMade<T>(r: seq<T>, s: seq<T>, delta: nat, at: nat, zero: T)
    requires at <= |s| && |r| == |s| + delta
    requires forall k :: 0 <= k < at ==> r[k] == s[k]
    requires forall k :: at <= k < at + delta ==> r[k] == zero
    requires forall k :: at + delta <= k < |r| ==> r[k] == s[k - delta]
    ensures r == Resized(s, delta, at, zero)
  {
  }

  /** Room made inside a buffer: the elements behind it are moved up, then the room is filled. */
  lemma RoomMoved<T>(was: seq<T>, moved: seq<T>, now: seq<T>, n: nat, delta: nat, at: nat, zero: T)
    requires at <= n && n + delta <= |was| == |moved| == |now|
    requires moved[..at + delta] == was[..at + delta] && moved[at + delta..n + delta] == was[at..n]
    requires now[..at] == moved[..at] && now[at + delta..] == moved[at + delta..]
    requires now[at..at + delta] == Repeated(delta, zero)
    ensures now[..n + delta] == Resized(was[..n], delta, at, zero)
  {
    assert now[..at] == was[..n][..at] by {
      assert moved[..at] == moved[..at + delta][..at];
      assert was[..n][..at] == was[..at + delta][..at];
    }
    assert now[at + delta..n + delta] == was[..n][at..] by {
      assert now[at + delta..n + delta] == now[at + delta..][..n - at];
      assert moved[at + delta..n + delta] == moved[at + delta..][..n - at];
    }
    assert now[..n + delta] == now[..at] + now[at..at + delta] + now[at + delta..n + delta];
  }

  /** Making room and filling it puts a sequence in. */
  lemma RoomFilled<T>(s: seq<T>, at: nat, t: seq<T>, zero: T)
    requires at <= |s|
    ensures Overwritten(Resized(s, |t|, at, zero), at, t) == Spliced(s, at, t)
  {
    var room := Resized(s, |t|, at, zero);
    assert room == s[..at] + Repeated(|t|, zero) + s[at..];
  }

  lemma OverwrittenMore<T>(s: seq<T>, at: nat, t: seq<T>, x: T)
    ensures at + |t| < |s| ==> Overwritten(s, at, t + [x]) == Overwritten(s, at, t)[at + |t| := x]
    ensures at + |t| >= |s| ==> Overwritten(s, at, t + [x]) == Overwritten(s, at, t)
  {
  }

  /** The same where positions are computed in 32 bits: those behind the last one go on at the front. */
  function OverwrittenAround<T>(s: seq<T>, at: nat, t: seq<T>): (r: seq<T>)
    ensures |r| == |s|
  {
    seq(|s|, k requires 0 <= k < |s| =>
      if at <= k < at + |t| then t[k - at]
      else if at <= k + DWORD < at + |t| then t[k + DWORD - at]
      else s[k])
  }

  /** While no position wraps around, there is no difference. */
  lemma OverwrittenStraight<T>(s: seq<T>, at: nat, t: seq<T>)
    requires at + |t| <= DWORD
    ensures OverwrittenAround(s, at, t) == Overwritten(s, at, t)
  {
  }

  lemma OverwrittenAroundMore<T>(s: seq<T>, at: nat, t: seq<T>, x: T)
    requires |s| < DWORD && at < DWORD && |t| < DWORD
    ensures var p := Wrapped(at + |t|);
            OverwrittenAround(s, at, t + [x])
              == if p < |s| then OverwrittenAround(s, at, t)[p := x] else OverwrittenAround(s, at, t)
  {
  }

  /** An array that has been given room for its own elements, or has been refused it, around the room. */
  function Around<T>(s: seq<T>, at: nat, length: nat): seq<T>
    requires at <= length <= |s|
  {
    s[..at] + if at + length <= |s| then s[at + length..] else []
  }

  lemma AroundRoom<T>(s: seq<T>, at: nat, zero: T)
    requires at <= |s|
    ensures Around(Resized(s, |s|, at, zero), at, |s|) == s
  {
    var room := Resized(s, |s|, at, zero);
    assert room[..at] == s[..at] && room[at + |s|..] == s[at..];
  }

  lemma AroundNoRoom<T>(s: seq<T>, at: nat)
    requires at <= |s|
    ensures Around(s, at, |s|) == s[..at]
  {
  }

  // ---------------------------------------------------------------- ranges in 32-bit arithmetic

  const DWORD := 0x1_0000_0000
  const INT_LIMIT := 0x8000_0000

  /** The conversion of an unsigned number to a signed one. */
  function AsInt(n: nat): int
    requires n < DWORD
  {
    if n < INT_LIMIT then n else n - DWORD
  }

  /** A sum or difference in unsigned arithmetic. */
  function Wrapped(n: int): (w: nat)
    ensures w < DWORD
    ensures 0 <= n < DWORD ==> w == n
    ensures DWORD <= n < 2 * DWORD ==> w == n - DWORD
    ensures -DWORD <= n < 0 ==> w == n + DWORD
  {
    n % DWORD
  }

  predicate IsInt(n: int) {
    -INT_LIMIT <= n < INT_LIMIT
  }

  /** A change of size that overflows a signed number or leads behind the buffer. */
  predicate ChangeUndefined(size: nat, delta: int) {
    if delta < 0 then size >= INT_LIMIT || delta == -INT_LIMIT else size + delta >= DWORD
  }

  /** The change of size as the difference of two signed numbers. */
  function Change(size: nat, n: nat): int
    requires size < DWORD && n < DWORD
  {
    AsInt(n) - AsInt(size)
  }

  predicate ResizeUndefined(size: nat, n: nat)
    requires size < DWORD && n < DWORD
  {
    !IsInt(Change(size, n)) || ChangeUndefined(size, Change(size, n))
  }

  /** A new size is reached if and only if neither size is beyond the signed numbers, or the array is there already
      and does not shrink. Of the others, it is the empty array that results when the new size is farther away
      than a signed number can say, and anything at all otherwise. */
  lemma ResizeIsExact<T>(s: seq<T>, n: nat, zero: T)
    requires |s| < DWORD && n < DWORD
    ensures !ResizeUndefined(|s|, n) && |Resized(s, Change(|s|, n), DWORD - 1, zero)| == n <==>
              if |s| < INT_LIMIT then n < INT_LIMIT else n >= |s|
    ensures ResizeUndefined(|s|, n) <==>
              if |s| < INT_LIMIT then INT_LIMIT <= n <= |s| + INT_LIMIT else n < |s|
    ensures |s| < INT_LIMIT && n > |s| + INT_LIMIT ==> Resized(s, Change(|s|, n), DWORD - 1, zero) == []
    ensures !ResizeUndefined(|s|, n) && n <= |s| ==> Resized(s, Change(|s|, n), DWORD - 1, zero) == s[..n]
    ensures !ResizeUndefined(|s|, n) && |s| <= n && (n < INT_LIMIT || |s| >= INT_LIMIT) ==>
              Resized(s, Change(|s|, n), DWORD - 1, zero) == s + Repeated(n - |s|, zero)
  {
  }

  /** The elements left by RemoveRange, whose sum of start and count is computed in 32 bits: where it wraps
      around, the elements from the wrapped sum on are kept in front of the start and put behind it once more. */
  function LeftByRemoval<T>(s: seq<T>, start: nat, count: nat): seq<T>
    requires start <= |s| < DWORD && count < DWORD
  {
    if start + count < DWORD then Removed(s, start, count) else s[..start] + s[start + count - DWORD..]
  }

  /** The range is taken out if and only if the sum does not wrap around; otherwise the array grows. */
  lemma RemovalIsExact<T>(s: seq<T>, start: nat, count: nat)
    requires start <= |s| < DWORD && 0 < count < DWORD
    ensures LeftByRemoval(s, start, count) == Removed(s, start, count) <==> start + count < DWORD
    ensures start + count >= DWORD ==> |LeftByRemoval(s, start, count)| == |s| + (DWORD - count)
  {
  }

  /** Behind the last element to sort, as computed by the sort without a callback. */
  function SortEnd(startAt: nat, count: nat): int {
    AsInt(Wrapped(startAt + count))
  }

  datatype SortRequest = Nothing | OutOfRange | BeforeBuffer | Range(start: nat, end: nat)

  /** What that sort makes of a request, with the bounds and the size converted to signed numbers. */
  function Requested(size: nat, startAt: nat, count: nat): SortRequest
    requires size < DWORD && startAt < DWORD
  {
    var start, end := AsInt(startAt), SortEnd(startAt, count);
    if count < 2 then Nothing
    else if start >= AsInt(size) || end > AsInt(size) then OutOfRange
    else if end <= start then Nothing
    else if start < 0 then BeforeBuffer
    else Range(start, end)
  }

  /** A request is honoured if and only if it fits and the size is a signed number. A start that is no signed number
      lets the sort run in front of the buffer if the wrapped end fits. What is left is refused, except that an end
      that wraps around to the start or before it is passed over in silence. */
  lemma RequestsAnswered(size: nat, startAt: nat, count: nat)
    requires size < DWORD && startAt < DWORD && 2 <= count < DWORD
    ensures Requested(size, startAt, count) == Range(startAt, startAt + count)
            <==> size < INT_LIMIT && startAt + count <= size
    ensures Requested(size, startAt, count).Range? ==>
              Requested(size, startAt, count) == Range(startAt, startAt + count)
    ensures Requested(size, startAt, count).BeforeBuffer?
            <==> startAt >= INT_LIMIT && startAt + count <= if size < INT_LIMIT then DWORD + size else size
    ensures size < INT_LIMIT ==>
              (Requested(size, startAt, count).Nothing? <==>
                 if startAt < INT_LIMIT then startAt < size && startAt + count >= INT_LIMIT
                 else startAt + count >= DWORD + INT_LIMIT)
    ensures size >= INT_LIMIT ==>
              (Requested(size, startAt, count).Nothing? <==>
                 INT_LIMIT <= startAt < size && DWORD + INT_LIMIT <= startAt + count <= DWORD + size)
  {
  }

  /** A start of 2^31 for two elements passes the tests of every array whose size is a signed number. */
  lemma StartBeforeBuffer(size: nat)
    requires size < INT_LIMIT
    ensures Requested(size, INT_LIMIT, 2) == BeforeBuffer
  {
  }

  // ---------------------------------------------------------------- sorting

  /** A comparison that sorting can rely on: asymmetric, and what is not less passes on. */
  ghost predicate StrictWeak<T(!new)>(less: (T, T) -> bool) {
    && (forall x, y :: less(x, y) ==> !less(y, x))
    && (forall x, y, z :: !less(x, y) && !less(y, z) ==> !less(x, z))
  }

  ghost predicate Ordered<T>(s: seq<T>, less: (T, T) -> bool) {
    forall i, j :: 0 <= i < j < |s| ==> !less(s[j], s[i])
  }

  /** The direction of a sort. */
  function Directed<T>(less: (T, T) -> bool, ascending: bool): (T, T) -> bool {
    if ascending then less else (a, b) => less(b, a)
  }

  lemma DirectedIsStrictWeak<T(!new)>(less: (T, T) -> bool, ascending: bool)
    requires StrictWeak(less)
    ensures StrictWeak(Directed(less, ascending))
  {
    var d := Directed(less, ascending);
    forall x, y, z | !d(x, y) && !d(y, z) ensures !d(x, z) {
      assert less(x, z) ==> !(!less(x, y) && !less(y, z));
      assert less(z, x) ==> !(!less(z, y) && !less(y, x));
    }
  }

  /** A value moved down from the end past everything greater. */
  function Inserted<T>(s: seq<T>, x: T, less: (T, T) -> bool): (r: seq<T>)
    ensures |r| == |s| + 1
  {
    if s == [] || !less(x, s[|s| - 1]) then s + [x]
    else Inserted(s[..|s| - 1], x, less) + [s[|s| - 1]]
  }

  function InsertionSorted<T>(s: seq<T>, less: (T, T) -> bool): (r: seq<T>)
    ensures |r| == |s|
  {
    if s == [] then [] else Inserted(InsertionSorted(s[..|s| - 1], less), s[|s| - 1], less)
  }

  lemma {:induction false} InsertedIsPermutation<T>(s: seq<T>, x: T, less: (T, T) -> bool)
    ensures multiset(Inserted(s, x, less)) == multiset(s) + multiset{x}
  {
    if s != [] && less(x, s[|s| - 1]) {
      InsertedIsPermutation(s[..|s| - 1], x, less);
      assert s == s[..|s| - 1] + [s[|s| - 1]];
    }
  }

  /** Sorting loses and invents nothing, whatever the comparison. */
  lemma {:induction false} SortingIsPermutation<T>(s: seq<T>, less: (T, T) -> bool)
    ensures multiset(InsertionSorted(s, less)) == multiset(s)
  {
    if s != [] {
      SortingIsPermutation(s[..|s| - 1], less);
      InsertedIsPermutation(InsertionSorted(s[..|s| - 1], less), s[|s| - 1], less);
      assert s == s[..|s| - 1] + [s[|s| - 1]];
    }
  }

  lemma {:induction false} InsertedIsOrdered<T(!new)>(s: seq<T>, x: T, less: (T, T) -> bool)
    requires StrictWeak(less) && Ordered(s, less)
    ensures Ordered(Inserted(s, x, less), less)
  {
    if s == [] {
      assert Inserted(s, x, less) == [x];
    } else {
      var last := s[|s| - 1];
      if !less(x, last) {
        forall i | 0 <= i < |s| ensures !less(x, s[i]) {
          assert !less(last, s[i]);
        }
      } else {
        var front := s[..|s| - 1];
        var r := Inserted(front, x, less);
        InsertedIsOrdered(front, x, less);
        InsertedIsPermutation(front, x, less);
        forall i | 0 <= i < |r| ensures !less(last, r[i]) {
          assert r[i] in multiset(r);
          assert r[i] in front || r[i] == x;
        }
      }
    }
  }

  /** Sorting sorts, if the comparison is one to rely on. */
  lemma {:induction false} SortingOrders<T(!new)>(s: seq<T>, less: (T, T) -> bool)
    requires StrictWeak(less)
    ensures Ordered(InsertionSorted(s, less), less)
  {
    if s != [] {
      SortingOrders(s[..|s| - 1], less);
      InsertedIsOrdered(InsertionSorted(s[..|s| - 1], less), s[|s| - 1], less);
    }
  }

  predicate Equivalent<T>(x: T, y: T, less: (T, T) -> bool) {
    !less(x, y) && !less(y, x)
  }

  /** The elements that compare equal to `x`, in their order. */
  function Alike<T>(s: seq<T>, x: T, less: (T, T) -> bool): seq<T> {
    if s == [] then []
    else Alike(s[..|s| - 1], x, less) + if Equivalent(s[|s| - 1], x, less) then [s[|s| - 1]] else []
  }

  /** Elements that compare equal are the same in both, in the same order. */
  ghost predicate EqualsInOrder<T(!new)>(s: seq<T>, r: seq<T>, less: (T, T) -> bool) {
    forall x :: Alike(r, x, less) == Alike(s, x, less)
  }

  lemma AlikeMore<T>(s: seq<T>, y: T, x: T, less: (T, T) -> bool)
    ensures Alike(s + [y], x, less) == Alike(s, x, less) + if Equivalent(y, x, less) then [y] else []
  {
    assert (s + [y])[..|s|] == s;
  }

  lemma {:induction false} InsertedIsStable<T(!new)>(s: seq<T>, y: T, x: T, less: (T, T) -> bool)
    requires StrictWeak(less)
    ensures Alike(Inserted(s, y, less), x, less) == Alike(s, x, less) + if Equivalent(y, x, less) then [y] else []
  {
    if s == [] || !less(y, s[|s| - 1]) {
      AlikeMore(s, y, x, less);
    } else {
      var front, last := s[..|s| - 1], s[|s| - 1];
      InsertedIsStable(front, y, x, less);
      AlikeMore(Inserted(front, y, less), last, x, less);
      assert Equivalent(y, x, less) ==> !Equivalent(last, x, less);
    }
  }

  /** Elements that compare equal keep their order. */
  lemma {:induction false} SortingIsStable<T(!new)>(s: seq<T>, x: T, less: (T, T) -> bool)
    requires StrictWeak(less)
    ensures Alike(InsertionSorted(s, less), x, less) == Alike(s, x, less)
  {
    if s != [] {
      SortingIsStable(s[..|s| - 1], x, less);
      InsertedIsStable(InsertionSorted(s[..|s| - 1], less), s[|s| - 1], x, less);
    }
  }

  /** Part of a sequence sorted, the rest left alone. */
  function RangeSorted<T>(s: seq<T>, start: nat, end: nat, less: (T, T) -> bool): (r: seq<T>)
    requires start <= end <= |s|
    ensures |r| == |s|
  {
    s[..start] + InsertionSorted(s[start..end], less) + s[end..]
  }

  /** Where the value goes: behind the last element that is not greater. */
  lemma {:induction false} InsertedAt<T>(s: seq<T>, n: nat, x: T, less: (T, T) -> bool)
    requires n <= |s| && (n > 0 ==> !less(x, s[n - 1]))
    requires forall k :: n <= k < |s| ==> less(x, s[k])
    ensures Inserted(s, x, less) == s[..n] + [x] + s[n..]
  {
    if n == |s| {
      assert s[..n] == s && s[n..] == [];
    } else {
      var front := s[..|s| - 1];
      InsertedAt(front, n, x, less);
      assert front[..n] == s[..n] && front[n..] + [s[|s| - 1]] == s[n..];
    }
  }

  /** The elements from `start` to `end`, sorted one after the other. */
  function SortedPart<T>(s: seq<T>, start: nat, end: nat, less: (T, T) -> bool): seq<T>
    requires start <= end <= |s|
  {
    if start == end then [] else Inserted(SortedPart(s, start, end - 1, less), s[end - 1], less)
  }

  lemma {:induction false} SortedPartIs<T>(s: seq<T>, start: nat, end: nat, less: (T, T) -> bool)
    requires start <= end <= |s|
    ensures SortedPart(s, start, end, less) == InsertionSorted(s[start..end], less)
  {
    if start < end {
      SortedPartIs(s, start, end - 1, less);
      var part := s[start..end];
      assert part[..|part| - 1] == s[start..end - 1] && part[|part| - 1] == s[end - 1];
    }
  }

  /** A value put at `p`, with what was there up to its old place `i` moved up. */
  lemma SunkIs<T>(r: seq<T>, s: seq<T>, start: nat, p: nat, i: nat, less: (T, T) -> bool)
    requires start <= p <= i < |s| == |r|
    requires r[p] == s[i] && (p > start ==> !less(s[i], s[p - 1]))
    requires forall k :: 0 <= k < p ==> r[k] == s[k]
    requires forall k :: p < k <= i ==> r[k] == s[k - 1] && less(s[i], r[k])
    ensures r[start..i + 1] == Inserted(s[start..i], s[i], less)
  {
    var t, n := s[start..i], p - start;
    forall k | n <= k < |t| ensures less(s[i], t[k]) {
      assert r[start + k + 1] == t[k];
    }
    InsertedAt(t, n, s[i], less);
    assert t[..n] == r[start..p];
    forall k | 0 <= k < |t| - n ensures t[n..][k] == r[p + 1..i + 1][k] {
      assert r[p + 1 + k] == s[p + k];
    }
    assert t[n..] == r[p + 1..i + 1];
  }

  /** The value at `i` moved down to its place among those from `start` on; the rest is as it was. */
  ghost predicate SunkFrom<T>(s: seq<T>, r: seq<T>, start: nat, i: nat, less: (T, T) -> bool) {
    && |r| == |s| && start <= i < |s|
    && (forall k :: 0 <= k < start || i < k < |s| ==> r[k] == s[k])
    && r[start..i + 1] == Inserted(s[start..i], s[i], less)
  }

  ghost predicate PartSorted<T>(r: seq<T>, s: seq<T>, start: nat, i: nat, less: (T, T) -> bool) {
    && |r| == |s| && start <= i <= |s|
    && (forall k :: 0 <= k < start || i <= k < |s| ==> r[k] == s[k])
    && r[start..i] == SortedPart(s, start, i, less)
  }

  lemma SortedOneMore<T>(r: seq<T>, r': seq<T>, s: seq<T>, start: nat, i: nat, less: (T, T) -> bool)
    requires PartSorted(r, s, start, i, less) && SunkFrom(r, r', start, i, less)
    ensures PartSorted(r', s, start, i + 1, less)
  {
  }

  lemma SortedFirst<T>(s: seq<T>, start: nat, less: (T, T) -> bool)
    requires start < |s|
    ensures PartSorted(s, s, start, start + 1, less)
  {
    assert SortedPart(s, start, start, less) == [];
    assert SortedPart(s, start, start + 1, less) == [s[start]];
  }

  lemma JoinedRange<T>(r: seq<T>, s: seq<T>, start: nat, end: nat, less: (T, T) -> bool)
    requires PartSorted(r, s, start, end, less)
    ensures r == RangeSorted(s, start, end, less)
  {
    SortedPartIs(s, start, end, less);
    assert r[..start] == s[..start] && r[end..] == s[end..];
    assert r == r[..start] + r[start..end] + r[end..];
  }

  /** Reversing the comparison does not change what compares equal. */
  lemma {:induction false} AlikeEitherWay<T>(s: seq<T>, x: T, less: (T, T) -> bool, ascending: bool)
    ensures Alike(s, x, Directed(less, ascending)) == Alike(s, x, less)
  {
    if s != [] {
      AlikeEitherWay(s[..|s| - 1], x, less, ascending);
    }
  }

  /** In a sorted range no element is less than an earlier one, or greater when the direction is downwards. */
  ghost predicate InOrder<T>(s: seq<T>, start: nat, end: nat, less: (T, T) -> bool, ascending: bool)
    requires end <= |s|
  {
    && (ascending ==> forall i, j :: start <= i < j < end ==> !less(s[j], s[i]))
    && (!ascending ==> forall i, j :: start <= i < j < end ==> !less(s[i], s[j]))
  }

  lemma OrderedMeans<T>(s: seq<T>, start: nat, end: nat, less: (T, T) -> bool, ascending: bool)
    requires start <= end <= |s| && Ordered(s[start..end], Directed(less, ascending))
    ensures InOrder(s, start, end, less, ascending)
  {
    var part := s[start..end];
    forall i, j | start <= i < j < end ensures if ascending then !less(s[j], s[i]) else !less(s[i], s[j]) {
      assert part[i - start] == s[i] && part[j - start] == s[j];
    }
  }

  lemma RangeSortedKeeps<T>(s: seq<T>, start: nat, end: nat, less: (T, T) -> bool)
    requires start <= end <= |s|
    ensures var r := RangeSorted(s, start, end, less);
            && multiset(r) == multiset(s) && r[..start] == s[..start] && r[end..] == s[end..]
            && r[start..end] == InsertionSorted(s[start..end], less)
  {
    var t := s[start..end];
    SortingIsPermutation(t, less);
    assert s == s[..start] + t + s[end..];
  }

  /** The whole meaning of a sorted range: the same elements, the rest in place, in the order asked for, equals in
      their old order. */
  lemma RangeSortedMeaning<T(!new)>(s: seq<T>, start: nat, end: nat, less: (T, T) -> bool, ascending: bool, x: T)
    requires start <= end <= |s| && StrictWeak(less)
    ensures var r := RangeSorted(s, start, end, Directed(less, ascending));
            && multiset(r) == multiset(s) && r[..start] == s[..start] && r[end..] == s[end..]
            && (ascending ==> forall i, j :: start <= i < j < end ==> !less(r[j], r[i]))
            && (!ascending ==> forall i, j :: start <= i < j < end ==> !less(r[i], r[j]))
            && Alike(r[start..end], x, less) == Alike(s[start..end], x, less)
  {
    var d := Directed(less, ascending);
    DirectedIsStrictWeak(less, ascending);
    RangeSortedKeeps(s, start, end, d);
    SortingOrders(s[start..end], d);
    SortingIsStable(s[start..end], x, d);
    OrderedMeans(RangeSorted(s, start, end, d), start, end, less, ascending);
    AlikeEitherWay(s[start..end], x, less, ascending);
    AlikeEitherWay(RangeSorted(s, start, end, d)[start..end], x, less, ascending);
  }

  /** `r` is `s` with the range sorted in the direction asked for. */
  ghost predicate SortedRange<T(!new)>(s: seq<T>, r: seq<T>, start: nat, end: nat, less: (T, T) -> bool,
                                       ascending: bool)
    requires start <= end <= |s| == |r|
  {
    InOrder(r, start, end, less, ascending) && EqualsInOrder(s[start..end], r[start..end], less)
  }

  /** What the sort of a range that fits leaves. */
  lemma RangeIsSorted<T(!new)>(s: seq<T>, start: nat, end: nat, less: (T, T) -> bool, ascending: bool)
    requires start <= end <= |s|
    ensures var r := RangeSorted(s, start, end, Directed(less, ascending));
            && multiset(r) == multiset(s) && r[..start] == s[..start] && r[end..] == s[end..]
            && (StrictWeak(less) ==> SortedRange(s, r, start, end, less, ascending))
  {
    var r := RangeSorted(s, start, end, Directed(less, ascending));
    RangeSortedKeeps(s, start, end, Directed(less, ascending));
    if StrictWeak(less) {
      forall x ensures Alike(r[start..end], x, less) == Alike(s[start..end], x, less) {
        RangeSortedMeaning(s, start, end, less, ascending, x);
      }
      DirectedIsStrictWeak(less, ascending);
      SortingOrders(s[start..end], Directed(less, ascending));
      OrderedMeans(r, start, end, less, ascending);
    }
  }

  lemma SwappedIsPermutation<T>(s: seq<T>, i: nat, j: nat)
    requires i < j < |s|
    ensures multiset(s[i := s[j]][j := s[i]]) == multiset(s)
  {
    var t := s[i := s[j]];
    assert multiset(t) == multiset(s) - multiset{s[i]} + multiset{s[j]};
    assert multiset(t[j := s[i]]) == multiset(t) - multiset{s[j]} + multiset{s[i]};
  }

  lemma OrderedRange<T>(s: seq<T>, start: nat, end: nat, less: (T, T) -> bool)
    requires start <= end <= |s|
    requires forall x, y :: start <= x < y < end ==> !less(s[y], s[x])
    ensures Ordered(s[start..end], less)
  {
  }

  /** The smaller of two, when the larger was the least so far. */
  lemma StillLeast<T(!new)>(x: T, y: T, z: T, less: (T, T) -> bool)
    requires StrictWeak(less) && !less(x, y) && less(z, y)
    ensures !less(x, z)
  {
    assert less(x, z) ==> !less(z, x);
  }

  /** A callback that always finishes and answers by `less`. */
  ghost predicate Answers<T(!new)>(ask: (nat, T, T) -> Answer, less: (T, T) -> bool) {
    forall k, x, y :: ask(k, x, y) == Said(less(x, y))
  }

  /** A callback to rely on: it always finishes and answers by a strict weak order. */
  ghost predicate Reliable<T(!new)>(ask: (nat, T, T) -> Answer, less: (T, T) -> bool) {
    StrictWeak(less) && Answers(ask, less)
  }

  /** The same elements, and those outside the range in their places. */
  ghost predicate Rearranged<T>(s: seq<T>, r: seq<T>, start: nat, end: nat) {
    && |r| == |s| && multiset(r) == multiset(s)
    && forall k :: 0 <= k < |s| && (k < start || end <= k) ==> r[k] == s[k]
  }

  lemma RearrangedOn<T>(a: seq<T>, b: seq<T>, c: seq<T>, start: nat, i: nat, end: nat)
    requires Rearranged(a, b, start, end) && Rearranged(b, c, i, end) && start <= i
    ensures Rearranged(a, c, start, end)
  {
  }

  // ---------------------------------------------------------------- the selection sort, step by step

  /** The search for the least element among those from `j` on, with `best` the least so far: where it ends, and how
      many calls have been made then. */
  function Scanned<T>(ask: (nat, T, T) -> Answer, s: seq<T>, best: nat, j: nat, end: nat, calls: nat): (r: (nat, nat))
    requires best < j <= end <= |s|
    ensures best <= r.0 < end
    decreases end - j
  {
    if j == end then (best, calls)
    else
      var answer := ask(calls, s[j], s[best]);
      if answer.Failed? then (best, calls + 1)
      else Scanned(ask, s, if answer.less then j else best, j + 1, end, calls + 1)
  }

  function Exchanged<T>(s: seq<T>, i: nat, j: nat): (r: seq<T>)
    requires i < |s| && j < |s|
    ensures |r| == |s|
  {
    s[i := s[j]][j := s[i]]
  }

  /** Selecting from position `i` on, the first element to be exchanged that is out of reach is met: the elements
      selected before it have been exchanged by then. */
  predicate MeetsUnreachable<T>(ask: (nat, T, T) -> Answer, s: seq<T>, i: nat, end: nat, calls: nat, reach: nat -> bool)
    requires i <= end <= |s|
    decreases end - i
  {
    i + 1 < end &&
    var (best, more) := Scanned(ask, s, i, i + 1, end, calls);
    (best != i && !reach(best)) || MeetsUnreachable(ask, Exchanged(s, i, best), i + 1, end, more, reach)
  }

  /** What the selection sort leaves when all of it is in reach. */
  function Selected<T>(ask: (nat, T, T) -> Answer, s: seq<T>, i: nat, end: nat, calls: nat): (r: seq<T>)
    requires i <= end <= |s|
    ensures |r| == |s|
    decreases end - i
  {
    if i + 1 >= end then s
    else
      var (best, more) := Scanned(ask, s, i, i + 1, end, calls);
      Selected(ask, Exchanged(s, i, best), i + 1, end, more)
  }

  /** The sort of `was` from `start` on goes on as that of `s` from `i` on. */
  ghost predicate GoesOn<T>(ask: (nat, T, T) -> Answer, was: seq<T>, start: nat, s: seq<T>, i: nat, end: nat,
                            calls: nat, reach: nat -> bool) {
    && start <= i <= end <= |s| == |was|
    && (MeetsUnreachable(ask, s, i, end, calls, reach) <==> MeetsUnreachable(ask, was, start, end, 0, reach))
    && Selected(ask, s, i, end, calls) == Selected(ask, was, start, end, 0)
  }

  /** One turn takes `s` to `r`, unless it meets an element out of reach, with so many calls made before and after. */
  predicate Turned<T(==)>(ask: (nat, T, T) -> Answer, s: seq<T>, r: seq<T>, i: nat, end: nat, before: nat, calls: nat,
                          reach: nat -> bool, undefined: bool)
    requires i + 1 < end <= |s|
  {
    var (best, more) := Scanned(ask, s, i, i + 1, end, before);
    && calls == more && (undefined <==> best != i && !reach(best))
    && (!undefined ==> r == Exchanged(s, i, best))
  }

  lemma GoesOnMore<T>(ask: (nat, T, T) -> Answer, was: seq<T>, start: nat, s: seq<T>, r: seq<T>, i: nat, end: nat,
                      before: nat, calls: nat, reach: nat -> bool, undefined: bool)
    requires GoesOn(ask, was, start, s, i, end, before, reach) && i + 1 < end
    requires Turned(ask, s, r, i, end, before, calls, reach, undefined)
    ensures if undefined then MeetsUnreachable(ask, was, start, end, 0, reach)
            else GoesOn(ask, was, start, r, i + 1, end, calls, reach)
  {
  }

  lemma GoesOnEnds<T>(ask: (nat, T, T) -> Answer, was: seq<T>, start: nat, s: seq<T>, i: nat, end: nat, calls: nat,
                      reach: nat -> bool)
    requires GoesOn(ask, was, start, s, i, end, calls, reach) && i + 1 >= end
    ensures !MeetsUnreachable(ask, was, start, end, 0, reach) && s == Selected(ask, was, start, end, 0)
  {
  }

  /** What is in front of position `i` is selected: nothing behind is less. */
  ghost predicate InFront<T>(s: seq<T>, start: nat, i: nat, end: nat, less: (T, T) -> bool)
    requires end <= |s|
  {
    forall x, y :: start <= x < i && x < y < end ==> !less(s[y], s[x])
  }

  lemma InFrontMore<T>(s: seq<T>, start: nat, i: nat, end: nat, best: nat, less: (T, T) -> bool)
    requires start <= i <= best < end <= |s| && InFront(s, start, i, end, less)
    requires forall k :: i <= k < end ==> !less(s[k], s[best])
    ensures InFront(Exchanged(s, i, best), start, i + 1, end, less)
  {
    var now := Exchanged(s, i, best);
    forall x, y | start <= x < i + 1 && x < y < end ensures !less(now[y], now[x]) {
      var z := if y == i then best else if y == best then i else y;
      assert now[y] == s[z];
      assert x < i ==> now[x] == s[x] && x < z;
    }
  }

  /** Nothing out of reach is met in an array that is in reach altogether. */
  lemma {:induction false} AllInReach<T>(ask: (nat, T, T) -> Answer, s: seq<T>, i: nat, end: nat, calls: nat,
                                         reach: nat -> bool)
    requires i <= end <= |s| && forall k :: i < k < end ==> reach(k)
    ensures !MeetsUnreachable(ask, s, i, end, calls, reach)
    decreases end - i
  {
    if i + 1 < end {
      var (best, more) := Scanned(ask, s, i, i + 1, end, calls);
      AllInReach(ask, Exchanged(s, i, best), i + 1, end, more, reach);
    }
  }

  /** The selection sort of `was` from `start` on, when it has come to `s` and position `i`. */
  ghost predicate SelectedUpTo<T(!new)>(ask: (nat, T, T) -> Answer, was: seq<T>, start: nat, s: seq<T>, i: nat, end: nat,
                                        calls: nat, reach: nat -> bool, less: (T, T) -> bool) {
    && GoesOn(ask, was, start, s, i, end, calls, reach) && Rearranged(was, s, start, end)
    && (Reliable(ask, less) ==> InFront(s, start, i, end, less))
  }

  lemma UpToOneMore<T(!new)>(ask: (nat, T, T) -> Answer, was: seq<T>, start: nat, s: seq<T>, r: seq<T>, i: nat, end: nat,
                             before: nat, calls: nat, reach: nat -> bool, undefined: bool, less: (T, T) -> bool)
    requires SelectedUpTo(ask, was, start, s, i, end, before, reach, less) && i + 1 < end
    requires Turned(ask, s, r, i, end, before, calls, reach, undefined) && Rearranged(s, r, i, end)
    requires !undefined && Reliable(ask, less) ==> InFront(r, start, i + 1, end, less)
    ensures Rearranged(was, r, start, end)
    ensures if undefined then MeetsUnreachable(ask, was, start, end, 0, reach)
            else SelectedUpTo(ask, was, start, r, i + 1, end, calls, reach, less)
  {
    GoesOnMore(ask, was, start, s, r, i, end, before, calls, reach, undefined);
    RearrangedOn(was, s, r, start, i, end);
  }

  lemma UpToTheEnd<T(!new)>(ask: (nat, T, T) -> Answer, was: seq<T>, start: nat, s: seq<T>, i: nat, end: nat, calls: nat,
                            reach: nat -> bool, less: (T, T) -> bool)
    requires SelectedUpTo(ask, was, start, s, i, end, calls, reach, less) && i + 1 >= end
    ensures !MeetsUnreachable(ask, was, start, end, 0, reach) && s == Selected(ask, was, start, end, 0)
    ensures Rearranged(was, s, start, end) && (Reliable(ask, less) ==> InFront(s, start, end, end, less))
  {
    GoesOnEnds(ask, was, start, s, i, end, calls, reach);
  }
}
