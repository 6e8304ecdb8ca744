/** SanitizeUtf8: an automaton that replaces what is not structurally UTF-8 (section 3 of RFC 3629). */
module Utf8 {

  type Octet = bv8

  // The kinds of octets, by mask and value.
  predicate IsLead1b(c: Octet) { c & 0x80 == 0 }
  predicate IsLead2b(c: Octet) { c & 0xE0 == 0xC0 }
  predicate IsLead3b(c: Octet) { c & 0xF0 == 0xE0 }
  predicate IsLead4b(c: Octet) { c & 0xF8 == 0xF0 }
  predicate IsCont(c: Octet) { c & 0xC0 == 0x80 }

  /** An octet that can stand nowhere in UTF-8. */
  predicate IsStray(c: Octet) { c >= 0xF8 }

  /** Every octet is of exactly one kind. */
  lemma Kinds(c: Octet)
    ensures IsLead1b(c) <==> c < 0x80
    ensures IsCont(c) <==> 0x80 <= c < 0xC0
    ensures IsLead2b(c) <==> 0xC0 <= c < 0xE0
    ensures IsLead3b(c) <==> 0xE0 <= c < 0xF0
    ensures IsLead4b(c) <==> 0xF0 <= c < 0xF8
  {
  }

  /** How many octets a lead octet declares; a stray one leaves the last declaration standing. */
  function Declared(c: Octet, before: nat): (m: nat)
    ensures IsLead4b(c) ==> m == 4
    ensures IsStray(c) ==> m == before
    ensures before <= 4 ==> m <= 4
  {
    Kinds(c);
    if IsLead4b(c) then 4 else if IsLead3b(c) then 3 else if IsLead2b(c) then 2 else before
  }

  const REPLACEMENT: seq<Octet> := [0xEF, 0xBF, 0xBD]

  /** What the automaton still puts out, from its state (the octets in the buffer and the length last
      declared) and the octets to come. */
  function Cleaned(pending: seq<Octet>, max: nat, input: seq<Octet>, sub: seq<Octet>): seq<Octet>
    decreases |input|
  {
    if input == [] then (if pending != [] then sub else [])
    else
      var c, rest := input[0], input[1..];
      if pending == [] then
        if IsLead1b(c) then [c] + Cleaned([], max, rest, sub)
        else if IsCont(c) then sub + Cleaned([], max, rest, sub)
        else Cleaned([c], Declared(c, max), rest, sub)
      else if IsCont(c) then
        if |pending| + 1 == max then pending + [c] + Cleaned([], max, rest, sub)
        else Cleaned(pending + [c], max, rest, sub)
      else sub + Cleaned([], max, rest, sub)
  }

  function Sanitized(input: seq<Octet>, sub: seq<Octet>): seq<Octet> {
    Cleaned([], 0, input, sub)
  }

  /** The state of the automaton after one more octet. */
  function Next(pending: seq<Octet>, max: nat, c: Octet): (seq<Octet>, nat) {
    if pending == [] then
      if IsLead1b(c) || IsCont(c) then ([], max) else ([c], Declared(c, max))
    else if IsCont(c) && |pending| + 1 != max then (pending + [c], max)
    else ([], max)
  }

  /** The state of the automaton after some input. */
  function After(pending: seq<Octet>, max: nat, s: seq<Octet>): (seq<Octet>, nat)
    decreases |s|
  {
    if s == [] then (pending, max)
    else
      var (p, m) := Next(pending, max, s[0]);
      After(p, m, s[1..])
  }

  const ROOM := 5

  /** At some point of the input the automaton holds more octets than there is room for. */
  predicate Bursts(pending: seq<Octet>, max: nat, s: seq<Octet>)
    decreases |s|
  {
    |pending| > ROOM ||
    (s != [] &&
     var (p, m) := Next(pending, max, s[0]);
     Bursts(p, m, s[1..]))
  }

  // ---------------------------------------------------------------- structure

  /** The continuation octets a sequence begins with. */
  function LeadingConts(s: seq<Octet>): (k: nat)
    ensures k <= |s|
    ensures forall i :: 0 <= i < k ==> IsCont(s[i])
    ensures k < |s| ==> !IsCont(s[k])
  {
    if s == [] || !IsCont(s[0]) then 0 else 1 + LeadingConts(s[1..])
  }

  /** The length of the sequence an octet leads, 0 if it leads none. */
  function Length(c: Octet): (n: nat)
    ensures n <= 4
  {
    if IsLead1b(c) then 1 else if IsCont(c) || IsStray(c) then 0 else Declared(c, 0)
  }

  predicate BeginsComplete(s: seq<Octet>)
    requires s != []
  {
    0 < Length(s[0]) <= |s| && LeadingConts(s[1..]) >= Length(s[0]) - 1
  }

  /** A concatenation of complete sequences: a lead octet and the right number of continuation octets. */
  predicate WellFormed(s: seq<Octet>)
    decreases |s|
  {
    s == [] || (BeginsComplete(s) && WellFormed(s[Length(s[0])..]))
  }

  /** The end of the octets that the automaton treats together with a lead octet at the beginning. */
  function ChunkEnd(max: nat, s: seq<Octet>): (n: nat)
    requires s != []
    ensures 0 < n <= |s|
  {
    var k := LeadingConts(s[1..]);
    if Completes(max, s) then max else if k + 2 <= |s| then k + 2 else |s|
  }

  predicate Completes(max: nat, s: seq<Octet>)
    requires s != []
  {
    2 <= max <= LeadingConts(s[1..]) + 1
  }

  /** Some stray octet where a sequence may begin is followed by as many continuation octets as the lead
      octet before it declared. */
  predicate Forged(max: nat, s: seq<Octet>)
    decreases |s|
  {
    s != [] &&
    if IsLead1b(s[0]) || IsCont(s[0]) then Forged(max, s[1..])
    else
      var m := Declared(s[0], max);
      (IsStray(s[0]) && Completes(m, s)) || Forged(m, s[ChunkEnd(m, s)..])
  }

  /** Before a chunk has declared a length, a stray octet leads one with five or more continuation octets. */
  predicate Overruns(s: seq<Octet>)
    decreases |s|
  {
    s != [] &&
    if IsLead1b(s[0]) || IsCont(s[0]) then Overruns(s[1..])
    else IsStray(s[0]) && (LeadingConts(s[1..]) >= ROOM || Overruns(s[ChunkEnd(0, s)..]))
  }

  predicate NoStray(s: seq<Octet>) {
    forall i :: 0 <= i < |s| ==> !IsStray(s[i])
  }

  // ---------------------------------------------------------------- chunks

  lemma FirstMoved(pending: seq<Octet>, s: seq<Octet>, n: nat)
    requires 0 < n <= |s|
    ensures pending + [s[0]] + s[1..][..n - 1] == pending + s[..n] && s[1..][n - 1..] == s[n..]
  {
  }

  /** From a partly filled buffer the automaton runs on to the end of the chunk. */
  lemma {:induction false} PendingRuns(pending: seq<Octet>, max: nat, s: seq<Octet>, sub: seq<Octet>)
    requires pending != [] && (max > 0 ==> |pending| < max)
    ensures var k, n := LeadingConts(s), max - |pending|;
            Cleaned(pending, max, s, sub) ==
              if max > 0 && k >= n then pending + s[..n] + Cleaned([], max, s[n..], sub)
              else sub + Cleaned([], max, s[(if k + 1 <= |s| then k + 1 else |s|)..], sub)
    decreases |s|
  {
    if s == [] {
    } else if IsCont(s[0]) {
      if |pending| + 1 == max {
        assert s[..1] == [s[0]];
      } else {
        PendingRuns(pending + [s[0]], max, s[1..], sub);
        var k, n := LeadingConts(s), max - |pending|;
        if max > 0 && k >= n {
          FirstMoved(pending, s, n);
        }
      }
    }
  }

  /** One chunk: kept if its declared length is reached, replaced otherwise. */
  lemma ChunkCleaned(max: nat, s: seq<Octet>, sub: seq<Octet>)
    requires s != [] && !IsLead1b(s[0]) && !IsCont(s[0]) && max != 1
    ensures var m := Declared(s[0], max);
            var rest := Cleaned([], m, s[ChunkEnd(m, s)..], sub);
            Cleaned([], max, s, sub) == if Completes(m, s) then s[..m] + rest else sub + rest
  {
    var m := Declared(s[0], max);
    PendingRuns([s[0]], m, s[1..], sub);
    if Completes(m, s) {
      assert [s[0]] + s[1..][..m - 1] == s[..m];
      assert s[1..][m - 1..] == s[m..];
    }
  }

  lemma {:induction false} ContsOfPrefix(a: seq<Octet>, b: seq<Octet>)
    ensures LeadingConts(a + b) >= LeadingConts(a)
  {
    if a != [] && IsCont(a[0]) {
      ContsOfPrefix(a[1..], b);
      assert (a + b)[1..] == a[1..] + b;
    }
  }

  lemma {:induction false} ContsAreLeading(s: seq<Octet>, n: nat)
    requires n <= |s| && forall i :: 0 <= i < n ==> IsCont(s[i])
    ensures LeadingConts(s) >= n
  {
    if n > 0 {
      ContsAreLeading(s[1..], n - 1);
    }
  }

  lemma BeginningAppended(a: seq<Octet>, b: seq<Octet>)
    requires a != [] && BeginsComplete(a)
    ensures BeginsComplete(a + b) && (a + b)[Length(a[0])..] == a[Length(a[0])..] + b
  {
    ContsOfPrefix(a[1..], b);
    assert (a + b)[1..] == a[1..] + b;
  }

  lemma {:induction false} WellFormedAppend(a: seq<Octet>, b: seq<Octet>)
    requires WellFormed(a)
    ensures WellFormed(a + b) <==> WellFormed(b)
    decreases |a|
  {
    if a == [] {
      assert a + b == b;
    } else {
      WellFormedAppend(a[Length(a[0])..], b);
      BeginningAppended(a, b);
    }
  }

  /** A chunk that is kept is well-formed exactly if its lead octet is not a stray one. */
  lemma KeptChunk(max: nat, s: seq<Octet>)
    requires s != [] && !IsLead1b(s[0]) && !IsCont(s[0]) && Completes(Declared(s[0], max), s)
    ensures var m := Declared(s[0], max);
            if IsStray(s[0]) then forall b :: !WellFormed(s[..m] + b) else WellFormed(s[..m])
  {
    var m := Declared(s[0], max);
    Kinds(s[0]);
    if IsStray(s[0]) {
      forall b ensures !WellFormed(s[..m] + b) {
        assert (s[..m] + b)[0] == s[0];
      }
    } else {
      var c := s[..m];
      ContsAreLeading(c[1..], m - 1);
      assert Length(c[0]) == m && c[m..] == [];
    }
  }

  /** The output is well-formed if and only if nothing is forged. */
  lemma {:induction false} OutputWellFormed(max: nat, s: seq<Octet>, sub: seq<Octet>)
    requires WellFormed(sub) && max != 1
    ensures WellFormed(Cleaned([], max, s, sub)) <==> !Forged(max, s)
    decreases |s|
  {
    if s == [] {
    } else if IsLead1b(s[0]) || IsCont(s[0]) {
      var rest := Cleaned([], max, s[1..], sub);
      OutputWellFormed(max, s[1..], sub);
      WellFormedAppend(if IsLead1b(s[0]) then [s[0]] else sub, rest);
    } else {
      var m := Declared(s[0], max);
      var rest := Cleaned([], m, s[ChunkEnd(m, s)..], sub);
      ChunkCleaned(max, s, sub);
      OutputWellFormed(m, s[ChunkEnd(m, s)..], sub);
      if Completes(m, s) {
        KeptChunk(max, s);
        if !IsStray(s[0]) {
          WellFormedAppend(s[..m], rest);
        }
      } else {
        WellFormedAppend(sub, rest);
      }
    }
  }

  /** No octet F8 to FF: nothing is forged and the buffer is large enough. */
  lemma {:induction false} NoStrayIsSafe(max: nat, s: seq<Octet>)
    requires NoStray(s)
    ensures !Forged(max, s) && !Overruns(s)
    decreases |s|
  {
    if s != [] {
      if IsLead1b(s[0]) || IsCont(s[0]) {
        NoStrayIsSafe(max, s[1..]);
      } else {
        var m := Declared(s[0], max);
        NoStrayIsSafe(m, s[ChunkEnd(m, s)..]);
      }
    }
  }

  /** What is well-formed is left alone. */
  lemma {:induction false} WellFormedKept(max: nat, s: seq<Octet>, sub: seq<Octet>)
    requires WellFormed(s) && max != 1
    ensures Cleaned([], max, s, sub) == s
    decreases |s|
  {
    if s != [] {
      var n := Length(s[0]);
      Kinds(s[0]);
      if IsLead1b(s[0]) {
        WellFormedKept(max, s[1..], sub);
      } else {
        assert Declared(s[0], max) == n;
        ChunkCleaned(max, s, sub);
        WellFormedKept(n, s[n..], sub);
      }
    }
  }

  /** The results for the whole function: structure, identity, and a second pass that changes nothing. */
  lemma SanitizedIsWellFormed(s: seq<Octet>, sub: seq<Octet>)
    requires WellFormed(sub)
    ensures WellFormed(Sanitized(s, sub)) <==> !Forged(0, s)
    ensures NoStray(s) ==> WellFormed(Sanitized(s, sub))
    ensures WellFormed(s) ==> Sanitized(s, sub) == s
    ensures !Forged(0, s) ==> Sanitized(Sanitized(s, sub), sub) == Sanitized(s, sub)
  {
    OutputWellFormed(0, s, sub);
    if NoStray(s) {
      NoStrayIsSafe(0, s);
    }
    if WellFormed(s) {
      WellFormedKept(0, s, sub);
    }
    if !Forged(0, s) {
      WellFormedKept(0, Sanitized(s, sub), sub);
    }
  }

  /** A stray octet after a complete sequence takes over its length and passes. */
  lemma ForgedPasses()
    ensures var s: seq<Octet> := [0xC2, 0x80, 0xF8, 0x80];
            Forged(0, s) && Sanitized(s, REPLACEMENT) == s && !WellFormed(s)
  {
    var s: seq<Octet> := [0xC2, 0x80, 0xF8, 0x80];
    assert s[1..] == [0x80, 0xF8, 0x80] && s[2..] == [0xF8, 0x80] && s[2..][1..] == [0x80];
    ContsAreLeading(s[1..], 1);
    ContsAreLeading(s[2..][1..], 1);
    ChunkCleaned(0, s, REPLACEMENT);
    ChunkCleaned(2, s[2..], REPLACEMENT);
    assert s[2..][2..] == [];
    assert s == s[..2] + s[2..][..2];
  }

  // ---------------------------------------------------------------- the buffer

  /** Some beginning of the input leaves more octets in the buffer than it has room for. */
  lemma {:induction false} BurstsAtSomePoint(pending: seq<Octet>, max: nat, s: seq<Octet>)
    ensures Bursts(pending, max, s) <==> exists n :: 0 <= n <= |s| && |After(pending, max, s[..n]).0| > ROOM
    decreases |s|
  {
    assert After(pending, max, s[..0]) == (pending, max);
    if s != [] {
      var (p, m) := Next(pending, max, s[0]);
      BurstsAtSomePoint(p, m, s[1..]);
      forall n | 0 < n <= |s|
        ensures After(pending, max, s[..n]) == After(p, m, s[1..][..n - 1])
      {
        assert s[..n][1..] == s[1..][..n - 1];
      }
      if n :| 0 <= n <= |s[1..]| && |After(p, m, s[1..][..n]).0| > ROOM {
        assert |After(pending, max, s[..n + 1]).0| > ROOM;
      }
    }
  }

  /** A declared length is reached before the room runs out. */
  lemma {:induction false} DeclaredFits(pending: seq<Octet>, max: nat, s: seq<Octet>)
    requires 2 <= max <= 4 && |pending| < max
    ensures !Bursts(pending, max, s)
    decreases |s|
  {
    if s != [] {
      var (p, m) := Next(pending, max, s[0]);
      DeclaredFits(p, m, s[1..]);
    }
  }

  /** Without a declared length the buffer takes all continuation octets there are. */
  lemma {:induction false} UndeclaredRuns(pending: seq<Octet>, s: seq<Octet>)
    requires 0 < |pending| <= ROOM
    ensures var k := LeadingConts(s);
            Bursts(pending, 0, s) <==>
              |pending| + k > ROOM || Bursts([], 0, s[(if k + 1 <= |s| then k + 1 else |s|)..])
    decreases |s|
  {
    if s != [] && IsCont(s[0]) && |pending| < ROOM {
      UndeclaredRuns(pending + [s[0]], s[1..]);
    }
  }

  /** The room runs out exactly on the inputs described. */
  lemma {:induction false} BurstsExactly(s: seq<Octet>)
    ensures Bursts([], 0, s) <==> Overruns(s)
    decreases |s|
  {
    if s == [] {
    } else if IsLead1b(s[0]) || IsCont(s[0]) {
      BurstsExactly(s[1..]);
    } else {
      Kinds(s[0]);
      if IsStray(s[0]) {
        UndeclaredRuns([s[0]], s[1..]);
        BurstsExactly(s[ChunkEnd(0, s)..]);
        assert s[ChunkEnd(0, s)..] == s[1..][ChunkEnd(0, s) - 1..];
      } else {
        DeclaredFits([s[0]], Declared(s[0], 0), s[1..]);
      }
    }
  }

  /** Two inputs that overrun the buffer, the second one with a lead octet before the stray one. */
  lemma OverrunsOccur()
    ensures Overruns([0xF8, 0x80, 0x80, 0x80, 0x80, 0x80])
    ensures Overruns([0xF8, 0xC2, 0xF8, 0x80, 0x80, 0x80, 0x80, 0x80])
  {
    var s: seq<Octet> := [0xF8, 0x80, 0x80, 0x80, 0x80, 0x80];
    ContsAreLeading(s[1..], 5);
    var t: seq<Octet> := [0xF8, 0xC2] + s;
    assert t[1..] == [0xC2] + s && t[2..] == s;
    assert t == [0xF8, 0xC2, 0xF8, 0x80, 0x80, 0x80, 0x80, 0x80];
    assert LeadingConts(t[1..]) == 0;
    assert ChunkEnd(0, t) == 2;
  }

  // ---------------------------------------------------------------- length and concatenation

  lemma {:induction false} CleanedLength(pending: seq<Octet>, max: nat, s: seq<Octet>, sub: seq<Octet>)
    requires |sub| <= 3
    ensures |Cleaned(pending, max, s, sub)| <= 3 * (|pending| + |s|)
    decreases |s|
  {
    if s != [] {
      var c := s[0];
      if pending == [] && !IsLead1b(c) && !IsCont(c) {
        CleanedLength([c], Declared(c, max), s[1..], sub);
      } else if pending != [] && IsCont(c) && |pending| + 1 != max {
        CleanedLength(pending + [c], max, s[1..], sub);
      } else {
        CleanedLength([], max, s[1..], sub);
      }
    }
  }

  /** The input ends at the end of a sequence, whether it was kept or replaced. */
  predicate EndsComplete(s: seq<Octet>) {
    After([], 0, s).0 == []
  }

  lemma {:induction false} CleanedAppend(pending: seq<Octet>, max: nat, a: seq<Octet>, b: seq<Octet>, sub: seq<Octet>)
    requires After(pending, max, a).0 == []
    ensures Cleaned(pending, max, a + b, sub) ==
            Cleaned(pending, max, a, sub) + Cleaned([], After(pending, max, a).1, b, sub)
    decreases |a|
  {
    if a == [] {
      assert a + b == b;
    } else {
      var c := a[0];
      assert (a + b)[0] == c && (a + b)[1..] == a[1..] + b;
      if pending == [] && !IsLead1b(c) && !IsCont(c) {
        CleanedAppend([c], Declared(c, max), a[1..], b, sub);
      } else if pending != [] && IsCont(c) && |pending| + 1 != max {
        CleanedAppend(pending + [c], max, a[1..], b, sub);
      } else {
        CleanedAppend([], max, a[1..], b, sub);
      }
    }
  }

  /** The length left over from before matters to stray octets only. */
  lemma {:induction false} OldLengthForgotten(m: nat, n: nat, s: seq<Octet>, sub: seq<Octet>)
    requires NoStray(s) && m != 1 && n != 1
    ensures Cleaned([], m, s, sub) == Cleaned([], n, s, sub)
    decreases |s|
  {
    if s != [] {
      if IsLead1b(s[0]) || IsCont(s[0]) {
        OldLengthForgotten(m, n, s[1..], sub);
      } else {
        Kinds(s[0]);
        assert Declared(s[0], m) == Declared(s[0], n);
      }
    }
  }

  lemma {:induction false} AfterMax(pending: seq<Octet>, max: nat, s: seq<Octet>)
    requires max != 1
    ensures After(pending, max, s).1 != 1
    decreases |s|
  {
    if s != [] {
      var c := s[0];
      if pending == [] && !IsLead1b(c) && !IsCont(c) {
        AfterMax([c], Declared(c, max), s[1..]);
      } else if pending != [] && IsCont(c) && |pending| + 1 != max {
        AfterMax(pending + [c], max, s[1..]);
      } else {
        AfterMax([], max, s[1..]);
      }
    }
  }

  /** Behind a complete beginning, the rest is cleaned as if it stood alone. */
  lemma SanitizedAppend(a: seq<Octet>, b: seq<Octet>, sub: seq<Octet>)
    requires EndsComplete(a) && NoStray(b)
    ensures Sanitized(a + b, sub) == Sanitized(a, sub) + Sanitized(b, sub)
  {
    CleanedAppend([], 0, a, b, sub);
    AfterMax([], 0, a);
    OldLengthForgotten(After([], 0, a).1, 0, b, sub);
  }

  // ---------------------------------------------------------------- what is replaced

  /** The lengths of section 3 of RFC 3629, by the value of the lead octet. */
  lemma LengthsAre(c: Octet)
    ensures Length(c) == if c < 0x80 then 1 else if c < 0xC0 then 0 else if c < 0xE0 then 2 else if c < 0xF0 then 3
                         else if c < 0xF8 then 4 else 0
  {
    Kinds(c);
  }

  /** The replacement is one sequence of three octets, for U+FFFD. */
  lemma ReplacementIs()
    ensures |REPLACEMENT| == 3 && Length(REPLACEMENT[0]) == 3 && WellFormed(REPLACEMENT)
    ensures 0x1000 * (REPLACEMENT[0] as int - 0xE0) + 0x40 * (REPLACEMENT[1] as int - 0x80)
            + (REPLACEMENT[2] as int - 0x80) == 0xFFFD
  {
    ContsAreLeading(REPLACEMENT[1..], 2);
    assert REPLACEMENT[3..] == [];
  }

  /** A lead octet and fewer continuation octets than it declares. */
  predicate IsBegun(s: seq<Octet>) {
    s != [] && 0xC0 <= s[0] < 0xF8 && |s| < Length(s[0]) && forall k :: 1 <= k < |s| ==> 0x80 <= s[k] < 0xC0
  }

  /** A continuation octet where a sequence may begin, or a sequence begun and the octet that breaks it off. */
  predicate IsBroken(s: seq<Octet>) {
    || (|s| == 1 && 0x80 <= s[0] < 0xC0)
    || (|s| >= 2 && IsBegun(s[..|s| - 1]) && !(0x80 <= s[|s| - 1] < 0xC0))
  }

  lemma {:induction false} CompleteAfter(max: nat, w: seq<Octet>)
    requires WellFormed(w) && max != 1
    ensures After([], max, w).0 == [] && After([], max, w).1 != 1
    decreases |w|
  {
    AfterMax([], max, w);
    if w != [] {
      var n := Length(w[0]);
      Kinds(w[0]);
      if IsLead1b(w[0]) {
        CompleteAfter(max, w[1..]);
      } else {
        RunsThrough([w[0]], Declared(w[0], max), w[1..], n - 1);
        assert w[1..][n - 1..] == w[n..];
        CompleteAfter(n, w[n..]);
      }
    }
  }

  /** A sequence is completed by as many continuation octets as are missing. */
  lemma {:induction false} RunsThrough(pending: seq<Octet>, max: nat, s: seq<Octet>, k: nat)
    requires pending != [] && |pending| + k == max && 0 < k <= LeadingConts(s)
    ensures After(pending, max, s) == After([], max, s[k..])
    decreases k
  {
    if k > 1 {
      RunsThrough(pending + [s[0]], max, s[1..], k - 1);
      assert s[1..][k - 1..] == s[k..];
    }
  }

  lemma {:induction false} ContsExactly(s: seq<Octet>, n: nat)
    requires n <= |s| && forall i :: 0 <= i < n ==> IsCont(s[i])
    requires n < |s| ==> !IsCont(s[n])
    ensures LeadingConts(s) == n
  {
    if n > 0 {
      ContsExactly(s[1..], n - 1);
    }
  }

  lemma BrokenOff(max: nat, x: seq<Octet>, t: seq<Octet>, sub: seq<Octet>)
    requires IsBroken(x) && NoStray(t) && max != 1
    ensures Cleaned([], max, x + t, sub) == sub + Cleaned([], 0, t, sub)
  {
    var s := x + t;
    Kinds(x[0]);
    if |x| == 1 {
      assert s[1..] == t;
      OldLengthForgotten(max, 0, t, sub);
    } else {
      var m, n := Declared(x[0], max), |x|;
      Kinds(x[n - 1]);
      forall i | 0 <= i < n - 2 ensures IsCont(s[1..][i]) {
        Kinds(x[i + 1]);
        assert 0x80 <= x[..n - 1][i + 1] < 0xC0;
      }
      assert s[1..][n - 2] == x[n - 1];
      ContsExactly(s[1..], n - 2);
      ChunkCleaned(max, s, sub);
      assert x[..n - 1][0] == x[0] && s[n..] == t;
      OldLengthForgotten(m, 0, t, sub);
    }
  }

  lemma CutOff(max: nat, x: seq<Octet>, sub: seq<Octet>)
    requires IsBegun(x) && max != 1
    ensures Cleaned([], max, x, sub) == sub
  {
    Kinds(x[0]);
    forall i | 0 <= i < |x| - 1 ensures IsCont(x[1..][i]) {
      Kinds(x[i + 1]);
    }
    ContsExactly(x[1..], |x| - 1);
    ChunkCleaned(max, x, sub);
    assert x[|x|..] == [] && sub + [] == sub;
  }

  /** Behind a well-formed beginning, which is kept, what is broken is replaced, once, with the octet that broke it off,
      and the rest is cleaned as if it stood alone; so is a sequence that the input cuts off. */
  lemma BrokenIsReplaced(w: seq<Octet>, x: seq<Octet>, t: seq<Octet>, sub: seq<Octet>)
    requires WellFormed(w) && NoStray(t)
    ensures IsBroken(x) ==> Sanitized(w + x + t, sub) == w + sub + Sanitized(t, sub)
    ensures IsBegun(x) ==> Sanitized(w + x, sub) == w + sub
  {
    CompleteAfter(0, w);
    WellFormedKept(0, w, sub);
    var m := After([], 0, w).1;
    if IsBroken(x) {
      assert w + x + t == w + (x + t);
      CleanedAppend([], 0, w, x + t, sub);
      BrokenOff(m, x, t, sub);
      assert w + (sub + Sanitized(t, sub)) == w + sub + Sanitized(t, sub);
    }
    if IsBegun(x) {
      CleanedAppend([], 0, w, x, sub);
      CutOff(m, x, sub);
    }
  }

  /** Without octets F8 to FF these rules cover everything: an input begins with a complete sequence or with something
      broken, or it is a sequence cut off. */
  lemma EveryBeginning(s: seq<Octet>)
    requires s != [] && NoStray(s)
    ensures BeginsComplete(s) || IsBegun(s) || exists n :: 0 < n <= |s| && IsBroken(s[..n])
  {
    Kinds(s[0]);
    LengthsAre(s[0]);
    if IsCont(s[0]) {
      assert s[..1] == [s[0]] && IsBroken(s[..1]);
    } else if !BeginsComplete(s) {
      var k := LeadingConts(s[1..]);
      forall i | 1 <= i < k + 1 ensures 0x80 <= s[i] < 0xC0 {
        Kinds(s[i]);
        assert s[1..][i - 1] == s[i];
      }
      if k + 1 < |s| {
        Kinds(s[k + 1]);
        assert s[1..][k] == s[k + 1];
        assert s[..k + 2][..k + 1] == s[..k + 1] && IsBegun(s[..k + 1]);
        assert IsBroken(s[..k + 2]);
      }
    }
  }

  // ---------------------------------------------------------------- the loop

  /** A string that ends at its first zero. */
  function Terminated(s: seq<Octet>): seq<Octet> {
    if s == [] || s[0] == 0 then [] else [s[0]] + Terminated(s[1..])
  }

  lemma {:induction false} TerminatedAt(s: seq<Octet>, n: nat)
    requires n < |s| && s[n] == 0 && forall i :: 0 <= i < n ==> s[i] != 0
    ensures Terminated(s) == s[..n]
  {
    if n > 0 {
      TerminatedAt(s[1..], n - 1);
      assert s[..n] == [s[0]] + s[1..][..n - 1];
    }
  }

  /** The states the loop runs through. */
  predicate Running(pending: nat, max: nat) {
    pending <= ROOM && max != 1 && max <= 4 && (max > 0 ==> pending < max)
  }

  method Put(buffer: array<Octet>, next: nat, c: Octet)
    requires next < buffer.Length && c != 0
    requires forall j :: 0 <= j < next ==> buffer[j] != 0
    modifies buffer
    ensures buffer[..next + 1] == old(buffer[..next]) + [c]
    ensures forall j :: 0 <= j <= next ==> buffer[j] != 0
  {
    buffer[next] := c;
  }

  /** The text in the buffer, ended by a zero and read up to it. */
  method Take(buffer: array<Octet>, max: nat) returns (text: seq<Octet>)
    requires max < buffer.Length
    requires forall j :: 0 <= j < max ==> buffer[j] != 0
    modifies buffer
    ensures text == old(buffer[..max])
  {
    buffer[max] := 0;
    TerminatedAt(buffer[..], max);
    text := Terminated(buffer[..]);
    assert buffer[..][..max] == old(buffer[..max]);
  }

  /** One turn of the loop: what is added to the result and the new state, or a write behind the buffer. */
  method Consume(buffer: array<Octet>, next0: nat, max0: nat, c: Octet, sub: seq<Octet>, ghost s: seq<Octet>)
    returns (out: seq<Octet>, next: nat, max: nat, overrun: bool)
    requires buffer.Length == ROOM && Running(next0, max0) && s != [] && s[0] == c
    requires forall j :: 0 <= j < next0 ==> buffer[j] != 0
    modifies buffer
    ensures overrun <==> next0 == ROOM && IsCont(c)
    ensures overrun ==> Bursts(old(buffer[..next0]), max0, s)
    ensures !overrun ==>
            && Running(next, max)
            && (forall j :: 0 <= j < next ==> buffer[j] != 0)
            && (buffer[..next], max) == Next(old(buffer[..next0]), max0, c)
            && (Bursts(buffer[..next], max, s[1..]) <==> Bursts(old(buffer[..next0]), max0, s))
            && out + Cleaned(buffer[..next], max, s[1..], sub) == Cleaned(old(buffer[..next0]), max0, s, sub)
  {
    out, next, max, overrun := [], next0, max0, false;
    Kinds(c);
    if next == 0 {
      if IsLead1b(c) {
        out := [c];
      } else if IsCont(c) {
        out := sub;
      } else {
        max := if IsLead2b(c) then 2 else max;
        max := if IsLead3b(c) then 3 else max;
        max := if IsLead4b(c) then 4 else max;
        Put(buffer, next, c);
        next := next + 1;
        assert buffer[..next] == [c];
      }
    } else {
      if IsCont(c) {
        if next == buffer.Length {
          overrun := true;
          return;
        }
        Put(buffer, next, c);
        next := next + 1;
        if next == max {
          out := Take(buffer, max);
          next := 0;
        }
      } else {
        out := sub;
        next := 0;
      }
    }
  }

  /** The cleaned text, or a write behind the buffer, of which the language promises nothing. */
  datatype Outcome = Text(text: seq<Octet>) | Overrun

  lemma OutputAdded(text: seq<Octet>, out: seq<Octet>, later: seq<Octet>)
    ensures text + out + later == text + (out + later)
  {
  }

  method SanitizeUtf8(input: seq<Octet>, sub: seq<Octet>) returns (res: Outcome)
    ensures res == if Overruns(input) then Overrun else Text(Sanitized(input, sub))
  {
    var text: seq<Octet> := [];
    var buffer := new Octet[ROOM](_ => 0);
    var next, max := 0, 0;
    var pos := 0;
    BurstsExactly(input);
    while pos < |input|
      invariant pos <= |input| && Running(next, max)
      invariant forall j :: 0 <= j < next ==> buffer[j] != 0
      invariant Bursts(buffer[..next], max, input[pos..]) <==> Overruns(input)
      invariant text + Cleaned(buffer[..next], max, input[pos..], sub) == Sanitized(input, sub)
    {
      var out, overrun;
      out, next, max, overrun := Consume(buffer, next, max, input[pos], sub, input[pos..]);
      if overrun {
        return Overrun;
      }
      assert input[pos..][1..] == input[pos + 1..];
      OutputAdded(text, out, Cleaned(buffer[..next], max, input[pos + 1..], sub));
      text := text + out;
      pos := pos + 1;
    }
    if next != 0 {
      text := text + sub;
    }
    res := Text(text);
  }
}
