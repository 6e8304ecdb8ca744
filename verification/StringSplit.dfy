/** The two splitters and the joiner: `StringSplit`, `StringJoin` and `strict_tokenize`. */
module StringSplit {

  /** What searching a string gives. */
  datatype Position = Npos | At(index: nat)

  predicate OccursAt(s: string, d: string, i: nat) {
    i + |d| <= |s| && forall k :: 0 <= k < |d| ==> s[i + k] == d[k]
  }

  /** The first occurrence at or behind a position. */
  function Find(s: string, d: string, from: nat): (p: Position)
    requires from <= |s|
    ensures p.At? ==> from <= p.index && p.index + |d| <= |s|
    decreases |s| - from
  {
    if OccursAt(s, d, from) then At(from)
    else if from == |s| then Npos
    else Find(s, d, from + 1)
  }

  /** It is the first occurrence that is found, and nothing only if there is none. */
  lemma {:induction false} FindsFirst(s: string, d: string, from: nat)
    requires from <= |s|
    ensures match Find(s, d, from)
            case At(i) => OccursAt(s, d, i) && forall k :: from <= k < i ==> !OccursAt(s, d, k)
            case Npos => forall k :: from <= k <= |s| ==> !OccursAt(s, d, k)
    decreases |s| - from
  {
    if !OccursAt(s, d, from) && from < |s| {
      FindsFirst(s, d, from + 1);
    }
  }

  /** The parts between the delimiters, which are looked for from the left. */
  function Split(s: string, d: string): (parts: seq<string>)
    requires d != ""
    ensures parts != []
    decreases |s|
  {
    match Find(s, d, 0)
    case Npos => [s]
    case At(i) => [s[..i]] + Split(s[i + |d|..], d)
  }

  function Join(parts: seq<string>, d: string): string
    requires parts != []
  {
    if |parts| == 1 then parts[0] else parts[0] + d + Join(parts[1..], d)
  }

  /** A string up to its first zero. */
  function Terminated(s: string): (r: string)
    ensures r <= s
    ensures r == s <==> '\0' !in s
    ensures '\0' !in r && (|r| < |s| ==> s[|r|] == '\0')
  {
    if s == "" || s[0] == '\0' then "" else [s[0]] + Terminated(s[1..])
  }

  /** Parts of which the last one was read as a string ended by a zero. */
  function LastTerminated(parts: seq<string>): (r: seq<string>)
    requires parts != []
    ensures |r| == |parts|
  {
    parts[..|parts| - 1] + [Terminated(parts[|parts| - 1])]
  }

  function Last(parts: seq<string>): string
    requires parts != []
  {
    parts[|parts| - 1]
  }

  // ---------------------------------------------------------------- joining what was split

  /** Joining the parts restores the string. */
  lemma {:induction false} SplitThenJoin(s: string, d: string)
    requires d != ""
    ensures Join(Split(s, d), d) == s
    decreases |s|
  {
    var p := Find(s, d, 0);
    if p.At? {
      var rest := s[p.index + |d|..];
      FindsFirst(s, d, 0);
      SplitThenJoin(rest, d);
      assert Split(s, d)[1..] == Split(rest, d);
      assert s == s[..p.index] + s[p.index..p.index + |d|] + rest;
    }
  }

  /** A join is all the parts in their order, with the delimiter between any two. */
  lemma {:induction false} JoinedInOrder(a: seq<string>, b: seq<string>, d: string)
    requires a != [] && b != []
    ensures Join(a + b, d) == Join(a, d) + d + Join(b, d)
    ensures |a| == 1 ==> Join(a, d) == a[0]
  {
    if |a| == 1 {
      assert (a + b)[1..] == b;
    } else {
      JoinedInOrder(a[1..], b, d);
      assert (a + b)[1..] == a[1..] + b;
      assert a[0] + d + (Join(a[1..], d) + d + Join(b, d)) == a[0] + d + Join(a[1..], d) + d + Join(b, d);
    }
  }

  lemma {:induction false} JoinLast(parts: seq<string>, d: string, x: string)
    requires parts != []
    ensures |Join(parts[..|parts| - 1] + [x], d)| - |x| == |Join(parts, d)| - |Last(parts)|
  {
    var changed := parts[..|parts| - 1] + [x];
    if |parts| > 1 {
      JoinLast(parts[1..], d, x);
      assert changed[1..] == parts[1..][..|parts| - 2] + [x];
    }
  }

  lemma ShorterThan(r: string, s: string)
    requires r <= s && r != s
    ensures |r| < |s|
  {
    assert s[..|s|] == s;
  }

  // ---------------------------------------------------------------- splitting what was joined

  /** Parts in which the delimiter cannot be seen too early: in every part but the last, followed by the
      delimiter, it is found first behind the part; in the last it is not found. */
  predicate Separable(parts: seq<string>, d: string)
    requires parts != []
  {
    if |parts| == 1 then Find(parts[0], d, 0).Npos?
    else Find(parts[0] + d, d, 0) == At(|parts[0]|) && Separable(parts[1..], d)
  }

  lemma OccursInFront(a: string, d: string, rest: string, i: nat)
    requires i <= |a|
    ensures OccursAt(a + d + rest, d, i) <==> OccursAt(a + d, d, i)
  {
    assert (a + d + rest)[i..i + |d|] == (a + d)[i..i + |d|];
  }

  lemma FoundInFront(a: string, d: string, rest: string)
    requires d != ""
    ensures Find(a + d + rest, d, 0).At? && Find(a + d + rest, d, 0) == Find(a + d, d, 0)
  {
    var s, t := a + d + rest, a + d;
    assert t[|a|..|a| + |d|] == d;
    OccursInFront(a, d, rest, |a|);
    FindsFirst(s, d, 0);
    FindsFirst(t, d, 0);
    var p, q := Find(s, d, 0), Find(t, d, 0);
    assert p.At? && p.index <= |a| && q.At? && q.index <= |a|;
    OccursInFront(a, d, rest, p.index);
    OccursInFront(a, d, rest, q.index);
  }

  lemma SplitOne(s: string, d: string)
    requires d != ""
    ensures Split(s, d) == [s] <==> Find(s, d, 0).Npos?
  {
    if Find(s, d, 0).At? {
      assert |Split(s, d)| > 1;
    }
  }

  lemma SplitStep(a: string, d: string, rest: string, parts: seq<string>)
    requires d != "" && parts != []
    ensures Split(a + d + rest, d) == [a] + parts <==>
            Find(a + d, d, 0) == At(|a|) && Split(rest, d) == parts
  {
    var s := a + d + rest;
    FoundInFront(a, d, rest);
    var i := Find(s, d, 0).index;
    assert Split(s, d) == [s[..i]] + Split(s[i + |d|..], d);
    assert s[..|a|] == a && s[|a| + |d|..] == rest;
    if Split(s, d) == [a] + parts {
      assert Split(s, d)[0] == a && Split(s, d)[1..] == parts;
      assert |s[..i]| == i;
    }
  }

  /** Splitting a join restores the parts if and only if they are separable. */
  lemma {:induction false} JoinThenSplit(parts: seq<string>, d: string)
    requires parts != [] && d != ""
    ensures Split(Join(parts, d), d) == parts <==> Separable(parts, d)
    decreases |parts|
  {
    if |parts| == 1 {
      assert parts == [parts[0]];
      SplitOne(parts[0], d);
    } else {
      JoinThenSplit(parts[1..], d);
      SplitStep(parts[0], d, Join(parts[1..], d), parts[1..]);
      assert parts == [parts[0]] + parts[1..];
    }
  }

  /** The parts of a split are the only separable ones that join to the string. */
  lemma SplitIsUnique(s: string, d: string, parts: seq<string>)
    requires d != "" && parts != []
    ensures parts == Split(s, d) <==> Join(parts, d) == s && Separable(parts, d)
  {
    SplitThenJoin(s, d);
    JoinThenSplit(Split(s, d), d);
    JoinThenSplit(parts, d);
  }

  lemma OccursOne(s: string, c: char, i: nat)
    ensures OccursAt(s, [c], i) <==> i < |s| && s[i] == c
  {
    if i < |s| && s[i] != c {
      assert s[i + 0] != [c][0];
    }
  }

  lemma CharacterFound(s: string, c: char, i: nat)
    requires i <= |s| && forall k :: 0 <= k < i ==> s[k] != c
    requires i < |s| ==> s[i] == c
    ensures Find(s, [c], 0) == if i < |s| then At(i) else Npos
  {
    OccursOne(s, c, i);
    FindsFirst(s, [c], 0);
    var p := Find(s, [c], 0);
    if p.At? {
      OccursOne(s, c, p.index);
    }
  }

  lemma OneCharacterFound(a: string, c: char)
    ensures Find(a, [c], 0).Npos? <==> c !in a
    ensures Find(a + [c], [c], 0) == At(|a|) <==> c !in a
  {
    var i := FirstIndex(a, c);
    CharacterFound(a, c, i);
    CharacterFound(a + [c], c, i);
  }

  function FirstIndex(s: string, c: char): (i: nat)
    ensures i <= |s| && (i < |s| ==> s[i] == c)
    ensures forall k :: 0 <= k < i ==> s[k] != c
    ensures i == |s| <==> c !in s
  {
    if s == "" || s[0] == c then 0 else 1 + FirstIndex(s[1..], c)
  }

  /** With a delimiter of one character: the parts are restored if and only if none contains it. */
  lemma {:induction false} JoinThenSplitCharacter(parts: seq<string>, c: char)
    requires parts != []
    ensures Split(Join(parts, [c]), [c]) == parts <==> forall i :: 0 <= i < |parts| ==> c !in parts[i]
  {
    JoinThenSplit(parts, [c]);
    SeparableByCharacter(parts, c);
  }

  lemma {:induction false} SeparableByCharacter(parts: seq<string>, c: char)
    requires parts != []
    ensures Separable(parts, [c]) <==> forall i :: 0 <= i < |parts| ==> c !in parts[i]
    decreases |parts|
  {
    OneCharacterFound(parts[0], c);
    if |parts| > 1 {
      SeparableByCharacter(parts[1..], c);
      assert forall i :: 0 < i < |parts| ==> parts[i] == parts[1..][i - 1];
    }
  }

  // ---------------------------------------------------------------- the loops

  lemma OccursBehind(s: string, d: string, from: nat, i: nat)
    requires from <= |s|
    ensures OccursAt(s[from..], d, i) <==> OccursAt(s, d, from + i)
  {
    if i + |d| <= |s[from..]| {
      assert s[from..][i..i + |d|] == s[from + i..from + i + |d|];
    }
  }

  lemma FoundBehind(s: string, d: string, from: nat)
    requires from <= |s|
    ensures Find(s, d, from) == match Find(s[from..], d, 0) case Npos => Npos case At(i) => At(from + i)
  {
    FindsFirst(s, d, from);
    FindsFirst(s[from..], d, 0);
    var p, q := Find(s, d, from), Find(s[from..], d, 0);
    if p.At? {
      OccursBehind(s, d, from, p.index - from);
    }
    if q.At? {
      OccursBehind(s, d, from, q.index);
    }
    if p.At? && q.At? {
      OccursBehind(s, d, from, p.index - from);
    }
  }

  lemma SliceBehind(s: string, from: nat, n: nat)
    requires from + n <= |s|
    ensures s[from..][..n] == s[from..from + n] && s[from..][n..] == s[from + n..]
  {
  }

  lemma SplitFound(t: string, d: string, q: nat, head: string, rest: string)
    requires d != "" && Find(t, d, 0) == At(q)
    requires head == t[..q] && rest == t[q + |d|..]
    ensures Split(t, d) == [head] + Split(rest, d)
  {
  }

  /** One more part found from position `prev`. */
  lemma SplitFrom(s: string, d: string, prev: nat, i: nat, head: string, rest: string)
    requires d != "" && prev <= |s| && Find(s, d, prev) == At(i)
    requires head == s[prev..i] && rest == s[i + |d|..]
    ensures Split(s[prev..], d) == [head] + Split(rest, d)
  {
    FoundBehind(s, d, prev);
    SliceBehind(s, prev, i - prev);
    SliceBehind(s, prev, i - prev + |d|);
    SplitFound(s[prev..], d, i - prev, head, rest);
  }

  lemma SplitRest(s: string, d: string, prev: nat)
    requires d != "" && prev <= |s| && Find(s, d, prev) == Npos
    ensures Split(s[prev..], d) == [s[prev..]]
  {
    FoundBehind(s, d, prev);
  }

  /** What the loops still find from a position on. */
  function Tokens(s: string, d: string, prev: nat): seq<string>
    requires prev <= |s|
    decreases |s| - prev
  {
    if d == "" then [""]
    else
      match Find(s, d, prev)
      case Npos => [s[prev..]]
      case At(i) => [s[prev..i]] + Tokens(s, d, i + |d|)
  }

  lemma TokensStep(s: string, d: string, prev: nat, i: nat, part: string)
    requires d != "" && prev <= |s| && Find(s, d, prev) == At(i) && part == s[prev..i]
    ensures Tokens(s, d, prev) == [part] + Tokens(s, d, i + |d|)
  {
  }

  lemma TokensFrom(s: string, d: string, prev: nat, i: nat, rest: string, behind: string)
    requires d != "" && prev <= |s| && Find(s, d, prev) == At(i) && rest == s[prev..] && behind == s[i + |d|..]
    requires Tokens(s, d, i + |d|) == Split(behind, d)
    ensures Tokens(s, d, prev) == Split(rest, d)
  {
    TokensStep(s, d, prev, i, s[prev..i]);
    SplitFrom(s, d, prev, i, s[prev..i], behind);
  }

  lemma TokensEnd(s: string, d: string, prev: nat, rest: string)
    requires d != "" && prev <= |s| && Find(s, d, prev).Npos? && rest == s[prev..]
    ensures Tokens(s, d, prev) == Split(rest, d)
  {
    SplitRest(s, d, prev);
  }

  lemma {:induction false} TokensAreSplit(s: string, d: string, prev: nat, rest: string)
    requires d != "" && prev <= |s| && rest == s[prev..]
    ensures Tokens(s, d, prev) == Split(rest, d)
    decreases |s| - prev
  {
    match Find(s, d, prev)
    case Npos =>
      TokensEnd(s, d, prev, rest);
    case At(i) =>
      var behind := s[i + |d|..];
      TokensAreSplit(s, d, i + |d|, behind);
      TokensFrom(s, d, prev, i, rest, behind);
  }

  lemma AllTokens(s: string, d: string)
    ensures Tokens(s, d, 0) == if d == "" then [""] else Split(s, d)
  {
    if d != "" {
      assert s[0..] == s;
      TokensAreSplit(s, d, 0, s);
    }
  }

  /** Behind the last delimiter, with the delimiters found from the left. */
  function RestFrom(s: string, d: string, prev: nat): (from: nat)
    requires d != "" && prev <= |s|
    ensures prev <= from <= |s|
    decreases |s| - prev
  {
    match Find(s, d, prev)
    case Npos => prev
    case At(i) => RestFrom(s, d, i + |d|)
  }

  lemma {:induction false} LastBegins(s: string, d: string, prev: nat)
    requires d != "" && prev <= |s|
    ensures Tokens(s, d, prev) != [] && Last(Tokens(s, d, prev)) == s[RestFrom(s, d, prev)..]
    decreases |s| - prev
  {
    var p := Find(s, d, prev);
    if p.At? {
      LastBegins(s, d, p.index + |d|);
    }
  }

  predicate NoZeroFrom(s: string, from: nat) {
    forall k :: from <= k < |s| ==> s[k] != '\0'
  }

  /** The splitter that ends the last part at a zero restores the string, and agrees with the other one, exactly if
      the string has no zero behind the last delimiter. */
  lemma TerminatedThenJoin(s: string, d: string)
    requires d != ""
    ensures Join(LastTerminated(Split(s, d)), d) == s <==> NoZeroFrom(s, RestFrom(s, d, 0))
    ensures LastTerminated(Split(s, d)) == Split(s, d) <==> NoZeroFrom(s, RestFrom(s, d, 0))
    ensures '\0' !in s ==> LastTerminated(Split(s, d)) == Split(s, d)
  {
    AllTokens(s, d);
    LastBegins(s, d, 0);
    ZeroFrom(s, RestFrom(s, d, 0));
    SplitThenJoin(s, d);
    TerminatedParts(Split(s, d), d);
    if '\0' !in s {
      assert NoZeroFrom(s, RestFrom(s, d, 0));
    }
  }

  lemma TerminatedParts(parts: seq<string>, d: string)
    requires parts != []
    ensures Join(LastTerminated(parts), d) == Join(parts, d) <==> '\0' !in Last(parts)
    ensures LastTerminated(parts) == parts <==> '\0' !in Last(parts)
  {
    var last := Last(parts);
    JoinLast(parts, d, Terminated(last));
    assert Last(LastTerminated(parts)) == Terminated(last);
    if '\0' !in last {
      assert LastTerminated(parts) == parts;
    } else {
      ShorterThan(Terminated(last), last);
    }
  }

  lemma ZeroFrom(s: string, from: nat)
    requires from <= |s|
    ensures '\0' in s[from..] <==> !NoZeroFrom(s, from)
  {
    if k :| from <= k < |s| && s[k] == '\0' {
      assert s[from..][k - from] == '\0';
    }
  }

  // ---------------------------------------------------------------- termination

  /** Whether either loop takes another turn. The strict one also compares its positions with the length. */
  predicate Goes(p: Position, s: string, prev: nat, strict: bool) {
    p.At? && (strict ==> p.index < |s| && prev < |s|)
  }

  /** Where a loop stands after so many turns, if it took them. */
  function AfterTurns(s: string, d: string, n: nat, strict: bool): (p: Position)
    ensures p.At? ==> p.index <= |s|
  {
    if n == 0 then At(0)
    else
      match AfterTurns(s, d, n - 1, strict)
      case Npos => Npos
      case At(prev) => if Goes(Find(s, d, prev), s, prev, strict) then At(Find(s, d, prev).index + |d|) else Npos
  }

  lemma {:induction false} EmptyDelimiterStays(s: string, n: nat, strict: bool)
    requires strict ==> s != ""
    ensures AfterTurns(s, "", n, strict) == At(0)
  {
    if n > 0 {
      EmptyDelimiterStays(s, n - 1, strict);
      assert OccursAt(s, "", 0);
    }
  }

  lemma {:induction false} TurnsAdvance(s: string, d: string, n: nat, strict: bool)
    requires d != ""
    ensures var p := AfterTurns(s, d, n, strict); p.At? ==> n <= p.index
  {
    if n > 0 {
      TurnsAdvance(s, d, n - 1, strict);
    }
  }

  /** A loop ends unless the delimiter is empty; the strict one ends on the empty string as well. */
  lemma LoopsEnd(s: string, d: string, strict: bool)
    ensures (exists n :: AfterTurns(s, d, n, strict).Npos?) <==> d != "" || (strict && s == "")
  {
    if d != "" {
      TurnsAdvance(s, d, |s| + 1, strict);
    } else if strict && s == "" {
      assert AfterTurns(s, d, 1, strict).Npos?;
    } else {
      forall n ensures AfterTurns(s, d, n, strict).At? {
        EmptyDelimiterStays(s, n, strict);
      }
    }
  }

  lemma LastOfMore(parts: seq<string>, x: string)
    ensures LastTerminated(parts + [x]) == parts + [Terminated(x)]
  {
    assert (parts + [x])[..|parts|] == parts;
  }

  lemma JoinFrom(parts: seq<string>, d: string, n: nat, str: string)
    requires n + 1 < |parts|
    ensures str + Join(parts[n..], d) == str + parts[n] + d + Join(parts[n + 1..], d)
  {
    assert parts[n..][1..] == parts[n + 1..];
    var rest := Join(parts[n + 1..], d);
    assert str + (parts[n] + d + rest) == str + parts[n] + d + rest;
  }

  lemma Regrouped(parts: seq<string>, head: string, rest: seq<string>)
    ensures parts + ([head] + rest) == parts + [head] + rest
  {
  }

  /** What the loops have found, `all` being the result. */
  ghost predicate Found(tokens: seq<string>, s: string, d: string, prev: nat, all: seq<string>) {
    prev <= |s| && (d == "" ==> s == "") && tokens + Tokens(s, d, prev) == all
  }

  lemma FoundMore(tokens: seq<string>, s: string, d: string, prev: nat, i: nat, part: string, all: seq<string>)
    requires Found(tokens, s, d, prev, all) && Find(s, d, prev) == At(i) && (d != "" || s != "")
    requires part == s[prev..i]
    ensures d != "" && Found(tokens + [part], s, d, i + |d|, all)
  {
    TokensStep(s, d, prev, i, part);
    Regrouped(tokens, part, Tokens(s, d, i + |d|));
  }

  lemma FoundAll(tokens: seq<string>, s: string, d: string, prev: nat, p: Position, part: string, all: seq<string>)
    requires Found(tokens, s, d, prev, all) && p == Find(s, d, prev) && !Goes(p, s, prev, true) && part == s[prev..]
    ensures tokens + [part] == all
  {
  }

  method SplitString(delim: string, str: string) returns (parts: seq<string>)
    requires delim != ""
    ensures parts == LastTerminated(Split(str, delim))
  {
    ghost var all := Tokens(str, delim, 0);
    parts := [];
    var prev := 0;
    var pos := Find(str, delim, prev);
    while pos != Npos
      invariant Found(parts, str, delim, prev, all) && pos == Find(str, delim, prev)
      decreases |str| - prev
    {
      var part := str[prev..pos.index];
      FoundMore(parts, str, delim, prev, pos.index, part, all);
      parts := parts + [part];
      prev := pos.index + |delim|;
      pos := Find(str, delim, prev);
    }
    var last := str[prev..];
    FoundAll(parts, str, delim, prev, pos, last, all);
    AllTokens(str, delim);
    LastOfMore(parts, last);
    parts := parts + [Terminated(last)];
  }

  method StrictTokenize(str: string, delimiter: string) returns (tokens: seq<string>)
    requires delimiter != "" || str == ""
    ensures tokens == if delimiter == "" then [""] else Split(str, delimiter)
  {
    ghost var all := Tokens(str, delimiter, 0);
    tokens := [];
    var prev := 0;
    var next := Find(str, delimiter, prev);
    while Goes(next, str, prev, true)
      invariant Found(tokens, str, delimiter, prev, all) && next == Find(str, delimiter, prev)
      decreases |str| - prev
    {
      var part := str[prev..next.index];
      FoundMore(tokens, str, delimiter, prev, next.index, part, all);
      tokens := tokens + [part];
      prev := next.index + |delimiter|;
      next := Find(str, delimiter, prev);
    }
    var last := str[prev..];
    FoundAll(tokens, str, delimiter, prev, next, last, all);
    AllTokens(str, delimiter);
    tokens := tokens + [last];
  }

  method JoinStrings(parts: seq<string>, delim: string) returns (str: string)
    ensures str == if parts == [] then "" else Join(parts, delim)
  {
    str := "";
    if |parts| > 0 {
      var n := 0;
      assert parts[0..] == parts;
      while n < |parts| - 1
        invariant 0 <= n < |parts|
        invariant str + Join(parts[n..], delim) == Join(parts, delim)
      {
        JoinFrom(parts, delim, n, str);
        str := str + parts[n];
        str := str + delim;
        n := n + 1;
      }
      str := str + parts[n];
    }
  }
}
