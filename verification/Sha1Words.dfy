/** The arithmetic of sha1.c on `unsigned long`, whose width the platform chooses and which is hardly
    ever masked, against the 32-bit arithmetic of the standard: modulo 2^32 they always agree. */
module Sha1Words {
  import opened Bits
  import opened Sha1Standard

  /** One more than the largest `unsigned long`: some multiple of 2^32, so of 32 bits, of 64, or of any number
      above; nothing else is known of it. */
  type Modulus = n: nat | n > 0 && n % WORD == 0 witness WORD
  const LONG: Modulus

  const MASK: nat := 0xFFFF_FFFF

  type Long = n: nat | n < LONG

  /** The part of a value that matters. */
  function Low(x: nat): Word {
    x % WORD
  }

  function Plus(x: nat, y: nat): Long {
    (x + y) % LONG
  }

  /** Macro S for its three amounts: the left shift is cut off at the width of LONG only, the right shift
      takes the masked value. */
  function Shift1(x: nat): nat { Or(x * 2 % LONG, And(x, MASK) / 0x8000_0000) }
  function Shift5(x: nat): nat { Or(x * 0x20 % LONG, And(x, MASK) / 0x800_0000) }
  function Shift30(x: nat): nat { Or(x * 0x4000_0000 % LONG, And(x, MASK) / 4) }

  /** Macro F, as redefined for each group of twenty rounds. */
  function Choose(t: nat, x: nat, y: nat, z: nat): nat {
    if t < 20 then Xor(z, And(x, Xor(y, z)))
    else if t < 40 then Xor(Xor(x, y), z)
    else if t < 60 then Or(And(x, y), And(z, Or(x, y)))
    else Xor(Xor(x, y), z)
  }

  /** Macro P: the new value of its fifth argument. */
  function Mix(t: nat, a: nat, b: nat, c: nat, d: nat, e: nat, x: nat): Long {
    Plus(e, Plus(Plus(Plus(Shift5(a), Choose(t, b, c, d)), K(t)), x))
  }

  /** Macro GET_ULONG_BE. */
  function GetLong(b: seq<Octet>, i: nat): nat
    requires i + 4 <= |b|
  {
    var b0: nat, b1: nat, b2: nat, b3: nat := b[i], b[i + 1], b[i + 2], b[i + 3];
    Or(Or(Or(b0 * 0x100_0000, b1 * 0x1_0000), b2 * 0x100), b3)
  }

  /** Macro PUT_ULONG_BE: the casts to unsigned char keep one octet each. */
  function PutLong(n: nat): seq<Octet> {
    [n / 0x100_0000 % 0x100, n / 0x1_0000 % 0x100, n / 0x100 % 0x100, n % 0x100]
  }

  // ---------------------------------------------------------------- low parts

  lemma LowCutOf(x: nat, q: nat, r: nat, m: nat)
    requires x == (m * WORD) * q + r
    ensures r % WORD == x % WORD
  {
    Regrouped(WORD, m, q, r / WORD);
    DivisionUnique(x, WORD, m * q + r / WORD, r % WORD);
  }

  lemma LowCut(x: nat)
    ensures x % LONG % WORD == x % WORD
  {
    var w: nat := WORD;
    LowCutOf(x, x / LONG, x % LONG, LONG / w);
  }

  lemma LowSum(x: nat, y: nat)
    ensures (x + y) % WORD == (x % WORD + y % WORD) % WORD
  {
  }

  lemma LowPlus(x: nat, y: nat)
    ensures Low(Plus(x, y)) == (Low(x) + Low(y)) % WORD
  {
    LowCut(x + y);
    LowSum(x, y);
  }

  lemma LowBitwise(op: Op, x: nat, y: nat)
    ensures Low(Bitwise(op, x, y)) == Bitwise(op, Low(x), Low(y))
  {
    WordBits();
    BitwiseLow(op, x, y, 32);
  }

  lemma OnesHalved(m: nat)
    requires m > 0
    ensures (2 * m - 1) % 2 == 1 && (2 * m - 1) / 2 == m - 1
  {
  }

  lemma OneMoreOne(x: nat, m: nat)
    requires m > 0 && And(x / 2, m - 1) == x / 2 % m
    ensures And(x, 2 * m - 1) == x % (2 * m)
  {
    OnesHalved(m);
    Unfold(AndOp, x, 2 * m - 1);
    HalfOfRemainder(x, m);
  }

  lemma {:induction false} AndMask(x: nat, k: nat)
    ensures And(x, Power(k) - 1) == x % Power(k)
  {
    if k == 0 {
      AndZero(x);
    } else {
      AndMask(x / 2, k - 1);
      OneMoreOne(x, Power(k - 1));
    }
  }

  lemma {:induction false} AndZero(x: nat)
    ensures And(x, 0) == 0
    decreases x
  {
    if x > 0 {
      Unfold(AndOp, x, 0);
      AndZero(x / 2);
    }
  }

  lemma Masked(x: nat)
    ensures And(x, MASK) == Low(x)
  {
    WordBits();
    AndMask(x, 32);
  }

  lemma LowOrOf(y: nat, p: nat, r: nat)
    requires r < WORD && Low(y) == Low(p)
    ensures Low(Or(y, r)) == Or(p % WORD, r)
  {
    LowBitwise(OrOp, y, r);
    assert Low(r) == r;
  }

  lemma LowOr(p: nat, r: nat)
    requires r < WORD
    ensures Low(Or(p % LONG, r)) == Or(p % WORD, r)
  {
    LowCut(p);
    LowOrOf(p % LONG, p, r);
  }

  lemma LowProduct(x: nat, factor: nat)
    ensures x * factor % WORD == Low(x) * factor % WORD
  {
    var q := x / WORD;
    assert x == q * WORD + Low(x);
    assert x * factor == (q * factor) * WORD + Low(x) * factor;
    var y := Low(x) * factor;
    DivisionUnique(x * factor, WORD, q * factor + y / WORD, y % WORD);
  }

  /** A shift keeps its meaning: only the low half of the argument reaches the low half of the result. */
  lemma LowShift1(x: nat)
    ensures Low(Shift1(x)) == S1(Low(x))
  {
    Masked(x);
    LowOr(x * 2, Low(x) / 0x8000_0000);
    LowProduct(x, 2);
  }

  lemma LowShift5(x: nat)
    ensures Low(Shift5(x)) == S5(Low(x))
  {
    Masked(x);
    LowOr(x * 0x20, Low(x) / 0x800_0000);
    LowProduct(x, 0x20);
  }

  lemma LowShift30(x: nat)
    ensures Low(Shift30(x)) == S30(Low(x))
  {
    Masked(x);
    LowOr(x * 0x4000_0000, Low(x) / 4);
    LowProduct(x, 0x4000_0000);
  }

  lemma LowChoice(x: nat, y: nat, z: nat)
    ensures Low(Xor(z, And(x, Xor(y, z)))) == Or(And(Low(x), Low(y)), And(WORD - 1 - Low(x), Low(z)))
  {
    LowBitwise(XorOp, y, z);
    LowBitwise(AndOp, x, Xor(y, z));
    LowBitwise(XorOp, z, And(x, Xor(y, z)));
    WordBits();
    ChoiceRewritten(Low(x), Low(y), Low(z), 32);
  }

  lemma LowMajority(x: nat, y: nat, z: nat)
    ensures Low(Or(And(x, y), And(z, Or(x, y))))
            == Or(Or(And(Low(x), Low(y)), And(Low(x), Low(z))), And(Low(y), Low(z)))
  {
    LowBitwise(AndOp, x, y);
    LowBitwise(OrOp, x, y);
    LowBitwise(AndOp, z, Or(x, y));
    LowBitwise(OrOp, And(x, y), And(z, Or(x, y)));
    MajorityRewritten(Low(x), Low(y), Low(z));
  }

  /** The rewritten choice and majority functions are the standard's. */
  lemma LowChoose(t: nat, x: nat, y: nat, z: nat)
    ensures Low(Choose(t, x, y, z)) == F(t, Low(x), Low(y), Low(z))
  {
    if t < 20 {
      LowChoice(x, y, z);
    } else if 40 <= t < 60 {
      LowMajority(x, y, z);
    } else {
      LowBitwise(XorOp, x, y);
      LowBitwise(XorOp, Xor(x, y), z);
    }
  }

  lemma PlusIsSum(x: nat, y: nat)
    ensures Low(Plus(x, y)) == Low(x + y)
  {
    LowCut(x + y);
  }

  lemma SumsCut(s: nat, f: nat, k: nat, x: nat, e: nat, p: nat, q: nat, r: nat)
    requires p == Plus(s, f) && q == Plus(p, k) && r == Plus(q, x)
    ensures Low(p) == Low(s + f) && Low(q) == Low(p + k) && Low(r) == Low(q + x) && Low(Plus(e, r)) == Low(e + r)
  {
    PlusIsSum(s, f);
    PlusIsSum(p, k);
    PlusIsSum(q, x);
    PlusIsSum(e, r);
  }

  /** Sums may be cut at either width and in any order. */
  lemma LowMixedSum(s: nat, f: nat, k: nat, x: nat, e: nat, p: nat, q: nat, r: nat)
    requires p == Plus(s, f) && q == Plus(p, k) && r == Plus(q, x) && k < WORD
    ensures Low(Plus(e, r)) == (Low(s) + Low(f) + Low(e) + Low(x) + k) % WORD
  {
    SumsCut(s, f, k, x, e, p, q, r);
    ChainedSum(s, f, k, x, e, p, q, r, Plus(e, r));
  }

  lemma ChainedSum(s: nat, f: nat, k: nat, x: nat, e: nat, p: nat, q: nat, r: nat, o: nat)
    requires Low(p) == Low(s + f) && Low(q) == Low(p + k) && Low(r) == Low(q + x) && Low(o) == Low(e + r) && k < WORD
    ensures Low(o) == (Low(s) + Low(f) + Low(e) + Low(x) + k) % WORD
  {
    SameSum(s + f, p, k);
    SameSum(s + f + k, q, x);
    SameSum(s + f + k + x, r, e);
    FiveLows(s, f, e, x, k);
  }

  lemma SameSum(a: nat, b: nat, x: nat)
    requires Low(a) == Low(b)
    ensures Low(a + x) == Low(b + x)
  {
    LowSum(a, x);
    LowSum(b, x);
  }

  lemma FiveLows(s: nat, f: nat, e: nat, x: nat, k: nat)
    ensures Low(s + f + e + x + k) == (Low(s) + Low(f) + Low(e) + Low(x) + Low(k)) % WORD
  {
    var q := s / WORD + f / WORD + e / WORD + x / WORD + k / WORD;
    var y := Low(s) + Low(f) + Low(e) + Low(x) + Low(k);
    DivisionUnique(s + f + e + x + k, WORD, q + y / WORD, y % WORD);
  }

  /** One use of macro P computes the standard's TEMP, whatever the high halves hold. */
  lemma LowMix(t: nat, a: nat, b: nat, c: nat, d: nat, e: nat, x: nat)
    ensures Low(Mix(t, a, b, c, d, e, x)) == (S5(Low(a)) + F(t, Low(b), Low(c), Low(d)) + Low(e) + Low(x) + K(t)) % WORD
  {
    LowShift5(a);
    LowChoose(t, b, c, d);
    var s, f := Shift5(a), Choose(t, b, c, d);
    LowMixedSum(s, f, K(t), x, e, Plus(s, f), Plus(Plus(s, f), K(t)), Plus(Plus(Plus(s, f), K(t)), x));
  }

  /** The registers hold the standard's, up to their high halves. */
  predicate Holds(r: Registers, a: nat, b: nat, c: nat, d: nat, e: nat) {
    Low(a) == r.a && Low(b) == r.b && Low(c) == r.c && Low(d) == r.d && Low(e) == r.e
  }

  /** One round with its register names moved on by one. */
  lemma RoundMoves(words: Words, h: Registers, t: nat, a: nat, b: nat, c: nat, d: nat, e: nat, x: nat)
    requires t < 80 && Holds(Rounds(words, h, t), a, b, c, d, e) && Low(x) == words[t]
    ensures Holds(Rounds(words, h, t + 1), Mix(t, a, b, c, d, e, x), a, Shift30(b), c, d)
  {
    LowMix(t, a, b, c, d, e, x);
    LowShift30(b);
  }

  // ---------------------------------------------------------------- octets

  lemma OctetsJoined(b0: Octet, b1: Octet, b2: Octet, b3: Octet)
    ensures var c0: nat, c1: nat, c2: nat, c3: nat := b0, b1, b2, b3;
            Or(Or(Or(c0 * 0x100_0000, c1 * 0x1_0000), c2 * 0x100), c3) == BigEndian(c0, c1, c2, c3)
  {
    var c0: nat, c1: nat, c2: nat, c3: nat := b0, b1, b2, b3;
    WordBits();
    OrOfDisjoint(c0, c1 * 0x1_0000, 24);
    OrOfDisjoint(c0 * 0x100 + c1, c2 * 0x100, 16);
    OrOfDisjoint((c0 * 0x100 + c1) * 0x100 + c2, c3, 8);
  }

  lemma LowGet(block: Block, i: nat)
    requires i < 16
    ensures Low(GetLong(block, 4 * i)) == WordAt(block, i)
  {
    OctetsJoined(block[4 * i], block[4 * i + 1], block[4 * i + 2], block[4 * i + 3]);
  }

  lemma LowQuotient(n: nat, d: nat, m: nat)
    requires d > 0 && m > 0 && d * m == WORD
    ensures n / d % m == Low(n) / d
  {
    var w := Low(n);
    QuotientBelow(w, d, m);
    LowQuotientOf(n, d, m, n / WORD, w / d, w % d);
  }

  lemma LowQuotientOf(n: nat, d: nat, m: nat, q: nat, a: nat, r: nat)
    requires d > 0 && m > 0 && n == (d * m) * q + (d * a + r) && r < d && a < m
    ensures n / d % m == a
  {
    Regrouped(d, m, q, a);
    DivisionUnique(n, d, m * q + a, r);
    DivisionUnique(m * q + a, m, q, a);
  }

  lemma QuotientBelow(w: nat, d: nat, m: nat)
    requires d > 0 && w < d * m
    ensures w / d < m
  {
    assert d * (w / d) <= w;
    MultipleIsFar(d, w / d - m);
    assert d * (w / d - m) == d * (w / d) - d * m;
  }

  lemma LowPut(n: nat)
    ensures PutLong(n) == WordOctets(Low(n))
  {
    LowQuotient(n, 0x100_0000, 0x100);
    LowQuotient(n, 0x1_0000, 0x1_0000);
    LowQuotient(n, 0x100, 0x100_0000);
    LowQuotient(n, 1, WORD);
    RemainderTwice(n / 0x1_0000, 0x100, 0x100);
    RemainderTwice(n / 0x100, 0x100, 0x1_0000);
    RemainderTwice(n, 0x100, 0x100_0000);
  }

  lemma Regrouped(m: nat, k: nat, q: nat, b: nat)
    ensures (m * k) * q + m * b == m * (k * q + b)
  {
    var a := k * q;
    assert (m * k) * q == m * a;
    assert m * (a + b) == m * a + m * b;
  }

  lemma RemainderTwice(n: nat, m: nat, k: nat)
    requires m > 0 && k > 0
    ensures n % (m * k) % m == n % m
  {
    var q, r := n / (m * k), n % (m * k);
    Regrouped(m, k, q, r / m);
    DivisionUnique(n, m, k * q + r / m, r % m);
  }

  // ---------------------------------------------------------------- the circular schedule

  /** The number of the newest word of the schedule, before number `t`, that belongs in slot `k`. */
  function Newest(t: nat, k: nat): (i: nat)
    requires k < 16
    ensures t >= 16 ==> t - 16 <= i < t && i % 16 == k
  {
    if t < 16 then k else t - 1 - (t - 1 - k) % 16
  }

  lemma NewestIsUnique(t: nat, k: nat, i: nat)
    requires t >= 16 && t - 16 <= i < t && i % 16 == k
    ensures Newest(t, k) == i
  {
    var j := Newest(t, k);
    MultipleIsFar(16, i / 16 - j / 16);
  }

  lemma NewestMoves(t: nat, k: nat)
    requires t >= 16 && k < 16
    ensures Newest(t + 1, k) == if k == t % 16 then t else Newest(t, k)
  {
    var i := Newest(t, k);
    if k == t % 16 {
      NewestIsUnique(t + 1, k, t);
    } else {
      assert i % 16 != (t - 16) % 16;
      NewestIsUnique(t + 1, k, i);
    }
  }

  /** The sixteen words hold the last sixteen of the schedule, each at its number modulo 16. */
  ghost predicate Circular(w: seq<nat>, words: Words, t: nat) {
    |w| == 16 && t <= 80 && forall k :: 0 <= k < 16 ==> Low(w[k]) == words[Newest(t, k)]
  }

  /** Macro R: the next word, computed from four of the sixteen. */
  function NextWord(w: seq<nat>, t: nat): nat
    requires |w| == 16 && t >= 16
  {
    Shift1(Xor(Xor(Xor(w[(t - 3) % 16], w[(t - 8) % 16]), w[(t - 14) % 16]), w[t % 16]))
  }

  lemma SlotHolds(w: seq<nat>, words: Words, t: nat, back: nat)
    requires Circular(w, words, t) && t >= 16 && 1 <= back <= 16
    ensures Low(w[(t - back) % 16]) == words[t - back]
  {
    NewestIsUnique(t, (t - back) % 16, t - back);
  }

  function NextOf(p: Word, q: Word, r: Word, s: Word): Word {
    S1(XorWord(XorWord(XorWord(p, q), r), s))
  }

  lemma LowNext(p: nat, q: nat, r: nat, s: nat)
    ensures Low(Shift1(Xor(Xor(Xor(p, q), r), s))) == NextOf(Low(p), Low(q), Low(r), Low(s))
  {
    LowBitwise(XorOp, p, q);
    LowBitwise(XorOp, Xor(p, q), r);
    LowBitwise(XorOp, Xor(Xor(p, q), r), s);
    LowShift1(Xor(Xor(Xor(p, q), r), s));
  }

  ghost predicate StepAt(words: Words, t: nat)
    requires 16 <= t < 80
  {
    words[t] == NextOf(words[t - 3], words[t - 8], words[t - 14], words[t - 16])
  }

  ghost predicate Steps(words: Words) {
    forall t :: 16 <= t < 80 ==> StepAt(words, t)
  }

  ghost predicate StartAt(words: Words, block: Block, t: nat)
    requires t < 16
  {
    words[t] == WordAt(block, t)
  }

  ghost predicate Starts(words: Words, block: Block) {
    forall t :: 0 <= t < 16 ==> StartAt(words, block, t)
  }

  lemma StepOfSchedule(block: Block, t: nat)
    requires 16 <= t < 80
    ensures StepAt(ScheduleWords(block), t)
  {
  }

  lemma ScheduleWordsStep(block: Block)
    ensures Starts(ScheduleWords(block), block) && Steps(ScheduleWords(block))
  {
    var words := ScheduleWords(block);
    forall t | 16 <= t < 80 ensures StepAt(words, t) {
      StepOfSchedule(block, t);
    }
  }

  lemma NextWordLow(w: seq<nat>, words: Words, t: nat)
    requires Circular(w, words, t) && t >= 16
    ensures Low(NextWord(w, t)) == NextOf(words[t - 3], words[t - 8], words[t - 14], words[t - 16])
  {
    SlotHolds(w, words, t, 3);
    SlotHolds(w, words, t, 8);
    SlotHolds(w, words, t, 14);
    SlotHolds(w, words, t, 16);
    assert (t - 16) % 16 == t % 16;
    LowNext(w[(t - 3) % 16], w[(t - 8) % 16], w[(t - 14) % 16], w[t % 16]);
  }

  lemma CircularSet(w: seq<nat>, words: Words, t: nat, x: nat)
    requires Circular(w, words, t) && 16 <= t < 80 && Low(x) == words[t]
    ensures Circular(w[t % 16 := x], words, t + 1)
  {
    var w' := w[t % 16 := x];
    forall k | 0 <= k < 16 ensures Low(w'[k]) == words[Newest(t + 1, k)] {
      NewestMoves(t, k);
    }
  }

  /** Section 8 of the standard: overwriting one of sixteen words gives the 80-word sequence. */
  lemma CircularMoves(w: seq<nat>, words: Words, t: nat)
    requires Circular(w, words, t) && Steps(words) && 16 <= t < 80
    ensures Low(NextWord(w, t)) == words[t]
    ensures Circular(w[t % 16 := NextWord(w, t)], words, t + 1)
  {
    NextWordLow(w, words, t);
    assert StepAt(words, t);
    CircularSet(w, words, t, NextWord(w, t));
  }
}
