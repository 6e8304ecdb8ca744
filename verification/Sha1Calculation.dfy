/** Calculating with SHA-1: rounds and words of the schedule in bit vectors, for numbers that are given. */
module Sha1Calculation {
  import opened Bits
  import opened Sha1Standard
  import opened Sha1Words
  import opened WordVectors

  // ---------------------------------------------------------------- calculating

  /** The registers after round `t`, from those before. */
  function Stepped(t: nat, r: Registers, w: Word): Registers {
    Registers((S5(r.a) + F(t, r.b, r.c, r.d) + r.e + w + K(t)) % WORD, r.a, S30(r.b), r.c, r.d)
  }

  /** A sum of five words, reduced by as much as it may exceed a word. */
  predicate SumIs(t: nat, a: nat, f: nat, e: nat, w: nat, n: nat) {
    var sum := a + f + e + w + K(t);
    sum == n || sum == n + WORD || sum == n + 2 * WORD || sum == n + 3 * WORD || sum == n + 4 * WORD
  }

  /** What round `t` puts into the first register, which is given rotated. */
  predicate Sums(t: nat, a5: bv32, b: bv32, c: bv32, d: bv32, e: bv32, w: bv32, n: bv32) {
    if t < 20 then SumIs(t, Number(a5), Number((b & c) | (!b & d)), Number(e), Number(w), Number(n))
    else if 40 <= t < 60 then
      SumIs(t, Number(a5), Number((b & c) | (b & d) | (c & d)), Number(e), Number(w), Number(n))
    else SumIs(t, Number(a5), Number(b ^ c ^ d), Number(e), Number(w), Number(n))
  }

  /** The same from all five registers, the last three as they were before their rotation. */
  predicate RoundGives(t: nat, a: bv32, b: bv32, c: bv32, d: bv32, e: bv32, w: bv32, n: bv32) {
    Sums(t, ((a << 5) | (a >> 27)), b, ((c << 30) | (c >> 2)), ((d << 30) | (d >> 2)),
         ((e << 30) | (e >> 2)), w, n)
  }

  lemma SumsChosen(t: nat, a5: bv32, b: bv32, c: bv32, d: bv32, e: bv32, w: bv32, n: bv32) returns (f: bv32)
    requires Sums(t, a5, b, c, d, e, w, n)
    ensures IsChosen(t, b, c, d, f) && SumIs(t, Number(a5), Number(f), Number(e), Number(w), Number(n))
  {
    if t < 20 {
      f := (b & c) | (!b & d);
    } else if 40 <= t < 60 {
      f := (b & c) | (b & d) | (c & d);
    } else {
      f := b ^ c ^ d;
    }
  }

  lemma RoundParts(t: nat, a: bv32, b: bv32, c: bv32, d: bv32, e: bv32, w: bv32, n: bv32)
    returns (a5: bv32, c1: bv32, d1: bv32, e1: bv32)
    requires RoundGives(t, a, b, c, d, e, w, n)
    ensures IsRolled5(a, a5)
    ensures c1 == ((c << 30) | (c >> 2)) && d1 == ((d << 30) | (d >> 2)) && e1 == ((e << 30) | (e >> 2))
    ensures Sums(t, a5, b, c1, d1, e1, w, n)
  {
    a5, c1, d1, e1 := ((a << 5) | (a >> 27)), ((c << 30) | (c >> 2)), ((d << 30) | (d >> 2)), ((e << 30) | (e >> 2));
  }

  lemma SumOfVals(t: nat, a: bv32, f: bv32, e: bv32, w: bv32, n: bv32)
    requires SumIs(t, Number(a), Number(f), Number(e), Number(w), Number(n))
    ensures SumIs(t, Val(a), Val(f), Val(e), Val(w), Val(n))
  {
    NumberIs(a);
    NumberIs(f);
    NumberIs(e);
    NumberIs(w);
    NumberIs(n);
  }

  lemma Reduced(sum: nat, n: Word, times: nat)
    requires sum == n + times * WORD
    ensures sum % WORD == n
  {
    DivisionUnique(sum, WORD, times, n);
  }

  lemma SumReduced(t: nat, a: nat, f: nat, e: nat, w: nat, n: Word)
    requires SumIs(t, a, f, e, w, n)
    ensures (a + f + e + w + K(t)) % WORD == n
  {
    var sum := a + f + e + w + K(t);
    Reduced(sum, n, if sum == n then 0 else if sum == n + WORD then 1 else if sum == n + 2 * WORD then 2
                    else if sum == n + 3 * WORD then 3 else 4);
  }

  lemma SteppedTo(t: nat, r: Registers, w: Word, a5: Word, f: Word, n: Word, b30: Word)
    requires a5 == S5(r.a) && f == F(t, r.b, r.c, r.d) && b30 == S30(r.b)
    requires (a5 + f + r.e + w + K(t)) % WORD == n
    ensures Stepped(t, r, w) == Registers(n, r.a, b30, r.c, r.d)
  {
  }

  lemma SteppedIs(t: nat, r: Registers, w: Word, a5: Word, f: Word, n: Word, b30: Word)
    requires a5 == S5(r.a) && f == F(t, r.b, r.c, r.d) && b30 == S30(r.b) && SumIs(t, a5, f, r.e, w, n)
    ensures Stepped(t, r, w) == Registers(n, r.a, b30, r.c, r.d)
  {
    SumReduced(t, a5, f, r.e, w, n);
    SteppedTo(t, r, w, a5, f, n, b30);
  }

  function Vals(a: bv32, b: bv32, c: bv32, d: bv32, e: bv32): Registers {
    Registers(Val(a), Val(b), Val(c), Val(d), Val(e))
  }

  lemma ValsStep(t: nat, a: bv32, b: bv32, c: bv32, d: bv32, e: bv32, w: bv32, a5: bv32, f: bv32, n: bv32, b30: bv32)
    requires IsRolled5(a, a5) && IsRolled30(b, b30) && IsChosen(t, b, c, d, f)
    requires SumIs(t, Number(a5), Number(f), Number(e), Number(w), Number(n))
    ensures Stepped(t, Vals(a, b, c, d, e), Val(w)) == Vals(n, a, b30, c, d)
  {
    RolledVal5(a, a5);
    RolledVal30(b, b30);
    ChosenVal(t, b, c, d, f);
    SumOfVals(t, a5, f, e, w, n);
    SteppedIs(t, Vals(a, b, c, d, e), Val(w), Val(a5), Val(f), Val(n), Val(b30));
  }

  predicate IsNext(p: bv32, q: bv32, r: bv32, s: bv32, n: bv32) {
    n == ((p ^ q ^ r ^ s) << 1) | ((p ^ q ^ r ^ s) >> 31)
  }

  lemma NextParts(p: bv32, q: bv32, r: bv32, s: bv32, n: bv32) returns (x: bv32)
    requires IsNext(p, q, r, s, n)
    ensures IsParityOfFour(p, q, r, s, x) && IsRolled1(x, n)
  {
    x := p ^ q ^ r ^ s;
  }

  lemma NextVal(p: bv32, q: bv32, r: bv32, s: bv32, n: bv32)
    requires IsNext(p, q, r, s, n)
    ensures Val(n) == NextOf(Val(p), Val(q), Val(r), Val(s))
  {
    var x := NextParts(p, q, r, s, n);
    FourVal(p, q, r, s, x, n);
  }

  /** One block: the registers after each round, the words of the schedule, and what numbers bit vectors stand for;
      a calculation need not look into any of them. */
  datatype Calculation = Calculation(val: bv32 -> Word, registers: nat -> Registers, words: nat -> Word) {
    ghost predicate Reading() {
      forall x {:trigger Val(x)} :: val(x) == Val(x)
    }

    ghost predicate StepsAt(t: nat) {
      registers(t + 1) == Stepped(t, registers(t), words(t))
    }

    ghost predicate NextAt(t: nat)
      requires t >= 16
    {
      words(t) == NextOf(words(t - 3), words(t - 8), words(t - 14), words(t - 16))
    }

    ghost predicate Sound() {
      Reading() && (forall t :: 0 <= t < 80 ==> StepsAt(t)) && (forall t :: 16 <= t < 80 ==> NextAt(t))
    }

    /** The registers before round `t`; the last three are given as they were before their rotation. */
    predicate State(t: nat, a: bv32, b: bv32, c: bv32, d: bv32, e: bv32) {
      registers(t) == Read(a, b, ((c << 30) | (c >> 2)), ((d << 30) | (d >> 2)), ((e << 30) | (e >> 2)))
    }

    function Read(a: bv32, b: bv32, c: bv32, d: bv32, e: bv32): Registers {
      Registers(val(a), val(b), val(c), val(d), val(e))
    }

    predicate Words(t: nat, w0: bv32, w1: bv32, w2: bv32, w3: bv32,
                    w4: bv32, w5: bv32, w6: bv32, w7: bv32) {
      && words(t) == val(w0) && words(t + 1) == val(w1) && words(t + 2) == val(w2) && words(t + 3) == val(w3)
      && words(t + 4) == val(w4) && words(t + 5) == val(w5) && words(t + 6) == val(w6) && words(t + 7) == val(w7)
    }

    lemma ReadIs(a: bv32, b: bv32, c: bv32, d: bv32, e: bv32)
      requires Reading()
      ensures Read(a, b, c, d, e) == Vals(a, b, c, d, e)
    {
      assert val(a) == Val(a) && val(b) == Val(b) && val(c) == Val(c) && val(d) == Val(d) && val(e) == Val(e);
    }

    lemma StepsTo(t: nat, r: Registers, r': Registers)
      requires StepsAt(t) && registers(t) == r && r' == Stepped(t, r, words(t))
      ensures registers(t + 1) == r'
    {
    }

    lemma RoundIs(t: nat, a: bv32, b: bv32, c: bv32, d: bv32, e: bv32, w: bv32, a5: bv32, f: bv32, n: bv32, b30: bv32)
      requires Sound() && t < 80 && registers(t) == Read(a, b, c, d, e) && words(t) == val(w)
      requires IsRolled5(a, a5) && IsRolled30(b, b30) && IsChosen(t, b, c, d, f)
      requires SumIs(t, Number(a5), Number(f), Number(e), Number(w), Number(n))
      ensures registers(t + 1) == Read(n, a, b30, c, d)
    {
      assert StepsAt(t);
      ReadIs(a, b, c, d, e);
      ReadIs(n, a, b30, c, d);
      assert val(w) == Val(w);
      ValsStep(t, a, b, c, d, e, w, a5, f, n, b30);
      StepsTo(t, Vals(a, b, c, d, e), Vals(n, a, b30, c, d));
    }

    lemma OneRound(t: nat, a: bv32, b: bv32, c: bv32, d: bv32, e: bv32, w: bv32, n: bv32)
      requires Sound() && t < 80 && State(t, a, b, c, d, e) && words(t) == val(w) && RoundGives(t, a, b, c, d, e, w, n)
      ensures State(t + 1, n, a, b, c, d)
    {
      var a5, c1, d1, e1 := RoundParts(t, a, b, c, d, e, w, n);
      var f := SumsChosen(t, a5, b, c1, d1, e1, w, n);
      var b30 := ((b << 30) | (b >> 2));
      RoundIs(t, a, b, c1, d1, e1, w, a5, f, n, b30);
    }

    lemma FiveRounds(t: nat, a: bv32, b: bv32, c: bv32, d: bv32, e: bv32,
                     w0: bv32, w1: bv32, w2: bv32, w3: bv32, w4: bv32,
                     n0: bv32, n1: bv32, n2: bv32, n3: bv32, n4: bv32)
      requires Sound() && t + 5 <= 80 && State(t, a, b, c, d, e)
      requires words(t) == val(w0) && words(t + 1) == val(w1) && words(t + 2) == val(w2)
      requires words(t + 3) == val(w3) && words(t + 4) == val(w4)
      requires RoundGives(t, a, b, c, d, e, w0, n0) && RoundGives(t + 1, n0, a, b, c, d, w1, n1)
      requires RoundGives(t + 2, n1, n0, a, b, c, w2, n2) && RoundGives(t + 3, n2, n1, n0, a, b, w3, n3)
      requires RoundGives(t + 4, n3, n2, n1, n0, a, w4, n4)
      ensures State(t + 5, n4, n3, n2, n1, n0)
    {
      OneRound(t, a, b, c, d, e, w0, n0);
      OneRound(t + 1, n0, a, b, c, d, w1, n1);
      OneRound(t + 2, n1, n0, a, b, c, w2, n2);
      OneRound(t + 3, n2, n1, n0, a, b, w3, n3);
      OneRound(t + 4, n3, n2, n1, n0, a, w4, n4);
    }

    lemma WordIs(t: nat, p: bv32, q: bv32, r: bv32, s: bv32, n: bv32)
      requires Sound() && 16 <= t < 80 && Val(n) == NextOf(Val(p), Val(q), Val(r), Val(s))
      requires words(t - 3) == val(p) && words(t - 8) == val(q) && words(t - 14) == val(r) && words(t - 16) == val(s)
      ensures words(t) == val(n)
    {
      assert NextAt(t);
      assert val(p) == Val(p) && val(q) == Val(q) && val(r) == Val(r) && val(s) == Val(s) && val(n) == Val(n);
    }

    lemma OneWord(t: nat, p: bv32, q: bv32, r: bv32, s: bv32, n: bv32)
      requires Sound() && 16 <= t < 80 && IsNext(p, q, r, s, n)
      requires words(t - 3) == val(p) && words(t - 8) == val(q) && words(t - 14) == val(r) && words(t - 16) == val(s)
      ensures words(t) == val(n)
    {
      NextVal(p, q, r, s, n);
      WordIs(t, p, q, r, s, n);
    }

    lemma EightWords(t: nat, w0: bv32, w1: bv32, w2: bv32, w3: bv32, w4: bv32, w5: bv32, w6: bv32, w7: bv32,
                     v0: bv32, v1: bv32, v2: bv32, v3: bv32, v4: bv32, v5: bv32, v6: bv32, v7: bv32,
                     x0: bv32, x1: bv32, x2: bv32, x3: bv32, x4: bv32, x5: bv32, x6: bv32, x7: bv32)
      requires Sound() && t + 24 <= 80 && Words(t, w0, w1, w2, w3, w4, w5, w6, w7)
      requires Words(t + 8, v0, v1, v2, v3, v4, v5, v6, v7)
      requires IsNext(v5, v0, w2, w0, x0) && IsNext(v6, v1, w3, w1, x1)
      requires IsNext(v7, v2, w4, w2, x2) && IsNext(x0, v3, w5, w3, x3)
      requires IsNext(x1, v4, w6, w4, x4) && IsNext(x2, v5, w7, w5, x5)
      requires IsNext(x3, v6, v0, w6, x6) && IsNext(x4, v7, v1, w7, x7)
      ensures Words(t + 16, x0, x1, x2, x3, x4, x5, x6, x7)
    {
      OneWord(t + 16, v5, v0, w2, w0, x0);
      OneWord(t + 17, v6, v1, w3, w1, x1);
      OneWord(t + 18, v7, v2, w4, w2, x2);
      OneWord(t + 19, x0, v3, w5, w3, x3);
      OneWord(t + 20, x1, v4, w6, w4, x4);
      OneWord(t + 21, x2, v5, w7, w5, x5);
      OneWord(t + 22, x3, v6, v0, w6, x6);
      OneWord(t + 23, x4, v7, v1, w7, x7);
    }

    /** Words and registers that are known as numbers. */
    lemma WordsGiven(t: nat, w0: bv32, w1: bv32, w2: bv32, w3: bv32, w4: bv32, w5: bv32, w6: bv32, w7: bv32)
      requires Reading()
      requires words(t) == Number(w0) && words(t + 1) == Number(w1) && words(t + 2) == Number(w2)
      requires words(t + 3) == Number(w3) && words(t + 4) == Number(w4) && words(t + 5) == Number(w5)
      requires words(t + 6) == Number(w6) && words(t + 7) == Number(w7)
      ensures Words(t, w0, w1, w2, w3, w4, w5, w6, w7)
    {
      NumbersRead(w0, w1, w2, w3);
      NumbersRead(w4, w5, w6, w7);
    }

    lemma NumbersRead(a: bv32, b: bv32, c: bv32, d: bv32)
      requires Reading()
      ensures val(a) == Number(a) && val(b) == Number(b) && val(c) == Number(c) && val(d) == Number(d)
    {
      NumberIs(a);
      NumberIs(b);
      NumberIs(c);
      NumberIs(d);
    }

    predicate Holds(t: nat, a: bv32, b: bv32, c: bv32, d: bv32, e: bv32) {
      && registers(t).a == Number(a) && registers(t).b == Number(b) && registers(t).c == Number(c)
      && registers(t).d == Number(d) && registers(t).e == Number(e)
    }

    lemma HoldsIsRead(t: nat, a: bv32, b: bv32, c: bv32, d: bv32, e: bv32)
      requires Reading()
      ensures Holds(t, a, b, c, d, e) <==> registers(t) == Read(a, b, c, d, e)
    {
      NumbersRead(a, b, c, d);
      NumbersRead(b, c, d, e);
    }
  }

  /** The calculation of one block. */
  function Of(h: Registers, block: Block): Calculation {
    var words := ScheduleWords(block);
    Calculation(Val, (t: nat) => if t <= 80 then Rounds(words, h, t) else h, (t: nat) => if t < 80 then words[t] else 0)
  }

  lemma RoundsStep(words: Words, h: Registers, t: nat)
    requires t < 80
    ensures Rounds(words, h, t + 1) == Stepped(t, Rounds(words, h, t), words[t])
  {
  }

  lemma OfSound(h: Registers, block: Block)
    ensures Of(h, block).Sound()
  {
    var k, words := Of(h, block), ScheduleWords(block);
    ScheduleWordsStep(block);
    forall t: nat | t < 80 ensures k.StepsAt(t) {
      RoundsStep(words, h, t);
    }
    forall t: nat | 16 <= t < 80 ensures k.NextAt(t) {
      assert StepAt(words, t);
    }
  }

  lemma OfStarts(h: Registers, block: Block, t: nat)
    requires t < 16
    ensures Of(h, block).words(t) == WordAt(block, t) && Of(h, block).registers(0) == h
  {
  }

  lemma AllStart(h: Registers, block: Block)
    ensures Of(h, block).registers(0) == h && forall t :: 0 <= t < 16 ==> Of(h, block).words(t) == WordAt(block, t)
  {
    forall t: nat | t < 16 ensures Of(h, block).words(t) == WordAt(block, t) {
      OfStarts(h, block, t);
    }
    OfStarts(h, block, 0);
  }

  lemma OfEnds(h: Registers, block: Block, last: nat)
    requires last == 80
    ensures Of(h, block).registers(last) == Rounds(ScheduleWords(block), h, last)
  {
  }

  /** A sum of two words, reduced. */
  predicate Adds(x: nat, y: nat, o: nat) {
    x + y == o || x + y == o + WORD
  }

  lemma AddsReduced(x: nat, y: nat, o: Word)
    requires Adds(x, y, o)
    ensures (x + y) % WORD == o
  {
    Reduced(x + y, o, if x + y == o then 0 else 1);
  }

  predicate AddsUp(h: Registers, r: Registers, o: Registers) {
    Adds(h.a, r.a, o.a) && Adds(h.b, r.b, o.b) && Adds(h.c, r.c, o.c) && Adds(h.d, r.d, o.d) && Adds(h.e, r.e, o.e)
  }

  lemma AllReduced(h: Registers, r: Registers, o: Registers)
    requires AddsUp(h, r, o)
    ensures o.a == (h.a + r.a) % WORD && o.b == (h.b + r.b) % WORD && o.c == (h.c + r.c) % WORD
    ensures o.d == (h.d + r.d) % WORD && o.e == (h.e + r.e) % WORD
  {
    AddsReduced(h.a, r.a, o.a);
    AddsReduced(h.b, r.b, o.b);
    AddsReduced(h.c, r.c, o.c);
    AddsReduced(h.d, r.d, o.d);
    AddsReduced(h.e, r.e, o.e);
  }

  lemma Closes(h: Registers, block: Block, last: nat, r: Registers, o: Registers)
    requires last == 80 && Rounds(ScheduleWords(block), h, last) == r && AddsUp(h, r, o)
    ensures Compress(h, block) == o
  {
    AllReduced(h, r, o);
  }

  /** The registers after all rounds, added to those before, are the result for the block. */
  lemma Compressed(h: Registers, block: Block, last: nat, a: bv32, b: bv32, c: bv32, d: bv32, e: bv32, o: Registers)
    requires last == 80 && Of(h, block).registers(last) == Of(h, block).Read(a, b, c, d, e)
    requires Adds(h.a, Number(a), o.a) && Adds(h.b, Number(b), o.b) && Adds(h.c, Number(c), o.c)
    requires Adds(h.d, Number(d), o.d) && Adds(h.e, Number(e), o.e)
    ensures Compress(h, block) == o
  {
    var k := Of(h, block);
    OfSound(h, block);
    k.HoldsIsRead(last, a, b, c, d, e);
    OfEnds(h, block, last);
    Closes(h, block, last, k.registers(last), o);
  }
}
