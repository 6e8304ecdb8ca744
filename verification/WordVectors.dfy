/** Words of 32 bits as the verifier's bit vectors, for calculating with given numbers: what the operations of the
    standard are on them. */
module WordVectors {
  import opened Bits
  import opened Sha1Standard

  // ---------------------------------------------------------------- octets

  function Num(b: bv8): (n: Octet) {
    b as nat
  }

  function Combined(op: Op, x: bv8, y: bv8): bv8 {
    match op
    case AndOp => x & y
    case OrOp => x | y
    case XorOp => x ^ y
  }

  lemma OctetHalved(x: bv8)
    ensures Num(x) % 2 == (if x & 1 == 1 then 1 else 0) && Num(x) / 2 == Num(x >> 1)
    ensures x == 0 <==> Num(x) == 0
  {
  }

  lemma CombinedHalved(op: Op, x: bv8, y: bv8)
    ensures Combined(op, x, y) & 1 == Combined(op, x & 1, y & 1)
    ensures Combined(op, x, y) >> 1 == Combined(op, x >> 1, y >> 1)
  {
  }

  lemma CombinedBit(op: Op, x: bv8, y: bv8)
    requires x <= 1 && y <= 1
    ensures Combined(op, x, y) == if Bit(op, if x == 1 then 1 else 0, if y == 1 then 1 else 0) == 1 then 1 else 0
  {
  }

  lemma CombinedParts(op: Op, x: bv8, y: bv8)
    ensures Num(Combined(op, x, y)) % 2 == Bit(op, Num(x) % 2, Num(y) % 2)
    ensures Num(Combined(op, x, y)) / 2 == Num(Combined(op, x >> 1, y >> 1))
  {
    OctetHalved(x);
    OctetHalved(y);
    OctetHalved(Combined(op, x, y));
    CombinedHalved(op, x, y);
    assert x & 1 <= 1 && y & 1 <= 1;
    CombinedBit(op, x & 1, y & 1);
  }

  /** The operations on bit vectors are those on numbers. */
  lemma {:induction false} CombinedIs(op: Op, x: bv8, y: bv8)
    ensures Num(Combined(op, x, y)) == Bitwise(op, Num(x), Num(y))
    decreases Num(x) + Num(y)
  {
    OctetHalved(x);
    OctetHalved(y);
    if Num(x) == 0 && Num(y) == 0 {
      assert Combined(op, 0, 0) == 0;
    } else {
      CombinedParts(op, x, y);
      Unfold(op, Num(x), Num(y));
      CombinedIs(op, x >> 1, y >> 1);
    }
  }

  lemma FlippedIs(x: bv8)
    ensures Num(!x) == 0xFF - Num(x)
  {
  }

  lemma DisjointAdd(p: bv8, q: bv8)
    requires p & q == 0
    ensures Num(p | q) == Num(p) + Num(q)
  {
  }

  // ---------------------------------------------------------------- words, octet by octet

  /** A number moved up by some bits. */
  function Moved(a: nat, k: nat): nat {
    if k == 0 then a else 2 * Moved(a, k - 1)
  }

  lemma HalvesJoined(op: Op, x: nat, y: nat, b: nat, d: nat, high: nat)
    requires x % 2 == b % 2 && y % 2 == d % 2 && Bitwise(op, x / 2, y / 2) == high + Bitwise(op, b / 2, d / 2)
    ensures Bitwise(op, x, y) == 2 * high + Bitwise(op, b, d)
  {
    Unfold(op, x, y);
    Unfold(op, b, d);
  }

  lemma MovedHalf(a: nat, b: nat, k: nat, x: nat)
    requires k > 0 && x == Moved(a, k) + b
    ensures x % 2 == b % 2 && x / 2 == Moved(a, k - 1) + b / 2
  {
    Halves(b % 2, Moved(a, k - 1) + b / 2);
  }

  lemma {:induction false} MovedHalves(op: Op, a: nat, b: nat, c: nat, d: nat, k: nat)
    requires b < Power(k) && d < Power(k)
    ensures Bitwise(op, Moved(a, k) + b, Moved(c, k) + d) == Moved(Bitwise(op, a, c), k) + Bitwise(op, b, d)
  {
    if k == 0 {
      assert Bitwise(op, 0, 0) == 0;
    } else {
      var x, y := Moved(a, k) + b, Moved(c, k) + d;
      MovedHalf(a, b, k, x);
      MovedHalf(c, d, k, y);
      MovedHalves(op, a, b / 2, c, d / 2, k - 1);
      HalvesJoined(op, x, y, b, d, Moved(Bitwise(op, a, c), k - 1));
    }
  }

  lemma MovedByOctet(a: nat, k: nat)
    requires k == 8
    ensures Moved(a, k) == 0x100 * a && Power(k) == 0x100
  {
    assert Moved(a, 1) == 2 * a;
    assert Moved(a, 2) == 4 * a;
    assert Moved(a, 4) == 4 * Moved(a, 2);
    assert Moved(a, 6) == 4 * Moved(a, 4);
    assert Moved(a, 8) == 4 * Moved(a, 6);
  }

  lemma OctetJoined(op: Op, a: nat, b: Octet, c: nat, d: Octet, k: nat)
    requires k == 8
    ensures Bitwise(op, 0x100 * a + b, 0x100 * c + d) == 0x100 * Bitwise(op, a, c) + Bitwise(op, b, d)
  {
    MovedByOctet(a, k);
    MovedByOctet(c, k);
    MovedByOctet(Bitwise(op, a, c), k);
    MovedHalves(op, a, b, c, d, k);
  }

  /** The relation holds of numbers if it holds of their last octets and of the rest. */
  ghost predicate Splits(g: (nat, nat, nat) -> bool, a: nat, b: Octet, c: nat, d: Octet, p: nat, q: nat) {
    g(a, c, p) && g(b, d, q) ==> g(0x100 * a + b, 0x100 * c + d, 0x100 * p + q)
  }

  ghost predicate OctetWise(g: (nat, nat, nat) -> bool) {
    forall a: nat, b: Octet, c: nat, d: Octet, p: nat, q: nat :: Splits(g, a, b, c, d, p, q)
  }

  lemma BigEndianNested(b0: nat, b1: nat, b2: nat, b3: nat, h1: nat, h2: nat)
    requires h1 == 0x100 * b0 + b1 && h2 == 0x100 * h1 + b2
    ensures BigEndian(b0, b1, b2, b3) == 0x100 * h2 + b3
  {
  }

  lemma FourOctets(g: (nat, nat, nat) -> bool, x0: Octet, x1: Octet, x2: Octet, x3: Octet,
                   y0: Octet, y1: Octet, y2: Octet, y3: Octet, z0: nat, z1: nat, z2: nat, z3: nat)
    requires OctetWise(g) && g(x0, y0, z0) && g(x1, y1, z1) && g(x2, y2, z2) && g(x3, y3, z3)
    ensures g(BigEndian(x0, x1, x2, x3), BigEndian(y0, y1, y2, y3), BigEndian(z0, z1, z2, z3))
  {
    var x, y, z := 0x100 * x0 + x1, 0x100 * y0 + y1, 0x100 * z0 + z1;
    var x', y', z' := 0x100 * x + x2, 0x100 * y + y2, 0x100 * z + z2;
    assert Splits(g, x0, x1, y0, y1, z0, z1);
    assert Splits(g, x, x2, y, y2, z, z2);
    assert Splits(g, x', x3, y', y3, z', z3);
    BigEndianNested(x0, x1, x2, x3, x, x');
    BigEndianNested(y0, y1, y2, y3, y, y');
    BigEndianNested(z0, z1, z2, z3, z, z');
  }

  function Gives(op: Op): (nat, nat, nat) -> bool {
    (x: nat, y: nat, z: nat) => Bitwise(op, x, y) == z
  }

  lemma GivesOctetWise(op: Op)
    ensures OctetWise(Gives(op))
  {
    forall a: nat, b: Octet, c: nat, d: Octet, p: nat, q: nat ensures Splits(Gives(op), a, b, c, d, p, q) {
      OctetJoined(op, a, b, c, d, 8);
    }
  }

  lemma WordsCombined(op: Op, x0: Octet, x1: Octet, x2: Octet, x3: Octet, y0: Octet, y1: Octet, y2: Octet, y3: Octet)
    ensures Bitwise(op, BigEndian(x0, x1, x2, x3), BigEndian(y0, y1, y2, y3))
         == BigEndian(Bitwise(op, x0, y0), Bitwise(op, x1, y1), Bitwise(op, x2, y2), Bitwise(op, x3, y3))
  {
    GivesOctetWise(op);
    FourOctets(Gives(op), x0, x1, x2, x3, y0, y1, y2, y3,
               Bitwise(op, x0, y0), Bitwise(op, x1, y1), Bitwise(op, x2, y2), Bitwise(op, x3, y3));
  }

  function Byte0(x: bv32): bv8 { ((x >> 24) & 0xFF) as bv8 }
  function Byte1(x: bv32): bv8 { ((x >> 16) & 0xFF) as bv8 }
  function Byte2(x: bv32): bv8 { ((x >> 8) & 0xFF) as bv8 }
  function Byte3(x: bv32): bv8 { (x & 0xFF) as bv8 }

  function Join(b0: Octet, b1: Octet, b2: Octet, b3: Octet): Word {
    BigEndian(b0, b1, b2, b3)
  }

  /** The number a bit vector stands for. */
  function Val(x: bv32): Word {
    Join(Num(Byte0(x)), Num(Byte1(x)), Num(Byte2(x)), Num(Byte3(x)))
  }

  /** The same in one formula, which is worked out at once for a given bit vector. */
  function Number(x: bv32): nat {
    ((x >> 24) as bv8 as nat) * 0x100_0000 + (((x >> 16) & 0xFF) as bv8 as nat) * 0x1_0000
    + (((x >> 8) & 0xFF) as bv8 as nat) * 0x100 + ((x & 0xFF) as bv8 as nat)
  }

  lemma TopByte(x: bv32)
    ensures (x >> 24) as bv8 == Byte0(x)
  {
  }

  lemma NumberIs(x: bv32)
    ensures Number(x) == Val(x)
  {
    TopByte(x);
  }

  // ---------------------------------------------------------------- operations on words

  predicate IsAnd(x: bv32, y: bv32, z: bv32) { z == x & y }
  predicate IsOr(x: bv32, y: bv32, z: bv32) { z == x | y }
  predicate IsXor(x: bv32, y: bv32, z: bv32) { z == x ^ y }
  predicate IsNot(x: bv32, z: bv32) { z == !x }

  lemma AndBytes(x: bv32, y: bv32, z: bv32)
    requires IsAnd(x, y, z)
    ensures Byte0(z) == Byte0(x) & Byte0(y) && Byte1(z) == Byte1(x) & Byte1(y)
    ensures Byte2(z) == Byte2(x) & Byte2(y) && Byte3(z) == Byte3(x) & Byte3(y)
  {
  }

  lemma AndVal(x: bv32, y: bv32, z: bv32)
    requires IsAnd(x, y, z)
    ensures Val(z) == And(Val(x), Val(y))
  {
    AndBytes(x, y, z);
    CombinedIs(AndOp, Byte0(x), Byte0(y));
    CombinedIs(AndOp, Byte1(x), Byte1(y));
    CombinedIs(AndOp, Byte2(x), Byte2(y));
    CombinedIs(AndOp, Byte3(x), Byte3(y));
    WordsCombined(AndOp, Num(Byte0(x)), Num(Byte1(x)), Num(Byte2(x)), Num(Byte3(x)),
                  Num(Byte0(y)), Num(Byte1(y)), Num(Byte2(y)), Num(Byte3(y)));
  }

  lemma OrBytes(x: bv32, y: bv32, z: bv32)
    requires IsOr(x, y, z)
    ensures Byte0(z) == Byte0(x) | Byte0(y) && Byte1(z) == Byte1(x) | Byte1(y)
    ensures Byte2(z) == Byte2(x) | Byte2(y) && Byte3(z) == Byte3(x) | Byte3(y)
  {
  }

  lemma OrVal(x: bv32, y: bv32, z: bv32)
    requires IsOr(x, y, z)
    ensures Val(z) == Or(Val(x), Val(y))
  {
    OrBytes(x, y, z);
    CombinedIs(OrOp, Byte0(x), Byte0(y));
    CombinedIs(OrOp, Byte1(x), Byte1(y));
    CombinedIs(OrOp, Byte2(x), Byte2(y));
    CombinedIs(OrOp, Byte3(x), Byte3(y));
    WordsCombined(OrOp, Num(Byte0(x)), Num(Byte1(x)), Num(Byte2(x)), Num(Byte3(x)),
                  Num(Byte0(y)), Num(Byte1(y)), Num(Byte2(y)), Num(Byte3(y)));
  }

  lemma XorBytes(x: bv32, y: bv32, z: bv32)
    requires IsXor(x, y, z)
    ensures Byte0(z) == Byte0(x) ^ Byte0(y) && Byte1(z) == Byte1(x) ^ Byte1(y)
    ensures Byte2(z) == Byte2(x) ^ Byte2(y) && Byte3(z) == Byte3(x) ^ Byte3(y)
  {
  }

  lemma XorVal(x: bv32, y: bv32, z: bv32)
    requires IsXor(x, y, z)
    ensures Val(z) == Xor(Val(x), Val(y))
  {
    XorBytes(x, y, z);
    CombinedIs(XorOp, Byte0(x), Byte0(y));
    CombinedIs(XorOp, Byte1(x), Byte1(y));
    CombinedIs(XorOp, Byte2(x), Byte2(y));
    CombinedIs(XorOp, Byte3(x), Byte3(y));
    WordsCombined(XorOp, Num(Byte0(x)), Num(Byte1(x)), Num(Byte2(x)), Num(Byte3(x)),
                  Num(Byte0(y)), Num(Byte1(y)), Num(Byte2(y)), Num(Byte3(y)));
  }

  lemma NotBytes(x: bv32, z: bv32)
    requires IsNot(x, z)
    ensures Byte0(z) == !Byte0(x) && Byte1(z) == !Byte1(x) && Byte2(z) == !Byte2(x) && Byte3(z) == !Byte3(x)
  {
  }

  lemma NotNums(x: bv32, z: bv32)
    requires IsNot(x, z)
    ensures Num(Byte0(z)) == 0xFF - Num(Byte0(x)) && Num(Byte1(z)) == 0xFF - Num(Byte1(x))
    ensures Num(Byte2(z)) == 0xFF - Num(Byte2(x)) && Num(Byte3(z)) == 0xFF - Num(Byte3(x))
  {
    NotBytes(x, z);
    FlippedIs(Byte0(x));
    FlippedIs(Byte1(x));
    FlippedIs(Byte2(x));
    FlippedIs(Byte3(x));
  }

  lemma NotVal(x: bv32, z: bv32)
    requires IsNot(x, z)
    ensures Val(z) == WORD - 1 - Val(x)
  {
    NotNums(x, z);
  }

  // ---------------------------------------------------------------- the functions of the rounds

  predicate IsChoice(b: bv32, c: bv32, d: bv32, f: bv32) { f == (b & c) | (!b & d) }
  predicate IsParity(b: bv32, c: bv32, d: bv32, f: bv32) { f == b ^ c ^ d }
  predicate IsMajority(b: bv32, c: bv32, d: bv32, f: bv32) { f == (b & c) | (b & d) | (c & d) }

  lemma ChoiceParts(b: bv32, c: bv32, d: bv32, f: bv32) returns (p: bv32, n: bv32, q: bv32)
    requires IsChoice(b, c, d, f)
    ensures IsAnd(b, c, p) && IsNot(b, n) && IsAnd(n, d, q) && IsOr(p, q, f)
  {
    p, n := b & c, !b;
    q := n & d;
  }

  lemma ParityParts(b: bv32, c: bv32, d: bv32, f: bv32) returns (p: bv32)
    requires IsParity(b, c, d, f)
    ensures IsXor(b, c, p) && IsXor(p, d, f)
  {
    p := b ^ c;
  }

  lemma MajorityParts(b: bv32, c: bv32, d: bv32, f: bv32) returns (p: bv32, q: bv32, r: bv32, s: bv32)
    requires IsMajority(b, c, d, f)
    ensures IsAnd(b, c, p) && IsAnd(b, d, q) && IsAnd(c, d, r) && IsOr(p, q, s) && IsOr(s, r, f)
  {
    p, q, r := b & c, b & d, c & d;
    s := p | q;
  }

  lemma ChoiceVal(b: bv32, c: bv32, d: bv32, f: bv32)
    requires IsChoice(b, c, d, f)
    ensures Val(f) == Or(And(Val(b), Val(c)), And(WORD - 1 - Val(b), Val(d)))
  {
    var p, n, q := ChoiceParts(b, c, d, f);
    AndVal(b, c, p);
    NotVal(b, n);
    AndVal(n, d, q);
    OrVal(p, q, f);
  }

  lemma ParityVal(b: bv32, c: bv32, d: bv32, f: bv32)
    requires IsParity(b, c, d, f)
    ensures Val(f) == Xor(Xor(Val(b), Val(c)), Val(d))
  {
    var p := ParityParts(b, c, d, f);
    XorVal(b, c, p);
    XorVal(p, d, f);
  }

  lemma MajorityVal(b: bv32, c: bv32, d: bv32, f: bv32)
    requires IsMajority(b, c, d, f)
    ensures Val(f) == Or(Or(And(Val(b), Val(c)), And(Val(b), Val(d))), And(Val(c), Val(d)))
  {
    var p, q, r, s := MajorityParts(b, c, d, f);
    AndVal(b, c, p);
    AndVal(b, d, q);
    AndVal(c, d, r);
    OrVal(p, q, s);
    OrVal(s, r, f);
  }

  predicate IsChosen(t: nat, b: bv32, c: bv32, d: bv32, f: bv32) {
    if t < 20 then IsChoice(b, c, d, f)
    else if 40 <= t < 60 then IsMajority(b, c, d, f)
    else IsParity(b, c, d, f)
  }

  /** It is the function of round `t`. */
  lemma ChosenVal(t: nat, b: bv32, c: bv32, d: bv32, f: bv32)
    requires IsChosen(t, b, c, d, f)
    ensures Val(f) == F(t, Val(b), Val(c), Val(d))
  {
    if t < 20 {
      ChoiceVal(b, c, d, f);
    } else if 40 <= t < 60 {
      MajorityVal(b, c, d, f);
    } else {
      ParityVal(b, c, d, f);
    }
  }

  // ---------------------------------------------------------------- rotations

  function Turn1(v: Word): nat { v % 0x8000_0000 * 2 + v / 0x8000_0000 }
  function Turn5(v: Word): nat { v % 0x800_0000 * 0x20 + v / 0x800_0000 }
  function Turn30(v: Word): nat { v % 4 * 0x4000_0000 + v / 4 }

  lemma Turned1(v: Word)
    ensures S1(v) == Turn1(v)
  {
    DivisionUnique(v * 2, WORD, v / 0x8000_0000, v % 0x8000_0000 * 2);
    assert Power(1) == 2;
    OrOfDisjoint(v % 0x8000_0000, v / 0x8000_0000, 1);
  }

  lemma Turned5(v: Word)
    ensures S5(v) == Turn5(v)
  {
    DivisionUnique(v * 0x20, WORD, v / 0x800_0000, v % 0x800_0000 * 0x20);
    assert Power(5) == 0x20;
    OrOfDisjoint(v % 0x800_0000, v / 0x800_0000, 5);
  }

  lemma Turned30(v: Word)
    ensures S30(v) == Turn30(v)
  {
    DivisionUnique(v * 0x4000_0000, WORD, v / 4, v % 4 * 0x4000_0000);
    assert Power(10) == 0x400 && Power(20) == 0x10_0000 && Power(30) == 0x4000_0000;
    OrOfDisjoint(v % 4, v / 4, 30);
  }

  predicate IsRolled1(x: bv32, r: bv32) { r == (x << 1) | (x >> 31) }

  lemma OctetUp1(b: bv8)
    ensures Num(b << 1) == Num(b) % 0x80 * 2
  {
  }

  lemma OctetDown7(c: bv8)
    ensures Num(c >> 7) == Num(c) / 0x80
  {
  }

  lemma OctetApart1(b: bv8, c: bv8)
    ensures (b << 1) & (c >> 7) == 0
  {
  }

  lemma OctetsRolled1(b: bv8, c: bv8)
    ensures Num((b << 1) | (c >> 7)) == Num(b) % 0x80 * 2 + Num(c) / 0x80
  {
    OctetUp1(b);
    OctetDown7(c);
    OctetApart1(b, c);
    DisjointAdd(b << 1, c >> 7);
  }

  lemma BytesRolled1(x: bv32, r: bv32)
    requires IsRolled1(x, r)
    ensures Byte0(r) == (Byte0(x) << 1) | (Byte1(x) >> 7) && Byte1(r) == (Byte1(x) << 1) | (Byte2(x) >> 7)
    ensures Byte2(r) == (Byte2(x) << 1) | (Byte3(x) >> 7) && Byte3(r) == (Byte3(x) << 1) | (Byte0(x) >> 7)
  {
  }

  lemma NumsRolled1(x: bv32, r: bv32)
    requires IsRolled1(x, r)
    ensures Num(Byte0(r)) == Num(Byte0(x)) % 0x80 * 2 + Num(Byte1(x)) / 0x80
    ensures Num(Byte1(r)) == Num(Byte1(x)) % 0x80 * 2 + Num(Byte2(x)) / 0x80
    ensures Num(Byte2(r)) == Num(Byte2(x)) % 0x80 * 2 + Num(Byte3(x)) / 0x80
    ensures Num(Byte3(r)) == Num(Byte3(x)) % 0x80 * 2 + Num(Byte0(x)) / 0x80
  {
    BytesRolled1(x, r);
    OctetsRolled1(Byte0(x), Byte1(x));
    OctetsRolled1(Byte1(x), Byte2(x));
    OctetsRolled1(Byte2(x), Byte3(x));
    OctetsRolled1(Byte3(x), Byte0(x));
  }

  lemma JoinRolled1(a: Octet, b: Octet, c: Octet, d: Octet)
    ensures Join(a % 0x80 * 2 + b / 0x80, b % 0x80 * 2 + c / 0x80,
                 c % 0x80 * 2 + d / 0x80, d % 0x80 * 2 + a / 0x80)
            == Turn1(Join(a, b, c, d))
  {
    DivisionUnique(Join(a, b, c, d), 0x8000_0000, a / 0x80, BigEndian(a % 0x80, b, c, d));
  }

  lemma RolledVal1(x: bv32, r: bv32)
    requires IsRolled1(x, r)
    ensures Val(r) == S1(Val(x))
  {
    NumsRolled1(x, r);
    JoinRolled1(Num(Byte0(x)), Num(Byte1(x)), Num(Byte2(x)), Num(Byte3(x)));
    Turned1(Val(x));
  }

  predicate IsRolled5(x: bv32, r: bv32) { r == (x << 5) | (x >> 27) }

  lemma OctetUp5(b: bv8)
    ensures Num(b << 5) == Num(b) % 8 * 0x20
  {
  }

  lemma OctetDown3(c: bv8)
    ensures Num(c >> 3) == Num(c) / 8
  {
  }

  lemma OctetApart5(b: bv8, c: bv8)
    ensures (b << 5) & (c >> 3) == 0
  {
  }

  lemma OctetsRolled5(b: bv8, c: bv8)
    ensures Num((b << 5) | (c >> 3)) == Num(b) % 8 * 0x20 + Num(c) / 8
  {
    OctetUp5(b);
    OctetDown3(c);
    OctetApart5(b, c);
    DisjointAdd(b << 5, c >> 3);
  }

  lemma BytesRolled5(x: bv32, r: bv32)
    requires IsRolled5(x, r)
    ensures Byte0(r) == (Byte0(x) << 5) | (Byte1(x) >> 3) && Byte1(r) == (Byte1(x) << 5) | (Byte2(x) >> 3)
    ensures Byte2(r) == (Byte2(x) << 5) | (Byte3(x) >> 3) && Byte3(r) == (Byte3(x) << 5) | (Byte0(x) >> 3)
  {
  }

  lemma NumsRolled5(x: bv32, r: bv32)
    requires IsRolled5(x, r)
    ensures Num(Byte0(r)) == Num(Byte0(x)) % 8 * 0x20 + Num(Byte1(x)) / 8
    ensures Num(Byte1(r)) == Num(Byte1(x)) % 8 * 0x20 + Num(Byte2(x)) / 8
    ensures Num(Byte2(r)) == Num(Byte2(x)) % 8 * 0x20 + Num(Byte3(x)) / 8
    ensures Num(Byte3(r)) == Num(Byte3(x)) % 8 * 0x20 + Num(Byte0(x)) / 8
  {
    BytesRolled5(x, r);
    OctetsRolled5(Byte0(x), Byte1(x));
    OctetsRolled5(Byte1(x), Byte2(x));
    OctetsRolled5(Byte2(x), Byte3(x));
    OctetsRolled5(Byte3(x), Byte0(x));
  }

  lemma JoinRolled5(a: Octet, b: Octet, c: Octet, d: Octet)
    ensures Join(a % 8 * 0x20 + b / 8, b % 8 * 0x20 + c / 8,
                 c % 8 * 0x20 + d / 8, d % 8 * 0x20 + a / 8)
            == Turn5(Join(a, b, c, d))
  {
    DivisionUnique(Join(a, b, c, d), 0x800_0000, a / 8, BigEndian(a % 8, b, c, d));
  }

  lemma RolledVal5(x: bv32, r: bv32)
    requires IsRolled5(x, r)
    ensures Val(r) == S5(Val(x))
  {
    NumsRolled5(x, r);
    JoinRolled5(Num(Byte0(x)), Num(Byte1(x)), Num(Byte2(x)), Num(Byte3(x)));
    Turned5(Val(x));
  }

  predicate IsRolled30(x: bv32, r: bv32) { r == (x << 30) | (x >> 2) }

  lemma OctetUp6(b: bv8)
    ensures Num(b << 6) == Num(b) % 4 * 0x40
  {
  }

  lemma OctetDown2(c: bv8)
    ensures Num(c >> 2) == Num(c) / 4
  {
  }

  lemma OctetApart6(b: bv8, c: bv8)
    ensures (b << 6) & (c >> 2) == 0
  {
  }

  lemma OctetsRolled30(b: bv8, c: bv8)
    ensures Num((b << 6) | (c >> 2)) == Num(b) % 4 * 0x40 + Num(c) / 4
  {
    OctetUp6(b);
    OctetDown2(c);
    OctetApart6(b, c);
    DisjointAdd(b << 6, c >> 2);
  }

  lemma BytesRolled30(x: bv32, r: bv32)
    requires IsRolled30(x, r)
    ensures Byte0(r) == (Byte3(x) << 6) | (Byte0(x) >> 2) && Byte1(r) == (Byte0(x) << 6) | (Byte1(x) >> 2)
    ensures Byte2(r) == (Byte1(x) << 6) | (Byte2(x) >> 2) && Byte3(r) == (Byte2(x) << 6) | (Byte3(x) >> 2)
  {
  }

  lemma NumsRolled30(x: bv32, r: bv32)
    requires IsRolled30(x, r)
    ensures Num(Byte0(r)) == Num(Byte3(x)) % 4 * 0x40 + Num(Byte0(x)) / 4
    ensures Num(Byte1(r)) == Num(Byte0(x)) % 4 * 0x40 + Num(Byte1(x)) / 4
    ensures Num(Byte2(r)) == Num(Byte1(x)) % 4 * 0x40 + Num(Byte2(x)) / 4
    ensures Num(Byte3(r)) == Num(Byte2(x)) % 4 * 0x40 + Num(Byte3(x)) / 4
  {
    BytesRolled30(x, r);
    OctetsRolled30(Byte3(x), Byte0(x));
    OctetsRolled30(Byte0(x), Byte1(x));
    OctetsRolled30(Byte1(x), Byte2(x));
    OctetsRolled30(Byte2(x), Byte3(x));
  }

  lemma JoinRolled30(a: Octet, b: Octet, c: Octet, d: Octet)
    ensures Join(d % 4 * 0x40 + a / 4, a % 4 * 0x40 + b / 4,
                 b % 4 * 0x40 + c / 4, c % 4 * 0x40 + d / 4)
            == Turn30(Join(a, b, c, d))
  {
    DivisionUnique(Join(a, b, c, d), 4, a * 0x40_0000 + b * 0x4000 + c * 0x40 + d / 4, d % 4);
  }

  lemma RolledVal30(x: bv32, r: bv32)
    requires IsRolled30(x, r)
    ensures Val(r) == S30(Val(x))
  {
    NumsRolled30(x, r);
    JoinRolled30(Num(Byte0(x)), Num(Byte1(x)), Num(Byte2(x)), Num(Byte3(x)));
    Turned30(Val(x));
  }

  // ---------------------------------------------------------------- words of the schedule

  predicate IsParityOfFour(a: bv32, b: bv32, c: bv32, d: bv32, x: bv32) { x == a ^ b ^ c ^ d }

  lemma FourParts(a: bv32, b: bv32, c: bv32, d: bv32, x: bv32) returns (p: bv32)
    requires IsParityOfFour(a, b, c, d, x)
    ensures IsParity(a, b, c, p) && IsXor(p, d, x)
  {
    p := a ^ b ^ c;
  }

  lemma FourVal(a: bv32, b: bv32, c: bv32, d: bv32, x: bv32, r: bv32)
    requires IsParityOfFour(a, b, c, d, x) && IsRolled1(x, r)
    ensures Xor(Xor(Xor(Val(a), Val(b)), Val(c)), Val(d)) == Val(x) && Val(r) == S1(Val(x))
  {
    var p := FourParts(a, b, c, d, x);
    ParityVal(a, b, c, p);
    XorVal(p, d, x);
    RolledVal1(x, r);
  }
}
