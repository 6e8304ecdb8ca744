/** Bitwise operations on natural numbers of any width. */
module Bits {

  datatype Op = AndOp | OrOp | XorOp

  /** The operation on single bits. */
  function Bit(op: Op, a: nat, b: nat): (r: nat)
    requires a < 2 && b < 2
    ensures r < 2 && (a == 0 && b == 0 ==> r == 0)
  {
    match op
    case AndOp => if a == 1 && b == 1 then 1 else 0
    case OrOp => if a == 1 || b == 1 then 1 else 0
    case XorOp => if a == b then 0 else 1
  }

  function Bitwise(op: Op, x: nat, y: nat): nat
    decreases x + y
  {
    if x == 0 && y == 0 then 0
    else Bit(op, x % 2, y % 2) + 2 * Bitwise(op, x / 2, y / 2)
  }

  function And(x: nat, y: nat): nat { Bitwise(AndOp, x, y) }
  function Or(x: nat, y: nat): nat { Bitwise(OrOp, x, y) }
  function Xor(x: nat, y: nat): nat { Bitwise(XorOp, x, y) }

  function Power(k: nat): (p: nat)
    ensures p > 0
  {
    if k == 0 then 1 else 2 * Power(k - 1)
  }

  /** The complement of a number of `k` bits. */
  function Not(x: nat, k: nat): nat
    requires x < Power(k)
  {
    Power(k) - 1 - x
  }

  lemma Halves(b: nat, r: nat)
    requires b < 2
    ensures (b + 2 * r) % 2 == b && (b + 2 * r) / 2 == r
  {
  }

  lemma {:induction false} Unfold(op: Op, x: nat, y: nat)
    ensures Bitwise(op, x, y) == Bit(op, x % 2, y % 2) + 2 * Bitwise(op, x / 2, y / 2)
    ensures Bitwise(op, x, y) % 2 == Bit(op, x % 2, y % 2)
    ensures Bitwise(op, x, y) / 2 == Bitwise(op, x / 2, y / 2)
  {
    if x == 0 && y == 0 {
      assert Bitwise(op, x / 2, y / 2) == 0;
    }
    Halves(Bit(op, x % 2, y % 2), Bitwise(op, x / 2, y / 2));
  }

  lemma MultipleIsFar(m: nat, d: int)
    ensures d >= 1 ==> m * d >= m
    ensures d <= -1 ==> m * d + m <= 0
  {
  }

  lemma DivisionUnique(x: nat, m: nat, q: nat, r: nat)
    requires m > 0 && x == m * q + r && r < m
    ensures x / m == q && x % m == r
  {
    var d := x / m - q;
    MultipleIsFar(m, d);
    assert m * d == m * (x / m) - m * q;
  }

  /** Halving and reducing can be exchanged. */
  lemma HalfOfRemainder(x: nat, m: nat)
    requires m > 0
    ensures x % (2 * m) / 2 == x / 2 % m && x % (2 * m) % 2 == x % 2
  {
    var q, r := x / 2 / m, x / 2 % m;
    assert x / 2 == m * q + r;
    assert x == (2 * m) * q + (2 * r + x % 2);
    DivisionUnique(x, 2 * m, q, 2 * r + x % 2);
  }

  /** The low bits of the result are the result of the low bits. */
  lemma {:induction false} BitwiseLow(op: Op, x: nat, y: nat, k: nat)
    ensures Bitwise(op, x, y) % Power(k) == Bitwise(op, x % Power(k), y % Power(k))
  {
    if k > 0 {
      var m := Power(k - 1);
      var z := Bitwise(op, x, y);
      BitwiseLow(op, x / 2, y / 2, k - 1);
      Unfold(op, x, y);
      HalfOfRemainder(x, m);
      HalfOfRemainder(y, m);
      HalfOfRemainder(z, m);
      Unfold(op, x % (2 * m), y % (2 * m));
    }
  }

  lemma {:induction false} BitwiseBelow(op: Op, x: nat, y: nat, k: nat)
    requires x < Power(k) && y < Power(k)
    ensures Bitwise(op, x, y) < Power(k)
  {
    if k > 0 {
      Unfold(op, x, y);
      BitwiseBelow(op, x / 2, y / 2, k - 1);
    }
  }

  /** Numbers without common bits: the disjunction is the sum. */
  lemma {:induction false} OrOfDisjoint(x: nat, y: nat, k: nat)
    requires y < Power(k)
    ensures Or(x * Power(k), y) == x * Power(k) + y
  {
    if k == 0 {
      assert Power(k) == 1 && y == 0 && x * Power(k) == x;
      OrZero(x);
    } else {
      var m := Power(k - 1);
      assert x * Power(k) == 2 * (x * m);
      OrOfDisjoint(x, y / 2, k - 1);
      Unfold(OrOp, 2 * (x * m), y);
    }
  }

  lemma {:induction false} OrZero(x: nat)
    ensures Or(x, 0) == x
  {
    if x > 0 {
      Unfold(OrOp, x, 0);
      OrZero(x / 2);
    }
  }

  lemma {:induction false} Commutes(op: Op, x: nat, y: nat)
    ensures Bitwise(op, x, y) == Bitwise(op, y, x)
    decreases x + y
  {
    if x > 0 || y > 0 {
      Commutes(op, x / 2, y / 2);
    }
  }

  lemma {:induction false} XorZero(x: nat)
    ensures Xor(x, 0) == x && Xor(0, x) == x
  {
    if x > 0 {
      XorZero(x / 2);
    }
  }

  /** Choosing bits of `y` or `z` by those of `x`: the short formula is the textbook one. */
  lemma {:induction false} ChoiceRewritten(x: nat, y: nat, z: nat, k: nat)
    requires x < Power(k) && y < Power(k) && z < Power(k)
    ensures Xor(z, And(x, Xor(y, z))) == Or(And(x, y), And(Not(x, k), z))
  {
    if k > 0 {
      var n := Not(x, k);
      assert n % 2 == 1 - x % 2 && n / 2 == Not(x / 2, k - 1);
      ChoiceRewritten(x / 2, y / 2, z / 2, k - 1);
      Unfold(XorOp, y, z);
      Unfold(AndOp, x, Xor(y, z));
      Unfold(XorOp, z, And(x, Xor(y, z)));
      Unfold(AndOp, x, y);
      Unfold(AndOp, n, z);
      Unfold(OrOp, And(x, y), And(n, z));
    }
  }

  /** Majority with four operators is majority with five. */
  lemma {:induction false} MajorityRewritten(x: nat, y: nat, z: nat)
    ensures Or(And(x, y), And(z, Or(x, y))) == Or(Or(And(x, y), And(x, z)), And(y, z))
    decreases x + y + z
  {
    if x + y + z > 0 {
      MajorityRewritten(x / 2, y / 2, z / 2);
      Unfold(AndOp, x, y);
      Unfold(OrOp, x, y);
      Unfold(AndOp, z, Or(x, y));
      Unfold(OrOp, And(x, y), And(z, Or(x, y)));
      Unfold(AndOp, x, z);
      Unfold(AndOp, y, z);
      Unfold(OrOp, And(x, y), And(x, z));
      Unfold(OrOp, Or(And(x, y), And(x, z)), And(y, z));
    }
  }
}
