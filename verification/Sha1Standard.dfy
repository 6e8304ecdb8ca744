/** SHA-1 as FIPS 180-1 defines it, and HMAC as RFC 2104 does. */
module Sha1Standard {

  import opened Bits

  const WORD: nat := 0x1_0000_0000

  type Octet = n: nat | n < 0x100
  type Word = n: nat | n < WORD

  lemma WordBits()
    ensures Power(32) == WORD && Power(24) == 0x100_0000 && Power(16) == 0x1_0000 && Power(8) == 0x100
  {
    assert Power(8) == 0x100;
    assert Power(16) == 0x1_0000;
    assert Power(24) == 0x100_0000;
  }

  lemma OrIsWord(x: Word, y: Word)
    ensures Or(x, y) < WORD
  {
    WordBits();
    BitwiseBelow(OrOp, x, y, 32);
  }

  lemma XorIsWord(x: Word, y: Word)
    ensures Xor(x, y) < WORD
  {
    WordBits();
    BitwiseBelow(XorOp, x, y, 32);
  }

  function XorWord(x: Word, y: Word): Word {
    XorIsWord(x, y);
    Xor(x, y)
  }

  /** Circular left shifts (section 3). */
  function S1(x: Word): Word {
    OrIsWord(x * 2 % WORD, x / 0x8000_0000);
    Or(x * 2 % WORD, x / 0x8000_0000)
  }

  function S5(x: Word): Word {
    OrIsWord(x * 0x20 % WORD, x / 0x800_0000);
    Or(x * 0x20 % WORD, x / 0x800_0000)
  }

  function S30(x: Word): Word {
    OrIsWord(x * 0x4000_0000 % WORD, x / 4);
    Or(x * 0x4000_0000 % WORD, x / 4)
  }

  /** Functions and constants used (sections 5 and 6). */
  function F(t: nat, b: Word, c: Word, d: Word): nat {
    if t < 20 then Or(And(b, c), And(WORD - 1 - b, d))
    else if t < 40 then Xor(Xor(b, c), d)
    else if t < 60 then Or(Or(And(b, c), And(b, d)), And(c, d))
    else Xor(Xor(b, c), d)
  }

  function K(t: nat): Word {
    if t < 20 then 0x5A827999
    else if t < 40 then 0x6ED9EBA1
    else if t < 60 then 0x8F1BBCDC
    else 0xCA62C1D6
  }

  lemma PowerOf60()
    ensures Power(60) == 0x1000_0000_0000_0000
  {
    assert Power(10) == 0x400;
    assert Power(20) == 0x10_0000;
    assert Power(30) == 0x4000_0000;
    assert Power(40) == 0x100_0000_0000;
    assert Power(50) == 0x4_0000_0000_0000;
  }

  /** The constants are the square roots of 2, 3, 5 and 10, in units of 2^-30. */
  lemma RoundConstants(t: nat)
    ensures var n := if t < 20 then 2 else if t < 40 then 3 else if t < 60 then 5 else 10;
            K(t) * K(t) <= n * Power(60) < (K(t) + 1) * (K(t) + 1)
  {
    PowerOf60();
  }

  datatype Registers = Registers(a: Word, b: Word, c: Word, d: Word, e: Word)

  const INITIAL: Registers := Registers(0x67452301, 0xEFCDAB89, 0x98BADCFE, 0x10325476, 0xC3D2E1F0)

  type Block = b: seq<Octet> | |b| == 64 witness seq(64, _ => 0)

  function BigEndian(b0: nat, b1: nat, b2: nat, b3: nat): nat {
    b0 * 0x100_0000 + b1 * 0x1_0000 + b2 * 0x100 + b3
  }

  function WordAt(block: Block, i: nat): Word
    requires i < 16
  {
    BigEndian(block[4 * i], block[4 * i + 1], block[4 * i + 2], block[4 * i + 3])
  }

  /** The 80-word sequence of section 7, steps a and b. */
  function Schedule(block: Block, t: nat): Word {
    if t < 16 then WordAt(block, t)
    else S1(XorWord(XorWord(XorWord(Schedule(block, t - 3), Schedule(block, t - 8)), Schedule(block, t - 14)),
                    Schedule(block, t - 16)))
  }

  type Words = w: seq<Word> | |w| == 80 witness seq(80, _ => 0)

  function ScheduleWords(block: Block): Words {
    seq(80, t requires 0 <= t => Schedule(block, t))
  }

  /** The registers after `t` rounds (section 7, steps c and d). */
  function Rounds(words: Words, h: Registers, t: nat): Registers
    requires t <= 80
  {
    if t == 0 then h
    else
      var r := Rounds(words, h, t - 1);
      Registers((S5(r.a) + F(t - 1, r.b, r.c, r.d) + r.e + words[t - 1] + K(t - 1)) % WORD, r.a, S30(r.b), r.c, r.d)
  }

  /** One block (section 7, step e). */
  function Compress(h: Registers, block: Block): Registers {
    var r := Rounds(ScheduleWords(block), h, 80);
    Registers((h.a + r.a) % WORD, (h.b + r.b) % WORD, (h.c + r.c) % WORD, (h.d + r.d) % WORD, (h.e + r.e) % WORD)
  }

  function BlockAt(data: seq<Octet>, i: nat): Block
    requires 64 * i + 64 <= |data|
  {
    data[64 * i..64 * i + 64]
  }

  /** Chaining over the first `blocks` blocks of a message. */
  function Chained(step: (Registers, Block) -> Registers, data: seq<Octet>, blocks: nat): Registers
    requires 64 * blocks <= |data|
  {
    if blocks == 0 then INITIAL
    else step(Chained(step, data, blocks - 1), BlockAt(data, blocks - 1))
  }

  function Digested(data: seq<Octet>, blocks: nat): Registers
    requires 64 * blocks <= |data|
  {
    Chained(Compress, data, blocks)
  }

  function Zeros(n: nat): seq<Octet> {
    seq(n, _ => 0)
  }

  /** Octet `i` of a number, the least significant one being octet 0. */
  function OctetOf(n: nat, i: nat): Octet
    requires i < 8
  {
    n / Power256(i) % 256
  }

  function Power256(i: nat): (p: nat)
    ensures p > 0
  {
    if i == 0 then 1 else 256 * Power256(i - 1)
  }

  /** The length of the message in bits, as two words of four octets, high word first. */
  function LengthField(length: nat): (r: seq<Octet>)
    ensures |r| == 8
  {
    seq(8, i requires 0 <= i < 8 => OctetOf(8 * length, 7 - i))
  }

  function PaddingLength(length: nat): (n: nat)
    ensures 1 <= n <= 64 && (length + n) % 64 == 56
  {
    if length % 64 < 56 then 56 - length % 64 else 120 - length % 64
  }

  /** Message padding (section 4): a one bit, zeros, the length. */
  function Padded(message: seq<Octet>): (r: seq<Octet>)
    ensures |r| % 64 == 0
  {
    message + [0x80] + Zeros(PaddingLength(|message|) - 1) + LengthField(|message|)
  }

  function WordOctets(w: Word): seq<Octet> {
    [w / 0x100_0000, w / 0x1_0000 % 0x100, w / 0x100 % 0x100, w % 0x100]
  }

  function Sha1(message: seq<Octet>): (r: seq<Octet>)
    ensures |r| == 20
  {
    var data := Padded(message);
    var h := Digested(data, |data| / 64);
    WordOctets(h.a) + WordOctets(h.b) + WordOctets(h.c) + WordOctets(h.d) + WordOctets(h.e)
  }

  // ---------------------------------------------------------------- HMAC

  /** The key made 64 octets long: hashed if it is longer, then filled up with zeros (RFC 2104, section 2). */
  function KeyBlock(key: seq<Octet>): (r: seq<Octet>)
    ensures |r| == 64
  {
    var k := if |key| > 64 then Sha1(key) else key;
    k + Zeros(64 - |k|)
  }

  lemma XorIsOctet(x: Octet, y: Octet)
    ensures Xor(x, y) < 0x100
  {
    assert Power(8) == 0x100;
    BitwiseBelow(XorOp, x, y, 8);
  }

  function XorOctet(x: Octet, y: Octet): Octet {
    XorIsOctet(x, y);
    Xor(x, y)
  }

  function XorEach(k: seq<Octet>, x: Octet): (r: seq<Octet>)
    ensures |r| == |k|
  {
    seq(|k|, i requires 0 <= i < |k| => XorOctet(k[i], x))
  }

  function Hmac(key: seq<Octet>, text: seq<Octet>): seq<Octet> {
    Sha1(XorEach(KeyBlock(key), 0x5C) + Sha1(XorEach(KeyBlock(key), 0x36) + text))
  }

  /** A key longer than a block can be replaced by its digest, and a key shorter than one be followed by zeros. */
  lemma KeysAlike(key: seq<Octet>, text: seq<Octet>)
    ensures |key| > 64 ==> Hmac(key, text) == Hmac(Sha1(key), text)
    ensures |key| < 64 ==> Hmac(key, text) == Hmac(key + [0], text)
    ensures |key| == 64 ==> KeyBlock(key) == key
  {
    if |key| < 64 {
      assert KeyBlock(key + [0]) == KeyBlock(key);
    } else if |key| > 64 {
      assert KeyBlock(Sha1(key)) == KeyBlock(key);
    }
  }

  lemma Quotients(n: nat, p: nat, q: nat)
    requires p > 0 && q > 0
    ensures p * q > 0 && n / (p * q) == n / p / q
  {
    var a, r := n / p, n % p;
    var b, t := a / q, a % q;
    assert n == p * a + r && a == q * b + t;
    Nested(n, p, q, a, r, b, t);
    Below(p, q, r, t, q - 1 - t);
    Divided(n, p * q, b, p * t + r);
  }

  lemma Distributed(p: int, a: int, b: int)
    ensures p * (a + b) == p * a + p * b
  {
  }

  lemma Associated(p: int, a: int, b: int)
    ensures p * (a * b) == p * a * b
  {
  }

  lemma Nested(n: int, p: int, q: int, a: int, r: int, b: int, t: int)
    requires n == p * a + r && a == q * b + t
    ensures n == p * q * b + (p * t + r)
  {
    Distributed(p, q * b, t);
    Associated(p, q, b);
  }

  lemma NotNegative(p: nat, u: nat)
    ensures p * u >= 0
  {
  }

  lemma Below(p: nat, q: nat, r: nat, t: nat, u: nat)
    requires r < p && q == t + 1 + u
    ensures p * t + r < p * q && 0 <= p * t
  {
    Distributed(p, t, 1 + u);
    Distributed(p, 1, u);
    NotNegative(p, u);
    NotNegative(p, t);
  }

  lemma Divided(n: nat, d: nat, b: int, r: nat)
    requires r < d && n == d * b + r
    ensures n / d == b
  {
    assert n == d * (n / d) + n % d;
    DividedOnce(d, n / d - b, n % d, b, r);
  }

  lemma DividedOnce(d: nat, more: int, y: nat, b: int, r: nat)
    requires y < d && r < d && d * (b + more) + y == d * b + r
    ensures more == 0
  {
    Distributed(d, b, more);
    AtLeastOnce(d, more);
  }

  lemma AtLeastOnce(d: nat, more: int)
    requires d > 0
    ensures more > 0 ==> d * more >= d
    ensures more < 0 ==> d * more + d <= 0
  {
    if more > 0 {
      Distributed(d, 1, more - 1);
      NotNegative(d, more - 1);
    } else if more < 0 {
      Distributed(d, -1, more + 1);
      Distributed(d, more + 1, -more - 1);
      NotNegative(d, -more - 1);
    }
  }

  /** A number without its lowest octets. */
  function Without(n: nat, octets: nat): int {
    n / Power256(octets)
  }

  lemma NextOctet(n: nat, i: nat)
    ensures Without(n, i + 1) == Without(n, i) / 256
  {
    Quotients(n, Power256(i), 256);
  }

  lemma FieldOctet(length: nat, i: nat, k: nat)
    requires i + k == 7
    ensures LengthField(length)[i] == Without(8 * length, k) % 256
  {
    assert k == 7 - i;
    assert LengthField(length)[i] == OctetOf(8 * length, k);
  }

  lemma LowOctets(q0: int, q1: int, q2: int, q3: int, q4: int)
    requires q1 == q0 / 256 && q2 == q1 / 256 && q3 == q2 / 256 && q4 == q3 / 256
    ensures q0 == 0x1_0000_0000 * q4 + BigEndian(q3 % 256, q2 % 256, q1 % 256, q0 % 256)
  {
  }

  /** Four octets of the field, from position `i` on. */
  lemma FieldWord(length: nat, i: nat, k: nat)
    requires i + k == 4
    ensures var f, n := LengthField(length), 8 * length;
            Without(n, k) == 0x1_0000_0000 * Without(n, k + 4) + BigEndian(f[i], f[i + 1], f[i + 2], f[i + 3])
  {
    var n := 8 * length;
    FieldOctet(length, i, k + 3);
    FieldOctet(length, i + 1, k + 2);
    FieldOctet(length, i + 2, k + 1);
    FieldOctet(length, i + 3, k);
    NextOctet(n, k);
    NextOctet(n, k + 1);
    NextOctet(n, k + 2);
    NextOctet(n, k + 3);
    LowOctets(Without(n, k), Without(n, k + 1), Without(n, k + 2), Without(n, k + 3), Without(n, k + 4));
  }

  /** The length field is the number of bits of the message, modulo 2^64, with its highest octet first. */
  lemma LengthFieldIs(length: nat)
    ensures var f := LengthField(length);
            BigEndian(f[0], f[1], f[2], f[3]) * 0x1_0000_0000 + BigEndian(f[4], f[5], f[6], f[7])
            == 8 * length % 0x1_0000_0000_0000_0000
  {
    var f := LengthField(length);
    FieldWord(length, 4, 0);
    FieldWord(length, 0, 4);
    assert Without(8 * length, 0) == 8 * length;
    WordsBelow(f[0], f[1], f[2], f[3], f[4], f[5], f[6], f[7]);
  }

  lemma WordsBelow(a: Octet, b: Octet, c: Octet, d: Octet, e: Octet, f: Octet, g: Octet, h: Octet)
    ensures BigEndian(a, b, c, d) < 0x1_0000_0000 && BigEndian(e, f, g, h) < 0x1_0000_0000
  {
  }
}
