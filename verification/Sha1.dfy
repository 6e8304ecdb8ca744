/** The hashing context of sha1.c: its fields are updated in place, and what they hold is the digest
    so far of everything fed to it. */
module Sha1Hashing {
  import opened Bits
  import opened Sha1Standard
  import opened Sha1Words

  const PADDING: seq<Octet> := [0x80] + Zeros(63)

  function Lows(s: seq<nat>): Registers
    requires |s| == 5
  {
    Registers(Low(s[0]), Low(s[1]), Low(s[2]), Low(s[3]), Low(s[4]))
  }

  function RegisterOctets(h: Registers): seq<Octet> {
    WordOctets(h.a) + WordOctets(h.b) + WordOctets(h.c) + WordOctets(h.d) + WordOctets(h.e)
  }

  function Concat(parts: seq<seq<Octet>>): seq<Octet> {
    if parts == [] then [] else Concat(parts[..|parts| - 1]) + parts[|parts| - 1]
  }

  /** The octets that an address and a length stand for. */
  function Fed(input: seq<Octet>, ilen: int): seq<Octet>
    requires ilen <= |input|
  {
    if ilen <= 0 then [] else input[..ilen]
  }

  /** What is read from a file: everything before the first empty read. */
  function Contents(chunks: seq<seq<Octet>>): (r: seq<seq<Octet>>)
    ensures |r| <= |chunks| && r == chunks[..|r|]
    ensures forall i :: 0 <= i < |r| ==> r[i] != []
    ensures |r| < |chunks| ==> chunks[|r|] == []
  {
    if chunks == [] || chunks[0] == [] then [] else [chunks[0]] + Contents(chunks[1..])
  }

  lemma BlockOfPrefix(data: seq<Octet>, more: seq<Octet>, i: nat)
    requires 64 * i + 64 <= |data|
    ensures BlockAt(data + more, i) == BlockAt(data, i)
  {
    assert (data + more)[64 * i..64 * i + 64] == data[64 * i..64 * i + 64];
  }

  /** What follows the digested blocks does not matter to them. */
  lemma {:induction false} ChainedPrefix(step: (Registers, Block) -> Registers, data: seq<Octet>, more: seq<Octet>,
                                         blocks: nat)
    requires 64 * blocks <= |data|
    ensures Chained(step, data + more, blocks) == Chained(step, data, blocks)
  {
    if blocks > 0 {
      ChainedPrefix(step, data, more, blocks - 1);
      BlockOfPrefix(data, more, blocks - 1);
    }
  }

  /** What was kept and the beginning of the rest make up the next block. */
  lemma BlockFilled(data: seq<Octet>, blocks: nat, kept: seq<Octet>, rest: seq<Octet>, fill: nat)
    requires 64 * blocks <= |data| && data[64 * blocks..] == kept + rest && |kept| + fill == 64 && fill <= |rest|
    ensures 64 * blocks + 64 <= |data| && BlockAt(data, blocks) == kept + rest[..fill]
    ensures data[64 * (blocks + 1)..] == rest[fill..]
  {
    var tail := data[64 * blocks..];
    assert BlockAt(data, blocks) == tail[..64] && data[64 * (blocks + 1)..] == tail[64..];
    assert tail[..64] == kept + rest[..fill] && tail[64..] == rest[fill..];
  }

  /** `step` is the standard's compression of one block. */
  ghost predicate Standard(step: (Registers, Block) -> Registers) {
    forall h, block {:trigger Compress(h, block)} :: step(h, block) == Compress(h, block)
  }

  lemma {:induction false} ChainedIsDigested(step: (Registers, Block) -> Registers, data: seq<Octet>, blocks: nat)
    requires Standard(step) && 64 * blocks <= |data|
    ensures Chained(step, data, blocks) == Digested(data, blocks)
  {
    if blocks > 0 {
      ChainedIsDigested(step, data, blocks - 1);
      var h, block := Digested(data, blocks - 1), BlockAt(data, blocks - 1);
      assert step(h, block) == Compress(h, block);
    }
  }

  lemma LeftOver(total0: nat, total1: nat, blocks: nat)
    requires 64 * blocks <= total1 * WORD + total0 < 64 * blocks + 64
    ensures total0 % 64 == total1 * WORD + total0 - 64 * blocks
  {
    var n := total1 * WORD + total0;
    DivisionUnique(n, 64, total1 * 0x400_0000 + total0 / 64, total0 % 64);
    DivisionUnique(n, 64, blocks, n - 64 * blocks);
  }

  // ---------------------------------------------------------------- the length field

  lemma QuotientTwice(n: nat, d: nat, e: nat)
    requires d > 0 && e > 0
    ensures d * e > 0 && n / d / e == n / (d * e)
  {
    var a := n / d;
    QuotientParts(n, d, e, a, n % d, a / e, a % e);
  }

  lemma QuotientParts(n: nat, d: nat, e: nat, a: nat, s: nat, q: nat, r: nat)
    requires d > 0 && e > 0 && n == d * a + s && s < d && a == e * q + r && r < e
    ensures d * e > 0 && n / (d * e) == q
  {
    Regrouped(d, e, q, r);
    QuotientStep(d, e, r, s);
    DivisionUnique(n, d * e, q, d * r + s);
  }

  lemma QuotientStep(d: nat, e: nat, r: nat, s: nat)
    requires r < e && s < d
    ensures d * r + s < d * e
  {
    MultipleIsFar(d, e - r);
    assert d * (e - r) == d * e - d * r;
  }

  lemma LengthFieldIsTwoLongs(n: nat)
    ensures PutLong(8 * n / WORD) + PutLong(8 * n) == LengthField(n)
  {
    var m := 8 * n;
    assert Power256(1) == 0x100 && Power256(2) == 0x1_0000 && Power256(3) == 0x100_0000 && Power256(4) == WORD;
    assert Power256(5) == WORD * 0x100 && Power256(6) == WORD * 0x1_0000 && Power256(7) == WORD * 0x100_0000;
    QuotientTwice(m, WORD, 0x100);
    QuotientTwice(m, WORD, 0x1_0000);
    QuotientTwice(m, WORD, 0x100_0000);
    var put := PutLong(m / WORD) + PutLong(m);
    assert OctetOf(m, 7) == put[0] && OctetOf(m, 6) == put[1] && OctetOf(m, 5) == put[2] && OctetOf(m, 4) == put[3];
    assert OctetOf(m, 3) == put[4] && OctetOf(m, 2) == put[5] && OctetOf(m, 1) == put[6] && OctetOf(m, 0) == put[7];
  }

  lemma HighWord(total0: nat, total1: nat)
    requires total0 < WORD
    ensures Low(Or(total0 / 0x2000_0000, total1 * 8 % LONG)) == Low(8 * (total1 * WORD + total0) / WORD)
  {
    var y, big := total0 / 0x2000_0000, total1 * 8;
    LowBitwise(OrOp, y, big % LONG);
    LowCut(big);
    LowBitwise(OrOp, y, big);
    assert Power(3) == 8;
    OrOfDisjoint(total1, y, 3);
    Commutes(OrOp, y, big);
    DivisionUnique(8 * (total1 * WORD + total0), WORD, 8 * total1 + y, 8 * total0 - y * WORD);
  }

  lemma LowWord(total0: nat, total1: nat)
    ensures Low(total0 * 8 % LONG) == Low(8 * (total1 * WORD + total0))
  {
    LowCut(total0 * 8);
    var q, r := total0 * 8 / WORD, total0 * 8 % WORD;
    DivisionUnique(8 * (total1 * WORD + total0), WORD, 8 * total1 + q, r);
  }

  /** The two words put in front of the last block are the standard's length field. */
  lemma LengthFieldPut(total0: nat, total1: nat)
    requires total0 < WORD
    ensures PutLong(Or(total0 / 0x2000_0000, total1 * 8 % LONG)) + PutLong(total0 * 8 % LONG)
            == LengthField(total1 * WORD + total0)
  {
    var n := total1 * WORD + total0;
    HighWord(total0, total1);
    LowWord(total0, total1);
    LowPut(Or(total0 / 0x2000_0000, total1 * 8 % LONG));
    LowPut(total0 * 8 % LONG);
    LowPut(8 * n / WORD);
    LowPut(8 * n);
    LengthFieldIsTwoLongs(n);
  }

  /** What is fed in last completes the message to the padded one. */
  lemma PaddingPut(message: seq<Octet>, count: nat, blocks: nat)
    requires var last := |message| - 64 * blocks; 0 <= last < 64 && count == if last < 56 then 56 - last else 120 - last
    ensures 1 <= count <= 64
    ensures message + PADDING[..count] + LengthField(|message|) == Padded(message)
  {
    DivisionUnique(|message|, 64, blocks, |message| - 64 * blocks);
    assert count == PaddingLength(|message|);
    assert PADDING[..count] == [0x80] + Zeros(count - 1);
    assert message + [0x80] + Zeros(count - 1) == message + ([0x80] + Zeros(count - 1));
  }

  lemma DigestPut(text: seq<Octet>, blocks: nat, h: Registers)
    requires blocks == |Padded(text)| / 64 && h == Digested(Padded(text), blocks)
    ensures RegisterOctets(h) == Sha1(text)
  {
  }

  // ---------------------------------------------------------------- copying and the schedule

  method Copy(src: seq<Octet>, dst: array<Octet>, at: nat)
    requires at + |src| <= dst.Length
    modifies dst
    ensures dst[..] == old(dst[..at]) + src + old(dst[at + |src|..])
  {
    forall i | 0 <= i < |src| {
      dst[at + i] := src[i];
    }
  }

  /** The word of round `t`: one of the sixteen read from the block, later macro R. */
  method RoundWord(w: array<nat>, t: nat, ghost words: Words) returns (x: nat)
    requires w.Length == 16 && t < 80 && Circular(w[..], words, t) && Steps(words)
    modifies w
    ensures Low(x) == words[t]
    ensures Circular(w[..], words, t + 1)
  {
    if t < 16 {
      x := w[t];
      assert Low(w[..][t]) == words[Newest(t, t)];
    } else {
      CircularMoves(w[..], words, t);
      x := NextWord(w[..], t);
      w[t % 16] := x;
    }
  }

  /** Macro P five times: in each round the names of the registers have moved on by one. */
  method FiveRounds(w: array<nat>, t: nat, a0: nat, b0: nat, c0: nat, d0: nat, e0: nat,
                    ghost words: Words, ghost h: Registers)
    returns (a: nat, b: nat, c: nat, d: nat, e: nat)
    requires w.Length == 16 && t + 5 <= 80 && Circular(w[..], words, t) && Steps(words)
    requires Holds(Rounds(words, h, t), a0, b0, c0, d0, e0)
    modifies w
    ensures Circular(w[..], words, t + 5)
    ensures Holds(Rounds(words, h, t + 5), a, b, c, d, e)
  {
    a, b, c, d, e := a0, b0, c0, d0, e0;
    var x := RoundWord(w, t, words);
    RoundMoves(words, h, t, a, b, c, d, e, x);
    e, b := Mix(t, a, b, c, d, e, x), Shift30(b);
    x := RoundWord(w, t + 1, words);
    RoundMoves(words, h, t + 1, e, a, b, c, d, x);
    d, a := Mix(t + 1, e, a, b, c, d, x), Shift30(a);
    x := RoundWord(w, t + 2, words);
    RoundMoves(words, h, t + 2, d, e, a, b, c, x);
    c, e := Mix(t + 2, d, e, a, b, c, x), Shift30(e);
    x := RoundWord(w, t + 3, words);
    RoundMoves(words, h, t + 3, c, d, e, a, b, x);
    b, d := Mix(t + 3, c, d, e, a, b, x), Shift30(d);
    x := RoundWord(w, t + 4, words);
    RoundMoves(words, h, t + 4, b, c, d, e, a, x);
    a, c := Mix(t + 4, b, c, d, e, a, x), Shift30(c);
  }

  /** The sixteen words of a block. */
  method ReadWords(data: Block, ghost words: Words) returns (w: array<nat>)
    requires Starts(words, data)
    ensures fresh(w) && w.Length == 16 && Circular(w[..], words, 0)
  {
    w := new nat[16];
    for i := 0 to 16
      invariant forall j: nat :: j < i ==> Low(w[j]) == words[j]
    {
      LowGet(data, i);
      assert StartAt(words, data, i);
      w[i] := GetLong(data, 4 * i);
    }
  }

  /** The eighty rounds, written out one by one in sha1.c, come in sixteen groups of five. */
  method EightyRounds(data: Block, a0: nat, b0: nat, c0: nat, d0: nat, e0: nat, ghost words: Words)
    returns (a: nat, b: nat, c: nat, d: nat, e: nat)
    requires Starts(words, data) && Steps(words)
    ensures Holds(Rounds(words, Registers(Low(a0), Low(b0), Low(c0), Low(d0), Low(e0)), 80), a, b, c, d, e)
  {
    var w := ReadWords(data, words);
    ghost var h := Registers(Low(a0), Low(b0), Low(c0), Low(d0), Low(e0));
    a, b, c, d, e := a0, b0, c0, d0, e0;
    var t := 0;
    while t < 80
      invariant t % 5 == 0 && t <= 80
      invariant Circular(w[..], words, t)
      invariant Holds(Rounds(words, h, t), a, b, c, d, e)
    {
      a, b, c, d, e := FiveRounds(w, t, a, b, c, d, e, words, h);
      t := t + 5;
    }
  }

  class Context {
    var total0: nat
    var total1: nat
    const state: array<nat>
    const buffer: array<Octet>
    const ipad: array<Octet>
    const opad: array<Octet>

    /** The compression of one block; only `Process` looks inside. */
    ghost const compress: (Registers, Block) -> Registers

    /** Everything fed in since the start, and how many blocks of it have been digested. */
    ghost var message: seq<Octet>
    ghost var blocks: nat

    ghost predicate Shaped() {
      && state.Length == 5 && buffer.Length == 64 && ipad.Length == 64 && opad.Length == 64
      && state as object !in {buffer as object, ipad, opad} && buffer !in {ipad, opad} && ipad != opad
      && Standard(compress)
    }

    ghost predicate Valid()
      reads this, state, buffer
    {
      && Shaped()
      && total0 < WORD && total1 * WORD + total0 == |message|
      && Digesting(message, blocks)
      && |message| < 64 * blocks + 64
      && Keeping(message[64 * blocks..])
    }

    ghost predicate Digesting(data: seq<Octet>, count: nat)
      requires Shaped()
      reads state
    {
      64 * count <= |data| && Lows(state[..]) == Chained(compress, data, count)
    }

    ghost predicate Keeping(rest: seq<Octet>)
      requires Shaped()
      reads buffer
    {
      |rest| <= 64 && buffer[..|rest|] == rest
    }

    constructor ()
      ensures Valid() && message == []
      ensures fresh(state) && fresh(buffer) && fresh(ipad) && fresh(opad)
    {
      compress := Compress;
      state := new nat[5];
      buffer := new Octet[64](_ => 0);
      ipad := new Octet[64](_ => 0);
      opad := new Octet[64](_ => 0);
      new;
      Starts();
    }

    method Starts()
      requires Shaped()
      modifies this`total0, this`total1, this`message, this`blocks, state
      ensures Valid() && message == []
    {
      total0, total1, message, blocks := 0, 0, [], 0;
      state[0] := 0x67452301;
      state[1] := 0xEFCDAB89;
      state[2] := 0x98BADCFE;
      state[3] := 0x10325476;
      state[4] := 0xC3D2E1F0;
    }

    /** One block. */
    method Process(data: Block)
      requires Shaped()
      modifies state
      ensures Lows(state[..]) == compress(Lows(old(state[..])), data)
    {
      assert compress(Lows(state[..]), data) == Compress(Lows(state[..]), data);
      ScheduleWordsStep(data);
      var a, b, c, d, e := EightyRounds(data, state[0], state[1], state[2], state[3], state[4], ScheduleWords(data));
      LowPlus(state[0], a);
      LowPlus(state[1], b);
      LowPlus(state[2], c);
      LowPlus(state[3], d);
      LowPlus(state[4], e);
      state[0] := Plus(state[0], a);
      state[1] := Plus(state[1], b);
      state[2] := Plus(state[2], c);
      state[3] := Plus(state[3], d);
      state[4] := Plus(state[4], e);
    }

    method AddLength(ilen: nat)
      requires total0 < WORD && ilen < 0x8000_0000
      modifies this`total0, this`total1
      ensures total0 < WORD
      ensures total1 * WORD + total0 == old(total1 * WORD + total0) + ilen
    {
      total0 := (total0 + ilen) % WORD;
      if total0 < ilen {
        total1 := total1 + 1;
      }
    }

    /** One more block of `data`. */
    method Absorb(block: Block, ghost data: seq<Octet>, ghost count: nat)
      requires Shaped() && Digesting(data, count)
      requires 64 * count + 64 <= |data| && BlockAt(data, count) == block
      modifies state
      ensures Digesting(data, count + 1)
    {
      Process(block);
    }

    /** The buffer is filled up and digested. */
    method AbsorbBuffer(more: seq<Octet>, left: nat, ghost data: seq<Octet>, ghost count: nat)
      requires Shaped() && Digesting(data, count) && left + |more| == 64
      requires 64 * count + 64 <= |data| && BlockAt(data, count) == buffer[..left] + more
      modifies state, buffer
      ensures Digesting(data, count + 1)
    {
      ghost var kept := buffer[..left];
      Copy(more, buffer, left);
      assert buffer[..] == kept + more;
      Absorb(buffer[..], data, count);
    }

    /** Less than a block is added to the buffer. */
    method KeepRest(rest: seq<Octet>, left: nat)
      requires Shaped() && left + |rest| <= 64
      modifies buffer
      ensures Keeping(old(buffer[..left]) + rest)
    {
      if |rest| > 0 {
        Copy(rest, buffer, left);
      }
    }

    /** Whole blocks are digested where they are, which happens only when nothing is kept in the buffer. */
    method AbsorbBlocks(input: seq<Octet>, ghost kept: seq<Octet>, ghost data: seq<Octet>, ghost count: nat)
      returns (rest: seq<Octet>, ghost to: nat)
      requires Shaped() && Digesting(data, count) && data[64 * count..] == kept + input
      requires kept == [] || |kept + input| < 64
      modifies state
      ensures |kept + rest| < 64 && Digesting(data, to) && data[64 * to..] == kept + rest
    {
      rest, to := input, count;
      while |rest| >= 64
        invariant kept == [] || |kept + rest| < 64
        invariant Digesting(data, to) && data[64 * to..] == kept + rest
      {
        BlockFilled(data, to, kept, rest, 64);
        Absorb(rest[..64], data, to);
        rest, to := rest[64..], to + 1;
      }
    }

    /** Feeding `ilen` octets of `input`; a length that is not positive does nothing. */
    method Update(input: seq<Octet>, ilen: int)
      requires Valid() && ilen <= |input| && ilen < 0x8000_0000
      modifies this`total0, this`total1, this`message, this`blocks, state, buffer
      ensures Valid()
      ensures message == old(message) + Fed(input, ilen)
    {
      if ilen <= 0 {
        return;
      }
      LeftOver(total0, total1, blocks);
      var left := total0 % 64;
      var fill := 64 - left;
      AddLength(ilen);
      ghost var kept, n := buffer[..left], |message|;
      ChainedPrefix(compress, message, input[..ilen], blocks);
      message := message + input[..ilen];
      assert message[64 * blocks..] == kept + input[..ilen];
      var rest := input[..ilen];
      if left > 0 && ilen >= fill {
        BlockFilled(message, blocks, kept, rest, fill);
        AbsorbBuffer(rest[..fill], left, message, blocks);
        rest, left, blocks, kept := rest[fill..], 0, blocks + 1, [];
      }
      rest, blocks := AbsorbBlocks(rest, kept, message, blocks);
      KeepRest(rest, left);
    }

    /** The number of bits fed in, as eight octets. */
    method PutLength() returns (length: seq<Octet>)
      requires Valid()
      ensures |length| == 8 && length == LengthField(|message|)
    {
      var high := Or(total0 / 0x2000_0000, total1 * 8 % LONG);
      var low := total0 * 8 % LONG;
      LengthFieldPut(total0, total1);
      length := PutLong(high) + PutLong(low);
    }

    /** The digest of everything fed in. */
    method Finish() returns (output: seq<Octet>)
      requires Valid()
      modifies this`total0, this`total1, this`message, this`blocks, state, buffer
      ensures Shaped()
      ensures output == Sha1Standard.Sha1(old(message))
    {
      var length := PutLength();
      LeftOver(total0, total1, blocks);
      var last := total0 % 64;
      var count := if last < 56 then 56 - last else 120 - last;
      PaddingPut(message, count, blocks);
      Update(PADDING, count);
      Update(length, 8);
      assert message == Padded(old(message));
      output := PutState(old(message));
    }

    /** The registers as twenty octets, when everything that is to be digested has been. */
    method PutState(ghost text: seq<Octet>) returns (output: seq<Octet>)
      requires Valid() && message == Padded(text)
      ensures output == Sha1Standard.Sha1(text)
    {
      output := PutLong(state[0]) + PutLong(state[1]) + PutLong(state[2]) + PutLong(state[3]) + PutLong(state[4]);
      LowPut(state[0]);
      LowPut(state[1]);
      LowPut(state[2]);
      LowPut(state[3]);
      LowPut(state[4]);
      DivisionUnique(|message|, 64, blocks, |message| - 64 * blocks);
      ChainedIsDigested(compress, message, blocks);
      DigestPut(text, blocks, Lows(state[..]));
    }

    /** Digest of one input. */
    static method Sha1(input: seq<Octet>, ilen: int) returns (output: seq<Octet>)
      requires ilen <= |input| && ilen < 0x8000_0000
      ensures output == Sha1Standard.Sha1(Fed(input, ilen))
    {
      var ctx := new Context();
      ctx.Update(input, ilen);
      assert ctx.message == Fed(input, ilen);
      output := ctx.Finish();
    }

    /** Digest of a file, given what opening it, reading it and asking for errors gave: however the reads
        cut it, the digest is that of the whole. */
    static method Sha1File(present: bool, chunks: seq<seq<Octet>>, failed: bool)
      returns (code: int, output: seq<Octet>)
      requires forall i :: 0 <= i < |chunks| ==> |chunks[i]| <= 1024
      ensures code == if !present then 1 else if failed then 2 else 0
      ensures present ==> output == Sha1Standard.Sha1(Concat(Contents(chunks)))
    {
      if !present {
        return 1, [];
      }
      var ctx := new Context();
      var i := 0;
      while i < |chunks| && |chunks[i]| > 0
        invariant 0 <= i <= |chunks| && i <= |Contents(chunks)|
        invariant ctx.Valid() && fresh(ctx) && fresh(ctx.state) && fresh(ctx.buffer)
        invariant ctx.message == Concat(chunks[..i])
      {
        assert i < |Contents(chunks)|;
        ctx.Update(chunks[i], |chunks[i]|);
        assert chunks[..i + 1][..i] == chunks[..i];
        i := i + 1;
      }
      assert chunks[..i] == Contents(chunks);
      output := ctx.Finish();
      code := if failed then 2 else 0;
    }

    /** Keyed hashing: the inner and outer key blocks are set up and the inner one is fed in. */
    method HmacStarts(key: seq<Octet>, keylen: int)
      requires Shaped() && keylen <= |key| && keylen < 0x8000_0000
      modifies this`total0, this`total1, this`message, this`blocks, state, buffer, ipad, opad
      ensures Valid()
      ensures message == XorEach(KeyBlock(Fed(key, keylen)), 0x36)
      ensures opad[..] == XorEach(KeyBlock(Fed(key, keylen)), 0x5C)
    {
      var k := Fed(key, keylen);
      if keylen > 64 {
        k := Sha1(key, keylen);
      }
      SetPad(ipad, 0x36, k);
      SetPad(opad, 0x5C, k);
      Starts();
      Update(ipad[..], 64);
    }

    /** One pad: a constant octet, with the key exclusive-ored over its beginning. */
    static method SetPad(pad: array<Octet>, x: Octet, k: seq<Octet>)
      requires pad.Length == 64 && |k| <= 64
      modifies pad
      ensures pad[..] == XorEach(k + Zeros(64 - |k|), x)
    {
      forall i | 0 <= i < 64 {
        pad[i] := x;
      }
      for i := 0 to |k|
        invariant forall j :: 0 <= j < i ==> pad[j] == XorOctet(k[j], x)
        invariant forall j :: i <= j < 64 ==> pad[j] == x
      {
        Commutes(XorOp, x, k[i]);
        pad[i] := XorOctet(pad[i], k[i]);
      }
      XorZero(x);
      assert XorOctet(0, x) == x;
    }

    method HmacUpdate(input: seq<Octet>, ilen: int)
      requires Valid() && ilen <= |input| && ilen < 0x8000_0000
      modifies this`total0, this`total1, this`message, this`blocks, state, buffer
      ensures Valid()
      ensures message == old(message) + Fed(input, ilen)
    {
      Update(input, ilen);
    }

    method HmacFinish() returns (output: seq<Octet>)
      requires Valid()
      modifies this`total0, this`total1, this`message, this`blocks, state, buffer
      ensures output == Sha1Standard.Sha1(opad[..] + Sha1Standard.Sha1(old(message)))
    {
      var inner := Finish();
      Starts();
      Update(opad[..], 64);
      Update(inner, 20);
      assert message == opad[..] + inner;
      output := Finish();
    }

    /** Keyed digest of one input, for a key of any length. */
    static method Hmac(key: seq<Octet>, keylen: int, input: seq<Octet>, ilen: int) returns (output: seq<Octet>)
      requires keylen <= |key| && keylen < 0x8000_0000 && ilen <= |input| && ilen < 0x8000_0000
      ensures output == Sha1Standard.Hmac(Fed(key, keylen), Fed(input, ilen))
    {
      var ctx := new Context();
      ctx.HmacStarts(key, keylen);
      ctx.HmacUpdate(input, ilen);
      output := ctx.HmacFinish();
    }
  }
}
