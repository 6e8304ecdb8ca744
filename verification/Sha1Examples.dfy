/** Known answers: the digest of "abc" in appendix A of FIPS 180-1, and the first test case for HMAC-SHA-1 in section 3
    of RFC 2202, calculated block by block. The numbers are those of the calculation: the words of the schedule and,
    from round to round, what is put into the first register. */
module Sha1Examples {
  import opened Bits
  import opened Sha1Standard
  import opened Sha1Calculation
  import opened WordVectors

  // ---------------------------------------------------------------- padding short messages

  /** The last two octets are enough for the length of a short message. */
  lemma ShortLength(n: nat)
    requires n < 0x2000
    ensures var f := LengthField(n);
            f[6] == 8 * n / 0x100 && f[7] == 8 * n % 0x100 && forall i :: 0 <= i < 6 ==> f[i] == 0
  {
    var m := 8 * n;
    assert Power256(0) == 1 && Power256(1) == 0x100 && Power256(2) == 0x1_0000 && Power256(3) == 0x100_0000;
    assert Power256(4) == 0x1_0000_0000 && Power256(5) == 0x100_0000_0000;
    assert Power256(6) == 0x1_0000_0000_0000 && Power256(7) == 0x100_0000_0000_0000;
    forall i | 0 <= i < 6 ensures LengthField(n)[i] == 0 {
      assert OctetOf(m, 7 - i) == 0;
    }
    assert OctetOf(m, 1) == LengthField(n)[6] && OctetOf(m, 0) == LengthField(n)[7];
  }

  /** The padded message, octet by octet. */
  lemma PaddedAt(message: seq<Octet>, k: nat)
    requires |message| < 0x2000 && k < |Padded(message)|
    ensures var n, all := |message|, |Padded(message)|;
            && n + 9 <= all
            && Padded(message)[k] == if k < n then message[k] else if k == n then 0x80
                                     else if k < all - 2 then 0
                                     else if k == all - 2 then 8 * n / 0x100 else 8 * n % 0x100
  {
    ShortLength(|message|);
  }

  function Octets(h: Registers): seq<Octet> {
    WordOctets(h.a) + WordOctets(h.b) + WordOctets(h.c) + WordOctets(h.d) + WordOctets(h.e)
  }

  lemma OctetsOfWord(w: Word, a: Octet, b: Octet, c: Octet, d: Octet)
    requires w == BigEndian(a, b, c, d)
    ensures WordOctets(w) == [a, b, c, d]
  {
    var x := 0x100 * a + b;
    var y := 0x100 * x + c;
    BigEndianNested(a, b, c, d, x, y);
    DivisionUnique(w, 0x100_0000, a, BigEndian(0, b, c, d));
    DivisionUnique(w, 0x1_0000, x, 0x100 * c + d);
    DivisionUnique(w, 0x100, y, d);
    DivisionUnique(x, 0x100, a, b);
    DivisionUnique(y, 0x100, x, c);
  }

  lemma FiveWords(h: Registers, o: seq<Octet>)
    requires |o| == 20
    requires h.a == BigEndian(o[0], o[1], o[2], o[3]) && h.b == BigEndian(o[4], o[5], o[6], o[7])
    requires h.c == BigEndian(o[8], o[9], o[10], o[11]) && h.d == BigEndian(o[12], o[13], o[14], o[15])
    requires h.e == BigEndian(o[16], o[17], o[18], o[19])
    ensures Octets(h) == o
  {
    OctetsOfWord(h.a, o[0], o[1], o[2], o[3]);
    OctetsOfWord(h.b, o[4], o[5], o[6], o[7]);
    OctetsOfWord(h.c, o[8], o[9], o[10], o[11]);
    OctetsOfWord(h.d, o[12], o[13], o[14], o[15]);
    OctetsOfWord(h.e, o[16], o[17], o[18], o[19]);
  }

  lemma OneBlock(message: seq<Octet>, h: Registers)
    requires |Padded(message)| == 64 && Compress(INITIAL, BlockAt(Padded(message), 0)) == h
    ensures Sha1(message) == Octets(h)
  {
    assert Chained(Compress, Padded(message), 0) == INITIAL;
  }

  lemma TwoBlocks(message: seq<Octet>, h: Registers, h': Registers)
    requires |Padded(message)| == 128 && Compress(INITIAL, BlockAt(Padded(message), 0)) == h
    requires Compress(h, BlockAt(Padded(message), 1)) == h'
    ensures Sha1(message) == Octets(h')
  {
    assert Chained(Compress, Padded(message), 0) == INITIAL;
    assert Chained(Compress, Padded(message), 1) == h;
  }

  // ---------------------------------------------------------------- the digest of "abc"

  const ABC: seq<Octet> := [0x61, 0x62, 0x63]

  predicate AbcWords(k: Calculation) {
    && k.Words(0, 0x61626380, 0x00000000, 0x00000000, 0x00000000, 0x00000000, 0x00000000, 0x00000000, 0x00000000)
    && k.Words(8, 0x00000000, 0x00000000, 0x00000000, 0x00000000, 0x00000000, 0x00000000, 0x00000000, 0x00000018)
    && k.Words(16, 0xC2C4C700, 0x00000000, 0x00000030, 0x85898E01, 0x00000000, 0x00000060, 0x0B131C03, 0x00000030)
    && k.Words(24, 0x85898EC1, 0x16263806, 0x00000000, 0x00000180, 0x2C4C700C, 0x000000F0, 0x93AFB507, 0x5898E048)
    && k.Words(32, 0x8E9A9202, 0x00000600, 0xB131C0F0, 0x16263BC6, 0x4EBED41E, 0x626380A1, 0x16263806, 0x000018C0)
    && k.Words(40, 0xD2E138C4, 0x00000F00, 0x3AFB5079, 0x898E04E5, 0xE2BA3C2B, 0x000060C0, 0x053A37CD, 0x74458547)
    && k.Words(48, 0xDA9415ED, 0x26380A16, 0x626383A1, 0x4EBF54DE, 0x3835B44B, 0x0000F600, 0x1E84C7A3, 0x98E04D98)
    && k.Words(56, 0x651D16A0, 0x62658CA1, 0x458544D6, 0x44584CB7, 0x7BA06619, 0x6380AEA2, 0x0AE55269, 0x627B49A1)
    && k.Words(64, 0x7CD45C9D, 0x000F0000, 0xFB50753A, 0xEC6765E8, 0xBA3C2BE2, 0x0060C000, 0x3A37CD05, 0x458546F4)
    && k.Words(72, 0xB8599DD6, 0x380A1A26, 0x01E02203, 0xE7CC3456, 0xE6E60B69, 0x00F60A00, 0x5795EF4F, 0x822E0879)
  }

  lemma AbcSchedule(k: Calculation)
    requires k.Sound()
    requires k.Words(0, 0x61626380, 0x00000000, 0x00000000, 0x00000000, 0x00000000, 0x00000000, 0x00000000, 0x00000000)
    requires k.Words(8, 0x00000000, 0x00000000, 0x00000000, 0x00000000, 0x00000000, 0x00000000, 0x00000000, 0x00000018)
    ensures AbcWords(k)
  {
    k.EightWords(0, 0x61626380, 0x00000000, 0x00000000, 0x00000000, 0x00000000, 0x00000000, 0x00000000, 0x00000000,
                 0x00000000, 0x00000000, 0x00000000, 0x00000000, 0x00000000, 0x00000000, 0x00000000, 0x00000018,
                 0xC2C4C700, 0x00000000, 0x00000030, 0x85898E01, 0x00000000, 0x00000060, 0x0B131C03, 0x00000030);
    k.EightWords(8, 0x00000000, 0x00000000, 0x00000000, 0x00000000, 0x00000000, 0x00000000, 0x00000000, 0x00000018,
                 0xC2C4C700, 0x00000000, 0x00000030, 0x85898E01, 0x00000000, 0x00000060, 0x0B131C03, 0x00000030,
                 0x85898EC1, 0x16263806, 0x00000000, 0x00000180, 0x2C4C700C, 0x000000F0, 0x93AFB507, 0x5898E048);
    k.EightWords(16, 0xC2C4C700, 0x00000000, 0x00000030, 0x85898E01, 0x00000000, 0x00000060, 0x0B131C03, 0x00000030,
                 0x85898EC1, 0x16263806, 0x00000000, 0x00000180, 0x2C4C700C, 0x000000F0, 0x93AFB507, 0x5898E048,
                 0x8E9A9202, 0x00000600, 0xB131C0F0, 0x16263BC6, 0x4EBED41E, 0x626380A1, 0x16263806, 0x000018C0);
    k.EightWords(24, 0x85898EC1, 0x16263806, 0x00000000, 0x00000180, 0x2C4C700C, 0x000000F0, 0x93AFB507, 0x5898E048,
                 0x8E9A9202, 0x00000600, 0xB131C0F0, 0x16263BC6, 0x4EBED41E, 0x626380A1, 0x16263806, 0x000018C0,
                 0xD2E138C4, 0x00000F00, 0x3AFB5079, 0x898E04E5, 0xE2BA3C2B, 0x000060C0, 0x053A37CD, 0x74458547);
    k.EightWords(32, 0x8E9A9202, 0x00000600, 0xB131C0F0, 0x16263BC6, 0x4EBED41E, 0x626380A1, 0x16263806, 0x000018C0,
                 0xD2E138C4, 0x00000F00, 0x3AFB5079, 0x898E04E5, 0xE2BA3C2B, 0x000060C0, 0x053A37CD, 0x74458547,
                 0xDA9415ED, 0x26380A16, 0x626383A1, 0x4EBF54DE, 0x3835B44B, 0x0000F600, 0x1E84C7A3, 0x98E04D98);
    k.EightWords(40, 0xD2E138C4, 0x00000F00, 0x3AFB5079, 0x898E04E5, 0xE2BA3C2B, 0x000060C0, 0x053A37CD, 0x74458547,
                 0xDA9415ED, 0x26380A16, 0x626383A1, 0x4EBF54DE, 0x3835B44B, 0x0000F600, 0x1E84C7A3, 0x98E04D98,
                 0x651D16A0, 0x62658CA1, 0x458544D6, 0x44584CB7, 0x7BA06619, 0x6380AEA2, 0x0AE55269, 0x627B49A1);
    k.EightWords(48, 0xDA9415ED, 0x26380A16, 0x626383A1, 0x4EBF54DE, 0x3835B44B, 0x0000F600, 0x1E84C7A3, 0x98E04D98,
                 0x651D16A0, 0x62658CA1, 0x458544D6, 0x44584CB7, 0x7BA06619, 0x6380AEA2, 0x0AE55269, 0x627B49A1,
                 0x7CD45C9D, 0x000F0000, 0xFB50753A, 0xEC6765E8, 0xBA3C2BE2, 0x0060C000, 0x3A37CD05, 0x458546F4);
    k.EightWords(56, 0x651D16A0, 0x62658CA1, 0x458544D6, 0x44584CB7, 0x7BA06619, 0x6380AEA2, 0x0AE55269, 0x627B49A1,
                 0x7CD45C9D, 0x000F0000, 0xFB50753A, 0xEC6765E8, 0xBA3C2BE2, 0x0060C000, 0x3A37CD05, 0x458546F4,
                 0xB8599DD6, 0x380A1A26, 0x01E02203, 0xE7CC3456, 0xE6E60B69, 0x00F60A00, 0x5795EF4F, 0x822E0879);
  }

  lemma AbcRounds0(k: Calculation)
    requires k.Sound() && k.State(0, 0x67452301, 0xEFCDAB89, 0x62EB73FA, 0x40C951D8, 0x0F4B87C3)
    requires k.Words(0, 0x61626380, 0x00000000, 0x00000000, 0x00000000, 0x00000000, 0x00000000, 0x00000000, 0x00000000)
    requires k.Words(8, 0x00000000, 0x00000000, 0x00000000, 0x00000000, 0x00000000, 0x00000000, 0x00000000, 0x00000018)
    ensures k.State(10, 0x8351F929, 0x4B6AE328, 0x9E8C07D4, 0x993E30C1, 0x3FC7CA40)
  {
    k.FiveRounds(0, 0x67452301, 0xEFCDAB89, 0x62EB73FA, 0x40C951D8, 0x0F4B87C3,
                 0x61626380, 0x00000000, 0x00000000, 0x00000000, 0x00000000,
                 0x0116FC33, 0x8990536D, 0xA1390F08, 0xCDD8E11B, 0xCFD499DE);
    k.FiveRounds(5, 0xCFD499DE, 0xCDD8E11B, 0xA1390F08, 0x8990536D, 0x0116FC33,
                 0x00000000, 0x00000000, 0x00000000, 0x00000000, 0x00000000,
                 0x3FC7CA40, 0x993E30C1, 0x9E8C07D4, 0x4B6AE328, 0x8351F929);
  }

  lemma AbcRounds10(k: Calculation)
    requires k.Sound() && k.State(10, 0x8351F929, 0x4B6AE328, 0x9E8C07D4, 0x993E30C1, 0x3FC7CA40)
    requires k.Words(8, 0x00000000, 0x00000000, 0x00000000, 0x00000000, 0x00000000, 0x00000000, 0x00000000, 0x00000018)
    requires k.Words(16, 0xC2C4C700, 0x00000000, 0x00000030, 0x85898E01, 0x00000000, 0x00000060, 0x0B131C03, 0x00000030)
    ensures k.State(20, 0xFD9E1D7D, 0xDC64901D, 0x82AA6728, 0x4E925823, 0x20BDD62F)
  {
    k.FiveRounds(10, 0x8351F929, 0x4B6AE328, 0x9E8C07D4, 0x993E30C1, 0x3FC7CA40,
                 0x00000000, 0x00000000, 0x00000000, 0x00000000, 0x00000000,
                 0xFBDA9E89, 0x63188FE4, 0x4607B664, 0x9128F695, 0x196BEE77);
    k.FiveRounds(15, 0x196BEE77, 0x9128F695, 0x4607B664, 0x63188FE4, 0xFBDA9E89,
                 0x00000018, 0xC2C4C700, 0x00000000, 0x00000030, 0x85898E01,
                 0x20BDD62F, 0x4E925823, 0x82AA6728, 0xDC64901D, 0xFD9E1D7D);
  }

  lemma AbcRounds20(k: Calculation)
    requires k.Sound() && k.State(20, 0xFD9E1D7D, 0xDC64901D, 0x82AA6728, 0x4E925823, 0x20BDD62F)
    requires k.Words(16, 0xC2C4C700, 0x00000000, 0x00000030, 0x85898E01, 0x00000000, 0x00000060, 0x0B131C03, 0x00000030)
    requires k.Words(24, 0x85898EC1, 0x16263806, 0x00000000, 0x00000180, 0x2C4C700C, 0x000000F0, 0x93AFB507, 0x5898E048)
    ensures k.State(30, 0xC5FBAF5D, 0x8370B52E, 0x4AA84D97, 0xBE35FBD5, 0x48413BA4)
  {
    k.FiveRounds(20, 0xFD9E1D7D, 0xDC64901D, 0x82AA6728, 0x4E925823, 0x20BDD62F,
                 0x00000000, 0x00000060, 0x0B131C03, 0x00000030, 0x85898EC1,
                 0x1A37B0CA, 0x33A23BFC, 0x21283486, 0xD541F12D, 0xC7567DC6);
    k.FiveRounds(25, 0xC7567DC6, 0xD541F12D, 0x21283486, 0x33A23BFC, 0x1A37B0CA,
                 0x16263806, 0x00000000, 0x00000180, 0x2C4C700C, 0x000000F0,
                 0x48413BA4, 0xBE35FBD5, 0x4AA84D97, 0x8370B52E, 0xC5FBAF5D);
  }

  lemma AbcRounds30(k: Calculation)
    requires k.Sound() && k.State(30, 0xC5FBAF5D, 0x8370B52E, 0x4AA84D97, 0xBE35FBD5, 0x48413BA4)
    requires k.Words(24, 0x85898EC1, 0x16263806, 0x00000000, 0x00000180, 0x2C4C700C, 0x000000F0, 0x93AFB507, 0x5898E048)
    requires k.Words(32, 0x8E9A9202, 0x00000600, 0xB131C0F0, 0x16263BC6, 0x4EBED41E, 0x626380A1, 0x16263806, 0x000018C0)
    ensures k.State(40, 0x32DE1CBA, 0x4C986405, 0xDC63973F, 0x0F511FD8, 0xDCBBB0CB)
  {
    k.FiveRounds(30, 0xC5FBAF5D, 0x8370B52E, 0x4AA84D97, 0xBE35FBD5, 0x48413BA4,
                 0x93AFB507, 0x5898E048, 0x8E9A9202, 0x00000600, 0xB131C0F0,
                 0x1267B407, 0x3B845D33, 0x046FAA0A, 0x2C0EBC11, 0x21796AD4);
    k.FiveRounds(35, 0x21796AD4, 0x2C0EBC11, 0x046FAA0A, 0x3B845D33, 0x1267B407,
                 0x16263BC6, 0x4EBED41E, 0x626380A1, 0x16263806, 0x000018C0,
                 0xDCBBB0CB, 0x0F511FD8, 0xDC63973F, 0x4C986405, 0x32DE1CBA);
  }

  lemma AbcRounds40(k: Calculation)
    requires k.Sound() && k.State(40, 0x32DE1CBA, 0x4C986405, 0xDC63973F, 0x0F511FD8, 0xDCBBB0CB)
    requires k.Words(40, 0xD2E138C4, 0x00000F00, 0x3AFB5079, 0x898E04E5, 0xE2BA3C2B, 0x000060C0, 0x053A37CD, 0x74458547)
    requires k.Words(48, 0xDA9415ED, 0x26380A16, 0x626383A1, 0x4EBF54DE, 0x3835B44B, 0x0000F600, 0x1E84C7A3, 0x98E04D98)
    ensures k.State(50, 0x120731C5, 0xBAF39337, 0xBEAD02CA, 0xA01B846C, 0x1C51E1F2)
  {
    k.FiveRounds(40, 0x32DE1CBA, 0x4C986405, 0xDC63973F, 0x0F511FD8, 0xDCBBB0CB,
                 0xD2E138C4, 0x00000F00, 0x3AFB5079, 0x898E04E5, 0xE2BA3C2B,
                 0xFC87DEDF, 0x970A0D5C, 0x7F193DC5, 0xEE1B1AAF, 0x40F28E09);
    k.FiveRounds(45, 0x40F28E09, 0xEE1B1AAF, 0x7F193DC5, 0x970A0D5C, 0xFC87DEDF,
                 0x000060C0, 0x053A37CD, 0x74458547, 0xDA9415ED, 0x26380A16,
                 0x1C51E1F2, 0xA01B846C, 0xBEAD02CA, 0xBAF39337, 0x120731C5);
  }

  lemma AbcRounds50(k: Calculation)
    requires k.Sound() && k.State(50, 0x120731C5, 0xBAF39337, 0xBEAD02CA, 0xA01B846C, 0x1C51E1F2)
    requires k.Words(48, 0xDA9415ED, 0x26380A16, 0x626383A1, 0x4EBF54DE, 0x3835B44B, 0x0000F600, 0x1E84C7A3, 0x98E04D98)
    requires k.Words(56, 0x651D16A0, 0x62658CA1, 0x458544D6, 0x44584CB7, 0x7BA06619, 0x6380AEA2, 0x0AE55269, 0x627B49A1)
    ensures k.State(60, 0x3F52DE5A, 0x09D785FD, 0xD262FF50, 0xC846093F, 0x5E6456AF)
  {
    k.FiveRounds(50, 0x120731C5, 0xBAF39337, 0xBEAD02CA, 0xA01B846C, 0x1C51E1F2,
                 0x626383A1, 0x4EBF54DE, 0x3835B44B, 0x0000F600, 0x1E84C7A3,
                 0x641DB2CE, 0x3847AD66, 0xE490436D, 0x27E9F1D8, 0x7B71F76D);
    k.FiveRounds(55, 0x7B71F76D, 0x27E9F1D8, 0xE490436D, 0x3847AD66, 0x641DB2CE,
                 0x98E04D98, 0x651D16A0, 0x62658CA1, 0x458544D6, 0x44584CB7,
                 0x5E6456AF, 0xC846093F, 0xD262FF50, 0x09D785FD, 0x3F52DE5A);
  }

  lemma AbcRounds60(k: Calculation)
    requires k.Sound() && k.State(60, 0x3F52DE5A, 0x09D785FD, 0xD262FF50, 0xC846093F, 0x5E6456AF)
    requires k.Words(56, 0x651D16A0, 0x62658CA1, 0x458544D6, 0x44584CB7, 0x7BA06619, 0x6380AEA2, 0x0AE55269, 0x627B49A1)
    requires k.Words(64, 0x7CD45C9D, 0x000F0000, 0xFB50753A, 0xEC6765E8, 0xBA3C2BE2, 0x0060C000, 0x3A37CD05, 0x458546F4)
    ensures k.State(70, 0x3F2588C2, 0x497093C0, 0x78DD4D2B, 0x0C3DF2B4, 0x101655F9)
  {
    k.FiveRounds(60, 0x3F52DE5A, 0x09D785FD, 0xD262FF50, 0xC846093F, 0x5E6456AF,
                 0x7BA06619, 0x6380AEA2, 0x0AE55269, 0x627B49A1, 0x7CD45C9D,
                 0xD756C147, 0x548C9CB2, 0xB66C020B, 0x6B61C9E1, 0x19DFA7AC);
    k.FiveRounds(65, 0x19DFA7AC, 0x6B61C9E1, 0xB66C020B, 0x548C9CB2, 0xD756C147,
                 0x000F0000, 0xFB50753A, 0xEC6765E8, 0xBA3C2BE2, 0x0060C000,
                 0x101655F9, 0x0C3DF2B4, 0x78DD4D2B, 0x497093C0, 0x3F2588C2);
  }

  lemma AbcRounds70(k: Calculation)
    requires k.Sound() && k.State(70, 0x3F2588C2, 0x497093C0, 0x78DD4D2B, 0x0C3DF2B4, 0x101655F9)
    requires k.Words(64, 0x7CD45C9D, 0x000F0000, 0xFB50753A, 0xEC6765E8, 0xBA3C2BE2, 0x0060C000, 0x3A37CD05, 0x458546F4)
    requires k.Words(72, 0xB8599DD6, 0x380A1A26, 0x01E02203, 0xE7CC3456, 0xE6E60B69, 0x00F60A00, 0x5795EF4F, 0x822E0879)
    ensures k.State(75, 0x5EE76897, 0x11793F6F, 0xEDB42DE4, 0x39859DE7, 0xC199F8C7)
  {
    k.FiveRounds(70, 0x3F2588C2, 0x497093C0, 0x78DD4D2B, 0x0C3DF2B4, 0x101655F9,
                 0x3A37CD05, 0x458546F4, 0xB8599DD6, 0x380A1A26, 0x01E02203,
                 0xC199F8C7, 0x39859DE7, 0xEDB42DE4, 0x11793F6F, 0x5EE76897);
  }

  lemma AbcRounds75(k: Calculation)
    requires k.Sound() && k.State(75, 0x5EE76897, 0x11793F6F, 0xEDB42DE4, 0x39859DE7, 0xC199F8C7)
    requires k.Words(72, 0xB8599DD6, 0x380A1A26, 0x01E02203, 0xE7CC3456, 0xE6E60B69, 0x00F60A00, 0x5795EF4F, 0x822E0879)
    ensures k.State(80, 0x42541B35, 0x5738D5E1, 0x860D21CC, 0xA079B7D9, 0x63F7DAB7)
  {
    k.FiveRounds(75, 0x5EE76897, 0x11793F6F, 0xEDB42DE4, 0x39859DE7, 0xC199F8C7,
                 0xE7CC3456, 0xE6E60B69, 0x00F60A00, 0x5795EF4F, 0x822E0879,
                 0x63F7DAB7, 0xA079B7D9, 0x860D21CC, 0x5738D5E1, 0x42541B35);
  }

  predicate AbcBegins(k: Calculation) {
    && k.words(0) == 0x61626380 && k.words(1) == 0 && k.words(2) == 0
    && k.words(3) == 0 && k.words(4) == 0 && k.words(5) == 0
    && k.words(6) == 0 && k.words(7) == 0 && k.words(8) == 0
    && k.words(9) == 0 && k.words(10) == 0 && k.words(11) == 0
    && k.words(12) == 0 && k.words(13) == 0 && k.words(14) == 0
    && k.words(15) == 0x00000018
    && k.registers(0) == Registers(0x67452301, 0xEFCDAB89, 0x98BADCFE, 0x10325476, 0xC3D2E1F0)
  }

  lemma AbcGiven(k: Calculation)
    requires k.Sound() && AbcBegins(k)
    ensures k.Words(0, 0x61626380, 0x00000000, 0x00000000, 0x00000000, 0x00000000, 0x00000000, 0x00000000, 0x00000000)
    ensures k.Words(8, 0x00000000, 0x00000000, 0x00000000, 0x00000000, 0x00000000, 0x00000000, 0x00000000, 0x00000018)
    ensures k.State(0, 0x67452301, 0xEFCDAB89, 0x62EB73FA, 0x40C951D8, 0x0F4B87C3)
  {
    k.WordsGiven(0, 0x61626380, 0x00000000, 0x00000000, 0x00000000, 0x00000000, 0x00000000, 0x00000000, 0x00000000);
    k.WordsGiven(8, 0x00000000, 0x00000000, 0x00000000, 0x00000000, 0x00000000, 0x00000000, 0x00000000, 0x00000018);
    k.HoldsIsRead(0, 0x67452301, 0xEFCDAB89, 0x98BADCFE, 0x10325476, 0xC3D2E1F0);
  }

  lemma AbcCalculated(k: Calculation)
    requires k.Sound() && AbcBegins(k)
    ensures k.registers(80) == k.Read(0x42541B35, 0x5738D5E1, 0x21834873, 0x681E6DF6, 0xD8FDF6AD)
  {
    AbcGiven(k);
    AbcSchedule(k);
    AbcRounds0(k);
    AbcRounds10(k);
    AbcRounds20(k);
    AbcRounds30(k);
    AbcRounds40(k);
    AbcRounds50(k);
    AbcRounds60(k);
    AbcRounds70(k);
    AbcRounds75(k);
  }

  /** The only block of the padded message. */
  lemma AbcCompressed(h: Registers, block: Block)
    requires h == Registers(0x67452301, 0xEFCDAB89, 0x98BADCFE, 0x10325476, 0xC3D2E1F0)
    requires WordAt(block, 0) == 0x61626380 && WordAt(block, 15) == 24
    requires forall i :: 0 < i < 15 ==> WordAt(block, i) == 0
    ensures Compress(h, block) == Registers(0xA9993E36, 0x4706816A, 0xBA3E2571, 0x7850C26C, 0x9CD0D89D)
  {
    AllStart(h, block);
    OfSound(h, block);
    AbcCalculated(Of(h, block));
    Compressed(h, block, 80, 0x42541B35, 0x5738D5E1, 0x21834873, 0x681E6DF6, 0xD8FDF6AD,
               Registers(0xA9993E36, 0x4706816A, 0xBA3E2571, 0x7850C26C, 0x9CD0D89D));
  }

  lemma AbcBlock(message: seq<Octet>)
    requires message == ABC
    ensures |Padded(message)| == 64
    ensures var block := BlockAt(Padded(message), 0);
            && WordAt(block, 0) == 0x61626380 && WordAt(block, 15) == 24
            && forall i :: 0 < i < 15 ==> WordAt(block, i) == 0
  {
    var block := BlockAt(Padded(message), 0);
    forall k | 0 <= k < 64
      ensures block[k] == if k < 3 then ABC[k] else if k == 3 then 0x80 else if k == 63 then 24 else 0
    {
      PaddedAt(message, k);
    }
  }

  lemma AbcOctets(h: Registers)
    requires h == Registers(0xA9993E36, 0x4706816A, 0xBA3E2571, 0x7850C26C, 0x9CD0D89D)
    ensures Octets(h) == [0xA9, 0x99, 0x3E, 0x36, 0x47, 0x06, 0x81, 0x6A, 0xBA, 0x3E,
                          0x25, 0x71, 0x78, 0x50, 0xC2, 0x6C, 0x9C, 0xD0, 0xD8, 0x9D]
  {
    FiveWords(h, [0xA9, 0x99, 0x3E, 0x36, 0x47, 0x06, 0x81, 0x6A, 0xBA, 0x3E,
                  0x25, 0x71, 0x78, 0x50, 0xC2, 0x6C, 0x9C, 0xD0, 0xD8, 0x9D]);
  }

  /** The digest of "abc" is the one that the standard gives. */
  lemma AbcDigest(message: seq<Octet>)
    requires message == ABC
    ensures Sha1(message) == [0xA9, 0x99, 0x3E, 0x36, 0x47, 0x06, 0x81, 0x6A, 0xBA, 0x3E,
                             0x25, 0x71, 0x78, 0x50, 0xC2, 0x6C, 0x9C, 0xD0, 0xD8, 0x9D]
  {
    var h := INITIAL;
    AbcBlock(message);
    AbcCompressed(h, BlockAt(Padded(message), 0));
    var o := Registers(0xA9993E36, 0x4706816A, 0xBA3E2571, 0x7850C26C, 0x9CD0D89D);
    OneBlock(message, o);
    AbcOctets(o);
  }

  // ---------------------------------------------------------------- HMAC of "Hi There"

  const KEY: seq<Octet> := seq(20, _ => 0x0B)
  const HI_THERE: seq<Octet> := [0x48, 0x69, 0x20, 0x54, 0x68, 0x65, 0x72, 0x65]

  predicate InnerKeyWords(k: Calculation) {
    && k.Words(0, 0x3D3D3D3D, 0x3D3D3D3D, 0x3D3D3D3D, 0x3D3D3D3D, 0x3D3D3D3D, 0x36363636, 0x36363636, 0x36363636)
    && k.Words(8, 0x36363636, 0x36363636, 0x36363636, 0x36363636, 0x36363636, 0x36363636, 0x36363636, 0x36363636)
    && k.Words(16, 0x00000000, 0x00000000, 0x00000000, 0x7A7A7A7A, 0x7A7A7A7A, 0x6C6C6C6C, 0x98989898, 0x98989898)
    && k.Words(24, 0xD8D8D8D8, 0x31313131, 0x31313131, 0x45454545, 0x96969696, 0xBABABABA, 0xD7D7D7D7, 0x70707070)
    && k.Words(32, 0xC4C4C4C4, 0x39393939, 0x76767676, 0x2F2F2F2F, 0x9A9A9A9A, 0x70707070, 0x71717171, 0x86868686)
    && k.Words(40, 0xBABABABA, 0x78787878, 0xAEAEAEAE, 0xD4D4D4D4, 0x47474747, 0x28282828, 0x6D6D6D6D, 0x11111111)
    && k.Words(48, 0x40404040, 0x06060606, 0xA6A6A6A6, 0x97979797, 0x55555555, 0xF0F0F0F0, 0x62626262, 0x75757575)
    && k.Words(56, 0x49494949, 0x91919191, 0x74747474, 0x44444444, 0xDDDDDDDD, 0x7B7B7B7B, 0x16161616, 0x7F7F7F7F)
    && k.Words(64, 0xA9A9A9A9, 0x2C2C2C2C, 0xF1F1F1F1, 0x15151515, 0x8D8D8D8D, 0x1E1E1E1E, 0x50505050, 0x2C2C2C2C)
    && k.Words(72, 0x15151515, 0x53535353, 0xE8E8E8E8, 0x7E7E7E7E, 0x2A2A2A2A, 0xE5E5E5E5, 0x23232323, 0xAAAAAAAA)
  }

  lemma InnerKeySchedule(k: Calculation)
    requires k.Sound()
    requires k.Words(0, 0x3D3D3D3D, 0x3D3D3D3D, 0x3D3D3D3D, 0x3D3D3D3D, 0x3D3D3D3D, 0x36363636, 0x36363636, 0x36363636)
    requires k.Words(8, 0x36363636, 0x36363636, 0x36363636, 0x36363636, 0x36363636, 0x36363636, 0x36363636, 0x36363636)
    ensures InnerKeyWords(k)
  {
    k.EightWords(0, 0x3D3D3D3D, 0x3D3D3D3D, 0x3D3D3D3D, 0x3D3D3D3D, 0x3D3D3D3D, 0x36363636, 0x36363636, 0x36363636,
                 0x36363636, 0x36363636, 0x36363636, 0x36363636, 0x36363636, 0x36363636, 0x36363636, 0x36363636,
                 0x00000000, 0x00000000, 0x00000000, 0x7A7A7A7A, 0x7A7A7A7A, 0x6C6C6C6C, 0x98989898, 0x98989898);
    k.EightWords(8, 0x36363636, 0x36363636, 0x36363636, 0x36363636, 0x36363636, 0x36363636, 0x36363636, 0x36363636,
                 0x00000000, 0x00000000, 0x00000000, 0x7A7A7A7A, 0x7A7A7A7A, 0x6C6C6C6C, 0x98989898, 0x98989898,
                 0xD8D8D8D8, 0x31313131, 0x31313131, 0x45454545, 0x96969696, 0xBABABABA, 0xD7D7D7D7, 0x70707070);
    k.EightWords(16, 0x00000000, 0x00000000, 0x00000000, 0x7A7A7A7A, 0x7A7A7A7A, 0x6C6C6C6C, 0x98989898, 0x98989898,
                 0xD8D8D8D8, 0x31313131, 0x31313131, 0x45454545, 0x96969696, 0xBABABABA, 0xD7D7D7D7, 0x70707070,
                 0xC4C4C4C4, 0x39393939, 0x76767676, 0x2F2F2F2F, 0x9A9A9A9A, 0x70707070, 0x71717171, 0x86868686);
    k.EightWords(24, 0xD8D8D8D8, 0x31313131, 0x31313131, 0x45454545, 0x96969696, 0xBABABABA, 0xD7D7D7D7, 0x70707070,
                 0xC4C4C4C4, 0x39393939, 0x76767676, 0x2F2F2F2F, 0x9A9A9A9A, 0x70707070, 0x71717171, 0x86868686,
                 0xBABABABA, 0x78787878, 0xAEAEAEAE, 0xD4D4D4D4, 0x47474747, 0x28282828, 0x6D6D6D6D, 0x11111111);
    k.EightWords(32, 0xC4C4C4C4, 0x39393939, 0x76767676, 0x2F2F2F2F, 0x9A9A9A9A, 0x70707070, 0x71717171, 0x86868686,
                 0xBABABABA, 0x78787878, 0xAEAEAEAE, 0xD4D4D4D4, 0x47474747, 0x28282828, 0x6D6D6D6D, 0x11111111,
                 0x40404040, 0x06060606, 0xA6A6A6A6, 0x97979797, 0x55555555, 0xF0F0F0F0, 0x62626262, 0x75757575);
    k.EightWords(40, 0xBABABABA, 0x78787878, 0xAEAEAEAE, 0xD4D4D4D4, 0x47474747, 0x28282828, 0x6D6D6D6D, 0x11111111,
                 0x40404040, 0x06060606, 0xA6A6A6A6, 0x97979797, 0x55555555, 0xF0F0F0F0, 0x62626262, 0x75757575,
                 0x49494949, 0x91919191, 0x74747474, 0x44444444, 0xDDDDDDDD, 0x7B7B7B7B, 0x16161616, 0x7F7F7F7F);
    k.EightWords(48, 0x40404040, 0x06060606, 0xA6A6A6A6, 0x97979797, 0x55555555, 0xF0F0F0F0, 0x62626262, 0x75757575,
                 0x49494949, 0x91919191, 0x74747474, 0x44444444, 0xDDDDDDDD, 0x7B7B7B7B, 0x16161616, 0x7F7F7F7F,
                 0xA9A9A9A9, 0x2C2C2C2C, 0xF1F1F1F1, 0x15151515, 0x8D8D8D8D, 0x1E1E1E1E, 0x50505050, 0x2C2C2C2C);
    k.EightWords(56, 0x49494949, 0x91919191, 0x74747474, 0x44444444, 0xDDDDDDDD, 0x7B7B7B7B, 0x16161616, 0x7F7F7F7F,
                 0xA9A9A9A9, 0x2C2C2C2C, 0xF1F1F1F1, 0x15151515, 0x8D8D8D8D, 0x1E1E1E1E, 0x50505050, 0x2C2C2C2C,
                 0x15151515, 0x53535353, 0xE8E8E8E8, 0x7E7E7E7E, 0x2A2A2A2A, 0xE5E5E5E5, 0x23232323, 0xAAAAAAAA);
  }

  lemma InnerKeyRounds0(k: Calculation)
    requires k.Sound() && k.State(0, 0x67452301, 0xEFCDAB89, 0x62EB73FA, 0x40C951D8, 0x0F4B87C3)
    requires k.Words(0, 0x3D3D3D3D, 0x3D3D3D3D, 0x3D3D3D3D, 0x3D3D3D3D, 0x3D3D3D3D, 0x36363636, 0x36363636, 0x36363636)
    requires k.Words(8, 0x36363636, 0x36363636, 0x36363636, 0x36363636, 0x36363636, 0x36363636, 0x36363636, 0x36363636)
    ensures k.State(10, 0x555317AB, 0xD7FE9236, 0x1ACDC001, 0xA9B3FEE8, 0x1099BED1)
  {
    k.FiveRounds(0, 0x67452301, 0xEFCDAB89, 0x62EB73FA, 0x40C951D8, 0x0F4B87C3,
                 0x3D3D3D3D, 0x3D3D3D3D, 0x3D3D3D3D, 0x3D3D3D3D, 0x3D3D3D3D,
                 0xDCF1D5F0, 0x4228C865, 0xF1670B3E, 0x5C8DCA7A, 0xD964C539);
    k.FiveRounds(5, 0xD964C539, 0x5C8DCA7A, 0xF1670B3E, 0x4228C865, 0xDCF1D5F0,
                 0x36363636, 0x36363636, 0x36363636, 0x36363636, 0x36363636,
                 0x1099BED1, 0xA9B3FEE8, 0x1ACDC001, 0xD7FE9236, 0x555317AB);
  }

  lemma InnerKeyRounds10(k: Calculation)
    requires k.Sound() && k.State(10, 0x555317AB, 0xD7FE9236, 0x1ACDC001, 0xA9B3FEE8, 0x1099BED1)
    requires k.Words(8, 0x36363636, 0x36363636, 0x36363636, 0x36363636, 0x36363636, 0x36363636, 0x36363636, 0x36363636)
    requires k.Words(16, 0x00000000, 0x00000000, 0x00000000, 0x7A7A7A7A, 0x7A7A7A7A, 0x6C6C6C6C, 0x98989898, 0x98989898)
    ensures k.State(20, 0x01827D30, 0x772495F0, 0x478F3799, 0x99D59494, 0x4712D176)
  {
    k.FiveRounds(10, 0x555317AB, 0xD7FE9236, 0x1ACDC001, 0xA9B3FEE8, 0x1099BED1,
                 0x36363636, 0x36363636, 0x36363636, 0x36363636, 0x36363636,
                 0xEDF49275, 0x91AB62CF, 0xE2381EA9, 0xE339CF45, 0xC6B4972A);
    k.FiveRounds(15, 0xC6B4972A, 0xE339CF45, 0xE2381EA9, 0x91AB62CF, 0xEDF49275,
                 0x36363636, 0x00000000, 0x00000000, 0x00000000, 0x7A7A7A7A,
                 0x4712D176, 0x99D59494, 0x478F3799, 0x772495F0, 0x01827D30);
  }

  lemma InnerKeyRounds20(k: Calculation)
    requires k.Sound() && k.State(20, 0x01827D30, 0x772495F0, 0x478F3799, 0x99D59494, 0x4712D176)
    requires k.Words(16, 0x00000000, 0x00000000, 0x00000000, 0x7A7A7A7A, 0x7A7A7A7A, 0x6C6C6C6C, 0x98989898, 0x98989898)
    requires k.Words(24, 0xD8D8D8D8, 0x31313131, 0x31313131, 0x45454545, 0x96969696, 0xBABABABA, 0xD7D7D7D7, 0x70707070)
    ensures k.State(30, 0x1EB6433C, 0xCC52B812, 0x4B967A1F, 0xD4113B73, 0x9AC703B6)
  {
    k.FiveRounds(20, 0x01827D30, 0x772495F0, 0x478F3799, 0x99D59494, 0x4712D176,
                 0x7A7A7A7A, 0x6C6C6C6C, 0x98989898, 0x98989898, 0xD8D8D8D8,
                 0xAC1AFDAB, 0xD2C40851, 0x638AA3F4, 0xD03250B8, 0x4A9A9969);
    k.FiveRounds(25, 0x4A9A9969, 0xD03250B8, 0x638AA3F4, 0xD2C40851, 0xAC1AFDAB,
                 0x31313131, 0x31313131, 0x45454545, 0x96969696, 0xBABABABA,
                 0x9AC703B6, 0xD4113B73, 0x4B967A1F, 0xCC52B812, 0x1EB6433C);
  }

  lemma InnerKeyRounds30(k: Calculation)
    requires k.Sound() && k.State(30, 0x1EB6433C, 0xCC52B812, 0x4B967A1F, 0xD4113B73, 0x9AC703B6)
    requires k.Words(24, 0xD8D8D8D8, 0x31313131, 0x31313131, 0x45454545, 0x96969696, 0xBABABABA, 0xD7D7D7D7, 0x70707070)
    requires k.Words(32, 0xC4C4C4C4, 0x39393939, 0x76767676, 0x2F2F2F2F, 0x9A9A9A9A, 0x70707070, 0x71717171, 0x86868686)
    ensures k.State(40, 0x05BC8C85, 0x94688DCE, 0x07BC42E1, 0xC07B8B6E, 0xC61EA853)
  {
    k.FiveRounds(30, 0x1EB6433C, 0xCC52B812, 0x4B967A1F, 0xD4113B73, 0x9AC703B6,
                 0xD7D7D7D7, 0x70707070, 0xC4C4C4C4, 0x39393939, 0x76767676,
                 0xAFDF5431, 0x4F80A4E1, 0x11FF560F, 0xBEED75E2, 0xF4955978);
    k.FiveRounds(35, 0xF4955978, 0xBEED75E2, 0x11FF560F, 0x4F80A4E1, 0xAFDF5431,
                 0x2F2F2F2F, 0x9A9A9A9A, 0x70707070, 0x71717171, 0x86868686,
                 0xC61EA853, 0xC07B8B6E, 0x07BC42E1, 0x94688DCE, 0x05BC8C85);
  }

  lemma InnerKeyRounds40(k: Calculation)
    requires k.Sound() && k.State(40, 0x05BC8C85, 0x94688DCE, 0x07BC42E1, 0xC07B8B6E, 0xC61EA853)
    requires k.Words(40, 0xBABABABA, 0x78787878, 0xAEAEAEAE, 0xD4D4D4D4, 0x47474747, 0x28282828, 0x6D6D6D6D, 0x11111111)
    requires k.Words(48, 0x40404040, 0x06060606, 0xA6A6A6A6, 0x97979797, 0x55555555, 0xF0F0F0F0, 0x62626262, 0x75757575)
    ensures k.State(50, 0xD92C4623, 0x19ADF73F, 0xAA8CA1E2, 0x8DA3D8E9, 0x93E2075A)
  {
    k.FiveRounds(40, 0x05BC8C85, 0x94688DCE, 0x07BC42E1, 0xC07B8B6E, 0xC61EA853,
                 0xBABABABA, 0x78787878, 0xAEAEAEAE, 0xD4D4D4D4, 0x47474747,
                 0x835E3324, 0x29377D70, 0x28074D68, 0x2B6B8F89, 0xAD8BE5B1);
    k.FiveRounds(45, 0xAD8BE5B1, 0x2B6B8F89, 0x28074D68, 0x29377D70, 0x835E3324,
                 0x28282828, 0x6D6D6D6D, 0x11111111, 0x40404040, 0x06060606,
                 0x93E2075A, 0x8DA3D8E9, 0xAA8CA1E2, 0x19ADF73F, 0xD92C4623);
  }

  lemma InnerKeyRounds50(k: Calculation)
    requires k.Sound() && k.State(50, 0xD92C4623, 0x19ADF73F, 0xAA8CA1E2, 0x8DA3D8E9, 0x93E2075A)
    requires k.Words(48, 0x40404040, 0x06060606, 0xA6A6A6A6, 0x97979797, 0x55555555, 0xF0F0F0F0, 0x62626262, 0x75757575)
    requires k.Words(56, 0x49494949, 0x91919191, 0x74747474, 0x44444444, 0xDDDDDDDD, 0x7B7B7B7B, 0x16161616, 0x7F7F7F7F)
    ensures k.State(60, 0xF3B4FB01, 0x43CEFB89, 0x2C28E4C8, 0x0D1168E6, 0x3498C49E)
  {
    k.FiveRounds(50, 0xD92C4623, 0x19ADF73F, 0xAA8CA1E2, 0x8DA3D8E9, 0x93E2075A,
                 0xA6A6A6A6, 0x97979797, 0x55555555, 0xF0F0F0F0, 0x62626262,
                 0x2BEDA00D, 0xD1FBB8BD, 0xB4F683F0, 0xB843E23A, 0x65446240);
    k.FiveRounds(55, 0x65446240, 0xB843E23A, 0xB4F683F0, 0xD1FBB8BD, 0x2BEDA00D,
                 0x75757575, 0x49494949, 0x91919191, 0x74747474, 0x44444444,
                 0x3498C49E, 0x0D1168E6, 0x2C28E4C8, 0x43CEFB89, 0xF3B4FB01);
  }

  lemma InnerKeyRounds60(k: Calculation)
    requires k.Sound() && k.State(60, 0xF3B4FB01, 0x43CEFB89, 0x2C28E4C8, 0x0D1168E6, 0x3498C49E)
    requires k.Words(56, 0x49494949, 0x91919191, 0x74747474, 0x44444444, 0xDDDDDDDD, 0x7B7B7B7B, 0x16161616, 0x7F7F7F7F)
    requires k.Words(64, 0xA9A9A9A9, 0x2C2C2C2C, 0xF1F1F1F1, 0x15151515, 0x8D8D8D8D, 0x1E1E1E1E, 0x50505050, 0x2C2C2C2C)
    ensures k.State(70, 0xB752A96B, 0x789BA85D, 0x54C6ED43, 0x4A62DBA1, 0xCBF148FD)
  {
    k.FiveRounds(60, 0xF3B4FB01, 0x43CEFB89, 0x2C28E4C8, 0x0D1168E6, 0x3498C49E,
                 0xDDDDDDDD, 0x7B7B7B7B, 0x16161616, 0x7F7F7F7F, 0xA9A9A9A9,
                 0x7786C99A, 0x624947A9, 0x90445002, 0x26A5CB98, 0x1AEAD0D1);
    k.FiveRounds(65, 0x1AEAD0D1, 0x26A5CB98, 0x90445002, 0x624947A9, 0x7786C99A,
                 0x2C2C2C2C, 0xF1F1F1F1, 0x15151515, 0x8D8D8D8D, 0x1E1E1E1E,
                 0xCBF148FD, 0x4A62DBA1, 0x54C6ED43, 0x789BA85D, 0xB752A96B);
  }

  lemma InnerKeyRounds70(k: Calculation)
    requires k.Sound() && k.State(70, 0xB752A96B, 0x789BA85D, 0x54C6ED43, 0x4A62DBA1, 0xCBF148FD)
    requires k.Words(64, 0xA9A9A9A9, 0x2C2C2C2C, 0xF1F1F1F1, 0x15151515, 0x8D8D8D8D, 0x1E1E1E1E, 0x50505050, 0x2C2C2C2C)
    requires k.Words(72, 0x15151515, 0x53535353, 0xE8E8E8E8, 0x7E7E7E7E, 0x2A2A2A2A, 0xE5E5E5E5, 0x23232323, 0xAAAAAAAA)
    ensures k.State(75, 0xB01129D7, 0x9860BC6E, 0x0401AE55, 0x6C549524, 0x773737C0)
  {
    k.FiveRounds(70, 0xB752A96B, 0x789BA85D, 0x54C6ED43, 0x4A62DBA1, 0xCBF148FD,
                 0x50505050, 0x2C2C2C2C, 0x15151515, 0x53535353, 0xE8E8E8E8,
                 0x773737C0, 0x6C549524, 0x0401AE55, 0x9860BC6E, 0xB01129D7);
  }

  lemma InnerKeyRounds75(k: Calculation)
    requires k.Sound() && k.State(75, 0xB01129D7, 0x9860BC6E, 0x0401AE55, 0x6C549524, 0x773737C0)
    requires k.Words(72, 0x15151515, 0x53535353, 0xE8E8E8E8, 0x7E7E7E7E, 0x2A2A2A2A, 0xE5E5E5E5, 0x23232323, 0xAAAAAAAA)
    ensures k.State(80, 0x9F074329, 0xDCA12627, 0x50FEF6CB, 0xCFF2FC27, 0x2B4A3BEC)
  {
    k.FiveRounds(75, 0xB01129D7, 0x9860BC6E, 0x0401AE55, 0x6C549524, 0x773737C0,
                 0x7E7E7E7E, 0x2A2A2A2A, 0xE5E5E5E5, 0x23232323, 0xAAAAAAAA,
                 0x2B4A3BEC, 0xCFF2FC27, 0x50FEF6CB, 0xDCA12627, 0x9F074329);
  }

  predicate InnerKeyBegins(k: Calculation) {
    && k.words(0) == 0x3D3D3D3D && k.words(1) == 0x3D3D3D3D && k.words(2) == 0x3D3D3D3D
    && k.words(3) == 0x3D3D3D3D && k.words(4) == 0x3D3D3D3D && k.words(5) == 0x36363636
    && k.words(6) == 0x36363636 && k.words(7) == 0x36363636 && k.words(8) == 0x36363636
    && k.words(9) == 0x36363636 && k.words(10) == 0x36363636 && k.words(11) == 0x36363636
    && k.words(12) == 0x36363636 && k.words(13) == 0x36363636 && k.words(14) == 0x36363636
    && k.words(15) == 0x36363636
    && k.registers(0) == Registers(0x67452301, 0xEFCDAB89, 0x98BADCFE, 0x10325476, 0xC3D2E1F0)
  }

  lemma InnerKeyGiven(k: Calculation)
    requires k.Sound() && InnerKeyBegins(k)
    ensures k.Words(0, 0x3D3D3D3D, 0x3D3D3D3D, 0x3D3D3D3D, 0x3D3D3D3D, 0x3D3D3D3D, 0x36363636, 0x36363636, 0x36363636)
    ensures k.Words(8, 0x36363636, 0x36363636, 0x36363636, 0x36363636, 0x36363636, 0x36363636, 0x36363636, 0x36363636)
    ensures k.State(0, 0x67452301, 0xEFCDAB89, 0x62EB73FA, 0x40C951D8, 0x0F4B87C3)
  {
    k.WordsGiven(0, 0x3D3D3D3D, 0x3D3D3D3D, 0x3D3D3D3D, 0x3D3D3D3D, 0x3D3D3D3D, 0x36363636, 0x36363636, 0x36363636);
    k.WordsGiven(8, 0x36363636, 0x36363636, 0x36363636, 0x36363636, 0x36363636, 0x36363636, 0x36363636, 0x36363636);
    k.HoldsIsRead(0, 0x67452301, 0xEFCDAB89, 0x98BADCFE, 0x10325476, 0xC3D2E1F0);
  }

  lemma InnerKeyCalculated(k: Calculation)
    requires k.Sound() && InnerKeyBegins(k)
    ensures k.registers(80) == k.Read(0x9F074329, 0xDCA12627, 0xD43FBDB2, 0xF3FCBF09, 0x0AD28EFB)
  {
    InnerKeyGiven(k);
    InnerKeySchedule(k);
    InnerKeyRounds0(k);
    InnerKeyRounds10(k);
    InnerKeyRounds20(k);
    InnerKeyRounds30(k);
    InnerKeyRounds40(k);
    InnerKeyRounds50(k);
    InnerKeyRounds60(k);
    InnerKeyRounds70(k);
    InnerKeyRounds75(k);
  }

  /** The key block with the inner pad. */
  lemma InnerKeyCompressed(h: Registers, block: Block)
    requires h == Registers(0x67452301, 0xEFCDAB89, 0x98BADCFE, 0x10325476, 0xC3D2E1F0)
    requires forall i :: 0 <= i < 16 ==> WordAt(block, i) == if i < 5 then 0x3D3D3D3D else 0x36363636
    ensures Compress(h, block) == Registers(0x064C662A, 0xCC6ED1B0, 0x6CFA9AB0, 0x042F137F, 0xCEA570EB)
  {
    AllStart(h, block);
    OfSound(h, block);
    InnerKeyCalculated(Of(h, block));
    Compressed(h, block, 80, 0x9F074329, 0xDCA12627, 0xD43FBDB2, 0xF3FCBF09, 0x0AD28EFB,
               Registers(0x064C662A, 0xCC6ED1B0, 0x6CFA9AB0, 0x042F137F, 0xCEA570EB));
  }

  predicate TextWords(k: Calculation) {
    && k.Words(0, 0x48692054, 0x68657265, 0x80000000, 0x00000000, 0x00000000, 0x00000000, 0x00000000, 0x00000000)
    && k.Words(8, 0x00000000, 0x00000000, 0x00000000, 0x00000000, 0x00000000, 0x00000000, 0x00000000, 0x00000240)
    && k.Words(16, 0x90D240A9, 0xD0CAE4CA, 0x00000481, 0x21A48153, 0xA195C995, 0x00000902, 0x434902A6, 0x432B97AB)
    && k.Words(24, 0x21A49357, 0x2707CCD9, 0x86572654, 0x00002408, 0x0D240A99, 0x0CAE5A2D, 0xA736CC0F, 0x3D8AF771)
    && k.Words(32, 0x7BB11AA5, 0xE2BECA9E, 0x34903862, 0xB42B6DF8, 0x1A8C1668, 0xF62BF9CC, 0xE3E0600C, 0x865574D6)
    && k.Words(40, 0x54D2ACD4, 0x4CB28486, 0x736CC0F2, 0xD8AF7E13, 0xF858A8F1, 0x68C728C5, 0xCF91916B, 0x4273C391)
    && k.Words(48, 0xE6694DAC, 0xAB6D6517, 0x3E065AD2, 0xF98D4F16, 0x54B37705, 0x4D7FFE1A, 0x025C254B, 0xB84E8989)
    && k.Words(56, 0x1951BF21, 0x7A597592, 0x1AF976B0, 0xA1694DC2, 0x3246761A, 0xFA64C7FC, 0x159B689D, 0xC62CB22A)
    && k.Words(64, 0x76B4DF46, 0x7A446E1C, 0x6CC1D29B, 0xC65E4710, 0x3DDA9490, 0xC728C5E8, 0x91916BCF, 0x73C3B542)
    && k.Words(72, 0x6469A67F, 0x61CA7B06, 0x6F7ACEE6, 0xF274D6A3, 0xF79BE222, 0x2834FDB1, 0x0194156E, 0x706116AC)
  }

  lemma TextSchedule(k: Calculation)
    requires k.Sound()
    requires k.Words(0, 0x48692054, 0x68657265, 0x80000000, 0x00000000, 0x00000000, 0x00000000, 0x00000000, 0x00000000)
    requires k.Words(8, 0x00000000, 0x00000000, 0x00000000, 0x00000000, 0x00000000, 0x00000000, 0x00000000, 0x00000240)
    ensures TextWords(k)
  {
    k.EightWords(0, 0x48692054, 0x68657265, 0x80000000, 0x00000000, 0x00000000, 0x00000000, 0x00000000, 0x00000000,
                 0x00000000, 0x00000000, 0x00000000, 0x00000000, 0x00000000, 0x00000000, 0x00000000, 0x00000240,
                 0x90D240A9, 0xD0CAE4CA, 0x00000481, 0x21A48153, 0xA195C995, 0x00000902, 0x434902A6, 0x432B97AB);
    k.EightWords(8, 0x00000000, 0x00000000, 0x00000000, 0x00000000, 0x00000000, 0x00000000, 0x00000000, 0x00000240,
                 0x90D240A9, 0xD0CAE4CA, 0x00000481, 0x21A48153, 0xA195C995, 0x00000902, 0x434902A6, 0x432B97AB,
                 0x21A49357, 0x2707CCD9, 0x86572654, 0x00002408, 0x0D240A99, 0x0CAE5A2D, 0xA736CC0F, 0x3D8AF771);
    k.EightWords(16, 0x90D240A9, 0xD0CAE4CA, 0x00000481, 0x21A48153, 0xA195C995, 0x00000902, 0x434902A6, 0x432B97AB,
                 0x21A49357, 0x2707CCD9, 0x86572654, 0x00002408, 0x0D240A99, 0x0CAE5A2D, 0xA736CC0F, 0x3D8AF771,
                 0x7BB11AA5, 0xE2BECA9E, 0x34903862, 0xB42B6DF8, 0x1A8C1668, 0xF62BF9CC, 0xE3E0600C, 0x865574D6);
    k.EightWords(24, 0x21A49357, 0x2707CCD9, 0x86572654, 0x00002408, 0x0D240A99, 0x0CAE5A2D, 0xA736CC0F, 0x3D8AF771,
                 0x7BB11AA5, 0xE2BECA9E, 0x34903862, 0xB42B6DF8, 0x1A8C1668, 0xF62BF9CC, 0xE3E0600C, 0x865574D6,
                 0x54D2ACD4, 0x4CB28486, 0x736CC0F2, 0xD8AF7E13, 0xF858A8F1, 0x68C728C5, 0xCF91916B, 0x4273C391);
    k.EightWords(32, 0x7BB11AA5, 0xE2BECA9E, 0x34903862, 0xB42B6DF8, 0x1A8C1668, 0xF62BF9CC, 0xE3E0600C, 0x865574D6,
                 0x54D2ACD4, 0x4CB28486, 0x736CC0F2, 0xD8AF7E13, 0xF858A8F1, 0x68C728C5, 0xCF91916B, 0x4273C391,
                 0xE6694DAC, 0xAB6D6517, 0x3E065AD2, 0xF98D4F16, 0x54B37705, 0x4D7FFE1A, 0x025C254B, 0xB84E8989);
    k.EightWords(40, 0x54D2ACD4, 0x4CB28486, 0x736CC0F2, 0xD8AF7E13, 0xF858A8F1, 0x68C728C5, 0xCF91916B, 0x4273C391,
                 0xE6694DAC, 0xAB6D6517, 0x3E065AD2, 0xF98D4F16, 0x54B37705, 0x4D7FFE1A, 0x025C254B, 0xB84E8989,
                 0x1951BF21, 0x7A597592, 0x1AF976B0, 0xA1694DC2, 0x3246761A, 0xFA64C7FC, 0x159B689D, 0xC62CB22A);
    k.EightWords(48, 0xE6694DAC, 0xAB6D6517, 0x3E065AD2, 0xF98D4F16, 0x54B37705, 0x4D7FFE1A, 0x025C254B, 0xB84E8989,
                 0x1951BF21, 0x7A597592, 0x1AF976B0, 0xA1694DC2, 0x3246761A, 0xFA64C7FC, 0x159B689D, 0xC62CB22A,
                 0x76B4DF46, 0x7A446E1C, 0x6CC1D29B, 0xC65E4710, 0x3DDA9490, 0xC728C5E8, 0x91916BCF, 0x73C3B542);
    k.EightWords(56, 0x1951BF21, 0x7A597592, 0x1AF976B0, 0xA1694DC2, 0x3246761A, 0xFA64C7FC, 0x159B689D, 0xC62CB22A,
                 0x76B4DF46, 0x7A446E1C, 0x6CC1D29B, 0xC65E4710, 0x3DDA9490, 0xC728C5E8, 0x91916BCF, 0x73C3B542,
                 0x6469A67F, 0x61CA7B06, 0x6F7ACEE6, 0xF274D6A3, 0xF79BE222, 0x2834FDB1, 0x0194156E, 0x706116AC);
  }

  lemma TextRounds0(k: Calculation)
    requires k.Sound() && k.State(0, 0x064C662A, 0xCC6ED1B0, 0xB3EA6AC1, 0x10BC4DFC, 0x3A95C3AF)
    requires k.Words(0, 0x48692054, 0x68657265, 0x80000000, 0x00000000, 0x00000000, 0x00000000, 0x00000000, 0x00000000)
    requires k.Words(8, 0x00000000, 0x00000000, 0x00000000, 0x00000000, 0x00000000, 0x00000000, 0x00000000, 0x00000240)
    ensures k.State(10, 0x1161654A, 0xEE968FFD, 0x83FC2D6C, 0x180A164F, 0x84F59394)
  {
    k.FiveRounds(0, 0x064C662A, 0xCC6ED1B0, 0xB3EA6AC1, 0x10BC4DFC, 0x3A95C3AF,
                 0x48692054, 0x68657265, 0x80000000, 0x00000000, 0x00000000,
                 0x87896317, 0x22FE1F25, 0x58D48E57, 0x4A13117F, 0x082E99CD);
    k.FiveRounds(5, 0x082E99CD, 0x4A13117F, 0x58D48E57, 0x22FE1F25, 0x87896317,
                 0x00000000, 0x00000000, 0x00000000, 0x00000000, 0x00000000,
                 0x84F59394, 0x180A164F, 0x83FC2D6C, 0xEE968FFD, 0x1161654A);
  }

  lemma TextRounds10(k: Calculation)
    requires k.Sound() && k.State(10, 0x1161654A, 0xEE968FFD, 0x83FC2D6C, 0x180A164F, 0x84F59394)
    requires k.Words(8, 0x00000000, 0x00000000, 0x00000000, 0x00000000, 0x00000000, 0x00000000, 0x00000000, 0x00000240)
    requires k.Words(16, 0x90D240A9, 0xD0CAE4CA, 0x00000481, 0x21A48153, 0xA195C995, 0x00000902, 0x434902A6, 0x432B97AB)
    ensures k.State(20, 0xC17BEB91, 0xDC934E98, 0xF5A11987, 0x2BB7C122, 0x1C36ED6F)
  {
    k.FiveRounds(10, 0x1161654A, 0xEE968FFD, 0x83FC2D6C, 0x180A164F, 0x84F59394,
                 0x00000000, 0x00000000, 0x00000000, 0x00000000, 0x00000000,
                 0xC882931B, 0x62968E00, 0x817876F6, 0xEB7FD1BA, 0xC0F5ACC8);
    k.FiveRounds(15, 0xC0F5ACC8, 0xEB7FD1BA, 0x817876F6, 0x62968E00, 0xC882931B,
                 0x00000240, 0x90D240A9, 0xD0CAE4CA, 0x00000481, 0x21A48153,
                 0x1C36ED6F, 0x2BB7C122, 0xF5A11987, 0xDC934E98, 0xC17BEB91);
  }

  lemma TextRounds20(k: Calculation)
    requires k.Sound() && k.State(20, 0xC17BEB91, 0xDC934E98, 0xF5A11987, 0x2BB7C122, 0x1C36ED6F)
    requires k.Words(16, 0x90D240A9, 0xD0CAE4CA, 0x00000481, 0x21A48153, 0xA195C995, 0x00000902, 0x434902A6, 0x432B97AB)
    requires k.Words(24, 0x21A49357, 0x2707CCD9, 0x86572654, 0x00002408, 0x0D240A99, 0x0CAE5A2D, 0xA736CC0F, 0x3D8AF771)
    ensures k.State(30, 0x371C1510, 0x234575C1, 0xACCD9141, 0xA641B034, 0x672AA5DA)
  {
    k.FiveRounds(20, 0xC17BEB91, 0xDC934E98, 0xF5A11987, 0x2BB7C122, 0x1C36ED6F,
                 0xA195C995, 0x00000902, 0x434902A6, 0x432B97AB, 0x21A49357,
                 0xB211DB7A, 0x473AD297, 0x8C5179C8, 0x0F39EEB0, 0xD9370B90);
    k.FiveRounds(25, 0xD9370B90, 0x0F39EEB0, 0x8C5179C8, 0x473AD297, 0xB211DB7A,
                 0x2707CCD9, 0x86572654, 0x00002408, 0x0D240A99, 0x0CAE5A2D,
                 0x672AA5DA, 0xA641B034, 0xACCD9141, 0x234575C1, 0x371C1510);
  }

  lemma TextRounds30(k: Calculation)
    requires k.Sound() && k.State(30, 0x371C1510, 0x234575C1, 0xACCD9141, 0xA641B034, 0x672AA5DA)
    requires k.Words(24, 0x21A49357, 0x2707CCD9, 0x86572654, 0x00002408, 0x0D240A99, 0x0CAE5A2D, 0xA736CC0F, 0x3D8AF771)
    requires k.Words(32, 0x7BB11AA5, 0xE2BECA9E, 0x34903862, 0xB42B6DF8, 0x1A8C1668, 0xF62BF9CC, 0xE3E0600C, 0x865574D6)
    ensures k.State(40, 0x422645C7, 0xFEE73464, 0xDF3EC59B, 0x9576E0EF, 0xC92D8C90)
  {
    k.FiveRounds(30, 0x371C1510, 0x234575C1, 0xACCD9141, 0xA641B034, 0x672AA5DA,
                 0xA736CC0F, 0x3D8AF771, 0x7BB11AA5, 0xE2BECA9E, 0x34903862,
                 0xF54480C8, 0x9383946D, 0x7683D144, 0x0DF9ED58, 0x9FA0E8B5);
    k.FiveRounds(35, 0x9FA0E8B5, 0x0DF9ED58, 0x7683D144, 0x9383946D, 0xF54480C8,
                 0xB42B6DF8, 0x1A8C1668, 0xF62BF9CC, 0xE3E0600C, 0x865574D6,
                 0xC92D8C90, 0x9576E0EF, 0xDF3EC59B, 0xFEE73464, 0x422645C7);
  }

  lemma TextRounds40(k: Calculation)
    requires k.Sound() && k.State(40, 0x422645C7, 0xFEE73464, 0xDF3EC59B, 0x9576E0EF, 0xC92D8C90)
    requires k.Words(40, 0x54D2ACD4, 0x4CB28486, 0x736CC0F2, 0xD8AF7E13, 0xF858A8F1, 0x68C728C5, 0xCF91916B, 0x4273C391)
    requires k.Words(48, 0xE6694DAC, 0xAB6D6517, 0x3E065AD2, 0xF98D4F16, 0x54B37705, 0x4D7FFE1A, 0x025C254B, 0xB84E8989)
    ensures k.State(50, 0x581A6BBB, 0xE8911C78, 0x946291A6, 0x1A1F5F15, 0xB3F4865B)
  {
    k.FiveRounds(40, 0x422645C7, 0xFEE73464, 0xDF3EC59B, 0x9576E0EF, 0xC92D8C90,
                 0x54D2ACD4, 0x4CB28486, 0x736CC0F2, 0xD8AF7E13, 0xF858A8F1,
                 0x52D23622, 0x9322832E, 0xB1422A37, 0x606AD026, 0x1A18A495);
    k.FiveRounds(45, 0x1A18A495, 0x606AD026, 0xB1422A37, 0x9322832E, 0x52D23622,
                 0x68C728C5, 0xCF91916B, 0x4273C391, 0xE6694DAC, 0xAB6D6517,
                 0xB3F4865B, 0x1A1F5F15, 0x946291A6, 0xE8911C78, 0x581A6BBB);
  }

  lemma TextRounds50(k: Calculation)
    requires k.Sound() && k.State(50, 0x581A6BBB, 0xE8911C78, 0x946291A6, 0x1A1F5F15, 0xB3F4865B)
    requires k.Words(48, 0xE6694DAC, 0xAB6D6517, 0x3E065AD2, 0xF98D4F16, 0x54B37705, 0x4D7FFE1A, 0x025C254B, 0xB84E8989)
    requires k.Words(56, 0x1951BF21, 0x7A597592, 0x1AF976B0, 0xA1694DC2, 0x3246761A, 0xFA64C7FC, 0x159B689D, 0xC62CB22A)
    ensures k.State(60, 0x37C71A84, 0x01FB601B, 0x651C5CAD, 0x7005FC4E, 0xDF940861)
  {
    k.FiveRounds(50, 0x581A6BBB, 0xE8911C78, 0x946291A6, 0x1A1F5F15, 0xB3F4865B,
                 0x3E065AD2, 0xF98D4F16, 0x54B37705, 0x4D7FFE1A, 0x025C254B,
                 0xA1FE4518, 0x4711EE06, 0x1D4BE030, 0x0653A25D, 0x4B42B9B5);
    k.FiveRounds(55, 0x4B42B9B5, 0x0653A25D, 0x1D4BE030, 0x4711EE06, 0xA1FE4518,
                 0xB84E8989, 0x1951BF21, 0x7A597592, 0x1AF976B0, 0xA1694DC2,
                 0xDF940861, 0x7005FC4E, 0x651C5CAD, 0x01FB601B, 0x37C71A84);
  }

  lemma TextRounds60(k: Calculation)
    requires k.Sound() && k.State(60, 0x37C71A84, 0x01FB601B, 0x651C5CAD, 0x7005FC4E, 0xDF940861)
    requires k.Words(56, 0x1951BF21, 0x7A597592, 0x1AF976B0, 0xA1694DC2, 0x3246761A, 0xFA64C7FC, 0x159B689D, 0xC62CB22A)
    requires k.Words(64, 0x76B4DF46, 0x7A446E1C, 0x6CC1D29B, 0xC65E4710, 0x3DDA9490, 0xC728C5E8, 0x91916BCF, 0x73C3B542)
    ensures k.State(70, 0xFF3028CE, 0xFACD4ABA, 0xFB4619BB, 0xE7AC8DCA, 0xDD0AF68B)
  {
    k.FiveRounds(60, 0x37C71A84, 0x01FB601B, 0x651C5CAD, 0x7005FC4E, 0xDF940861,
                 0x3246761A, 0xFA64C7FC, 0x159B689D, 0xC62CB22A, 0x76B4DF46,
                 0x322E92B1, 0x559A34B4, 0xEC2D643E, 0xEB9B2A9C, 0x782F0919);
    k.FiveRounds(65, 0x782F0919, 0xEB9B2A9C, 0xEC2D643E, 0x559A34B4, 0x322E92B1,
                 0x7A446E1C, 0x6CC1D29B, 0xC65E4710, 0x3DDA9490, 0xC728C5E8,
                 0xDD0AF68B, 0xE7AC8DCA, 0xFB4619BB, 0xFACD4ABA, 0xFF3028CE);
  }

  lemma TextRounds70(k: Calculation)
    requires k.Sound() && k.State(70, 0xFF3028CE, 0xFACD4ABA, 0xFB4619BB, 0xE7AC8DCA, 0xDD0AF68B)
    requires k.Words(64, 0x76B4DF46, 0x7A446E1C, 0x6CC1D29B, 0xC65E4710, 0x3DDA9490, 0xC728C5E8, 0x91916BCF, 0x73C3B542)
    requires k.Words(72, 0x6469A67F, 0x61CA7B06, 0x6F7ACEE6, 0xF274D6A3, 0xF79BE222, 0x2834FDB1, 0x0194156E, 0x706116AC)
    ensures k.State(75, 0x0FA0A34A, 0x14D893BC, 0xE050A1E7, 0x9DE33036, 0xF733F4CC)
  {
    k.FiveRounds(70, 0xFF3028CE, 0xFACD4ABA, 0xFB4619BB, 0xE7AC8DCA, 0xDD0AF68B,
                 0x91916BCF, 0x73C3B542, 0x6469A67F, 0x61CA7B06, 0x6F7ACEE6,
                 0xF733F4CC, 0x9DE33036, 0xE050A1E7, 0x14D893BC, 0x0FA0A34A);
  }

  lemma TextRounds75(k: Calculation)
    requires k.Sound() && k.State(75, 0x0FA0A34A, 0x14D893BC, 0xE050A1E7, 0x9DE33036, 0xF733F4CC)
    requires k.Words(72, 0x6469A67F, 0x61CA7B06, 0x6F7ACEE6, 0xF274D6A3, 0xF79BE222, 0x2834FDB1, 0x0194156E, 0x706116AC)
    ensures k.State(80, 0x3119D19E, 0xC5CEF3E5, 0xDC7E339D, 0xA9A8F688, 0x3A6D76B5)
  {
    k.FiveRounds(75, 0x0FA0A34A, 0x14D893BC, 0xE050A1E7, 0x9DE33036, 0xF733F4CC,
                 0xF274D6A3, 0xF79BE222, 0x2834FDB1, 0x0194156E, 0x706116AC,
                 0x3A6D76B5, 0xA9A8F688, 0xDC7E339D, 0xC5CEF3E5, 0x3119D19E);
  }

  predicate TextBegins(k: Calculation) {
    && k.words(0) == 0x48692054 && k.words(1) == 0x68657265 && k.words(2) == 0x80000000
    && k.words(3) == 0 && k.words(4) == 0 && k.words(5) == 0
    && k.words(6) == 0 && k.words(7) == 0 && k.words(8) == 0
    && k.words(9) == 0 && k.words(10) == 0 && k.words(11) == 0
    && k.words(12) == 0 && k.words(13) == 0 && k.words(14) == 0
    && k.words(15) == 0x00000240
    && k.registers(0) == Registers(0x064C662A, 0xCC6ED1B0, 0x6CFA9AB0, 0x042F137F, 0xCEA570EB)
  }

  lemma TextGiven(k: Calculation)
    requires k.Sound() && TextBegins(k)
    ensures k.Words(0, 0x48692054, 0x68657265, 0x80000000, 0x00000000, 0x00000000, 0x00000000, 0x00000000, 0x00000000)
    ensures k.Words(8, 0x00000000, 0x00000000, 0x00000000, 0x00000000, 0x00000000, 0x00000000, 0x00000000, 0x00000240)
    ensures k.State(0, 0x064C662A, 0xCC6ED1B0, 0xB3EA6AC1, 0x10BC4DFC, 0x3A95C3AF)
  {
    k.WordsGiven(0, 0x48692054, 0x68657265, 0x80000000, 0x00000000, 0x00000000, 0x00000000, 0x00000000, 0x00000000);
    k.WordsGiven(8, 0x00000000, 0x00000000, 0x00000000, 0x00000000, 0x00000000, 0x00000000, 0x00000000, 0x00000240);
    k.HoldsIsRead(0, 0x064C662A, 0xCC6ED1B0, 0x6CFA9AB0, 0x042F137F, 0xCEA570EB);
  }

  lemma TextCalculated(k: Calculation)
    requires k.Sound() && TextBegins(k)
    ensures k.registers(80) == k.Read(0x3119D19E, 0xC5CEF3E5, 0x771F8CE7, 0x2A6A3DA2, 0x4E9B5DAD)
  {
    TextGiven(k);
    TextSchedule(k);
    TextRounds0(k);
    TextRounds10(k);
    TextRounds20(k);
    TextRounds30(k);
    TextRounds40(k);
    TextRounds50(k);
    TextRounds60(k);
    TextRounds70(k);
    TextRounds75(k);
  }

  /** The text and the padding behind it. */
  lemma TextCompressed(h: Registers, block: Block)
    requires h == Registers(0x064C662A, 0xCC6ED1B0, 0x6CFA9AB0, 0x042F137F, 0xCEA570EB)
    requires WordAt(block, 0) == 0x48692054 && WordAt(block, 1) == 0x68657265 && WordAt(block, 2) == 0x80000000
    requires WordAt(block, 15) == 0x240 && forall i :: 2 < i < 15 ==> WordAt(block, i) == 0
    ensures Compress(h, block) == Registers(0x376637C8, 0x923DC595, 0xE41A2797, 0x2E995121, 0x1D40CE98)
  {
    AllStart(h, block);
    OfSound(h, block);
    TextCalculated(Of(h, block));
    Compressed(h, block, 80, 0x3119D19E, 0xC5CEF3E5, 0x771F8CE7, 0x2A6A3DA2, 0x4E9B5DAD,
               Registers(0x376637C8, 0x923DC595, 0xE41A2797, 0x2E995121, 0x1D40CE98));
  }

  predicate OuterKeyWords(k: Calculation) {
    && k.Words(0, 0x57575757, 0x57575757, 0x57575757, 0x57575757, 0x57575757, 0x5C5C5C5C, 0x5C5C5C5C, 0x5C5C5C5C)
    && k.Words(8, 0x5C5C5C5C, 0x5C5C5C5C, 0x5C5C5C5C, 0x5C5C5C5C, 0x5C5C5C5C, 0x5C5C5C5C, 0x5C5C5C5C, 0x5C5C5C5C)
    && k.Words(16, 0x00000000, 0x00000000, 0x00000000, 0xAEAEAEAE, 0xAEAEAEAE, 0xB8B8B8B8, 0xE5E5E5E5, 0xE5E5E5E5)
    && k.Words(24, 0x71717171, 0xCBCBCBCB, 0xCBCBCBCB, 0xBFBFBFBF, 0xCACACACA, 0xE6E6E6E6, 0x0C0C0C0C, 0xE6E6E6E6)
    && k.Words(32, 0x2F2F2F2F, 0xD2D2D2D2, 0x07070707, 0x0D0D0D0D, 0xA6A6A6A6, 0x79797979, 0x2B2B2B2B, 0xDCDCDCDC)
    && k.Words(40, 0xD9D9D9D9, 0x1B1B1B1B, 0xB5B5B5B5, 0x1B1B1B1B, 0xF6F6F6F6, 0x99999999, 0x26262626, 0x3C3C3C3C)
    && k.Words(48, 0xD0D0D0D0, 0xC5C5C5C5, 0x50505050, 0x7F7F7F7F, 0x7D7D7D7D, 0xD8D8D8D8, 0x57575757, 0x0D0D0D0D)
    && k.Words(56, 0xC8C8C8C8, 0x25252525, 0x3C3C3C3C, 0x6A6A6A6A, 0x11111111, 0x82828282, 0x97979797, 0xCBCBCBCB)
    && k.Words(64, 0x95959595, 0x10101010, 0xB5B5B5B5, 0xB0B0B0B0, 0x56565656, 0xC5C5C5C5, 0x71717171, 0x6B6B6B6B)
    && k.Words(72, 0x49494949, 0x5C5C5C5C, 0xE7E7E7E7, 0x22222222, 0x19191919, 0xD6D6D6D6, 0xA2A2A2A2, 0x53535353)
  }

  lemma OuterKeySchedule(k: Calculation)
    requires k.Sound()
    requires k.Words(0, 0x57575757, 0x57575757, 0x57575757, 0x57575757, 0x57575757, 0x5C5C5C5C, 0x5C5C5C5C, 0x5C5C5C5C)
    requires k.Words(8, 0x5C5C5C5C, 0x5C5C5C5C, 0x5C5C5C5C, 0x5C5C5C5C, 0x5C5C5C5C, 0x5C5C5C5C, 0x5C5C5C5C, 0x5C5C5C5C)
    ensures OuterKeyWords(k)
  {
    k.EightWords(0, 0x57575757, 0x57575757, 0x57575757, 0x57575757, 0x57575757, 0x5C5C5C5C, 0x5C5C5C5C, 0x5C5C5C5C,
                 0x5C5C5C5C, 0x5C5C5C5C, 0x5C5C5C5C, 0x5C5C5C5C, 0x5C5C5C5C, 0x5C5C5C5C, 0x5C5C5C5C, 0x5C5C5C5C,
                 0x00000000, 0x00000000, 0x00000000, 0xAEAEAEAE, 0xAEAEAEAE, 0xB8B8B8B8, 0xE5E5E5E5, 0xE5E5E5E5);
    k.EightWords(8, 0x5C5C5C5C, 0x5C5C5C5C, 0x5C5C5C5C, 0x5C5C5C5C, 0x5C5C5C5C, 0x5C5C5C5C, 0x5C5C5C5C, 0x5C5C5C5C,
                 0x00000000, 0x00000000, 0x00000000, 0xAEAEAEAE, 0xAEAEAEAE, 0xB8B8B8B8, 0xE5E5E5E5, 0xE5E5E5E5,
                 0x71717171, 0xCBCBCBCB, 0xCBCBCBCB, 0xBFBFBFBF, 0xCACACACA, 0xE6E6E6E6, 0x0C0C0C0C, 0xE6E6E6E6);
    k.EightWords(16, 0x00000000, 0x00000000, 0x00000000, 0xAEAEAEAE, 0xAEAEAEAE, 0xB8B8B8B8, 0xE5E5E5E5, 0xE5E5E5E5,
                 0x71717171, 0xCBCBCBCB, 0xCBCBCBCB, 0xBFBFBFBF, 0xCACACACA, 0xE6E6E6E6, 0x0C0C0C0C, 0xE6E6E6E6,
                 0x2F2F2F2F, 0xD2D2D2D2, 0x07070707, 0x0D0D0D0D, 0xA6A6A6A6, 0x79797979, 0x2B2B2B2B, 0xDCDCDCDC);
    k.EightWords(24, 0x71717171, 0xCBCBCBCB, 0xCBCBCBCB, 0xBFBFBFBF, 0xCACACACA, 0xE6E6E6E6, 0x0C0C0C0C, 0xE6E6E6E6,
                 0x2F2F2F2F, 0xD2D2D2D2, 0x07070707, 0x0D0D0D0D, 0xA6A6A6A6, 0x79797979, 0x2B2B2B2B, 0xDCDCDCDC,
                 0xD9D9D9D9, 0x1B1B1B1B, 0xB5B5B5B5, 0x1B1B1B1B, 0xF6F6F6F6, 0x99999999, 0x26262626, 0x3C3C3C3C);
    k.EightWords(32, 0x2F2F2F2F, 0xD2D2D2D2, 0x07070707, 0x0D0D0D0D, 0xA6A6A6A6, 0x79797979, 0x2B2B2B2B, 0xDCDCDCDC,
                 0xD9D9D9D9, 0x1B1B1B1B, 0xB5B5B5B5, 0x1B1B1B1B, 0xF6F6F6F6, 0x99999999, 0x26262626, 0x3C3C3C3C,
                 0xD0D0D0D0, 0xC5C5C5C5, 0x50505050, 0x7F7F7F7F, 0x7D7D7D7D, 0xD8D8D8D8, 0x57575757, 0x0D0D0D0D);
    k.EightWords(40, 0xD9D9D9D9, 0x1B1B1B1B, 0xB5B5B5B5, 0x1B1B1B1B, 0xF6F6F6F6, 0x99999999, 0x26262626, 0x3C3C3C3C,
                 0xD0D0D0D0, 0xC5C5C5C5, 0x50505050, 0x7F7F7F7F, 0x7D7D7D7D, 0xD8D8D8D8, 0x57575757, 0x0D0D0D0D,
                 0xC8C8C8C8, 0x25252525, 0x3C3C3C3C, 0x6A6A6A6A, 0x11111111, 0x82828282, 0x97979797, 0xCBCBCBCB);
    k.EightWords(48, 0xD0D0D0D0, 0xC5C5C5C5, 0x50505050, 0x7F7F7F7F, 0x7D7D7D7D, 0xD8D8D8D8, 0x57575757, 0x0D0D0D0D,
                 0xC8C8C8C8, 0x25252525, 0x3C3C3C3C, 0x6A6A6A6A, 0x11111111, 0x82828282, 0x97979797, 0xCBCBCBCB,
                 0x95959595, 0x10101010, 0xB5B5B5B5, 0xB0B0B0B0, 0x56565656, 0xC5C5C5C5, 0x71717171, 0x6B6B6B6B);
    k.EightWords(56, 0xC8C8C8C8, 0x25252525, 0x3C3C3C3C, 0x6A6A6A6A, 0x11111111, 0x82828282, 0x97979797, 0xCBCBCBCB,
                 0x95959595, 0x10101010, 0xB5B5B5B5, 0xB0B0B0B0, 0x56565656, 0xC5C5C5C5, 0x71717171, 0x6B6B6B6B,
                 0x49494949, 0x5C5C5C5C, 0xE7E7E7E7, 0x22222222, 0x19191919, 0xD6D6D6D6, 0xA2A2A2A2, 0x53535353);
  }

  lemma OuterKeyRounds0(k: Calculation)
    requires k.Sound() && k.State(0, 0x67452301, 0xEFCDAB89, 0x62EB73FA, 0x40C951D8, 0x0F4B87C3)
    requires k.Words(0, 0x57575757, 0x57575757, 0x57575757, 0x57575757, 0x57575757, 0x5C5C5C5C, 0x5C5C5C5C, 0x5C5C5C5C)
    requires k.Words(8, 0x5C5C5C5C, 0x5C5C5C5C, 0x5C5C5C5C, 0x5C5C5C5C, 0x5C5C5C5C, 0x5C5C5C5C, 0x5C5C5C5C, 0x5C5C5C5C)
    ensures k.State(10, 0x291707A4, 0x4EA0F295, 0x2DA294C4, 0x202298F9, 0xA4A25472)
  {
    k.FiveRounds(0, 0x67452301, 0xEFCDAB89, 0x62EB73FA, 0x40C951D8, 0x0F4B87C3,
                 0x57575757, 0x57575757, 0x57575757, 0x57575757, 0x57575757,
                 0xF70BF00A, 0x9F8625C2, 0x954AB121, 0xB4F6CC06, 0x584567A8);
    k.FiveRounds(5, 0x584567A8, 0xB4F6CC06, 0x954AB121, 0x9F8625C2, 0xF70BF00A,
                 0x5C5C5C5C, 0x5C5C5C5C, 0x5C5C5C5C, 0x5C5C5C5C, 0x5C5C5C5C,
                 0xA4A25472, 0x202298F9, 0x2DA294C4, 0x4EA0F295, 0x291707A4);
  }

  lemma OuterKeyRounds10(k: Calculation)
    requires k.Sound() && k.State(10, 0x291707A4, 0x4EA0F295, 0x2DA294C4, 0x202298F9, 0xA4A25472)
    requires k.Words(8, 0x5C5C5C5C, 0x5C5C5C5C, 0x5C5C5C5C, 0x5C5C5C5C, 0x5C5C5C5C, 0x5C5C5C5C, 0x5C5C5C5C, 0x5C5C5C5C)
    requires k.Words(16, 0x00000000, 0x00000000, 0x00000000, 0xAEAEAEAE, 0xAEAEAEAE, 0xB8B8B8B8, 0xE5E5E5E5, 0xE5E5E5E5)
    ensures k.State(20, 0x072188F2, 0x9B11C6C9, 0x6DA10227, 0x921A124F, 0x8EFDD152)
  {
    k.FiveRounds(10, 0x291707A4, 0x4EA0F295, 0x2DA294C4, 0x202298F9, 0xA4A25472,
                 0x5C5C5C5C, 0x5C5C5C5C, 0x5C5C5C5C, 0x5C5C5C5C, 0x5C5C5C5C,
                 0x8D1103D1, 0xA4709B19, 0xAB041C3F, 0x954FDB7F, 0xD4644C96);
    k.FiveRounds(15, 0xD4644C96, 0x954FDB7F, 0xAB041C3F, 0xA4709B19, 0x8D1103D1,
                 0x5C5C5C5C, 0x00000000, 0x00000000, 0x00000000, 0xAEAEAEAE,
                 0x8EFDD152, 0x921A124F, 0x6DA10227, 0x9B11C6C9, 0x072188F2);
  }

  lemma OuterKeyRounds20(k: Calculation)
    requires k.Sound() && k.State(20, 0x072188F2, 0x9B11C6C9, 0x6DA10227, 0x921A124F, 0x8EFDD152)
    requires k.Words(16, 0x00000000, 0x00000000, 0x00000000, 0xAEAEAEAE, 0xAEAEAEAE, 0xB8B8B8B8, 0xE5E5E5E5, 0xE5E5E5E5)
    requires k.Words(24, 0x71717171, 0xCBCBCBCB, 0xCBCBCBCB, 0xBFBFBFBF, 0xCACACACA, 0xE6E6E6E6, 0x0C0C0C0C, 0xE6E6E6E6)
    ensures k.State(30, 0xC398DD8B, 0x4EA3BA3F, 0x4547BF41, 0x6E687E9A, 0x2BA0E5DF)
  {
    k.FiveRounds(20, 0x072188F2, 0x9B11C6C9, 0x6DA10227, 0x921A124F, 0x8EFDD152,
                 0xAEAEAEAE, 0xB8B8B8B8, 0xE5E5E5E5, 0xE5E5E5E5, 0x71717171,
                 0x4A782FB6, 0x15ACD97E, 0x93377E09, 0x296EB519, 0x14ACA62E);
    k.FiveRounds(25, 0x14ACA62E, 0x296EB519, 0x93377E09, 0x15ACD97E, 0x4A782FB6,
                 0xCBCBCBCB, 0xCBCBCBCB, 0xBFBFBFBF, 0xCACACACA, 0xE6E6E6E6,
                 0x2BA0E5DF, 0x6E687E9A, 0x4547BF41, 0x4EA3BA3F, 0xC398DD8B);
  }

  lemma OuterKeyRounds30(k: Calculation)
    requires k.Sound() && k.State(30, 0xC398DD8B, 0x4EA3BA3F, 0x4547BF41, 0x6E687E9A, 0x2BA0E5DF)
    requires k.Words(24, 0x71717171, 0xCBCBCBCB, 0xCBCBCBCB, 0xBFBFBFBF, 0xCACACACA, 0xE6E6E6E6, 0x0C0C0C0C, 0xE6E6E6E6)
    requires k.Words(32, 0x2F2F2F2F, 0xD2D2D2D2, 0x07070707, 0x0D0D0D0D, 0xA6A6A6A6, 0x79797979, 0x2B2B2B2B, 0xDCDCDCDC)
    ensures k.State(40, 0x8688E802, 0x471CD067, 0x9F3F50FA, 0x6A1EA75E, 0x1F47EAA1)
  {
    k.FiveRounds(30, 0xC398DD8B, 0x4EA3BA3F, 0x4547BF41, 0x6E687E9A, 0x2BA0E5DF,
                 0x0C0C0C0C, 0xE6E6E6E6, 0x2F2F2F2F, 0xD2D2D2D2, 0x07070707,
                 0x3D522CE5, 0xDD026BA8, 0xADC574C3, 0x30B51D6A, 0x533C3C60);
    k.FiveRounds(35, 0x533C3C60, 0x30B51D6A, 0xADC574C3, 0xDD026BA8, 0x3D522CE5,
                 0x0D0D0D0D, 0xA6A6A6A6, 0x79797979, 0x2B2B2B2B, 0xDCDCDCDC,
                 0x1F47EAA1, 0x6A1EA75E, 0x9F3F50FA, 0x471CD067, 0x8688E802);
  }

  lemma OuterKeyRounds40(k: Calculation)
    requires k.Sound() && k.State(40, 0x8688E802, 0x471CD067, 0x9F3F50FA, 0x6A1EA75E, 0x1F47EAA1)
    requires k.Words(40, 0xD9D9D9D9, 0x1B1B1B1B, 0xB5B5B5B5, 0x1B1B1B1B, 0xF6F6F6F6, 0x99999999, 0x26262626, 0x3C3C3C3C)
    requires k.Words(48, 0xD0D0D0D0, 0xC5C5C5C5, 0x50505050, 0x7F7F7F7F, 0x7D7D7D7D, 0xD8D8D8D8, 0x57575757, 0x0D0D0D0D)
    ensures k.State(50, 0xE745F9C8, 0xE64A65F5, 0xD3EB99BA, 0x1BEAF4FB, 0xC0996F8C)
  {
    k.FiveRounds(40, 0x8688E802, 0x471CD067, 0x9F3F50FA, 0x6A1EA75E, 0x1F47EAA1,
                 0xD9D9D9D9, 0x1B1B1B1B, 0xB5B5B5B5, 0x1B1B1B1B, 0xF6F6F6F6,
                 0x09746224, 0xFB1ABA69, 0xD1DEC60E, 0x5AF107F3, 0xD8B47AC7);
    k.FiveRounds(45, 0xD8B47AC7, 0x5AF107F3, 0xD1DEC60E, 0xFB1ABA69, 0x09746224,
                 0x99999999, 0x26262626, 0x3C3C3C3C, 0xD0D0D0D0, 0xC5C5C5C5,
                 0xC0996F8C, 0x1BEAF4FB, 0xD3EB99BA, 0xE64A65F5, 0xE745F9C8);
  }

  lemma OuterKeyRounds50(k: Calculation)
    requires k.Sound() && k.State(50, 0xE745F9C8, 0xE64A65F5, 0xD3EB99BA, 0x1BEAF4FB, 0xC0996F8C)
    requires k.Words(48, 0xD0D0D0D0, 0xC5C5C5C5, 0x50505050, 0x7F7F7F7F, 0x7D7D7D7D, 0xD8D8D8D8, 0x57575757, 0x0D0D0D0D)
    requires k.Words(56, 0xC8C8C8C8, 0x25252525, 0x3C3C3C3C, 0x6A6A6A6A, 0x11111111, 0x82828282, 0x97979797, 0xCBCBCBCB)
    ensures k.State(60, 0xE8B5D054, 0xF83A29C9, 0xE35D7596, 0x3F7E357A, 0x893D7669)
  {
    k.FiveRounds(50, 0xE745F9C8, 0xE64A65F5, 0xD3EB99BA, 0x1BEAF4FB, 0xC0996F8C,
                 0x50505050, 0x7F7F7F7F, 0x7D7D7D7D, 0xD8D8D8D8, 0x57575757,
                 0xDF4C87A9, 0xB4F9E840, 0xDAA1C856, 0x6B91A26E, 0x122C48C4);
    k.FiveRounds(55, 0x122C48C4, 0x6B91A26E, 0xDAA1C856, 0xB4F9E840, 0xDF4C87A9,
                 0x0D0D0D0D, 0xC8C8C8C8, 0x25252525, 0x3C3C3C3C, 0x6A6A6A6A,
                 0x893D7669, 0x3F7E357A, 0xE35D7596, 0xF83A29C9, 0xE8B5D054);
  }

  lemma OuterKeyRounds60(k: Calculation)
    requires k.Sound() && k.State(60, 0xE8B5D054, 0xF83A29C9, 0xE35D7596, 0x3F7E357A, 0x893D7669)
    requires k.Words(56, 0xC8C8C8C8, 0x25252525, 0x3C3C3C3C, 0x6A6A6A6A, 0x11111111, 0x82828282, 0x97979797, 0xCBCBCBCB)
    requires k.Words(64, 0x95959595, 0x10101010, 0xB5B5B5B5, 0xB0B0B0B0, 0x56565656, 0xC5C5C5C5, 0x71717171, 0x6B6B6B6B)
    ensures k.State(70, 0x92B664F4, 0xE7B99032, 0xA2F805D0, 0x618AF7E0, 0x9D021F75)
  {
    k.FiveRounds(60, 0xE8B5D054, 0xF83A29C9, 0xE35D7596, 0x3F7E357A, 0x893D7669,
                 0x11111111, 0x82828282, 0x97979797, 0xCBCBCBCB, 0x95959595,
                 0x23B03510, 0x81377AFD, 0xA954E1F9, 0xF2CF5AF4, 0xB6065C20);
    k.FiveRounds(65, 0xB6065C20, 0xF2CF5AF4, 0xA954E1F9, 0x81377AFD, 0x23B03510,
                 0x10101010, 0xB5B5B5B5, 0xB0B0B0B0, 0x56565656, 0xC5C5C5C5,
                 0x9D021F75, 0x618AF7E0, 0xA2F805D0, 0xE7B99032, 0x92B664F4);
  }

  lemma OuterKeyRounds70(k: Calculation)
    requires k.Sound() && k.State(70, 0x92B664F4, 0xE7B99032, 0xA2F805D0, 0x618AF7E0, 0x9D021F75)
    requires k.Words(64, 0x95959595, 0x10101010, 0xB5B5B5B5, 0xB0B0B0B0, 0x56565656, 0xC5C5C5C5, 0x71717171, 0x6B6B6B6B)
    requires k.Words(72, 0x49494949, 0x5C5C5C5C, 0xE7E7E7E7, 0x22222222, 0x19191919, 0xD6D6D6D6, 0xA2A2A2A2, 0x53535353)
    ensures k.State(75, 0xDB76E6C5, 0xF7A77F39, 0xE566F3C7, 0x7AE7BB5F, 0xD1468674)
  {
    k.FiveRounds(70, 0x92B664F4, 0xE7B99032, 0xA2F805D0, 0x618AF7E0, 0x9D021F75,
                 0x71717171, 0x6B6B6B6B, 0x49494949, 0x5C5C5C5C, 0xE7E7E7E7,
                 0xD1468674, 0x7AE7BB5F, 0xE566F3C7, 0xF7A77F39, 0xDB76E6C5);
  }

  lemma OuterKeyRounds75(k: Calculation)
    requires k.Sound() && k.State(75, 0xDB76E6C5, 0xF7A77F39, 0xE566F3C7, 0x7AE7BB5F, 0xD1468674)
    requires k.Words(72, 0x49494949, 0x5C5C5C5C, 0xE7E7E7E7, 0x22222222, 0x19191919, 0xD6D6D6D6, 0xA2A2A2A2, 0x53535353)
    ensures k.State(80, 0x6EE5A9CB, 0x8E9CED2A, 0x1919F811, 0x214DBDAB, 0x5FFA8B6F)
  {
    k.FiveRounds(75, 0xDB76E6C5, 0xF7A77F39, 0xE566F3C7, 0x7AE7BB5F, 0xD1468674,
                 0x22222222, 0x19191919, 0xD6D6D6D6, 0xA2A2A2A2, 0x53535353,
                 0x5FFA8B6F, 0x214DBDAB, 0x1919F811, 0x8E9CED2A, 0x6EE5A9CB);
  }

  predicate OuterKeyBegins(k: Calculation) {
    && k.words(0) == 0x57575757 && k.words(1) == 0x57575757 && k.words(2) == 0x57575757
    && k.words(3) == 0x57575757 && k.words(4) == 0x57575757 && k.words(5) == 0x5C5C5C5C
    && k.words(6) == 0x5C5C5C5C && k.words(7) == 0x5C5C5C5C && k.words(8) == 0x5C5C5C5C
    && k.words(9) == 0x5C5C5C5C && k.words(10) == 0x5C5C5C5C && k.words(11) == 0x5C5C5C5C
    && k.words(12) == 0x5C5C5C5C && k.words(13) == 0x5C5C5C5C && k.words(14) == 0x5C5C5C5C
    && k.words(15) == 0x5C5C5C5C
    && k.registers(0) == Registers(0x67452301, 0xEFCDAB89, 0x98BADCFE, 0x10325476, 0xC3D2E1F0)
  }

  lemma OuterKeyGiven(k: Calculation)
    requires k.Sound() && OuterKeyBegins(k)
    ensures k.Words(0, 0x57575757, 0x57575757, 0x57575757, 0x57575757, 0x57575757, 0x5C5C5C5C, 0x5C5C5C5C, 0x5C5C5C5C)
    ensures k.Words(8, 0x5C5C5C5C, 0x5C5C5C5C, 0x5C5C5C5C, 0x5C5C5C5C, 0x5C5C5C5C, 0x5C5C5C5C, 0x5C5C5C5C, 0x5C5C5C5C)
    ensures k.State(0, 0x67452301, 0xEFCDAB89, 0x62EB73FA, 0x40C951D8, 0x0F4B87C3)
  {
    k.WordsGiven(0, 0x57575757, 0x57575757, 0x57575757, 0x57575757, 0x57575757, 0x5C5C5C5C, 0x5C5C5C5C, 0x5C5C5C5C);
    k.WordsGiven(8, 0x5C5C5C5C, 0x5C5C5C5C, 0x5C5C5C5C, 0x5C5C5C5C, 0x5C5C5C5C, 0x5C5C5C5C, 0x5C5C5C5C, 0x5C5C5C5C);
    k.HoldsIsRead(0, 0x67452301, 0xEFCDAB89, 0x98BADCFE, 0x10325476, 0xC3D2E1F0);
  }

  lemma OuterKeyCalculated(k: Calculation)
    requires k.Sound() && OuterKeyBegins(k)
    ensures k.registers(80) == k.Read(0x6EE5A9CB, 0x8E9CED2A, 0x46467E04, 0xC8536F6A, 0xD7FEA2DB)
  {
    OuterKeyGiven(k);
    OuterKeySchedule(k);
    OuterKeyRounds0(k);
    OuterKeyRounds10(k);
    OuterKeyRounds20(k);
    OuterKeyRounds30(k);
    OuterKeyRounds40(k);
    OuterKeyRounds50(k);
    OuterKeyRounds60(k);
    OuterKeyRounds70(k);
    OuterKeyRounds75(k);
  }

  /** The key block with the outer pad. */
  lemma OuterKeyCompressed(h: Registers, block: Block)
    requires h == Registers(0x67452301, 0xEFCDAB89, 0x98BADCFE, 0x10325476, 0xC3D2E1F0)
    requires forall i :: 0 <= i < 16 ==> WordAt(block, i) == if i < 5 then 0x57575757 else 0x5C5C5C5C
    ensures Compress(h, block) == Registers(0xD62ACCCC, 0x7E6A98B3, 0xDF015B02, 0xD885C3E0, 0x9BD184CB)
  {
    AllStart(h, block);
    OfSound(h, block);
    OuterKeyCalculated(Of(h, block));
    Compressed(h, block, 80, 0x6EE5A9CB, 0x8E9CED2A, 0x46467E04, 0xC8536F6A, 0xD7FEA2DB,
               Registers(0xD62ACCCC, 0x7E6A98B3, 0xDF015B02, 0xD885C3E0, 0x9BD184CB));
  }

  predicate InnerDigestWords(k: Calculation) {
    && k.Words(0, 0x376637C8, 0x923DC595, 0xE41A2797, 0x2E995121, 0x1D40CE98, 0x80000000, 0x00000000, 0x00000000)
    && k.Words(8, 0x00000000, 0x00000000, 0x00000000, 0x00000000, 0x00000000, 0x00000000, 0x00000000, 0x000002A0)
    && k.Words(16, 0xA6F820BF, 0x79492969, 0xF2B5D75F, 0x10C2E33C, 0xC813CFE2, 0xE56BAEBE, 0x2185C678, 0x90279A85)
    && k.Words(24, 0x87271C02, 0xB199DE22, 0xC5249BB4, 0x2FCBFE7D, 0xF3142380, 0x409E6F54, 0x516C3175, 0x34F52598)
    && k.Words(32, 0x27E9096D, 0x12FC4A05, 0x96EF4D23, 0xFB177525, 0x10FCC03E, 0x467A2C99, 0x19B33C54, 0x0B6F4202)
    && k.Words(40, 0x47214484, 0x2A3AAC1D, 0x57616E2B, 0xA6C74111, 0x317CFDAD, 0xCAE010FC, 0x93E28ABB, 0x3835A064)
    && k.Words(48, 0x798E206C, 0xA066330C, 0xD28E86A5, 0xC4487182, 0x30AA6597, 0xAAF7F184, 0x127107D2, 0x539457D8)
    && k.Words(56, 0x8673F68F, 0x7DD5B3A4, 0xCE0E85F7, 0x5C39ADC0, 0xDFC3424B, 0x2C5989D7, 0x4848018B, 0x28090DF6)
    && k.Words(64, 0x0255B322, 0xA367E142, 0x0846D666, 0x61A73DC8, 0xBCFF8298, 0xBAF9F3DB, 0x7BDB9A3D, 0x756ED625)
    && k.Words(72, 0xE1A26703, 0xF2A0CA37, 0xD9CB8FFE, 0xE0CAFDB9, 0xB3A816DF, 0xCEC5F008, 0xA219AA5B, 0x9B50589C)
  }

  lemma InnerDigestSchedule(k: Calculation)
    requires k.Sound()
    requires k.Words(0, 0x376637C8, 0x923DC595, 0xE41A2797, 0x2E995121, 0x1D40CE98, 0x80000000, 0x00000000, 0x00000000)
    requires k.Words(8, 0x00000000, 0x00000000, 0x00000000, 0x00000000, 0x00000000, 0x00000000, 0x00000000, 0x000002A0)
    ensures InnerDigestWords(k)
  {
    k.EightWords(0, 0x376637C8, 0x923DC595, 0xE41A2797, 0x2E995121, 0x1D40CE98, 0x80000000, 0x00000000, 0x00000000,
                 0x00000000, 0x00000000, 0x00000000, 0x00000000, 0x00000000, 0x00000000, 0x00000000, 0x000002A0,
                 0xA6F820BF, 0x79492969, 0xF2B5D75F, 0x10C2E33C, 0xC813CFE2, 0xE56BAEBE, 0x2185C678, 0x90279A85);
    k.EightWords(8, 0x00000000, 0x00000000, 0x00000000, 0x00000000, 0x00000000, 0x00000000, 0x00000000, 0x000002A0,
                 0xA6F820BF, 0x79492969, 0xF2B5D75F, 0x10C2E33C, 0xC813CFE2, 0xE56BAEBE, 0x2185C678, 0x90279A85,
                 0x87271C02, 0xB199DE22, 0xC5249BB4, 0x2FCBFE7D, 0xF3142380, 0x409E6F54, 0x516C3175, 0x34F52598);
    k.EightWords(16, 0xA6F820BF, 0x79492969, 0xF2B5D75F, 0x10C2E33C, 0xC813CFE2, 0xE56BAEBE, 0x2185C678, 0x90279A85,
                 0x87271C02, 0xB199DE22, 0xC5249BB4, 0x2FCBFE7D, 0xF3142380, 0x409E6F54, 0x516C3175, 0x34F52598,
                 0x27E9096D, 0x12FC4A05, 0x96EF4D23, 0xFB177525, 0x10FCC03E, 0x467A2C99, 0x19B33C54, 0x0B6F4202);
    k.EightWords(24, 0x87271C02, 0xB199DE22, 0xC5249BB4, 0x2FCBFE7D, 0xF3142380, 0x409E6F54, 0x516C3175, 0x34F52598,
                 0x27E9096D, 0x12FC4A05, 0x96EF4D23, 0xFB177525, 0x10FCC03E, 0x467A2C99, 0x19B33C54, 0x0B6F4202,
                 0x47214484, 0x2A3AAC1D, 0x57616E2B, 0xA6C74111, 0x317CFDAD, 0xCAE010FC, 0x93E28ABB, 0x3835A064);
    k.EightWords(32, 0x27E9096D, 0x12FC4A05, 0x96EF4D23, 0xFB177525, 0x10FCC03E, 0x467A2C99, 0x19B33C54, 0x0B6F4202,
                 0x47214484, 0x2A3AAC1D, 0x57616E2B, 0xA6C74111, 0x317CFDAD, 0xCAE010FC, 0x93E28ABB, 0x3835A064,
                 0x798E206C, 0xA066330C, 0xD28E86A5, 0xC4487182, 0x30AA6597, 0xAAF7F184, 0x127107D2, 0x539457D8);
    k.EightWords(40, 0x47214484, 0x2A3AAC1D, 0x57616E2B, 0xA6C74111, 0x317CFDAD, 0xCAE010FC, 0x93E28ABB, 0x3835A064,
                 0x798E206C, 0xA066330C, 0xD28E86A5, 0xC4487182, 0x30AA6597, 0xAAF7F184, 0x127107D2, 0x539457D8,
                 0x8673F68F, 0x7DD5B3A4, 0xCE0E85F7, 0x5C39ADC0, 0xDFC3424B, 0x2C5989D7, 0x4848018B, 0x28090DF6);
    k.EightWords(48, 0x798E206C, 0xA066330C, 0xD28E86A5, 0xC4487182, 0x30AA6597, 0xAAF7F184, 0x127107D2, 0x539457D8,
                 0x8673F68F, 0x7DD5B3A4, 0xCE0E85F7, 0x5C39ADC0, 0xDFC3424B, 0x2C5989D7, 0x4848018B, 0x28090DF6,
                 0x0255B322, 0xA367E142, 0x0846D666, 0x61A73DC8, 0xBCFF8298, 0xBAF9F3DB, 0x7BDB9A3D, 0x756ED625);
    k.EightWords(56, 0x8673F68F, 0x7DD5B3A4, 0xCE0E85F7, 0x5C39ADC0, 0xDFC3424B, 0x2C5989D7, 0x4848018B, 0x28090DF6,
                 0x0255B322, 0xA367E142, 0x0846D666, 0x61A73DC8, 0xBCFF8298, 0xBAF9F3DB, 0x7BDB9A3D, 0x756ED625,
                 0xE1A26703, 0xF2A0CA37, 0xD9CB8FFE, 0xE0CAFDB9, 0xB3A816DF, 0xCEC5F008, 0xA219AA5B, 0x9B50589C);
  }

  lemma InnerDigestRounds0(k: Calculation)
    requires k.Sound() && k.State(0, 0xD62ACCCC, 0x7E6A98B3, 0x7C056C0B, 0x62170F83, 0x6F46132E)
    requires k.Words(0, 0x376637C8, 0x923DC595, 0xE41A2797, 0x2E995121, 0x1D40CE98, 0x80000000, 0x00000000, 0x00000000)
    requires k.Words(8, 0x00000000, 0x00000000, 0x00000000, 0x00000000, 0x00000000, 0x00000000, 0x00000000, 0x000002A0)
    ensures k.State(10, 0xCCD597AA, 0xD71219E7, 0xAA8588FB, 0xD9AA3C64, 0x89D1001E)
  {
    k.FiveRounds(0, 0xD62ACCCC, 0x7E6A98B3, 0x7C056C0B, 0x62170F83, 0x6F46132E,
                 0x376637C8, 0x923DC595, 0xE41A2797, 0x2E995121, 0x1D40CE98,
                 0xD1992B08, 0xD776FB36, 0x2C080A30, 0x1EA600EE, 0xB67C63E9);
    k.FiveRounds(5, 0xB67C63E9, 0x1EA600EE, 0x2C080A30, 0xD776FB36, 0xD1992B08,
                 0x80000000, 0x00000000, 0x00000000, 0x00000000, 0x00000000,
                 0x89D1001E, 0xD9AA3C64, 0xAA8588FB, 0xD71219E7, 0xCCD597AA);
  }

  lemma InnerDigestRounds10(k: Calculation)
    requires k.Sound() && k.State(10, 0xCCD597AA, 0xD71219E7, 0xAA8588FB, 0xD9AA3C64, 0x89D1001E)
    requires k.Words(8, 0x00000000, 0x00000000, 0x00000000, 0x00000000, 0x00000000, 0x00000000, 0x00000000, 0x000002A0)
    requires k.Words(16, 0xA6F820BF, 0x79492969, 0xF2B5D75F, 0x10C2E33C, 0xC813CFE2, 0xE56BAEBE, 0x2185C678, 0x90279A85)
    ensures k.State(20, 0x87352C04, 0xB3A5F54F, 0x452FF72D, 0x3FAD5FFB, 0x15ECB634)
  {
    k.FiveRounds(10, 0xCCD597AA, 0xD71219E7, 0xAA8588FB, 0xD9AA3C64, 0x89D1001E,
                 0x00000000, 0x00000000, 0x00000000, 0x00000000, 0x00000000,
                 0x7A123537, 0xBA1895DD, 0x400B3EF8, 0xECD4C489, 0x86D71635);
    k.FiveRounds(15, 0x86D71635, 0xECD4C489, 0x400B3EF8, 0xBA1895DD, 0x7A123537,
                 0x000002A0, 0xA6F820BF, 0x79492969, 0xF2B5D75F, 0x10C2E33C,
                 0x15ECB634, 0x3FAD5FFB, 0x452FF72D, 0xB3A5F54F, 0x87352C04);
  }

  lemma InnerDigestRounds20(k: Calculation)
    requires k.Sound() && k.State(20, 0x87352C04, 0xB3A5F54F, 0x452FF72D, 0x3FAD5FFB, 0x15ECB634)
    requires k.Words(16, 0xA6F820BF, 0x79492969, 0xF2B5D75F, 0x10C2E33C, 0xC813CFE2, 0xE56BAEBE, 0x2185C678, 0x90279A85)
    requires k.Words(24, 0x87271C02, 0xB199DE22, 0xC5249BB4, 0x2FCBFE7D, 0xF3142380, 0x409E6F54, 0x516C3175, 0x34F52598)
    ensures k.State(30, 0x2936609A, 0x6E175994, 0xCD70F91C, 0x58404B8F, 0x345CFDC0)
  {
    k.FiveRounds(20, 0x87352C04, 0xB3A5F54F, 0x452FF72D, 0x3FAD5FFB, 0x15ECB634,
                 0xC813CFE2, 0xE56BAEBE, 0x2185C678, 0x90279A85, 0x87271C02,
                 0x5013C91A, 0x6141C243, 0xA71BF798, 0xA3F27191, 0x816BFA26);
    k.FiveRounds(25, 0x816BFA26, 0xA3F27191, 0xA71BF798, 0x6141C243, 0x5013C91A,
                 0xB199DE22, 0xC5249BB4, 0x2FCBFE7D, 0xF3142380, 0x409E6F54,
                 0x345CFDC0, 0x58404B8F, 0xCD70F91C, 0x6E175994, 0x2936609A);
  }

  lemma InnerDigestRounds30(k: Calculation)
    requires k.Sound() && k.State(30, 0x2936609A, 0x6E175994, 0xCD70F91C, 0x58404B8F, 0x345CFDC0)
    requires k.Words(24, 0x87271C02, 0xB199DE22, 0xC5249BB4, 0x2FCBFE7D, 0xF3142380, 0x409E6F54, 0x516C3175, 0x34F52598)
    requires k.Words(32, 0x27E9096D, 0x12FC4A05, 0x96EF4D23, 0xFB177525, 0x10FCC03E, 0x467A2C99, 0x19B33C54, 0x0B6F4202)
    ensures k.State(40, 0xF70A6C49, 0x03EA9870, 0x29988B7A, 0xC5585C46, 0x91603E25)
  {
    k.FiveRounds(30, 0x2936609A, 0x6E175994, 0xCD70F91C, 0x58404B8F, 0x345CFDC0,
                 0x516C3175, 0x34F52598, 0x27E9096D, 0x12FC4A05, 0x96EF4D23,
                 0x7F84E4FB, 0x6C6B4C43, 0x45D5667A, 0x91D0C8AE, 0x0B5E7310);
    k.FiveRounds(35, 0x0B5E7310, 0x91D0C8AE, 0x45D5667A, 0x6C6B4C43, 0x7F84E4FB,
                 0xFB177525, 0x10FCC03E, 0x467A2C99, 0x19B33C54, 0x0B6F4202,
                 0x91603E25, 0xC5585C46, 0x29988B7A, 0x03EA9870, 0xF70A6C49);
  }

  lemma InnerDigestRounds40(k: Calculation)
    requires k.Sound() && k.State(40, 0xF70A6C49, 0x03EA9870, 0x29988B7A, 0xC5585C46, 0x91603E25)
    requires k.Words(40, 0x47214484, 0x2A3AAC1D, 0x57616E2B, 0xA6C74111, 0x317CFDAD, 0xCAE010FC, 0x93E28ABB, 0x3835A064)
    requires k.Words(48, 0x798E206C, 0xA066330C, 0xD28E86A5, 0xC4487182, 0x30AA6597, 0xAAF7F184, 0x127107D2, 0x539457D8)
    ensures k.State(50, 0x23CA5A83, 0xF9D975D8, 0x62100D3B, 0xE9F07FB4, 0x07A2CF8C)
  {
    k.FiveRounds(40, 0xF70A6C49, 0x03EA9870, 0x29988B7A, 0xC5585C46, 0x91603E25,
                 0x47214484, 0x2A3AAC1D, 0x57616E2B, 0xA6C74111, 0x317CFDAD,
                 0x9F48AC77, 0xD62C3559, 0x5434A735, 0xB534C5CC, 0x5A863E46);
    k.FiveRounds(45, 0x5A863E46, 0xB534C5CC, 0x5434A735, 0xD62C3559, 0x9F48AC77,
                 0xCAE010FC, 0x93E28ABB, 0x3835A064, 0x798E206C, 0xA066330C,
                 0x07A2CF8C, 0xE9F07FB4, 0x62100D3B, 0xF9D975D8, 0x23CA5A83);
  }

  lemma InnerDigestRounds50(k: Calculation)
    requires k.Sound() && k.State(50, 0x23CA5A83, 0xF9D975D8, 0x62100D3B, 0xE9F07FB4, 0x07A2CF8C)
    requires k.Words(48, 0x798E206C, 0xA066330C, 0xD28E86A5, 0xC4487182, 0x30AA6597, 0xAAF7F184, 0x127107D2, 0x539457D8)
    requires k.Words(56, 0x8673F68F, 0x7DD5B3A4, 0xCE0E85F7, 0x5C39ADC0, 0xDFC3424B, 0x2C5989D7, 0x4848018B, 0x28090DF6)
    ensures k.State(60, 0x9FE05C3C, 0x8A46B046, 0x6F27BFD6, 0xE2459265, 0xBC93CFA0)
  {
    k.FiveRounds(50, 0x23CA5A83, 0xF9D975D8, 0x62100D3B, 0xE9F07FB4, 0x07A2CF8C,
                 0xD28E86A5, 0xC4487182, 0x30AA6597, 0xAAF7F184, 0x127107D2,
                 0xD5BA5F94, 0x7FF29C2B, 0x73900AE4, 0x687DFF05, 0xF23BC3DF);
    k.FiveRounds(55, 0xF23BC3DF, 0x687DFF05, 0x73900AE4, 0x7FF29C2B, 0xD5BA5F94,
                 0x539457D8, 0x8673F68F, 0x7DD5B3A4, 0xCE0E85F7, 0x5C39ADC0,
                 0xBC93CFA0, 0xE2459265, 0x6F27BFD6, 0x8A46B046, 0x9FE05C3C);
  }

  lemma InnerDigestRounds60(k: Calculation)
    requires k.Sound() && k.State(60, 0x9FE05C3C, 0x8A46B046, 0x6F27BFD6, 0xE2459265, 0xBC93CFA0)
    requires k.Words(56, 0x8673F68F, 0x7DD5B3A4, 0xCE0E85F7, 0x5C39ADC0, 0xDFC3424B, 0x2C5989D7, 0x4848018B, 0x28090DF6)
    requires k.Words(64, 0x0255B322, 0xA367E142, 0x0846D666, 0x61A73DC8, 0xBCFF8298, 0xBAF9F3DB, 0x7BDB9A3D, 0x756ED625)
    ensures k.State(70, 0x9F99F09D, 0x1DBB688D, 0xC3379C08, 0xEF0BF10C, 0x92DF91E0)
  {
    k.FiveRounds(60, 0x9FE05C3C, 0x8A46B046, 0x6F27BFD6, 0xE2459265, 0xBC93CFA0,
                 0xDFC3424B, 0x2C5989D7, 0x4848018B, 0x28090DF6, 0x0255B322,
                 0x3E74BAC6, 0xE49D28E5, 0xFD36D1EA, 0x88CFCA97, 0x1A36945A);
    k.FiveRounds(65, 0x1A36945A, 0x88CFCA97, 0xFD36D1EA, 0xE49D28E5, 0x3E74BAC6,
                 0xA367E142, 0x0846D666, 0x61A73DC8, 0xBCFF8298, 0xBAF9F3DB,
                 0x92DF91E0, 0xEF0BF10C, 0xC3379C08, 0x1DBB688D, 0x9F99F09D);
  }

  lemma InnerDigestRounds70(k: Calculation)
    requires k.Sound() && k.State(70, 0x9F99F09D, 0x1DBB688D, 0xC3379C08, 0xEF0BF10C, 0x92DF91E0)
    requires k.Words(64, 0x0255B322, 0xA367E142, 0x0846D666, 0x61A73DC8, 0xBCFF8298, 0xBAF9F3DB, 0x7BDB9A3D, 0x756ED625)
    requires k.Words(72, 0xE1A26703, 0xF2A0CA37, 0xD9CB8FFE, 0xE0CAFDB9, 0xB3A816DF, 0xCEC5F008, 0xA219AA5B, 0x9B50589C)
    ensures k.State(75, 0xB3C2B30C, 0xC6A370C6, 0x4E3FE6E9, 0x00E86348, 0x74E8C80A)
  {
    k.FiveRounds(70, 0x9F99F09D, 0x1DBB688D, 0xC3379C08, 0xEF0BF10C, 0x92DF91E0,
                 0x7BDB9A3D, 0x756ED625, 0xE1A26703, 0xF2A0CA37, 0xD9CB8FFE,
                 0x74E8C80A, 0x00E86348, 0x4E3FE6E9, 0xC6A370C6, 0xB3C2B30C);
  }

  lemma InnerDigestRounds75(k: Calculation)
    requires k.Sound() && k.State(75, 0xB3C2B30C, 0xC6A370C6, 0x4E3FE6E9, 0x00E86348, 0x74E8C80A)
    requires k.Words(72, 0xE1A26703, 0xF2A0CA37, 0xD9CB8FFE, 0xE0CAFDB9, 0xB3A816DF, 0xCEC5F008, 0xA219AA5B, 0x9B50589C)
    ensures k.State(80, 0xDFEC64BA, 0xD69AD9B1, 0x0E2996D0, 0x8AC722B8, 0x55D4E4D5)
  {
    k.FiveRounds(75, 0xB3C2B30C, 0xC6A370C6, 0x4E3FE6E9, 0x00E86348, 0x74E8C80A,
                 0xE0CAFDB9, 0xB3A816DF, 0xCEC5F008, 0xA219AA5B, 0x9B50589C,
                 0x55D4E4D5, 0x8AC722B8, 0x0E2996D0, 0xD69AD9B1, 0xDFEC64BA);
  }

  predicate InnerDigestBegins(k: Calculation) {
    && k.words(0) == 0x376637C8 && k.words(1) == 0x923DC595 && k.words(2) == 0xE41A2797
    && k.words(3) == 0x2E995121 && k.words(4) == 0x1D40CE98 && k.words(5) == 0x80000000
    && k.words(6) == 0 && k.words(7) == 0 && k.words(8) == 0
    && k.words(9) == 0 && k.words(10) == 0 && k.words(11) == 0
    && k.words(12) == 0 && k.words(13) == 0 && k.words(14) == 0
    && k.words(15) == 0x000002A0
    && k.registers(0) == Registers(0xD62ACCCC, 0x7E6A98B3, 0xDF015B02, 0xD885C3E0, 0x9BD184CB)
  }

  lemma InnerDigestGiven(k: Calculation)
    requires k.Sound() && InnerDigestBegins(k)
    ensures k.Words(0, 0x376637C8, 0x923DC595, 0xE41A2797, 0x2E995121, 0x1D40CE98, 0x80000000, 0x00000000, 0x00000000)
    ensures k.Words(8, 0x00000000, 0x00000000, 0x00000000, 0x00000000, 0x00000000, 0x00000000, 0x00000000, 0x000002A0)
    ensures k.State(0, 0xD62ACCCC, 0x7E6A98B3, 0x7C056C0B, 0x62170F83, 0x6F46132E)
  {
    k.WordsGiven(0, 0x376637C8, 0x923DC595, 0xE41A2797, 0x2E995121, 0x1D40CE98, 0x80000000, 0x00000000, 0x00000000);
    k.WordsGiven(8, 0x00000000, 0x00000000, 0x00000000, 0x00000000, 0x00000000, 0x00000000, 0x00000000, 0x000002A0);
    k.HoldsIsRead(0, 0xD62ACCCC, 0x7E6A98B3, 0xDF015B02, 0xD885C3E0, 0x9BD184CB);
  }

  lemma InnerDigestCalculated(k: Calculation)
    requires k.Sound() && InnerDigestBegins(k)
    ensures k.registers(80) == k.Read(0xDFEC64BA, 0xD69AD9B1, 0x038A65B4, 0x22B1C8AE, 0x55753935)
  {
    InnerDigestGiven(k);
    InnerDigestSchedule(k);
    InnerDigestRounds0(k);
    InnerDigestRounds10(k);
    InnerDigestRounds20(k);
    InnerDigestRounds30(k);
    InnerDigestRounds40(k);
    InnerDigestRounds50(k);
    InnerDigestRounds60(k);
    InnerDigestRounds70(k);
    InnerDigestRounds75(k);
  }

  /** The inner digest and the padding behind it. */
  lemma InnerDigestCompressed(h: Registers, block: Block)
    requires h == Registers(0xD62ACCCC, 0x7E6A98B3, 0xDF015B02, 0xD885C3E0, 0x9BD184CB)
    requires WordAt(block, 0) == 0x376637C8 && WordAt(block, 1) == 0x923DC595 && WordAt(block, 2) == 0xE41A2797
    requires WordAt(block, 3) == 0x2E995121 && WordAt(block, 4) == 0x1D40CE98 && WordAt(block, 5) == 0x80000000
    requires WordAt(block, 15) == 0x2A0 && forall i :: 5 < i < 15 ==> WordAt(block, i) == 0
    ensures Compress(h, block) == Registers(0xB6173186, 0x55057264, 0xE28BC0B6, 0xFB378C8E, 0xF146BE00)
  {
    AllStart(h, block);
    OfSound(h, block);
    InnerDigestCalculated(Of(h, block));
    Compressed(h, block, 80, 0xDFEC64BA, 0xD69AD9B1, 0x038A65B4, 0x22B1C8AE, 0x55753935,
               Registers(0xB6173186, 0x55057264, 0xE28BC0B6, 0xFB378C8E, 0xF146BE00));
  }

  /** A pad of the key, octet by octet. */
  lemma PadAt(key: seq<Octet>, pad: Octet, b: bv8, k: nat)
    requires key == KEY && pad == Num(b) && k < 64
    ensures XorEach(KeyBlock(key), pad)[k] == if k < 20 then Num(0x0B ^ b) else pad
  {
    CombinedIs(XorOp, 0x0B, b);
    XorZero(pad);
    assert KeyBlock(key)[k] == if k < 20 then Num(0x0B) else 0;
  }

  lemma WordOfSame(block: Block, i: nat, x: Octet)
    requires i < 16
    requires block[4 * i] == x && block[4 * i + 1] == x && block[4 * i + 2] == x && block[4 * i + 3] == x
    ensures WordAt(block, i) == x * 0x101_0101
  {
  }

  lemma PadWords(block: Block, x: Octet, y: Octet)
    requires forall k :: 0 <= k < 64 ==> block[k] == if k < 20 then x else y
    ensures forall i :: 0 <= i < 16 ==> WordAt(block, i) == if i < 5 then x * 0x101_0101 else y * 0x101_0101
  {
    forall i | 0 <= i < 16 ensures WordAt(block, i) == if i < 5 then x * 0x101_0101 else y * 0x101_0101 {
      WordOfSame(block, i, if i < 5 then x else y);
    }
  }

  lemma EndWords(block: Block, from: nat, length: nat)
    requires from < 15 && block[4 * from] == 0x80
    requires forall k :: 4 * from < k < 62 ==> block[k] == 0
    requires block[62] == length / 0x100 && block[63] == length % 0x100
    ensures WordAt(block, from) == 0x80000000 && WordAt(block, 15) == length
    ensures forall i :: from < i < 15 ==> WordAt(block, i) == 0
  {
    if from < 15 {
      forall i | from < i < 15 ensures WordAt(block, i) == 0 {
        WordOfSame(block, i, 0);
      }
    }
  }

  /** The key block with a pad, and less than a block behind it, padded. */
  lemma KeyedPadded(key: seq<Octet>, pad: Octet, b: bv8, rest: seq<Octet>, text: seq<Octet>, k: nat)
    requires key == KEY && pad == Num(b) && |rest| < 56 && text == XorEach(KeyBlock(key), pad) + rest && k < 128
    ensures |Padded(text)| == 128
    ensures Padded(text)[k] == if k < 20 then Num(0x0B ^ b) else if k < 64 then pad
                               else if k < 64 + |rest| then rest[k - 64] else if k == 64 + |rest| then 0x80
                               else if k < 126 then 0
                               else if k == 126 then 8 * |text| / 0x100 else 8 * |text| % 0x100
  {
    PaddedAt(text, k);
    if k < 64 {
      PadAt(key, pad, b, k);
    }
  }

  lemma KeyedFirst(key: seq<Octet>, pad: Octet, b: bv8, rest: seq<Octet>, text: seq<Octet>)
    requires key == KEY && pad == Num(b) && |rest| < 56 && text == XorEach(KeyBlock(key), pad) + rest
    ensures |Padded(text)| == 128
    ensures forall i :: 0 <= i < 16 ==>
              WordAt(BlockAt(Padded(text), 0), i) == if i < 5 then Num(0x0B ^ b) * 0x101_0101 else pad * 0x101_0101
  {
    KeyedPadded(key, pad, b, rest, text, 0);
    var block := BlockAt(Padded(text), 0);
    forall k | 0 <= k < 64 ensures block[k] == if k < 20 then Num(0x0B ^ b) else pad {
      KeyedPadded(key, pad, b, rest, text, k);
    }
    PadWords(block, Num(0x0B ^ b), pad);
  }

  lemma KeyedSecond(key: seq<Octet>, pad: Octet, b: bv8, rest: seq<Octet>, text: seq<Octet>, from: nat)
    requires key == KEY && pad == Num(b) && |rest| == 4 * from < 56 && text == XorEach(KeyBlock(key), pad) + rest
    ensures |Padded(text)| == 128
    ensures var block := BlockAt(Padded(text), 1);
            && (forall k :: 0 <= k < |rest| ==> block[k] == rest[k])
            && WordAt(block, from) == 0x80000000 && WordAt(block, 15) == 8 * |text|
            && forall i :: from < i < 15 ==> WordAt(block, i) == 0
  {
    KeyedPadded(key, pad, b, rest, text, 0);
    var block := BlockAt(Padded(text), 1);
    forall k | 0 <= k < 64
      ensures block[k] == if k < |rest| then rest[k] else if k == |rest| then 0x80 else if k < 62 then 0
                          else if k == 62 then 8 * |text| / 0x100 else 8 * |text| % 0x100
    {
      KeyedPadded(key, pad, b, rest, text, 64 + k);
    }
    EndWords(block, from, 8 * |text|);
  }

  lemma TextBlock(block: Block)
    requires forall k :: 0 <= k < 8 ==> block[k] == HI_THERE[k]
    ensures WordAt(block, 0) == 0x48692054 && WordAt(block, 1) == 0x68657265
  {
  }

  const INNER: seq<Octet> := [0x37, 0x66, 0x37, 0xC8, 0x92, 0x3D, 0xC5, 0x95, 0xE4, 0x1A,
                              0x27, 0x97, 0x2E, 0x99, 0x51, 0x21, 0x1D, 0x40, 0xCE, 0x98]

  lemma InnerOctets(h: Registers)
    requires h == Registers(0x376637C8, 0x923DC595, 0xE41A2797, 0x2E995121, 0x1D40CE98)
    ensures Octets(h) == INNER
  {
    FiveWords(h, INNER);
  }

  lemma InnerSum(key: seq<Octet>, text: seq<Octet>)
    requires key == KEY && text == XorEach(KeyBlock(key), 0x36) + HI_THERE
    ensures Sha1(text) == INNER
  {
    var h0, data := INITIAL, Padded(text);
    KeyedFirst(key, 0x36, 0x36, HI_THERE, text);
    KeyedSecond(key, 0x36, 0x36, HI_THERE, text, 2);
    InnerKeyCompressed(h0, BlockAt(data, 0));
    var h1 := Registers(0x064C662A, 0xCC6ED1B0, 0x6CFA9AB0, 0x042F137F, 0xCEA570EB);
    TextBlock(BlockAt(data, 1));
    TextCompressed(h1, BlockAt(data, 1));
    var h2 := Registers(0x376637C8, 0x923DC595, 0xE41A2797, 0x2E995121, 0x1D40CE98);
    TwoBlocks(text, h1, h2);
    InnerOctets(h2);
  }

  lemma InnerWords()
    ensures INNER[0] == 0x37 && INNER[1] == 0x66 && INNER[2] == 0x37 && INNER[3] == 0xC8
    ensures INNER[4] == 0x92 && INNER[5] == 0x3D && INNER[6] == 0xC5 && INNER[7] == 0x95
    ensures INNER[8] == 0xE4 && INNER[9] == 0x1A && INNER[10] == 0x27 && INNER[11] == 0x97
    ensures INNER[12] == 0x2E && INNER[13] == 0x99 && INNER[14] == 0x51 && INNER[15] == 0x21
    ensures INNER[16] == 0x1D && INNER[17] == 0x40 && INNER[18] == 0xCE && INNER[19] == 0x98
  {
  }

  lemma OuterBlock(block: Block)
    requires forall i :: 0 <= i < 20 ==> block[i] == INNER[i]
    ensures WordAt(block, 0) == 0x376637C8 && WordAt(block, 1) == 0x923DC595 && WordAt(block, 2) == 0xE41A2797
    ensures WordAt(block, 3) == 0x2E995121 && WordAt(block, 4) == 0x1D40CE98
  {
    InnerWords();
  }

  lemma OuterOctets(h: Registers)
    requires h == Registers(0xB6173186, 0x55057264, 0xE28BC0B6, 0xFB378C8E, 0xF146BE00)
    ensures Octets(h) == [0xB6, 0x17, 0x31, 0x86, 0x55, 0x05, 0x72, 0x64, 0xE2, 0x8B,
                          0xC0, 0xB6, 0xFB, 0x37, 0x8C, 0x8E, 0xF1, 0x46, 0xBE, 0x00]
  {
    FiveWords(h, [0xB6, 0x17, 0x31, 0x86, 0x55, 0x05, 0x72, 0x64, 0xE2, 0x8B,
                  0xC0, 0xB6, 0xFB, 0x37, 0x8C, 0x8E, 0xF1, 0x46, 0xBE, 0x00]);
  }

  lemma OuterSum(key: seq<Octet>, text: seq<Octet>)
    requires key == KEY && text == XorEach(KeyBlock(key), 0x5C) + INNER
    ensures Sha1(text) == [0xB6, 0x17, 0x31, 0x86, 0x55, 0x05, 0x72, 0x64, 0xE2, 0x8B,
                          0xC0, 0xB6, 0xFB, 0x37, 0x8C, 0x8E, 0xF1, 0x46, 0xBE, 0x00]
  {
    var h0, data := INITIAL, Padded(text);
    KeyedFirst(key, 0x5C, 0x5C, INNER, text);
    KeyedSecond(key, 0x5C, 0x5C, INNER, text, 5);
    OuterKeyCompressed(h0, BlockAt(data, 0));
    OuterBlock(BlockAt(data, 1));
    var h1 := Registers(0xD62ACCCC, 0x7E6A98B3, 0xDF015B02, 0xD885C3E0, 0x9BD184CB);
    InnerDigestCompressed(h1, BlockAt(data, 1));
    var h2 := Registers(0xB6173186, 0x55057264, 0xE28BC0B6, 0xFB378C8E, 0xF146BE00);
    TwoBlocks(text, h1, h2);
    OuterOctets(h2);
  }

  /** The authentication code of "Hi There" under a key of twenty octets 0x0B is the one that RFC 2202 gives. */
  lemma HiThereCode(key: seq<Octet>, text: seq<Octet>)
    requires key == KEY && text == HI_THERE
    ensures Hmac(key, text) == [0xB6, 0x17, 0x31, 0x86, 0x55, 0x05, 0x72, 0x64, 0xE2, 0x8B,
                                0xC0, 0xB6, 0xFB, 0x37, 0x8C, 0x8E, 0xF1, 0x46, 0xBE, 0x00]
  {
    InnerSum(key, XorEach(KeyBlock(key), 0x36) + HI_THERE);
    OuterSum(key, XorEach(KeyBlock(key), 0x5C) + INNER);
  }
}
