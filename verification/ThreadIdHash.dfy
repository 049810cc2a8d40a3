/**
  The mixing of thread ids (concurrentqueue.h): a finalizer of xor-shifts and odd multiplications,
  on 32-bit or on 64-bit words. Both are injective, so distinct threads keep distinct hashes.
*/
module ThreadIdHash {
  import opened Words

  const WORD32 := 0x1_0000_0000

  /** x ^ y */
  function Xor(x: nat, y: nat): nat { if x == 0 && y == 0 then 0 else (x + y) % 2 + 2 * Xor(x / 2, y / 2) }

  /** x >> s */
  function Shr(x: nat, s: nat): nat { if s == 0 then x else Shr(x / 2, s - 1) }

  /** h ^ (h >> s) */
  function XorShift(h: nat, s: nat): nat { Xor(h, Shr(h, s)) }

  function Times(h: nat, c: nat, word: nat): nat
    requires word > 0
  {
    (h * c) % word
  }

  /** _hash_32_or_64<false>::hash */
  function Hash32(id: nat): nat {
    var h := XorShift(id, 16);
    var h := Times(h, 0x85eb_ca6b, WORD32);
    var h := XorShift(h, 13);
    var h := Times(h, 0xc2b2_ae35, WORD32);
    XorShift(h, 16)
  }

  /** _hash_32_or_64<true>::hash */
  function Hash64(id: nat): nat {
    var h := XorShift(id, 33);
    var h := Times(h, 0xff51_afd7_ed55_8ccd, WORD);
    var h := XorShift(h, 33);
    var h := Times(h, 0xc4ce_b9fe_1a85_ec53, WORD);
    XorShift(h, 33)
  }

  /** hash_thread_id, for ids of `size` bytes: more than 4 select the 64-bit finalizer. */
  function HashThreadId(id: nat, size: nat): nat { if size > 4 then Hash64(id) else Hash32(id) }

  function IdWord(size: nat): nat { if size > 4 then WORD else WORD32 }

  // ---------------------------------------------------------------- xor-shift

  lemma {:induction false} XorBelow(x: nat, y: nat, k: nat)
    requires x < Pow2(k) && y < Pow2(k)
    ensures Xor(x, y) < Pow2(k)
  {
    if k > 0 { XorBelow(x / 2, y / 2, k - 1); }
  }

  lemma {:induction false} XorCancel(x: nat, x': nat, z: nat)
    requires Xor(x, z) == Xor(x', z)
    ensures x == x'
    decreases x + x'
  {
    hide Xor;
    if x > 0 || x' > 0 {
      XorBits(x, z);
      XorBits(x', z);
      XorCancel(x / 2, x' / 2, z / 2);
      SameParity(x, x', z);
    }
  }

  lemma SameParity(x: nat, y: nat, z: nat)
    requires (x + z) % 2 == (y + z) % 2 && x / 2 == y / 2
    ensures x == y
  {}

  /** The lowest bit and the others. */
  lemma {:induction false} XorBits(x: nat, y: nat)
    ensures Xor(x, y) % 2 == (x + y) % 2 && Xor(x, y) / 2 == Xor(x / 2, y / 2)
  {
    var bit, rest := (x + y) % 2, Xor(x / 2, y / 2);
    if x > 0 || y > 0 { assert Xor(x, y) == bit + 2 * rest; }
  }

  lemma {:induction false} XorHigh(x: nat, y: nat, s: nat)
    ensures Shr(Xor(x, y), s) == Xor(Shr(x, s), Shr(y, s))
  {
    if s > 0 {
      XorHigh(x / 2, y / 2, s - 1);
      XorBits(x, y);
    }
  }

  lemma {:induction false} ShrSmaller(x: nat, s: nat)
    ensures Shr(x, s) <= x && (s > 0 && x > 0 ==> Shr(x, s) < x)
  {
    if s > 0 { ShrSmaller(x / 2, s - 1); }
  }

  /** The high bits determine the low ones, from the top down. */
  lemma {:induction false} XorShiftInjective(x: nat, y: nat, s: nat)
    requires s > 0 && XorShift(x, s) == XorShift(y, s)
    ensures x == y
    decreases x + y
  {
    if x + y > 0 {
      XorHigh(x, Shr(x, s), s);
      XorHigh(y, Shr(y, s), s);
      ShrSmaller(x, s);
      ShrSmaller(y, s);
      XorShiftInjective(Shr(x, s), Shr(y, s), s);
      XorCancel(x, y, Shr(x, s));
    }
  }

  lemma {:induction false} XorShiftBelow(x: nat, s: nat, k: nat)
    requires s > 0 && x < Pow2(k)
    ensures XorShift(x, s) < Pow2(k)
  {
    ShrSmaller(x, s);
    XorBelow(x, Shr(x, s), k);
  }

  // ---------------------------------------------------------------- multiplication

  /** A multiplier with an inverse modulo the word can be undone. */
  lemma {:induction false} TimesUndone(h: nat, c: nat, inverse: nat, k: nat, word: nat)
    requires 0 < word && h < word && c * inverse == k * word + 1
    ensures Times(Times(h, c, word), inverse, word) == h
  {
    var q, r := (h * c) / word, (h * c) % word;
    Undo(h, c, inverse, k, word, q, r);
    DivModUnique(r * inverse, word, h * k - q * inverse, h);
  }

  lemma Undo(h: int, c: int, inverse: int, k: int, word: int, q: int, r: int)
    requires h * c == q * word + r && c * inverse == k * word + 1
    ensures r * inverse == (h * k - q * inverse) * word + h
  {
    Product3(h, c, inverse);
    Product3(q, word, inverse);
    Product3(h, k, word);
    Product3(q, inverse, word);
    Distributed(h * c - q * word, h * c, q * word, inverse);
    Distributed(h * k - q * inverse, h * k, q * inverse, word);
    assert h * (k * word + 1) == h * (k * word) + h;
  }

  lemma Product3(x: int, y: int, z: int)
    ensures (x * y) * z == x * (y * z) == x * (z * y)
  {}

  lemma Distributed(d: int, x: int, y: int, z: int)
    requires d == x - y
    ensures d * z == x * z - y * z
  {}

  lemma {:induction false} TimesInjective(h: nat, h': nat, c: nat, inverse: nat, k: nat, word: nat)
    requires 0 < word && h < word && h' < word && c * inverse == k * word + 1 && Times(h, c, word) == Times(h', c, word)
    ensures h == h'
  {
    TimesUndone(h, c, inverse, k, word);
    TimesUndone(h', c, inverse, k, word);
  }

  // ---------------------------------------------------------------- the finalizers

  lemma Word32IsPow2()
    ensures WORD32 == Pow2(32)
  {
    assert Pow2(1) == 2 && Pow2(2) == 4 && Pow2(3) == 8 && Pow2(4) == 16;
    Pow2Sum(4, 4);
    Pow2Sum(8, 8);
    Pow2Sum(16, 16);
  }

  lemma Hash32Injective(a: nat, b: nat)
    requires a < WORD32 && b < WORD32 && Hash32(a) == Hash32(b)
    ensures a == b
  {
    hide XorShift, Times, Pow2;
    Word32IsPow2();
    var a1, b1 := XorShift(a, 16), XorShift(b, 16);
    var a2, b2 := Times(a1, 0x85eb_ca6b, WORD32), Times(b1, 0x85eb_ca6b, WORD32);
    var a3, b3 := XorShift(a2, 13), XorShift(b2, 13);
    var a4, b4 := Times(a3, 0xc2b2_ae35, WORD32), Times(b3, 0xc2b2_ae35, WORD32);
    TimesBelow(a1, 0x85eb_ca6b, WORD32);
    TimesBelow(b1, 0x85eb_ca6b, WORD32);
    XorShiftBelow(a, 16, 32);
    XorShiftBelow(b, 16, 32);
    XorShiftBelow(a2, 13, 32);
    XorShiftBelow(b2, 13, 32);
    XorShiftInjective(a4, b4, 16);
    TimesInjective(a3, b3, 0xc2b2_ae35, 0x7ed1_b41d, (0xc2b2_ae35 * 0x7ed1_b41d) / WORD32, WORD32);
    XorShiftInjective(a2, b2, 13);
    TimesInjective(a1, b1, 0x85eb_ca6b, 0xa5cb_9243, (0x85eb_ca6b * 0xa5cb_9243) / WORD32, WORD32);
    XorShiftInjective(a, b, 16);
  }

  lemma TimesBelow(h: nat, c: nat, word: nat)
    requires word > 0
    ensures Times(h, c, word) < word
  {}

  lemma Hash64Injective(a: nat, b: nat)
    requires a < WORD && b < WORD && Hash64(a) == Hash64(b)
    ensures a == b
  {
    hide XorShift, Times, Pow2;
    WordIsPow2();
    var a1, b1 := XorShift(a, 33), XorShift(b, 33);
    var a2, b2 := Times(a1, 0xff51_afd7_ed55_8ccd, WORD), Times(b1, 0xff51_afd7_ed55_8ccd, WORD);
    var a3, b3 := XorShift(a2, 33), XorShift(b2, 33);
    var a4, b4 := Times(a3, 0xc4ce_b9fe_1a85_ec53, WORD), Times(b3, 0xc4ce_b9fe_1a85_ec53, WORD);
    TimesBelow(a1, 0xff51_afd7_ed55_8ccd, WORD);
    TimesBelow(b1, 0xff51_afd7_ed55_8ccd, WORD);
    XorShiftBelow(a, 33, 64);
    XorShiftBelow(b, 33, 64);
    XorShiftBelow(a2, 33, 64);
    XorShiftBelow(b2, 33, 64);
    XorShiftInjective(a4, b4, 33);
    TimesInjective(a3, b3, 0xc4ce_b9fe_1a85_ec53, 0x9cb4_b2f8_1293_37db, (0xc4ce_b9fe_1a85_ec53 * 0x9cb4_b2f8_1293_37db) / WORD, WORD);
    XorShiftInjective(a2, b2, 33);
    TimesInjective(a1, b1, 0xff51_afd7_ed55_8ccd, 0x4f74_430c_22a5_4005, (0xff51_afd7_ed55_8ccd * 0x4f74_430c_22a5_4005) / WORD, WORD);
    XorShiftInjective(a, b, 33);
  }

  /** Distinct thread ids have distinct hashes, and a hash of a word is a word. */
  lemma HashThreadIdInjective(a: nat, b: nat, size: nat)
    requires a < IdWord(size) && b < IdWord(size)
    ensures HashThreadId(a, size) == HashThreadId(b, size) <==> a == b
    ensures HashThreadId(a, size) < IdWord(size)
  {
    hide Hash32, Hash64;
    if size > 4 {
      Hash64Below(a);
      if Hash64(a) == Hash64(b) { Hash64Injective(a, b); }
    } else {
      Hash32Below(a);
      if Hash32(a) == Hash32(b) { Hash32Injective(a, b); }
    }
  }

  lemma Hash32Below(a: nat)
    ensures Hash32(a) < WORD32
  {
    hide Pow2, XorShift;
    Word32IsPow2();
    var h := Times(XorShift(Times(XorShift(a, 16), 0x85eb_ca6b, WORD32), 13), 0xc2b2_ae35, WORD32);
    XorShiftBelow(h, 16, 32);
  }

  lemma Hash64Below(a: nat)
    ensures Hash64(a) < WORD
  {
    hide Pow2, XorShift;
    WordIsPow2();
    var h := Times(XorShift(Times(XorShift(a, 33), 0xff51_afd7_ed55_8ccd, WORD), 33), 0xc4ce_b9fe_1a85_ec53, WORD);
    XorShiftBelow(h, 33, 64);
  }

  // ---------------------------------------------------------------- reference values

  /** The lowest n bits of r are those of x and y, exclusively. */
  predicate BitsAre(x: nat, y: nat, r: nat, n: nat) { n > 0 ==> (x + y) % 2 == r % 2 && BitsAre(x / 2, y / 2, r / 2, n - 1) }

  lemma {:induction false} XorIs(x: nat, y: nat, r: nat, n: nat)
    requires BitsAre(x, y, r, n) && Xor(Shr(x, n), Shr(y, n)) == Shr(r, n)
    ensures Xor(x, y) == r
  {
    if n > 0 {
      XorIs(x / 2, y / 2, r / 2, n - 1);
      XorBits(x, y);
    }
  }

  lemma {:induction false} XorZero(x: nat)
    ensures Xor(x, 0) == x
  {
    if x > 0 { XorZero(x / 2); }
  }

  lemma Halved(x: nat, q: nat, i: nat)
    requires x == 2 * q + i
    ensures x / 2 == q + i / 2
  {}

  lemma TwiceOf(a: nat, p: nat)
    ensures a * (2 * p) == 2 * (a * p)
  {}

  lemma {:induction false} ShrOf(x: nat, a: nat, i: nat, s: nat)
    requires x == a * Pow2(s) + i && i < Pow2(s)
    ensures Shr(x, s) == a
  {
    if s > 0 {
      TwiceOf(a, Pow2(s - 1));
      Halved(x, a * Pow2(s - 1), i);
      Half(i, Pow2(s - 1));
      ShrOf(x / 2, a, i / 2, s - 1);
    }
  }

  lemma Half(i: nat, p: nat)
    requires i < 2 * p
    ensures i / 2 < p
  {}

  lemma Powers()
    ensures Pow2(13) == 0x2000 && Pow2(16) == 0x1_0000 && Pow2(33) == 0x2_0000_0000
  {
    Word32IsPow2();
    assert Pow2(1) == 2 && Pow2(4) == 16 && Pow2(8) == 256 by {
      assert Pow2(2) == 4 && Pow2(3) == 8;
      Pow2Sum(4, 4);
    }
    Pow2Sum(8, 8);
    Pow2Sum(8, 4);
    Pow2Sum(12, 1);
    Pow2Sum(32, 1);
  }

  /** A reference value of the 32-bit finalizer of MurmurHash3. */
  lemma Reference32()
    ensures Hash32(0x1234_5678) == 0xe37c_d1bc
  {
    hide XorShift;
    First32();
    Second32();
    Third32();
  }

  lemma First32()
    ensures XorShift(0x1234_5678, 16) == 0x1234_444c
  {
    hide Xor, Shr, Pow2;
    Powers();
    ShrOf(0x1234_5678, 0x1234, 0x5678, 16);
    First32Xor();
  }

  lemma First32Xor()
    ensures Xor(0x1234_5678, 0x1234) == 0x1234_444c
  {
    hide Xor;
    XorZero(0x1234);
    XorIs(0x1_2345, 0x1, 0x1_2344, 4);
    XorIs(0x12_3456, 0x12, 0x12_3444, 4);
    XorIs(0x123_4567, 0x123, 0x123_4444, 4);
    XorIs(0x1234_5678, 0x1234, 0x1234_444c, 4);
  }

  lemma Second32()
    ensures XorShift(0x780_83c4, 13) == 0x780_bfc0
  {
    hide Xor, Shr, Pow2;
    Powers();
    ShrOf(0x780_83c4, 0x3c04, 0x3c4, 13);
    Second32Xor();
  }

  lemma Second32Xor()
    ensures Xor(0x780_83c4, 0x3c04) == 0x780_bfc0
  {
    hide Xor;
    XorZero(0x780);
    XorIs(0x7808, 0x3, 0x780b, 4);
    XorIs(0x7_8083, 0x3c, 0x7_80bf, 4);
    XorIs(0x78_083c, 0x3c0, 0x78_0bfc, 4);
    XorIs(0x780_83c4, 0x3c04, 0x780_bfc0, 4);
  }

  lemma Third32()
    ensures XorShift(0xe37c_32c0, 16) == 0xe37c_d1bc
  {
    hide Xor, Shr, Pow2;
    Powers();
    ShrOf(0xe37c_32c0, 0xe37c, 0x32c0, 16);
    Third32Xor();
  }

  lemma Third32Xor()
    ensures Xor(0xe37c_32c0, 0xe37c) == 0xe37c_d1bc
  {
    hide Xor;
    XorZero(0xe37c);
    XorIs(0xe_37c3, 0xe, 0xe_37cd, 4);
    XorIs(0xe3_7c32, 0xe3, 0xe3_7cd1, 4);
    XorIs(0xe37_c32c, 0xe37, 0xe37_cd1b, 4);
    XorIs(0xe37c_32c0, 0xe37c, 0xe37c_d1bc, 4);
  }

  /** A reference value of the 64-bit finalizer of MurmurHash3. */
  lemma Reference64()
    ensures Hash64(0x1234_5678_9abc_def0) == 0x18b8_c062_f6f4_2398
  {
    hide XorShift;
    First64();
    Second64();
    Third64();
  }

  lemma First64()
    ensures XorShift(0x1234_5678_9abc_def0, 33) == 0x1234_5678_93a6_f5cc
  {
    hide Xor, Shr, Pow2;
    Powers();
    ShrOf(0x1234_5678_9abc_def0, 0x91a_2b3c, 0x9abc_def0, 33);
    First64Xor();
  }

  lemma First64Xor()
    ensures Xor(0x1234_5678_9abc_def0, 0x91a_2b3c) == 0x1234_5678_93a6_f5cc
  {
    hide Xor;
    XorZero(0x1_2345_6789);
    XorIs(0x12_3456_789a, 0x9, 0x12_3456_7893, 4);
    XorIs(0x123_4567_89ab, 0x91, 0x123_4567_893a, 4);
    XorIs(0x1234_5678_9abc, 0x91a, 0x1234_5678_93a6, 4);
    XorIs(0x1_2345_6789_abcd, 0x91a2, 0x1_2345_6789_3a6f, 4);
    XorIs(0x12_3456_789a_bcde, 0x9_1a2b, 0x12_3456_7893_a6f5, 4);
    XorIs(0x123_4567_89ab_cdef, 0x91_a2b3, 0x123_4567_893a_6f5c, 4);
    XorIs(0x1234_5678_9abc_def0, 0x91a_2b3c, 0x1234_5678_93a6_f5cc, 4);
  }

  lemma Second64()
    ensures XorShift(0xa6b8_a99f_03da_645c, 33) == 0xa6b8_a99f_5086_3093
  {
    hide Xor, Shr, Pow2;
    Powers();
    ShrOf(0xa6b8_a99f_03da_645c, 0x535c_54cf, 0x1_03da_645c, 33);
    Second64Xor();
  }

  lemma Second64Xor()
    ensures Xor(0xa6b8_a99f_03da_645c, 0x535c_54cf) == 0xa6b8_a99f_5086_3093
  {
    hide Xor;
    XorZero(0xa6b8_a99f);
    XorIs(0xa_6b8a_99f0, 0x5, 0xa_6b8a_99f5, 4);
    XorIs(0xa6_b8a9_9f03, 0x53, 0xa6_b8a9_9f50, 4);
    XorIs(0xa6b_8a99_f03d, 0x535, 0xa6b_8a99_f508, 4);
    XorIs(0xa6b8_a99f_03da, 0x535c, 0xa6b8_a99f_5086, 4);
    XorIs(0xa_6b8a_99f0_3da6, 0x5_35c5, 0xa_6b8a_99f5_0863, 4);
    XorIs(0xa6_b8a9_9f03_da64, 0x53_5c54, 0xa6_b8a9_9f50_8630, 4);
    XorIs(0xa6b_8a99_f03d_a645, 0x535_c54c, 0xa6b_8a99_f508_6309, 4);
    XorIs(0xa6b8_a99f_03da_645c, 0x535c_54cf, 0xa6b8_a99f_5086_3093, 4);
  }

  lemma Third64()
    ensures XorShift(0x18b8_c062_faa8_43a9, 33) == 0x18b8_c062_f6f4_2398
  {
    hide Xor, Shr, Pow2;
    Powers();
    ShrOf(0x18b8_c062_faa8_43a9, 0xc5c_6031, 0xfaa8_43a9, 33);
    Third64Xor();
  }

  lemma Third64Xor()
    ensures Xor(0x18b8_c062_faa8_43a9, 0xc5c_6031) == 0x18b8_c062_f6f4_2398
  {
    hide Xor;
    XorZero(0x1_8b8c_062f);
    XorIs(0x18_b8c0_62fa, 0xc, 0x18_b8c0_62f6, 4);
    XorIs(0x18b_8c06_2faa, 0xc5, 0x18b_8c06_2f6f, 4);
    XorIs(0x18b8_c062_faa8, 0xc5c, 0x18b8_c062_f6f4, 4);
    XorIs(0x1_8b8c_062f_aa84, 0xc5c6, 0x1_8b8c_062f_6f42, 4);
    XorIs(0x18_b8c0_62fa_a843, 0xc_5c60, 0x18_b8c0_62f6_f423, 4);
    XorIs(0x18b_8c06_2faa_843a, 0xc5_c603, 0x18b_8c06_2f6f_4239, 4);
    XorIs(0x18b8_c062_faa8_43a9, 0xc5c_6031, 0x18b8_c062_f6f4_2398, 4);
  }
}
