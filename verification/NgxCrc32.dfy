/**
 * CRC-32 as ngx_crc32.h computes it, four or eight bits at a time with tables,
 * against the bit-by-bit definition in section 3.4 of RFC 2083.
 */
module NgxCrc32 {

  import opened Collections

  type Byte = bv8
  type Word = bv32

  // ---- the definition: one bit at a time ----------------------------------------

  const POLY: Word := 0xedb88320
  const ONES: Word := 0xffffffff

  function Xor(x: Word, y: Word): Word
  {
    x ^ y
  }

  function Half(x: Word): Word
  {
    x >> 1
  }

  predicate Odd(x: Word)
  {
    x & 1 == 1
  }

  function Bit(c: Word): Word
  {
    if Odd(c) then Xor(POLY, Half(c)) else Half(c)
  }

  function Bits(c: Word, n: nat): Word
    decreases n
  {
    if n == 0 then c else Bits(Bit(c), n - 1)
  }

  // The register after the bytes of s, low-order bit of each first.
  function Register(c: Word, s: seq<Byte>): Word
    decreases |s|
  {
    if s == [] then c else Register(Bits(Xor(c, s[0] as Word), 8), s[1..])
  }

  function Crc(s: seq<Byte>): Word
  {
    Xor(Register(ONES, s), ONES)
  }

  // ---- the tables --------------------------------------------------------------------

  datatype Sixteen<T> = Sixteen(
    w0: T, w1: T, w2: T, w3: T,
    w4: T, w5: T, w6: T, w7: T,
    w8: T, w9: T, w10: T, w11: T,
    w12: T, w13: T, w14: T, w15: T)

  type Row = Sixteen<Word>

  function Get<T>(r: Sixteen<T>, l: Word): T
  {
    if l == 0 then r.w0
    else if l == 1 then r.w1
    else if l == 2 then r.w2
    else if l == 3 then r.w3
    else if l == 4 then r.w4
    else if l == 5 then r.w5
    else if l == 6 then r.w6
    else if l == 7 then r.w7
    else if l == 8 then r.w8
    else if l == 9 then r.w9
    else if l == 10 then r.w10
    else if l == 11 then r.w11
    else if l == 12 then r.w12
    else if l == 13 then r.w13
    else if l == 14 then r.w14
    else r.w15
  }

  const TABLE16: Row := Sixteen(
    0x00000000, 0x1db71064, 0x3b6e20c8, 0x26d930ac,
    0x76dc4190, 0x6b6b51f4, 0x4db26158, 0x5005713c,
    0xedb88320, 0xf00f9344, 0xd6d6a3e8, 0xcb61b38c,
    0x9b64c2b0, 0x86d3d2d4, 0xa00ae278, 0xbdbdf21c)

  const R0: Row := Sixteen(
    0x00000000, 0x77073096, 0xee0e612c, 0x990951ba,
    0x076dc419, 0x706af48f, 0xe963a535, 0x9e6495a3,
    0x0edb8832, 0x79dcb8a4, 0xe0d5e91e, 0x97d2d988,
    0x09b64c2b, 0x7eb17cbd, 0xe7b82d07, 0x90bf1d91)

  const R1: Row := Sixteen(
    0x1db71064, 0x6ab020f2, 0xf3b97148, 0x84be41de,
    0x1adad47d, 0x6ddde4eb, 0xf4d4b551, 0x83d385c7,
    0x136c9856, 0x646ba8c0, 0xfd62f97a, 0x8a65c9ec,
    0x14015c4f, 0x63066cd9, 0xfa0f3d63, 0x8d080df5)

  const R2: Row := Sixteen(
    0x3b6e20c8, 0x4c69105e, 0xd56041e4, 0xa2677172,
    0x3c03e4d1, 0x4b04d447, 0xd20d85fd, 0xa50ab56b,
    0x35b5a8fa, 0x42b2986c, 0xdbbbc9d6, 0xacbcf940,
    0x32d86ce3, 0x45df5c75, 0xdcd60dcf, 0xabd13d59)

  const R3: Row := Sixteen(
    0x26d930ac, 0x51de003a, 0xc8d75180, 0xbfd06116,
    0x21b4f4b5, 0x56b3c423, 0xcfba9599, 0xb8bda50f,
    0x2802b89e, 0x5f058808, 0xc60cd9b2, 0xb10be924,
    0x2f6f7c87, 0x58684c11, 0xc1611dab, 0xb6662d3d)

  const R4: Row := Sixteen(
    0x76dc4190, 0x01db7106, 0x98d220bc, 0xefd5102a,
    0x71b18589, 0x06b6b51f, 0x9fbfe4a5, 0xe8b8d433,
    0x7807c9a2, 0x0f00f934, 0x9609a88e, 0xe10e9818,
    0x7f6a0dbb, 0x086d3d2d, 0x91646c97, 0xe6635c01)

  const R5: Row := Sixteen(
    0x6b6b51f4, 0x1c6c6162, 0x856530d8, 0xf262004e,
    0x6c0695ed, 0x1b01a57b, 0x8208f4c1, 0xf50fc457,
    0x65b0d9c6, 0x12b7e950, 0x8bbeb8ea, 0xfcb9887c,
    0x62dd1ddf, 0x15da2d49, 0x8cd37cf3, 0xfbd44c65)

  const R6: Row := Sixteen(
    0x4db26158, 0x3ab551ce, 0xa3bc0074, 0xd4bb30e2,
    0x4adfa541, 0x3dd895d7, 0xa4d1c46d, 0xd3d6f4fb,
    0x4369e96a, 0x346ed9fc, 0xad678846, 0xda60b8d0,
    0x44042d73, 0x33031de5, 0xaa0a4c5f, 0xdd0d7cc9)

  const R7: Row := Sixteen(
    0x5005713c, 0x270241aa, 0xbe0b1010, 0xc90c2086,
    0x5768b525, 0x206f85b3, 0xb966d409, 0xce61e49f,
    0x5edef90e, 0x29d9c998, 0xb0d09822, 0xc7d7a8b4,
    0x59b33d17, 0x2eb40d81, 0xb7bd5c3b, 0xc0ba6cad)

  const R8: Row := Sixteen(
    0xedb88320, 0x9abfb3b6, 0x03b6e20c, 0x74b1d29a,
    0xead54739, 0x9dd277af, 0x04db2615, 0x73dc1683,
    0xe3630b12, 0x94643b84, 0x0d6d6a3e, 0x7a6a5aa8,
    0xe40ecf0b, 0x9309ff9d, 0x0a00ae27, 0x7d079eb1)

  const R9: Row := Sixteen(
    0xf00f9344, 0x8708a3d2, 0x1e01f268, 0x6906c2fe,
    0xf762575d, 0x806567cb, 0x196c3671, 0x6e6b06e7,
    0xfed41b76, 0x89d32be0, 0x10da7a5a, 0x67dd4acc,
    0xf9b9df6f, 0x8ebeeff9, 0x17b7be43, 0x60b08ed5)

  const R10: Row := Sixteen(
    0xd6d6a3e8, 0xa1d1937e, 0x38d8c2c4, 0x4fdff252,
    0xd1bb67f1, 0xa6bc5767, 0x3fb506dd, 0x48b2364b,
    0xd80d2bda, 0xaf0a1b4c, 0x36034af6, 0x41047a60,
    0xdf60efc3, 0xa867df55, 0x316e8eef, 0x4669be79)

  const R11: Row := Sixteen(
    0xcb61b38c, 0xbc66831a, 0x256fd2a0, 0x5268e236,
    0xcc0c7795, 0xbb0b4703, 0x220216b9, 0x5505262f,
    0xc5ba3bbe, 0xb2bd0b28, 0x2bb45a92, 0x5cb36a04,
    0xc2d7ffa7, 0xb5d0cf31, 0x2cd99e8b, 0x5bdeae1d)

  const R12: Row := Sixteen(
    0x9b64c2b0, 0xec63f226, 0x756aa39c, 0x026d930a,
    0x9c0906a9, 0xeb0e363f, 0x72076785, 0x05005713,
    0x95bf4a82, 0xe2b87a14, 0x7bb12bae, 0x0cb61b38,
    0x92d28e9b, 0xe5d5be0d, 0x7cdcefb7, 0x0bdbdf21)

  const R13: Row := Sixteen(
    0x86d3d2d4, 0xf1d4e242, 0x68ddb3f8, 0x1fda836e,
    0x81be16cd, 0xf6b9265b, 0x6fb077e1, 0x18b74777,
    0x88085ae6, 0xff0f6a70, 0x66063bca, 0x11010b5c,
    0x8f659eff, 0xf862ae69, 0x616bffd3, 0x166ccf45)

  const R14: Row := Sixteen(
    0xa00ae278, 0xd70dd2ee, 0x4e048354, 0x3903b3c2,
    0xa7672661, 0xd06016f7, 0x4969474d, 0x3e6e77db,
    0xaed16a4a, 0xd9d65adc, 0x40df0b66, 0x37d83bf0,
    0xa9bcae53, 0xdebb9ec5, 0x47b2cf7f, 0x30b5ffe9)

  const R15: Row := Sixteen(
    0xbdbdf21c, 0xcabac28a, 0x53b39330, 0x24b4a3a6,
    0xbad03605, 0xcdd70693, 0x54de5729, 0x23d967bf,
    0xb3667a2e, 0xc4614ab8, 0x5d681b02, 0x2a6f2b94,
    0xb40bbe37, 0xc30c8ea1, 0x5a05df1b, 0x2d02ef8d)

  // The 256-entry table, sixteen to a row.
  const TABLE256: Sixteen<Row> := Sixteen(
    R0, R1, R2, R3,
    R4, R5, R6, R7,
    R8, R9, R10, R11,
    R12, R13, R14, R15)

  function Table256(i: Word): Word
  {
    Get(Get(TABLE256, Shr4(i)), Low4(i))
  }

  // Parts of a word.
  function Low4(c: Word): Word
  {
    c & 0xf
  }

  function Shr4(c: Word): Word
  {
    c >> 4
  }

  function Shl4(c: Word): Word
  {
    c << 4
  }

  function Low8(c: Word): Word
  {
    c & 0xff
  }

  function Shr8(c: Word): Word
  {
    c >> 8
  }

  predicate Below(c: Word, n: Word)
  {
    c < n
  }

  // ---- exclusive or ------------------------------------------------------------------

  lemma XorAssoc(x: Word, y: Word, z: Word)
    ensures Xor(Xor(x, y), z) == Xor(x, Xor(y, z))
  {
  }

  lemma XorSwap(x: Word, y: Word)
    ensures Xor(x, y) == Xor(y, x)
  {
  }

  lemma XorSelf(x: Word)
    ensures Xor(x, x) == 0 && Xor(x, 0) == x && Xor(0, x) == x
  {
  }

  lemma HalfXor(x: Word, y: Word)
    ensures Half(Xor(x, y)) == Xor(Half(x), Half(y))
  {
  }

  lemma OddXor(x: Word, y: Word)
    ensures Odd(Xor(x, y)) <==> Odd(x) != Odd(y)
  {
  }

  // A bit step is linear.
  lemma BitXor(x: Word, y: Word)
    ensures Bit(Xor(x, y)) == Xor(Bit(x), Bit(y))
  {
    hide Xor, Half, Odd;
    HalfXor(x, y);
    OddXor(x, y);
    var h, k := Half(x), Half(y);
    XorAssoc(POLY, h, k);
    XorAssoc(h, POLY, k);
    XorSwap(h, POLY);
    XorAssoc(POLY, h, Xor(POLY, k));
    XorSelf(POLY);
    XorAssoc(POLY, POLY, Xor(h, k));
    XorSelf(Xor(h, k));
  }

  lemma {:induction false} BitsXor(x: Word, y: Word, n: nat)
    ensures Bits(Xor(x, y), n) == Xor(Bits(x, n), Bits(y, n))
    decreases n
  {
    hide Xor, Bit;
    if n > 0 {
      BitXor(x, y);
      BitsXor(Bit(x), Bit(y), n - 1);
    }
  }

  lemma {:induction false} BitsAdd(c: Word, m: nat, n: nat)
    ensures Bits(c, m + n) == Bits(Bits(c, m), n)
    decreases m
  {
    hide Bit;
    if m > 0 {
      BitsAdd(Bit(c), m - 1, n);
    }
  }

  // ---- the tables are what the definition gives ----------------------------------------

  lemma Four(c: Word)
    ensures Bits(c, 4) == Bit(Bit(Bit(Bit(c))))
  {
    hide Bit;
    assert Bits(c, 4) == Bits(Bit(c), 3);
    assert Bits(Bit(c), 3) == Bits(Bit(Bit(c)), 2);
  }

  // Four zero bits just shift out.
  lemma FourZeros(c: Word)
    ensures Bits(Shl4(Shr4(c)), 4) == Shr4(c)
  {
    Four(Shl4(Shr4(c)));
  }

  lemma Table16Ok(i: Word)
    requires Below(i, 16)
    ensures Get(TABLE16, i) == Bits(i, 4)
  {
    Four(i);
  }

  lemma SplitLow(c: Word)
    ensures c == Xor(Low4(c), Shl4(Shr4(c))) && Below(Low4(c), 16)
  {
  }

  // Four bits at a time.
  lemma Nibble(c: Word)
    ensures Bits(c, 4) == Xor(Get(TABLE16, Low4(c)), Shr4(c))
  {
    hide *;
    SplitLow(c);
    BitsXor(Low4(c), Shl4(Shr4(c)), 4);
    Table16Ok(Low4(c));
    FourZeros(c);
  }

  // Every row is the first one changed by an entry of the small table.
  function Changed(r: Row, c: Word): Row
  {
    Sixteen(
      Xor(c, r.w0), Xor(c, r.w1), Xor(c, r.w2), Xor(c, r.w3),
      Xor(c, r.w4), Xor(c, r.w5), Xor(c, r.w6), Xor(c, r.w7),
      Xor(c, r.w8), Xor(c, r.w9), Xor(c, r.w10), Xor(c, r.w11),
      Xor(c, r.w12), Xor(c, r.w13), Xor(c, r.w14), Xor(c, r.w15))
  }

  lemma GetChanged(r: Row, c: Word, l: Word)
    ensures Get(Changed(r, c), l) == Xor(c, Get(r, l))
  {
    hide Xor;
  }

  lemma Rows0()
    ensures R0 == Changed(R0, TABLE16.w0)
    ensures R1 == Changed(R0, TABLE16.w1)
    ensures R2 == Changed(R0, TABLE16.w2)
    ensures R3 == Changed(R0, TABLE16.w3)
  {
  }

  lemma Rows1()
    ensures R4 == Changed(R0, TABLE16.w4)
    ensures R5 == Changed(R0, TABLE16.w5)
    ensures R6 == Changed(R0, TABLE16.w6)
    ensures R7 == Changed(R0, TABLE16.w7)
  {
  }

  lemma Rows2()
    ensures R8 == Changed(R0, TABLE16.w8)
    ensures R9 == Changed(R0, TABLE16.w9)
    ensures R10 == Changed(R0, TABLE16.w10)
    ensures R11 == Changed(R0, TABLE16.w11)
  {
  }

  lemma Rows3()
    ensures R12 == Changed(R0, TABLE16.w12)
    ensures R13 == Changed(R0, TABLE16.w13)
    ensures R14 == Changed(R0, TABLE16.w14)
    ensures R15 == Changed(R0, TABLE16.w15)
  {
  }

  function Family(r: Row, t: Row): Sixteen<Row>
  {
    Sixteen(
      Changed(r, t.w0), Changed(r, t.w1), Changed(r, t.w2), Changed(r, t.w3),
      Changed(r, t.w4), Changed(r, t.w5), Changed(r, t.w6), Changed(r, t.w7),
      Changed(r, t.w8), Changed(r, t.w9), Changed(r, t.w10), Changed(r, t.w11),
      Changed(r, t.w12), Changed(r, t.w13), Changed(r, t.w14), Changed(r, t.w15))
  }

  lemma GetFamily(r: Row, t: Row, h: Word)
    ensures Get(Family(r, t), h) == Changed(r, Get(t, h))
  {
    hide Changed;
  }

  lemma RowIs(h: Word)
    ensures Get(TABLE256, h) == Changed(R0, Get(TABLE16, h))
  {
    hide Changed, TABLE16, Get, R0, R1, R2, R3, R4, R5, R6, R7, R8, R9, R10, R11, R12, R13, R14, R15;
    Rows0();
    Rows1();
    Rows2();
    Rows3();
    GetFamily(R0, TABLE16, h);
  }

  lemma FirstRowLow(l: Word)
    requires l < 8
    ensures Get(R0, l) == Bit(Bit(Bit(Bit(Get(TABLE16, l)))))
  {
  }

  lemma FirstRowHigh(l: Word)
    requires 8 <= l < 16
    ensures Get(R0, l) == Bit(Bit(Bit(Bit(Get(TABLE16, l)))))
  {
  }

  lemma FirstRow(l: Word)
    requires Below(l, 16)
    ensures Get(R0, l) == Bits(l, 8)
  {
    hide Get, R0, TABLE16, Bit;
    BitsAdd(l, 4, 4);
    Table16Ok(l);
    Four(Get(TABLE16, l));
    if l < 8 {
      FirstRowLow(l);
    } else {
      FirstRowHigh(l);
    }
  }

  lemma SmallHigh(i: Word)
    requires Below(i, 256)
    ensures Below(Shr4(i), 16)
  {
  }

  lemma Table256Ok(i: Word)
    requires Below(i, 256)
    ensures Table256(i) == Bits(i, 8)
  {
    hide Bit, Bits, Get, TABLE256, Xor, Low4, Shl4, Shr4, Below, Changed, R0, TABLE16;
    var h, l := Shr4(i), Low4(i);
    SplitLow(i);
    SmallHigh(i);
    RowIs(h);
    GetChanged(R0, Get(TABLE16, h), l);
    FirstRow(l);
    Table16Ok(h);
    BitsXor(l, Shl4(h), 8);
    BitsAdd(Shl4(h), 4, 4);
    FourZeros(i);
    XorSwap(Get(TABLE16, h), Get(R0, l));
  }

  lemma SplitByte(c: Word)
    ensures c == Xor(Low8(c), Shl4(Shl4(Shr8(c)))) && Below(Low8(c), 256)
  {
  }

  lemma ShiftBack(d: Word)
    requires Below(d, 0x1000_0000)
    ensures Shr4(Shl4(d)) == d
  {
  }

  lemma SmallShifts(c: Word)
    ensures Below(Shr8(c), 0x1000_0000) && Below(Shl4(Shr8(c)), 0x1000_0000)
  {
  }

  // Eight bits at a time.
  lemma WholeByte(c: Word)
    ensures Bits(c, 8) == Xor(Table256(Low8(c)), Shr8(c))
  {
    hide *;
    var h := Shl4(Shl4(Shr8(c)));
    SplitByte(c);
    SmallShifts(c);
    ShiftBack(Shr8(c));
    ShiftBack(Shl4(Shr8(c)));
    BitsXor(Low8(c), h, 8);
    Table256Ok(Low8(c));
    BitsAdd(h, 4, 4);
    FourZeros(h);
    FourZeros(Shr4(h));
  }

  // ---- the three forms -------------------------------------------------------------------

  // One byte of ngx_crc32_short: its low half, then its high half.
  function ShortStep(crc: Word, c: Word): Word
  {
    var first := Xor(Get(TABLE16, Low4(Xor(crc, Low4(c)))), Shr4(crc));
    Xor(Get(TABLE16, Low4(Xor(first, Shr4(c)))), Shr4(first))
  }

  // ngx_crc32_short.
  method Short(s: seq<Byte>) returns (crc: Word)
    ensures crc == Crc(s)
  {
    hide Bits, ShortStep, Xor;
    crc := ONES;
    for i := 0 to |s|
      invariant Register(crc, s[i..]) == Register(ONES, s)
    {
      assert s[i..][1..] == s[i + 1..];
      TwoNibbles(crc, s[i]);
      crc := ShortStep(crc, s[i] as Word);
    }
    crc := Xor(crc, ONES);
  }

  lemma HighHalf(b: Byte)
    ensures Below(Shr4(b as Word), 16)
  {
  }

  lemma TwoNibbles(crc: Word, b: Byte)
    ensures Bits(Xor(crc, b as Word), 8) == ShortStep(crc, b as Word)
  {
    hide Bit, Bits, Get, Xor, Low4, Shl4, Shr4, Below, TABLE16;
    var c := b as Word;
    var low, high := Low4(c), Shr4(c);
    SplitLow(c);
    HighHalf(b);
    NibbleShift(crc, low);
    Nibble(Xor(crc, low));
    var first := Bits(Xor(crc, low), 4);
    FourZeros(c);
    XorAssoc(crc, low, Shl4(high));
    BitsAdd(Xor(crc, c), 4, 4);
    BitsXor(Xor(crc, low), Shl4(high), 4);
    NibbleShift(first, high);
    Nibble(Xor(first, high));
  }

  lemma NibbleShift(crc: Word, n: Word)
    requires Below(n, 16)
    ensures Shr4(Xor(crc, n)) == Shr4(crc)
  {
  }

  // ngx_crc32_update: the register goes on over more bytes.
  method Update(crc: Word, s: seq<Byte>) returns (c: Word)
    ensures c == Register(crc, s)
  {
    hide Bits, Table256, Xor, Low8, Shr8;
    c := crc;
    for i := 0 to |s|
      invariant Register(c, s[i..]) == Register(crc, s)
    {
      assert s[i..][1..] == s[i + 1..];
      var x := Xor(c, s[i] as Word);
      WholeByte(x);
      ByteShift(c, s[i]);
      c := Xor(Table256(Low8(x)), Shr8(c));
    }
  }

  lemma ByteShift(crc: Word, b: Byte)
    ensures Shr8(Xor(crc, b as Word)) == Shr8(crc)
  {
  }

  // ngx_crc32_long.
  method Long(s: seq<Byte>) returns (crc: Word)
    ensures crc == Crc(s)
  {
    crc := Update(ONES, s);
    crc := Xor(crc, ONES);
  }

  lemma {:induction false} RegisterAppend(c: Word, s: seq<Byte>, t: seq<Byte>)
    ensures Register(c, s + t) == Register(Register(c, s), t)
    decreases |s|
  {
    hide Bits;
    if s == [] {
      assert s + t == t;
    } else {
      assert (s + t)[1..] == s[1..] + t && (s + t)[0] == s[0];
      RegisterAppend(Bits(Xor(c, s[0] as Word), 8), s[1..], t);
    }
  }

  // Any cut into incremental updates gives the checksum of the whole.
  method Pieces(pieces: seq<seq<Byte>>) returns (crc: Word)
    ensures crc == Crc(Joined(pieces))
  {
    hide Register;
    crc := ONES;
    RegisterNone(ONES);
    for i := 0 to |pieces|
      invariant crc == Register(ONES, Joined(pieces[..i]))
    {
      crc := Update(crc, pieces[i]);
      RegisterAppend(ONES, Joined(pieces[..i]), pieces[i]);
      assert pieces[..i + 1][..i] == pieces[..i];
    }
    assert pieces[..|pieces|] == pieces;
    crc := Xor(crc, ONES);
  }

  lemma RegisterNone(c: Word)
    ensures Register(c, []) == c
  {
  }
}
