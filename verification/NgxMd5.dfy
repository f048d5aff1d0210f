/**
 * MD5 as ngx_md5.c computes it, piece by piece and with unrolled rounds,
 * against its definition in sections 3.1 to 3.5 of RFC 1321.
 */
module NgxMd5 {

  import opened Collections
  import opened WordSizes

  type Byte = bv8
  type Word = bv32

  datatype Quad = Quad(a: Word, b: Word, c: Word, d: Word)

  const INIT := Quad(0x67452301, 0xefcdab89, 0x98badcfe, 0x10325476)

  // ---- the definition -------------------------------------------------------

  // The functions of section 3.4, one per round.
  function Fn(i: nat, x: Word, y: Word, z: Word): Word
  {
    if i < 16 then (x & y) | (!x & z)
    else if i < 32 then (x & z) | (y & !z)
    else if i < 48 then H(x, y, z)
    else I(x, y, z)
  }

  // Which word of the block operation i takes.
  function K(i: nat): (k: nat)
    ensures k < 16
  {
    if i < 16 then i else if i < 32 then (1 + 5 * i) % 16 else if i < 48 then (5 + 3 * i) % 16 else 7 * i % 16
  }

  // How far operation i shifts.
  function Shift(i: nat): (s: nat)
    ensures s < 32
  {
    var j := i % 4;
    if i < 16 then [7, 12, 17, 22][j]
    else if i < 32 then [5, 9, 14, 20][j]
    else if i < 48 then [4, 11, 16, 23][j]
    else [6, 10, 15, 21][j]
  }

  datatype Row = Row(t0: Word, t1: Word, t2: Word, t3: Word)

  // The table T of section 3.4, four to a row: the integer part of 4294967296
  // times abs(sin(i + 1)).
  function Table(r: nat): Row
  {
    match r
    case 0 => Row(0xd76aa478, 0xe8c7b756, 0x242070db, 0xc1bdceee)
    case 1 => Row(0xf57c0faf, 0x4787c62a, 0xa8304613, 0xfd469501)
    case 2 => Row(0x698098d8, 0x8b44f7af, 0xffff5bb1, 0x895cd7be)
    case 3 => Row(0x6b901122, 0xfd987193, 0xa679438e, 0x49b40821)
    case 4 => Row(0xf61e2562, 0xc040b340, 0x265e5a51, 0xe9b6c7aa)
    case 5 => Row(0xd62f105d, 0x02441453, 0xd8a1e681, 0xe7d3fbc8)
    case 6 => Row(0x21e1cde6, 0xc33707d6, 0xf4d50d87, 0x455a14ed)
    case 7 => Row(0xa9e3e905, 0xfcefa3f8, 0x676f02d9, 0x8d2a4c8a)
    case 8 => Row(0xfffa3942, 0x8771f681, 0x6d9d6122, 0xfde5380c)
    case 9 => Row(0xa4beea44, 0x4bdecfa9, 0xf6bb4b60, 0xbebfbc70)
    case 10 => Row(0x289b7ec6, 0xeaa127fa, 0xd4ef3085, 0x04881d05)
    case 11 => Row(0xd9d4d039, 0xe6db99e5, 0x1fa27cf8, 0xc4ac5665)
    case 12 => Row(0xf4292244, 0x432aff97, 0xab9423a7, 0xfc93a039)
    case 13 => Row(0x655b59c3, 0x8f0ccc92, 0xffeff47d, 0x85845dd1)
    case 14 => Row(0x6fa87e4f, 0xfe2ce6e0, 0xa3014314, 0x4e0811a1)
    case _ => Row(0xf7537e82, 0xbd3af235, 0x2ad7d2bb, 0xeb86d391)
  }

  function T(i: nat): Word
  {
    var r := Table(i / 4);
    if i % 4 == 0 then r.t0 else if i % 4 == 1 then r.t1 else if i % 4 == 2 then r.t2 else r.t3
  }

  function Plus(x: Word, y: Word): Word
  {
    x + y
  }

  function Add4(a: Word, f: Word, x: Word, t: Word): Word
  {
    a + f + x + t
  }

  function Rotate(v: Word, s: nat): Word
    requires s < 32
  {
    (v << s) | (v >> (32 - s))
  }

  // Operation i: a = b + ((a + Fn(b, c, d) + X[k] + T[i]) <<< s), and the roles move on.
  function Op(i: nat, q: Quad, x: seq<Word>): Quad
    requires i < 64 && |x| == 16
  {
    Quad(q.d, Plus(q.b, Rotate(Add4(q.a, Fn(i, q.b, q.c, q.d), x[K(i)], T(i)), Shift(i))), q.b, q.c)
  }

  // The first n operations on one block.
  function Ops(n: nat, q: Quad, x: seq<Word>): Quad
    requires n <= 64 && |x| == 16
  {
    if n == 0 then q else Op(n - 1, Ops(n - 1, q, x), x)
  }

  function Sum(p: Quad, q: Quad): Quad
  {
    Quad(Plus(p.a, q.a), Plus(p.b, q.b), Plus(p.c, q.c), Plus(p.d, q.d))
  }

  // Words are read with the low-order byte first.
  function WordAt(s: seq<Byte>, i: nat): Word
    requires 4 * i + 3 < |s|
  {
    (s[4 * i] as Word) | ((s[4 * i + 1] as Word) << 8) | ((s[4 * i + 2] as Word) << 16) | ((s[4 * i + 3] as Word) << 24)
  }

  function Words(block: seq<Byte>): (x: seq<Word>)
    requires |block| == 64
    ensures |x| == 16
  {
    seq(16, i requires 0 <= i < 16 => WordAt(block, i))
  }

  function Compress(q: Quad, block: seq<Byte>): Quad
    requires |block| == 64
  {
    Sum(q, Ops(64, q, Words(block)))
  }

  // All whole blocks of s, one after the other.
  function Fold(q: Quad, s: seq<Byte>): Quad
    decreases |s|
  {
    if |s| < 64 then q else Fold(Compress(q, s[..64]), s[64..])
  }


  // Byte k of a 64-bit number, low-order byte first.
  function LengthByte(bits: nat, k: nat): Byte
    requires k < 8
  {
    (bits / [1, 0x100, 0x1_0000, 0x100_0000, 0x1_0000_0000, 0x100_0000_0000, 0x1_0000_0000_0000,
             0x100_0000_0000_0000][k] % 256) as Byte
  }

  // Section 3.2: the length of n bytes in bits, as 64 bits.
  function LengthBytes(n: nat): (s: seq<Byte>)
    ensures |s| == 8
  {
    seq(8, k requires 0 <= k < 8 => LengthByte(8 * n % TWO64, k))
  }

  function Zeros(n: nat): (s: seq<Byte>)
    ensures |s| == n
  {
    seq(n, _ => 0 as Byte)
  }

  // Section 3.1: one bit, then as few zeros as bring the length to 56 bytes modulo 64.
  function Pad(msg: seq<Byte>): (s: seq<Byte>)
  {
    msg + [0x80] + Zeros((119 - Used(|msg|)) % 64) + LengthBytes(|msg|)
  }

  // How much of the last block n bytes use.
  function Used(n: nat): (u: nat)
    ensures u < 64 && u <= n && (n - u) % 64 == 0
  {
    n % 64
  }

  lemma PadWhole(msg: seq<Byte>)
    ensures |Pad(msg)| % 64 == 0 && |msg| + 9 <= |Pad(msg)| < |msg| + 73
  {
    hide Used, Zeros, LengthBytes;
    var u := Used(|msg|);
    var k := (|msg| - u) / 64;
    if u < 56 {
      assert |Pad(msg)| == 64 * (k + 1);
    } else {
      assert |Pad(msg)| == 64 * (k + 2);
    }
  }

  function WordBytes(w: Word): seq<Byte>
  {
    [(w & 0xff) as Byte, ((w >> 8) & 0xff) as Byte, ((w >> 16) & 0xff) as Byte, (w >> 24) as Byte]
  }

  function Digest(q: Quad): seq<Byte>
  {
    WordBytes(q.a) + WordBytes(q.b) + WordBytes(q.c) + WordBytes(q.d)
  }

  function Md5(msg: seq<Byte>): seq<Byte>
  {
    Digest(Fold(INIT, Pad(msg)))
  }

  // ---- the rounds as they are written out ------------------------------------

  function F(x: Word, y: Word, z: Word): (r: Word)
    ensures r == (x & y) | (!x & z)
  {
    z ^ (x & (y ^ z))
  }

  function G(x: Word, y: Word, z: Word): (r: Word)
    ensures r == (x & z) | (y & !z)
  {
    y ^ (z & (x ^ y))
  }

  function H(x: Word, y: Word, z: Word): Word
  {
    x ^ y ^ z
  }

  function I(x: Word, y: Word, z: Word): Word
  {
    y ^ (x | !z)
  }

  // The STEP macro: the new value of its second argument.
  function Step(f: Word, a: Word, b: Word, x: Word, t: Word, s: nat): Word
    requires s < 32
  {
    Plus(Rotate(Add4(a, f, x, t), s), b)
  }

  // Four steps in a row, on a, d, c and b.
  function Steps(f: (Word, Word, Word) -> Word, q: Quad, x0: Word, x1: Word, x2: Word, x3: Word, t: Row,
    s0: nat, s1: nat, s2: nat, s3: nat): Quad
    requires s0 < 32 && s1 < 32 && s2 < 32 && s3 < 32
  {
    var a := Step(f(q.b, q.c, q.d), q.a, q.b, x0, t.t0, s0);
    var d := Step(f(a, q.b, q.c), q.d, a, x1, t.t1, s1);
    var c := Step(f(d, a, q.b), q.c, d, x2, t.t2, s2);
    var b := Step(f(c, d, a), q.b, c, x3, t.t3, s3);
    Quad(a, b, c, d)
  }

  ghost predicate Plays(f: (Word, Word, Word) -> Word, i: nat)
  {
    forall x, y, z :: f(x, y, z) == Fn(i, x, y, z)
  }

  lemma StepIsOp(f: (Word, Word, Word) -> Word, i: nat, q: Quad, x: seq<Word>)
    requires i < 64 && |x| == 16 && Plays(f, i)
    ensures Op(i, q, x) == Quad(q.d, Step(f(q.b, q.c, q.d), q.a, q.b, x[K(i)], T(i), Shift(i)), q.b, q.c)
  {
    hide Rotate, T, K, Shift, Fn, Add4, Plus;
    PlusCommutes(q.b, Rotate(Add4(q.a, Fn(i, q.b, q.c, q.d), x[K(i)], T(i)), Shift(i)));
  }

  lemma PlusCommutes(x: Word, y: Word)
    ensures Plus(x, y) == Plus(y, x)
  {
  }

  lemma StepsAreOps(f: (Word, Word, Word) -> Word, i: nat, p: Quad, x: seq<Word>)
    requires i % 4 == 0 && i < 64 && |x| == 16 && Plays(f, i) && Plays(f, i + 1) && Plays(f, i + 2) && Plays(f, i + 3)
    ensures Ops(i + 4, p, x) == Steps(f, Ops(i, p, x), x[K(i)], x[K(i + 1)], x[K(i + 2)], x[K(i + 3)], Table(i / 4),
      Shift(i), Shift(i + 1), Shift(i + 2), Shift(i + 3))
  {
    hide Rotate, K, Shift, Fn, Step, Table, Op, Plays;
    StepIsOp(f, i, Ops(i, p, x), x);
    StepIsOp(f, i + 1, Ops(i + 1, p, x), x);
    StepIsOp(f, i + 2, Ops(i + 2, p, x), x);
    StepIsOp(f, i + 3, Ops(i + 3, p, x), x);
    RowOf(i);
  }

  lemma RowOf(i: nat)
    requires i % 4 == 0
    ensures Table(i / 4) == Row(T(i), T(i + 1), T(i + 2), T(i + 3))
  {
    hide Table;
  }

  lemma RoundFns()
    ensures forall i :: 0 <= i < 16 ==> Plays(F, i)
    ensures forall i :: 16 <= i < 32 ==> Plays(G, i)
    ensures forall i :: 32 <= i < 48 ==> Plays(H, i)
    ensures forall i :: 48 <= i < 64 ==> Plays(I, i)
  {
  }

  function Quarter(f: (Word, Word, Word) -> Word, i: nat, p: Quad, x: seq<Word>): Quad
    requires i + 4 <= 64 && |x| == 16
  {
    Steps(f, Ops(i, p, x), x[K(i)], x[K(i + 1)], x[K(i + 2)], x[K(i + 3)], Table(i / 4),
          Shift(i), Shift(i + 1), Shift(i + 2), Shift(i + 3))
  }

  // One round is four quarters.
  lemma Quarters(f: (Word, Word, Word) -> Word, i: nat, p: Quad, x: seq<Word>)
    requires i % 4 == 0 && i <= 48 && |x| == 16 && forall j :: i <= j < i + 16 ==> Plays(f, j)
    ensures Ops(i + 4, p, x) == Quarter(f, i, p, x) && Ops(i + 8, p, x) == Quarter(f, i + 4, p, x)
    ensures Ops(i + 12, p, x) == Quarter(f, i + 8, p, x) && Ops(i + 16, p, x) == Quarter(f, i + 12, p, x)
  {
    hide Ops, Steps, Plays, Table, K, Shift;
    StepsAreOps(f, i, p, x);
    StepsAreOps(f, i + 4, p, x);
    StepsAreOps(f, i + 8, p, x);
    StepsAreOps(f, i + 12, p, x);
  }

  lemma Quarters1(p: Quad, x: seq<Word>)
    requires |x| == 16
    ensures Ops(4, p, x) == Quarter(F, 0, p, x) && Ops(8, p, x) == Quarter(F, 4, p, x)
    ensures Ops(12, p, x) == Quarter(F, 8, p, x) && Ops(16, p, x) == Quarter(F, 12, p, x)
  {
    hide Ops, Quarter, Plays;
    RoundFns();
    Quarters(F, 0, p, x);
  }

  method Round1(q: Quad, x: seq<Word>, ghost p: Quad) returns (r: Quad)
    requires |x| == 16 && q == Ops(0, p, x)
    ensures r == Ops(16, p, x)
  {
    hide Ops, Steps, Fn, F, G, H, I, Plays;
    Quarters1(p, x);
    r := q;
    r := Steps(F, r, x[0], x[1], x[2], x[3], Row(0xd76aa478, 0xe8c7b756, 0x242070db, 0xc1bdceee), 7, 12, 17, 22);
    r := Steps(F, r, x[4], x[5], x[6], x[7], Row(0xf57c0faf, 0x4787c62a, 0xa8304613, 0xfd469501), 7, 12, 17, 22);
    r := Steps(F, r, x[8], x[9], x[10], x[11], Row(0x698098d8, 0x8b44f7af, 0xffff5bb1, 0x895cd7be), 7, 12, 17, 22);
    r := Steps(F, r, x[12], x[13], x[14], x[15], Row(0x6b901122, 0xfd987193, 0xa679438e, 0x49b40821), 7, 12, 17, 22);
  }

  lemma Quarters2(p: Quad, x: seq<Word>)
    requires |x| == 16
    ensures Ops(20, p, x) == Quarter(G, 16, p, x) && Ops(24, p, x) == Quarter(G, 20, p, x)
    ensures Ops(28, p, x) == Quarter(G, 24, p, x) && Ops(32, p, x) == Quarter(G, 28, p, x)
  {
    hide Ops, Quarter, Plays;
    RoundFns();
    Quarters(G, 16, p, x);
  }

  lemma Words2()
    ensures K(16) == 1 && K(17) == 6 && K(18) == 11 && K(19) == 0
    ensures K(20) == 5 && K(21) == 10 && K(22) == 15 && K(23) == 4
    ensures K(24) == 9 && K(25) == 14 && K(26) == 3 && K(27) == 8
    ensures K(28) == 13 && K(29) == 2 && K(30) == 7 && K(31) == 12
  {
  }

  method Round2(q: Quad, x: seq<Word>, ghost p: Quad) returns (r: Quad)
    requires |x| == 16 && q == Ops(16, p, x)
    ensures r == Ops(32, p, x)
  {
    hide Ops, Steps, Fn, F, G, H, I, Plays, K;
    Words2();
    Quarters2(p, x);
    r := q;
    r := Steps(G, r, x[1], x[6], x[11], x[0], Row(0xf61e2562, 0xc040b340, 0x265e5a51, 0xe9b6c7aa), 5, 9, 14, 20);
    r := Steps(G, r, x[5], x[10], x[15], x[4], Row(0xd62f105d, 0x02441453, 0xd8a1e681, 0xe7d3fbc8), 5, 9, 14, 20);
    r := Steps(G, r, x[9], x[14], x[3], x[8], Row(0x21e1cde6, 0xc33707d6, 0xf4d50d87, 0x455a14ed), 5, 9, 14, 20);
    r := Steps(G, r, x[13], x[2], x[7], x[12], Row(0xa9e3e905, 0xfcefa3f8, 0x676f02d9, 0x8d2a4c8a), 5, 9, 14, 20);
  }

  lemma Quarters3(p: Quad, x: seq<Word>)
    requires |x| == 16
    ensures Ops(36, p, x) == Quarter(H, 32, p, x) && Ops(40, p, x) == Quarter(H, 36, p, x)
    ensures Ops(44, p, x) == Quarter(H, 40, p, x) && Ops(48, p, x) == Quarter(H, 44, p, x)
  {
    hide Ops, Quarter, Plays;
    RoundFns();
    Quarters(H, 32, p, x);
  }

  lemma Words3()
    ensures K(32) == 5 && K(33) == 8 && K(34) == 11 && K(35) == 14
    ensures K(36) == 1 && K(37) == 4 && K(38) == 7 && K(39) == 10
    ensures K(40) == 13 && K(41) == 0 && K(42) == 3 && K(43) == 6
    ensures K(44) == 9 && K(45) == 12 && K(46) == 15 && K(47) == 2
  {
  }

  method Round3(q: Quad, x: seq<Word>, ghost p: Quad) returns (r: Quad)
    requires |x| == 16 && q == Ops(32, p, x)
    ensures r == Ops(48, p, x)
  {
    hide Ops, Steps, Fn, F, G, H, I, Plays, K;
    Words3();
    Quarters3(p, x);
    r := q;
    r := Steps(H, r, x[5], x[8], x[11], x[14], Row(0xfffa3942, 0x8771f681, 0x6d9d6122, 0xfde5380c), 4, 11, 16, 23);
    r := Steps(H, r, x[1], x[4], x[7], x[10], Row(0xa4beea44, 0x4bdecfa9, 0xf6bb4b60, 0xbebfbc70), 4, 11, 16, 23);
    r := Steps(H, r, x[13], x[0], x[3], x[6], Row(0x289b7ec6, 0xeaa127fa, 0xd4ef3085, 0x04881d05), 4, 11, 16, 23);
    r := Steps(H, r, x[9], x[12], x[15], x[2], Row(0xd9d4d039, 0xe6db99e5, 0x1fa27cf8, 0xc4ac5665), 4, 11, 16, 23);
  }

  lemma Quarters4(p: Quad, x: seq<Word>)
    requires |x| == 16
    ensures Ops(52, p, x) == Quarter(I, 48, p, x) && Ops(56, p, x) == Quarter(I, 52, p, x)
    ensures Ops(60, p, x) == Quarter(I, 56, p, x) && Ops(64, p, x) == Quarter(I, 60, p, x)
  {
    hide Ops, Quarter, Plays;
    RoundFns();
    Quarters(I, 48, p, x);
  }

  lemma Words4()
    ensures K(48) == 0 && K(49) == 7 && K(50) == 14 && K(51) == 5
    ensures K(52) == 12 && K(53) == 3 && K(54) == 10 && K(55) == 1
    ensures K(56) == 8 && K(57) == 15 && K(58) == 6 && K(59) == 13
    ensures K(60) == 4 && K(61) == 11 && K(62) == 2 && K(63) == 9
  {
  }

  method Round4(q: Quad, x: seq<Word>, ghost p: Quad) returns (r: Quad)
    requires |x| == 16 && q == Ops(48, p, x)
    ensures r == Ops(64, p, x)
  {
    hide Ops, Steps, Fn, F, G, H, I, Plays, K;
    Words4();
    Quarters4(p, x);
    r := q;
    r := Steps(I, r, x[0], x[7], x[14], x[5], Row(0xf4292244, 0x432aff97, 0xab9423a7, 0xfc93a039), 6, 10, 15, 21);
    r := Steps(I, r, x[12], x[3], x[10], x[1], Row(0x655b59c3, 0x8f0ccc92, 0xffeff47d, 0x85845dd1), 6, 10, 15, 21);
    r := Steps(I, r, x[8], x[15], x[6], x[13], Row(0x6fa87e4f, 0xfe2ce6e0, 0xa3014314, 0x4e0811a1), 6, 10, 15, 21);
    r := Steps(I, r, x[4], x[11], x[2], x[9], Row(0xf7537e82, 0xbd3af235, 0x2ad7d2bb, 0xeb86d391), 6, 10, 15, 21);
  }

  // One block: ngx_md5_body without its loop.
  method Block(q: Quad, block: seq<Byte>) returns (r: Quad)
    requires |block| == 64
    ensures r == Compress(q, block)
  {
    hide Ops, Words;
    var x := Words(block);
    OpsNone(q, x);
    r := Round1(q, x, q);
    r := Round2(r, x, q);
    r := Round3(r, x, q);
    r := Round4(r, x, q);
    r := Sum(q, r);
  }

  lemma OpsNone(q: Quad, x: seq<Word>)
    requires |x| == 16
    ensures Ops(0, q, x) == q
  {
  }

  // ---- folding blocks --------------------------------------------------------

  lemma {:induction false} FoldAppend(q: Quad, s: seq<Byte>, t: seq<Byte>)
    requires |s| % 64 == 0
    ensures Fold(q, s + t) == Fold(Fold(q, s), t)
    decreases |s|
  {
    hide Compress;
    if |s| == 0 {
      assert s + t == t;
    } else {
      assert (s + t)[..64] == s[..64] && (s + t)[64..] == s[64..] + t;
      FoldAppend(Compress(q, s[..64]), s[64..], t);
    }
  }

  // A tail of less than a block adds nothing.
  lemma FoldWhole(q: Quad, s: seq<Byte>)
    ensures Fold(q, s) == Fold(q, s[..|s| - Used(|s|)])
  {
    hide Compress, Used;
    var n := |s| - Used(|s|);
    assert s == s[..n] + s[n..];
    FoldAppend(q, s[..n], s[n..]);
  }

  class Md5Ctx {
    var bytes: nat             // modulo 2^64
    var q: Quad
    var buffer: array<Byte>
    ghost var msg: seq<Byte>   // everything passed to Update

    // The state and the buffer reflect the message so far.
    ghost predicate Holds()
      reads this, buffer
    {
      buffer.Length == 64 && q == Fold(INIT, msg) && buffer[..|Tail(msg)|] == Tail(msg)
    }

    ghost predicate Valid()
      reads this, buffer
    {
      Holds() && bytes == |msg| % TWO64
    }

    // ngx_md5_init.
    constructor ()
      ensures Valid() && msg == [] && fresh(buffer)
    {
      bytes, q, msg := 0, INIT, [];
      buffer := new Byte[64];
    }

    // ngx_md5_body: all of data, whole blocks.
    method Body(data: seq<Byte>)
      requires |data| % 64 == 0 && |data| > 0
      modifies this`q
      ensures q == Fold(old(q), data)
    {
      hide Compress;
      var i := 0;
      assert data[0..] == data;
      while i < |data|
        invariant i <= |data| && i % 64 == 0 && Fold(q, data[i..]) == Fold(old(q), data)
      {
        assert data[i..][..64] == data[i..i + 64] && data[i..][64..] == data[i + 64..];
        q := Block(q, data[i..i + 64]);
        i := i + 64;
      }
    }

    // A copy of data into the buffer, at offset.
    method Copy(offset: nat, data: seq<Byte>)
      requires buffer.Length == 64 && offset + |data| <= 64
      modifies buffer
      ensures buffer[..offset + |data|] == old(buffer[..offset]) + data
    {
      forall i | 0 <= i < |data| {
        buffer[offset + i] := data[i];
      }
    }

    // Data that does not fill the buffer is added to it.
    method Keep(used: nat, data: seq<Byte>)
      requires Holds() && used == |Tail(msg)| && used + |data| < 64
      modifies buffer, this`msg
      ensures Holds() && msg == old(msg) + data
    {
      hide Fold, Tail;
      TailSize(msg);
      Small(msg, data);
      Copy(used, data);
      msg := msg + data;
    }

    // Data that fills the buffer completes a block.
    method Complete(used: nat, data: seq<Byte>)
      requires Holds() && 0 < used == |Tail(msg)| && used + |data| == 64
      modifies buffer, this`msg, this`q
      ensures Holds() && msg == old(msg) + data && Tail(msg) == []
    {
      hide Fold, Tail;
      Copy(used, data);
      FilledBlock(msg, data);
      assert buffer[..64] == buffer[..];
      Body(buffer[..]);
      msg := msg + data;
    }

    // Whole blocks need no buffer.
    method Straight(data: seq<Byte>)
      requires Holds() && Tail(msg) == [] && |data| % 64 == 0 && |data| > 0
      modifies this`msg, this`q
      ensures Holds() && msg == old(msg) + data && Tail(msg) == []
    {
      hide Fold;
      WholeBlocks(msg, data);
      Body(data);
      msg := msg + data;
    }

    // The message grows by data, of which some completes the buffered block.
    method Absorb(used: nat, data: seq<Byte>)
      requires Holds() && used == |Tail(msg)| && used < 64
      modifies buffer, this`msg, this`q
      ensures Holds() && msg == old(msg) + data
    {
      hide Fold, Tail, Used;
      var rest := data;
      if used > 0 {
        var free := 64 - used;
        if |data| < free {
          Keep(used, data);
          return;
        }
        Complete(used, data[..free]);
        rest := data[free..];
      }
      assert msg + rest == old(msg) + data && Tail(msg) == [];
      if |rest| >= 64 {
        var n := |rest| - Used(|rest|);
        Straight(rest[..n]);
        rest := rest[n..];
      }
      assert msg + rest == old(msg) + data;
      Keep(0, rest);
    }

    /**
     * ngx_md5_update: the message grows by data.
     */
    method Update(data: seq<Byte>)
      requires Valid()
      modifies this, buffer
      ensures Valid() && msg == old(msg) + data && buffer == old(buffer)
    {
      hide Fold, Tail, Used;
      TailSize(msg);
      CountWraps(|msg|, |data|);
      var used := bytes % 64;
      bytes := (bytes + |data|) % TWO64;
      Absorb(used, data);
    }

    /**
     * ngx_md5_final: the digest of the whole message.
     */
    method Final() returns (result: seq<Byte>)
      requires Valid()
      modifies this, buffer
      ensures result == Md5(old(msg))
    {
      hide Fold, LengthBytes, Zeros, Pad, Tail;
      TailSize(msg);
      var used := bytes % 64;
      CountWraps(|msg|, 0);
      LengthWraps(|msg|);
      Copy(used, [0x80]);
      used := used + 1;
      var free := 64 - used;
      ghost var first := [];
      if free < 8 {
        Copy(used, Zeros(free));
        assert buffer[..64] == buffer[..];
        first := buffer[..];
        Body(buffer[..]);
        used, free := 0, 64;
      }
      Copy(used, Zeros(free - 8));
      Copy(56, LengthBytes(bytes));
      assert buffer[..64] == buffer[..];
      Body(buffer[..]);
      LastBlocks(msg, first, buffer[..]);
      result := Digest(q);
    }
  }

  // What the whole blocks leave over.
  function Tail(m: seq<Byte>): seq<Byte>
  {
    m[|m| - Used(|m|)..]
  }

  lemma TailSize(m: seq<Byte>)
    ensures |Tail(m)| == Used(|m|)
  {
  }

  // The last one or two blocks, put together, are what the padding leaves.
  lemma LastBlocks(m: seq<Byte>, first: seq<Byte>, last: seq<Byte>)
    requires var u, t := Used(|m|), Tail(m);
      if u < 56 then first == [] && last == t + [0x80] + Zeros(55 - u) + LengthBytes(|m|)
      else first == t + [0x80] + Zeros(63 - u) && last == Zeros(56) + LengthBytes(|m|)
    ensures Fold(INIT, Pad(m)) == Fold(if first == [] then Fold(INIT, m) else Fold(Fold(INIT, m), first), last)
  {
    hide Fold, LengthBytes, Zeros, Used;
    var u := Used(|m|);
    var w := |m| - u;
    FoldWhole(INIT, m);
    if u < 56 {
      FoldAppend(INIT, m[..w], last);
      assert m[..w] + last == Pad(m);
    } else {
      ZerosAdd(63 - u, 56);
      FoldAppend(INIT, m[..w], first);
      FoldAppend(INIT, m[..w] + first, last);
      assert m[..w] + first + last == Pad(m);
    }
  }

  lemma ZerosAdd(m: nat, n: nat)
    ensures Zeros(m) + Zeros(n) == Zeros(m + n)
  {
  }

  // Any cut of a message into pieces, any number of them empty, gives its digest.
  method HashPieces(pieces: seq<seq<Byte>>) returns (result: seq<Byte>)
    ensures result == Md5(Joined(pieces))
  {
    hide Md5;
    var ctx := new Md5Ctx();
    for i := 0 to |pieces|
      invariant ctx.Valid() && fresh(ctx) && fresh(ctx.buffer) && ctx.msg == Joined(pieces[..i])
    {
      ctx.Update(pieces[i]);
      assert pieces[..i + 1][..i] == pieces[..i];
    }
    assert pieces[..|pieces|] == pieces;
    result := ctx.Final();
  }

  // The counter modulo 2^64 still tells the length modulo 64.
  lemma CountWraps(m: nat, n: nat)
    ensures (m % TWO64 + n) % TWO64 == (m + n) % TWO64
    ensures m % TWO64 % 64 == Used(m)
  {
    WrapAdd(m, n);
    WrapMod(m);
  }

  lemma WrapAdd(m: nat, n: nat)
    ensures (m % TWO64 + n) % TWO64 == (m + n) % TWO64
  {
    var k, r := m / TWO64, m % TWO64;
    var j, t := (r + n) / TWO64, (r + n) % TWO64;
    assert m + n == TWO64 * (k + j) + t;
  }

  lemma WrapMod(m: nat)
    ensures m % TWO64 % 64 == Used(m)
  {
    var k, r := m / TWO64, m % TWO64;
    assert m == 64 * (TWO64 / 64 * k + r / 64) + r % 64;
  }

  lemma LengthWraps(n: nat)
    ensures LengthBytes(n % TWO64) == LengthBytes(n)
  {
    assert 8 * (n % TWO64) % TWO64 == 8 * n % TWO64;
  }

  // Data that does not fill the block only lengthens the tail.
  lemma Small(m: seq<Byte>, data: seq<Byte>)
    requires |Tail(m)| + |data| < 64
    ensures Fold(INIT, m + data) == Fold(INIT, m) && Tail(m + data) == Tail(m) + data
  {
    hide Fold, Used;
    var w := |m| - Used(|m|);
    FoldWhole(INIT, m);
    FoldWhole(INIT, m + data);
    TailSize(m);
    NoCarry(|m|, |data|);
    var t := m + data;
    assert |t| - Used(|t|) == w && t[..w] == m[..w];
    assert t[w..] == m[w..] + data;
  }

  lemma NoCarry(m: nat, n: nat)
    requires Used(m) + n < 64
    ensures Used(m + n) == Used(m) + n
  {
  }

  // The tail and the data that fills it make one block.
  lemma FilledBlock(m: seq<Byte>, data: seq<Byte>)
    requires 0 < |Tail(m)| && |Tail(m)| + |data| == 64
    ensures Tail(m + data) == [] && Fold(INIT, m + data) == Fold(Fold(INIT, m), Tail(m) + data)
  {
    hide Fold, Used;
    var w := |m| - Used(|m|);
    FoldWhole(INIT, m);
    TailSize(m);
    FoldAppend(INIT, m[..w], Tail(m) + data);
    Carry(|m|, |data|);
    var t := m + data;
    assert t == m[..w] + (Tail(m) + data) && Used(|t|) == 0;
  }

  lemma Carry(m: nat, n: nat)
    requires Used(m) + n == 64
    ensures Used(m + n) == 0
  {
  }

  lemma WholeBlocks(m: seq<Byte>, data: seq<Byte>)
    requires Tail(m) == [] && |data| % 64 == 0
    ensures Tail(m + data) == [] && Fold(INIT, m + data) == Fold(Fold(INIT, m), data)
  {
    hide Fold, Used;
    TailSize(m);
    NoRest(|m|, |data|);
    FoldAppend(INIT, m, data);
  }

  lemma NoRest(m: nat, n: nat)
    requires Used(m) == 0 && n % 64 == 0
    ensures Used(m + n) == 0 && m % 64 == 0
  {
    var k := m / 64 + n / 64;
    assert m + n == 64 * k;
    Blocks(k);
  }

  lemma Blocks(k: nat)
    ensures Used(64 * k) == 0
  {
  }
}
