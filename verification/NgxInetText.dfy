/**
 * ngx_inet6_ntop: an address as text, and the proof that ngx_inet6_addr reads
 * that text back.
 */
module NgxInetText {
  import opened Options
  import opened Decimals
  import opened NgxInet

  function Group(p: seq<Byte>, g: nat): (w: nat)
    requires |p| == 16 && g < 8
    ensures w < 65536
  {
    var high: int, low: int := p[2 * g], p[2 * g + 1];
    high * 256 + low
  }

  // ---- numbers as text ---------------------------------------------------------------

  function HexDigit(d: nat): (c: char)
    requires d < 16
    ensures HexValue(c) == Some(d) && c != ':' && c != '.'
  {
    if d < 10 then '0' + d as char else 'a' + (d - 10) as char
  }

  function Hex(w: nat): (s: string)
    ensures |s| > 0
  {
    if w < 16 then [HexDigit(w)] else Hex(w / 16) + [HexDigit(w % 16)]
  }

  // ---- the longest run of zero groups ------------------------------------------------

  ghost predicate ZeroRun(p: seq<Byte>, z: nat, m: nat)
    requires |p| == 16
  {
    z + m <= 8 && forall g :: z <= g < z + m ==> Group(p, g) == 0
  }

  // zero is the start of the first longest run, if that has two groups or
  // more, within the first g groups.
  ghost predicate Best(p: seq<Byte>, zero: Option<nat>, max: nat, g: nat)
    requires |p| == 16
  {
    && 1 <= max
    && (zero.Some? ==> max >= 2 && ZeroRun(p, zero.value, max) && zero.value + max <= g)
    && (zero.None? ==> max == 1)
    && (forall z: nat, m: nat :: ZeroRun(p, z, m) && z + m <= g ==> m <= max)
    && (zero.Some? ==> forall z: nat, m: nat :: ZeroRun(p, z, m) && z + m <= g && z < zero.value ==> m < max)
  }

  // Groups g - n to g are a run that group g - n - 1 does not extend.
  ghost predicate Running(p: seq<Byte>, g: nat, n: nat)
    requires |p| == 16
  {
    n <= g <= 8 && ZeroRun(p, g - n, n) && (n < g ==> Group(p, g - n - 1) != 0)
  }

  // A run that ends at g is weighed against the best so far.
  lemma BestCloses(p: seq<Byte>, zero: Option<nat>, max: nat, g: nat, n: nat)
    requires |p| == 16 && Running(p, g, n) && Best(p, zero, max, g - n)
    ensures Best(p, if max < n then Some(g - n) else zero, if max < n then n else max, g)
  {
    var zero', max' := if max < n then Some(g - n) else zero, if max < n then n else max;
    forall z: nat, m: nat | ZeroRun(p, z, m) && z + m <= g
      ensures m <= max' && (zero'.Some? && z < zero'.value ==> m < max')
    {
    }
  }

  method FindRun(p: seq<Byte>) returns (zero: Option<nat>, max: nat)
    requires |p| == 16
    ensures Best(p, zero, max, 8)
  {
    var last, n := 0, 0;
    zero, max := None, 1;
    for g := 0 to 8
      invariant Running(p, g, n) && Best(p, zero, max, g - n) && (n > 0 ==> last == g - n)
    {
      if p[2 * g] != 0 || p[2 * g + 1] != 0 {
        BestCloses(p, zero, max, g, n);
        if max < n {
          zero, max := Some(last), n;
        }
        BestSkips(p, zero, max, g);
        n := 0;
        continue;
      }
      if n == 0 {
        last := g;
      }
      n := n + 1;
    }
    BestCloses(p, zero, max, 8, n);
    if max < n {
      zero, max := Some(last), n;
    }
  }

  lemma BestSkips(p: seq<Byte>, zero: Option<nat>, max: nat, g: nat)
    requires |p| == 16 && g < 8 && Group(p, g) != 0 && Best(p, zero, max, g)
    ensures Best(p, zero, max, g + 1)
  {
    forall z: nat, m: nat | ZeroRun(p, z, m) && z + m <= g + 1
      ensures m == 0 || z + m <= g
    {
    }
  }

  // ---- the text ----------------------------------------------------------------------

  // How many groups are printed before a dotted tail, if there is one.
  function Groups(p: seq<Byte>, zero: Option<nat>, max: nat): (n: nat)
    requires |p| == 16
    ensures n == 6 || n == 8
  {
    if zero == Some(0)
       && ((max == 5 && p[10] == 0xff && p[11] == 0xff) || max == 6 || (max == 7 && p[14] != 0 && p[15] != 1))
    then 6 else 8
  }

  // The text from group g on, with the run at zero left out.
  function Emit(p: seq<Byte>, g: nat, n: nat, zero: Option<nat>, max: nat): string
    requires |p| == 16 && n <= 8 && max > 0
    decreases 8 - g
  {
    if g >= n then ""
    else if zero == Some(g) then ":" + Emit(p, g + max, n, zero, max)
    else Hex(Group(p, g)) + (if g < 7 then ":" else "") + Emit(p, g + 1, n, zero, max)
  }

  function DottedText(p: seq<Byte>): string
    requires |p| == 16
  {
    Dec(p[12]) + "." + Dec(p[13]) + "." + Dec(p[14]) + "." + Dec(p[15])
  }

  function Show(p: seq<Byte>, zero: Option<nat>, max: nat): string
    requires |p| == 16 && max > 0
  {
    var n := Groups(p, zero, max);
    (if zero == Some(0) then ":" else "") + Emit(p, 0, n, zero, max) + (if n == 6 then DottedText(p) else "")
  }

  // ---- reading numbers back ----------------------------------------------------------

  lemma {:induction false} HexLength(w: nat, k: nat)
    requires k >= 1 && w < Power16(k)
    ensures |Hex(w)| <= k
    decreases k
  {
    if w >= 16 {
      HexLength(w / 16, k - 1);
    }
  }

  function Power16(k: nat): nat
  {
    if k == 0 then 1 else 16 * Power16(k - 1)
  }

  // Reading the digits of w, from the start of a group, leaves w.
  lemma {:induction false} ScanHex(text: string, i: nat, s: Scan, w: nat)
    requires i + |Hex(w)| <= |text| && text[i..i + |Hex(w)|] == Hex(w) && |Hex(w)| <= 4
    requires ScanOk(s, i) && s.nibbles == 0 && s.word == 0
    ensures var j := i + |Hex(w)|;
      Scanned(text, i, s) == Scanned(text, j, s.(nibbles := |Hex(w)|, word := w))
    decreases w
  {
    hide Scanned, HexDigit, HexValue;
    if w < 16 {
      assert text[i] == Hex(w)[0];
      ScanDigit(text, i, s, w);
    } else {
      var k := |Hex(w / 16)|;
      assert Hex(w)[..k] == Hex(w / 16) && text[i..i + k] == text[i..i + |Hex(w)|][..k];
      ScanHex(text, i, s, w / 16);
      assert text[i + k] == Hex(w)[k];
      ScanDigit(text, i + k, s.(nibbles := k, word := w / 16), w % 16);
    }
  }

  lemma HexOfDigit(d: nat)
    requires d < 10
    ensures HexValue('0' + d as char) == Some(d)
  {
  }

  // Reading decimal digits as if they were hexadecimal leaves some word.
  lemma {:induction false} ScanDec(text: string, i: nat, s: Scan, w: nat) returns (word: nat)
    requires i + |Dec(w)| <= |text| && text[i..i + |Dec(w)|] == Dec(w) && |Dec(w)| <= 4
    requires ScanOk(s, i) && s.nibbles == 0 && s.word == 0
    ensures var j := i + |Dec(w)|;
      Scanned(text, i, s) == Scanned(text, j, s.(nibbles := |Dec(w)|, word := word))
    decreases w
  {
    hide Scanned, HexValue;
    HexOfDigit(w % 10);
    if w < 10 {
      assert text[i] == Dec(w)[0];
      ScanDigit(text, i, s, w);
      word := w;
    } else {
      var k := |Dec(w / 10)|;
      assert Dec(w)[..k] == Dec(w / 10) && text[i..i + k] == text[i..i + |Dec(w)|][..k];
      var u := ScanDec(text, i, s, w / 10);
      assert text[i + k] == Dec(w)[k];
      ScanDigit(text, i + k, s.(nibbles := k, word := u), w % 10);
      word := u * 16 + w % 10;
    }
  }

  lemma {:induction false} InetDec(text: string, i: nat, addr: nat, n: nat, w: nat)
    requires i + |Dec(w)| <= |text| && text[i..i + |Dec(w)|] == Dec(w) && w < 256
    ensures InetFrom(text, i, addr, 0, n) == InetFrom(text, i + |Dec(w)|, addr, w, n)
    decreases w
  {
    hide InetFrom;
    if w < 10 {
      assert text[i] == Dec(w)[0];
      InetDigit(text, i, addr, 0, n, w);
    } else {
      var k := |Dec(w / 10)|;
      assert Dec(w)[..k] == Dec(w / 10) && text[i..i + k] == text[i..i + |Dec(w)|][..k];
      InetDec(text, i, addr, n, w / 10);
      assert text[i + k] == Dec(w)[k];
      InetDigit(text, i + k, addr, w / 10, n, w % 10);
    }
  }

  lemma InetDigit(text: string, i: nat, addr: nat, octet: nat, n: nat, d: nat)
    requires i < |text| && d < 10 && text[i] == '0' + d as char && octet < 256
    ensures InetFrom(text, i, addr, octet, n) == InetFrom(text, i + 1, addr, octet * 10 + d, n)
  {
  }

  // The four numbers of a dotted tail make one 32-bit number.
  lemma InetDotted(p: seq<Byte>)
    requires |p| == 16
    ensures InetFrom(DottedText(p), 0, 0, 0, 0) == Tail(p)
  {
    hide InetFrom, Dec;
    var text := DottedText(p);
    var a, b, c := |Dec(p[12])|, |Dec(p[13])|, |Dec(p[14])|;
    var w12: int, w13: int, w14: int, w15: int := p[12], p[13], p[14], p[15];
    InetDec(text, 0, 0, 0, w12);
    InetDot(text, a, 0, w12, 0);
    InetDec(text, a + 1, w12, 1, w13);
    InetDot(text, a + 1 + b, w12, w13, 1);
    InetDec(text, a + b + 2, w12 * 256 + w13, 2, w14);
    InetDot(text, a + b + 2 + c, w12 * 256 + w13, w14, 2);
    InetDec(text, a + b + c + 3, (w12 * 256 + w13) * 256 + w14, 3, w15);
    InetEnd(text, (w12 * 256 + w13) * 256 + w14, w15);
  }

  function Tail(p: seq<Byte>): (w: nat)
    requires |p| == 16
  {
    var w12: int, w13: int, w14: int, w15: int := p[12], p[13], p[14], p[15];
    ((w12 * 256 + w13) * 256 + w14) * 256 + w15
  }

  lemma InetDot(text: string, i: nat, addr: nat, octet: nat, n: nat)
    requires i < |text| && text[i] == '.' && octet < 256 && addr < 0x1_0000
    ensures InetFrom(text, i, addr, octet, n) == InetFrom(text, i + 1, addr * 256 + octet, 0, n + 1)
  {
  }

  lemma InetEnd(text: string, addr: nat, octet: nat)
    requires octet < 256 && addr < 0x100_0000
    ensures InetFrom(text, |text|, addr, octet, 3) == addr * 256 + octet
  {
  }

  // ---- reading the text back ----------------------------------------------------------

  // The reader's state when it comes to group g, at position at of the text.
  ghost function Reached(p: seq<Byte>, g: nat, zero: Option<nat>, max: nat, at: nat): Scan
    requires |p| == 16 && g <= 8
  {
    if zero.Some? && zero.value + max <= g then
      Scan(Some(2 * zero.value), Some(at), 0, 0, p[..2 * zero.value] + p[2 * (zero.value + max)..2 * g], 8 - g + max)
    else Scan(None, if g == 0 then None else Some(at), 0, 0, p[..2 * g], 8 - g)
  }

  // The groups at which the printer can be, and what it prints from there on.
  ghost predicate AtGroup(p: seq<Byte>, text: string, at: nat, g: nat, zero: Option<nat>, max: nat)
  {
    && |p| == 16 && Best(p, zero, max, 8) && g <= 8 && at <= |text|
    && (zero.Some? ==> g <= zero.value || zero.value + max <= g)
    && (g == 8 ==> zero.Some?)
    && (var n := Groups(p, zero, max);
        text[at..] == Emit(p, g, n, zero, max) + (if n == 6 then DottedText(p) else ""))
  }

  // Printed with the dotted tail 255.255.255.255, which ngx_inet_addr takes for an error.
  predicate Lost(p: seq<Byte>)
    requires |p| == 16
  {
    && p[..10] == Zeros(10) && ((p[10] == 0 && p[11] == 0) || (p[10] == 0xff && p[11] == 0xff))
    && p[12] == 0xff && p[13] == 0xff && p[14] == 0xff && p[15] == 0xff
  }

  ghost function Expected(p: seq<Byte>): Option<seq<Byte>>
    requires |p| == 16
  {
    if Lost(p) then None else Some(p)
  }

  lemma GroupBytes(p: seq<Byte>, g: nat)
    requires |p| == 16 && g < 8
    ensures HighByte(Group(p, g)) == p[2 * g] && LowByte(Group(p, g)) == p[2 * g + 1]
    ensures Group(p, g) == 0 <==> p[2 * g] == 0 && p[2 * g + 1] == 0
  {
  }

  lemma RunBytes(p: seq<Byte>, z: nat, m: nat)
    requires |p| == 16 && ZeroRun(p, z, m)
    ensures p[2 * z..2 * (z + m)] == Zeros(2 * m)
  {
    forall k | 2 * z <= k < 2 * (z + m)
      ensures p[k] == 0
    {
      GroupBytes(p, k / 2);
    }
  }

  // What the end of the reader makes of a text with :: in it.
  lemma FinishAround(s: Scan, a: seq<Byte>, b: seq<Byte>)
    requires s.out == a + b && s.zero == Some(|a|) && s.n > 1
    ensures Finish(s) == Some(a + Zeros(2 * (s.n - 1)) + (b + [HighByte(s.word), LowByte(s.word)]))
  {
    hide Zeros, HighByte, LowByte;
    var t := Pushed(s);
    assert t.out[..|a|] == a && t.out[|a|..] == b + [HighByte(s.word), LowByte(s.word)];
  }

  // The text ends in ::.
  lemma ReadsEnd(p: seq<Byte>, text: string, zero: Option<nat>, max: nat)
    requires AtGroup(p, text, |text|, 8, zero, max) && zero.value + max == 8
    ensures Scanned(text, |text|, Reached(p, 8, zero, max, |text|)) == Some(p)
  {
    hide Best, Groups, Emit, Finish, Zeros;
    var z := zero.value;
    BestRun(p, zero, max);
    RunBytes(p, z, max);
    assert p == p[..2 * z] + Zeros(2 * max);
    ZerosLast(2 * max);
    var s := Reached(p, 8, zero, max, |text|);
    assert p[16..16] == [] && HighByte(0) == 0 && LowByte(0) == 0;
    FinishAround(s, p[..2 * z], []);
    assert p[..2 * z] + Zeros(2 * max - 2) + ([] + [0, 0]) == p[..2 * z] + (Zeros(2 * max - 2) + [0, 0]);
  }

  lemma ZerosLast(n: nat)
    requires n >= 2
    ensures Zeros(n) == Zeros(n - 2) + [0, 0]
  {
  }

  lemma BestRun(p: seq<Byte>, zero: Option<nat>, max: nat)
    requires |p| == 16 && Best(p, zero, max, 8)
    ensures max >= 1 && (zero.Some? ==> max >= 2 && ZeroRun(p, zero.value, max))
  {
  }

  // The text ends in the last group.
  lemma ReadsLast(p: seq<Byte>, text: string, at: nat, zero: Option<nat>, max: nat)
    requires AtGroup(p, text, at, 7, zero, max) && Groups(p, zero, max) == 8 && zero != Some(7)
    ensures Scanned(text, at, Reached(p, 7, zero, max, at)) == Some(p)
  {
    hide Best, Groups, Finish, Hex;
    var w := Group(p, 7);
    BestRun(p, zero, max);
    GroupBytes(p, 7);
    HexLength(w, 4);
    assert text[at..] == Hex(w);
    ScanHex(text, at, Reached(p, 7, zero, max, at), w);
    LastWord(p, zero, max, at);
  }

  lemma LastWord(p: seq<Byte>, zero: Option<nat>, max: nat, at: nat)
    requires |p| == 16 && (zero.Some? ==> max >= 2 && ZeroRun(p, zero.value, max) && zero.value != 7)
    requires zero.Some? ==> zero.value + max <= 7
    ensures Finish(Reached(p, 7, zero, max, at).(nibbles := |Hex(Group(p, 7))|, word := Group(p, 7))) == Some(p)
  {
    hide Hex, HighByte, LowByte, Zeros;
    GroupBytes(p, 7);
    if zero.Some? {
      var z := zero.value;
      RunBytes(p, z, max);
      assert p == p[..2 * z] + p[2 * z..2 * (z + max)] + (p[2 * (z + max)..14] + [p[14], p[15]]);
      FinishAround(Reached(p, 7, zero, max, at).(nibbles := |Hex(Group(p, 7))|, word := Group(p, 7)), p[..2 * z],
                   p[2 * (z + max)..14]);
    } else {
      assert p == p[..14] + [p[14], p[15]];
    }
  }

  // The text ends in a dotted tail.
  lemma ReadsDotted(p: seq<Byte>, text: string, at: nat, g: nat, zero: Option<nat>, max: nat)
    requires AtGroup(p, text, at, g, zero, max) && Groups(p, zero, max) == 6
    requires 6 <= g <= 7 && (g == 6 || max == 7) && g >= max
    ensures Scanned(text, at, Reached(p, g, zero, max, at)) == Expected(p)
  {
    hide Best, Finish, Zeros, Scanned, Lost, Tail, DottedText;
    BestRun(p, zero, max);
    var s := Reached(p, g, zero, max, at);
    assert text[at..] == DottedText(p);
    ReadsTail(p, text, at, s);
    TailLost(p, zero, max);
    DottedBytes(p, g, zero, max, at, |Dec(p[12])|);
  }

  lemma DottedStart(p: seq<Byte>)
    requires |p| == 16
    ensures var k := |Dec(p[12])|;
      k < |DottedText(p)| && DottedText(p)[..k] == Dec(p[12]) && DottedText(p)[k] == '.'
  {
    hide Dec;
    var rest := Dec(p[13]) + "." + Dec(p[14]) + "." + Dec(p[15]);
    assert DottedText(p) == Dec(p[12]) + ("." + rest);
  }

  lemma Within(text: string, at: nat, k: nat)
    requires at + k < |text|
    ensures text[at..at + k] == text[at..][..k] && text[at + k] == text[at..][k]
  {
  }

  lemma ReadsTail(p: seq<Byte>, text: string, at: nat, s: Scan)
    requires |p| == 16 && at <= |text| && text[at..] == DottedText(p)
    requires ScanOk(s, at) && s.nibbles == 0 && s.word == 0 && s.n >= 2 && s.digit == Some(at)
    ensures var w := Tail(p);
      Scanned(text, at, s) == if w == INADDR_NONE then None
                              else Finish(s.(nibbles := |Dec(p[12])|,
                                             out := s.out + [HighByte(w / 65536), LowByte(w / 65536)],
                                             n := s.n - 1, word := w))
  {
    hide Finish, Dec, DottedText, InetFrom, Scanned, Tail, HighByte, LowByte;
    var k := |Dec(p[12])|;
    DecLength(p[12]);
    DottedStart(p);
    Within(text, at, k);
    var word := ScanDec(text, at, s, p[12]);
    AtDot(text, at + k, s.(nibbles := k, word := word));
    InetDotted(p);
  }

  lemma AtDot(text: string, i: nat, s: Scan)
    requires i < |text| && text[i] == '.' && ScanOk(s, i) && s.nibbles > 0
    ensures Scanned(text, i, s) == Dotted(text, s)
  {
  }

  lemma DecLength(b: Byte)
    ensures |Dec(b)| <= 3
  {
    if b >= 100 {
      assert |Dec(b)| == |Dec(b / 10)| + 1 && |Dec(b / 10)| == |Dec(b / 10 / 10)| + 1;
    }
  }

  lemma TailBytes(p: seq<Byte>)
    requires |p| == 16
    ensures HighByte(Tail(p) / 65536) == p[12] && LowByte(Tail(p) / 65536) == p[13]
    ensures HighByte(Tail(p)) == p[14] && LowByte(Tail(p)) == p[15]
    ensures Tail(p) == INADDR_NONE <==> p[12] == p[13] == p[14] == p[15] == 0xff
  {
    var w12: int, w13: int, w14: int, w15: int := p[12], p[13], p[14], p[15];
    assert Tail(p) / 65536 == w12 * 256 + w13;
    assert Tail(p) / 256 == w12 * 65536 + w13 * 256 + w14;
  }

  lemma TailLost(p: seq<Byte>, zero: Option<nat>, max: nat)
    requires |p| == 16 && Best(p, zero, max, 8) && Groups(p, zero, max) == 6
    ensures Tail(p) == INADDR_NONE <==> Lost(p)
  {
    hide Best, Zeros;
    TailBytes(p);
    BestRun(p, zero, max);
    RunBytes(p, 0, max);
    if max >= 6 {
      GroupBytes(p, 5);
    }
    assert p[..10] == p[..2 * max][..10];
    ZerosPrefix(2 * max, 10);
  }

  lemma ZerosPrefix(n: nat, k: nat)
    requires k <= n
    ensures Zeros(n)[..k] == Zeros(k)
  {
  }

  lemma DottedBytes(p: seq<Byte>, g: nat, zero: Option<nat>, max: nat, at: nat, k: nat)
    requires |p| == 16 && zero == Some(0) && ZeroRun(p, 0, max) && max >= 5 && max <= g
    requires g >= 6 && (g == 6 || max == 7) && g <= 7 && k > 0
    ensures var s := Reached(p, g, zero, max, at);
      var w := Tail(p);
      Finish(s.(nibbles := k, out := s.out + [HighByte(w / 65536), LowByte(w / 65536)], n := s.n - 1,
                word := w)) == Some(p)
  {
    hide Finish, Zeros, HighByte, LowByte, Tail, ZeroRun;
    TailBytes(p);
    var s, w := Reached(p, g, zero, max, at), Tail(p);
    var b, z := p[2 * max..2 * g] + [p[12], p[13]], Zeros(2 * (6 - g + max));
    assert p[..0] + p[2 * max..2 * g] == p[2 * max..2 * g] && [] + b == b && [] + z == z;
    FinishAround(s.(nibbles := k, out := b, n := s.n - 1, word := w), [], b);
    DottedJoin(p, g, max);
  }

  lemma DottedJoin(p: seq<Byte>, g: nat, max: nat)
    requires |p| == 16 && ZeroRun(p, 0, max) && 5 <= max <= g && (g == 6 || (g == 7 && max == 7))
    ensures Zeros(2 * (6 - g + max)) + (p[2 * max..2 * g] + [p[12], p[13]] + [p[14], p[15]]) == p
  {
    hide Zeros, ZeroRun;
    RunBytes(p, 0, max);
    ZerosPrefix(2 * max, 2 * (6 - g + max));
    assert p[..2 * (6 - g + max)] == p[0..2 * max][..2 * (6 - g + max)];
    DottedParts(p, g, max);
  }

  lemma DottedParts(p: seq<Byte>, g: nat, max: nat)
    requires |p| == 16 && 5 <= max <= g && (g == 6 || (g == 7 && max == 7))
    ensures p == p[..2 * (6 - g + max)] + (p[2 * max..2 * g] + [p[12], p[13]] + [p[14], p[15]])
  {
    if g == 6 {
      assert p == p[..2 * max] + (p[2 * max..12] + [p[12], p[13]] + [p[14], p[15]]);
    } else {
      assert p == p[..12] + (p[14..14] + [p[12], p[13]] + [p[14], p[15]]);
    }
  }

  // From any group on, the rest of the text is read to the whole address.
  lemma {:induction false} Reads(p: seq<Byte>, text: string, at: nat, g: nat, zero: Option<nat>, max: nat)
    requires AtGroup(p, text, at, g, zero, max) && (g < 8 || zero.value + max == 8)
    requires Groups(p, zero, max) == 6 ==> g <= 7 && (g >= 6 ==> max == 7 || g == 6)
    ensures Scanned(text, at, Reached(p, g, zero, max, at)) == Expected(p)
    decreases 8 - g
  {
    hide Best, Emit, Scanned, Lost, DottedText, Hex;
    BestRun(p, zero, max);
    var n := Groups(p, zero, max);
    if g >= n {
      EmitEnd(p, g, n, zero, max);
      if n == 6 {
        ReadsDotted(p, text, at, g, zero, max);
      } else {
        ReadsEnd(p, text, zero, max);
        NotLost(p, zero, max);
      }
    } else if zero == Some(g) {
      ReadsZero(p, text, at, zero, max);
      Reads(p, text, at + 1, g + max, zero, max);
    } else if g == 7 {
      ReadsLast(p, text, at, zero, max);
      NotLost(p, zero, max);
    } else {
      var k := |Hex(Group(p, g))|;
      ReadsGroup(p, text, at, g, zero, max);
      Reads(p, text, at + k + 1, g + 1, zero, max);
    }
  }

  lemma EmitEnd(p: seq<Byte>, g: nat, n: nat, zero: Option<nat>, max: nat)
    requires |p| == 16 && n <= 8 && max > 0 && g >= n
    ensures Emit(p, g, n, zero, max) == ""
  {
  }

  // An address printed without a dotted tail is not lost.
  lemma NotLost(p: seq<Byte>, zero: Option<nat>, max: nat)
    requires |p| == 16 && Best(p, zero, max, 8) && Groups(p, zero, max) == 8
    ensures !Lost(p)
  {
    if Lost(p) {
      var m := LostRun(p);
      BestIs(p, zero, max, m);
    }
  }

  lemma LostRun(p: seq<Byte>) returns (m: nat)
    requires |p| == 16 && Lost(p)
    ensures m == (if p[10] == 0 then 6 else 5) && ZeroRun(p, 0, m)
    ensures forall g :: m <= g < 8 ==> Group(p, g) != 0
  {
    m := if p[10] == 0 then 6 else 5;
    forall k | 0 <= k < 10
      ensures p[k] == 0
    {
      assert p[k] == p[..10][k];
    }
  }

  // A run from the start that nothing follows is the one left out.
  lemma BestIs(p: seq<Byte>, zero: Option<nat>, max: nat, m: nat)
    requires |p| == 16 && Best(p, zero, max, 8) && 2 <= m <= 8 && ZeroRun(p, 0, m)
    requires forall g :: m <= g < 8 ==> Group(p, g) != 0
    ensures zero == Some(0) && max == m
  {
    assert max >= m;
    var last := zero.value + max - 1;
    assert Group(p, last) == 0;
  }

  // The colon at the run of zeros.
  lemma ReadsZero(p: seq<Byte>, text: string, at: nat, zero: Option<nat>, max: nat)
    requires zero.Some? && AtGroup(p, text, at, zero.value, zero, max) && zero.value < Groups(p, zero, max) && max >= 2
    requires zero.value + max <= 8
    ensures AtGroup(p, text, at + 1, zero.value + max, zero, max)
    ensures Scanned(text, at, Reached(p, zero.value, zero, max, at)) ==
            Scanned(text, at + 1, Reached(p, zero.value + max, zero, max, at + 1))
  {
    hide Best, Groups, Scanned, DottedText, Emit, Reached;
    var z, n := zero.value, Groups(p, zero, max);
    var rest := if n == 6 then DottedText(p) else "";
    EmitZero(p, n, zero, max);
    Assoc(":", Emit(p, z + max, n, zero, max), rest);
    Ahead(text, at, ":", Emit(p, z + max, n, zero, max) + rest);
    SkippedRun(p, zero, max, at);
    AtDouble(text, at, Reached(p, z, zero, max, at));
  }

  lemma SkippedRun(p: seq<Byte>, zero: Option<nat>, max: nat, at: nat)
    requires |p| == 16 && zero.Some? && max >= 2 && zero.value + max <= 8
    ensures var s := Reached(p, zero.value, zero, max, at);
      && ScanOk(s, at) && s.nibbles == 0 && s.zero.None?
      && s.(digit := Some(at + 1), zero := Some(|s.out|)) == Reached(p, zero.value + max, zero, max, at + 1)
  {
    var z := zero.value;
    assert p[..2 * z] + p[2 * (z + max)..2 * (z + max)] == p[..2 * z];
  }

  lemma EmitZero(p: seq<Byte>, n: nat, zero: Option<nat>, max: nat)
    requires |p| == 16 && n <= 8 && max > 0 && zero.Some? && zero.value < n
    ensures Emit(p, zero.value, n, zero, max) == ":" + Emit(p, zero.value + max, n, zero, max)
  {
  }

  lemma EmitGroup(p: seq<Byte>, g: nat, n: nat, zero: Option<nat>, max: nat)
    requires |p| == 16 && n <= 8 && max > 0 && g < n && g < 7 && zero != Some(g)
    ensures Emit(p, g, n, zero, max) == Hex(Group(p, g)) + ":" + Emit(p, g + 1, n, zero, max)
  {
  }

  lemma Ahead(text: string, at: nat, a: string, b: string)
    requires at <= |text| && text[at..] == a + b
    ensures at + |a| <= |text| && text[at..at + |a|] == a && text[at + |a|..] == b
    ensures forall k :: 0 <= k < |a| ==> text[at + k] == a[k]
  {
    assert text[at..at + |a|] == text[at..][..|a|] && text[at + |a|..] == text[at..][|a|..];
  }

  lemma AtDouble(text: string, i: nat, s: Scan)
    requires i < |text| && text[i] == ':' && ScanOk(s, i) && s.nibbles == 0 && s.zero.None?
    ensures Scanned(text, i, s) == Scanned(text, i + 1, s.(digit := Some(i + 1), zero := Some(|s.out|)))
  {
  }

  // One group and the colon behind it.
  lemma ReadsGroup(p: seq<Byte>, text: string, at: nat, g: nat, zero: Option<nat>, max: nat)
    requires AtGroup(p, text, at, g, zero, max) && g < Groups(p, zero, max) && g < 7 && zero != Some(g) && max >= 1
    ensures var j := at + |Hex(Group(p, g))| + 1;
      && AtGroup(p, text, j, g + 1, zero, max)
      && Scanned(text, at, Reached(p, g, zero, max, at)) == Scanned(text, j, Reached(p, g + 1, zero, max, j))
  {
    hide Best, Groups, Hex, Scanned, Emit, DottedText, HighByte, LowByte;
    var w, n := Group(p, g), Groups(p, zero, max);
    var rest := if n == 6 then DottedText(p) else "";
    BestRun(p, zero, max);
    EmitGroup(p, g, n, zero, max);
    assert Emit(p, g, n, zero, max) + rest == Hex(w) + ":" + (Emit(p, g + 1, n, zero, max) + rest);
    Ahead(text, at, Hex(w) + ":", Emit(p, g + 1, n, zero, max) + rest);
    ScansGroup(p, text, at, g, zero, max);
  }

  lemma ScansGroup(p: seq<Byte>, text: string, at: nat, g: nat, zero: Option<nat>, max: nat)
    requires |p| == 16 && g < 7 && max >= 1 && (zero.Some? ==> zero.value + max <= 8)
    requires var h := Hex(Group(p, g)) + ":";
      at + |h| <= |text| && text[at..at + |h|] == h
    requires zero.Some? ==> g < zero.value || zero.value + max <= g
    ensures var j := at + |Hex(Group(p, g))| + 1;
      Scanned(text, at, Reached(p, g, zero, max, at)) == Scanned(text, j, Reached(p, g + 1, zero, max, j))
  {
    hide Hex, Scanned, Reached, Pushed;
    var w, s := Group(p, g), Reached(p, g, zero, max, at);
    var k := |Hex(w)|;
    HexLength(w, 4);
    assert text[at..at + k] == text[at..at + k + 1][..k] && text[at + k] == text[at..at + k + 1][k];
    ReachedOk(p, g, zero, max, at);
    ScanHex(text, at, s, w);
    AtColon(text, at + k, s.(nibbles := k, word := w));
    PushedGroup(p, g, zero, max, at, k);
  }

  lemma ReachedOk(p: seq<Byte>, g: nat, zero: Option<nat>, max: nat, at: nat)
    requires |p| == 16 && g < 7 && max >= 1 && (zero.Some? ==> zero.value + max <= 8)
    ensures var s := Reached(p, g, zero, max, at);
      ScanOk(s, at) && s.nibbles == 0 && s.word == 0 && s.n > 1
  {
  }

  lemma PushedGroup(p: seq<Byte>, g: nat, zero: Option<nat>, max: nat, at: nat, k: nat)
    requires |p| == 16 && g < 7 && max >= 1 && (zero.Some? ==> zero.value + max <= 8)
    requires zero.Some? ==> g < zero.value || zero.value + max <= g
    ensures var s, j := Reached(p, g, zero, max, at), at + k + 1;
      && s.n > 0
      && Pushed(s.(nibbles := k, word := Group(p, g))).(digit := Some(j), nibbles := 0, word := 0) ==
         Reached(p, g + 1, zero, max, j)
  {
    hide HighByte, LowByte;
    GroupBytes(p, g);
    NextGroup(p, g, zero, max);
  }

  lemma AtColon(text: string, i: nat, s: Scan)
    requires i < |text| && text[i] == ':' && ScanOk(s, i) && s.nibbles > 0 && s.n > 1
    ensures Scanned(text, i, s) == Scanned(text, i + 1, Pushed(s).(digit := Some(i + 1), nibbles := 0, word := 0))
  {
  }

  lemma NextGroup(p: seq<Byte>, g: nat, zero: Option<nat>, max: nat)
    requires |p| == 16 && g < 7
    ensures p[..2 * g] + [p[2 * g], p[2 * g + 1]] == p[..2 * (g + 1)]
    ensures zero.Some? && zero.value + max <= g ==>
      p[..2 * zero.value] + p[2 * (zero.value + max)..2 * g] + [p[2 * g], p[2 * g + 1]]
      == p[..2 * zero.value] + p[2 * (zero.value + max)..2 * (g + 1)]
  {
  }

  // The whole text is read back, unless it ends in 255.255.255.255.
  lemma ShowParses(p: seq<Byte>, zero: Option<nat>, max: nat)
    requires |p| == 16 && Best(p, zero, max, 8)
    ensures Parse(Show(p, zero, max)) == Expected(p)
  {
    hide Best, Scanned, Groups, Lost, DottedText, Show, Emit, Reached, ScanOk;
    BestRun(p, zero, max);
    var text := Show(p, zero, max);
    var at := if zero == Some(0) then 1 else 0;
    FirstChar(p, zero, max);
    SixGroups(p, zero, max);
    ShowAt(p, zero, max);
    StartsThere(p, zero, max, at);
    Reads(p, text, at, 0, zero, max);
  }

  lemma ShowAt(p: seq<Byte>, zero: Option<nat>, max: nat)
    requires |p| == 16 && max > 0
    ensures var text, n, at := Show(p, zero, max), Groups(p, zero, max), if zero == Some(0) then 1 else 0;
      at <= |text| && text[at..] == Emit(p, 0, n, zero, max) + (if n == 6 then DottedText(p) else "")
  {
    hide Groups, Emit, DottedText;
  }

  lemma StartsThere(p: seq<Byte>, zero: Option<nat>, max: nat, at: nat)
    requires |p| == 16 && max > 0
    ensures Reached(p, 0, zero, max, at) == START && ScanOk(START, at)
  {
    assert p[..0] == [];
  }

  lemma SixGroups(p: seq<Byte>, zero: Option<nat>, max: nat)
    requires |p| == 16
    ensures Groups(p, zero, max) == 6 ==> zero == Some(0) && 5 <= max <= 7
  {
  }

  // Only a text that begins with :: begins with a colon.
  lemma FirstChar(p: seq<Byte>, zero: Option<nat>, max: nat)
    requires |p| == 16 && max > 0
    ensures var text := Show(p, zero, max);
      text != "" && (text[0] == ':' <==> zero == Some(0))
  {
    hide DottedText;
    HexFirst(Group(p, 0));
  }

  lemma {:induction false} HexFirst(w: nat)
    ensures Hex(w)[0] != ':'
  {
    if w >= 16 {
      HexFirst(w / 16);
    }
  }

  const ADDRSTRLEN := 45     // NGX_INET6_ADDRSTRLEN

  /**
   * ngx_inet6_ntop.  Given room for len characters it stays within them: it
   * prints nothing if the longest text might not fit.  Otherwise the text
   * leaves out the first longest run of two or more zero groups and nothing
   * else, and ngx_inet6_addr reads it back to the same address, except when it
   * ends in 255.255.255.255.
   */
  method Ntop(p: seq<Byte>, len: nat) returns (text: string, ghost zero: Option<nat>, ghost max: nat)
    requires |p| == 16
    ensures |text| <= len && (text == "" <==> len < ADDRSTRLEN)
    ensures text != "" ==> Best(p, zero, max, 8) && text == Show(p, zero, max)
    ensures text != "" ==> Parse(text) == if Lost(p) then None else Some(p)
  {
    hide Best, Parse, DottedText, Emit, Lost;
    zero, max := None, 0;
    if len < ADDRSTRLEN {
      return "", zero, max;
    }
    var run, most := FindRun(p);
    zero, max := run, most;
    BestRun(p, run, most);
    var n := Groups(p, run, most);
    var body := PrintGroups(p, n, run, most);
    text := if run == Some(0) then ":" + body else "" + body;
    if n == 6 {
      text := text + DottedText(p);
    }
    ShowParses(p, run, most);
    FirstChar(p, run, most);
    ShowLength(p, run, most);
  }

  lemma {:induction false} EmitLength(p: seq<Byte>, g: nat, n: nat, zero: Option<nat>, max: nat)
    requires |p| == 16 && n <= 8 && max > 0
    ensures |Emit(p, g, n, zero, max)| <= if g < n then 5 * (n - g) else 0
    decreases 8 - g
  {
    hide Hex;
    if g < n {
      HexLength(Group(p, g), 4);
      EmitLength(p, if zero == Some(g) then g + max else g + 1, n, zero, max);
    }
  }

  lemma ShowLength(p: seq<Byte>, zero: Option<nat>, max: nat)
    requires |p| == 16 && max > 0
    ensures |Show(p, zero, max)| <= ADDRSTRLEN
  {
    hide Emit, Dec;
    var n := Groups(p, zero, max);
    EmitLength(p, 0, n, zero, max);
    if n == 6 {
      EmitZero(p, n, zero, max);
      EmitLength(p, max, n, zero, max);
      DecLength(p[12]);
      DecLength(p[13]);
      DecLength(p[14]);
      DecLength(p[15]);
    }
  }

  // The loop over the groups.
  method PrintGroups(p: seq<Byte>, n: nat, zero: Option<nat>, max: nat) returns (text: string)
    requires |p| == 16 && n <= 8 && max > 0
    ensures text == Emit(p, 0, n, zero, max)
  {
    hide Hex, Emit;
    text := "";
    var g: nat := 0;
    while g < n
      invariant text + Emit(p, g, n, zero, max) == Emit(p, 0, n, zero, max)
      decreases if g < n then n - g else 0
    {
      if zero == Some(g) {
        EmitZero(p, n, zero, max);
        Assoc(text, ":", Emit(p, g + max, n, zero, max));
        text, g := text + ":", g + max;
        continue;
      }
      EmitStep(p, g, n, zero, max);
      var next := Hex(Group(p, g));
      if g < 7 {
        next := next + ":";
      }
      Assoc(text, next, Emit(p, g + 1, n, zero, max));
      text, g := text + next, g + 1;
    }
    EmitEnd(p, g, n, zero, max);
  }

  lemma EmitStep(p: seq<Byte>, g: nat, n: nat, zero: Option<nat>, max: nat)
    requires |p| == 16 && n <= 8 && max > 0 && g < n && zero != Some(g)
    ensures Emit(p, g, n, zero, max) ==
            (if g < 7 then Hex(Group(p, g)) + ":" else Hex(Group(p, g))) + Emit(p, g + 1, n, zero, max)
  {
    hide Hex;
  }

  lemma Assoc(a: string, b: string, c: string)
    ensures (a + b) + c == a + (b + c)
  {
  }
}
