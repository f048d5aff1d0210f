/**
 * Addresses read from text: ngx_inet_addr of ngx_inet.c, and the character loop
 * of ngx_inet6_addr as a function.  Addresses are byte sequences in network
 * order.
 */
module NgxInet {
  import opened Options
  import opened Decimals
  import opened WordSizes

  type Byte = x: int | 0 <= x < 256

  const INADDR_NONE := 0xffff_ffff

  function Zeros(n: nat): (s: seq<Byte>)
    ensures |s| == n
  {
    seq(n, _ => 0)
  }

  // ---- dotted IPv4 ---------------------------------------------------------------

  // The loop of ngx_inet_addr from position i on; octet is a 64-bit and addr a
  // 32-bit unsigned number.
  function InetFrom(text: string, i: nat, addr: nat, octet: nat, n: nat): (r: nat)
    requires i <= |text|
    decreases |text| - i
  {
    if i == |text| then
      if n == 3 && octet < 256 then (addr * 256 + octet) % TWO32 else INADDR_NONE
    else if IsDigit(text[i]) then
      InetFrom(text, i + 1, addr, (octet * 10 + (text[i] - '0') as nat) % TWO64, n)
    else if text[i] == '.' && octet < 256 then
      InetFrom(text, i + 1, (addr * 256 + octet) % TWO32, 0, n + 1)
    else INADDR_NONE
  }

  // The parts of a text between its dots.
  function Fields(text: string): (fs: seq<string>)
    ensures |fs| > 0
  {
    if text == [] then [[]]
    else
      var rest := Fields(text[1..]);
      if text[0] == '.' then [[]] + rest else [[text[0]] + rest[0]] + rest[1..]
  }

  predicate Digits(field: string)
  {
    forall k :: 0 <= k < |field| ==> IsDigit(field[k])
  }

  // The number that the digits continue.
  function Decimal(start: nat, digits: string): (v: nat)
    requires Digits(digits)
    decreases |digits|
  {
    if digits == [] then start else Decimal(start * 10 + (digits[0] - '0') as nat, digits[1..])
  }

  // A field counts when it is a number below 256, modulo the width of octet;
  // an empty field is zero.
  predicate Counts(start: nat, field: string)
  {
    Digits(field) && Decimal(start, field) % TWO64 < 256
  }

  predicate AllCount(fs: seq<string>)
  {
    forall k :: 0 <= k < |fs| ==> Counts(0, fs[k])
  }

  function Number(addr: nat, fs: seq<string>): (v: nat)
    requires AllCount(fs)
    decreases |fs|
  {
    if fs == [] then addr else Number(addr * 256 + Decimal(0, fs[0]) % TWO64, fs[1..])
  }

  lemma ModStep(a: nat, d: nat)
    ensures (a % TWO64 * 10 + d) % TWO64 == (a * 10 + d) % TWO64
  {
    var q := a / TWO64;
    assert a * 10 + d == (a % TWO64 * 10 + d) + q * 10 * TWO64;
    ModAdd(a % TWO64 * 10 + d, q * 10);
  }

  lemma {:induction false} ModAdd(x: nat, k: nat)
    ensures (x + k * TWO64) % TWO64 == x % TWO64
    decreases k
  {
    if k > 0 { ModAdd(x, k - 1); }
  }

  lemma {:induction false} DecimalMod(a: nat, digits: string)
    requires Digits(digits)
    ensures Decimal(a % TWO64, digits) % TWO64 == Decimal(a, digits) % TWO64
    decreases |digits|
  {
    if digits != [] {
      var d := (digits[0] - '0') as nat;
      DecimalMod(a * 10 + d, digits[1..]);
      DecimalMod(a % TWO64 * 10 + d, digits[1..]);
      ModStep(a, d);
    }
  }

  // What the loop makes of the fields that are left, the first of them begun.
  function FromFields(fs: seq<string>, addr: nat, octet: nat, n: nat): (r: nat)
    requires |fs| > 0
  {
    if n + |fs| == 4 && Counts(octet, fs[0]) && AllCount(fs[1..]) then
      Number(addr * 256 + Decimal(octet, fs[0]) % TWO64, fs[1..]) % TWO32
    else INADDR_NONE
  }

  lemma {:induction false} FieldsLeft(text: string, i: nat, addr: nat, octet: nat, n: nat)
    requires i <= |text| && octet < TWO64
    ensures InetFrom(text, i, addr, octet, n) == FromFields(Fields(text[i..]), addr, octet, n)
    decreases |text| - i
  {
    var t := text[i..];
    var fs := Fields(t);
    if i < |text| {
      hide Number;
      var rest := Fields(t[1..]);
      assert t[1..] == text[i + 1..];
      if IsDigit(text[i]) {
        FieldsLeft(text, i + 1, addr, (octet * 10 + (text[i] - '0') as nat) % TWO64, n);
        DigitField(fs, rest, addr, octet, n, text[i]);
      } else if text[i] == '.' {
        if octet < 256 {
          FieldsLeft(text, i + 1, (addr * 256 + octet) % TWO32, 0, n + 1);
          DotField(rest, addr, octet, n);
        }
        assert fs[0] == [];
      } else {
        assert fs[0][0] == text[i];
      }
    }
  }

  lemma DigitField(fs: seq<string>, rest: seq<string>, addr: nat, octet: nat, n: nat, c: char)
    requires |rest| > 0 && fs == [[c] + rest[0]] + rest[1..] && IsDigit(c)
    ensures FromFields(fs, addr, octet, n) == FromFields(rest, addr, (octet * 10 + (c - '0') as nat) % TWO64, n)
  {
    hide Number;
    var f := [c] + rest[0];
    assert fs[1..] == rest[1..] && f[1..] == rest[0] && f[0] == c;
    assert Digits(f) <==> Digits(rest[0]) by {
      assert forall k :: 0 <= k < |rest[0]| ==> f[k + 1] == rest[0][k];
    }
    if Digits(f) { DecimalMod(octet * 10 + (c - '0') as nat, rest[0]); }
  }

  lemma DotField(rest: seq<string>, addr: nat, octet: nat, n: nat)
    requires |rest| > 0 && octet < 256
    ensures FromFields([[]] + rest, addr, octet, n) == FromFields(rest, (addr * 256 + octet) % TWO32, 0, n + 1)
  {
    var fs := [[]] + rest;
    assert fs[1..] == rest;
    assert AllCount(rest) <==> Counts(0, rest[0]) && AllCount(rest[1..]) by {
      assert rest == [rest[0]] + rest[1..];
    }
    if AllCount(rest) {
      NumberMod(addr * 256 + octet, rest);
      NumberMod((addr * 256 + octet) % TWO32, rest);
    }
  }

  lemma AddrStep(a: nat, v: nat)
    ensures (a % TWO32 * 256 + v) % TWO32 == (a * 256 + v) % TWO32
  {
    var q := a / TWO32;
    assert a * 256 + v == (a % TWO32 * 256 + v) + q * 256 * TWO32;
    AddrAdd(a % TWO32 * 256 + v, q * 256);
  }

  lemma {:induction false} AddrAdd(x: nat, k: nat)
    ensures (x + k * TWO32) % TWO32 == x % TWO32
    decreases k
  {
    if k > 0 { AddrAdd(x, k - 1); }
  }

  lemma {:induction false} NumberMod(a: nat, fs: seq<string>)
    requires AllCount(fs)
    ensures Number(a % TWO32, fs) % TWO32 == Number(a, fs) % TWO32
    decreases |fs|
  {
    if fs != [] {
      var v := Decimal(0, fs[0]) % TWO64;
      NumberMod(a * 256 + v, fs[1..]);
      NumberMod(a % TWO32 * 256 + v, fs[1..]);
      AddrStep(a, v);
    }
  }

  lemma FourFields(fs: seq<string>)
    requires |fs| == 4 && AllCount(fs)
    ensures Number(0, fs) < TWO32
  {
    hide Number, Decimal;
    var v0, v1 := Decimal(0, fs[0]) % TWO64, Decimal(0, fs[1]) % TWO64;
    var v2, v3 := Decimal(0, fs[2]) % TWO64, Decimal(0, fs[3]) % TWO64;
    assert fs[3..][1..] == [] && fs[2..][1..] == fs[3..] && fs[1..][1..] == fs[2..];
    NumberStep(0, fs);
    NumberStep(v0, fs[1..]);
    NumberStep(v0 * 256 + v1, fs[2..]);
    NumberStep((v0 * 256 + v1) * 256 + v2, fs[3..]);
    NoFields(((v0 * 256 + v1) * 256 + v2) * 256 + v3);
  }

  lemma NoFields(addr: nat)
    ensures Number(addr, []) == addr
  {
  }

  lemma InetExactly(text: string)
    ensures var fs := Fields(text);
      InetFrom(text, 0, 0, 0, 0) == if |fs| == 4 && AllCount(fs) then Number(0, fs) else INADDR_NONE
  {
    hide InetFrom, Fields, FromFields, Number, AllCount;
    assert text[0..] == text;
    FieldsLeft(text, 0, 0, 0, 0);
    FromAll(Fields(text));
  }

  lemma FromAll(fs: seq<string>)
    requires |fs| > 0
    ensures FromFields(fs, 0, 0, 0) == if |fs| == 4 && AllCount(fs) then Number(0, fs) else INADDR_NONE
  {
    hide Number, Counts;
    assert AllCount(fs) <==> Counts(0, fs[0]) && AllCount(fs[1..]) by { assert fs == [fs[0]] + fs[1..]; }
    if |fs| == 4 && AllCount(fs) {
      FourFields(fs);
      NumberStep(0, fs);
    }
  }

  lemma NumberStep(addr: nat, fs: seq<string>)
    requires fs != [] && AllCount(fs)
    ensures AllCount(fs[1..]) && Counts(0, fs[0])
    ensures Number(addr, fs) == Number(addr * 256 + Decimal(0, fs[0]) % TWO64, fs[1..])
  {
    hide Decimal;
  }

  // ngx_inet_addr; the result is in host order: four numbers below
  // 256 between three dots, or failure.
  method InetAddr(text: string) returns (r: nat)
    ensures r == InetFrom(text, 0, 0, 0, 0)
    ensures r == if |Fields(text)| == 4 && AllCount(Fields(text)) then Number(0, Fields(text)) else INADDR_NONE
  {
    InetExactly(text);
    var addr: nat, octet: nat, n: nat := 0, 0, 0;
    for i := 0 to |text|
      invariant InetFrom(text, i, addr, octet, n) == InetFrom(text, 0, 0, 0, 0)
    {
      var c := text[i];
      if IsDigit(c) {
        octet := (octet * 10 + (c - '0') as nat) % TWO64;
        continue;
      }
      if c == '.' && octet < 256 {
        addr, octet, n := (addr * 256 + octet) % TWO32, 0, n + 1;
        continue;
      }
      return INADDR_NONE;
    }
    if n == 3 && octet < 256 {
      return (addr * 256 + octet) % TWO32;
    }
    return INADDR_NONE;
  }

  // ---- IPv6 text to address -------------------------------------------------------

  function HexValue(c: char): (v: Option<nat>)
    ensures v.Some? ==> v.value < 16
  {
    if IsDigit(c) then Some((c - '0') as nat)
    else if 'a' <= c <= 'f' then Some((c - 'a') as nat + 10)
    else if 'A' <= c <= 'F' then Some((c - 'A') as nat + 10)
    else None
  }

  // The variables of ngx_inet6_addr's loop; zero and digit are positions in
  // the address and in the text.
  datatype Scan = Scan(zero: Option<nat>, digit: Option<nat>, nibbles: nat, word: nat, out: seq<Byte>, n: nat)

  const START := Scan(None, None, 0, 0, [], 8)

  function HighByte(word: nat): Byte
  {
    word / 256 % 256
  }

  function LowByte(word: nat): Byte
  {
    word % 256
  }

  function Pushed(s: Scan): Scan
    requires s.n > 0
  {
    s.(out := s.out + [HighByte(s.word), LowByte(s.word)], n := s.n - 1)
  }

  // What follows the loop: the last word is stored, and zeros go where :: stood.
  function Finish(s: Scan): (r: Option<seq<Byte>>)
    requires s.n > 0 && (s.zero.Some? ==> s.zero.value <= |s.out|)
  {
    if s.nibbles == 0 && s.zero.None? then None
    else
      var t := Pushed(s);
      if t.n > 0 then
        if t.zero.Some? then Some(t.out[..t.zero.value] + Zeros(2 * t.n) + t.out[t.zero.value..]) else None
      else if t.zero.None? then Some(t.out) else None
  }

  ghost predicate ScanOk(s: Scan, i: nat)
  {
    && 0 < s.n <= 8 && |s.out| == 16 - 2 * s.n && (s.zero.Some? ==> s.zero.value <= |s.out|)
    && (s.digit.Some? ==> s.digit.value <= i)
  }

  // The loop of ngx_inet6_addr from position i on.
  function Scanned(text: string, i: nat, s: Scan): (r: Option<seq<Byte>>)
    requires i <= |text| && ScanOk(s, i)
    ensures r.Some? ==> |r.value| == 16
    decreases |text| - i
  {
    if i == |text| then Finish(s)
    else if text[i] == ':' then
      if s.nibbles > 0 then
        var t := Pushed(s).(digit := Some(i + 1));
        if t.n > 0 then Scanned(text, i + 1, t.(nibbles := 0, word := 0)) else None
      else if s.zero.None? then Scanned(text, i + 1, s.(digit := Some(i + 1), zero := Some(|s.out|)))
      else None
    else if text[i] == '.' && s.nibbles > 0 then Dotted(text, s)
    else if s.nibbles == 4 || HexValue(text[i]).None? then None
    else Scanned(text, i + 1, s.(nibbles := s.nibbles + 1, word := s.word * 16 + HexValue(text[i]).value))
  }

  lemma ScanDigit(text: string, i: nat, s: Scan, d: nat)
    requires i < |text| && ScanOk(s, i) && s.nibbles < 4 && HexValue(text[i]) == Some(d)
    ensures Scanned(text, i, s) == Scanned(text, i + 1, s.(nibbles := s.nibbles + 1, word := s.word * 16 + d))
  {
    hide Finish, Dotted;
  }

  // A dotted tail: the text since the last colon is an IPv4 address.
  function Dotted(text: string, s: Scan): (r: Option<seq<Byte>>)
    requires ScanOk(s, |text|)
    ensures r.Some? ==> |r.value| == 16
  {
    if s.n < 2 || s.digit.None? then None
    else
      var word := InetFrom(text[s.digit.value..], 0, 0, 0, 0);
      if word == INADDR_NONE then None
      else Finish(s.(out := s.out + [HighByte(word / 65536), LowByte(word / 65536)], n := s.n - 1, word := word))
  }

  function Parse(text: string): (r: Option<seq<Byte>>)
    ensures r.Some? ==> |r.value| == 16
  {
    if text == "" then None else Scanned(text, if text[0] == ':' then 1 else 0, START)
  }
}
