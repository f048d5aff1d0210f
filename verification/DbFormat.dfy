/** The on-disk text format of the record database: decimal fields, index
    records, and the string functions that read them back. */
module DbFormat {
  import opened Options
  import opened Decimals

  const PTR_SZ := 6
  const IDXLEN_SZ := 4
  const PTR_MAX := 999999
  const NHASH := 137
  const FREE_OFF := 0
  const HASH_OFF := 6
  const IDXLEN_MIN := 6
  const IDXLEN_MAX := 1024
  const DATLEN_MIN := 2
  const DATLEN_MAX := 1024

  /** Size of a record's pointer and length fields. */
  const HDR_SZ := 10

  /** Offset of the first index record: 138 pointers and a newline. */
  const RECS_OFF := 829

  // ------------------------------------------------------------ decimal text

  predicate IsSpace(c: char) { c == ' ' || '\t' <= c <= '\r' }

  function Blanks(n: nat): (s: string)
    ensures |s| == n && forall i :: 0 <= i < n ==> s[i] == ' '
  {
    seq(n, _ => ' ')
  }

  /** "%*d": right justified in a field of at least w characters. */
  function Pad(n: nat, w: nat): (s: string)
  {
    if |Dec(n)| >= w then Dec(n) else Blanks(w - |Dec(n)|) + Dec(n)
  }

  /** The digits at the front of s, read after the number acc. */
  function ReadDigits(s: string, acc: nat): (n: nat)
  {
    if s == [] || !IsDigit(s[0]) then acc
    else ReadDigits(s[1..], 10 * acc + DigitValue(s[0]))
  }

  /** atol: leading white space, an optional sign, then digits. */
  function Atol(s: string): (n: int)
  {
    if s == [] then 0
    else if IsSpace(s[0]) then Atol(s[1..])
    else if s[0] == '-' then 0 - ReadDigits(s[1..], 0) as int
    else if s[0] == '+' then ReadDigits(s[1..], 0)
    else ReadDigits(s, 0)
  }

  lemma {:induction false} ReadDigitsSplit(s: string, t: string, acc: nat)
    requires forall i :: 0 <= i < |s| ==> IsDigit(s[i])
    ensures ReadDigits(s + t, acc) == ReadDigits(t, ReadDigits(s, acc))
  {
    if s == [] {
      assert s + t == t;
    } else {
      assert (s + t)[1..] == s[1..] + t;
      ReadDigitsSplit(s[1..], t, 10 * acc + DigitValue(s[0]));
    }
  }

  lemma {:induction false} ReadDigitsOfDec(n: nat)
    ensures ReadDigits(Dec(n), 0) == n
  {
    if n >= 10 {
      var last := [Digit(n % 10)];
      ReadDigitsOfDec(n / 10);
      ReadDigitsSplit(Dec(n / 10), last, 0);
      assert last[1..] == [];
      assert ReadDigits(last, n / 10) == 10 * (n / 10) + n % 10;
    } else {
      assert Dec(n)[1..] == [];
    }
  }

  lemma AtolOfDec(n: nat)
    ensures Atol(Dec(n)) == n
  {
    ReadDigitsOfDec(n);
  }

  lemma {:induction false} AtolSkipsBlanks(k: nat, s: string)
    ensures Atol(Blanks(k) + s) == Atol(s)
  {
    if k == 0 {
      assert Blanks(k) + s == s;
    } else {
      assert (Blanks(k) + s)[1..] == Blanks(k - 1) + s;
      AtolSkipsBlanks(k - 1, s);
    }
  }

  /** A padded field reads back as the number it was printed from. */
  lemma AtolOfPad(n: nat, w: nat)
    ensures Atol(Pad(n, w)) == n
  {
    AtolOfDec(n);
    if |Dec(n)| < w { AtolSkipsBlanks(w - |Dec(n)|, Dec(n)); }
  }

  function Pow10(w: nat): (p: nat)
    ensures p >= 1
  {
    if w == 0 then 1 else 10 * Pow10(w - 1)
  }

  lemma {:induction false} DecLength(n: nat, w: nat)
    requires w >= 1 && n < Pow10(w)
    ensures |Dec(n)| <= w
  {
    if n >= 10 {
      DecLength(n / 10, w - 1);
    }
  }

  /** A chain pointer fills its field exactly, and so does a record length. */
  lemma PadLength(n: nat)
    ensures n <= PTR_MAX ==> |Pad(n, PTR_SZ)| == PTR_SZ
    ensures n <= IDXLEN_MAX ==> |Pad(n, IDXLEN_SZ)| == IDXLEN_SZ
  {
    assert Pow10(4) == 10000;
    assert Pow10(6) == 100 * Pow10(4);
    if n <= PTR_MAX { DecLength(n, PTR_SZ); }
    if n <= IDXLEN_MAX { DecLength(n, IDXLEN_SZ); }
  }

  // ----------------------------------------------------------- index records

  /** The part of an index record behind its chain pointer and length. */
  datatype Rec = Rec(key: string, datoff: nat, datlen: nat)

  /** The body of an index record as _db_writeidx prints it. */
  function Body(r: Rec): (s: string)
    ensures |s| >= 1 && s[|s| - 1] == '\n'
  {
    r.key + ":" + Dec(r.datoff) + ":" + Dec(r.datlen) + "\n"
  }

  /** Bytes of the whole record in the index file. */
  function RecSize(r: Rec): (n: nat) { HDR_SZ + |Body(r)| }

  function RecBytes(ptr: nat, r: Rec): (s: string)
  {
    Pad(ptr, PTR_SZ) + Pad(|Body(r)|, IDXLEN_SZ) + Body(r)
  }

  /** Keys that an index record can hold. */
  predicate ValidKey(k: string) { ':' !in k && '\0' !in k }

  predicate ValidRec(r: Rec)
  {
    && ValidKey(r.key)
    && 0 < r.datlen <= DATLEN_MAX
    && IDXLEN_MIN <= |Body(r)| <= IDXLEN_MAX
  }

  predicate AllBlank(k: string) { forall i :: 0 <= i < |k| ==> k[i] == ' ' }

  /** strchr, as an index. */
  function IndexOf(s: string, c: char): (i: Option<nat>)
    ensures i.Some? ==> i.value < |s| && s[i.value] == c && c !in s[..i.value]
    ensures i.None? ==> c !in s
  {
    if s == [] then None
    else if s[0] == c then Some(0)
    else match IndexOf(s[1..], c)
      case None => None
      case Some(i) =>
        assert s[..i + 1] == [s[0]] + s[1..][..i];
        Some(i + 1)
  }

  /** What _db_readidx makes of a record body; None where it dumps core. */
  function ParseBody(buf: string): (r: Option<Rec>)
  {
    if buf == [] || buf[|buf| - 1] != '\n' then None
    else
      var s := buf[..|buf| - 1];
      match IndexOf(s, ':')
      case None => None
      case Some(i) =>
        var rest := s[i + 1..];
        match IndexOf(rest, ':')
        case None => None
        case Some(j) =>
          var tail := rest[j + 1..];
          var datoff, datlen := Atol(rest[..j]), Atol(tail);
          if ':' in tail || datoff < 0 || datlen <= 0 || datlen > DATLEN_MAX then None
          else Some(Rec(s[..i], datoff, datlen))
  }

  lemma IndexOfFirst(s: string, c: char, t: string)
    requires c !in s
    ensures IndexOf(s + [c] + t, c) == Some(|s|)
  {
    var u := s + [c] + t;
    assert u[|s|] == c;
    assert forall j :: 0 <= j < |s| ==> u[j] == s[j];
  }

  /** A written index record reads back as itself. */
  lemma ParseBodyRoundTrip(r: Rec)
    requires ValidKey(r.key) && 0 < r.datlen <= DATLEN_MAX
    ensures ParseBody(Body(r)) == Some(r)
  {
    hide Dec, Atol;
    var buf := Body(r);
    var s := buf[..|buf| - 1];
    var rest := Dec(r.datoff) + [':'] + Dec(r.datlen);
    assert s == r.key + [':'] + rest;
    IndexOfFirst(r.key, ':', rest);
    assert s[|r.key| + 1..] == rest && s[..|r.key|] == r.key;
    IndexOfFirst(Dec(r.datoff), ':', Dec(r.datlen));
    assert rest[|Dec(r.datoff)| + 1..] == Dec(r.datlen);
    assert rest[..|Dec(r.datoff)|] == Dec(r.datoff);
    AtolOfDec(r.datoff);
    AtolOfDec(r.datlen);
  }

  /** Swapping a key for one of the same length keeps every other byte in place. */
  lemma SameLengthKey(r: Rec, k: string)
    requires |k| == |r.key|
    ensures RecSize(r.(key := k)) == RecSize(r)
    ensures ValidRec(r) && ValidKey(k) ==> ValidRec(r.(key := k))
  {
  }

  // -------------------------------------------------------------------- hash

  /** The key's characters as signed C chars, weighted by 1-based position. */
  function WeightedSum(k: string, i: nat): (n: int)
  {
    if k == [] then 0
    else
      var c := k[0] as int;
      (if c < 128 then c else c - 256) * i + WeightedSum(k[1..], i + 1)
  }

  /** _db_hash, with the unsigned long sum reduced modulo 2^64. */
  function Hash(k: string): (h: nat)
    ensures h < NHASH
  {
    (WeightedSum(k, 1) % 0x1_0000_0000_0000_0000) % NHASH
  }

  function ChainLoc(h: nat): (loc: nat) { h * PTR_SZ + HASH_OFF }
}
