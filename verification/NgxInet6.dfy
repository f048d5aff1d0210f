/**
 * Which texts ngx_inet6_addr of ngx_inet.c accepts, said by the groups between
 * their colons, what address each stands for, and the parser that stores it.
 */
module NgxInet6 {
  import opened Options
  import opened Decimals
  import opened NgxInet

  // ---- groups ------------------------------------------------------------------

  // The parts of a text between its colons.
  function Groups(text: string): (gs: seq<string>)
    ensures |gs| > 0
  {
    if text == [] then [[]]
    else
      var rest := Groups(text[1..]);
      if text[0] == ':' then [[]] + rest else [[text[0]] + rest[0]] + rest[1..]
  }

  predicate HexDigits(g: string)
  {
    forall k :: 0 <= k < |g| ==> HexValue(g[k]).Some?
  }

  // One to four hexadecimal digits.
  predicate Hex(g: string)
  {
    1 <= |g| <= 4 && HexDigits(g)
  }

  function HexNumber(start: nat, g: string): (w: nat)
    requires HexDigits(g)
    decreases |g|
  {
    if g == [] then start else HexNumber(start * 16 + HexValue(g[0]).value, g[1..])
  }

  // A dotted address whose first number has one to four characters.
  predicate DottedGroup(g: string)
  {
    var fs := Fields(g);
    |fs| == 4 && AllCount(fs) && 1 <= |fs[0]| <= 4 && Number(0, fs) != INADDR_NONE
  }

  function Two(word: nat): (s: seq<Byte>)
    ensures |s| == 2
  {
    [HighByte(word), LowByte(word)]
  }

  // ---- what a text stands for ----------------------------------------------------

  // Every group but the last is empty or hexadecimal.
  predicate Plain(gs: seq<string>)
  {
    forall k :: 0 <= k < |gs| ==> gs[k] == "" || Hex(gs[k])
  }

  function Bytes(gs: seq<string>): (s: seq<Byte>)
    requires Plain(gs)
  {
    if gs == [] then [] else (if gs[0] == "" then [] else Two(HexNumber(0, gs[0]))) + Bytes(gs[1..])
  }

  // The last group; an empty one is a zero, and a dotted one follows a colon.
  function LastBytes(g: string, colon: bool): (s: Option<seq<Byte>>)
  {
    if g == "" then Some(Two(0))
    else if Hex(g) then Some(Two(HexNumber(0, g)))
    else if colon && DottedGroup(g) then
      var word := Number(0, Fields(g));
      Some(Two(word / 65536) + Two(word))
    else None
  }

  function Empties(gs: seq<string>): (n: nat)
  {
    if gs == [] then 0 else (if gs[0] == "" then 1 else 0) + Empties(gs[1..])
  }

  // How many bytes come before the first empty group.
  function Before(gs: seq<string>): (n: nat)
  {
    if gs == [] || gs[0] == "" then 0 else 2 + Before(gs[1..])
  }

  // Sixteen bytes, or fewer with zeros at z.
  function Filled(bytes: seq<Byte>, z: Option<nat>): (r: Option<seq<Byte>>)
    requires z.Some? ==> z.value <= |bytes|
  {
    match z
    case None => if |bytes| == 16 then Some(bytes) else None
    case Some(at) => if |bytes| <= 14 then Some(bytes[..at] + Zeros(16 - |bytes|) + bytes[at..]) else None
  }

  lemma {:induction false} BeforeLength(gs: seq<string>)
    requires Plain(gs)
    ensures Before(gs) <= |Bytes(gs)|
  {
    if gs != [] { BeforeLength(gs[1..]); }
  }

  // One colon at the front is skipped.  Then there are groups, of which at most
  // one but the last is empty and stands for the missing zeros; the last may be
  // empty only if there is such a one.
  function ByGroups(text: string): (r: Option<seq<Byte>>)
  {
    if text == "" then None else Meaning(Groups(if text[0] == ':' then text[1..] else text))
  }

  function Meaning(gs: seq<string>): (r: Option<seq<Byte>>)
    requires |gs| > 0
  {
    var inner, last := gs[..|gs| - 1], gs[|gs| - 1];
    if !Plain(inner) || LastBytes(last, inner != []).None? || Empties(inner) > 1 then None
    else if Empties(inner) == 0 && last == "" then None
    else
      BeforeLength(inner);
      Filled(Bytes(inner) + LastBytes(last, inner != []).value,
             if Empties(inner) == 0 then None else Some(Before(inner)))
  }

  // ---- the same, group by group, from where the parser stands --------------------

  function Rest(gs: seq<string>, zero: Option<nat>, out: seq<Byte>, colon: bool): (r: Option<seq<Byte>>)
    requires |gs| > 0 && (zero.Some? ==> zero.value <= |out|)
    decreases |gs|
  {
    if |gs| == 1 then Ending(gs[0], zero, out, colon)
    else if gs[0] == "" then
      if zero.None? then Rest(gs[1..], Some(|out|), out, true) else None
    else if Hex(gs[0]) && |out| <= 12 then Rest(gs[1..], zero, out + Two(HexNumber(0, gs[0])), true)
    else None
  }

  function Ending(g: string, zero: Option<nat>, out: seq<Byte>, colon: bool): (r: Option<seq<Byte>>)
    requires zero.Some? ==> zero.value <= |out|
  {
    var last := LastBytes(g, colon);
    if last.None? || (g == "" && zero.None?) then None else Filled(out + last.value, zero)
  }

  // ---- one field of the scan -------------------------------------------------------

  lemma {:induction false} HexAppend(start: nat, g: string, c: char)
    requires HexDigits(g) && HexValue(c).Some?
    ensures HexDigits(g + [c]) && HexNumber(start, g + [c]) == HexNumber(start, g) * 16 + HexValue(c).value
    decreases |g|
  {
    var h := g + [c];
    assert forall k :: 0 <= k < |g| ==> h[k] == g[k];
    if g != [] {
      assert h[1..] == g[1..] + [c];
      HexAppend(start * 16 + HexValue(g[0]).value, g[1..], c);
    }
  }

  // The group being read, of which begun has been read, and those behind it.
  ghost function Current(begun: string, rest: seq<string>): (gs: seq<string>)
    requires |rest| > 0
    ensures |gs| > 0
  {
    [begun + rest[0]] + rest[1..]
  }

  // The parser stands at i, behind the digits begun of a group.
  ghost predicate Reading(text: string, i: nat, s: Scan, begun: string)
  {
    && ScanOk(s, i) && i <= |text| && |begun| <= i && begun == text[i - |begun|..i]
    && |begun| == s.nibbles <= 4 && HexDigits(begun) && s.word == HexNumber(0, begun)
    && (s.digit.Some? ==> s.digit.value == i - |begun|)
  }

  lemma {:induction false} ScanIsRest(text: string, i: nat, s: Scan, begun: string)
    requires Reading(text, i, s, begun)
    ensures Scanned(text, i, s) == Rest(Current(begun, Groups(text[i..])), s.zero, s.out, s.digit.Some?)
    decreases |text| - i, 1
  {
    hide Rest, Scanned;
    var t := text[i..];
    if i == |text| {
      AtEnd(text, s, begun);
    } else {
      assert t[1..] == text[i + 1..];
      if text[i] == ':' {
        AtColon(text, i, s, begun);
      } else if text[i] == '.' && s.nibbles > 0 {
        AtDot(text, i, s, begun);
      } else if s.nibbles == 4 || HexValue(text[i]).None? {
        AtOther(text, i, s, begun);
      } else {
        AtDigit(text, i, s, begun);
      }
    }
  }

  // What follows the loop, seen from the bytes so far.
  lemma FinishIs(s: Scan)
    requires s.n > 0 && |s.out| == 16 - 2 * s.n && (s.zero.Some? ==> s.zero.value <= |s.out|)
    ensures Finish(s) == if s.nibbles == 0 && s.zero.None? then None else Filled(s.out + Two(s.word), s.zero)
  {
    hide HighByte, LowByte, Zeros;
  }

  lemma AtEnd(text: string, s: Scan, begun: string)
    requires Reading(text, |text|, s, begun)
    ensures Scanned(text, |text|, s) == Rest(Current(begun, Groups(text[|text|..])), s.zero, s.out, s.digit.Some?)
  {
    hide HexNumber, HexDigits, DottedGroup, Filled, Finish, Two, HexValue;
    var gs := Current(begun, Groups(text[|text|..]));
    assert begun + "" == begun;
    assert gs == [begun];
    FinishIs(s);
    NoDigits();
    assert Scanned(text, |text|, s) == Finish(s);
    assert begun != "" ==> Hex(begun);
    assert LastBytes(begun, s.digit.Some?) == Some(Two(s.word));
  }

  lemma NoDigits()
    ensures HexDigits("") && HexNumber(0, "") == 0
  {
  }

  // A digit is read.
  lemma {:induction false} AtDigit(text: string, i: nat, s: Scan, begun: string)
    requires Reading(text, i, s, begun) && i < |text| && text[i] != ':' && text[i] != '.'
    requires s.nibbles < 4 && HexValue(text[i]).Some?
    ensures Scanned(text, i, s) == Rest(Current(begun, Groups(text[i..])), s.zero, s.out, s.digit.Some?)
    decreases |text| - i, 0
  {
    hide Rest, HexNumber, HexValue, HexDigits, Scanned;
    var c, rest := text[i], Groups(text[i + 1..]);
    ScanDigit(text, i, s, HexValue(c).value);
    var s' := s.(nibbles := s.nibbles + 1, word := s.word * 16 + HexValue(c).value);
    HexAppend(0, begun, c);
    assert begun + [c] == text[i - |begun|..i + 1];
    ScanIsRest(text, i + 1, s', begun + [c]);
    GroupsStep(text, i);
    assert begun + ([c] + rest[0]) == begun + [c] + rest[0];
  }

  lemma GroupsStep(text: string, i: nat)
    requires i < |text|
    ensures var rest := Groups(text[i + 1..]);
      Groups(text[i..]) == if text[i] == ':' then [""] + rest else [[text[i]] + rest[0]] + rest[1..]
  {
    assert text[i..][1..] == text[i + 1..];
  }

  // A group ends, or two colons meet.
  lemma {:induction false} AtColon(text: string, i: nat, s: Scan, begun: string)
    requires Reading(text, i, s, begun) && i < |text| && text[i] == ':'
    ensures Scanned(text, i, s) == Rest(Current(begun, Groups(text[i..])), s.zero, s.out, s.digit.Some?)
    decreases |text| - i, 0
  {
    hide HexNumber, HexDigits, HighByte, LowByte, Ending, Scanned, Rest, HexValue;
    var rest := Groups(text[i + 1..]);
    GroupsStep(text, i);
    assert begun + "" == begun;
    assert Current(begun, Groups(text[i..])) == [begun] + rest;
    assert Current("", rest) == rest by { assert "" + rest[0] == rest[0]; }
    NoDigits();
    assert text[i + 1..i + 1] == "";
    if begun != "" {
      var s' := Pushed(s).(digit := Some(i + 1), nibbles := 0, word := 0);
      if s'.n > 0 { ScanIsRest(text, i + 1, s', ""); }
      GroupEnds(text, i, s, begun, rest);
    } else {
      if s.zero.None? { ScanIsRest(text, i + 1, s.(digit := Some(i + 1), zero := Some(|s.out|)), ""); }
      ColonsMeet(text, i, s, rest);
    }
  }

  lemma GroupEnds(text: string, i: nat, s: Scan, begun: string, rest: seq<string>)
    requires Reading(text, i, s, begun) && i < |text| && text[i] == ':' && begun != "" && |rest| > 0
    requires var s' := Pushed(s).(digit := Some(i + 1), nibbles := 0, word := 0);
      s'.n > 0 ==> Scanned(text, i + 1, s') == Rest(rest, s'.zero, s'.out, true)
    ensures Scanned(text, i, s) == Rest([begun] + rest, s.zero, s.out, s.digit.Some?)
  {
    hide HexNumber, HexDigits, HighByte, LowByte, Ending, HexValue, Finish, Dotted;
    var gs := [begun] + rest;
    assert gs[1..] == rest && Hex(begun);
  }

  lemma ColonsMeet(text: string, i: nat, s: Scan, rest: seq<string>)
    requires Reading(text, i, s, "") && i < |text| && text[i] == ':' && |rest| > 0
    requires s.zero.None? ==>
      Scanned(text, i + 1, s.(digit := Some(i + 1), zero := Some(|s.out|))) == Rest(rest, Some(|s.out|), s.out, true)
    ensures Scanned(text, i, s) == Rest([""] + rest, s.zero, s.out, s.digit.Some?)
  {
    hide HexNumber, HexDigits, HighByte, LowByte, Ending, HexValue, Finish, Dotted, Hex;
    var gs := [""] + rest;
    assert gs[1..] == rest;
  }

  // ---- dotted groups ---------------------------------------------------------------

  // Where a group goes on with something that is not a digit, its first field
  // ends there at a dot, or holds what is no number.
  lemma {:induction false} FirstField(g: string, k: nat)
    requires k < |g| && forall j :: 0 <= j < k ==> g[j] != '.'
    ensures g[k] == '.' ==> |Fields(g)[0]| == k
    ensures g[k] != '.' ==> |Fields(g)[0]| > k && Fields(g)[0][k] == g[k]
    decreases k
  {
    if k > 0 {
      FirstField(g[1..], k - 1);
    }
  }

  lemma HexNoDot(g: string)
    requires HexDigits(g)
    ensures forall j :: 0 <= j < |g| ==> g[j] != '.'
  {
  }

  predicate AllDigits(fs: seq<string>)
  {
    forall k :: 0 <= k < |fs| ==> Digits(fs[k])
  }

  // Fields of digits come from digits and dots alone.
  lemma {:induction false} OnlyDigits(t: string, k: nat)
    requires AllDigits(Fields(t)) && k < |t|
    ensures IsDigit(t[k]) || t[k] == '.'
    decreases |t|
  {
    var fs, rest := Fields(t), Fields(t[1..]);
    if t[0] == '.' {
      assert forall j :: 0 <= j < |rest| ==> rest[j] == fs[j + 1];
    } else {
      assert IsDigit(fs[0][0]);
      assert forall j :: 0 <= j < |rest[0]| ==> rest[0][j] == fs[0][j + 1];
      assert forall j :: 1 <= j < |rest| ==> rest[j] == fs[j];
    }
    if k > 0 { OnlyDigits(t[1..], k - 1); }
  }

  lemma NoColon(t: string, k: nat)
    requires k < |t| && t[k] == ':'
    ensures InetFrom(t, 0, 0, 0, 0) == INADDR_NONE
  {
    InetExactly(t);
    if AllCount(Fields(t)) {
      assert AllDigits(Fields(t));
      OnlyDigits(t, k);
    }
  }

  // ---- the whole text ----------------------------------------------------------------

  lemma AtOther(text: string, i: nat, s: Scan, begun: string)
    requires Reading(text, i, s, begun) && i < |text| && text[i] != ':'
    requires !(text[i] == '.' && s.nibbles > 0) && (s.nibbles == 4 || HexValue(text[i]).None?)
    ensures Scanned(text, i, s) == Rest(Current(begun, Groups(text[i..])), s.zero, s.out, s.digit.Some?)
  {
    hide HexNumber, InetFrom, Number, Fields;
    var c, rest := text[i], Groups(text[i + 1..]);
    GroupsStep(text, i);
    var g := begun + ([c] + rest[0]);
    assert g[|begun|] == c && forall j :: 0 <= j < |begun| ==> g[j] == begun[j];
    assert !Hex(g);
    HexNoDot(begun);
    FirstField(g, |begun|);
  }

  lemma AtDot(text: string, i: nat, s: Scan, begun: string)
    requires Reading(text, i, s, begun) && i < |text| && text[i] == '.' && s.nibbles > 0
    ensures Scanned(text, i, s) == Rest(Current(begun, Groups(text[i..])), s.zero, s.out, s.digit.Some?)
  {
    hide HexNumber, InetFrom, Number, Fields, Rest, Dotted, HexValue, HexDigits;
    var u, rest := text[i + 1..], Groups(text[i + 1..]);
    GroupsStep(text, i);
    var g := begun + (['.'] + rest[0]);
    assert Current(begun, Groups(text[i..])) == [g] + rest[1..];
    DotGroup(begun, rest[0]);
    assert Scanned(text, i, s) == Dotted(text, s);
    if s.digit.Some? {
      var t := text[s.digit.value..];
      assert t == begun + (['.'] + u);
      var k := OneGroup(u);
      if |rest| > 1 {
        assert t[|begun| + 1 + k] == ':';
        NoColon(t, |begun| + 1 + k);
      } else {
        assert t == g;
        InetExactly(g);
      }
    }
    DottedIs(text, s, g, rest[1..]);
  }

  lemma DotGroup(begun: string, rest: string)
    requires HexDigits(begun) && 1 <= |begun| <= 4
    ensures var g := begun + (['.'] + rest);
      !Hex(g) && 1 <= |Fields(g)[0]| <= 4
  {
    hide Fields;
    var g := begun + (['.'] + rest);
    assert g[|begun|] == '.' && forall j :: 0 <= j < |begun| ==> g[j] == begun[j];
    HexNoDot(begun);
    FirstField(g, |begun|);
  }

  lemma DottedIs(text: string, s: Scan, g: string, rest: seq<string>)
    requires ScanOk(s, |text|) && s.nibbles > 0 && g != "" && !Hex(g) && 1 <= |Fields(g)[0]| <= 4
    requires s.digit.Some? ==>
      InetFrom(text[s.digit.value..], 0, 0, 0, 0) ==
      if rest == [] && |Fields(g)| == 4 && AllCount(Fields(g)) then Number(0, Fields(g)) else INADDR_NONE
    ensures Dotted(text, s) == Rest([g] + rest, s.zero, s.out, s.digit.Some?)
  {
    hide InetFrom, Number, Fields, HighByte, LowByte, Finish, Hex, AllCount, Zeros;
    if s.digit.Some? && s.n >= 2 {
      var word := InetFrom(text[s.digit.value..], 0, 0, 0, 0);
      var s' := s.(out := s.out + Two(word / 65536), n := s.n - 1, word := word);
      FinishIs(s');
      assert s.out + Two(word / 65536) + Two(word) == s.out + (Two(word / 65536) + Two(word));
    }
  }

  // A text without colons is one group.
  lemma {:induction false} OneGroup(t: string) returns (k: nat)
    ensures if |Groups(t)| == 1 then Groups(t)[0] == t else k < |t| && t[k] == ':'
  {
    k := 0;
    if t != "" && t[0] != ':' {
      var j := OneGroup(t[1..]);
      k := j + 1;
      if |Groups(t)| == 1 { assert t == [t[0]] + t[1..]; }
    }
  }

  // What the groups that are left mean, behind what was read before them.
  ghost function Closed(gs: seq<string>, zero: Option<nat>, out: seq<Byte>, colon: bool): (r: Option<seq<Byte>>)
    requires |gs| > 0 && (zero.Some? ==> zero.value <= |out|)
  {
    var inner, last := gs[..|gs| - 1], gs[|gs| - 1];
    var e := Empties(inner) + if zero.Some? then 1 else 0;
    var bytes := LastBytes(last, colon || inner != []);
    if !Plain(inner) || bytes.None? || e > 1 || (e == 0 && last == "") then None
    else
      BeforeLength(inner);
      Filled(out + Bytes(inner) + bytes.value,
             if zero.Some? then zero else if e == 0 then None else Some(|out| + Before(inner)))
  }

  lemma {:induction false} RestIs(gs: seq<string>, zero: Option<nat>, out: seq<Byte>, colon: bool)
    requires |gs| > 0 && (zero.Some? ==> zero.value <= |out|)
    ensures Rest(gs, zero, out, colon) == Closed(gs, zero, out, colon)
    decreases |gs|
  {
    hide LastBytes, HexDigits, HexNumber, Two, Filled;
    var inner := gs[..|gs| - 1];
    if |gs| == 1 {
      LastTwo(gs[0], colon);
      assert out + [] == out;
    } else {
      var rest := gs[1..];
      var inner' := rest[..|rest| - 1];
      assert inner == [gs[0]] + inner' && inner[1..] == inner';
      PlainStep(inner);
      if gs[0] == "" {
        if zero.None? {
          RestIs(rest, Some(|out|), out, true);
          if Plain(inner) { assert Bytes(inner) == Bytes(inner'); }
        }
      } else if Hex(gs[0]) {
        var two := Two(HexNumber(0, gs[0]));
        if |out| <= 12 {
          RestIs(rest, zero, out + two, true);
          if Plain(inner) { assert out + two + Bytes(inner') == out + Bytes(inner); }
        } else {
          TooMany(gs, zero, out, colon);
        }
      }
    }
  }

  lemma PlainStep(gs: seq<string>)
    requires gs != []
    ensures Plain(gs) <==> (gs[0] == "" || Hex(gs[0])) && Plain(gs[1..])
  {
    assert gs == [gs[0]] + gs[1..];
  }

  lemma LastTwo(g: string, colon: bool)
    ensures LastBytes(g, colon).Some? ==> |LastBytes(g, colon).value| >= 2
  {
  }

  lemma TooMany(gs: seq<string>, zero: Option<nat>, out: seq<Byte>, colon: bool)
    requires |gs| > 1 && Hex(gs[0]) && |out| > 12 && (zero.Some? ==> zero.value <= |out|)
    ensures Closed(gs, zero, out, colon).None?
  {
    hide LastBytes, HexNumber;
    var inner := gs[..|gs| - 1];
    assert inner[0] == gs[0];
    LastTwo(gs[|gs| - 1], colon || inner != []);
    PlainStep(inner);
    if Plain(inner) { assert |Bytes(inner)| >= 2; }
  }

  /** The parser accepts exactly the texts that have a meaning by their groups. */
  lemma Inet6Exactly(text: string)
    ensures Parse(text) == ByGroups(text)
  {
    hide Rest, Scanned, Groups, LastBytes, Filled;
    if text != "" {
      var i := if text[0] == ':' then 1 else 0;
      var t := text[i..];
      NoDigits();
      assert text[i..i] == "";
      ScanIsRest(text, i, START, "");
      var gs := Groups(t);
      assert Current("", gs) == gs by { assert "" + gs[0] == gs[0]; }
      RestIs(gs, None, [], false);
      assert i == 0 ==> t == text;
      var inner := gs[..|gs| - 1];
      if Plain(inner) { assert [] + Bytes(inner) == Bytes(inner); }
    }
  }

  // One colon in front of a group is let through, and one behind the last.
  lemma StrayColons()
    ensures Parse(":1::") == Parse("1::") == Some([0, 1] + Zeros(14))
    ensures Parse("::1:") == Some(Zeros(12) + [0, 1, 0, 0])
  {
    hide Parse, Groups, Meaning, Zeros;
    Inet6Exactly(":1::");
    Inet6Exactly("1::");
    Inet6Exactly("::1:");
    assert ":1::"[1..] == "1::" && "::1:"[1..] == ":1:";
    OneAtFront();
    OneBehind();
    StrayGroups();
  }

  lemma StrayGroups()
    ensures Groups("1::") == ["1", "", ""] && Groups(":1:") == ["", "1", ""]
  {
    assert ":"[1..] == "" && "::"[1..] == ":" && "1::"[1..] == "::" && "1:"[1..] == ":" && ":1:"[1..] == "1:";
    assert Groups(":") == ["", ""];
    assert Groups("::") == ["", "", ""];
    assert ["", ""][1..] == [""] && ["", "", ""][1..] == ["", ""] && ['1'] + "" == "1";
    assert Groups("1:") == ["1", ""];
  }

  lemma One()
    ensures Hex("1") && HexNumber(0, "1") == 1 && Two(1) == [0, 1] && Two(0) == [0, 0]
  {
    assert "1"[1..] == "";
  }

  lemma OneAtFront()
    ensures Meaning(["1", "", ""]) == Some([0, 1] + Zeros(14))
  {
    hide HexNumber, Two, Hex;
    One();
    var inner := ["1", ""];
    assert ["1", "", ""][..2] == inner && inner[1..] == [""] && [""][1..] == [];
    assert Bytes([""]) == [] && Empties([""]) == 1 && Before([""]) == 0;
    assert Plain(inner) && Bytes(inner) == [0, 1] && Empties(inner) == 1 && Before(inner) == 2;
    var bytes := [0, 1] + [0, 0];
    assert bytes[..2] + Zeros(12) + bytes[2..] == [0, 1] + Zeros(14);
  }

  lemma OneBehind()
    ensures Meaning(["", "1", ""]) == Some(Zeros(12) + [0, 1, 0, 0])
  {
    hide HexNumber, Two, Hex;
    One();
    var inner := ["", "1"];
    assert ["", "1", ""][..2] == inner && inner[1..] == ["1"] && ["1"][1..] == [];
    assert Plain(["1"]) && Bytes(["1"]) == [0, 1] && Empties(["1"]) == 0;
    assert Plain(inner) && Bytes(inner) == [0, 1] && Empties(inner) == 1 && Before(inner) == 0;
    var bytes := [0, 1] + [0, 0];
    assert bytes[..0] + Zeros(12) + bytes[0..] == Zeros(12) + [0, 1, 0, 0];
  }

  // ---- the parser, in place ------------------------------------------------------

  /**
   * ngx_inet6_addr, with the address stored in place: it fails, or leaves in
   * addr the address the text stands for; it writes nowhere else.
   */
  method Inet6Addr(text: string, addr: array<Byte>) returns (ok: bool)
    requires addr.Length == 16
    modifies addr
    ensures ok <==> ByGroups(text).Some?
    ensures ok ==> addr[..] == ByGroups(text).value
  {
    Inet6Exactly(text);
    hide InetFrom, HexValue, Finish, Dotted, HighByte, LowByte, ByGroups;
    if text == "" {
      return false;
    }
    var zero: Option<nat>, digit: Option<nat>, nibbles: nat, word: nat, n: nat := None, None, 0, 0, 8;
    var i := if text[0] == ':' then 1 else 0;
    while i < |text|
      invariant i <= |text| && 0 < n <= 8
      invariant var s := Scan(zero, digit, nibbles, word, addr[..16 - 2 * n], n);
        ScanOk(s, i) && Scanned(text, i, s) == Parse(text)
    {
      var c := text[i];
      if c == ':' {
        if nibbles > 0 {
          digit := Some(i + 1);
          Store(addr, 16 - 2 * n, word);
          n := n - 1;
          if n > 0 {
            nibbles, word, i := 0, 0, i + 1;
            continue;
          }
        } else if zero.None? {
          digit, zero, i := Some(i + 1), Some(16 - 2 * n), i + 1;
          continue;
        }
        return false;
      }
      if c == '.' && nibbles > 0 {
        ok := DottedTail(text, addr, zero, digit, nibbles, word, n);
        return;
      }
      nibbles := nibbles + 1;
      if nibbles > 4 {
        return false;
      }
      var v := HexValue(c);
      if v.None? {
        return false;
      }
      word, i := word * 16 + v.value, i + 1;
    }
    ok := Conclude(addr, zero, nibbles, word, n, digit);
  }

  method DottedTail(text: string, addr: array<Byte>, zero: Option<nat>, digit: Option<nat>, nibbles: nat, word: nat,
                    n: nat)
    returns (ok: bool)
    requires addr.Length == 16 && 0 < n <= 8
    requires ScanOk(Scan(zero, digit, nibbles, word, addr[..16 - 2 * n], n), |text|)
    modifies addr
    ensures var r := Dotted(text, Scan(zero, digit, nibbles, word, old(addr[..16 - 2 * n]), n));
      (ok <==> r.Some?) && (ok ==> addr[..] == r.value)
  {
    hide InetFrom, Finish, HighByte, LowByte;
    if n < 2 || digit.None? {
      return false;
    }
    var address := InetAddr(text[digit.value..]);
    if address == INADDR_NONE {
      return false;
    }
    Store(addr, 16 - 2 * n, address / 65536);
    ok := Conclude(addr, zero, nibbles, address, n - 1, digit);
  }

  // The two bytes of a word.
  method Store(addr: array<Byte>, at: nat, word: nat)
    requires addr.Length == 16 && at + 2 <= 16
    modifies addr
    ensures addr[..at + 2] == old(addr[..at]) + [HighByte(word), LowByte(word)]
  {
    addr[at] := HighByte(word);
    addr[at + 1] := LowByte(word);
  }

  // After the loop: the last word, and the bytes behind :: moved to the end.
  method Conclude(addr: array<Byte>, zero: Option<nat>, nibbles: nat, word: nat, n: nat,
                  ghost digit: Option<nat>) returns (ok: bool)
    requires addr.Length == 16 && 0 < n <= 8 && (zero.Some? ==> zero.value <= 16 - 2 * n)
    modifies addr
    ensures var r := Finish(Scan(zero, digit, nibbles, word, old(addr[..16 - 2 * n]), n));
      (ok <==> r.Some?) && (ok ==> addr[..] == r.value)
  {
    if nibbles == 0 && zero.None? {
      return false;
    }
    hide Finish, HighByte, LowByte, Zeros;
    var w := 16 - 2 * n + 2;
    FinishIs(Scan(zero, digit, nibbles, word, addr[..16 - 2 * n], n));
    Store(addr, 16 - 2 * n, word);
    ghost var was := addr[..w];
    assert was == old(addr[..16 - 2 * n]) + Two(word);
    hide Two;
    if n > 1 {
      if zero.Some? {
        InsertZeros(addr, zero.value, w);
        return true;
      }
      return false;
    }
    assert addr[..] == was;
    ok := zero.None?;
  }

  // The first w bytes are stretched to all sixteen, with zeros at z.
  method InsertZeros(addr: array<Byte>, z: nat, w: nat)
    requires addr.Length == 16 && z <= w <= 16
    modifies addr
    ensures addr[..] == old(addr[..w])[..z] + Zeros(16 - w) + old(addr[..w])[z..]
  {
    MoveUp(addr, z, w, 16 - w);
    Clear(addr, z, 16 - w);
  }

  // Bytes from..to move up by n places, last first.
  method MoveUp(addr: array<Byte>, from: nat, to: nat, n: nat)
    requires from <= to && to + n <= addr.Length
    modifies addr
    ensures forall k :: 0 <= k < from ==> addr[k] == old(addr[k])
    ensures forall k :: from + n <= k < to + n ==> addr[k] == old(addr[k - n])
  {
    var k := to;
    while k > from
      invariant from <= k <= to
      invariant forall j :: 0 <= j < k ==> addr[j] == old(addr[j])
      invariant forall j :: k + n <= j < to + n ==> addr[j] == old(addr[j - n])
    {
      k := k - 1;
      addr[k + n] := addr[k];
    }
  }

  method Clear(addr: array<Byte>, from: nat, n: nat)
    requires from + n <= addr.Length
    modifies addr
    ensures forall k :: 0 <= k < addr.Length ==> addr[k] == if from <= k < from + n then 0 else old(addr[k])
  {
    forall k | from <= k < from + n {
      addr[k] := 0;
    }
  }
}
