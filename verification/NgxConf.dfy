/**
 * ngx_conf_read_token: one directive's words, read from a configuration file
 * through a buffer of 4096 bytes that is refilled as the reader goes on
 * (ngx_conf_file.c).
 */
module NgxConf {
  import opened Options

  const CONF_BUFFER := 4096

  // The reader's variables between two characters.  Positions are in the file.
  datatype Scan = Scan(
    needSpace: bool,
    lastSpace: bool,
    sharp: bool,           // in a comment
    variable: bool,        // just after $
    quoted: bool,          // just after a backslash
    singleQuoted: bool,
    doubleQuoted: bool,
    start: nat,
    startLine: nat,
    line: nat,
    words: seq<string>)

  datatype Outcome =
    | Semicolon            // NGX_OK
    | BlockStart
    | BlockDone
    | FileDone
    | Unexpected(ch: char)
    | UnexpectedEnd
    | TooLong

  datatype Result = Result(outcome: Outcome, words: seq<string>, pos: nat, line: nat)

  datatype Supplied = Ready | Exhausted | Full

  datatype Step = More(scan: Scan) | Stop(outcome: Outcome, words: seq<string>, line: nat)

  function Begin(pos: nat, line: nat): Scan
  {
    Scan(false, true, false, false, false, false, false, pos, line, line, [])
  }

  predicate Blank(ch: char)
  {
    ch == ' ' || ch == '\t' || ch == '\r' || ch == '\n'
  }

  // ---- one word --------------------------------------------------------------------

  // What a backslash and c stand for, if anything but themselves.
  function Meant(c: char): (m: Option<char>)
  {
    if c == '"' || c == '\'' || c == '\\' then Some(c)
    else if c == 't' then Some('\t')
    else if c == 'r' then Some('\r')
    else if c == 'n' then Some('\n')
    else None
  }

  predicate Escape(span: string, k: nat)
    requires k + 1 < |span|
  {
    span[k] == '\\' && Meant(span[k + 1]).Some?
  }

  // The word from position k on; the last character of span, which ended it,
  // is looked at but not copied.
  function UnescapeFrom(span: string, k: nat): (w: string)
    decreases |span| - k
  {
    if k + 1 >= |span| then ""
    else if Escape(span, k) then [Meant(span[k + 1]).value] + UnescapeFrom(span, k + 2)
    else [span[k]] + UnescapeFrom(span, k + 1)
  }

  // The copying loop.
  method Unescape(span: string) returns (w: string)
    ensures w == UnescapeFrom(span, 0)
  {
    w := "";
    var k := 0;
    while k + 1 < |span|
      invariant w + UnescapeFrom(span, k) == UnescapeFrom(span, 0)
      decreases |span| - k
    {
      hide Meant, Escape;
      if Escape(span, k) {
        Assoc(w, Meant(span[k + 1]).value, UnescapeFrom(span, k + 2));
        w, k := w + [Meant(span[k + 1]).value], k + 2;
        continue;
      }
      Assoc(w, span[k], UnescapeFrom(span, k + 1));
      w, k := w + [span[k]], k + 1;
    }
  }

  lemma Assoc(w: string, c: char, rest: string)
    ensures (w + [c]) + rest == w + ([c] + rest)
  {
  }

  // ---- one character ---------------------------------------------------------------

  // The body of the loop for character ch at position i of the file; span is
  // the text from start up to and including ch.
  function Take(s: Scan, ch: char, i: nat, span: string): Step
  {
    var s := if ch == '\n' then s.(line := s.line + 1, sharp := false) else s;
    if s.sharp then More(s)
    else if s.quoted then More(s.(quoted := false))
    else if s.needSpace then
      if Blank(ch) then More(s.(lastSpace := true, needSpace := false))
      else if ch == ';' then Stop(Semicolon, s.words, s.line)
      else if ch == '{' then Stop(BlockStart, s.words, s.line)
      else if ch == ')' then First(s.(lastSpace := true, needSpace := false), ch, i)
      else Stop(Unexpected(ch), s.words, s.line)
    else if s.lastSpace then First(s, ch, i)
    else Inside(s, ch, span)
  }

  // A character after blanks.
  function First(s: Scan, ch: char, i: nat): Step
  {
    if Blank(ch) then More(s)
    else
      var s := s.(start := i, startLine := s.line);
      match ch
      case ';' => if s.words == [] then Stop(Unexpected(ch), s.words, s.line) else Stop(Semicolon, s.words, s.line)
      case '{' => if s.words == [] then Stop(Unexpected(ch), s.words, s.line) else Stop(BlockStart, s.words, s.line)
      case '}' => if s.words != [] then Stop(Unexpected(ch), s.words, s.line) else Stop(BlockDone, s.words, s.line)
      case '#' => More(s.(sharp := true))
      case '\\' => More(s.(quoted := true, lastSpace := false))
      case '"' => More(s.(start := i + 1, doubleQuoted := true, lastSpace := false))
      case '\'' => More(s.(start := i + 1, singleQuoted := true, lastSpace := false))
      case _ => More(s.(lastSpace := false))
  }

  // A character inside a word.
  function Inside(s: Scan, ch: char, span: string): Step
  {
    if ch == '{' && s.variable then More(s)
    else
      var s := s.(variable := false);
      if ch == '\\' then More(s.(quoted := true))
      else if ch == '$' then More(s.(variable := true))
      else if s.doubleQuoted then
        if ch == '"' then Word(s.(doubleQuoted := false, needSpace := true), ch, span) else More(s)
      else if s.singleQuoted then
        if ch == '\'' then Word(s.(singleQuoted := false, needSpace := true), ch, span) else More(s)
      else if Blank(ch) || ch == ';' || ch == '{' then Word(s.(lastSpace := true), ch, span)
      else More(s)
  }

  function Word(s: Scan, ch: char, span: string): Step
  {
    var words := s.words + [UnescapeFrom(span, 0)];
    if ch == ';' then Stop(Semicolon, words, s.line)
    else if ch == '{' then Stop(BlockStart, words, s.line)
    else More(s.(words := words))
  }

  lemma StartsBehind(s: Scan, ch: char, i: nat, span: string)
    requires s.start <= i
    ensures var t := Take(s, ch, i, span);
      t.More? ==> t.scan.start <= i + 1
  {
  }

  // ---- the whole file in one buffer ---------------------------------------------------

  function AtEnd(s: Scan, pos: nat): Result
  {
    Result(if s.words != [] || !s.lastSpace then UnexpectedEnd else FileDone, s.words, pos, s.line)
  }

  function Whole(file: string, i: nat, s: Scan): (r: Result)
    requires s.start <= i <= |file|
    decreases |file| - i
  {
    if i == |file| then AtEnd(s, i)
    else
      StartsBehind(s, file[i], i, file[s.start..i + 1]);
      var t := Take(s, file[i], i, file[s.start..i + 1]);
      if t.Stop? then Result(t.outcome, t.words, i + 1, t.line) else Whole(file, i + 1, t.scan)
  }

  // Somewhere before its end the token, or the blanks and comments before it,
  // stretch over a whole buffer.
  predicate Long(file: string, i: nat, s: Scan)
    requires s.start <= i <= |file|
    decreases |file| - i
  {
    && i < |file|
    && (i - s.start >= CONF_BUFFER
        || (StartsBehind(s, file[i], i, file[s.start..i + 1]);
            var t := Take(s, file[i], i, file[s.start..i + 1]);
            t.More? && Long(file, i + 1, t.scan)))
  }

  lemma Ended(file: string, i: nat, s: Scan)
    requires s.start <= i == |file|
    ensures Whole(file, i, s) == AtEnd(s, i) && !Long(file, i, s)
  {
  }

  lemma Overlong(file: string, i: nat, s: Scan)
    requires s.start <= i < |file| && i - s.start >= CONF_BUFFER
    ensures Long(file, i, s)
  {
  }

  lemma Next(file: string, i: nat, s: Scan)
    requires s.start <= i < |file| && i - s.start < CONF_BUFFER
    ensures var t := Take(s, file[i], i, file[s.start..i + 1]);
      if t.Stop? then Whole(file, i, s) == Result(t.outcome, t.words, i + 1, t.line) && !Long(file, i, s)
      else
        && s.start <= t.scan.start <= i + 1
        && Whole(file, i, s) == Whole(file, i + 1, t.scan) && Long(file, i, s) == Long(file, i + 1, t.scan)
  {
    hide Take;
    StartsBehind(s, file[i], i, file[s.start..i + 1]);
    StartsAhead(s, file[i], i, file[s.start..i + 1]);
  }

  // A token's start never goes back.
  lemma StartsAhead(s: Scan, ch: char, i: nat, span: string)
    requires s.start <= i
    ensures var t := Take(s, ch, i, span);
      t.More? ==> s.start <= t.scan.start
  {
  }

  lemma SamePart(b: string, file: string, o: nat, n: nat, from: nat, to: nat)
    requires Holding(b, n, file, o) && from < to <= n
    ensures b[from..to] == file[o + from..o + to] && b[to - 1] == file[o + to - 1]
  {
    assert forall k :: from <= k < to ==> b[k] == file[o + k];
  }

  // ---- writing words so that they are read back ------------------------------------

  function Escaped(w: string): string
  {
    if w == "" then "" else (if w[0] == '"' || w[0] == '\\' then ['\\', w[0]] else [w[0]]) + Escaped(w[1..])
  }

  // Words in double quotes, a space behind each, and a semicolon.
  function Written(words: seq<string>): string
  {
    if words == [] then ";" else "\"" + Escaped(words[0]) + "\" " + Written(words[1..])
  }

  lemma {:induction false} EscapedBack(before: string, w: string)
    ensures UnescapeFrom(before + Escaped(w) + "\"", |before|) == w
    decreases |w|
  {
    var span := before + Escaped(w) + "\"";
    if w != "" {
      var e := if w[0] == '"' || w[0] == '\\' then ['\\', w[0]] else [w[0]];
      assert span == (before + e) + Escaped(w[1..]) + "\"";
      EscapedBack(before + e, w[1..]);
    }
  }

  // Inside a double-quoted word that began at start.
  ghost predicate Quoting(s: Scan, start: nat, words: seq<string>)
  {
    && s.doubleQuoted && !s.singleQuoted && !s.quoted && !s.sharp && !s.needSpace && !s.lastSpace
    && s.start == start && s.words == words
  }

  // Between words.
  ghost predicate Between(s: Scan, words: seq<string>)
  {
    && !s.doubleQuoted && !s.singleQuoted && !s.quoted && !s.sharp && !s.needSpace && s.lastSpace
    && s.words == words
  }

  // An escaped word is gone through without ending it.
  lemma {:induction false} ThroughWord(file: string, i: nat, s: Scan, w: string, rest: string) returns (t: Scan)
    requires s.start <= i <= |file| && file[i..] == Escaped(w) + rest && Quoting(s, s.start, s.words)
    ensures Quoting(t, s.start, s.words) && i + |Escaped(w)| <= |file|
    ensures Whole(file, i, s) == Whole(file, i + |Escaped(w)|, t)
    decreases |w|
  {
    hide Take;
    if w == "" {
      t := s;
    } else {
      var escape := w[0] == '"' || w[0] == '\\';
      var e := if escape then ['\\', w[0]] else [w[0]];
      Ahead(file, i, e, Escaped(w[1..]) + rest);
      var u := QuotedChar(s, file[i], i, file[s.start..i + 1]);
      if escape {
        u := EscapedChar(u, file[i + 1], i + 1, file[u.start..i + 2]);
      }
      t := ThroughWord(file, i + |e|, u, w[1..], rest);
    }
  }

  lemma Ahead(file: string, i: nat, e: string, rest: string)
    requires i <= |file| && file[i..] == e + rest
    ensures i + |e| <= |file| && file[i + |e|..] == rest
    ensures forall k :: 0 <= k < |e| ==> file[i + k] == e[k]
  {
    assert file[i + |e|..] == file[i..][|e|..];
    forall k | 0 <= k < |e| ensures file[i + k] == e[k] { assert file[i + k] == file[i..][k]; }
  }

  lemma QuotedChar(s: Scan, ch: char, i: nat, span: string) returns (t: Scan)
    requires Quoting(s, s.start, s.words) && ch != '"'
    ensures Take(s, ch, i, span) == More(t)
    ensures (if ch == '\\' then t.quoted && Quoting(t.(quoted := false), s.start, s.words)
                                               else Quoting(t, s.start, s.words))
  {
    t := Take(s, ch, i, span).scan;
  }

  lemma EscapedChar(s: Scan, ch: char, i: nat, span: string) returns (t: Scan)
    requires s.quoted && Quoting(s.(quoted := false), s.start, s.words)
    ensures Take(s, ch, i, span) == More(t) && Quoting(t, s.start, s.words)
  {
    t := Take(s, ch, i, span).scan;
  }

  // One written word is read as it was.
  lemma OneWord(file: string, i: nat, s: Scan, w: string, rest: string) returns (t: Scan)
    requires s.start <= i <= |file| && file[i..] == "\"" + Escaped(w) + "\" " + rest && Between(s, s.words)
    ensures Between(t, s.words + [w]) && t.start <= i + |Escaped(w)| + 3 <= |file|
    ensures Whole(file, i, s) == Whole(file, i + |Escaped(w)| + 3, t)
  {
    hide Take, Escaped, UnescapeFrom;
    var n := |Escaped(w)|;
    assert file[i] == file[i..][0] && file[i + 1 + n] == file[i..][1 + n] && file[i + 2 + n] == file[i..][2 + n];
    assert file[i + 1..] == file[i..][1..] && file[i + 1..] == Escaped(w) + ("\" " + rest);
    var u := OpeningQuote(s, i, file[s.start..i + 1]);
    var v := ThroughWord(file, i + 1, u, w, "\" " + rest);
    assert file[i + 1..i + 2 + n] == file[i + 1..][..n + 1] && file[i + 1..][..n + 1] == Escaped(w) + "\"";
    EscapedBack("", w);
    assert "" + Escaped(w) + "\"" == Escaped(w) + "\"";
    t := ClosingQuote(v, i + 1 + n, file[i + 1..i + 2 + n], w);
    t := SpaceBehind(t, i + 2 + n, file[t.start..i + 3 + n]);
  }

  lemma OpeningQuote(s: Scan, i: nat, span: string) returns (t: Scan)
    requires Between(s, s.words)
    ensures Take(s, '"', i, span) == More(t) && Quoting(t, i + 1, s.words)
  {
    t := Take(s, '"', i, span).scan;
  }

  lemma ClosingQuote(s: Scan, i: nat, span: string, w: string) returns (t: Scan)
    requires Quoting(s, s.start, s.words) && UnescapeFrom(span, 0) == w
    ensures Take(s, '"', i, span) == More(t) && t.needSpace && t.start == s.start
    ensures Between(t.(needSpace := false, lastSpace := true), s.words + [w])
  {
    hide UnescapeFrom;
    t := Take(s, '"', i, span).scan;
  }

  lemma SpaceBehind(s: Scan, i: nat, span: string) returns (t: Scan)
    requires s.needSpace && Between(s.(needSpace := false, lastSpace := true), s.words)
    ensures Take(s, ' ', i, span) == More(t) && Between(t, s.words) && t.start == s.start
  {
    t := Take(s, ' ', i, span).scan;
  }

  lemma {:induction false} WordsRead(file: string, i: nat, s: Scan, words: seq<string>)
    requires s.start <= i <= |file| && file[i..] == Written(words) && Between(s, s.words) && s.words + words != []
    ensures var r := Whole(file, i, s);
      r.outcome == Semicolon && r.words == s.words + words && r.pos == |file|
    decreases |words|
  {
    hide Take, Escaped;
    if words == [] {
      assert file[i] == file[i..][0];
      LastSemicolon(s, i, file[s.start..i + 1]);
      assert s.words + words == s.words;
    } else {
      var rest := Written(words[1..]);
      var t := OneWord(file, i, s, words[0], rest);
      var j := i + |Escaped(words[0])| + 3;
      assert file[j..] == file[i..][j - i..] && file[i..][j - i..] == rest;
      assert s.words + [words[0]] + words[1..] == s.words + words;
      WordsRead(file, j, t, words[1..]);
    }
  }

  lemma LastSemicolon(s: Scan, i: nat, span: string)
    requires Between(s, s.words) && s.words != []
    ensures Take(s, ';', i, span).Stop? && Take(s, ';', i, span).outcome == Semicolon
    ensures Take(s, ';', i, span).words == s.words
  {
  }

  // Any words, written in quotes with their quotes and backslashes escaped, are read back.
  lemma WrittenIsRead(words: seq<string>, line: nat)
    requires words != []
    ensures var file := Written(words);
      var r := Whole(file, 0, Begin(0, line));
      r.outcome == Semicolon && r.words == words && r.pos == |file|
  {
    var file := Written(words);
    assert file[0..] == file && [] + words == words;
    WordsRead(file, 0, Begin(0, line), words);
  }

  // The first n characters of b are those of the file from o on.
  ghost predicate Holding(b: string, n: nat, file: string, o: nat)
  {
    n <= |b| && o + n <= |file| && forall k :: 0 <= k < n ==> b[k] == file[o + k]
  }

  class ConfFile {
    const file: string
    var offset: nat              // how much of the file has been read
    var buffer: array<char>
    var pos: nat
    var last: nat
    var line: nat

    // The buffer holds the part of the file before offset.
    ghost predicate Valid()
      reads this`offset, this`buffer, this`pos, this`last, buffer
    {
      && buffer.Length == CONF_BUFFER && pos <= last <= CONF_BUFFER && last <= offset <= |file|
      && Holding(buffer[..], last, file, offset - last)
    }

    constructor (file: string)
      ensures Valid() && this.file == file && At() == 0 && line == 1 && fresh(buffer)
    {
      this.file, offset, pos, last, line := file, 0, 0, 0, 1;
      buffer := new char[CONF_BUFFER](_ => ' ');
    }

    // The position of the next character in the file.
    function At(): int
      reads this`offset, this`last, this`pos
    {
      offset - last + pos
    }

    // Keeps what start..last holds and fills up the buffer behind it.
    method Refill(start: nat)
      requires Valid() && start <= pos == last && pos - start < CONF_BUFFER && offset < |file|
      modifies this`offset, this`pos, this`last, buffer
      ensures Valid() && buffer == old(buffer) && pos == old(pos) - start && At() == old(At()) && pos < last
    {
      hide Holding;
      var len := pos - start;
      var size := |file| - offset;
      if size > CONF_BUFFER - len {
        size := CONF_BUFFER - len;
      }
      Move(start, len);
      Read(len, size);
      pos, last, offset := len, len + size, offset + size;
    }

    /**
     * ngx_conf_read_token.  However the file came through the buffer, the
     * token is the one the whole file gives, and the reader stands behind it;
     * but it is an error if the span kept in the buffer grows to fill it.
     */
    method ReadToken() returns (r: Result)
      requires Valid()
      modifies this, buffer
      ensures Valid() && buffer == old(buffer)
      ensures var i := old(At());
        && i >= 0
        && (Long(file, i, Begin(i, old(line))) ==> r.outcome == TooLong)
        && (!Long(file, i, Begin(i, old(line))) ==>
              r == Whole(file, i, Begin(i, old(line))) && At() == r.pos && line == r.line)
    {
      hide Take, Whole, Long, ConfFile.Valid;
      Inside();
      var s := Begin(At(), line);
      ghost var whole, long := Whole(file, At(), s), Long(file, At(), s);
      while true
        invariant Valid() && buffer == old(buffer) && Covers(s) && line == s.line
        invariant Whole(file, At(), s) == whole && Long(file, At(), s) == long
        decreases |file| - At()
      {
        var supply := Supply(s);
        if supply.Exhausted? {
          Ended(file, At(), s);
          return AtEnd(s, At());
        }
        if supply.Full? {
          Overlong(file, At(), s);
          line := s.startLine;
          return Result(TooLong, s.words, At(), line);
        }
        var i := At();
        var ch, span := buffer[pos], buffer[s.start - (offset - last)..pos + 1];
        Window(s);
        Next(file, i, s);
        var t := Take(s, ch, i, span);
        Advance();
        if t.Stop? {
          line := t.line;
          return Result(t.outcome, t.words, At(), t.line);
        }
        s, line := t.scan, t.scan.line;
      }
    }

    // The token's start is still in the buffer.
    ghost predicate Covers(s: Scan)
      reads this`offset, this`last, this`pos
    {
      0 <= offset - last <= s.start <= At() <= |file| && pos <= last
    }

    lemma Inside()
      requires Valid()
      ensures 0 <= offset - last <= At() <= |file| && pos <= last
    {
    }

    method Advance()
      requires Valid() && pos < last
      modifies this`pos
      ensures Valid() && At() == old(At()) + 1 && pos <= last
    {
      pos := pos + 1;
    }

    // Another character is in the buffer, unless the file is at its end or the
    // token fills the buffer.
    method Supply(s: Scan) returns (r: Supplied)
      requires Valid() && Covers(s)
      modifies this`offset, this`pos, this`last, buffer
      ensures Valid() && Covers(s) && buffer == old(buffer) && At() == old(At())
      ensures r.Ready? ==>
        pos < last && At() - s.start < CONF_BUFFER && At() < |file| && s.start - (offset - last) <= pos
      ensures r.Exhausted? ==> At() == |file|
      ensures r.Full? ==> At() < |file| && At() - s.start >= CONF_BUFFER
    {
      if pos >= last {
        if offset >= |file| {
          return Exhausted;
        }
        var start := s.start - (offset - last);
        if pos - start == CONF_BUFFER {
          return Full;
        }
        Refill(start);
      }
      r := Ready;
    }

    lemma Window(s: Scan)
      requires Valid() && Covers(s) && pos < last
      ensures At() < |file| && buffer.Length == CONF_BUFFER && last <= CONF_BUFFER
      ensures buffer[pos] == file[At()] && buffer[s.start - (offset - last)..pos + 1] == file[s.start..At() + 1]
    {
      var start := s.start - (offset - last);
      assert buffer[start..pos + 1] == buffer[..][start..pos + 1];
      SamePart(buffer[..], file, offset - last, last, start, pos + 1);
    }

    // memmove of len characters, the last that were read, to the beginning of the buffer.
    method Move(start: nat, len: nat)
      requires buffer.Length == CONF_BUFFER && start + len == last <= CONF_BUFFER && last <= offset
      requires Holding(buffer[..], last, file, offset - last)
      modifies buffer
      ensures Holding(buffer[..], len, file, offset - len)
    {
      forall k | 0 <= k < len {
        buffer[k] := buffer[start + k];
      }
      forall k | 0 <= k < len
        ensures buffer[k] == file[offset - len + k]
      {
        assert old(buffer[..])[start + k] == file[offset - last + (start + k)];
      }
    }

    // The next size characters of the file go behind the first len of the buffer.
    method Read(len: nat, size: nat)
      requires buffer.Length == CONF_BUFFER && len + size <= CONF_BUFFER && len <= offset && offset + size <= |file|
      requires Holding(buffer[..], len, file, offset - len)
      modifies buffer
      ensures Holding(buffer[..], len + size, file, offset - len)
    {
      forall k | 0 <= k < size {
        buffer[len + k] := file[offset + k];
      }
      assert forall k :: 0 <= k < len ==> buffer[k] == old(buffer[..])[k];
      forall k | len <= k < len + size
        ensures buffer[k] == file[offset - len + k]
      {
        assert buffer[len + (k - len)] == file[offset + (k - len)];
      }
    }
  }
}
