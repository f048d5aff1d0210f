/**
 * The output chain: buffers flow from ctx->in, some copied through a bounded
 * pool of recycled temporary buffers, to a downstream filter that consumes
 * them in order and at its own pace (ngx_output_chain.c, ngx_buf.c).
 *
 * Chains are sequences of references into one memory of buffers.  The filter
 * and the chains share those buffers, so a temporary buffer refilled while
 * the filter still held it would change what the filter sends.
 */
module NgxChain {

  import opened Collections

  type Byte = bv8

  datatype Rc = Ok | Again | Done | Error

  datatype Buf = Buf(
    mem: seq<Byte>,       // the memory from start to end
    pos: nat,
    last: nat,
    file: seq<Byte>,      // the contents of the file behind the buffer
    filePos: nat,
    fileLast: nat,
    tag: nat,
    temporary: bool,
    memory: bool,
    mmap: bool,
    recycled: bool,
    inFile: bool,
    flush: bool,
    sync: bool,
    lastBuf: bool,
    lastInChain: bool)
  {
    predicate InMemory()
    {
      temporary || memory || mmap
    }

    predicate Special()
    {
      (flush || lastBuf || sync) && !InMemory() && !inFile
    }

    function Size(): int
    {
      if InMemory() then last - pos else fileLast - filePos
    }

    // Positions lie inside what they index, and a buffer that is both in
    // memory and in a file shows the same bytes either way.
    predicate Valid()
    {
      && (InMemory() ==> pos <= last <= |mem|)
      && (inFile ==> filePos <= fileLast <= |file|)
      && (!InMemory() && !inFile ==> filePos == fileLast)
      && (InMemory() && inFile ==> file[filePos..fileLast] == mem[pos..last])
    }

    function Bytes(): (s: seq<Byte>)
    {
      if InMemory() then
        if pos <= last <= |mem| then mem[pos..last] else []
      else if inFile && filePos <= fileLast <= |file| then file[filePos..fileLast] else []
    }

    // Downstream has taken the first n bytes.
    function Advance(n: nat): (b: Buf)
    {
      if InMemory() then
        if inFile then this.(pos := pos + n, filePos := filePos + n) else this.(pos := pos + n)
      else if inFile then this.(filePos := filePos + n) else this
    }
  }

  lemma SliceAdvance<T>(s: seq<T>, a: nat, b: nat, n: nat)
    requires a + n <= b <= |s|
    ensures s[a + n..b] == s[a..b][n..]
  {
  }

  lemma AdvanceBytes(b: Buf, n: nat)
    requires b.Valid() && n <= b.Size()
    ensures |b.Bytes()| == b.Size()
    ensures b.Advance(n).Valid() && b.Advance(n).Bytes() == b.Bytes()[n..]
    ensures b.Advance(n).Size() == b.Size() - n
  {
    if b.InMemory() && b.inFile {
      BothAdvance(b, n);
    } else if b.InMemory() {
      SliceAdvance(b.mem, b.pos, b.last, n);
    } else if b.inFile {
      SliceAdvance(b.file, b.filePos, b.fileLast, n);
    }
  }

  lemma BothAdvance(b: Buf, n: nat)
    requires b.Valid() && n <= b.Size() && b.InMemory() && b.inFile
    ensures |b.Bytes()| == b.Size()
    ensures b.Advance(n).Valid() && b.Advance(n).Bytes() == b.Bytes()[n..]
  {
    var d := b.Advance(n);
    assert |b.file[b.filePos..b.fileLast]| == |b.mem[b.pos..b.last]|;
    SliceAdvance(b.mem, b.pos, b.last, n);
    SliceAdvance(b.file, b.filePos, b.fileLast, n);
    assert d.file == b.file && d.mem == b.mem && d.pos == b.pos + n && d.filePos == b.filePos + n;
    assert d.last == b.last && d.fileLast == b.fileLast && d.InMemory() && d.inFile;
  }

  lemma SizeNat(b: Buf)
    requires b.Valid()
    ensures b.Size() == |b.Bytes()|
  {
  }

  type Ref = nat
  type Memory = map<Ref, Buf>

  const NULL_BUF := Buf([], 0, 0, [], 0, 0, 0, false, false, false, false, false, false, false, false, false)

  function At(m: Memory, r: Ref): (b: Buf)
  {
    if r in m then m[r] else NULL_BUF
  }

  ghost predicate Disjoint(s: seq<Ref>, t: seq<Ref>)
  {
    forall r :: r in s ==> r !in t
  }

  ghost predicate AllValid(m: Memory, s: seq<Ref>)
  {
    forall r :: r in s ==> r in m && At(m, r).Valid()
  }

  ghost predicate Same(m: Memory, n: Memory, s: seq<Ref>)
  {
    forall r :: r in s ==> At(n, r) == At(m, r)
  }

  function Bytes(m: Memory, s: seq<Ref>): seq<Byte>
  {
    if s == [] then [] else At(m, s[0]).Bytes() + Bytes(m, s[1..])
  }

  lemma {:induction false} BytesAppend(m: Memory, a: seq<Ref>, b: seq<Ref>)
    ensures Bytes(m, a + b) == Bytes(m, a) + Bytes(m, b)
  {
    hide At, Buf.Bytes;
    if a == [] {
      assert a + b == b;
    } else {
      BytesAppend(m, a[1..], b);
      assert (a + b)[1..] == a[1..] + b && (a + b)[0] == a[0];
    }
  }

  lemma {:induction false} BytesSame(m: Memory, n: Memory, s: seq<Ref>)
    requires Same(m, n, s)
    ensures Bytes(m, s) == Bytes(n, s)
  {
    if s != [] {
      assert s[0] in s;
      BytesSame(m, n, s[1..]);
    }
  }

  // ---- what the filter does --------------------------------------------

  // Only positions have moved, and only in the buffers of s.
  ghost predicate OnlyPositions(m: Memory, n: Memory, s: seq<Ref>)
  {
    && n.Keys == m.Keys
    && (forall r :: r in m && r !in s ==> n[r] == m[r])
    && (forall r :: r in m ==> Moved(m[r], n[r]))
  }

  ghost predicate Moved(b: Buf, c: Buf)
  {
    c == b.(pos := c.pos, filePos := c.filePos)
  }

  // The filter has emptied the first i buffers of all and left the others alone.
  ghost predicate Emptied(m: Memory, n: Memory, all: seq<Ref>, i: nat)
  {
    && i <= |all|
    && (forall j :: 0 <= j < i ==> At(n, all[j]).Size() == 0)
    && (forall j :: i <= j < |all| ==> At(n, all[j]) == At(m, all[j]))
  }

  // The filter has taken bytes from the front of all: k buffers entirely, and
  // possibly part of the next.
  ghost predicate Taken(m: Memory, n: Memory, all: seq<Ref>, k: nat)
  {
    && k <= |all|
    && (forall i :: 0 <= i < k ==> At(n, all[i]).Size() == 0)
    && (k < |all| ==> At(n, all[k]).Size() > 0)
    && (forall i :: k < i < |all| ==> At(n, all[i]) == At(m, all[i]))
  }

  // Taking n bytes from buffer i shortens what is left by exactly those bytes.
  lemma TakeBytes(m: Memory, all: seq<Ref>, i: nat, n: nat)
    requires Distinct(all) && AllValid(m, all) && i < |all| && n <= At(m, all[i]).Size()
    ensures
      var b := At(m, all[i]);
      var m' := m[all[i] := b.Advance(n)];
      && n <= |b.Bytes()| && Bytes(m, all[i..]) == b.Bytes()[..n] + Bytes(m', all[i..])
      && (n == b.Size() ==> Bytes(m', all[i..]) == Bytes(m', all[i + 1..]))
  {
    hide Buf.Bytes, Buf.Valid, Buf.Advance, Buf.Size;
    var b := At(m, all[i]);
    var m' := m[all[i] := b.Advance(n)];
    AdvanceBytes(b, n);
    assert Same(m, m', all[i + 1..]);
    BytesSame(m, m', all[i + 1..]);
    assert all[i..][1..] == all[i + 1..];
    assert b.Bytes() == b.Bytes()[..n] + b.Bytes()[n..];
  }

  lemma TakeStep(m0: Memory, m: Memory, all: seq<Ref>, i: nat, n: nat)
    requires Distinct(all) && AllValid(m, all) && i < |all| && n <= At(m, all[i]).Size()
    requires Emptied(m0, m, all, i) && OnlyPositions(m0, m, all)
    ensures
      var b := At(m, all[i]);
      var m' := m[all[i] := b.Advance(n)];
      && AllValid(m', all) && OnlyPositions(m0, m', all)
      && (n == b.Size() ==> Emptied(m0, m', all, i + 1))
      && (n < b.Size() ==> Taken(m0, m', all, i))
  {
    hide Buf.Bytes, Buf.Valid, Buf.Advance, Buf.Size, OnlyPositions;
    var b := At(m, all[i]);
    AdvanceBytes(b, n);
    AdvanceMoves(b, n);
    OnlyStep(m0, m, all, i, b.Advance(n));
  }

  lemma AdvanceMoves(b: Buf, n: nat)
    ensures Moved(b, b.Advance(n))
  {
  }

  lemma OnlyStep(m0: Memory, m: Memory, all: seq<Ref>, i: nat, c: Buf)
    requires i < |all| && all[i] in m && OnlyPositions(m0, m, all) && Moved(m[all[i]], c)
    ensures OnlyPositions(m0, m[all[i] := c], all)
  {
  }

  lemma OnlyNone(m: Memory, s: seq<Ref>)
    ensures OnlyPositions(m, m, s)
  {
  }

  // ---- the state of one output context ----------------------------------

  datatype Config = Config(sendfile: bool, needMemory: bool, needTemp: bool, num: nat, size: nat, tag: nat)

  datatype State = State(
    bufs: Memory,
    pending: seq<Ref>,    // what the filter holds
    sent: seq<Byte>,      // what the filter has consumed
    chain: seq<Ref>,      // ctx->in
    busy: seq<Ref>,
    free: seq<Ref>,
    made: nat,            // ctx->allocated
    owned: set<Ref>)      // the temporary buffers ever allocated

  // What the context promises the filter about each buffer it hands over.
  predicate Suits(c: Config, b: Buf)
  {
    || b.Special()
    || (&& (!c.sendfile ==> b.InMemory() && !b.inFile)
        && (c.needMemory ==> b.InMemory())
        && (c.needTemp ==> !b.memory && !b.mmap))
  }

  // ngx_output_chain_as_is: the answer, and the buffer as it leaves it.
  function AsIs(c: Config, b: Buf): (bool, Buf)
  {
    if b.Special() then (true, b)
    else if !c.sendfile && !b.InMemory() then (false, b)
    else
      var d := if !c.sendfile then b.(inFile := false) else b;
      if c.needMemory && !d.InMemory() then (false, d)
      else if c.needTemp && (d.memory || d.mmap) then (false, d)
      else (true, d)
  }

  lemma AsIsSound(c: Config, b: Buf)
    requires b.Valid()
    ensures var (ok, d) := AsIs(c, b);
      && d.Valid() && d.Bytes() == b.Bytes() && d.tag == b.tag && d.Size() == b.Size()
      && (ok <==> Suits(c, d)) && (b.Special() ==> ok)
  {
  }

  // A temporary buffer of this context; no larger than 1.25 times bufs.size.
  predicate Temp(c: Config, b: Buf)
  {
    b.tag == c.tag && b.temporary && !b.memory && !b.mmap && 1 <= |b.mem| <= c.size + c.size / 4
  }

  predicate Idle(c: Config, b: Buf)
  {
    Temp(c, b) && b.pos == 0 && b.last == 0
  }

  // ngx_output_chain_copy_buf: the destination after n bytes have been copied.
  function CopyInto(c: Config, src: Buf, dst: Buf, n: nat): (d: Buf)
    requires src.Valid() && n <= src.Size() && dst.pos == 0 && n <= |dst.mem|
  {
    SizeNat(src);
    var inFile, done := src.inFile && c.sendfile, n == src.Size();
    dst.(mem := src.Bytes()[..n] + dst.mem[n..], last := dst.last + n, inFile := inFile,
    file := if inFile then src.file else dst.file,
    filePos := if inFile then src.filePos else dst.filePos,
    fileLast := if inFile then src.filePos + n else dst.fileLast,
    flush := if done then src.flush else dst.flush,
    lastBuf := if done then src.lastBuf else dst.lastBuf,
    lastInChain := if done then src.lastInChain else dst.lastInChain)
  }

  lemma CopySound(c: Config, src: Buf, dst: Buf, n: nat)
    requires src.Valid() && n <= src.Size() && Idle(c, dst) && n <= |dst.mem|
    ensures var d := CopyInto(c, src, dst, n);
      && d.Valid() && |src.Bytes()| == src.Size() && d.Bytes() == src.Bytes()[..n]
      && Temp(c, d) && Suits(c, d) && d.Size() == n
  {
    SizeNat(src);
    var d := CopyInto(c, src, dst, n);
    assert d.mem[0..n] == src.Bytes()[..n];
    if d.inFile {
      PrefixSlice(src.file, src.filePos, src.fileLast, n);
    }
  }

  lemma PrefixSlice<T>(s: seq<T>, a: nat, b: nat, n: nat)
    requires a + n <= b <= |s|
    ensures s[a..a + n] == s[a..b][..n]
  {
  }

  // ngx_output_chain_get_buf: whether the last buffer gets a temporary buffer of its own size.
  predicate OwnSize(c: Config, b: Buf)
  {
    b.lastInChain && (b.Size() < c.size || (c.num == 1 && b.Size() < c.size + c.size / 4))
  }
}
