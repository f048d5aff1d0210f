/** How the index and data files are laid out: which bytes hold which pointer
    and record, how chains are linked through them, and what each file write
    does to that picture. */
module DbLayout {
  import opened Options
  import opened Collections
  import opened DbFormat

  // ------------------------------------------------------------ file writes

  /** The file after writing s at offset off. */
  function Splice(b: string, off: nat, s: string): (r: string)
    requires off <= |b|
    ensures |r| == if off + |s| <= |b| then |b| else off + |s|
  {
    b[..off] + s + (if off + |s| <= |b| then b[off + |s|..] else [])
  }

  lemma SpliceApart(b: string, off: nat, s: string, i: nat, j: nat)
    requires off <= |b| && i <= j <= |b|
    requires j <= off || off + |s| <= i
    ensures Splice(b, off, s)[i..j] == b[i..j]
  {
  }

  lemma SpliceInside(b: string, off: nat, s: string, i: nat, j: nat)
    requires off <= |b| && off <= i <= j <= off + |s|
    ensures Splice(b, off, s)[i..j] == s[i - off..j - off]
  {
  }

  // --------------------------------------------------------------- the index

  /** Structured contents of the index file: every chain pointer by its file
      offset (free list head, hash table slots, record heads), every record by
      its offset, and the file size. */
  datatype Image = Image(ptrs: map<nat, nat>, recs: map<nat, Rec>, end: nat)
  {
    function SetPtr(loc: nat, v: nat): Image { this.(ptrs := ptrs[loc := v]) }

    function SetRec(off: nat, ptr: nat, r: Rec): Image
    {
      this.(ptrs := ptrs[off := ptr], recs := recs[off := r])
    }

    function Append(ptr: nat, r: Rec): Image
    {
      Image(ptrs[end := ptr], recs[end := r], end + RecSize(r))
    }
  }

  /** The free list head and the hash table slots. */
  predicate IsSlot(loc: nat) { loc % PTR_SZ == 0 && loc < RECS_OFF - 1 }

  /** There is a pointer field in every slot and at the head of every record. */
  ghost predicate Fields(g: Image)
  {
    && (forall loc :: loc in g.ptrs <==> IsSlot(loc) || loc in g.recs)
    && (forall loc :: loc in g.ptrs ==> g.ptrs[loc] <= PTR_MAX)
  }

  /** Records lie one behind the other between RECS_OFF and end. */
  ghost predicate Sized(recs: map<nat, Rec>, end: nat)
  {
    && end >= RECS_OFF
    && (forall off :: off in recs ==>
          RECS_OFF <= off && ValidRec(recs[off]) && off + RecSize(recs[off]) <= end)
    && (forall off, off' :: off in recs && off' in recs && off < off' ==>
          off + RecSize(recs[off]) <= off')
  }

  ghost predicate Boundary(recs: map<nat, Rec>, end: nat, x: nat) { x == end || x in recs }

  /** The record at off is followed by another one or by the end of the file. */
  ghost predicate TiledAt(recs: map<nat, Rec>, end: nat, off: nat)
    requires off in recs
  {
    Boundary(recs, end, off + RecSize(recs[off]))
  }

  /** There are no gaps between records. */
  ghost predicate Tiled(recs: map<nat, Rec>, end: nat)
  {
    && Boundary(recs, end, RECS_OFF)
    && (forall off {:trigger TiledAt(recs, end, off)} :: off in recs ==> TiledAt(recs, end, off))
  }

  /** The index file splits into the pointer table and whole records. */
  ghost predicate Shape(g: Image)
  {
    Fields(g) && Sized(g.recs, g.end) && Tiled(g.recs, g.end)
  }

  ghost predicate PtrAt(b: string, loc: nat, v: nat)
  {
    loc + PTR_SZ <= |b| && b[loc..loc + PTR_SZ] == Pad(v, PTR_SZ)
  }

  ghost predicate RecAt(b: string, off: nat, r: Rec)
  {
    && off + RecSize(r) <= |b|
    && b[off + PTR_SZ..off + HDR_SZ] == Pad(|Body(r)|, IDXLEN_SZ)
    && b[off + HDR_SZ..off + RecSize(r)] == Body(r)
  }

  /** The bytes b of the index file are exactly what g describes. */
  ghost predicate Laid(b: string, g: Image)
  {
    && Shape(g)
    && |b| == g.end
    && (forall loc :: loc in g.ptrs ==> PtrAt(b, loc, g.ptrs[loc]))
    && (forall off :: off in g.recs ==> RecAt(b, off, g.recs[off]))
  }

  lemma RecHasPtr(g: Image, off: nat)
    requires Shape(g) && off in g.recs
    ensures off in g.ptrs && off >= RECS_OFF
  {
  }

  lemma PtrsApart(g: Image, i: nat, j: nat)
    requires Shape(g) && i in g.ptrs && j in g.ptrs && i < j
    ensures i + PTR_SZ <= j
    ensures i in g.recs ==> i + RecSize(g.recs[i]) <= j
  {
  }

  lemma ReadPtrAt(b: string, g: Image, loc: nat)
    requires Laid(b, g) && loc in g.ptrs
    ensures loc + PTR_SZ <= |b| && Atol(b[loc..loc + PTR_SZ]) == g.ptrs[loc]
  {
    assert PtrAt(b, loc, g.ptrs[loc]);
    AtolOfPad(g.ptrs[loc], PTR_SZ);
  }

  lemma ReadRecAt(b: string, g: Image, off: nat)
    requires Laid(b, g) && off in g.recs
    ensures off + RecSize(g.recs[off]) <= |b|
    ensures Atol(b[off..off + PTR_SZ]) == g.ptrs[off]
    ensures Atol(b[off + PTR_SZ..off + HDR_SZ]) == |Body(g.recs[off])|
    ensures ParseBody(b[off + HDR_SZ..off + RecSize(g.recs[off])]) == Some(g.recs[off])
  {
    ReadPtrAt(b, g, off);
    assert RecAt(b, off, g.recs[off]);
    AtolOfPad(|Body(g.recs[off])|, IDXLEN_SZ);
    ParseBodyRoundTrip(g.recs[off]);
  }

  lemma ShapeSetPtr(g: Image, loc: nat, v: nat)
    requires Shape(g) && loc in g.ptrs && v <= PTR_MAX
    ensures Shape(g.SetPtr(loc, v))
  {
  }

  lemma ShapeSetRec(g: Image, off: nat, ptr: nat, r: Rec)
    requires Shape(g) && off in g.recs && ptr <= PTR_MAX
    requires ValidRec(r) && RecSize(r) == RecSize(g.recs[off])
    ensures Shape(g.SetRec(off, ptr, r))
  {
    SizedUpdate(g.recs, g.end, off, r);
    TiledUpdate(g.recs, g.end, off, r);
  }

  lemma SizedUpdate(recs: map<nat, Rec>, end: nat, off: nat, r: Rec)
    requires Sized(recs, end) && off in recs
    requires ValidRec(r) && RecSize(r) == RecSize(recs[off])
    ensures Sized(recs[off := r], end)
  {
  }

  lemma TiledUpdate(recs: map<nat, Rec>, end: nat, off: nat, r: Rec)
    requires Tiled(recs, end) && off in recs && RecSize(r) == RecSize(recs[off])
    ensures Tiled(recs[off := r], end)
  {
    forall x | x in recs ensures TiledAt(recs[off := r], end, x) { assert TiledAt(recs, end, x); }
  }

  lemma SizedAppend(recs: map<nat, Rec>, end: nat, r: Rec)
    requires Sized(recs, end) && ValidRec(r)
    ensures end !in recs && Sized(recs[end := r], end + RecSize(r))
  {
  }

  lemma TiledAppend(recs: map<nat, Rec>, end: nat, r: Rec)
    requires Tiled(recs, end)
    ensures end !in recs ==> Tiled(recs[end := r], end + RecSize(r))
  {
    var recs', end' := recs[end := r], end + RecSize(r);
    if end !in recs {
      forall x | x in recs' ensures TiledAt(recs', end', x) {
        if x != end { assert TiledAt(recs, end, x); }
      }
    }
  }

  lemma ShapeAppend(g: Image, ptr: nat, r: Rec)
    requires Shape(g) && ptr <= PTR_MAX && ValidRec(r)
    ensures g.end !in g.recs && Shape(g.Append(ptr, r))
  {
    hide Tiled, Body;
    SizedAppend(g.recs, g.end, r);
    TiledAppend(g.recs, g.end, r);
    hide Sized;
  }

  lemma PtrApart(b: string, off: nat, s: string, loc: nat, v: nat)
    requires PtrAt(b, loc, v) && off <= |b|
    requires loc + PTR_SZ <= off || off + |s| <= loc
    ensures PtrAt(Splice(b, off, s), loc, v)
  {
    SpliceApart(b, off, s, loc, loc + PTR_SZ);
  }

  lemma RecApart(b: string, off: nat, s: string, x: nat, r: Rec)
    requires RecAt(b, x, r) && off <= |b|
    requires x + RecSize(r) <= off || off + |s| <= x + PTR_SZ
    ensures RecAt(Splice(b, off, s), x, r)
  {
    SpliceApart(b, off, s, x + PTR_SZ, x + HDR_SZ);
    SpliceApart(b, off, s, x + HDR_SZ, x + RecSize(r));
  }

  /** Pointers and records away from a written range are untouched. */
  lemma WriteApart(b: string, g: Image, off: nat, s: string)
    requires Laid(b, g) && off <= |b|
    requires if off in g.ptrs then |s| == PTR_SZ || (off in g.recs && |s| == RecSize(g.recs[off]))
             else off == g.end
    ensures forall l :: l in g.ptrs && l != off ==> PtrAt(Splice(b, off, s), l, g.ptrs[l])
    ensures forall x :: x in g.recs && x != off ==> RecAt(Splice(b, off, s), x, g.recs[x])
  {
    forall l | l in g.ptrs && l != off ensures PtrAt(Splice(b, off, s), l, g.ptrs[l]) {
      assert PtrAt(b, l, g.ptrs[l]);
      if off in g.ptrs { if l < off { PtrsApart(g, l, off); } else { PtrsApart(g, off, l); } }
      PtrApart(b, off, s, l, g.ptrs[l]);
    }
    forall x | x in g.recs && x != off ensures RecAt(Splice(b, off, s), x, g.recs[x]) {
      assert RecAt(b, x, g.recs[x]);
      if off in g.ptrs { if x < off { PtrsApart(g, x, off); } else { PtrsApart(g, off, x); } }
      RecApart(b, off, s, x, g.recs[x]);
    }
  }

  /** Writing a pointer field changes that pointer and nothing else. */
  lemma WritePtrLaid(b: string, g: Image, loc: nat, v: nat)
    requires Laid(b, g) && loc in g.ptrs && v <= PTR_MAX
    ensures loc <= |b| && Laid(Splice(b, loc, Pad(v, PTR_SZ)), g.SetPtr(loc, v))
  {
    hide Shape, Pad, Body;
    var s := Pad(v, PTR_SZ);
    PadLength(v);
    ShapeSetPtr(g, loc, v);
    assert PtrAt(b, loc, g.ptrs[loc]);
    WriteApart(b, g, loc, s);
    SpliceInside(b, loc, s, loc, loc + PTR_SZ);
    if loc in g.recs {
      assert RecAt(b, loc, g.recs[loc]);
      RecApart(b, loc, s, loc, g.recs[loc]);
    }
  }

  lemma RecBytesLaid(b: string, off: nat, ptr: nat, r: Rec)
    requires off <= |b| && ptr <= PTR_MAX && ValidRec(r)
    ensures |RecBytes(ptr, r)| == RecSize(r)
    ensures PtrAt(Splice(b, off, RecBytes(ptr, r)), off, ptr)
    ensures RecAt(Splice(b, off, RecBytes(ptr, r)), off, r)
  {
    var s := RecBytes(ptr, r);
    PadLength(ptr);
    PadLength(|Body(r)|);
    SpliceInside(b, off, s, off, off + PTR_SZ);
    SpliceInside(b, off, s, off + PTR_SZ, off + HDR_SZ);
    SpliceInside(b, off, s, off + HDR_SZ, off + RecSize(r));
    assert s[..PTR_SZ] == Pad(ptr, PTR_SZ);
    assert s[PTR_SZ..HDR_SZ] == Pad(|Body(r)|, IDXLEN_SZ);
    assert s[HDR_SZ..RecSize(r)] == Body(r);
  }

  /** Rewriting a record in place with one of the same length keeps the file
      divided into the same records. */
  lemma WriteRecLaid(b: string, g: Image, off: nat, ptr: nat, r: Rec)
    requires Laid(b, g) && off in g.recs && ptr <= PTR_MAX && ValidRec(r)
    requires RecSize(r) == RecSize(g.recs[off])
    ensures off <= |b| && Laid(Splice(b, off, RecBytes(ptr, r)), g.SetRec(off, ptr, r))
  {
    hide Shape, Pad, Body;
    RecHasPtr(g, off);
    ShapeSetRec(g, off, ptr, r);
    assert RecAt(b, off, g.recs[off]);
    RecBytesLaid(b, off, ptr, r);
    WriteApart(b, g, off, RecBytes(ptr, r));
  }

  lemma AppendRecLaid(b: string, g: Image, ptr: nat, r: Rec)
    requires Laid(b, g) && ptr <= PTR_MAX && ValidRec(r)
    ensures g.end !in g.recs
    ensures Laid(Splice(b, |b|, RecBytes(ptr, r)), g.Append(ptr, r))
  {
    hide Shape, Pad, Body;
    ShapeAppend(g, ptr, r);
    RecBytesLaid(b, |b|, ptr, r);
    WriteApart(b, g, |b|, RecBytes(ptr, r));
  }

  // ---------------------------------------------------------------- the data

  ghost predicate SegIn(dat: string, r: Rec)
  {
    r.datlen >= 1 && r.datoff + r.datlen <= |dat| && dat[r.datoff + r.datlen - 1] == '\n'
  }

  ghost predicate SegApart(r: Rec, q: Rec)
  {
    r.datoff + r.datlen <= q.datoff || q.datoff + q.datlen <= r.datoff
  }

  /** The data of a record, without its newline. */
  function Contents(dat: string, r: Rec): (s: string)
  {
    if 1 <= r.datlen && r.datoff + r.datlen <= |dat| then dat[r.datoff..r.datoff + r.datlen - 1] else []
  }

  /** Overwriting a record's own segment leaves every other segment alone. */
  lemma WriteSegApart(dat: string, r: Rec, s: string, q: Rec)
    requires SegIn(dat, q) && SegApart(r, q) && |s| == r.datlen && r.datoff <= |dat|
    ensures SegIn(Splice(dat, r.datoff, s), q)
    ensures Contents(Splice(dat, r.datoff, s), q) == Contents(dat, q)
  {
    SpliceApart(dat, r.datoff, s, q.datoff, q.datoff + q.datlen - 1);
    SpliceApart(dat, r.datoff, s, q.datoff + q.datlen - 1, q.datoff + q.datlen);
    assert Splice(dat, r.datoff, s)[q.datoff + q.datlen - 1..q.datoff + q.datlen][0] == '\n';
  }

  lemma WriteSegOwn(dat: string, r: Rec, data: string)
    requires r.datoff <= |dat| && r.datlen == |data| + 1
    ensures SegIn(Splice(dat, r.datoff, data + "\n"), r)
    ensures Contents(Splice(dat, r.datoff, data + "\n"), r) == data
  {
    SpliceInside(dat, r.datoff, data + "\n", r.datoff, r.datoff + |data|);
    assert (data + "\n")[..|data|] == data;
  }

  // ------------------------------------------------------------ linked lists

  function Head(list: seq<nat>): (x: nat) { if list == [] then 0 else list[0] }

  /** The pointer field that leads to list[k]: the anchor or the record before. */
  function Pred(loc: nat, list: seq<nat>, k: nat): (x: nat)
    requires k <= |list|
  {
    if k == 0 then loc else list[k - 1]
  }

  function RemoveAt(list: seq<nat>, k: nat): (r: seq<nat>)
    requires k < |list|
  {
    list[..k] + list[k + 1..]
  }

  /** Following pointers from loc visits exactly list and then stops. */
  ghost predicate Links(ptrs: map<nat, nat>, loc: nat, list: seq<nat>)
  {
    && loc in ptrs && ptrs[loc] == Head(list)
    && (forall i :: 0 <= i < |list| ==> list[i] in ptrs && list[i] > 0)
    && (forall i :: 0 <= i < |list| - 1 ==> ptrs[list[i]] == list[i + 1])
    && (list != [] ==> ptrs[list[|list| - 1]] == 0)
  }

  lemma LinksNext(ptrs: map<nat, nat>, loc: nat, list: seq<nat>, k: nat)
    requires Links(ptrs, loc, list) && k <= |list|
    ensures Pred(loc, list, k) in ptrs
    ensures ptrs[Pred(loc, list, k)] == if k < |list| then list[k] else 0
  {
    if 0 < k < |list| { assert ptrs[list[k - 1]] == list[k - 1 + 1]; }
  }

  lemma LinksFrame(ptrs: map<nat, nat>, ptrs': map<nat, nat>, loc: nat, list: seq<nat>)
    requires Links(ptrs, loc, list)
    requires loc in ptrs' && ptrs'[loc] == ptrs[loc]
    requires forall i :: 0 <= i < |list| ==> list[i] in ptrs' && ptrs'[list[i]] == ptrs[list[i]]
    ensures Links(ptrs', loc, list)
  {
  }

  /** Redirecting the pointer before list[k] past it takes it off the list. */
  lemma LinksRemove(ptrs: map<nat, nat>, loc: nat, list: seq<nat>, k: nat)
    requires Links(ptrs, loc, list) && Distinct(list) && loc !in list && k < |list|
    ensures Links(ptrs[Pred(loc, list, k) := ptrs[list[k]]], loc, RemoveAt(list, k))
  {
    LinksNext(ptrs, loc, list, k + 1);
    var list', ptrs' := RemoveAt(list, k), ptrs[Pred(loc, list, k) := ptrs[list[k]]];
    forall i | 0 <= i < |list'| - 1 ensures ptrs'[list'[i]] == list'[i + 1] {
      if i + 1 < k {
        assert list'[i] == list[i] && list'[i + 1] == list[i + 1];
      } else if i + 1 == k {
        assert list'[i] == list[k - 1] && list'[i + 1] == list[k + 1];
      } else {
        assert list'[i] == list[i + 1] && list'[i + 1] == list[i + 2];
        assert ptrs[list[i + 1]] == list[i + 2];
      }
    }
    if list' != [] {
      if k + 1 == |list| {
        assert list'[|list'| - 1] == list[k - 1];
      } else {
        assert list'[|list'| - 1] == list[|list| - 1];
      }
    }
  }

  lemma LinksPush(ptrs: map<nat, nat>, loc: nat, list: seq<nat>, off: nat)
    requires Links(ptrs, loc, list) && loc !in list && off !in list && off != loc
    requires off > 0 && off in ptrs && ptrs[off] == Head(list)
    ensures Links(ptrs[loc := off], loc, [off] + list)
  {
    var list', ptrs' := [off] + list, ptrs[loc := off];
    forall i | 0 <= i < |list'| - 1 ensures ptrs'[list'[i]] == list'[i + 1] {
      if i > 0 {
        assert list'[i] == list[i - 1] && list'[i + 1] == list[i];
        assert ptrs[list[i - 1]] == list[i - 1 + 1];
      }
    }
    if list != [] { assert list'[|list'| - 1] == list[|list| - 1]; }
  }
}
