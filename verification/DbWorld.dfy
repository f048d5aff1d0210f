/** Who owns which record, and what each elementary move of the database
    library does to the files and to that ownership. */
module DbWorld {
  import opened Collections
  import opened DbFormat
  import opened DbLayout

  /** Where a record currently belongs: on a hash chain, on the free list, or
      in the hands of a process that is moving it. */
  datatype Place = OnChain(h: nat) | OnFree | Held(p: nat)

  /** The index image with its logical lists, and the data segments that a
      process has appended but not yet indexed. */
  datatype World = World(img: Image, chains: seq<seq<nat>>, free: seq<nat>,
                         place: map<nat, Place>, flight: map<nat, Rec>)
  {
    ghost function SetPtr(loc: nat, v: nat): World { this.(img := img.SetPtr(loc, v)) }

    ghost function SetRec(off: nat, ptr: nat, r: Rec): World { this.(img := img.SetRec(off, ptr, r)) }

    /** Take the k-th record off chain h into the hands of p. */
    ghost function Unlink(h: nat, k: nat, p: nat): World
      requires h < |chains| && k < |chains[h]|
    {
      this.(chains := chains[h := RemoveAt(chains[h], k)], place := place[chains[h][k] := Held(p)])
    }

    ghost function PushChain(h: nat, off: nat): World
      requires h < |chains|
    {
      this.(chains := chains[h := [off] + chains[h]], place := place[off := OnChain(h)])
    }

    /** Take the k-th free record into the hands of p. */
    ghost function PopFree(k: nat, p: nat): World
      requires k < |free|
    {
      this.(free := RemoveAt(free, k), place := place[free[k] := Held(p)])
    }

    ghost function PushFree(off: nat): World
    {
      this.(free := [off] + free, place := place[off := OnFree])
    }

    ghost function AppendSeg(p: nat, r: Rec): World { this.(flight := flight[p := r]) }

    ghost function AppendRec(p: nat, ptr: nat, r: Rec): World
    {
      this.(img := img.Append(ptr, r), place := place[img.end := Held(p)], flight := flight - {p})
    }
  }

  /** list holds exactly the records placed at pl, each once. */
  ghost predicate Lists(list: seq<nat>, place: map<nat, Place>, pl: Place)
  {
    && Distinct(list)
    && (forall i :: 0 <= i < |list| ==> list[i] in place && place[list[i]] == pl)
    && (forall off :: off in place && place[off] == pl ==> off in list)
  }

  /** Chains, free list and held records are disjoint and cover every record. */
  ghost predicate Partition(w: World)
  {
    && |w.chains| == NHASH
    && w.place.Keys == w.img.recs.Keys
    && (forall off :: off in w.place && w.place[off].OnChain? ==> w.place[off].h < NHASH)
    && (forall h :: 0 <= h < NHASH ==> Lists(w.chains[h], w.place, OnChain(h)))
    && Lists(w.free, w.place, OnFree)
  }

  /** Every indexed or appended segment is whole, and no two overlap. */
  ghost predicate Segs(recs: map<nat, Rec>, flight: map<nat, Rec>, dat: string)
  {
    && (forall x :: x in recs ==> SegIn(dat, recs[x]))
    && (forall p :: p in flight ==> SegIn(dat, flight[p]))
    && (forall x, y :: x in recs && y in recs && x != y ==> SegApart(recs[x], recs[y]))
    && (forall p, q :: p in flight && q in flight && p != q ==> SegApart(flight[p], flight[q]))
    && (forall x, p :: x in recs && p in flight ==> SegApart(recs[x], flight[p]))
  }

  /** What holds of the two files at every moment. */
  ghost predicate Core(idx: string, dat: string, w: World)
  {
    Laid(idx, w.img) && Partition(w) && Segs(w.img.recs, w.flight, dat)
  }

  // ----------------------------------------------------- lists and partition

  lemma ListsRemove(list: seq<nat>, place: map<nat, Place>, pl: Place, k: nat, to: Place)
    requires Lists(list, place, pl) && k < |list| && to != pl
    ensures Lists(RemoveAt(list, k), place[list[k] := to], pl)
  {
    var list' := RemoveAt(list, k);
    assert forall i :: 0 <= i < |list'| ==> list'[i] == list[if i < k then i else i + 1];
    forall off | off in list && off != list[k] ensures off in list' {
      var i :| 0 <= i < |list| && list[i] == off;
      assert list'[if i < k then i else i - 1] == off;
    }
  }

  lemma ListsPush(list: seq<nat>, place: map<nat, Place>, pl: Place, off: nat)
    requires Lists(list, place, pl) && (off in place ==> place[off] != pl)
    ensures Lists([off] + list, place[off := pl], pl)
  {
    var list' := [off] + list;
    assert forall i :: 0 < i < |list'| ==> list'[i] == list[i - 1];
    assert list'[0] == off;
    assert forall x :: x in list ==> x in list';
  }

  lemma ListsOther(list: seq<nat>, place: map<nat, Place>, pl: Place, off: nat, to: Place)
    requires Lists(list, place, pl) && (off in place ==> place[off] != pl) && to != pl
    ensures Lists(list, place[off := to], pl)
  {
  }

  lemma PartitionUnlink(w: World, h: nat, k: nat, p: nat)
    requires Partition(w) && h < NHASH && k < |w.chains[h]|
    ensures Partition(w.Unlink(h, k, p))
  {
    var off, w' := w.chains[h][k], w.Unlink(h, k, p);
    assert Lists(w.chains[h], w.place, OnChain(h));
    forall j | 0 <= j < NHASH ensures Lists(w'.chains[j], w'.place, OnChain(j)) {
      if j == h {
        ListsRemove(w.chains[h], w.place, OnChain(h), k, Held(p));
      } else {
        ListsOther(w.chains[j], w.place, OnChain(j), off, Held(p));
      }
    }
    ListsOther(w.free, w.place, OnFree, off, Held(p));
    assert w'.place.Keys == w.place.Keys;
  }

  lemma PartitionPushChain(w: World, h: nat, off: nat)
    requires Partition(w) && h < NHASH && off in w.place && w.place[off].Held?
    ensures Partition(w.PushChain(h, off))
  {
    var w' := w.PushChain(h, off);
    forall j | 0 <= j < NHASH ensures Lists(w'.chains[j], w'.place, OnChain(j)) {
      if j == h {
        ListsPush(w.chains[h], w.place, OnChain(h), off);
      } else {
        ListsOther(w.chains[j], w.place, OnChain(j), off, OnChain(h));
      }
    }
    ListsOther(w.free, w.place, OnFree, off, OnChain(h));
    assert w'.place.Keys == w.place.Keys;
  }

  lemma PartitionPopFree(w: World, k: nat, p: nat)
    requires Partition(w) && k < |w.free|
    ensures Partition(w.PopFree(k, p))
  {
    var off, w' := w.free[k], w.PopFree(k, p);
    forall j | 0 <= j < NHASH ensures Lists(w'.chains[j], w'.place, OnChain(j)) {
      ListsOther(w.chains[j], w.place, OnChain(j), off, Held(p));
    }
    ListsRemove(w.free, w.place, OnFree, k, Held(p));
    assert w'.place.Keys == w.place.Keys;
  }

  lemma PartitionPushFree(w: World, off: nat)
    requires Partition(w) && off in w.place && w.place[off].Held?
    ensures Partition(w.PushFree(off))
  {
    var w' := w.PushFree(off);
    forall j | 0 <= j < NHASH ensures Lists(w'.chains[j], w'.place, OnChain(j)) {
      ListsOther(w.chains[j], w.place, OnChain(j), off, OnFree);
    }
    ListsPush(w.free, w.place, OnFree, off);
    assert w'.place.Keys == w.place.Keys;
  }

  lemma PartitionAppend(w: World, p: nat, ptr: nat, r: Rec)
    requires Partition(w) && w.img.end !in w.img.recs
    ensures Partition(w.AppendRec(p, ptr, r))
  {
    var off, w' := w.img.end, w.AppendRec(p, ptr, r);
    forall j | 0 <= j < NHASH ensures Lists(w'.chains[j], w'.place, OnChain(j)) {
      ListsOther(w.chains[j], w.place, OnChain(j), off, Held(p));
    }
    ListsOther(w.free, w.place, OnFree, off, Held(p));
    assert w'.place.Keys == w.place.Keys + {off};
  }

  // ----------------------------------------------------------- data segments

  /** Overwriting one record's data changes the contents of that record only. */
  lemma SegsWrite(recs: map<nat, Rec>, flight: map<nat, Rec>, dat: string, off: nat, data: string)
    requires Segs(recs, flight, dat) && off in recs && recs[off].datlen == |data| + 1
    ensures recs[off].datoff <= |dat|
    ensures var dat' := Splice(dat, recs[off].datoff, data + "\n");
            && Segs(recs, flight, dat') && |dat'| == |dat|
            && Contents(dat', recs[off]) == data
            && (forall x :: x in recs && x != off ==> Contents(dat', recs[x]) == Contents(dat, recs[x]))
            && (forall p :: p in flight ==> Contents(dat', flight[p]) == Contents(dat, flight[p]))
  {
    var r := recs[off];
    hide Contents, Splice;
    var dat' := Splice(dat, r.datoff, data + "\n");
    WriteSegOwn(dat, r, data);
    forall x | x in recs && x != off
      ensures SegIn(dat', recs[x]) && Contents(dat', recs[x]) == Contents(dat, recs[x])
    {
      WriteSegApart(dat, r, data + "\n", recs[x]);
    }
    forall p | p in flight
      ensures SegIn(dat', flight[p]) && Contents(dat', flight[p]) == Contents(dat, flight[p])
    {
      WriteSegApart(dat, r, data + "\n", flight[p]);
    }
  }

  lemma SegsAppend(recs: map<nat, Rec>, flight: map<nat, Rec>, dat: string, p: nat, r: Rec, data: string)
    requires Segs(recs, flight, dat) && p !in flight
    requires r.datoff == |dat| && r.datlen == |data| + 1
    ensures var dat' := Splice(dat, |dat|, data + "\n");
            && Segs(recs, flight[p := r], dat')
            && Contents(dat', r) == data
            && (forall x :: x in recs ==> Contents(dat', recs[x]) == Contents(dat, recs[x]))
            && (forall q :: q in flight ==> Contents(dat', flight[q]) == Contents(dat, flight[q]))
  {
    hide Contents, Splice;
    var dat' := Splice(dat, |dat|, data + "\n");
    WriteSegOwn(dat, r, data);
    forall x | x in recs
      ensures SegIn(dat', recs[x]) && Contents(dat', recs[x]) == Contents(dat, recs[x])
    {
      WriteSegApart(dat, r, data + "\n", recs[x]);
    }
    forall q | q in flight
      ensures SegIn(dat', flight[q]) && Contents(dat', flight[q]) == Contents(dat, flight[q])
    {
      WriteSegApart(dat, r, data + "\n", flight[q]);
    }
  }

  lemma SegsIndex(recs: map<nat, Rec>, flight: map<nat, Rec>, dat: string, p: nat, off: nat, r: Rec)
    requires Segs(recs, flight, dat) && p in flight && off !in recs
    requires r.datoff == flight[p].datoff && r.datlen == flight[p].datlen
    ensures Segs(recs[off := r], flight - {p}, dat)
  {
  }

  lemma SegsRename(recs: map<nat, Rec>, flight: map<nat, Rec>, dat: string, off: nat, r: Rec)
    requires Segs(recs, flight, dat) && off in recs
    requires r.datoff == recs[off].datoff && r.datlen == recs[off].datlen
    ensures Segs(recs[off := r], flight, dat)
  {
  }

  // --------------------------------------------------------- chain contents

  /** The record holds what view says under its key, and hashes to h. */
  ghost predicate Holds(r: Rec, dat: string, view: map<string, string>, h: nat)
  {
    && Hash(r.key) == h
    && r.key in view && view[r.key] == Contents(dat, r)
  }

  ghost predicate KeyOn(recs: map<nat, Rec>, list: seq<nat>, k: string)
  {
    exists i :: 0 <= i < |list| && list[i] in recs && recs[list[i]].key == k
  }

  /** The records on list hold exactly the part of view that hashes to h. */
  ghost predicate ListHolds(recs: map<nat, Rec>, dat: string, list: seq<nat>, view: map<string, string>, h: nat)
  {
    && (forall i :: 0 <= i < |list| ==> list[i] in recs && Holds(recs[list[i]], dat, view, h))
    && (forall i, j :: 0 <= i < j < |list| ==> recs[list[i]].key != recs[list[j]].key)
    && (forall k :: k in view && Hash(k) == h ==> KeyOn(recs, list, k))
  }

  ghost predicate SameOn(h: nat, m: map<string, string>, m': map<string, string>)
  {
    forall k :: Hash(k) == h ==> (k in m <==> k in m') && (k in m ==> m[k] == m'[k])
  }

  lemma ListHoldsFrame(recs: map<nat, Rec>, dat: string, view: map<string, string>,
                       recs': map<nat, Rec>, dat': string, view': map<string, string>,
                       list: seq<nat>, h: nat)
    requires ListHolds(recs, dat, list, view, h) && SameOn(h, view, view')
    requires forall i :: 0 <= i < |list| ==>
      && list[i] in recs && list[i] in recs' && recs'[list[i]] == recs[list[i]]
      && Contents(dat', recs[list[i]]) == Contents(dat, recs[list[i]])
    ensures ListHolds(recs', dat', list, view', h)
  {
    hide Hash, Contents;
    forall k | k in view' && Hash(k) == h ensures KeyOn(recs', list, k) {
      assert KeyOn(recs, list, k);
    }
    forall i | 0 <= i < |list| ensures Holds(recs'[list[i]], dat', view', h) {
      assert Holds(recs[list[i]], dat, view, h);
    }
  }

  lemma ListHoldsRemove(recs: map<nat, Rec>, dat: string, list: seq<nat>, view: map<string, string>, h: nat, k: nat)
    requires ListHolds(recs, dat, list, view, h) && k < |list|
    ensures ListHolds(recs, dat, RemoveAt(list, k), view - {recs[list[k]].key}, h)
  {
    hide Hash, Contents;
    var list', view' := RemoveAt(list, k), view - {recs[list[k]].key};
    assert forall i :: 0 <= i < |list'| ==> list'[i] == list[if i < k then i else i + 1];
    forall i | 0 <= i < |list'| ensures Holds(recs[list'[i]], dat, view', h) {
      assert Holds(recs[list[if i < k then i else i + 1]], dat, view, h);
    }
    forall key | key in view' && Hash(key) == h ensures KeyOn(recs, list', key) {
      assert KeyOn(recs, list, key);
      var i :| 0 <= i < |list| && list[i] in recs && recs[list[i]].key == key;
      assert list'[if i < k then i else i - 1] == list[i];
    }
  }

  lemma ListHoldsPush(recs: map<nat, Rec>, dat: string, list: seq<nat>, view: map<string, string>, h: nat, off: nat)
    requires ListHolds(recs, dat, list, view, h) && off in recs
    requires Hash(recs[off].key) == h && recs[off].key !in view
    ensures ListHolds(recs, dat, [off] + list, view[recs[off].key := Contents(dat, recs[off])], h)
  {
    hide Hash, Contents;
    var list', view' := [off] + list, view[recs[off].key := Contents(dat, recs[off])];
    assert forall i :: 0 < i < |list'| ==> list'[i] == list[i - 1];
    forall i | 0 <= i < |list'| ensures Holds(recs[list'[i]], dat, view', h) {
      if i > 0 { assert Holds(recs[list[i - 1]], dat, view, h); }
    }
    forall key | key in view' && Hash(key) == h ensures KeyOn(recs, list', key) {
      if key == recs[off].key {
        assert recs[list'[0]].key == key;
      } else {
        assert KeyOn(recs, list, key);
        var i :| 0 <= i < |list| && list[i] in recs && recs[list[i]].key == key;
        assert list'[i + 1] == list[i];
      }
    }
  }

  /** New contents for the k-th record, the others as before. */
  lemma ListHoldsReplace(recs: map<nat, Rec>, dat: string, dat': string, list: seq<nat>,
                         view: map<string, string>, h: nat, k: nat)
    requires ListHolds(recs, dat, list, view, h) && k < |list| && Distinct(list)
    requires forall i :: 0 <= i < |list| && i != k ==>
      Contents(dat', recs[list[i]]) == Contents(dat, recs[list[i]])
    ensures ListHolds(recs, dat', list, view[recs[list[k]].key := Contents(dat', recs[list[k]])], h)
  {
    hide Hash, Contents;
    var view' := view[recs[list[k]].key := Contents(dat', recs[list[k]])];
    forall i | 0 <= i < |list| ensures Holds(recs[list[i]], dat', view', h) {
      assert Holds(recs[list[i]], dat, view, h);
      if i < k { assert recs[list[i]].key != recs[list[k]].key; }
      if k < i { assert recs[list[k]].key != recs[list[i]].key; }
    }
    forall key | key in view' && Hash(key) == h ensures KeyOn(recs, list, key) {
      if key == recs[list[k]].key { assert list[k] in recs; } else { assert KeyOn(recs, list, key); }
    }
  }

  /** The chain h is properly linked and holds its part of view. */
  ghost predicate ChainSound(w: World, dat: string, view: map<string, string>, h: nat)
    requires h < |w.chains|
  {
    && Links(w.img.ptrs, ChainLoc(h), w.chains[h])
    && ListHolds(w.img.recs, dat, w.chains[h], view, h)
  }

  /** The free list is properly linked and all its records have blank keys. */
  ghost predicate FreeSound(w: World)
  {
    && Links(w.img.ptrs, FREE_OFF, w.free)
    && (forall i :: 0 <= i < |w.free| ==> w.free[i] in w.img.recs && AllBlank(w.img.recs[w.free[i]].key))
  }
}
