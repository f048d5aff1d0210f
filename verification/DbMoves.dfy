/** The elementary moves of the library: one file write each, together with
    what it does to ownership, and what it leaves alone for everybody else. */
module DbMoves {
  import opened Options
  import opened Collections
  import opened DbFormat
  import opened DbLayout
  import opened DbWorld

  /** What a process may change: the chain and list it has locked, and the
      files it may extend. */
  datatype Auth = Auth(p: nat, chain: Option<nat>, free: bool, data: bool, index: bool)

  ghost predicate PtrSame(w: World, w': World, x: nat)
  {
    x in w.img.ptrs && x in w'.img.ptrs && w'.img.ptrs[x] == w.img.ptrs[x]
  }

  ghost predicate RecSame(w: World, dat: string, w': World, dat': string, x: nat)
  {
    && PtrSame(w, w', x)
    && x in w.img.recs && x in w'.img.recs && w'.img.recs[x] == w.img.recs[x]
    && Contents(dat', w.img.recs[x]) == Contents(dat, w.img.recs[x])
  }

  ghost predicate ChainSame(w: World, dat: string, w': World, dat': string, j: nat)
  {
    && j < |w.chains| && j < |w'.chains| && w'.chains[j] == w.chains[j]
    && PtrSame(w, w', ChainLoc(j))
    && (forall i :: 0 <= i < |w.chains[j]| ==> RecSame(w, dat, w', dat', w.chains[j][i]))
  }

  ghost predicate FreeSame(w: World, dat: string, w': World, dat': string)
  {
    && w'.free == w.free
    && PtrSame(w, w', FREE_OFF)
    && (forall i :: 0 <= i < |w.free| ==> RecSame(w, dat, w', dat', w.free[i]))
  }

  /** Records in the hands of other processes stay there, unchanged. */
  ghost predicate HandsSame(p: nat, w: World, dat: string, w': World, dat': string)
  {
    && (forall x :: x in w.place && w.place[x].Held? && w.place[x].p != p ==>
          x in w'.place && w'.place[x] == w.place[x] && RecSame(w, dat, w', dat', x))
    && (forall x :: x in w'.place && w'.place[x].Held? && w'.place[x].p != p ==>
          x in w.place && w.place[x] == w'.place[x])
  }

  /** Segments appended by other processes stay, unchanged. */
  ghost predicate FlightSame(p: nat, w: World, dat: string, w': World, dat': string)
  {
    forall q :: q != p ==>
      && (q in w.flight <==> q in w'.flight)
      && (q in w.flight ==> w'.flight[q] == w.flight[q])
      && (q in w.flight ==> Contents(dat', w.flight[q]) == Contents(dat, w.flight[q]))
  }

  ghost predicate SizesSame(a: Auth, w: World, dat: string, w': World, dat': string)
  {
    (a.data || |dat'| == |dat|) && (a.index || w'.img.end == w.img.end)
  }

  ghost predicate OtherChainsSame(a: Auth, w: World, dat: string, view: map<string, string>,
                                  w': World, dat': string, view': map<string, string>)
  {
    forall j :: 0 <= j < NHASH && a.chain != Some(j) ==>
      ChainSame(w, dat, w', dat', j) && SameOn(j, view, view')
  }

  /** A change within the authority a. */
  ghost predicate Permitted(a: Auth, w: World, dat: string, view: map<string, string>,
                            w': World, dat': string, view': map<string, string>)
  {
    && OtherChainsSame(a, w, dat, view, w', dat', view')
    && (a.free || FreeSame(w, dat, w', dat'))
    && HandsSame(a.p, w, dat, w', dat')
    && FlightSame(a.p, w, dat, w', dat')
    && SizesSame(a, w, dat, w', dat')
  }

  /** Bytes changed only in the pointer field, record or data at x. */
  ghost predicate OnlyAt(w: World, dat: string, w': World, dat': string, x: nat)
  {
    && (forall y :: y in w.img.ptrs && y != x ==> PtrSame(w, w', y))
    && (forall y :: y in w.img.recs && y != x ==> RecSame(w, dat, w', dat', y))
  }

  ghost predicate Authorized(w: World, a: Auth, x: nat)
  {
    && (x == FREE_OFF ==> a.free)
    && (forall j :: 0 <= j < NHASH && x == ChainLoc(j) ==> a.chain == Some(j))
    && (x in w.place ==>
          match w.place[x]
          case OnChain(j) => a.chain == Some(j)
          case OnFree => a.free
          case Held(q) => q == a.p)
  }

  /** Only lists within the authority changed, and no hands but p's. */
  ghost predicate ListsChange(w: World, a: Auth, w': World)
  {
    && |w'.chains| == |w.chains| == NHASH
    && (forall j :: 0 <= j < NHASH && a.chain != Some(j) ==> w'.chains[j] == w.chains[j])
    && (a.free || w'.free == w.free)
    && (forall y :: y in w.place && w.place[y].Held? && w.place[y].p != a.p ==>
          y in w'.place && w'.place[y] == w.place[y])
    && (forall y :: y in w'.place && w'.place[y].Held? && w'.place[y].p != a.p ==>
          y in w.place && w.place[y] == w'.place[y])
  }

  lemma ChainPlaces(w: World, j: nat)
    requires Partition(w) && j < NHASH
    ensures forall i :: 0 <= i < |w.chains[j]| ==>
      w.chains[j][i] in w.place && w.place[w.chains[j][i]] == OnChain(j) && w.chains[j][i] in w.img.recs
  {
    assert Lists(w.chains[j], w.place, OnChain(j));
  }

  lemma FreePlaces(w: World)
    requires Partition(w)
    ensures forall i :: 0 <= i < |w.free| ==>
      w.free[i] in w.place && w.place[w.free[i]] == OnFree && w.free[i] in w.img.recs
  {
  }

  lemma ChainSlot(g: Image, j: nat)
    requires Shape(g) && j < NHASH
    ensures ChainLoc(j) in g.ptrs && FREE_OFF in g.ptrs
    ensures ChainLoc(j) !in g.recs && FREE_OFF !in g.recs && ChainLoc(j) != FREE_OFF
  {
    assert IsSlot(ChainLoc(j)) && IsSlot(FREE_OFF);
  }

  lemma PermitChain(a: Auth, w: World, dat: string, w': World, dat': string, x: nat, j: nat)
    requires Shape(w.img) && Partition(w) && OnlyAt(w, dat, w', dat', x) && Authorized(w, a, x)
    requires ListsChange(w, a, w') && j < NHASH && a.chain != Some(j)
    ensures ChainSame(w, dat, w', dat', j)
  {
    hide Shape, Partition, RecSame, PtrSame;
    ChainSlot(w.img, j);
    ChainPlaces(w, j);
  }

  lemma PermitFree(a: Auth, w: World, dat: string, w': World, dat': string, x: nat)
    requires Shape(w.img) && Partition(w) && OnlyAt(w, dat, w', dat', x) && Authorized(w, a, x)
    requires ListsChange(w, a, w') && !a.free
    ensures FreeSame(w, dat, w', dat')
  {
    hide Shape, Partition, RecSame, PtrSame;
    ChainSlot(w.img, 0);
    FreePlaces(w);
  }

  lemma PermitHands(a: Auth, w: World, dat: string, w': World, dat': string, x: nat)
    requires Partition(w) && OnlyAt(w, dat, w', dat', x) && Authorized(w, a, x) && ListsChange(w, a, w')
    ensures HandsSame(a.p, w, dat, w', dat')
  {
    hide RecSame, PtrSame, Lists;
  }

  /** A change in one authorized place is permitted. */
  lemma Permit(a: Auth, w: World, dat: string, view: map<string, string>,
               w': World, dat': string, view': map<string, string>, x: nat)
    requires Shape(w.img) && Partition(w) && OnlyAt(w, dat, w', dat', x) && Authorized(w, a, x)
    requires ListsChange(w, a, w')
    requires FlightSame(a.p, w, dat, w', dat') && SizesSame(a, w, dat, w', dat')
    requires forall j :: 0 <= j < NHASH && a.chain != Some(j) ==> SameOn(j, view, view')
    ensures Permitted(a, w, dat, view, w', dat', view')
  {
    hide Shape, Partition, OnlyAt, Authorized, ListsChange, FlightSame, SizesSame, SameOn;
    hide ChainSame, FreeSame, HandsSame;
    forall j | 0 <= j < NHASH && a.chain != Some(j)
      ensures ChainSame(w, dat, w', dat', j) && SameOn(j, view, view')
    {
      PermitChain(a, w, dat, w', dat', x, j);
    }
    if !a.free { PermitFree(a, w, dat, w', dat', x); }
    PermitHands(a, w, dat, w', dat', x);
  }

  // ------------------------------------------------------------------- moves

  lemma PartitionImg(w: World, w': World)
    requires Partition(w) && w'.chains == w.chains && w'.free == w.free && w'.place == w.place
    requires w'.img.recs.Keys == w.img.recs.Keys
    ensures Partition(w')
  {
  }

  lemma SameElsewhere(view: map<string, string>, k: string, d: string, j: nat)
    requires j != Hash(k)
    ensures SameOn(j, view, view[k := d]) && SameOn(j, view, view - {k})
  {
    hide Hash;
  }

  lemma RecsHavePtrs(idx: string, dat: string, w: World)
    requires Core(idx, dat, w)
    ensures Shape(w.img) && forall y :: y in w.img.recs ==> y in w.img.ptrs && y in w.place && y >= RECS_OFF
  {
  }

  lemma ChainMember(idx: string, dat: string, w: World, h: nat, k: nat)
    requires Core(idx, dat, w) && h < NHASH && k < |w.chains[h]|
    ensures var x := w.chains[h][k];
            x in w.img.recs && x in w.img.ptrs && x in w.place && w.place[x] == OnChain(h) && x >= RECS_OFF
    ensures Distinct(w.chains[h]) && ChainLoc(h) !in w.chains[h] && FREE_OFF !in w.chains[h]
  {
    hide Segs;
    assert Lists(w.chains[h], w.place, OnChain(h));
    ChainSlot(w.img, h);
    ChainPlaces(w, h);
  }

  lemma FreeMember(idx: string, dat: string, w: World, k: nat)
    requires Core(idx, dat, w) && k < |w.free|
    ensures var x := w.free[k];
            x in w.img.recs && x in w.img.ptrs && x in w.place && w.place[x] == OnFree && x >= RECS_OFF
    ensures Distinct(w.free) && FREE_OFF !in w.free
  {
    hide Segs;
    ChainSlot(w.img, 0);
    FreePlaces(w);
  }

  lemma AuthAt(idx: string, dat: string, w: World, a: Auth, x: nat)
    requires Core(idx, dat, w) && x in w.place
    requires match w.place[x]
             case OnChain(j) => a.chain == Some(j)
             case OnFree => a.free
             case Held(q) => q == a.p
    ensures Authorized(w, a, x) && ListsChange(w, a, w)
  {
    hide Segs;
    forall j | 0 <= j < NHASH ensures x != ChainLoc(j) && x != FREE_OFF { ChainSlot(w.img, j); }
    assert x != FREE_OFF by { ChainSlot(w.img, 0); }
  }

  /** The data of record x is overwritten by data of the same length. */
  lemma DataCore(idx: string, dat: string, w: World, x: nat, data: string, p: nat)
    requires Core(idx, dat, w) && x in w.img.recs && w.img.recs[x].datlen == |data| + 1
    ensures w.img.recs[x].datoff <= |dat|
    ensures var dat' := Splice(dat, w.img.recs[x].datoff, data + "\n");
            && Core(idx, dat', w) && Contents(dat', w.img.recs[x]) == data && |dat'| == |dat|
            && OnlyAt(w, dat, w, dat', x) && FlightSame(p, w, dat, w, dat')
  {
    hide Laid, Shape, Partition, Segs, Contents, Splice;
    SegsWrite(w.img.recs, w.flight, dat, x, data);
    RecsHavePtrs(idx, dat, w);
  }

  lemma PtrCore(idx: string, dat: string, w: World, loc: nat, v: nat)
    requires Core(idx, dat, w) && loc in w.img.ptrs && v <= PTR_MAX
    ensures loc <= |idx| && Core(Splice(idx, loc, Pad(v, PTR_SZ)), dat, w.SetPtr(loc, v))
    ensures OnlyAt(w, dat, w.SetPtr(loc, v), dat, loc)
  {
    hide Laid, Shape, Partition, Segs, Contents, Splice, Pad;
    WritePtrLaid(idx, w.img, loc, v);
    PartitionImg(w, w.SetPtr(loc, v));
    RecsHavePtrs(idx, dat, w);
  }

  /** A record is rewritten in place with one of the same size and segment. */
  lemma RecCore(idx: string, dat: string, w: World, x: nat, ptr: nat, r: Rec)
    requires Core(idx, dat, w) && x in w.img.recs && ptr <= PTR_MAX && ValidRec(r)
    requires |r.key| == |w.img.recs[x].key|
    requires r.datoff == w.img.recs[x].datoff && r.datlen == w.img.recs[x].datlen
    ensures x <= |idx| && Core(Splice(idx, x, RecBytes(ptr, r)), dat, w.SetRec(x, ptr, r))
    ensures OnlyAt(w, dat, w.SetRec(x, ptr, r), dat, x)
  {
    hide Laid, Shape, Partition, Segs, Contents, Splice, RecBytes, ValidRec, RecSize;
    SameLengthKey(w.img.recs[x], r.key);
    assert w.img.recs[x].(key := r.key) == r;
    WriteRecLaid(idx, w.img, x, ptr, r);
    assert w.img.recs[x := r].Keys == w.img.recs.Keys;
    PartitionImg(w, w.SetRec(x, ptr, r));
    SegsRename(w.img.recs, w.flight, dat, x, r);
    RecsHavePtrs(idx, dat, w);
  }

  /** Overwriting the data of the k-th record on chain h. */
  lemma MoveOverwrite(idx: string, dat: string, w: World, view: map<string, string>,
                      p: nat, h: nat, k: nat, data: string)
    requires Core(idx, dat, w) && |w.chains| == NHASH && h < NHASH && k < |w.chains[h]|
    requires ChainSound(w, dat, view, h)
    requires w.chains[h][k] in w.img.recs && w.img.recs[w.chains[h][k]].datlen == |data| + 1
    ensures var r := w.img.recs[w.chains[h][k]];
            && r.datoff <= |dat|
            && var dat', view' := Splice(dat, r.datoff, data + "\n"), view[r.key := data];
            && Core(idx, dat', w) && ChainSound(w, dat', view', h)
            && Permitted(Auth(p, Some(h), false, false, false), w, dat, view, w, dat', view')
  {
    hide Laid, Shape, Partition, Segs, Contents, Splice, SameOn, Permitted, Authorized, ListsChange;
    hide Links, FlightSame, Hash, Distinct;
    var x, a := w.chains[h][k], Auth(p, Some(h), false, false, false);
    var r := w.img.recs[x];
    var view' := view[r.key := data];
    ChainMember(idx, dat, w, h, k);
    DataCore(idx, dat, w, x, data, p);
    var dat' := Splice(dat, r.datoff, data + "\n");
    AuthAt(idx, dat, w, a, x);
    RecsHavePtrs(idx, dat, w);
    forall j | 0 <= j < NHASH && a.chain != Some(j) ensures SameOn(j, view, view') {
      SameElsewhere(view, r.key, data, j);
    }
    Permit(a, w, dat, view, w, dat', view', x);
    ReplaceContents(w.img.recs, dat, dat', w.chains[h], view, h, k);
  }

  lemma ReplaceContents(recs: map<nat, Rec>, dat: string, dat': string, list: seq<nat>,
                        view: map<string, string>, h: nat, k: nat)
    requires ListHolds(recs, dat, list, view, h) && k < |list| && Distinct(list)
    requires forall x :: x in recs && x != list[k] ==> Contents(dat', recs[x]) == Contents(dat, recs[x])
    ensures list[k] in recs
    ensures ListHolds(recs, dat', list, view[recs[list[k]].key := Contents(dat', recs[list[k]])], h)
  {
    hide Contents, Hash;
    ListHoldsReplace(recs, dat, dat', list, view, h, k);
  }

  lemma ListsUnlink(w: World, p: nat, h: nat, k: nat)
    requires Partition(w) && h < NHASH && k < |w.chains[h]|
    ensures ListsChange(w, Auth(p, Some(h), false, false, false), w.Unlink(h, k, p))
  {
    ChainPlaces(w, h);
  }

  /** Blanking the data of the k-th record on chain h, the first write of a
      deletion: from here on the record counts as taken off the chain, and the
      chain is sound up to the pending rewrite of the pointer before it. */
  lemma MoveUnlink(idx: string, dat: string, w: World, view: map<string, string>,
                   p: nat, h: nat, k: nat, data: string)
    requires Core(idx, dat, w) && |w.chains| == NHASH && h < NHASH && k < |w.chains[h]|
    requires ChainSound(w, dat, view, h)
    requires w.chains[h][k] in w.img.recs && w.img.recs[w.chains[h][k]].datlen == |data| + 1
    ensures w.chains[h][k] in w.img.ptrs
    ensures var x := w.chains[h][k];
            var r := w.img.recs[x];
            && r.datoff <= |dat|
            && var dat', w', view' := Splice(dat, r.datoff, data + "\n"), w.Unlink(h, k, p), view - {r.key};
            && Core(idx, dat', w')
            && ChainSound(w'.SetPtr(Pred(ChainLoc(h), w.chains[h], k), w.img.ptrs[x]), dat', view', h)
            && Permitted(Auth(p, Some(h), false, false, false), w, dat, view, w', dat', view')
  {
    hide Laid, Shape, Partition, Segs, Contents, Splice, SameOn, Permitted, Authorized, ListsChange;
    hide Links, FlightSame, Hash, Distinct, ListHolds;
    var x, a := w.chains[h][k], Auth(p, Some(h), false, false, false);
    var r := w.img.recs[x];
    var w', view' := w.Unlink(h, k, p), view - {r.key};
    ChainMember(idx, dat, w, h, k);
    DataCore(idx, dat, w, x, data, p);
    var dat' := Splice(dat, r.datoff, data + "\n");
    AuthAt(idx, dat, w, a, x);
    RecsHavePtrs(idx, dat, w);
    forall j | 0 <= j < NHASH && a.chain != Some(j) ensures SameOn(j, view, view') {
      HoldsAt(w.img.recs, dat, w.chains[h], view, h, k);
      SameElsewhere(view, r.key, data, j);
    }
    ListsUnlink(w, p, h, k);
    PartitionUnlink(w, h, k, p);
    assert FlightSame(p, w, dat, w', dat') by { UnlinkFlight(w, dat, dat', h, k, p); }
    Permit(a, w, dat, view, w', dat', view', x);
    LinksRemove(w.img.ptrs, ChainLoc(h), w.chains[h], k);
    RemoveContents(w.img.recs, dat, dat', w.chains[h], view, h, k);
  }

  lemma UnlinkFlight(w: World, dat: string, dat': string, h: nat, k: nat, p: nat)
    requires FlightSame(p, w, dat, w, dat') && h < |w.chains| && k < |w.chains[h]|
    ensures FlightSame(p, w, dat, w.Unlink(h, k, p), dat')
  {
  }

  lemma HoldsAt(recs: map<nat, Rec>, dat: string, list: seq<nat>, view: map<string, string>, h: nat, k: nat)
    requires ListHolds(recs, dat, list, view, h) && k < |list|
    ensures list[k] in recs && Holds(recs[list[k]], dat, view, h)
  {
  }

  lemma RemoveContents(recs: map<nat, Rec>, dat: string, dat': string, list: seq<nat>,
                       view: map<string, string>, h: nat, k: nat)
    requires ListHolds(recs, dat, list, view, h) && k < |list| && Distinct(list)
    requires forall x :: x in recs && x != list[k] ==> Contents(dat', recs[x]) == Contents(dat, recs[x])
    ensures list[k] in recs
    ensures ListHolds(recs, dat', RemoveAt(list, k), view - {recs[list[k]].key}, h)
  {
    hide Contents, Hash;
    var list', view' := RemoveAt(list, k), view - {recs[list[k]].key};
    ListHoldsRemove(recs, dat, list, view, h, k);
    forall i | 0 <= i < |list'|
      ensures list'[i] in recs && Contents(dat', recs[list'[i]]) == Contents(dat, recs[list'[i]])
    {
      assert list'[i] == list[if i < k then i else i + 1];
    }
    ListHoldsFrame(recs, dat, view', recs, dat', view', list', h);
  }

  lemma ListsHand(w: World, p: nat, x: nat, to: Place)
    requires Partition(w) && x in w.place && (to.Held? ==> to.p == p)
    requires w.place[x].Held? ==> w.place[x].p == p
    ensures forall y :: y in w.place && w.place[y].Held? && w.place[y].p != p ==> w.place[x := to][y] == w.place[y]
    ensures forall y :: y in w.place[x := to] && w.place[x := to][y].Held? && w.place[x := to][y].p != p ==>
              y in w.place && w.place[y] == w.place[x := to][y]
  {
  }

  /** Rewriting a record in p's hands. */
  lemma MoveRewrite(idx: string, dat: string, w: World, view: map<string, string>,
                    p: nat, x: nat, ptr: nat, r: Rec)
    requires Core(idx, dat, w) && x in w.place && w.place[x] == Held(p) && x in w.img.recs
    requires ptr <= PTR_MAX && ValidRec(r) && |r.key| == |w.img.recs[x].key|
    requires r.datoff == w.img.recs[x].datoff && r.datlen == w.img.recs[x].datlen
    ensures x <= |idx| && Core(Splice(idx, x, RecBytes(ptr, r)), dat, w.SetRec(x, ptr, r))
    ensures Permitted(Auth(p, None, false, false, false), w, dat, view, w.SetRec(x, ptr, r), dat, view)
  {
    hide Laid, Shape, Partition, Segs, Contents, Splice, RecBytes, ValidRec, Authorized, OnlyAt;
    var a, w' := Auth(p, None, false, false, false), w.SetRec(x, ptr, r);
    RecCore(idx, dat, w, x, ptr, r);
    AuthAt(idx, dat, w, a, x);
    RecsHavePtrs(idx, dat, w);
    Permit(a, w, dat, view, w', dat, view, x);
  }

  /** Writing data for a record in p's hands. */
  lemma MoveFill(idx: string, dat: string, w: World, view: map<string, string>, p: nat, x: nat, data: string)
    requires Core(idx, dat, w) && x in w.place && w.place[x] == Held(p) && x in w.img.recs
    requires w.img.recs[x].datlen == |data| + 1
    ensures w.img.recs[x].datoff <= |dat|
    ensures var dat' := Splice(dat, w.img.recs[x].datoff, data + "\n");
            && Core(idx, dat', w) && Contents(dat', w.img.recs[x]) == data
            && Permitted(Auth(p, None, false, false, false), w, dat, view, w, dat', view)
  {
    hide Laid, Shape, Partition, Segs, Contents, Splice, Authorized, OnlyAt, ListsChange, FlightSame;
    var a := Auth(p, None, false, false, false);
    DataCore(idx, dat, w, x, data, p);
    AuthAt(idx, dat, w, a, x);
    RecsHavePtrs(idx, dat, w);
    Permit(a, w, dat, view, w, Splice(dat, w.img.recs[x].datoff, data + "\n"), view, x);
  }

  lemma AuthSlot(w: World, a: Auth, h: nat)
    requires Shape(w.img) && Partition(w) && h < NHASH
    ensures a.chain == Some(h) ==> Authorized(w, a, ChainLoc(h))
    ensures a.free ==> Authorized(w, a, FREE_OFF)
    ensures ListsChange(w, a, w)
  {
    ChainSlot(w.img, h);
  }

  /** Rewriting a pointer on p's own chain. */
  lemma MoveSetPtr(idx: string, dat: string, w: World, view: map<string, string>,
                   p: nat, h: nat, loc: nat, v: nat)
    requires Core(idx, dat, w) && |w.chains| == NHASH && h < NHASH && v <= PTR_MAX
    requires loc == ChainLoc(h) || loc in w.chains[h]
    ensures loc <= |idx| && Core(Splice(idx, loc, Pad(v, PTR_SZ)), dat, w.SetPtr(loc, v))
    ensures Permitted(Auth(p, Some(h), false, false, false), w, dat, view, w.SetPtr(loc, v), dat, view)
  {
    hide Laid, Shape, Partition, Segs, Contents, Splice, Pad, Authorized, OnlyAt;
    var a, w' := Auth(p, Some(h), false, false, false), w.SetPtr(loc, v);
    RecsHavePtrs(idx, dat, w);
    if loc == ChainLoc(h) {
      ChainSlot(w.img, h);
      AuthSlot(w, a, h);
    } else {
      ChainPlaces(w, h);
      AuthAt(idx, dat, w, a, loc);
    }
    PtrCore(idx, dat, w, loc, v);
    Permit(a, w, dat, view, w', dat, view, loc);
  }

  /** Making a blank record in p's hands the head of the free list. */
  lemma MovePushFree(idx: string, dat: string, w: World, view: map<string, string>, p: nat, x: nat)
    requires Core(idx, dat, w) && FreeSound(w) && x in w.place && w.place[x] == Held(p)
    requires x in w.img.recs && AllBlank(w.img.recs[x].key) && x <= PTR_MAX
    requires x in w.img.ptrs && w.img.ptrs[x] == w.img.ptrs[FREE_OFF]
    ensures var idx', w' := Splice(idx, FREE_OFF, Pad(x, PTR_SZ)), w.PushFree(x).SetPtr(FREE_OFF, x);
            && Core(idx', dat, w') && FreeSound(w')
            && Permitted(Auth(p, None, true, false, false), w, dat, view, w', dat, view)
  {
    hide Laid, Shape, Partition, Segs, Contents, Splice, Pad, Authorized, OnlyAt, AllBlank;
    var a, w1 := Auth(p, None, true, false, false), w.SetPtr(FREE_OFF, x);
    var w' := w.PushFree(x).SetPtr(FREE_OFF, x);
    assert w' == w1.PushFree(x);
    RecsHavePtrs(idx, dat, w);
    ChainSlot(w.img, 0);
    FreePlaces(w);
    AuthSlot(w, a, 0);
    PtrCore(idx, dat, w, FREE_OFF, x);
    PartitionPushFree(w1, x);
    assert OnlyAt(w, dat, w', dat, FREE_OFF) by { OnlyAtImg(w, dat, w1, dat, w', FREE_OFF); }
    ListsHand(w, p, x, OnFree);
    Permit(a, w, dat, view, w', dat, view, FREE_OFF);
    LinksPush(w.img.ptrs, FREE_OFF, w.free, x);
  }

  lemma OnlyAtImg(w: World, dat: string, w1: World, dat': string, w': World, x: nat)
    requires OnlyAt(w, dat, w1, dat', x) && w'.img == w1.img
    ensures OnlyAt(w, dat, w', dat', x)
  {
  }

  /** Taking the k-th record off the free list into p's hands. */
  lemma MovePopFree(idx: string, dat: string, w: World, view: map<string, string>, p: nat, k: nat)
    requires Core(idx, dat, w) && FreeSound(w) && k < |w.free| && w.free[k] in w.img.ptrs
    requires w.img.ptrs[w.free[k]] <= PTR_MAX
    ensures var loc, v := Pred(FREE_OFF, w.free, k), w.img.ptrs[w.free[k]];
            && loc <= |idx|
            && var idx', w' := Splice(idx, loc, Pad(v, PTR_SZ)), w.PopFree(k, p).SetPtr(loc, v);
            && Core(idx', dat, w') && FreeSound(w')
            && Permitted(Auth(p, None, true, false, false), w, dat, view, w', dat, view)
  {
    hide Laid, Shape, Partition, Segs, Contents, Splice, Pad, Authorized, OnlyAt, AllBlank;
    var x, a := w.free[k], Auth(p, None, true, false, false);
    var loc, v := Pred(FREE_OFF, w.free, k), w.img.ptrs[x];
    var w1, w' := w.SetPtr(loc, v), w.PopFree(k, p).SetPtr(loc, v);
    assert w' == w1.PopFree(k, p);
    RecsHavePtrs(idx, dat, w);
    ChainSlot(w.img, 0);
    FreeMember(idx, dat, w, k);
    FreePlaces(w);
    if k == 0 { AuthSlot(w, a, 0); } else { AuthAt(idx, dat, w, a, loc); }
    PtrCore(idx, dat, w, loc, v);
    PartitionPopFree(w1, k, p);
    assert OnlyAt(w, dat, w', dat, loc) by { OnlyAtImg(w, dat, w1, dat, w', loc); }
    ListsHand(w, p, x, Held(p));
    Permit(a, w, dat, view, w', dat, view, loc);
    LinksRemove(w.img.ptrs, FREE_OFF, w.free, k);
  }

  /** Making a finished record in p's hands the head of chain h. */
  lemma MoveLink(idx: string, dat: string, w: World, view: map<string, string>, p: nat, h: nat, x: nat)
    requires Core(idx, dat, w) && |w.chains| == NHASH && h < NHASH && ChainSound(w, dat, view, h)
    requires x in w.place && w.place[x] == Held(p) && x in w.img.recs && x <= PTR_MAX
    requires x in w.img.ptrs && w.img.ptrs[x] == Head(w.chains[h])
    requires Hash(w.img.recs[x].key) == h && w.img.recs[x].key !in view
    ensures var idx', w' := Splice(idx, ChainLoc(h), Pad(x, PTR_SZ)), w.PushChain(h, x).SetPtr(ChainLoc(h), x);
            var view' := view[w.img.recs[x].key := Contents(dat, w.img.recs[x])];
            && Core(idx', dat, w') && ChainSound(w', dat, view', h)
            && Permitted(Auth(p, Some(h), false, false, false), w, dat, view, w', dat, view')
  {
    hide Laid, Shape, Partition, Segs, Contents, Splice, Pad, Authorized, OnlyAt, Hash, SameOn, ListHolds, Links;
    var a, w1 := Auth(p, Some(h), false, false, false), w.SetPtr(ChainLoc(h), x);
    var w' := w.PushChain(h, x).SetPtr(ChainLoc(h), x);
    var view' := view[w.img.recs[x].key := Contents(dat, w.img.recs[x])];
    assert w' == w1.PushChain(h, x);
    RecsHavePtrs(idx, dat, w);
    ChainSlot(w.img, h);
    ChainPlaces(w, h);
    AuthSlot(w, a, h);
    PtrCore(idx, dat, w, ChainLoc(h), x);
    PartitionPushChain(w1, h, x);
    assert OnlyAt(w, dat, w', dat, ChainLoc(h)) by { OnlyAtImg(w, dat, w1, dat, w', ChainLoc(h)); }
    ListsHand(w, p, x, OnChain(h));
    forall j | 0 <= j < NHASH && a.chain != Some(j) ensures SameOn(j, view, view') {
      SameElsewhere(view, w.img.recs[x].key, Contents(dat, w.img.recs[x]), j);
    }
    Permit(a, w, dat, view, w', dat, view', ChainLoc(h));
    LinksPush(w.img.ptrs, ChainLoc(h), w.chains[h], x);
    ListHoldsPush(w.img.recs, dat, w.chains[h], view, h, x);
  }

  lemma AuthNowhere(w: World, a: Auth, x: nat)
    requires Shape(w.img) && Partition(w) && x >= RECS_OFF - 1 && x !in w.img.recs
    ensures Authorized(w, a, x) && ListsChange(w, a, w)
  {
  }

  /** Appending a data record that no index record describes yet. */
  lemma MoveAppendData(idx: string, dat: string, w: World, view: map<string, string>, p: nat, r: Rec, data: string)
    requires Core(idx, dat, w) && p !in w.flight && r.datoff == |dat| && r.datlen == |data| + 1
    ensures var dat', w' := Splice(dat, |dat|, data + "\n"), w.AppendSeg(p, r);
            && Core(idx, dat', w') && Contents(dat', r) == data
            && Permitted(Auth(p, None, false, true, false), w, dat, view, w', dat', view)
  {
    hide Laid, Shape, Partition, Segs, Contents, Splice, Authorized;
    var a, w' := Auth(p, None, false, true, false), w.AppendSeg(p, r);
    var dat' := Splice(dat, |dat|, data + "\n");
    SegsAppend(w.img.recs, w.flight, dat, p, r, data);
    RecsHavePtrs(idx, dat, w);
    PartitionImg(w, w');
    AuthNowhere(w, a, RECS_OFF - 1);
    Permit(a, w, dat, view, w', dat', view, RECS_OFF - 1);
  }

  /** Appending the index record for a data record that p has appended. */
  lemma MoveAppendRec(idx: string, dat: string, w: World, view: map<string, string>, p: nat, ptr: nat, r: Rec)
    requires Core(idx, dat, w) && p in w.flight && ptr <= PTR_MAX && ValidRec(r)
    requires r.datoff == w.flight[p].datoff && r.datlen == w.flight[p].datlen
    ensures w.img.end == |idx| && w.img.end !in w.img.recs && w.img.end >= RECS_OFF
    ensures var idx', w' := Splice(idx, |idx|, RecBytes(ptr, r)), w.AppendRec(p, ptr, r);
            && Core(idx', dat, w')
            && Permitted(Auth(p, None, false, false, true), w, dat, view, w', dat, view)
  {
    hide Shape, Partition, Segs, Contents, Splice, Authorized, RecBytes, ValidRec, PtrAt, RecAt;
    var a, w' := Auth(p, None, false, false, true), w.AppendRec(p, ptr, r);
    AppendRecLaid(idx, w.img, ptr, r);
    RecsHavePtrs(idx, dat, w);
    EndOfRecs(w.img);
    PartitionAppend(w, p, ptr, r);
    SegsIndex(w.img.recs, w.flight, dat, p, w.img.end, r);
    AuthNowhere(w, a, w.img.end);
    Permit(a, w, dat, view, w', dat, view, w.img.end);
  }

  lemma EndOfRecs(g: Image)
    requires Shape(g)
    ensures g.end >= RECS_OFF
  {
  }
}
