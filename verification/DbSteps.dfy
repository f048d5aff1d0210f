/** The steps of the library that search, lock and decide. */
module DbSteps {
  import opened Options
  import opened DbFormat
  import opened DbLayout
  import opened DbWorld
  import opened DbMoves
  import opened DbSpec
  import opened DbProtocol
  import opened DbInvariant
  import opened DbSerial

  ghost predicate At(c: State, w: World, view: Map, p: nat) { Inv(c, w, view) && p in c.procs }

  lemma LocalOf(c: State, w: World, view: Map, p: nat)
    requires At(c, w, view, p)
    ensures Local(c.procs[p], p, c.dat, w, view, MapOf(c.log))
    ensures Core(c.idx, c.dat, w) && Laid(c.idx, w.img) && Shape(w.img) && |w.chains| == NHASH && FreeSound(w)
    ensures LockTable(c) && Exclusive(c)
  {
    hide Local, FreeSound, Segs, LockTable, Exclusive, QuietChains, Serial, Owners;
  }

  lemma WriterOf(pr: Proc, p: nat, dat: string, w: World, view: Map, m: Map)
    requires Local(pr, p, dat, w, view, m) && (DeletePc(pr.pc) || StorePc(pr.pc))
    ensures Writes(pr) && (StorePc(pr.pc) ==> pr.op.Store?)
  {
    hide WriterPart, ReaderPart, PosPart, FreePart, RecPart, AppPart, ValidOp;
  }

  // ------------------------------------------------------------ chain search

  lemma SearchQuiet(c: State, w: World, view: Map, p: nat)
    requires At(c, w, view, p) && Searching(c.procs[p].pc)
    ensures Quiet(w, c.dat, view, MapOf(c.log), c.procs[p].Chain())
  {
    hide Core, FreeSound, LockTable, Serial, Owners, Hash, MapOf, SameOn, ChainSound, RecPart, PosPart, FreePart,
         AppPart;
    var pr := c.procs[p];
    assert Local(pr, p, c.dat, w, view, MapOf(c.log));
    if !Writes(pr) {
      forall q | q in c.procs && Writes(c.procs[q]) ensures c.procs[q].Chain() != pr.Chain() {
        if q != p { assert !Clash(pr, c.procs[q]); }
      }
      assert NoWriter(c.procs, pr.Chain());
    }
  }

  lemma MissingFromMap(w: World, dat: string, view: Map, m: Map, k: string)
    requires Quiet(w, dat, view, m, Hash(k))
    requires forall i :: 0 <= i < |w.chains[Hash(k)]| ==>
      w.chains[Hash(k)][i] in w.img.recs && w.img.recs[w.chains[Hash(k)][i]].key != k
    ensures k !in view && k !in m && m - {k} == m
  {
    hide Links, Holds, Hash;
    assert k in view ==> KeyOn(w.img.recs, w.chains[Hash(k)], k);
  }

  /** The search reached the end of the chain: the key is not in the map. */
  lemma MissingLocal(pr: Proc, p: nat, dat: string, w: World, view: Map, m: Map)
    requires Searching(pr.pc) && OpFits(pr) && Quiet(w, dat, view, m, pr.Chain())
    requires forall i :: 0 <= i < |w.chains[pr.Chain()]| ==>
      w.chains[pr.Chain()][i] in w.img.recs && w.img.recs[w.chains[pr.Chain()][i]].key != pr.op.key
    ensures Local(Missing(pr), p, dat, w, view, m)
  {
    hide Hash, ChainSound, SameOn, ValidOp;
    MissingFromMap(w, dat, view, m, pr.op.key);
  }

  lemma FoundInMap(pr: Proc, w: World, dat: string, view: Map, m: Map, k: nat)
    requires Quiet(w, dat, view, m, pr.Chain()) && AtPos(w, pr, k) && FoundRec(w, pr)
    ensures pr.op.key in m && pr.op.key in view
  {
    hide Links, Contents, Hash;
    HoldsAt(w.img.recs, dat, w.chains[pr.Chain()], view, pr.Chain(), k);
  }

  /** The search found the key's record. */
  lemma FoundLocal(pr: Proc, p: nat, dat: string, w: World, view: Map, m: Map, k: nat)
    requires Searching(pr.pc) && OpFits(pr) && Quiet(w, dat, view, m, pr.Chain())
    requires AtPos(w, pr, k) && FoundRec(w, pr)
    ensures Local(Found(pr), p, dat, w, view, m)
  {
    hide Hash, ChainSound, SameOn, ValidOp;
    FoundInMap(pr, w, dat, view, m, k);
    AtPosKept(w, pr, Found(pr), k);
    hide AtPos;
  }

  lemma AtPosKept(w: World, pr: Proc, pr': Proc, k: nat)
    requires AtPos(w, pr, k) && pr'.op == pr.op && pr'.idxoff == pr.idxoff && pr'.ptroff == pr.ptroff
    ensures AtPos(w, pr', k)
  {
    hide Hash;
  }

  lemma FollowLocal(pr: Proc, p: nat, dat: string, w: World, view: Map, m: Map, k: nat, v: nat)
    requires Searching(pr.pc) && OpFits(pr) && Quiet(w, dat, view, m, pr.Chain())
    requires k <= |w.chains[pr.Chain()]| && pr.ptroff == Pred(ChainLoc(pr.Chain()), w.chains[pr.Chain()], k)
    requires v == if k < |w.chains[pr.Chain()]| then w.chains[pr.Chain()][k] else 0
    requires forall i :: 0 <= i < k ==>
      w.chains[pr.Chain()][i] in w.img.recs && w.img.recs[w.chains[pr.Chain()][i]].key != pr.op.key
    ensures Local(FollowChain(pr, v), p, dat, w, view, m)
  {
    hide Hash, SameOn, ValidOp, ListHolds;
    var chain := w.chains[pr.Chain()];
    if k < |chain| {
      assert v > 0 by { assert Links(w.img.ptrs, ChainLoc(pr.Chain()), chain); }
      hide ChainSound;
      assert AtPos(w, FollowChain(pr, v), k);
      hide AtPos;
    } else {
      MissingLocal(pr, p, dat, w, view, m);
    }
  }

  lemma GetPtrAt(b: string, g: Image, loc: nat)
    requires Laid(b, g) && loc in g.ptrs
    ensures GetPtr(b, loc) == Some(g.ptrs[loc]) && g.ptrs[loc] <= PTR_MAX
  {
    hide Sized, Tiled, PtrAt, RecAt, Atol;
    ReadPtrAt(b, g, loc);
  }

  lemma GetHdrAt(b: string, g: Image, off: nat)
    requires Laid(b, g) && off in g.recs
    ensures off in g.ptrs && GetHdr(b, off) == Some((g.ptrs[off], |Body(g.recs[off])|))
  {
    hide Tiled, PtrAt, RecAt, Atol, Body, ParseBody, ValidKey;
    ReadRecAt(b, g, off);
    GetPtrAt(b, g, off);
    assert ValidRec(g.recs[off]);
  }

  lemma GetBodyAt(b: string, g: Image, off: nat)
    requires Laid(b, g) && off in g.recs
    ensures GetBody(b, off, |Body(g.recs[off])|) == Some(g.recs[off])
  {
    hide Laid, Body, ParseBody, Atol;
    ReadRecAt(b, g, off);
  }

  /** p's hold on chains, records and segments does not shrink. */
  predicate Grip(pr: Proc, pr': Proc)
  {
    && (Writes(pr) ==> Writes(pr') && pr'.op == pr.op)
    && (HoldsRec(pr.pc) ==> HoldsRec(pr'.pc) && pr'.idxoff == pr.idxoff)
    && (InFlight(pr.pc) ==> InFlight(pr'.pc))
  }

  /** A step that reads or decides, under the locks p already has. */
  lemma Finish(c: State, w: World, view: Map, p: nat, pr': Proc)
    requires At(c, w, view, p) && Local(pr', p, c.dat, w, view, MapOf(c.log))
    requires SameLocks(c.procs[p], pr') && Grip(c.procs[p], pr')
    ensures Inv(c.With(p, pr'), w, view)
  {
    hide Core, FreeSound, LockTable, Exclusive, Serial, Owners, Hash, MapOf, Locals, QuietChains, Local, SameLocks;
    LocksKept(c, c.With(p, pr'), p, pr');
    Quietly(c, w, view, c.With(p, pr'), p, pr');
  }

  lemma FinishTake(c: State, w: World, view: Map, p: nat, n: LockName, write: bool, pr': Proc)
    requires At(c, w, view, p) && Local(pr', p, c.dat, w, view, MapOf(c.log))
    requires Take(c, p, n, write, pr').Some? && Grip(c.procs[p], pr')
    requires forall n', w' :: HasLock(pr', n', w') <==> HasLock(c.procs[p], n', w') || (n' == n && w' == write)
    ensures Inv(Take(c, p, n, write, pr').value, w, view)
  {
    hide Core, FreeSound, LockTable, Exclusive, Serial, Owners, Hash, MapOf, Locals, QuietChains, Local, HasLock,
         CanLock;
    LocksTaken(c, Take(c, p, n, write, pr').value, p, n, write, pr');
    Quietly(c, w, view, Take(c, p, n, write, pr').value, p, pr');
  }

  lemma FinishDrop(c: State, w: World, view: Map, p: nat, n: LockName, pr': Proc)
    requires At(c, w, view, p) && Local(pr', p, c.dat, w, view, MapOf(c.log))
    requires Grip(c.procs[p], pr')
    requires forall n', w' :: HasLock(pr', n', w') <==> HasLock(c.procs[p], n', w') && n' != n
    ensures Inv(Drop(c, p, n, pr'), w, view)
  {
    hide Core, FreeSound, LockTable, Exclusive, Serial, Owners, Hash, MapOf, Locals, QuietChains, Local, HasLock;
    LocksDropped(c, Drop(c, p, n, pr'), p, n, pr');
    Quietly(c, w, view, Drop(c, p, n, pr'), p, pr');
  }

  lemma LockChainLocal(pr: Proc, p: nat, dat: string, w: World, view: Map, m: Map)
    requires pr.pc.LockChain? && OpFits(pr)
    requires !pr.op.Fetch? ==> Quiet(w, dat, view, m, pr.Chain())
    ensures Local(pr.(pc := ReadHead, ptroff := ChainLoc(pr.Chain())), p, dat, w, view, m)
  {
    hide Hash, ChainSound, SameOn, ValidOp;
  }

  lemma DoLockChain(c: State, w: World, view: Map, p: nat)
    requires At(c, w, view, p) && c.procs[p].pc.LockChain?
    ensures var pr := c.procs[p];
            var s := Take(c, p, ChainLock(pr.Chain()), !pr.op.Fetch?,
                          pr.(pc := ReadHead, ptroff := ChainLoc(pr.Chain())));
            s.Some? ==> Inv(s.value, w, view)
  {
    hide Inv, Hash, MapOf, Quiet, CanLock, Core, Laid, Shape, FreeSound, LockTable, Exclusive;
    hide WriterPart, ReaderPart, PosPart, FreePart, RecPart, AppPart;
    var pr := c.procs[p];
    var pr' := pr.(pc := ReadHead, ptroff := ChainLoc(pr.Chain()));
    LocalOf(c, w, view, p);
    if Take(c, p, ChainLock(pr.Chain()), !pr.op.Fetch?, pr').Some? {
      if !pr.op.Fetch? { ChainAcquired(c, w, view, p); }
      LockChainLocal(pr, p, c.dat, w, view, MapOf(c.log));
      hide Local, OpFits;
      FinishTake(c, w, view, p, ChainLock(pr.Chain()), !pr.op.Fetch?, pr');
    }
  }

  lemma ChainAcquired(c: State, w: World, view: Map, p: nat)
    requires At(c, w, view, p) && c.procs[p].pc.LockChain?
    requires CanLock(c, p, ChainLock(c.procs[p].Chain()), true)
    ensures Quiet(w, c.dat, view, MapOf(c.log), c.procs[p].Chain())
  {
    hide Core, FreeSound, Exclusive, Serial, Owners, Hash, MapOf, SameOn, ChainSound, Local, Overlap;
    var h := c.procs[p].Chain();
    forall q | q in c.procs && Writes(c.procs[q]) ensures c.procs[q].Chain() != h {
      if q != p && c.procs[q].Chain() == h {
        assert Lock(q, ChainLock(h), true) in c.locks;
        OverlapSame(ChainLock(h), ChainLock(h));
      }
    }
    assert NoWriter(c.procs, h);
  }

  lemma DoReadHead(c: State, w: World, view: Map, p: nat)
    requires At(c, w, view, p) && c.procs[p].pc.ReadHead?
    ensures Inv(c.With(p, OnReadHead(c.idx, c.procs[p])), w, view)
  {
    hide Inv, Hash, MapOf, FreeSound, Core, Laid, Shape, ListHolds, SameOn, GetPtr, OpFits;
    hide WriterPart, ReaderPart, FreePart, RecPart, AppPart, LockTable, Exclusive;
    var pr := c.procs[p];
    LocalOf(c, w, view, p);
    SearchQuiet(c, w, view, p);
    ChainSlot(w.img, pr.Chain());
    GetPtrAt(c.idx, w.img, pr.ptroff);
    var v := w.img.ptrs[pr.ptroff];
    FollowLocal(pr, p, c.dat, w, view, MapOf(c.log), 0, v);
    hide Local, Quiet, PosPart;
    Finish(c, w, view, p, FollowChain(pr, v));
  }

  lemma ReadHdrLocal(pr: Proc, p: nat, dat: string, w: World, view: Map, m: Map, pr': Proc, k: nat)
    requires pr.pc.ReadHdr? && Local(pr, p, dat, w, view, m) && AtPos(w, pr, k)
    requires pr' == pr.(pc := ReadBody, ptrval := pr'.ptrval, idxlen := pr'.idxlen) && HdrRead(w, pr')
    ensures Local(pr', p, dat, w, view, m)
  {
    hide Hash, ChainSound, SameOn, ValidOp, HdrRead;
    AtPosKept(w, pr, pr', k);
    hide AtPos;
  }

  lemma DoReadHdr(c: State, w: World, view: Map, p: nat)
    requires At(c, w, view, p) && c.procs[p].pc.ReadHdr?
    ensures Inv(c.With(p, OnReadHdr(c.idx, c.procs[p], ReadBody)), w, view)
  {
    hide Inv, Hash, MapOf, FreeSound, Core, Laid, Shape, GetHdr, Body, LockTable, Exclusive;
    hide OpFits, WriterPart, ReaderPart, FreePart, RecPart, AppPart;
    var pr := c.procs[p];
    LocalOf(c, w, view, p);
    var k: nat :| AtPos(w, pr, k);
    ChainMember(c.idx, c.dat, w, pr.Chain(), k);
    GetHdrAt(c.idx, w.img, pr.idxoff);
    var pr' := OnReadHdr(c.idx, pr, ReadBody);
    ReadHdrLocal(pr, p, c.dat, w, view, MapOf(c.log), pr', k);
    hide Local, AtPos, PosPart;
    Finish(c, w, view, p, pr');
  }

  /** Reading a record body either finds the key or moves to the next record. */
  lemma ReadBodyLocal(idx: string, pr: Proc, p: nat, dat: string, w: World, view: Map, m: Map, k: nat)
    requires Laid(idx, w.img) && pr.pc.ReadBody? && OpFits(pr) && Quiet(w, dat, view, m, pr.Chain())
    requires AtPos(w, pr, k) && HdrRead(w, pr)
    ensures Local(OnReadBody(idx, pr), p, dat, w, view, m)
  {
    hide Laid, Hash, ListHolds, SameOn, OpFits, GetBody, Body;
    var h, r := pr.Chain(), w.img.recs[pr.idxoff];
    GetBodyAt(idx, w.img, pr.idxoff);
    var pr1 := pr.(datoff := r.datoff, datlen := r.datlen);
    OpFitsKept(pr, pr1);
    if r.key == pr.op.key {
      hide Quiet;
      AtPosKept(w, pr, pr1, k);
      FoundLocal(pr1, p, dat, w, view, m, k);
    } else {
      var pr2 := pr1.(ptroff := pr.idxoff);
      OpFitsKept(pr, pr2);
      LinksNext(w.img.ptrs, ChainLoc(h), w.chains[h], k + 1);
      FollowLocal(pr2, p, dat, w, view, m, k + 1, pr.ptrval);
    }
  }

  lemma OpFitsKept(pr: Proc, pr': Proc)
    requires OpFits(pr) && pr'.op == pr.op && pr'.pc == pr.pc && !pr.pc.OverwriteData?
    ensures OpFits(pr')
  {
  }

  lemma DoReadBody(c: State, w: World, view: Map, p: nat)
    requires At(c, w, view, p) && c.procs[p].pc.ReadBody?
    ensures Inv(c.With(p, OnReadBody(c.idx, c.procs[p])), w, view)
  {
    hide Inv, Hash, MapOf, FreeSound, Core, Laid, Shape, OpFits, Quiet, LockTable, Exclusive, AtPos, HdrRead;
    hide WriterPart, ReaderPart, FreePart, RecPart, AppPart;
    var pr := c.procs[p];
    LocalOf(c, w, view, p);
    SearchQuiet(c, w, view, p);
    var k: nat :| AtPos(w, pr, k);
    ReadBodyLocal(c.idx, pr, p, c.dat, w, view, MapOf(c.log), k);
    hide PosPart;
    ReadBodySteady(c.idx, pr, p, c.dat, w, view, MapOf(c.log));
    hide Local, OnReadBody;
    Finish(c, w, view, p, OnReadBody(c.idx, pr));
  }

  lemma ReadBodySteady(idx: string, pr: Proc, p: nat, dat: string, w: World, view: Map, m: Map)
    requires pr.pc.ReadBody? && Local(OnReadBody(idx, pr), p, dat, w, view, m)
    ensures SameLocks(pr, OnReadBody(idx, pr)) && Grip(pr, OnReadBody(idx, pr))
  {
    hide GetBody, WriterPart, ReaderPart, FreePart, RecPart, AppPart, PosPart, ValidOp;
  }

  lemma GetDataAt(idx: string, dat: string, w: World, x: nat)
    requires Core(idx, dat, w) && x in w.img.recs
    ensures GetData(dat, w.img.recs[x].datoff, w.img.recs[x].datlen) == Some(Contents(dat, w.img.recs[x]))
  {
    hide Laid, Partition;
    var r := w.img.recs[x];
    assert SegIn(dat, r);
    assert dat[r.datoff..r.datoff + r.datlen][..r.datlen - 1] == dat[r.datoff..r.datoff + r.datlen - 1];
  }

  lemma FetchLocal(pr: Proc, p: nat, dat: string, w: World, view: Map, m: Map, k: nat)
    requires pr.pc.FetchData? && OpFits(pr) && Quiet(w, dat, view, m, pr.Chain())
    requires AtPos(w, pr, k) && FoundRec(w, pr)
    ensures Local(pr.Return(Data(Contents(dat, NewRec(pr)))), p, dat, w, view, m)
  {
    hide Links, Contents, Hash, ValidOp;
    HoldsAt(w.img.recs, dat, w.chains[pr.Chain()], view, pr.Chain(), k);
    assert pr.op.key in m && m[pr.op.key] == Contents(dat, NewRec(pr));
  }

  lemma DoFetchData(c: State, w: World, view: Map, p: nat)
    requires At(c, w, view, p) && c.procs[p].pc.FetchData?
    ensures Inv(c.With(p, OnFetchData(c.dat, c.procs[p])), w, view)
  {
    hide Inv, Hash, MapOf, FreeSound, Core, Laid, Shape, OpFits, Quiet, LockTable, Exclusive, AtPos, Contents, GetData;
    hide WriterPart, ReaderPart, FreePart, RecPart, AppPart;
    var pr := c.procs[p];
    LocalOf(c, w, view, p);
    SearchQuiet(c, w, view, p);
    var k: nat :| AtPos(w, pr, k);
    GetDataAt(c.idx, c.dat, w, pr.idxoff);
    FetchLocal(pr, p, c.dat, w, view, MapOf(c.log), k);
    hide PosPart, Local;
    Finish(c, w, view, p, OnFetchData(c.dat, pr));
  }

  // ---------------------------------------------------- deletion, first half

  lemma DoDelLockFree(c: State, w: World, view: Map, p: nat)
    requires At(c, w, view, p) && c.procs[p].pc.DelLockFree?
    ensures var s := Take(c, p, FreeLock, true, c.procs[p].Go(DelBlankData)); s.Some? ==> Inv(s.value, w, view)
  {
    hide Inv, Hash, MapOf, FreeSound, Core, Laid, Shape, LockTable, Exclusive, AtPos, CanLock, Local;
    var pr := c.procs[p];
    LocalOf(c, w, view, p);
    DelLockLocal(pr, p, c.dat, w, view, MapOf(c.log));
    if Take(c, p, FreeLock, true, pr.Go(DelBlankData)).Some? {
      FinishTake(c, w, view, p, FreeLock, true, pr.Go(DelBlankData));
    }
  }

  lemma DelLockLocal(pr: Proc, p: nat, dat: string, w: World, view: Map, m: Map)
    requires pr.pc.DelLockFree? && Local(pr, p, dat, w, view, m)
    ensures Local(pr.Go(DelBlankData), p, dat, w, view, m)
  {
    hide Hash, ChainSound, SameOn, ValidOp;
    var k: nat :| AtPos(w, pr, k);
    AtPosKept(w, pr, pr.Go(DelBlankData), k);
    hide AtPos;
  }

  lemma DelReadLocal(pr: Proc, p: nat, dat: string, w: World, view: Map, m: Map)
    requires pr.pc.DelReadFree? && Local(pr, p, dat, w, view, m) && FREE_OFF in w.img.ptrs
    ensures Local(pr.(pc := DelBlankIdx, freeptr := w.img.ptrs[FREE_OFF]), p, dat, w, view, m)
  {
    hide Hash, ChainSound, SameOn, ValidOp;
  }

  lemma DoDelReadFree(c: State, w: World, view: Map, p: nat)
    requires At(c, w, view, p) && c.procs[p].pc.DelReadFree?
    ensures Inv(c.With(p, OnDelReadFree(c.idx, c.procs[p])), w, view)
  {
    hide Inv, Hash, MapOf, FreeSound, Core, Laid, Shape, LockTable, Exclusive, Local, GetPtr;
    var pr := c.procs[p];
    LocalOf(c, w, view, p);
    ChainSlot(w.img, 0);
    GetPtrAt(c.idx, w.img, FREE_OFF);
    DelReadLocal(pr, p, c.dat, w, view, MapOf(c.log));
    Finish(c, w, view, p, OnDelReadFree(c.idx, pr));
  }

  lemma DelUnlockLocal(pr: Proc, p: nat, dat: string, w: World, view: Map, m: Map)
    requires pr.pc.DelUnlockFree? && Local(pr, p, dat, w, view, m)
    ensures Local(if pr.op.Store? then pr.Go(InsReadHead(false)) else pr.Return(Rc(0)), p, dat, w, view, m)
  {
    hide Hash, ChainSound, SameOn, ValidOp;
  }

  lemma DoDelUnlockFree(c: State, w: World, view: Map, p: nat)
    requires At(c, w, view, p) && c.procs[p].pc.DelUnlockFree?
    ensures var pr := c.procs[p];
            Inv(Drop(c, p, FreeLock, if pr.op.Store? then pr.Go(InsReadHead(false)) else pr.Return(Rc(0))), w, view)
  {
    hide Inv, Hash, MapOf, FreeSound, Core, Laid, Shape, LockTable, Exclusive, Local;
    var pr := c.procs[p];
    LocalOf(c, w, view, p);
    DelUnlockLocal(pr, p, c.dat, w, view, MapOf(c.log));
    FinishDrop(c, w, view, p, FreeLock, if pr.op.Store? then pr.Go(InsReadHead(false)) else pr.Return(Rc(0)));
  }

  // -------------------------------------------------------- free list search

  lemma InsReadLocal(pr: Proc, p: nat, dat: string, w: World, view: Map, m: Map, reuse: bool)
    requires pr.pc.InsReadHead? && Local(pr, p, dat, w, view, m)
    ensures pr.Chain() < |w.chains|
    ensures Local(pr.(pc := if reuse then FreeLockList else AppLockData, head := Head(w.chains[pr.Chain()])),
                  p, dat, w, view, m)
  {
    hide Hash, ChainSound, SameOn, ValidOp;
  }

  lemma DoInsReadHead(c: State, w: World, view: Map, p: nat, reuse: bool)
    requires At(c, w, view, p) && c.procs[p].pc == InsReadHead(reuse)
    ensures Inv(c.With(p, OnInsReadHead(c.idx, c.procs[p], reuse)), w, view)
  {
    hide Inv, Hash, MapOf, FreeSound, Core, Laid, Shape, LockTable, Exclusive, GetPtr, SameOn, ListHolds, ValidOp;
    hide PosPart, FreePart, RecPart, AppPart, ReaderPart;
    hide Links, ChainSound, PhaseOk, WriterPart;
    var pr := c.procs[p];
    LocalOf(c, w, view, p);
    InsLinks(pr, p, c.dat, w, view, MapOf(c.log));
    HeadIs(w.img.ptrs, ChainLoc(pr.Chain()), w.chains[pr.Chain()]);
    GetPtrAt(c.idx, w.img, ChainLoc(pr.Chain()));
    InsReadLocal(pr, p, c.dat, w, view, MapOf(c.log), reuse);
    hide Local, OpFits;
    Finish(c, w, view, p, OnInsReadHead(c.idx, pr, reuse));
  }

  lemma InsLinks(pr: Proc, p: nat, dat: string, w: World, view: Map, m: Map)
    requires pr.pc.InsReadHead? && Local(pr, p, dat, w, view, m)
    ensures pr.Chain() < |w.chains| && Links(w.img.ptrs, ChainLoc(pr.Chain()), w.chains[pr.Chain()])
  {
    hide Hash, SameOn, ValidOp, Links, ListHolds;
  }

  lemma HeadIs(ptrs: map<nat, nat>, loc: nat, list: seq<nat>)
    requires Links(ptrs, loc, list)
    ensures loc in ptrs && ptrs[loc] == Head(list)
  {
  }

  lemma FreeLockLocal(pr: Proc, p: nat, dat: string, w: World, view: Map, m: Map)
    requires pr.pc.FreeLockList? && Local(pr, p, dat, w, view, m)
    ensures Local(pr.(pc := FreeReadHead, saveoff := FREE_OFF), p, dat, w, view, m)
  {
    hide Hash, ChainSound, SameOn, ValidOp;
  }

  lemma DoFreeLockList(c: State, w: World, view: Map, p: nat)
    requires At(c, w, view, p) && c.procs[p].pc.FreeLockList?
    ensures var s := Take(c, p, FreeLock, true, c.procs[p].(pc := FreeReadHead, saveoff := FREE_OFF));
            s.Some? ==> Inv(s.value, w, view)
  {
    hide Inv, Hash, MapOf, FreeSound, Core, Laid, Shape, LockTable, Exclusive, CanLock, Local;
    var pr := c.procs[p];
    LocalOf(c, w, view, p);
    FreeLockLocal(pr, p, c.dat, w, view, MapOf(c.log));
    if Take(c, p, FreeLock, true, pr.(pc := FreeReadHead, saveoff := FREE_OFF)).Some? {
      FinishTake(c, w, view, p, FreeLock, true, pr.(pc := FreeReadHead, saveoff := FREE_OFF));
    }
  }

  predicate FreeSearching(pc: Pc) { pc.FreeReadHead? || pc.FreeReadHdr? || pc.FreeReadBody? }

  /** Moving on to the k-th free record, or past the end of the list. */
  lemma FollowFreeLocal(pr: Proc, p: nat, dat: string, w: World, view: Map, m: Map, pr0: Proc, k: nat, v: nat)
    requires FreeSearching(pr0.pc) && Local(pr0, p, dat, w, view, m)
    requires pr == pr0.(saveoff := pr.saveoff, datoff := pr.datoff, datlen := pr.datlen)
    requires k <= |w.free| && pr.saveoff == Pred(FREE_OFF, w.free, k)
    requires v == if k < |w.free| then w.free[k] else 0
    requires k < |w.free| ==> v > 0
    ensures Local(FollowFree(pr, v), p, dat, w, view, m)
  {
    hide Hash, ChainSound, SameOn, ValidOp, NewRec, NewData, BlankRec, Contents, Printable, HdrRead, AtPos, FoundRec;
    if k < |w.free| { assert AtFree(w, FollowFree(pr, v), k); }
  }

  lemma FreeNext(w: World, k: nat)
    requires FreeSound(w) && k <= |w.free|
    ensures Pred(FREE_OFF, w.free, k) in w.img.ptrs
    ensures w.img.ptrs[Pred(FREE_OFF, w.free, k)] == if k < |w.free| then w.free[k] else 0
    ensures k < |w.free| ==> w.free[k] > 0
  {
    LinksNext(w.img.ptrs, FREE_OFF, w.free, k);
  }

  lemma DoFreeReadHead(c: State, w: World, view: Map, p: nat)
    requires At(c, w, view, p) && c.procs[p].pc.FreeReadHead?
    ensures Inv(c.With(p, OnFreeReadHead(c.idx, c.procs[p])), w, view)
  {
    hide Inv, Hash, MapOf, FreeSound, Core, Laid, Shape, LockTable, Exclusive, GetPtr, ValidOp, OpFits;
    hide PosPart, WriterPart, RecPart, AppPart, ReaderPart;
    var pr := c.procs[p];
    LocalOf(c, w, view, p);
    FreeNext(w, 0);
    GetPtrAt(c.idx, w.img, FREE_OFF);
    FollowFreeLocal(pr, p, c.dat, w, view, MapOf(c.log), pr, 0, w.img.ptrs[FREE_OFF]);
    hide Local, FreePart;
    Finish(c, w, view, p, FollowFree(pr, w.img.ptrs[FREE_OFF]));
  }

  lemma FreeHdrLocal(pr: Proc, p: nat, dat: string, w: World, view: Map, m: Map, pr': Proc, k: nat)
    requires pr.pc.FreeReadHdr? && Local(pr, p, dat, w, view, m) && AtFree(w, pr, k)
    requires pr' == pr.(pc := FreeReadBody, ptrval := pr'.ptrval, idxlen := pr'.idxlen) && HdrRead(w, pr')
    ensures Local(pr', p, dat, w, view, m)
  {
    hide Hash, ChainSound, SameOn, ValidOp, HdrRead;
    assert AtFree(w, pr', k);
  }

  lemma DoFreeReadHdr(c: State, w: World, view: Map, p: nat)
    requires At(c, w, view, p) && c.procs[p].pc.FreeReadHdr?
    ensures Inv(c.With(p, OnReadHdr(c.idx, c.procs[p], FreeReadBody)), w, view)
  {
    hide Inv, Hash, MapOf, FreeSound, Core, Laid, Shape, GetHdr, Body, LockTable, Exclusive;
    hide OpFits, WriterPart, ReaderPart, PosPart, RecPart, AppPart;
    var pr := c.procs[p];
    LocalOf(c, w, view, p);
    var k: nat :| AtFree(w, pr, k);
    FreeMember(c.idx, c.dat, w, k);
    GetHdrAt(c.idx, w.img, pr.idxoff);
    var pr' := OnReadHdr(c.idx, pr, FreeReadBody);
    FreeHdrLocal(pr, p, c.dat, w, view, MapOf(c.log), pr', k);
    hide Local, FreePart;
    Finish(c, w, view, p, pr');
  }

  lemma FreeHitLocal(pr: Proc, p: nat, dat: string, w: World, view: Map, m: Map, k: nat, pr': Proc)
    requires pr.pc.FreeReadBody? && Local(pr, p, dat, w, view, m) && AtFree(w, pr, k) && HdrRead(w, pr)
    requires pr' == pr.(pc := FreeUnlink, datoff := pr'.datoff, datlen := pr'.datlen)
    requires Reusable(pr', w.img.recs[pr.idxoff])
    ensures Local(pr', p, dat, w, view, m)
  {
    hide Hash, ChainSound, SameOn, ValidOp, Body;
    assert AtFree(w, pr', k);
  }

  lemma FreeBodyLocal(idx: string, pr: Proc, p: nat, dat: string, w: World, view: Map, m: Map, k: nat)
    requires Laid(idx, w.img) && FreeSound(w) && pr.pc.FreeReadBody? && Local(pr, p, dat, w, view, m)
    requires AtFree(w, pr, k) && HdrRead(w, pr)
    ensures Local(OnFreeReadBody(idx, pr), p, dat, w, view, m)
  {
    hide Laid, FreeSound, Local, GetBody, Body;
    var r := w.img.recs[pr.idxoff];
    GetBodyAt(idx, w.img, pr.idxoff);
    var pr1 := pr.(datoff := r.datoff, datlen := r.datlen);
    if |r.key| == |pr.op.key| && r.datlen == |NewData(pr.op)| + 1 {
      FreeHitLocal(pr, p, dat, w, view, m, k, pr1.Go(FreeUnlink));
    } else {
      FreeNext(w, k + 1);
      FollowFreeLocal(pr1.(saveoff := pr.idxoff), p, dat, w, view, m, pr, k + 1, pr.ptrval);
    }
  }

  lemma FreeBodySteady(idx: string, pr: Proc, p: nat, dat: string, w: World, view: Map, m: Map)
    requires pr.pc.FreeReadBody? && Local(OnFreeReadBody(idx, pr), p, dat, w, view, m)
    ensures SameLocks(pr, OnFreeReadBody(idx, pr)) && Grip(pr, OnFreeReadBody(idx, pr))
  {
    hide GetBody, WriterPart, ReaderPart, FreePart, RecPart, AppPart, PosPart, ValidOp;
  }

  lemma DoFreeReadBody(c: State, w: World, view: Map, p: nat)
    requires At(c, w, view, p) && c.procs[p].pc.FreeReadBody?
    ensures Inv(c.With(p, OnFreeReadBody(c.idx, c.procs[p])), w, view)
  {
    hide Inv, Hash, MapOf, FreeSound, Core, Laid, Shape, OpFits, LockTable, Exclusive, AtFree, HdrRead, OnFreeReadBody;
    hide WriterPart, ReaderPart, PosPart, RecPart, AppPart;
    var pr := c.procs[p];
    LocalOf(c, w, view, p);
    var k: nat :| AtFree(w, pr, k);
    FreeBodyLocal(c.idx, pr, p, c.dat, w, view, MapOf(c.log), k);
    hide FreePart, Local;
    FreeBodySteady(c.idx, pr, p, c.dat, w, view, MapOf(c.log));
    Finish(c, w, view, p, OnFreeReadBody(c.idx, pr));
  }

  lemma FreeUnlockLocal(pr: Proc, p: nat, dat: string, w: World, view: Map, m: Map)
    requires pr.pc.FreeUnlock? && Local(pr, p, dat, w, view, m)
    ensures Local(pr.Go(if pr.pc.hit then ReuseData else AppLockData), p, dat, w, view, m)
  {
    hide Hash, ChainSound, SameOn, ValidOp;
  }

  lemma DoFreeUnlock(c: State, w: World, view: Map, p: nat)
    requires At(c, w, view, p) && c.procs[p].pc.FreeUnlock?
    ensures var pr := c.procs[p];
            Inv(Drop(c, p, FreeLock, pr.Go(if pr.pc.hit then ReuseData else AppLockData)), w, view)
  {
    hide Inv, Hash, MapOf, FreeSound, Core, Laid, Shape, LockTable, Exclusive, Local;
    var pr := c.procs[p];
    LocalOf(c, w, view, p);
    FreeUnlockLocal(pr, p, c.dat, w, view, MapOf(c.log));
    FinishDrop(c, w, view, p, FreeLock, pr.Go(if pr.pc.hit then ReuseData else AppLockData));
  }

  // --------------------------------------------------------------- appending

  lemma LockDataLocal(pr: Proc, p: nat, dat: string, w: World, view: Map, m: Map)
    requires Local(pr, p, dat, w, view, m) && pr.pc.AppLockData?
    ensures Local(pr.Go(AppSizeData), p, dat, w, view, m)
  {
    hide Hash, ChainSound, SameOn, ValidOp;
  }

  lemma SizeDataLocal(pr: Proc, p: nat, dat: string, w: World, view: Map, m: Map)
    requires Local(pr, p, dat, w, view, m) && pr.pc.AppSizeData?
    ensures Local(OnSizeData(dat, pr), p, dat, w, view, m)
  {
    hide Hash, ChainSound, SameOn, ValidOp;
  }

  lemma UnlockDataLocal(pr: Proc, p: nat, dat: string, w: World, view: Map, m: Map)
    requires Local(pr, p, dat, w, view, m) && pr.pc.AppUnlockData? && Printable(NewRec(pr))
    ensures Local(pr.Go(AppLockIdx), p, dat, w, view, m)
  {
    hide Hash, ChainSound, SameOn, ValidOp;
  }

  lemma LockIdxLocal(pr: Proc, p: nat, dat: string, w: World, view: Map, m: Map)
    requires Local(pr, p, dat, w, view, m) && pr.pc.AppLockIdx?
    ensures Local(pr.Go(AppSizeIdx), p, dat, w, view, m)
  {
    hide Hash, ChainSound, SameOn, ValidOp;
  }

  lemma SizeIdxLocal(pr: Proc, p: nat, dat: string, w: World, view: Map, m: Map)
    requires Local(pr, p, dat, w, view, m) && pr.pc.AppSizeIdx?
    ensures Local(pr.(pc := AppWriteIdx, idxoff := w.img.end), p, dat, w, view, m)
  {
    hide Hash, ChainSound, SameOn, ValidOp;
  }

  lemma UnlockIdxLocal(pr: Proc, p: nat, dat: string, w: World, view: Map, m: Map)
    requires Local(pr, p, dat, w, view, m) && pr.pc.AppUnlockIdx? && pr.idxoff <= PTR_MAX
    ensures Local(pr.Go(LinkHead), p, dat, w, view, m)
  {
    hide Hash, ChainSound, SameOn, ValidOp;
  }

  lemma DoAppLockData(c: State, w: World, view: Map, p: nat)
    requires At(c, w, view, p) && c.procs[p].pc.AppLockData?
    ensures var s := Take(c, p, DataLock, true, c.procs[p].Go(AppSizeData)); s.Some? ==> Inv(s.value, w, view)
  {
    hide Inv, Hash, MapOf, FreeSound, Core, Laid, Shape, LockTable, Exclusive, CanLock, Local;
    var pr := c.procs[p];
    LocalOf(c, w, view, p);
    LockDataLocal(pr, p, c.dat, w, view, MapOf(c.log));
    if Take(c, p, DataLock, true, pr.Go(AppSizeData)).Some? {
      FinishTake(c, w, view, p, DataLock, true, pr.Go(AppSizeData));
    }
  }

  lemma DoAppLockIdx(c: State, w: World, view: Map, p: nat)
    requires At(c, w, view, p) && c.procs[p].pc.AppLockIdx?
    ensures var s := Take(c, p, IndexLock, true, c.procs[p].Go(AppSizeIdx)); s.Some? ==> Inv(s.value, w, view)
  {
    hide Inv, Hash, MapOf, FreeSound, Core, Laid, Shape, LockTable, Exclusive, CanLock, Local;
    var pr := c.procs[p];
    LocalOf(c, w, view, p);
    LockIdxLocal(pr, p, c.dat, w, view, MapOf(c.log));
    if Take(c, p, IndexLock, true, pr.Go(AppSizeIdx)).Some? {
      FinishTake(c, w, view, p, IndexLock, true, pr.Go(AppSizeIdx));
    }
  }

  lemma DoAppSizeData(c: State, w: World, view: Map, p: nat)
    requires At(c, w, view, p) && c.procs[p].pc.AppSizeData?
    ensures Inv(c.With(p, OnSizeData(c.dat, c.procs[p])), w, view)
  {
    hide Inv, Hash, MapOf, FreeSound, Core, Laid, Shape, LockTable, Exclusive, Local;
    LocalOf(c, w, view, p);
    SizeDataLocal(c.procs[p], p, c.dat, w, view, MapOf(c.log));
    Finish(c, w, view, p, OnSizeData(c.dat, c.procs[p]));
  }

  lemma DoAppSizeIdx(c: State, w: World, view: Map, p: nat)
    requires At(c, w, view, p) && c.procs[p].pc.AppSizeIdx?
    ensures Inv(c.With(p, c.procs[p].(pc := AppWriteIdx, idxoff := |c.idx|)), w, view)
  {
    hide Inv, Hash, MapOf, FreeSound, Core, Shape, LockTable, Exclusive, Local, PtrAt, RecAt;
    LocalOf(c, w, view, p);
    SizeIdxLocal(c.procs[p], p, c.dat, w, view, MapOf(c.log));
    Finish(c, w, view, p, c.procs[p].(pc := AppWriteIdx, idxoff := |c.idx|));
  }

  lemma DoAppUnlockData(c: State, w: World, view: Map, p: nat)
    requires At(c, w, view, p) && c.procs[p].pc.AppUnlockData? && Printable(NewRec(c.procs[p]))
    ensures Inv(Drop(c, p, DataLock, c.procs[p].Go(AppLockIdx)), w, view)
  {
    hide Inv, Hash, MapOf, FreeSound, Core, Laid, Shape, LockTable, Exclusive, Local, Printable;
    LocalOf(c, w, view, p);
    UnlockDataLocal(c.procs[p], p, c.dat, w, view, MapOf(c.log));
    FinishDrop(c, w, view, p, DataLock, c.procs[p].Go(AppLockIdx));
  }

  lemma DoAppUnlockIdx(c: State, w: World, view: Map, p: nat)
    requires At(c, w, view, p) && c.procs[p].pc.AppUnlockIdx? && c.procs[p].idxoff <= PTR_MAX
    ensures Inv(Drop(c, p, IndexLock, c.procs[p].Go(LinkHead)), w, view)
  {
    hide Inv, Hash, MapOf, FreeSound, Core, Laid, Shape, LockTable, Exclusive, Local;
    LocalOf(c, w, view, p);
    UnlockIdxLocal(c.procs[p], p, c.dat, w, view, MapOf(c.log));
    FinishDrop(c, w, view, p, IndexLock, c.procs[p].Go(LinkHead));
  }
}
