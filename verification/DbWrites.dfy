/** The steps of the library that write to the files or finish a call. */
module DbWrites {
  import opened Options
  import opened DbFormat
  import opened DbLayout
  import opened DbWorld
  import opened DbMoves
  import opened DbSpec
  import opened DbProtocol
  import opened DbInvariant
  import opened DbSerial
  import opened DbSteps

  /** A change within a smaller authority is one within a larger. */
  lemma PermitMore(a: Auth, a': Auth, w: World, dat: string, view: Map, w': World, dat': string, view': Map)
    requires Permitted(a, w, dat, view, w', dat', view')
    requires a'.p == a.p && (a.chain.None? || a.chain == a'.chain)
    requires (a.free ==> a'.free) && (a.data ==> a'.data) && (a.index ==> a'.index)
    ensures Permitted(a', w, dat, view, w', dat', view')
  {
    hide ChainSame, FreeSame, HandsSame, FlightSame, SameOn;
  }

  /** A write under the locks p has. */
  lemma FinishWrite(c: State, w: World, view: Map, c': State, w': World, view': Map, p: nat, pr': Proc)
    requires At(c, w, view, p) && c'.procs == c.procs[p := pr'] && c'.locks == c.locks && c'.log == c.log
    requires SameLocks(c.procs[p], pr') && Writes(c.procs[p])
    requires Core(c'.idx, c'.dat, w') && FreeSound(w')
    requires Permitted(AuthOf(p, c.procs[p]), w, c.dat, view, w', c'.dat, view')
    requires Local(pr', p, c'.dat, w', view', MapOf(c.log)) && OwnHands(p, pr', w')
    ensures Inv(c', w', view')
  {
    hide Core, FreeSound, Local, LockTable, Exclusive, Quiet, OwnHands, Serial, SameOn, Hash, MapOf, Owners, Permitted;
    hide Locals, QuietChains;
    LocksKept(c, c', p, pr');
    forall j ensures SameOn(j, MapOf(c.log), MapOf(c'.log)) { SameRefl(j, MapOf(c.log)); }
    Assemble(c, w, view, c', w', view', p, pr');
  }

  lemma HandsOf(c: State, w: World, view: Map, p: nat)
    requires At(c, w, view, p)
    ensures OwnHands(p, c.procs[p], w)
  {
    hide Core, FreeSound, LockTable, Exclusive, Serial, MapOf, Locals, QuietChains;
  }

  lemma FreeKept(w: World, dat: string, w': World, dat': string)
    requires FreeSound(w) && FreeSame(w, dat, w', dat')
    ensures FreeSound(w')
  {
    hide Contents, AllBlank;
    LinksFrame(w.img.ptrs, w'.img.ptrs, FREE_OFF, w.free);
    forall i | 0 <= i < |w'.free| ensures w'.free[i] in w'.img.recs && AllBlank(w'.img.recs[w'.free[i]].key) {
      assert RecSame(w, dat, w', dat', w.free[i]);
    }
  }

  lemma SamePut(h: nat, a: Map, b: Map, k: string, d: string)
    requires SameOn(h, a, b) || SameOn(h, a, b - {k})
    ensures SameOn(h, a[k := d], b[k := d]) && SameOn(h, a - {k}, b - {k})
  {
    hide Hash;
  }

  // ------------------------------------------------- overwriting in place

  lemma OverwriteLocal(pr: Proc, p: nat, dat: string, w: World, view: Map, m: Map, dat': string)
    requires pr.pc.OverwriteData? && Local(pr, p, dat, w, view, m)
    requires pr.Chain() < |w.chains| && ChainSound(w, dat', view[pr.op.key := NewData(pr.op)], pr.Chain())
    ensures Local(pr.Return(Rc(0)), p, dat', w, view[pr.op.key := NewData(pr.op)], m)
  {
    hide Hash, ChainSound, SameOn, ValidOp, FoundRec, AtPos;
    SamePut(pr.Chain(), view, m, pr.op.key, NewData(pr.op));
  }

  lemma DoOverwriteData(c: State, w: World, view: Map, p: nat) returns (view': Map)
    requires At(c, w, view, p) && c.procs[p].pc.OverwriteData?
    ensures var pr := c.procs[p];
            Inv(PutDat(c, pr.datoff, NewData(pr.op) + "\n", p, pr.Return(Rc(0))), w, view')
  {
    hide Inv, Hash, MapOf, FreeSound, Core, Laid, Shape, LockTable, Exclusive, Splice, Permitted;
    hide ReaderPart, FreePart, RecPart, AppPart, Quiet, ChainSound;
    var pr := c.procs[p];
    var data := NewData(pr.op);
    LocalOf(c, w, view, p);
    var k: nat :| AtPos(w, pr, k);
    view' := view[pr.op.key := data];
    MoveOverwrite(c.idx, c.dat, w, view, p, pr.Chain(), k, data);
    var c' := PutDat(c, pr.datoff, data + "\n", p, pr.Return(Rc(0)));
    OverwriteLocal(pr, p, c.dat, w, view, MapOf(c.log), c'.dat);
    HandsOf(c, w, view, p);
    hide Local, WriterPart, PosPart, OpFits, AtPos;
    FinishWrite(c, w, view, c', w, view', p, pr.Return(Rc(0)));
  }

  // --------------------------------------------------------------- deleting

  lemma PointedTo(ptrs: map<nat, nat>, loc: nat, list: seq<nat>, k: nat)
    requires Links(ptrs, loc, list) && k < |list|
    requires forall x :: x in ptrs ==> ptrs[x] <= PTR_MAX
    ensures list[k] <= PTR_MAX && list[k] in ptrs && ptrs[list[k]] <= PTR_MAX
  {
    LinksNext(ptrs, loc, list, k);
  }

  lemma PtrBounds(g: Image)
    requires Shape(g)
    ensures forall x :: x in g.ptrs ==> g.ptrs[x] <= PTR_MAX
  {
    hide Sized, Tiled;
  }

  lemma UnlinkLocal(pr: Proc, p: nat, dat: string, w: World, view: Map, m: Map, dat': string, k: nat)
    requires pr.pc.DelBlankData? && Local(pr, p, dat, w, view, m) && AtPos(w, pr, k) && pr.idxoff <= PTR_MAX
    requires pr.ptrval <= PTR_MAX
    requires ChainSound(w.Unlink(pr.Chain(), k, p).SetPtr(pr.ptroff, pr.ptrval), dat', view - {pr.op.key}, pr.Chain())
    ensures Local(pr.Go(DelReadFree), p, dat', w.Unlink(pr.Chain(), k, p), view - {pr.op.key}, m)
  {
    hide Hash, ChainSound, SameOn, ValidOp;
    SamePut(pr.Chain(), view, m, pr.op.key, "");
    var list := w.chains[pr.Chain()];
    assert k > 0 ==> RemoveAt(list, k)[k - 1] == list[k - 1];
  }

  lemma UnlinkHands(c: State, w: World, view: Map, p: nat, h: nat, k: nat, pr': Proc)
    requires At(c, w, view, p) && !HoldsRec(c.procs[p].pc) && !InFlight(c.procs[p].pc)
    requires h < |w.chains| && k < |w.chains[h]| && HoldsRec(pr'.pc) && pr'.idxoff == w.chains[h][k]
    ensures OwnHands(p, pr', w.Unlink(h, k, p))
  {
    hide Inv;
    HandsOf(c, w, view, p);
  }

  lemma FoundAt(c: State, w: World, view: Map, p: nat) returns (k: nat)
    requires At(c, w, view, p) && c.procs[p].pc.DelBlankData?
    ensures var pr := c.procs[p];
            && AtPos(w, pr, k) && ChainSound(w, c.dat, view, pr.Chain())
            && pr.idxoff in w.img.recs && w.img.recs[pr.idxoff] == Rec(pr.op.key, pr.datoff, pr.datlen)
            && pr.datlen > 0 && pr.idxoff <= PTR_MAX && AuthOf(p, pr).chain == Some(pr.Chain())
            && pr.idxoff in w.img.ptrs && w.img.ptrs[pr.idxoff] == pr.ptrval <= PTR_MAX
  {
    hide Inv, Hash, MapOf, Core, Laid, Shape, LockTable, Exclusive, FreeSound;
    hide ReaderPart, FreePart, RecPart, AppPart, Quiet, ListHolds, SameOn;
    var pr := c.procs[p];
    LocalOf(c, w, view, p);
    k :| AtPos(w, pr, k);
    var h := pr.Chain();
    assert ChainSound(w, c.dat, view, h);
    RecHasData(c.idx, c.dat, w, pr.idxoff);
    PtrBounds(w.img);
    PointedTo(w.img.ptrs, ChainLoc(h), w.chains[h], k);
  }

  lemma DoDelBlankData(c: State, w: World, view: Map, p: nat) returns (w': World, view': Map)
    requires At(c, w, view, p) && c.procs[p].pc.DelBlankData?
    ensures c.procs[p].datlen > 0
    ensures var pr := c.procs[p];
            Inv(PutDat(c, pr.datoff, Blanks(pr.datlen - 1) + "\n", p, pr.Go(DelReadFree)), w', view')
  {
    hide Inv, Hash, MapOf, Core, Laid, Shape, LockTable, Exclusive, Splice, Permitted, ChainSound, Links;
    hide ReaderPart, FreePart, RecPart, AppPart, Quiet, ListHolds, SameOn, Local, WriterPart, PosPart, OpFits;
    var pr := c.procs[p];
    LocalOf(c, w, view, p);
    var k := FoundAt(c, w, view, p);
    var h := pr.Chain();
    var data := Blanks(pr.datlen - 1);
    w', view' := w.Unlink(h, k, p), view - {pr.op.key};
    MoveUnlink(c.idx, c.dat, w, view, p, h, k, data);
    var c' := PutDat(c, pr.datoff, data + "\n", p, pr.Go(DelReadFree));
    UnlinkLocal(pr, p, c.dat, w, view, MapOf(c.log), c'.dat, k);
    UnlinkHands(c, w, view, p, h, k, pr.Go(DelReadFree));
    assert FreeSound(w');
    hide AtPos, OwnHands, FreeSound, RemoveAt;
    PermitMore(Auth(p, Some(h), false, false, false), AuthOf(p, pr), w, c.dat, view, w', c'.dat, view');
    FinishWrite(c, w, view, c', w', view', p, pr.Go(DelReadFree));
  }

  lemma RecHasData(idx: string, dat: string, w: World, x: nat)
    requires Core(idx, dat, w) && x in w.img.recs
    ensures w.img.recs[x].datlen > 0 && ValidRec(w.img.recs[x])
  {
    hide Partition, Segs;
  }

  lemma BlankLocal(pr: Proc, p: nat, dat: string, w: World, view: Map, m: Map, w': World)
    requires pr.pc.DelBlankIdx? && Local(pr, p, dat, w, view, m)
    requires w' == w.SetRec(pr.idxoff, pr.freeptr, BlankRec(pr)) && pr.idxoff != FREE_OFF
    requires WriterPart(pr, dat, w', view, m)
    ensures Local(pr.Go(DelWriteFree), p, dat, w', view, m)
  {
    hide Hash, ChainSound, SameOn, ValidOp, Blanks;
  }

  lemma DoDelBlankIdx(c: State, w: World, view: Map, p: nat) returns (w': World)
    requires At(c, w, view, p) && c.procs[p].pc.DelBlankIdx?
    ensures var pr := c.procs[p];
            Inv(PutRec(c, pr.idxoff, pr.freeptr, BlankRec(pr), p, pr.Go(DelWriteFree)), w', view)
  {
    hide Inv, Hash, MapOf, Core, Laid, Shape, LockTable, Exclusive, Splice, RecBytes, FreeSound;
    hide ReaderPart, WriterPart, PosPart, AppPart, Quiet, OpFits, Body, ValidKey;
    hide HandsSame, FlightSame, SizesSame, FreeSame, ChainSame, SameOn;
    var pr := c.procs[p];
    var x := pr.idxoff;
    LocalOf(c, w, view, p);
    WriterOf(pr, p, c.dat, w, view, MapOf(c.log));
    RecHasData(c.idx, c.dat, w, x);
    SameLengthKey(w.img.recs[x], Blanks(|pr.op.key|));
    BlankKeyValid(|pr.op.key|);
    assert w.img.recs[x].(key := Blanks(|pr.op.key|)) == BlankRec(pr);
    PtrBounds(w.img);
    RecsHavePtrs(c.idx, c.dat, w);
    w' := w.SetRec(x, pr.freeptr, BlankRec(pr));
    MoveRewrite(c.idx, c.dat, w, view, p, x, pr.freeptr, BlankRec(pr));
    var c' := PutRec(c, x, pr.freeptr, BlankRec(pr), p, pr.Go(DelWriteFree));
    OwnChainKept(pr, p, c.dat, w, view, MapOf(c.log), c.dat, w');
    BlankLocal(pr, p, c.dat, w, view, MapOf(c.log), w');
    HandsOf(c, w, view, p);
    FreeKept(w, c.dat, w', c.dat);
    hide Local, RecPart, FreePart;
    PermitMore(Auth(p, None, false, false, false), AuthOf(p, pr), w, c.dat, view, w', c'.dat, view);
    hide Permitted;
    FinishWrite(c, w, view, c', w', view, p, pr.Go(DelWriteFree));
  }

  lemma BlankKeyValid(n: nat)
    ensures ValidKey(Blanks(n))
  {
  }

  /** What p does outside its chain leaves its own chain alone. */
  lemma OwnChainKept(pr: Proc, p: nat, dat: string, w: World, view: Map, m: Map, dat': string, w': World)
    requires WriterPart(pr, dat, w, view, m)
    requires forall j :: 0 <= j < NHASH ==> ChainSame(w, dat, w', dat', j)
    ensures WriterPart(pr, dat', w', view, m)
  {
    hide WriterPart, SameOn, ChainSame, Hash;
    SameRefl(pr.Chain(), m);
    SameRefl(pr.Chain(), view);
    WriterFrame(pr, dat, w, view, m, dat', w', view, m);
  }

  lemma PushFreeLocal(pr: Proc, p: nat, dat: string, w: World, view: Map, m: Map, w': World)
    requires pr.pc.DelWriteFree? && Local(pr, p, dat, w, view, m) && WriterPart(pr, dat, w', view, m)
    ensures Local(pr.Go(DelWritePred), p, dat, w', view, m)
  {
    hide Hash, ChainSound, SameOn, ValidOp;
  }

  lemma DoDelWriteFree(c: State, w: World, view: Map, p: nat) returns (w': World)
    requires At(c, w, view, p) && c.procs[p].pc.DelWriteFree?
    ensures var pr := c.procs[p];
            Inv(PutPtr(c, FREE_OFF, pr.idxoff, p, pr.Go(DelWritePred)), w', view)
  {
    hide Inv, Hash, MapOf, Core, Laid, Shape, LockTable, Exclusive, Splice, Pad, FreeSound;
    hide ReaderPart, WriterPart, PosPart, AppPart, Quiet, OpFits;
    hide HandsSame, FlightSame, SizesSame, FreeSame, ChainSame, SameOn;
    var pr := c.procs[p];
    var x := pr.idxoff;
    LocalOf(c, w, view, p);
    WriterOf(pr, p, c.dat, w, view, MapOf(c.log));
    w' := w.PushFree(x).SetPtr(FREE_OFF, x);
    MovePushFree(c.idx, c.dat, w, view, p, x);
    var c' := PutPtr(c, FREE_OFF, x, p, pr.Go(DelWritePred));
    OwnChainKept(pr, p, c.dat, w, view, MapOf(c.log), c.dat, w');
    PushFreeLocal(pr, p, c.dat, w, view, MapOf(c.log), w');
    HandsOf(c, w, view, p);
    hide Local, RecPart, FreePart;
    PermitMore(Auth(p, None, true, false, false), AuthOf(p, pr), w, c.dat, view, w', c'.dat, view);
    hide Permitted;
    FinishWrite(c, w, view, c', w', view, p, pr.Go(DelWritePred));
  }

  lemma SetPredLocal(pr: Proc, p: nat, dat: string, w: World, view: Map, m: Map)
    requires pr.pc.DelWritePred? && Local(pr, p, dat, w, view, m)
    ensures Local(pr.Go(DelUnlockFree), p, dat, w.SetPtr(pr.ptroff, pr.ptrval), view, m)
  {
    hide Hash, ChainSound, SameOn, ValidOp;
  }

  lemma DoDelWritePred(c: State, w: World, view: Map, p: nat) returns (w': World)
    requires At(c, w, view, p) && c.procs[p].pc.DelWritePred?
    ensures var pr := c.procs[p];
            Inv(PutPtr(c, pr.ptroff, pr.ptrval, p, pr.Go(DelUnlockFree)), w', view)
  {
    hide Inv, Hash, MapOf, Core, Laid, Shape, LockTable, Exclusive, Splice, Pad, FreeSound;
    hide ReaderPart, FreePart, PosPart, AppPart, Quiet, OpFits, ChainSound, PhaseOk;
    hide HandsSame, FlightSame, SizesSame, FreeSame, ChainSame, SameOn, OtherChainsSame;
    var pr := c.procs[p];
    LocalOf(c, w, view, p);
    WriterOf(pr, p, c.dat, w, view, MapOf(c.log));
    w' := w.SetPtr(pr.ptroff, pr.ptrval);
    MoveSetPtr(c.idx, c.dat, w, view, p, pr.Chain(), pr.ptroff, pr.ptrval);
    var c' := PutPtr(c, pr.ptroff, pr.ptrval, p, pr.Go(DelUnlockFree));
    SetPredLocal(pr, p, c.dat, w, view, MapOf(c.log));
    HandsOf(c, w, view, p);
    FreeKept(w, c.dat, w', c.dat);
    hide Local, RecPart, WriterPart;
    PermitMore(Auth(p, Some(pr.Chain()), false, false, false), AuthOf(p, pr), w, c.dat, view, w', c'.dat, view);
    hide Permitted;
    FinishWrite(c, w, view, c', w', view, p, pr.Go(DelUnlockFree));
  }

  // --------------------------------------------------- reusing a free record

  lemma PopLocal(pr: Proc, p: nat, dat: string, w: World, view: Map, m: Map, k: nat, w': World)
    requires pr.pc.FreeUnlink? && Local(pr, p, dat, w, view, m) && AtFree(w, pr, k)
    requires w' == w.PopFree(k, p).SetPtr(pr.saveoff, pr.ptrval) && pr.idxoff <= PTR_MAX
    requires WriterPart(pr, dat, w', view, m)
    ensures Local(pr.Go(FreeUnlock(true)), p, dat, w', view, m)
  {
    hide Hash, ChainSound, SameOn, ValidOp;
  }

  lemma FreeBounds(w: World, k: nat)
    requires Shape(w.img) && FreeSound(w) && k < |w.free|
    ensures w.free[k] <= PTR_MAX && w.free[k] in w.img.ptrs && w.img.ptrs[w.free[k]] <= PTR_MAX
  {
    hide Shape, AllBlank;
    PtrBounds(w.img);
    PointedTo(w.img.ptrs, FREE_OFF, w.free, k);
  }

  lemma DoFreeUnlink(c: State, w: World, view: Map, p: nat) returns (w': World)
    requires At(c, w, view, p) && c.procs[p].pc.FreeUnlink?
    ensures var pr := c.procs[p];
            Inv(PutPtr(c, pr.saveoff, pr.ptrval, p, pr.Go(FreeUnlock(true))), w', view)
  {
    hide Inv, Hash, MapOf, Core, Laid, Shape, LockTable, Exclusive, Splice, Pad, FreeSound;
    hide ReaderPart, WriterPart, PosPart, AppPart, RecPart, Quiet, OpFits;
    hide HandsSame, FlightSame, SizesSame, FreeSame, ChainSame, SameOn;
    var pr := c.procs[p];
    LocalOf(c, w, view, p);
    WriterOf(pr, p, c.dat, w, view, MapOf(c.log));
    var k: nat :| AtFree(w, pr, k);
    FreeBounds(w, k);
    w' := w.PopFree(k, p).SetPtr(pr.saveoff, pr.ptrval);
    MovePopFree(c.idx, c.dat, w, view, p, k);
    var c' := PutPtr(c, pr.saveoff, pr.ptrval, p, pr.Go(FreeUnlock(true)));
    OwnChainKept(pr, p, c.dat, w, view, MapOf(c.log), c.dat, w');
    PopLocal(pr, p, c.dat, w, view, MapOf(c.log), k, w');
    HandsOf(c, w, view, p);
    hide Local, FreePart;
    PermitMore(Auth(p, None, true, false, false), AuthOf(p, pr), w, c.dat, view, w', c'.dat, view);
    hide Permitted;
    FinishWrite(c, w, view, c', w', view, p, pr.Go(FreeUnlock(true)));
  }

  lemma FillLocal(pr: Proc, p: nat, dat: string, w: World, view: Map, m: Map, dat': string)
    requires pr.pc.ReuseData? && Local(pr, p, dat, w, view, m) && WriterPart(pr, dat', w, view, m)
    requires Contents(dat', w.img.recs[pr.idxoff]) == NewData(pr.op)
    ensures Local(pr.Go(ReuseIdx), p, dat', w, view, m)
  {
    hide Hash, ChainSound, SameOn, ValidOp, Contents;
  }

  lemma DoReuseData(c: State, w: World, view: Map, p: nat)
    requires At(c, w, view, p) && c.procs[p].pc.ReuseData?
    ensures var pr := c.procs[p];
            Inv(PutDat(c, pr.datoff, NewData(pr.op) + "\n", p, pr.Go(ReuseIdx)), w, view)
  {
    hide Inv, Hash, MapOf, Core, Laid, Shape, LockTable, Exclusive, Splice, FreeSound, Contents;
    hide ReaderPart, WriterPart, PosPart, AppPart, FreePart, Quiet, OpFits;
    hide HandsSame, FlightSame, SizesSame, FreeSame, ChainSame, SameOn;
    var pr := c.procs[p];
    LocalOf(c, w, view, p);
    WriterOf(pr, p, c.dat, w, view, MapOf(c.log));
    MoveFill(c.idx, c.dat, w, view, p, pr.idxoff, NewData(pr.op));
    var c' := PutDat(c, pr.datoff, NewData(pr.op) + "\n", p, pr.Go(ReuseIdx));
    OwnChainKept(pr, p, c.dat, w, view, MapOf(c.log), c'.dat, w);
    FillLocal(pr, p, c.dat, w, view, MapOf(c.log), c'.dat);
    HandsOf(c, w, view, p);
    hide Local, RecPart;
    PermitMore(Auth(p, None, false, false, false), AuthOf(p, pr), w, c.dat, view, w, c'.dat, view);
    hide Permitted;
    FinishWrite(c, w, view, c', w, view, p, pr.Go(ReuseIdx));
  }

  lemma ReuseLocal(pr: Proc, p: nat, dat: string, w: World, view: Map, m: Map, w': World)
    requires pr.pc.ReuseIdx? && Local(pr, p, dat, w, view, m) && WriterPart(pr, dat, w', view, m)
    requires w' == w.SetRec(pr.idxoff, pr.head, NewRec(pr))
    ensures Local(pr.Go(LinkHead), p, dat, w', view, m)
  {
    hide Hash, ChainSound, SameOn, ValidOp;
  }

  lemma HeadBound(pr: Proc, dat: string, w: World, view: Map, m: Map)
    requires Writes(pr) && WriterPart(pr, dat, w, view, m) && HeadKnown(pr.pc) && PosPart(pr, w)
    requires forall x :: x in w.img.ptrs ==> w.img.ptrs[x] <= PTR_MAX
    ensures pr.head <= PTR_MAX
  {
    hide PhaseOk, Hash, ListHolds;
  }

  lemma DoReuseIdx(c: State, w: World, view: Map, p: nat) returns (w': World)
    requires At(c, w, view, p) && c.procs[p].pc.ReuseIdx?
    ensures var pr := c.procs[p];
            Inv(PutRec(c, pr.idxoff, pr.head, NewRec(pr), p, pr.Go(LinkHead)), w', view)
  {
    hide Inv, Hash, MapOf, Core, Laid, Shape, LockTable, Exclusive, Splice, RecBytes, FreeSound;
    hide ReaderPart, WriterPart, PosPart, AppPart, FreePart, Quiet, Body, ValidKey, Contents;
    hide HandsSame, FlightSame, SizesSame, FreeSame, ChainSame, SameOn;
    var pr := c.procs[p];
    var x := pr.idxoff;
    LocalOf(c, w, view, p);
    WriterOf(pr, p, c.dat, w, view, MapOf(c.log));
    assert ValidKey(pr.op.key);
    hide OpFits;
    RecHasData(c.idx, c.dat, w, x);
    SameLengthKey(w.img.recs[x], pr.op.key);
    assert w.img.recs[x].(key := pr.op.key) == NewRec(pr);
    PtrBounds(w.img);
    HeadBound(pr, c.dat, w, view, MapOf(c.log));
    w' := w.SetRec(x, pr.head, NewRec(pr));
    MoveRewrite(c.idx, c.dat, w, view, p, x, pr.head, NewRec(pr));
    var c' := PutRec(c, x, pr.head, NewRec(pr), p, pr.Go(LinkHead));
    OwnChainKept(pr, p, c.dat, w, view, MapOf(c.log), c.dat, w');
    ReuseLocal(pr, p, c.dat, w, view, MapOf(c.log), w');
    HandsOf(c, w, view, p);
    FreeKept(w, c.dat, w', c.dat);
    hide Local, RecPart;
    PermitMore(Auth(p, None, false, false, false), AuthOf(p, pr), w, c.dat, view, w', c'.dat, view);
    hide Permitted;
    FinishWrite(c, w, view, c', w', view, p, pr.Go(LinkHead));
  }

  // --------------------------------------------------------------- appending

  lemma AppendDataLocal(pr: Proc, p: nat, dat: string, w: World, view: Map, m: Map, dat': string, w': World)
    requires pr.pc.AppWriteData? && Local(pr, p, dat, w, view, m) && WriterPart(pr, dat', w', view, m)
    requires w' == w.AppendSeg(p, NewRec(pr)) && Contents(dat', NewRec(pr)) == NewData(pr.op)
    ensures Local(pr.Go(AppUnlockData), p, dat', w', view, m)
  {
    hide Hash, ChainSound, SameOn, ValidOp, Contents;
  }

  lemma DoAppWriteData(c: State, w: World, view: Map, p: nat) returns (w': World)
    requires At(c, w, view, p) && c.procs[p].pc.AppWriteData?
    ensures var pr := c.procs[p];
            Inv(PutDat(c, pr.datoff, NewData(pr.op) + "\n", p, pr.Go(AppUnlockData)), w', view)
  {
    hide Inv, Hash, MapOf, Core, Laid, Shape, LockTable, Exclusive, Splice, FreeSound, Contents;
    hide ReaderPart, WriterPart, PosPart, RecPart, FreePart, Quiet, OpFits;
    hide HandsSame, FlightSame, SizesSame, FreeSame, ChainSame, SameOn;
    var pr := c.procs[p];
    LocalOf(c, w, view, p);
    WriterOf(pr, p, c.dat, w, view, MapOf(c.log));
    HandsOf(c, w, view, p);
    w' := w.AppendSeg(p, NewRec(pr));
    MoveAppendData(c.idx, c.dat, w, view, p, NewRec(pr), NewData(pr.op));
    var c' := PutDat(c, pr.datoff, NewData(pr.op) + "\n", p, pr.Go(AppUnlockData));
    OwnChainKept(pr, p, c.dat, w, view, MapOf(c.log), c'.dat, w');
    AppendDataLocal(pr, p, c.dat, w, view, MapOf(c.log), c'.dat, w');
    FreeKept(w, c.dat, w', c'.dat);
    hide Local, AppPart;
    PermitMore(Auth(p, None, false, true, false), AuthOf(p, pr), w, c.dat, view, w', c'.dat, view);
    hide Permitted;
    FinishWrite(c, w, view, c', w', view, p, pr.Go(AppUnlockData));
  }

  lemma AppendIdxLocal(pr: Proc, p: nat, dat: string, w: World, view: Map, m: Map, w': World)
    requires pr.pc.AppWriteIdx? && Local(pr, p, dat, w, view, m) && WriterPart(pr, dat, w', view, m)
    requires w' == w.AppendRec(p, pr.head, NewRec(pr))
    ensures Local(pr.Go(AppUnlockIdx), p, dat, w', view, m)
  {
    hide Hash, ChainSound, SameOn, ValidOp, Contents, Printable, RecSize;
  }

  lemma DoAppWriteIdx(c: State, w: World, view: Map, p: nat) returns (w': World)
    requires At(c, w, view, p) && c.procs[p].pc.AppWriteIdx?
    ensures var pr := c.procs[p];
            Inv(PutRec(c, pr.idxoff, pr.head, NewRec(pr), p, pr.Go(AppUnlockIdx)), w', view)
  {
    hide Inv, Hash, MapOf, Core, Laid, Shape, LockTable, Exclusive, Splice, RecBytes, FreeSound;
    hide ReaderPart, WriterPart, PosPart, RecPart, FreePart, Quiet, Body, ValidKey, Contents, RecSize;
    hide HandsSame, FlightSame, SizesSame, FreeSame, ChainSame, SameOn;
    var pr := c.procs[p];
    LocalOf(c, w, view, p);
    WriterOf(pr, p, c.dat, w, view, MapOf(c.log));
    HandsOf(c, w, view, p);
    assert ValidRec(NewRec(pr));
    hide OpFits;
    PtrBounds(w.img);
    HeadBound(pr, c.dat, w, view, MapOf(c.log));
    w' := w.AppendRec(p, pr.head, NewRec(pr));
    MoveAppendRec(c.idx, c.dat, w, view, p, pr.head, NewRec(pr));
    var c' := PutRec(c, pr.idxoff, pr.head, NewRec(pr), p, pr.Go(AppUnlockIdx));
    OwnChainKept(pr, p, c.dat, w, view, MapOf(c.log), c.dat, w');
    AppendIdxLocal(pr, p, c.dat, w, view, MapOf(c.log), w');
    FreeKept(w, c.dat, w', c.dat);
    hide Local, AppPart;
    PermitMore(Auth(p, None, false, false, true), AuthOf(p, pr), w, c.dat, view, w', c'.dat, view);
    hide Permitted;
    FinishWrite(c, w, view, c', w', view, p, pr.Go(AppUnlockIdx));
  }

  // ----------------------------------------------------------------- linking

  lemma LinkLocal(pr: Proc, p: nat, dat: string, w: World, view: Map, m: Map, w': World)
    requires pr.pc.LinkHead? && Local(pr, p, dat, w, view, m) && pr.Chain() < |w'.chains|
    requires ChainSound(w', dat, view[pr.op.key := NewData(pr.op)], pr.Chain())
    ensures Local(pr.Return(Rc(0)), p, dat, w', view[pr.op.key := NewData(pr.op)], m)
  {
    hide Hash, ChainSound, SameOn, ValidOp, Contents;
    SamePut(pr.Chain(), view, m, pr.op.key, NewData(pr.op));
  }

  lemma DoLinkHead(c: State, w: World, view: Map, p: nat) returns (w': World, view': Map)
    requires At(c, w, view, p) && c.procs[p].pc.LinkHead?
    ensures var pr := c.procs[p];
            Inv(PutPtr(c, ChainLoc(pr.Chain()), pr.idxoff, p, pr.Return(Rc(0))), w', view')
  {
    hide Inv, Hash, MapOf, Core, Laid, Shape, LockTable, Exclusive, Splice, Pad, FreeSound, Contents, ChainSound;
    hide ReaderPart, AppPart, FreePart, Quiet;
    hide HandsSame, FlightSame, SizesSame, FreeSame, ChainSame, SameOn, OtherChainsSame;
    var pr := c.procs[p];
    var h, x := pr.Chain(), pr.idxoff;
    LocalOf(c, w, view, p);
    WriterOf(pr, p, c.dat, w, view, MapOf(c.log));
    hide OpFits;
    HandsOf(c, w, view, p);
    w' := w.PushChain(h, x).SetPtr(ChainLoc(h), x);
    view' := view[pr.op.key := NewData(pr.op)];
    MoveLink(c.idx, c.dat, w, view, p, h, x);
    var c' := PutPtr(c, ChainLoc(h), x, p, pr.Return(Rc(0)));
    assert ChainLoc(h) <= |c.idx| by { ChainSlot(w.img, h); SlotFits(c.idx, w.img, ChainLoc(h)); }
    LinkLocal(pr, p, c.dat, w, view, MapOf(c.log), w');
    FreeKept(w, c.dat, w', c.dat);
    hide Local, RecPart, WriterPart, PosPart;
    PermitMore(Auth(p, Some(h), false, false, false), AuthOf(p, pr), w, c.dat, view, w', c'.dat, view');
    hide Permitted;
    FinishWrite(c, w, view, c', w', view', p, pr.Return(Rc(0)));
  }

  lemma SlotFits(b: string, g: Image, loc: nat)
    requires Laid(b, g) && loc in g.ptrs
    ensures loc <= |b|
  {
    assert PtrAt(b, loc, g.ptrs[loc]);
  }

  // ----------------------------------------------------- finishing and beginning

  lemma CommitElsewhere(op: Op, m: Map, j: nat)
    requires op.Fetch? || j != Hash(op.key)
    ensures SameOn(j, m, Apply(op, m).0)
  {
    hide Hash;
  }

  lemma MapOfAppend(log: seq<Event>, e: Event)
    ensures MapOf(log + [e]) == Apply(e.op, MapOf(log)).0
    ensures Serial(log) && e.res == Apply(e.op, MapOf(log)).1 ==> Serial(log + [e])
  {
    hide Apply;
    var log' := log + [e];
    assert log'[..|log|] == log;
    if Serial(log) && e.res == Apply(e.op, MapOf(log)).1 {
      forall i | 0 <= i < |log'| ensures log'[i].res == Apply(log'[i].op, MapOf(log'[..i])).1 {
        if i < |log| { assert log'[..i] == log[..i]; }
      }
    }
  }

  lemma Committed(pr: Proc, p: nat, dat: string, w: World, view: Map, m: Map)
    requires pr.pc.UnlockChain? && Local(pr, p, dat, w, view, m)
    ensures pr.res == Apply(pr.op, m).1
    ensures Writes(pr) ==> Quiet(w, dat, view, Apply(pr.op, m).0, pr.Chain())
  {
    hide Hash, ChainSound, SameOn, ValidOp, Apply;
  }

  lemma IdleLocal(pr: Proc, p: nat, dat: string, w: World, view: Map, m: Map)
    requires pr.pc.Idle? || (pr.pc.LockChain? && OpFits(pr))
    ensures Local(pr, p, dat, w, view, m)
  {
    hide Hash;
  }

  lemma DoUnlockChain(c: State, w: World, view: Map, p: nat)
    requires At(c, w, view, p) && c.procs[p].pc.UnlockChain?
    ensures var pr := c.procs[p];
            Inv(Drop(c, p, ChainLock(pr.Chain()), pr.Go(Idle)).(log := c.log + [Event(p, pr.op, pr.res)]), w, view)
  {
    hide Core, Laid, Shape, LockTable, Exclusive, Hash, MapOf, FreeSound, Serial, Apply, Permitted, Locals, QuietChains;
    hide Local, SameOn, Quiet, Owners;
    var pr := c.procs[p];
    var m, e := MapOf(c.log), Event(p, pr.op, pr.res);
    var c' := Drop(c, p, ChainLock(pr.Chain()), pr.Go(Idle)).(log := c.log + [e]);
    LocalOf(c, w, view, p);
    Committed(pr, p, c.dat, w, view, m);
    MapOfAppend(c.log, e);
    IdleLocal(pr.Go(Idle), p, c.dat, w, view, MapOf(c'.log));
    LocksDropped(c, c', p, ChainLock(pr.Chain()), pr.Go(Idle));
    NothingChanged(c.idx, c.dat, w, view, AuthOf(p, pr));
    HandsOf(c, w, view, p);
    forall j | 0 <= j < NHASH && AuthOf(p, pr).chain != Some(j) ensures SameOn(j, m, MapOf(c'.log)) {
      CommitElsewhere(pr.op, m, j);
    }
    Assemble(c, w, view, c', w, view, p, pr.Go(Idle));
  }

  /** Beginning a call keeps the invariant. */
  lemma DoBegin(c: State, w: World, view: Map, p: nat, op: Op)
    requires At(c, w, view, p) && c.procs[p].pc.Idle? && ValidOp(op)
    ensures Inv(Begin(c, p, op), w, view)
  {
    hide Core, Laid, Shape, LockTable, Exclusive, Hash, MapOf, FreeSound, Serial, Permitted, Locals, QuietChains;
    hide Local, SameOn, Quiet, Owners, ValidOp;
    var pr, e := c.procs[p], Event(p, op, Rc(-1));
    if BadFlag(op) {
      MapOfAppend(c.log, e);
      assert c.procs[p := pr] == c.procs;
      LocksKept(c, Begin(c, p, op), p, pr);
    } else {
      var pr' := pr.(pc := LockChain, op := op);
      IdleLocal(pr', p, c.dat, w, view, MapOf(c.log));
      LocksIdle(c, Begin(c, p, op), p, pr');
      Quietly(c, w, view, Begin(c, p, op), p, pr');
    }
  }

  lemma LocksIdle(c: State, c': State, p: nat, pr': Proc)
    requires LockTable(c) && Exclusive(c) && p in c.procs && c.procs[p].pc.Idle? && pr'.pc.LockChain?
    requires c'.procs == c.procs[p := pr'] && c'.locks == c.locks
    ensures LockTable(c') && Exclusive(c')
  {
    hide Hash;
  }
}
