/** What every reachable state of the concurrent library satisfies. */
module DbInvariant {
  import opened Options
  import opened DbFormat
  import opened DbLayout
  import opened DbWorld
  import opened DbMoves
  import opened DbSpec
  import opened DbProtocol

  type Map = map<string, string>

  // -------------------------------------------------- where a process stands

  predicate HoldsChain(pc: Pc) { !pc.Idle? && !pc.LockChain? && !pc.Corrupt? && !pc.Full? }

  predicate HoldsFree(pc: Pc)
  {
    || pc.DelBlankData? || pc.DelReadFree? || pc.DelBlankIdx? || pc.DelWriteFree? || pc.DelWritePred?
    || pc.DelUnlockFree?
    || pc.FreeReadHead? || pc.FreeReadHdr? || pc.FreeReadBody? || pc.FreeUnlink? || pc.FreeUnlock?
  }

  predicate HoldsData(pc: Pc) { pc.AppSizeData? || pc.AppWriteData? || pc.AppUnlockData? }

  predicate HoldsIndex(pc: Pc) { pc.AppSizeIdx? || pc.AppWriteIdx? || pc.AppUnlockIdx? }

  /** The process has a record in its hands. */
  predicate HoldsRec(pc: Pc)
  {
    || pc.DelReadFree? || pc.DelBlankIdx? || pc.DelWriteFree?
    || pc == FreeUnlock(true) || pc.ReuseData? || pc.ReuseIdx? || pc.AppUnlockIdx? || pc.LinkHead?
  }

  /** The process has appended data that is not indexed yet. */
  predicate InFlight(pc: Pc) { pc.AppUnlockData? || pc.AppLockIdx? || pc.AppSizeIdx? || pc.AppWriteIdx? }

  /** Still looking, or looked but nothing changed so far. */
  predicate Searching(pc: Pc)
  {
    || pc.ReadHead? || pc.ReadHdr? || pc.ReadBody? || pc.FetchData? || pc.OverwriteData?
    || pc.DelLockFree? || pc.DelBlankData?
  }

  predicate FoundPc(pc: Pc) { pc.FetchData? || pc.OverwriteData? || pc.DelLockFree? || pc.DelBlankData? }

  /** The pointer before the deleted record has yet to be rewritten. */
  predicate Pending(pc: Pc) { pc.DelReadFree? || pc.DelBlankIdx? || pc.DelWriteFree? || pc.DelWritePred? }

  predicate DeletePc(pc: Pc) { Pending(pc) || pc.DelLockFree? || pc.DelBlankData? || pc.DelUnlockFree? }

  /** Steps that only a store makes. */
  predicate StorePc(pc: Pc)
  {
    || pc.OverwriteData? || pc.InsReadHead? || HeadKnown(pc)
  }

  predicate HeadKnown(pc: Pc)
  {
    || pc.FreeLockList? || pc.FreeReadHead? || pc.FreeReadHdr? || pc.FreeReadBody? || pc.FreeUnlink?
    || pc.FreeUnlock? || pc.ReuseData? || pc.ReuseIdx? || pc.LinkHead?
    || pc.AppLockData? || HoldsData(pc) || pc.AppLockIdx? || HoldsIndex(pc)
  }

  predicate Writes(pr: Proc) { HoldsChain(pr.pc) && !pr.op.Fetch? }

  function AuthOf(p: nat, pr: Proc): (a: Auth)
  {
    Auth(p, if Writes(pr) then Some(pr.Chain()) else None, HoldsFree(pr.pc), HoldsData(pr.pc), HoldsIndex(pr.pc))
  }

  // ------------------------------------------------------------------- locks

  predicate HasLock(pr: Proc, n: LockName, write: bool)
  {
    match n
    case ChainLock(h) => HoldsChain(pr.pc) && h == pr.Chain() && write == !pr.op.Fetch?
    case FreeLock => HoldsFree(pr.pc) && write
    case IndexLock => HoldsIndex(pr.pc) && write
    case DataLock => HoldsData(pr.pc) && write
  }

  ghost predicate LockTable(c: State)
  {
    forall l :: l in c.locks <==> l.owner in c.procs && HasLock(c.procs[l.owner], l.name, l.write)
  }

  predicate Clash(a: Proc, b: Proc)
  {
    || (HoldsFree(a.pc) && HoldsFree(b.pc))
    || (HoldsData(a.pc) && HoldsData(b.pc))
    || (HoldsIndex(a.pc) && HoldsIndex(b.pc))
    || (HoldsChain(a.pc) && HoldsChain(b.pc) && a.Chain() == b.Chain() && !(a.op.Fetch? && b.op.Fetch?))
  }

  ghost predicate Exclusive(c: State)
  {
    forall p, q :: p in c.procs && q in c.procs && p != q ==> !Clash(c.procs[p], c.procs[q])
  }

  // ----------------------------------------------------------- serial replay

  /** The map after the logged calls, one after the other. */
  function MapOf(log: seq<Event>): (m: Map)
  {
    if log == [] then map[] else Apply(log[|log| - 1].op, MapOf(log[..|log| - 1])).0
  }

  /** Every logged result is the one the serial order gives. */
  ghost predicate Serial(log: seq<Event>)
  {
    forall i :: 0 <= i < |log| ==> log[i].res == Apply(log[i].op, MapOf(log[..i])).1
  }

  // -------------------------------------------------------- local assertions

  ghost predicate Won(op: Op, m: Map) { !op.Fetch? && Apply(op, m).1 == Rc(0) }

  /** How a writer's chain differs from the committed map m. */
  ghost predicate PhaseOk(pr: Proc, view: Map, m: Map)
  {
    var h, k := pr.Chain(), pr.op.key;
    if Searching(pr.pc) then SameOn(h, view, m) && (FoundPc(pr.pc) ==> Won(pr.op, m))
    else if pr.pc.UnlockChain? then SameOn(h, view, Apply(pr.op, m).0) && pr.res == Apply(pr.op, m).1
    else SameOn(h, view, m - {k}) && k !in view && Won(pr.op, m)
  }

  ghost function Settled(pr: Proc, w: World): World
  {
    if Pending(pr.pc) then w.SetPtr(pr.ptroff, pr.ptrval) else w
  }

  ghost predicate WriterPart(pr: Proc, dat: string, w: World, view: Map, m: Map)
  {
    Writes(pr) ==>
      && PhaseOk(pr, view, m)
      && pr.Chain() < |w.chains|
      && ChainSound(Settled(pr, w), dat, view, pr.Chain())
      && (Pending(pr.pc) ==>
            pr.ptrval <= PTR_MAX && (pr.ptroff == ChainLoc(pr.Chain()) || pr.ptroff in w.chains[pr.Chain()]))
  }

  ghost predicate ReaderPart(pr: Proc, m: Map)
  {
    pr.op.Fetch? && pr.pc.UnlockChain? ==> pr.res == Apply(pr.op, m).1
  }

  /** The search has come to the k-th record of its chain. */
  ghost predicate AtPos(w: World, pr: Proc, k: nat)
  {
    && pr.Chain() < |w.chains| && k < |w.chains[pr.Chain()]|
    && w.chains[pr.Chain()][k] == pr.idxoff
    && pr.ptroff == Pred(ChainLoc(pr.Chain()), w.chains[pr.Chain()], k)
    && (forall i :: 0 <= i < k ==>
          w.chains[pr.Chain()][i] in w.img.recs && w.img.recs[w.chains[pr.Chain()][i]].key != pr.op.key)
  }

  ghost predicate HdrRead(w: World, pr: Proc)
  {
    && pr.idxoff in w.img.ptrs && pr.idxoff in w.img.recs
    && pr.ptrval == w.img.ptrs[pr.idxoff] && pr.idxlen == |Body(w.img.recs[pr.idxoff])|
  }

  ghost predicate FoundRec(w: World, pr: Proc)
  {
    && pr.idxoff in w.img.ptrs && pr.idxoff in w.img.recs
    && pr.ptrval == w.img.ptrs[pr.idxoff] && w.img.recs[pr.idxoff] == NewRec(pr)
  }

  ghost predicate PosPart(pr: Proc, w: World)
  {
    && (pr.pc.ReadHead? ==> pr.ptroff == ChainLoc(pr.Chain()))
    && (pr.pc.ReadHdr? || pr.pc.ReadBody? || FoundPc(pr.pc) ==> exists k: nat :: AtPos(w, pr, k))
    && (pr.pc.ReadBody? ==> HdrRead(w, pr))
    && (FoundPc(pr.pc) ==> FoundRec(w, pr))
    && (HeadKnown(pr.pc) ==> pr.Chain() < |w.chains| && pr.head == Head(w.chains[pr.Chain()]))
  }

  ghost predicate AtFree(w: World, pr: Proc, k: nat)
  {
    k < |w.free| && w.free[k] == pr.idxoff && pr.saveoff == Pred(FREE_OFF, w.free, k)
  }

  /** A record whose key and data can be replaced in place. */
  ghost predicate Reusable(pr: Proc, r: Rec)
  {
    |r.key| == |pr.op.key| && r.datoff == pr.datoff && r.datlen == pr.datlen == |NewData(pr.op)| + 1
  }

  ghost predicate FreePart(pr: Proc, w: World)
  {
    && (pr.pc.DelBlankIdx? || pr.pc.DelWriteFree? ==>
          FREE_OFF in w.img.ptrs && pr.freeptr == w.img.ptrs[FREE_OFF])
    && (pr.pc.FreeReadHead? ==> pr.saveoff == FREE_OFF)
    && (pr.pc.FreeReadHdr? || pr.pc.FreeReadBody? || pr.pc.FreeUnlink? ==> exists k: nat :: AtFree(w, pr, k))
    && (pr.pc.FreeReadBody? ==> HdrRead(w, pr))
    && (pr.pc.FreeUnlink? ==>
          && pr.idxoff in w.img.ptrs && pr.idxoff in w.img.recs
          && pr.ptrval == w.img.ptrs[pr.idxoff] && Reusable(pr, w.img.recs[pr.idxoff]))
  }

  ghost predicate RecPart(pr: Proc, p: nat, dat: string, w: World)
  {
    HoldsRec(pr.pc) ==>
      && pr.idxoff in w.place && w.place[pr.idxoff] == Held(p)
      && pr.idxoff in w.img.recs && pr.idxoff in w.img.ptrs
      && (!pr.pc.AppUnlockIdx? ==> pr.idxoff <= PTR_MAX)
      && var r := w.img.recs[pr.idxoff];
      && (pr.pc.DelReadFree? || pr.pc.DelBlankIdx? ==> r == NewRec(pr))
      && (pr.pc.DelWriteFree? ==> r == BlankRec(pr) && w.img.ptrs[pr.idxoff] == pr.freeptr)
      && (pr.pc.FreeUnlock? || pr.pc.ReuseData? || pr.pc.ReuseIdx? ==> Reusable(pr, r))
      && (pr.pc.ReuseIdx? ==> Contents(dat, r) == NewData(pr.op))
      && (pr.pc.AppUnlockIdx? || pr.pc.LinkHead? ==>
            r == NewRec(pr) && Contents(dat, r) == NewData(pr.op) && w.img.ptrs[pr.idxoff] == pr.head)
  }

  ghost predicate AppPart(pr: Proc, p: nat, dat: string, w: World)
  {
    && (pr.pc.AppWriteData? ==> pr.datoff == |dat| && pr.datlen == |NewData(pr.op)| + 1)
    && (InFlight(pr.pc) ==>
          && p in w.flight && w.flight[p] == NewRec(pr) && pr.datlen == |NewData(pr.op)| + 1
          && Contents(dat, w.flight[p]) == NewData(pr.op))
    && (InFlight(pr.pc) && !pr.pc.AppUnlockData? ==> Printable(NewRec(pr)))
    && (pr.pc.AppWriteIdx? ==> pr.idxoff == w.img.end)
  }

  /** The operation is one that can be at this point. */
  predicate OpFits(pr: Proc)
  {
    && (!pr.pc.Idle? ==> ValidOp(pr.op) && !BadFlag(pr.op))
    && (DeletePc(pr.pc) ==> !pr.op.Fetch?)
    && (StorePc(pr.pc) ==> pr.op.Store?)
    && (pr.pc.FetchData? ==> pr.op.Fetch?)
    && (pr.pc.OverwriteData? ==> pr.datlen == |NewData(pr.op)| + 1)
    && !pr.pc.Corrupt? && !pr.pc.Full?
  }

  ghost predicate Local(pr: Proc, p: nat, dat: string, w: World, view: Map, m: Map)
  {
    && OpFits(pr)
    && WriterPart(pr, dat, w, view, m)
    && ReaderPart(pr, m)
    && PosPart(pr, w)
    && FreePart(pr, w)
    && RecPart(pr, p, dat, w)
    && AppPart(pr, p, dat, w)
  }

  // ------------------------------------------------------- global invariants

  /** Chain h is sound and agrees with the committed map. */
  ghost predicate Quiet(w: World, dat: string, view: Map, m: Map, h: nat)
  {
    h < |w.chains| && ChainSound(w, dat, view, h) && SameOn(h, view, m)
  }

  ghost predicate NoWriter(procs: map<nat, Proc>, h: nat)
  {
    forall p :: p in procs && Writes(procs[p]) ==> procs[p].Chain() != h
  }

  ghost predicate QuietChains(procs: map<nat, Proc>, dat: string, w: World, view: Map, m: Map)
  {
    forall h :: 0 <= h < NHASH && NoWriter(procs, h) ==> Quiet(w, dat, view, m, h)
  }

  ghost predicate Owners(procs: map<nat, Proc>, w: World)
  {
    && (forall x :: x in w.place && w.place[x].Held? ==>
          var q := w.place[x].p;
          q in procs && HoldsRec(procs[q].pc) && procs[q].idxoff == x)
    && (forall q :: q in w.flight ==> q in procs && InFlight(procs[q].pc))
  }

  ghost predicate Locals(procs: map<nat, Proc>, dat: string, w: World, view: Map, m: Map)
  {
    forall p :: p in procs ==> Local(procs[p], p, dat, w, view, m)
  }

  ghost predicate Inv(c: State, w: World, view: Map)
  {
    && Core(c.idx, c.dat, w) && FreeSound(w)
    && LockTable(c) && Exclusive(c)
    && QuietChains(c.procs, c.dat, w, view, MapOf(c.log))
    && Locals(c.procs, c.dat, w, view, MapOf(c.log))
    && Owners(c.procs, w)
    && Serial(c.log)
  }

  // ------------------------------------------------------------- frame rules

  lemma SoundFrame(w: World, dat: string, view: Map, w': World, dat': string, view': Map, h: nat)
    requires h < |w.chains| && ChainSound(w, dat, view, h)
    requires ChainSame(w, dat, w', dat', h) && SameOn(h, view, view')
    ensures ChainSound(w', dat', view', h)
  {
    hide ListHolds, SameOn, Contents;
    LinksFrame(w.img.ptrs, w'.img.ptrs, ChainLoc(h), w.chains[h]);
    ListHoldsFrame(w.img.recs, dat, view, w'.img.recs, dat', view', w.chains[h], h);
  }

  lemma SameSettled(pr: Proc, w: World, dat: string, w': World, dat': string, h: nat)
    requires ChainSame(w, dat, w', dat', h)
    ensures ChainSame(Settled(pr, w), dat, Settled(pr, w'), dat', h)
  {
    hide Contents;
  }

  lemma SameApply(h: nat, m: Map, m': Map, op: Op)
    requires SameOn(h, m, m') && Hash(op.key) == h
    ensures SameOn(h, Apply(op, m).0, Apply(op, m').0) && Apply(op, m).1 == Apply(op, m').1
    ensures SameOn(h, m - {op.key}, m' - {op.key})
  {
    hide Hash;
  }

  lemma SameTrans(h: nat, a: Map, b: Map, c: Map)
    requires SameOn(h, a, b) && SameOn(h, b, c)
    ensures SameOn(h, a, c)
  {
    hide Hash;
  }

  lemma SameSym(h: nat, a: Map, b: Map)
    requires SameOn(h, a, b)
    ensures SameOn(h, b, a)
  {
    hide Hash;
  }

  lemma PhaseFrame(pr: Proc, view: Map, m: Map, view': Map, m': Map)
    requires PhaseOk(pr, view, m) && SameOn(pr.Chain(), view, view') && SameOn(pr.Chain(), m, m')
    ensures PhaseOk(pr, view', m')
  {
    hide Apply;
    var h := pr.Chain();
    SameApply(h, m, m', pr.op);
    SameSym(h, view, view');
    assert pr.op.key !in view ==> pr.op.key !in view';
    hide SameOn, Hash;
    if Searching(pr.pc) {
      SameTrans(h, view', view, m);
      SameTrans(h, view', m, m');
    } else if pr.pc.UnlockChain? {
      SameTrans(h, view', view, Apply(pr.op, m).0);
      SameTrans(h, view', Apply(pr.op, m).0, Apply(pr.op, m').0);
    } else {
      SameTrans(h, view', view, m - {pr.op.key});
      SameTrans(h, view', m - {pr.op.key}, m' - {pr.op.key});
    }
  }

  lemma WriterFrame(pr: Proc, dat: string, w: World, view: Map, m: Map, dat': string, w': World, view': Map, m': Map)
    requires WriterPart(pr, dat, w, view, m)
    requires Writes(pr) ==> ChainSame(w, dat, w', dat', pr.Chain()) && SameOn(pr.Chain(), view, view')
    requires Writes(pr) ==> SameOn(pr.Chain(), m, m')
    ensures WriterPart(pr, dat', w', view', m')
  {
    hide PhaseOk, SameOn, Hash, ChainSound, RecSame;
    if Writes(pr) {
      PhaseFrame(pr, view, m, view', m');
      SameSettled(pr, w, dat, w', dat', pr.Chain());
      SoundFrame(Settled(pr, w), dat, view, Settled(pr, w'), dat', view', pr.Chain());
    }
  }

  lemma ReaderFrame(pr: Proc, m: Map, m': Map)
    requires ReaderPart(pr, m) && (HoldsChain(pr.pc) ==> SameOn(pr.Chain(), m, m'))
    ensures ReaderPart(pr, m')
  {
    hide Hash, SameOn, Apply;
    if HoldsChain(pr.pc) { SameApply(pr.Chain(), m, m', pr.op); }
  }

  lemma PosFrame(pr: Proc, dat: string, w: World, dat': string, w': World)
    requires PosPart(pr, w) && (HoldsChain(pr.pc) ==> ChainSame(w, dat, w', dat', pr.Chain()))
    ensures PosPart(pr, w')
  {
    hide Hash, Contents, Body;
    if pr.pc.ReadHdr? || pr.pc.ReadBody? || FoundPc(pr.pc) {
      var k: nat :| AtPos(w, pr, k);
      assert RecSame(w, dat, w', dat', w.chains[pr.Chain()][k]);
      assert forall i :: 0 <= i < k ==> RecSame(w, dat, w', dat', w.chains[pr.Chain()][i]);
      assert AtPos(w', pr, k);
    }
  }

  lemma FreeFrame(pr: Proc, dat: string, w: World, dat': string, w': World)
    requires FreePart(pr, w) && (HoldsFree(pr.pc) ==> FreeSame(w, dat, w', dat'))
    ensures FreePart(pr, w')
  {
    hide Contents, Body;
    if pr.pc.FreeReadHdr? || pr.pc.FreeReadBody? || pr.pc.FreeUnlink? {
      var k: nat :| AtFree(w, pr, k);
      assert RecSame(w, dat, w', dat', w.free[k]);
      assert AtFree(w', pr, k);
    }
  }

  lemma RecFrame(pr: Proc, q: nat, p: nat, dat: string, w: World, dat': string, w': World)
    requires RecPart(pr, q, dat, w) && q != p && HandsSame(p, w, dat, w', dat')
    ensures RecPart(pr, q, dat', w')
  {
    hide Contents;
    if HoldsRec(pr.pc) { assert RecSame(w, dat, w', dat', pr.idxoff); }
  }

  lemma AppFrame(pr: Proc, q: nat, a: Auth, dat: string, w: World, dat': string, w': World)
    requires AppPart(pr, q, dat, w) && q != a.p
    requires FlightSame(a.p, w, dat, w', dat') && SizesSame(a, w, dat, w', dat')
    requires (HoldsData(pr.pc) ==> !a.data) && (HoldsIndex(pr.pc) ==> !a.index)
    ensures AppPart(pr, q, dat', w')
  {
    hide Contents, Printable;
  }

  /** What one process does within its authority does not disturb another. */
  lemma LocalFrame(pr: Proc, q: nat, a: Auth, dat: string, w: World, view: Map, m: Map,
                   dat': string, w': World, view': Map, m': Map)
    requires Local(pr, q, dat, w, view, m) && q != a.p
    requires Permitted(a, w, dat, view, w', dat', view')
    requires HoldsChain(pr.pc) ==> SameOn(pr.Chain(), m, m') && a.chain != Some(pr.Chain())
    requires HoldsFree(pr.pc) ==> !a.free
    requires (HoldsData(pr.pc) ==> !a.data) && (HoldsIndex(pr.pc) ==> !a.index)
    ensures Local(pr, q, dat', w', view', m')
  {
    hide OpFits, WriterPart, ReaderPart, PosPart, FreePart, RecPart, AppPart;
    hide Hash, SameOn, ChainSame, FreeSame, HandsSame, FlightSame, SizesSame;
    WriterFrame(pr, dat, w, view, m, dat', w', view', m');
    ReaderFrame(pr, m, m');
    PosFrame(pr, dat, w, dat', w');
    FreeFrame(pr, dat, w, dat', w');
    RecFrame(pr, q, a.p, dat, w, dat', w');
    AppFrame(pr, q, a, dat, w, dat', w');
  }
}
