/** Results about whole runs of the concurrent library. */
module DbTheorems {
  import opened Options
  import opened Collections
  import opened DbFormat
  import opened DbLayout
  import opened DbWorld
  import opened DbMoves
  import opened DbSpec
  import opened DbProtocol
  import opened DbInvariant
  import opened DbSerial
  import opened DbSteps
  import opened DbWrites

  // ------------------------------------------------------------- every step

  lemma SearchInv(c: State, w: World, view: Map, p: nat, c': State) returns (w': World, view': Map)
    requires At(c, w, view, p) && SearchStep(c, p, c.procs[p]) == Some(c')
    ensures Inv(c', w', view')
  {
    hide Inv, Take, Drop, PutDat, OnReadHead, OnReadHdr, OnReadBody, OnFetchData, Hash;
    w', view' := w, view;
    match c.procs[p].pc
    case LockChain => DoLockChain(c, w, view, p);
    case ReadHead => DoReadHead(c, w, view, p);
    case ReadHdr => DoReadHdr(c, w, view, p);
    case ReadBody => DoReadBody(c, w, view, p);
    case FetchData => DoFetchData(c, w, view, p);
    case OverwriteData => view' := DoOverwriteData(c, w, view, p);
    case UnlockChain => DoUnlockChain(c, w, view, p);
    case _ =>
  }

  lemma DeleteInv(c: State, w: World, view: Map, p: nat, c': State) returns (w': World, view': Map)
    requires At(c, w, view, p) && DeleteStep(c, p, c.procs[p]) == Some(c')
    ensures Inv(c', w', view')
  {
    hide Inv, Take, Drop, PutDat, PutPtr, PutRec, OnDelReadFree, Hash, Blanks;
    w', view' := w, view;
    match c.procs[p].pc
    case DelLockFree => DoDelLockFree(c, w, view, p);
    case DelBlankData => w', view' := DoDelBlankData(c, w, view, p);
    case DelReadFree => DoDelReadFree(c, w, view, p);
    case DelBlankIdx => w' := DoDelBlankIdx(c, w, view, p);
    case DelWriteFree => w' := DoDelWriteFree(c, w, view, p);
    case DelWritePred => w' := DoDelWritePred(c, w, view, p);
    case DelUnlockFree => DoDelUnlockFree(c, w, view, p);
    case _ =>
  }

  lemma ReuseInv(c: State, w: World, view: Map, p: nat, c': State) returns (w': World, view': Map)
    requires At(c, w, view, p) && ReuseStep(c, p, c.procs[p]) == Some(c')
    ensures Inv(c', w', view')
  {
    hide Inv, Take, Drop, PutDat, PutPtr, PutRec, OnInsReadHead, OnFreeReadHead, OnReadHdr, OnFreeReadBody, Hash;
    w', view' := w, view;
    match c.procs[p].pc
    case InsReadHead(reuse) => DoInsReadHead(c, w, view, p, reuse);
    case FreeLockList => DoFreeLockList(c, w, view, p);
    case FreeReadHead => DoFreeReadHead(c, w, view, p);
    case FreeReadHdr => DoFreeReadHdr(c, w, view, p);
    case FreeReadBody => DoFreeReadBody(c, w, view, p);
    case FreeUnlink => w' := DoFreeUnlink(c, w, view, p);
    case FreeUnlock(_) => DoFreeUnlock(c, w, view, p);
    case ReuseData => DoReuseData(c, w, view, p);
    case ReuseIdx => w' := DoReuseIdx(c, w, view, p);
    case LinkHead => w', view' := DoLinkHead(c, w, view, p);
    case _ =>
  }

  /** Where an append can hit a limit: the new index record is too short or too
      long, or it starts beyond the largest offset a pointer field can hold. */
  predicate HitsLimit(pr: Proc)
  {
    || (pr.pc.AppUnlockData? && !Printable(NewRec(pr)))
    || (pr.pc.AppUnlockIdx? && pr.idxoff > PTR_MAX)
  }

  predicate IsFull(c: State, p: nat) { p in c.procs && c.procs[p].pc.Full? }

  lemma AppendInv(c: State, w: World, view: Map, p: nat, c': State) returns (w': World, view': Map)
    requires At(c, w, view, p) && AppendStep(c, p, c.procs[p]) == Some(c')
    ensures !HitsLimit(c.procs[p]) ==> Inv(c', w', view')
    ensures HitsLimit(c.procs[p]) ==> IsFull(c', p)
  {
    hide Inv, PutDat, PutRec, Hash, Printable, CanLock;
    w', view' := w, view;
    match c.procs[p].pc
    case AppLockData => DoAppLockData(c, w, view, p);
    case AppSizeData => DoAppSizeData(c, w, view, p);
    case AppWriteData => w' := DoAppWriteData(c, w, view, p);
    case AppUnlockData => if !HitsLimit(c.procs[p]) { DoAppUnlockData(c, w, view, p); }
    case AppLockIdx => DoAppLockIdx(c, w, view, p);
    case AppSizeIdx => DoAppSizeIdx(c, w, view, p);
    case AppWriteIdx => w' := DoAppWriteIdx(c, w, view, p);
    case AppUnlockIdx => if !HitsLimit(c.procs[p]) { DoAppUnlockIdx(c, w, view, p); }
    case _ =>
  }

  lemma InvNeverFails(c: State, w: World, view: Map, p: nat)
    requires Inv(c, w, view) && p in c.procs
    ensures !c.procs[p].pc.Full? && !c.procs[p].pc.Corrupt?
  {
    LocalOf(c, w, view, p);
  }

  lemma OnlyAppends(c: State, p: nat, pr: Proc)
    requires HitsLimit(pr)
    ensures SearchStep(c, p, pr).None? && DeleteStep(c, p, pr).None? && ReuseStep(c, p, pr).None?
  {
  }

  /** Each system call keeps the invariant, unless it is the one append step
      that finds the file full. */
  lemma StepInv(c: State, w: World, view: Map, p: nat, c': State) returns (w': World, view': Map)
    requires At(c, w, view, p) && Step(c, p) == Some(c')
    ensures !HitsLimit(c.procs[p]) ==> Inv(c', w', view')
    ensures HitsLimit(c.procs[p]) ==> IsFull(c', p)
  {
    hide Inv, SearchStep, DeleteStep, ReuseStep, AppendStep, HitsLimit;
    var pr := c.procs[p];
    if HitsLimit(pr) { OnlyAppends(c, p, pr); }
    if SearchStep(c, p, pr).Some? { w', view' := SearchInv(c, w, view, p, c'); }
    else if DeleteStep(c, p, pr).Some? { w', view' := DeleteInv(c, w, view, p, c'); }
    else if ReuseStep(c, p, pr).Some? { w', view' := ReuseInv(c, w, view, p, c'); }
    else { w', view' := AppendInv(c, w, view, p, c'); }
  }

  // -------------------------------------------------------------- the start

  lemma {:induction false} ZeroPtrsAt(n: nat, i: nat)
    requires i < n
    ensures |ZeroPtrs(n)| == PTR_SZ * n
    ensures ZeroPtrs(n)[PTR_SZ * i..PTR_SZ * i + PTR_SZ] == Pad(0, PTR_SZ)
  {
    hide Pad;
    PadLength(0);
    var rest := ZeroPtrs(n - 1);
    if n > 1 { ZeroPtrsAt(n - 1, if i < n - 1 then i else 0); }
    assert |rest| == PTR_SZ * (n - 1);
    if i < n - 1 {
      assert ZeroPtrs(n)[PTR_SZ * i..PTR_SZ * i + PTR_SZ] == rest[PTR_SZ * i..PTR_SZ * i + PTR_SZ];
    } else {
      assert ZeroPtrs(n)[PTR_SZ * i..PTR_SZ * i + PTR_SZ] == Pad(0, PTR_SZ);
    }
  }

  ghost function EmptyImage(): Image
  {
    Image(map loc: nat | 0 <= loc < RECS_OFF - 1 && IsSlot(loc) :: 0, map[], RECS_OFF)
  }

  ghost function EmptyWorld(): World
  {
    World(EmptyImage(), seq(NHASH, _ => []), [], map[], map[])
  }

  /** What db_open writes into a new index file is an empty database. */
  lemma EmptyLaid()
    ensures Laid(ZeroPtrs(NHASH + 1) + "\n", EmptyImage())
  {
    hide Pad;
    var b, g := ZeroPtrs(NHASH + 1) + "\n", EmptyImage();
    ZeroPtrsAt(NHASH + 1, 0);
    forall loc | loc in g.ptrs ensures PtrAt(b, loc, g.ptrs[loc]) {
      ZeroPtrsAt(NHASH + 1, loc / PTR_SZ);
      assert b[loc..loc + PTR_SZ] == ZeroPtrs(NHASH + 1)[loc..loc + PTR_SZ];
    }
  }

  lemma EmptyCore(idx: string, dat: string)
    requires idx == ZeroPtrs(NHASH + 1) + "\n" && dat == []
    ensures Core(idx, dat, EmptyWorld()) && FreeSound(EmptyWorld())
    ensures forall h :: 0 <= h < NHASH ==> ChainSound(EmptyWorld(), dat, map[], h)
  {
    EmptyLaid();
    hide ZeroPtrs, Laid, Hash;
    assert IsSlot(FREE_OFF);
    forall h | 0 <= h < NHASH ensures ChainSound(EmptyWorld(), dat, map[], h) {
      assert IsSlot(ChainLoc(h));
    }
  }

  lemma InitInv(c: State)
    requires Init(c)
    ensures Inv(c, EmptyWorld(), map[])
  {
    hide Core, FreeSound, ChainSound, ZeroPtrs, Local, Hash;
    EmptyCore(c.idx, c.dat);
    hide EmptyWorld;
    var w := EmptyWorld();
    forall p | p in c.procs ensures Local(c.procs[p], p, c.dat, w, map[], map[]) {
      IdleLocal(c.procs[p], p, c.dat, w, map[], map[]);
    }
    assert |w.chains| == NHASH && w.place == map[] && w.flight == map[] by { EmptyShape(); }
  }

  lemma EmptyShape()
    ensures var w := EmptyWorld(); |w.chains| == NHASH && w.place == map[] && w.flight == map[]
  {
  }

  // --------------------------------------------------------------- whole runs

  ghost predicate Run(cs: seq<State>)
  {
    |cs| > 0 && Init(cs[0]) && forall i :: 0 < i < |cs| ==> Next(cs[i - 1], cs[i])
  }

  ghost predicate NoneFull(c: State) { forall p :: p in c.procs ==> !c.procs[p].pc.Full? }

  ghost predicate AllIdle(c: State) { forall p :: p in c.procs ==> c.procs[p].pc.Idle? }

  ghost predicate Moves(c: State, p: nat, s: Option<State>)
    requires p in c.procs
  {
    s.Some? ==> p in s.value.procs && s.value.procs == c.procs[p := s.value.procs[p]] && !c.procs[p].pc.Full?
  }

  lemma SearchProcs(c: State, p: nat)
    requires p in c.procs
    ensures Moves(c, p, SearchStep(c, p, c.procs[p])) && Moves(c, p, DeleteStep(c, p, c.procs[p]))
  {
    hide OnReadHead, OnReadHdr, OnReadBody, OnFetchData, OnDelReadFree, CanLock, Printable;
    hide RecBytes, Pad, Blanks, Splice, Hash;
  }

  lemma ReuseProcs(c: State, p: nat)
    requires p in c.procs
    ensures Moves(c, p, ReuseStep(c, p, c.procs[p]))
  {
    hide OnInsReadHead, OnFreeReadHead, OnReadHdr, OnFreeReadBody, CanLock, Printable;
    hide RecBytes, Pad, Splice, Hash;
  }

  lemma AppendProcs(c: State, p: nat)
    requires p in c.procs
    ensures Moves(c, p, AppendStep(c, p, c.procs[p]))
  {
    hide OnSizeData, CanLock, Printable, RecBytes, Pad, Splice, Hash;
  }

  lemma StepProcs(c: State, p: nat, c': State)
    requires p in c.procs && Step(c, p) == Some(c')
    ensures Moves(c, p, Some(c'))
  {
    hide SearchStep, DeleteStep, ReuseStep, AppendStep, Moves;
    SearchProcs(c, p);
    ReuseProcs(c, p);
    AppendProcs(c, p);
  }

  /** A process that found the file full stays so. */
  lemma FullStays(c: State, c': State)
    requires Next(c, c') && NoneFull(c')
    ensures NoneFull(c)
  {
    hide Step;
    var p :| p in c.procs && (Step(c, p) == Some(c') || Begins(c, p, c'));
    if Step(c, p) == Some(c') { StepProcs(c, p, c'); }
    forall q | q in c.procs ensures !c.procs[q].pc.Full? {
      if q != p { assert c'.procs[q] == c.procs[q]; }
    }
  }

  lemma NextInv(c: State, w: World, view: Map, c': State) returns (w': World, view': Map)
    requires Inv(c, w, view) && Next(c, c') && NoneFull(c')
    ensures Inv(c', w', view')
  {
    hide Inv, Step, Begin, HitsLimit;
    var p :| p in c.procs && (Step(c, p) == Some(c') || Begins(c, p, c'));
    if Step(c, p) == Some(c') {
      w', view' := StepInv(c, w, view, p, c');
    } else {
      var op :| ValidOp(op) && c' == Begin(c, p, op);
      w', view' := w, view;
      DoBegin(c, w, view, p, op);
    }
  }

  /** The invariant holds at the end of every run in which no append has found
      the file full. */
  lemma {:induction false} RunInv(cs: seq<State>) returns (w: World, view: Map)
    requires Run(cs) && NoneFull(cs[|cs| - 1])
    ensures Inv(cs[|cs| - 1], w, view)
  {
    hide Inv, NoneFull, Next, Init, EmptyWorld;
    var n := |cs| - 1;
    if n == 0 {
      InitInv(cs[0]);
      w, view := EmptyWorld(), map[];
    } else {
      var front := cs[..n];
      assert front[n - 1] == cs[n - 1];
      FullStays(cs[n - 1], cs[n]);
      w, view := RunInv(front);
      w, view := NextInv(cs[n - 1], w, view, cs[n]);
    }
  }

  ghost predicate Reachable(c: State) { exists cs :: Run(cs) && cs[|cs| - 1] == c }

  lemma ReachInv(c: State) returns (w: World, view: Map)
    requires Reachable(c) && NoneFull(c)
    ensures Inv(c, w, view)
  {
    hide Inv, NoneFull;
    var cs :| Run(cs) && cs[|cs| - 1] == c;
    w, view := RunInv(cs);
  }

  /** Serializability: in every reachable state, the results of all finished
      calls are those of executing them one after the other on a plain map, in
      the order in which they released their chain locks. */
  lemma Serializable(c: State)
    requires Reachable(c) && NoneFull(c)
    ensures Serial(c.log)
  {
    hide Reachable, Serial, LockTable, Exclusive, Locals, QuietChains, Core, FreeSound, Owners;
    var w, view := ReachInv(c);
  }

  /** No process ever fails one of the library's sanity checks, and the index
      file always splits into whole, readable records. */
  lemma NeverCorrupt(c: State)
    requires Reachable(c) && NoneFull(c)
    ensures forall p :: p in c.procs ==> !c.procs[p].pc.Corrupt?
    ensures exists g :: Laid(c.idx, g)
  {
    hide Reachable, Inv, NoneFull, Laid;
    var w, view := ReachInv(c);
    forall p | p in c.procs ensures !c.procs[p].pc.Corrupt? { InvNeverFails(c, w, view, p); }
    assert Laid(c.idx, w.img) by { InvLaid(c, w, view); }
  }

  lemma InvLaid(c: State, w: World, view: Map)
    requires Inv(c, w, view)
    ensures Laid(c.idx, w.img)
  {
    hide Laid, Partition, Segs, FreeSound, LockTable, Exclusive, QuietChains, Locals, Owners, Serial;
  }

  /** The library gives up exactly when an append exceeds a limit. */
  lemma FullOnlyAtLimit(c: State, p: nat, c': State)
    requires Reachable(c) && NoneFull(c) && p in c.procs && Step(c, p) == Some(c')
    ensures IsFull(c', p) <==> HitsLimit(c.procs[p])
  {
    hide Reachable, Inv, NoneFull, HitsLimit, Step;
    var w, view := ReachInv(c);
    w, view := StepInv(c, w, view, p, c');
    if !HitsLimit(c.procs[p]) && IsFull(c', p) { InvNeverFails(c', w, view, p); }
  }

  // ------------------------------------------------------------- final state

  /** What a lookup that starts at pointer field loc finds in the files. */
  function Walk(idx: string, dat: string, loc: nat, key: string, fuel: nat): (r: Option<string>)
    decreases fuel
  {
    match GetPtr(idx, loc)
    case None => None
    case Some(off) =>
      if off == 0 then None
      else match GetHdr(idx, off)
        case None => None
        case Some(hd) =>
          match GetBody(idx, off, hd.1)
          case None => None
          case Some(r) =>
            if r.key == key then GetData(dat, r.datoff, r.datlen)
            else if fuel == 0 then None
            else Walk(idx, dat, off, key, fuel - 1)
  }

  function Lookup(m: Map, key: string): (r: Option<string>) { if key in m then Some(m[key]) else None }

  lemma {:induction false} WalkChain(idx: string, dat: string, w: World, view: Map, key: string, k: nat, fuel: nat)
    requires Core(idx, dat, w) && |w.chains| == NHASH && ChainSound(w, dat, view, Hash(key))
    requires k <= |w.chains[Hash(key)]| <= k + fuel
    requires forall i :: 0 <= i < k ==>
      w.chains[Hash(key)][i] in w.img.recs && w.img.recs[w.chains[Hash(key)][i]].key != key
    ensures Walk(idx, dat, Pred(ChainLoc(Hash(key)), w.chains[Hash(key)], k), key, fuel) == Lookup(view, key)
    decreases fuel
  {
    hide Laid, Partition, Segs, Hash, GetPtr, GetHdr, GetBody, GetData, Contents, Body;
    var h := Hash(key);
    var chain := w.chains[h];
    LinksNext(w.img.ptrs, ChainLoc(h), chain, k);
    GetPtrAt(idx, w.img, Pred(ChainLoc(h), chain, k));
    if k == |chain| {
      assert key in view ==> KeyOn(w.img.recs, chain, key);
    } else {
      HoldsAt(w.img.recs, dat, chain, view, h, k);
      assert chain[k] > 0;
      hide Links, ListHolds;
      GetHdrAt(idx, w.img, chain[k]);
      GetBodyAt(idx, w.img, chain[k]);
      GetDataAt(idx, dat, w, chain[k]);
      if w.img.recs[chain[k]].key != key {
        WalkChain(idx, dat, w, view, key, k + 1, fuel - 1);
      }
    }
  }

  /** Distinct numbers below n are at most n. */
  lemma {:induction false} DistinctBound(list: seq<nat>, n: nat)
    requires Distinct(list) && forall i :: 0 <= i < |list| ==> list[i] < n
    ensures |list| <= n
  {
    assert list != [] ==> list[0] < n;
    if n > 0 {
      if k :| 0 <= k < |list| && list[k] == n - 1 {
        var rest := RemoveAt(list, k);
        assert forall i :: 0 <= i < |rest| ==> rest[i] == list[if i < k then i else i + 1];
        DistinctBound(rest, n - 1);
      } else {
        DistinctBound(list, n - 1);
      }
    }
  }

  /** When every process has finished, the bytes of the two files hold exactly
      the map that the serial order of the calls produces. */
  lemma FinalMap(c: State, key: string)
    requires Reachable(c) && AllIdle(c)
    ensures Walk(c.idx, c.dat, ChainLoc(Hash(key)), key, |c.idx|) == Lookup(MapOf(c.log), key)
  {
    hide Reachable, Walk, Core, FreeSound, LockTable, Exclusive, Locals, Owners, Serial, Hash, MapOf, Distinct;
    var w, view := ReachInv(c);
    var h := Hash(key);
    assert NoWriter(c.procs, h);
    hide ChainSound;
    assert Quiet(w, c.dat, view, MapOf(c.log), h);
    ChainFits(c.idx, c.dat, w, h);
    WalkChain(c.idx, c.dat, w, view, key, 0, |c.idx|);
  }

  lemma ChainFits(idx: string, dat: string, w: World, h: nat)
    requires Core(idx, dat, w) && h < NHASH
    ensures |w.chains| == NHASH && |w.chains[h]| <= |idx|
  {
    hide Segs, PtrAt, RecAt;
    ChainPlaces(w, h);
    assert Lists(w.chains[h], w.place, OnChain(h));
    DistinctBound(w.chains[h], |idx|);
  }

  // ---------------------------------------------------------------- progress

  predicate HoldsInner(pc: Pc) { HoldsFree(pc) || HoldsData(pc) || HoldsIndex(pc) }

  /** Waiting for the free list, the data file or the index file. */
  predicate WantsInner(pc: Pc) { pc.DelLockFree? || pc.FreeLockList? || pc.AppLockData? || pc.AppLockIdx? }

  /** The second lock a process may be waiting for. */
  function Inner(pc: Pc): (n: LockName)
  {
    if pc.AppLockData? then DataLock else if pc.AppLockIdx? then IndexLock else FreeLock
  }

  lemma StepsUnlessWaiting(c: State, p: nat)
    requires p in c.procs
    requires var pc := c.procs[p].pc; !pc.Idle? && !pc.Corrupt? && !pc.Full?
    ensures !c.procs[p].pc.LockChain? && !WantsInner(c.procs[p].pc) ==> Step(c, p).Some?
    ensures WantsInner(c.procs[p].pc) && CanLock(c, p, Inner(c.procs[p].pc), true) ==> Step(c, p).Some?
    ensures c.procs[p].pc.LockChain? && CanLock(c, p, ChainLock(c.procs[p].Chain()), !c.procs[p].op.Fetch?)
            ==> Step(c, p).Some?
  {
    hide OnReadHead, OnReadHdr, OnReadBody, OnFetchData, OnDelReadFree, OnInsReadHead, OnFreeReadHead;
    hide OnFreeReadBody, OnSizeData, CanLock, Hash, PutDat, PutPtr, PutRec, Drop;
  }

  /** Inner locks are free while nobody holds one. */
  lemma InnerFree(c: State, p: nat, pc: Pc)
    requires LockTable(c) && forall q :: q in c.procs ==> !HoldsInner(c.procs[q].pc)
    ensures CanLock(c, p, Inner(pc), true)
  {
    hide Hash, Overlap;
    forall l | l in c.locks && l.owner != p ensures !Overlap(l.name, Inner(pc)) {
      assert HasLock(c.procs[l.owner], l.name, l.write);
      OverlapSame(l.name, Inner(pc));
    }
  }

  /** A process blocked on a chain is blocked by one that is past that point. */
  lemma ChainHolder(c: State, p: nat) returns (q: nat)
    requires LockTable(c) && p in c.procs
    requires !CanLock(c, p, ChainLock(c.procs[p].Chain()), !c.procs[p].op.Fetch?)
    ensures q in c.procs && HoldsChain(c.procs[q].pc)
  {
    hide Hash, Overlap, HoldsChain, HoldsFree, HoldsData, HoldsIndex;
    var n := ChainLock(c.procs[p].Chain());
    var l :| l in c.locks && l.owner != p && Overlap(l.name, n) && (l.write || !c.procs[p].op.Fetch?);
    assert HasLock(c.procs[l.owner], l.name, l.write);
    OverlapSame(l.name, n);
    q := l.owner;
  }

  lemma Unblocked(c: State, w: World, view: Map, p: nat) returns (q: nat)
    requires At(c, w, view, p) && !c.procs[p].pc.Idle?
    ensures q in c.procs && Step(c, q).Some?
  {
    hide Inv, Step, CanLock, Hash, Laid, Shape, Core, FreeSound, Local, LockTable, Exclusive;
    LocalOf(c, w, view, p);
    if i :| i in c.procs && HoldsInner(c.procs[i].pc) {
      InvNeverFails(c, w, view, i);
      StepsUnlessWaiting(c, i);
      return i;
    }
    InvNeverFails(c, w, view, p);
    StepsUnlessWaiting(c, p);
    InnerFree(c, p, c.procs[p].pc);
    q := p;
    if c.procs[p].pc.LockChain? && !CanLock(c, p, ChainLock(c.procs[p].Chain()), !c.procs[p].op.Fetch?) {
      q := ChainHolder(c, p);
      InvNeverFails(c, w, view, q);
      StepsUnlessWaiting(c, q);
      InnerFree(c, q, c.procs[q].pc);
    }
  }

  /** No deadlock: while some call is unfinished, some process can move. */
  lemma NoDeadlock(c: State)
    requires Reachable(c) && NoneFull(c) && !AllIdle(c)
    ensures exists q :: q in c.procs && Step(c, q).Some?
  {
    hide Reachable, Inv, NoneFull, Step;
    var w, view := ReachInv(c);
    var p :| p in c.procs && !c.procs[p].pc.Idle?;
    var q := Unblocked(c, w, view, p);
  }
}
