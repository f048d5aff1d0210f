/** What the database operations mean on a plain map. */
module DbSpec {
  const DB_INSERT := 1
  const DB_REPLACE := 2
  const DB_STORE := 3

  datatype Op = Fetch(key: string) | Delete(key: string) | Store(key: string, data: string, flag: int)

  /** A fetched string, a null pointer, or an integer return code. */
  datatype Result = Data(s: string) | Null | Rc(n: int)

  predicate BadFlag(op: Op)
  {
    op.Store? && op.flag != DB_INSERT && op.flag != DB_REPLACE && op.flag != DB_STORE
  }

  /** The map after the operation, and what the operation returns. */
  function Apply(op: Op, m: map<string, string>): (r: (map<string, string>, Result))
  {
    match op
    case Fetch(k) => (m, if k in m then Data(m[k]) else Null)
    case Delete(k) => if k in m then (m - {k}, Rc(0)) else (m, Rc(-1))
    case Store(k, d, flag) =>
      if BadFlag(op) then (m, Rc(-1))
      else if k in m && flag == DB_INSERT then (m, Rc(1))
      else if k !in m && flag == DB_REPLACE then (m, Rc(-1))
      else (m[k := d], Rc(0))
  }
}

/** The library run by any number of processes at once, one system call at a
    time, on the bytes of the index and data files. */
module DbProtocol {
  import opened Options
  import opened DbFormat
  import opened DbLayout
  import opened DbSpec

  /** The byte ranges that the library locks. */
  datatype LockName = ChainLock(h: nat) | FreeLock | IndexLock | DataLock

  /** File (0 index, 1 data), first byte, and end; -1 stands for "to the end". */
  function Range(n: LockName): (r: (nat, int, int))
  {
    match n
    case ChainLock(h) => (0, ChainLoc(h), ChainLoc(h) + 1)
    case FreeLock => (0, FREE_OFF, FREE_OFF + 1)
    case IndexLock => (0, (NHASH + 1) * PTR_SZ + 1, -1)
    case DataLock => (1, 0, -1)
  }

  predicate Overlap(a: LockName, b: LockName)
  {
    var (f, s, e) := Range(a);
    var (f', s', e') := Range(b);
    f == f' && (e' == -1 || s < e') && (e == -1 || s' < e)
  }

  datatype Lock = Lock(owner: nat, name: LockName, write: bool)

  datatype Pc =
    | Idle
    | LockChain | ReadHead | ReadHdr | ReadBody
    | FetchData | OverwriteData
    | DelLockFree | DelBlankData | DelReadFree | DelBlankIdx | DelWriteFree | DelWritePred | DelUnlockFree
    | InsReadHead(reuse: bool)
    | FreeLockList | FreeReadHead | FreeReadHdr | FreeReadBody | FreeUnlink | FreeUnlock(hit: bool)
    | ReuseData | ReuseIdx
    | AppLockData | AppSizeData | AppWriteData | AppUnlockData
    | AppLockIdx | AppSizeIdx | AppWriteIdx | AppUnlockIdx
    | LinkHead
    | UnlockChain
    | Corrupt   // a sanity check failed
    | Full      // a record length or file offset limit was exceeded

  /** A process inside a library call, with the fields of its DB structure. */
  datatype Proc = Proc(pc: Pc, op: Op, ptroff: nat, idxoff: nat, ptrval: nat, idxlen: nat,
                       datoff: nat, datlen: nat, freeptr: nat, head: nat, saveoff: nat, res: Result)
  {
    function Chain(): (h: nat) { Hash(op.key) }
    function Go(to: Pc): (r: Proc) { this.(pc := to) }
    function Return(v: Result): (r: Proc) { this.(pc := UnlockChain, res := v) }
  }

  /** One finished call. */
  datatype Event = Event(p: nat, op: Op, res: Result)

  datatype State = State(idx: string, dat: string, locks: set<Lock>, procs: map<nat, Proc>, log: seq<Event>)
  {
    function With(p: nat, pr: Proc): (s: State) { this.(procs := procs[p := pr]) }
  }

  predicate CanLock(c: State, p: nat, n: LockName, write: bool)
  {
    forall l :: l in c.locks && l.owner != p && Overlap(l.name, n) ==> !l.write && !write
  }

  // ------------------------------------------------------------- file access

  function ReadAt(f: string, off: nat, n: nat): (r: Option<string>)
  {
    if off + n <= |f| then Some(f[off..off + n]) else None
  }

  function NatOf(s: Option<string>): (r: Option<nat>)
  {
    if s.Some? && Atol(s.value) >= 0 then Some(Atol(s.value)) else None
  }

  function GetPtr(idx: string, off: nat): (r: Option<nat>) { NatOf(ReadAt(idx, off, PTR_SZ)) }

  /** The fixed part of an index record: chain pointer and length. */
  function GetHdr(idx: string, off: nat): (r: Option<(nat, nat)>)
  {
    var ptr, len := GetPtr(idx, off), NatOf(ReadAt(idx, off + PTR_SZ, IDXLEN_SZ));
    if ptr.None? || len.None? || len.value < IDXLEN_MIN || len.value > IDXLEN_MAX then None
    else Some((ptr.value, len.value))
  }

  function GetBody(idx: string, off: nat, len: nat): (r: Option<Rec>)
  {
    match ReadAt(idx, off + HDR_SZ, len)
    case None => None
    case Some(s) => ParseBody(s)
  }

  function GetData(dat: string, off: nat, len: nat): (r: Option<string>)
  {
    match ReadAt(dat, off, len)
    case None => None
    case Some(s) => if s != [] && s[|s| - 1] == '\n' then Some(s[..|s| - 1]) else None
  }

  // -------------------------------------------------- decisions of a process

  /** _db_find_and_lock reached the end of the chain. */
  function Missing(pr: Proc): (r: Proc)
  {
    match pr.op
    case Fetch(_) => pr.Return(Null)
    case Delete(_) => pr.Return(Rc(-1))
    case Store(_, _, flag) => if flag == DB_REPLACE then pr.Return(Rc(-1)) else pr.Go(InsReadHead(true))
  }

  /** _db_find_and_lock found the key. */
  function Found(pr: Proc): (r: Proc)
  {
    match pr.op
    case Fetch(_) => pr.Go(FetchData)
    case Delete(_) => pr.Go(DelLockFree)
    case Store(_, data, flag) =>
      if flag == DB_INSERT then pr.Return(Rc(1))
      else if |data| + 1 != pr.datlen then pr.Go(DelLockFree)
      else pr.Go(OverwriteData)
  }

  function FollowChain(pr: Proc, next: nat): (r: Proc)
  {
    if next == 0 then Missing(pr) else pr.(pc := ReadHdr, idxoff := next)
  }

  function FollowFree(pr: Proc, next: nat): (r: Proc)
  {
    if next == 0 then pr.Go(FreeUnlock(false)) else pr.(pc := FreeReadHdr, idxoff := next)
  }

  /** The data a store writes; empty for the operations that write none. */
  function NewData(op: Op): (s: string) { if op.Store? then op.data else "" }

  function NewRec(pr: Proc): (r: Rec) { Rec(pr.op.key, pr.datoff, pr.datlen) }

  function BlankRec(pr: Proc): (r: Rec) { Rec(Blanks(|pr.op.key|), pr.datoff, pr.datlen) }

  predicate Printable(r: Rec) { IDXLEN_MIN <= |Body(r)| <= IDXLEN_MAX }

  // -------------------------------------------------------------------- steps

  function Take(c: State, p: nat, n: LockName, write: bool, pr: Proc): (s: Option<State>)
  {
    if CanLock(c, p, n, write) then Some(c.With(p, pr).(locks := c.locks + {Lock(p, n, write)})) else None
  }

  function Drop(c: State, p: nat, n: LockName, pr: Proc): (s: State)
  {
    c.With(p, pr).(locks := set l | l in c.locks && !(l.owner == p && l.name == n))
  }

  function PutIdx(c: State, off: nat, s: string, p: nat, pr: Proc): (r: State)
  {
    if off <= |c.idx| then c.With(p, pr).(idx := Splice(c.idx, off, s)) else c.With(p, pr.Go(Corrupt))
  }

  function PutDat(c: State, off: nat, s: string, p: nat, pr: Proc): (r: State)
  {
    if off <= |c.dat| then c.With(p, pr).(dat := Splice(c.dat, off, s)) else c.With(p, pr.Go(Corrupt))
  }

  function PutPtr(c: State, off: nat, v: nat, p: nat, pr: Proc): (r: State)
  {
    if v <= PTR_MAX then PutIdx(c, off, Pad(v, PTR_SZ), p, pr) else c.With(p, pr.Go(Full))
  }

  function PutRec(c: State, off: nat, ptr: nat, r: Rec, p: nat, pr: Proc): (s: State)
  {
    if ptr <= PTR_MAX && Printable(r) then PutIdx(c, off, RecBytes(ptr, r), p, pr) else c.With(p, pr.Go(Full))
  }

  // What a process does with the bytes it has read.

  function OnReadHead(idx: string, pr: Proc): (r: Proc)
  {
    match GetPtr(idx, pr.ptroff)
    case None => pr.Go(Corrupt)
    case Some(v) => FollowChain(pr, v)
  }

  function OnReadHdr(idx: string, pr: Proc, to: Pc): (r: Proc)
  {
    match GetHdr(idx, pr.idxoff)
    case None => pr.Go(Corrupt)
    case Some(hd) => pr.(pc := to, ptrval := hd.0, idxlen := hd.1)
  }

  function OnReadBody(idx: string, pr: Proc): (r: Proc)
  {
    match GetBody(idx, pr.idxoff, pr.idxlen)
    case None => pr.Go(Corrupt)
    case Some(r) =>
      var pr' := pr.(datoff := r.datoff, datlen := r.datlen);
      if r.key == pr.op.key then Found(pr') else FollowChain(pr'.(ptroff := pr.idxoff), pr.ptrval)
  }

  function OnFetchData(dat: string, pr: Proc): (r: Proc)
  {
    match GetData(dat, pr.datoff, pr.datlen)
    case None => pr.Go(Corrupt)
    case Some(d) => pr.Return(Data(d))
  }

  function OnDelReadFree(idx: string, pr: Proc): (r: Proc)
  {
    match GetPtr(idx, FREE_OFF)
    case None => pr.Go(Corrupt)
    case Some(v) => pr.(pc := DelBlankIdx, freeptr := v)
  }

  function OnInsReadHead(idx: string, pr: Proc, reuse: bool): (r: Proc)
  {
    match GetPtr(idx, ChainLoc(pr.Chain()))
    case None => pr.Go(Corrupt)
    case Some(v) => pr.(pc := if reuse then FreeLockList else AppLockData, head := v)
  }

  function OnFreeReadHead(idx: string, pr: Proc): (r: Proc)
  {
    match GetPtr(idx, pr.saveoff)
    case None => pr.Go(Corrupt)
    case Some(v) => FollowFree(pr, v)
  }

  function OnFreeReadBody(idx: string, pr: Proc): (r: Proc)
  {
    match GetBody(idx, pr.idxoff, pr.idxlen)
    case None => pr.Go(Corrupt)
    case Some(r) =>
      var pr' := pr.(datoff := r.datoff, datlen := r.datlen);
      if |r.key| == |pr.op.key| && r.datlen == |NewData(pr.op)| + 1 then pr'.Go(FreeUnlink)
      else FollowFree(pr'.(saveoff := pr.idxoff), pr.ptrval)
  }

  function OnSizeData(dat: string, pr: Proc): (r: Proc)
  {
    pr.(pc := AppWriteData, datoff := |dat|, datlen := |NewData(pr.op)| + 1)
  }

  /** _db_find_and_lock, and the parts of fetch and store around it. */
  function SearchStep(c: State, p: nat, pr: Proc): (s: Option<State>)
  {
    match pr.pc
    case LockChain =>
      Take(c, p, ChainLock(pr.Chain()), !pr.op.Fetch?, pr.(pc := ReadHead, ptroff := ChainLoc(pr.Chain())))
    case ReadHead => Some(c.With(p, OnReadHead(c.idx, pr)))
    case ReadHdr => Some(c.With(p, OnReadHdr(c.idx, pr, ReadBody)))
    case ReadBody => Some(c.With(p, OnReadBody(c.idx, pr)))
    case FetchData => Some(c.With(p, OnFetchData(c.dat, pr)))
    case OverwriteData => Some(PutDat(c, pr.datoff, NewData(pr.op) + "\n", p, pr.Return(Rc(0))))
    case UnlockChain =>
      Some(Drop(c, p, ChainLock(pr.Chain()), pr.Go(Idle)).(log := c.log + [Event(p, pr.op, pr.res)]))
    case _ => None
  }

  /** _db_dodelete. */
  function DeleteStep(c: State, p: nat, pr: Proc): (s: Option<State>)
  {
    match pr.pc
    case DelLockFree => Take(c, p, FreeLock, true, pr.Go(DelBlankData))
    case DelBlankData =>
      Some(if pr.datlen == 0 then c.With(p, pr.Go(Corrupt))
           else PutDat(c, pr.datoff, Blanks(pr.datlen - 1) + "\n", p, pr.Go(DelReadFree)))
    case DelReadFree => Some(c.With(p, OnDelReadFree(c.idx, pr)))
    case DelBlankIdx => Some(PutRec(c, pr.idxoff, pr.freeptr, BlankRec(pr), p, pr.Go(DelWriteFree)))
    case DelWriteFree => Some(PutPtr(c, FREE_OFF, pr.idxoff, p, pr.Go(DelWritePred)))
    case DelWritePred => Some(PutPtr(c, pr.ptroff, pr.ptrval, p, pr.Go(DelUnlockFree)))
    case DelUnlockFree =>
      Some(Drop(c, p, FreeLock, if pr.op.Store? then pr.Go(InsReadHead(false)) else pr.Return(Rc(0))))
    case _ => None
  }

  /** _db_findfree, and reuse of the record it finds. */
  function ReuseStep(c: State, p: nat, pr: Proc): (s: Option<State>)
  {
    match pr.pc
    case InsReadHead(reuse) => Some(c.With(p, OnInsReadHead(c.idx, pr, reuse)))
    case FreeLockList => Take(c, p, FreeLock, true, pr.(pc := FreeReadHead, saveoff := FREE_OFF))
    case FreeReadHead => Some(c.With(p, OnFreeReadHead(c.idx, pr)))
    case FreeReadHdr => Some(c.With(p, OnReadHdr(c.idx, pr, FreeReadBody)))
    case FreeReadBody => Some(c.With(p, OnFreeReadBody(c.idx, pr)))
    case FreeUnlink => Some(PutPtr(c, pr.saveoff, pr.ptrval, p, pr.Go(FreeUnlock(true))))
    case FreeUnlock(hit) => Some(Drop(c, p, FreeLock, pr.Go(if hit then ReuseData else AppLockData)))
    case ReuseData => Some(PutDat(c, pr.datoff, NewData(pr.op) + "\n", p, pr.Go(ReuseIdx)))
    case ReuseIdx => Some(PutRec(c, pr.idxoff, pr.head, NewRec(pr), p, pr.Go(LinkHead)))
    case LinkHead => Some(PutPtr(c, ChainLoc(pr.Chain()), pr.idxoff, p, pr.Return(Rc(0))))
    case _ => None
  }

  /** Appending a new data record and then a new index record. */
  function AppendStep(c: State, p: nat, pr: Proc): (s: Option<State>)
  {
    match pr.pc
    case AppLockData => Take(c, p, DataLock, true, pr.Go(AppSizeData))
    case AppSizeData => Some(c.With(p, OnSizeData(c.dat, pr)))
    case AppWriteData => Some(PutDat(c, pr.datoff, NewData(pr.op) + "\n", p, pr.Go(AppUnlockData)))
    case AppUnlockData =>
      Some(Drop(c, p, DataLock, pr.Go(if Printable(NewRec(pr)) then AppLockIdx else Full)))
    case AppLockIdx => Take(c, p, IndexLock, true, pr.Go(AppSizeIdx))
    case AppSizeIdx => Some(c.With(p, pr.(pc := AppWriteIdx, idxoff := |c.idx|)))
    case AppWriteIdx => Some(PutRec(c, pr.idxoff, pr.head, NewRec(pr), p, pr.Go(AppUnlockIdx)))
    case AppUnlockIdx =>
      Some(Drop(c, p, IndexLock, pr.Go(if pr.idxoff <= PTR_MAX then LinkHead else Full)))
    case _ => None
  }

  /** One system call of process p; None while it is blocked or has none to make. */
  function Step(c: State, p: nat): (s: Option<State>)
    requires p in c.procs
  {
    var pr := c.procs[p];
    var search, delete := SearchStep(c, p, pr), DeleteStep(c, p, pr);
    var reuse, append := ReuseStep(c, p, pr), AppendStep(c, p, pr);
    if search.Some? then search else if delete.Some? then delete
    else if reuse.Some? then reuse else append
  }

  predicate ValidOp(op: Op)
  {
    && ValidKey(op.key)
    && (op.Store? ==> '\0' !in op.data && DATLEN_MIN <= |op.data| + 1 <= DATLEN_MAX)
  }

  /** An idle process makes a library call. A bad flag returns at once. */
  function Begin(c: State, p: nat, op: Op): (s: State)
    requires p in c.procs
  {
    if BadFlag(op) then c.(log := c.log + [Event(p, op, Rc(-1))])
    else c.With(p, c.procs[p].(pc := LockChain, op := op))
  }

  ghost predicate Next(c: State, c': State)
  {
    exists p :: p in c.procs && (Step(c, p) == Some(c') || Begins(c, p, c'))
  }

  ghost predicate Begins(c: State, p: nat, c': State)
    requires p in c.procs
  {
    c.procs[p].pc.Idle? && exists op :: ValidOp(op) && c' == Begin(c, p, op)
  }

  /** The index file as db_open writes it: 138 zero pointers and a newline. */
  function ZeroPtrs(n: nat): (s: string) { if n == 0 then [] else ZeroPtrs(n - 1) + Pad(0, PTR_SZ) }

  ghost predicate Init(c: State)
  {
    && c.idx == ZeroPtrs(NHASH + 1) + "\n" && c.dat == [] && c.locks == {} && c.log == []
    && forall p :: p in c.procs ==> c.procs[p].pc.Idle?
  }
}
