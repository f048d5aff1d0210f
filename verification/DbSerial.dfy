/** Every step of the concurrent library keeps the invariant. */
module DbSerial {
  import opened Options
  import opened DbFormat
  import opened DbLayout
  import opened DbWorld
  import opened DbMoves
  import opened DbSpec
  import opened DbProtocol
  import opened DbInvariant

  // ---------------------------------------------------------- putting a step together

  /** The records and segments in p's hands are the ones it knows about. */
  ghost predicate OwnHands(p: nat, pr: Proc, w: World)
  {
    && (forall x :: x in w.place && w.place[x] == Held(p) ==> HoldsRec(pr.pc) && pr.idxoff == x)
    && (p in w.flight ==> InFlight(pr.pc))
  }

  lemma KeepOthers(c: State, w: World, view: Map, c': State, w': World, view': Map, p: nat, pr': Proc, q: nat)
    requires Locals(c.procs, c.dat, w, view, MapOf(c.log)) && Exclusive(c)
    requires p in c.procs && q in c.procs && q != p
    requires Permitted(AuthOf(p, c.procs[p]), w, c.dat, view, w', c'.dat, view')
    requires forall j :: 0 <= j < NHASH && AuthOf(p, c.procs[p]).chain != Some(j) ==>
               SameOn(j, MapOf(c.log), MapOf(c'.log))
    ensures Local(c.procs[q], q, c'.dat, w', view', MapOf(c'.log))
  {
    hide Local, Permitted, SameOn, Hash, MapOf;
    var a, prq := AuthOf(p, c.procs[p]), c.procs[q];
    assert !Clash(c.procs[p], prq);
    assert HoldsChain(prq.pc) ==> a.chain != Some(prq.Chain());
    LocalFrame(prq, q, a, c.dat, w, view, MapOf(c.log), c'.dat, w', view', MapOf(c'.log));
  }

  lemma KeepQuiet(c: State, w: World, view: Map, c': State, w': World, view': Map, p: nat, pr': Proc, h: nat)
    requires QuietChains(c.procs, c.dat, w, view, MapOf(c.log)) && p in c.procs
    requires c'.procs == c.procs[p := pr'] && h < NHASH && NoWriter(c'.procs, h)
    requires OtherChainsSame(AuthOf(p, c.procs[p]), w, c.dat, view, w', c'.dat, view')
    requires forall j :: 0 <= j < NHASH && AuthOf(p, c.procs[p]).chain != Some(j) ==>
               SameOn(j, MapOf(c.log), MapOf(c'.log))
    requires Writes(c.procs[p]) && !Writes(pr') ==> Quiet(w', c'.dat, view', MapOf(c'.log), c.procs[p].Chain())
    requires Writes(c.procs[p]) && Writes(pr') ==> pr'.Chain() == c.procs[p].Chain()
    ensures Quiet(w', c'.dat, view', MapOf(c'.log), h)
  {
    var pr := c.procs[p];
    hide SameOn, Hash, MapOf, ChainSound;
    assert c'.procs[p] == pr';
    if !(Writes(pr) && pr.Chain() == h) {
      assert NoWriter(c.procs, h) by {
        forall q | q in c.procs && Writes(c.procs[q]) ensures c.procs[q].Chain() != h {
          if q != p { assert c'.procs[q] == c.procs[q]; }
        }
      }
      assert Quiet(w, c.dat, view, MapOf(c.log), h);
      assert ChainSame(w, c.dat, w', c'.dat, h);
      SoundFrame(w, c.dat, view, w', c'.dat, view', h);
      SameSym(h, view, view');
      SameTrans(h, view', view, MapOf(c.log));
      SameTrans(h, view', MapOf(c.log), MapOf(c'.log));
    }
  }

  lemma KeepOwners(c: State, w: World, view: Map, c': State, w': World, p: nat, pr': Proc)
    requires Owners(c.procs, w) && p in c.procs && c'.procs == c.procs[p := pr']
    requires HandsSame(p, w, c.dat, w', c'.dat) && FlightSame(p, w, c.dat, w', c'.dat) && OwnHands(p, pr', w')
    ensures Owners(c'.procs, w')
  {
    hide Contents, RecSame;
  }

  /** A step within p's authority that leaves p with a true local assertion
      keeps the whole invariant. */
  lemma Assemble(c: State, w: World, view: Map, c': State, w': World, view': Map, p: nat, pr': Proc)
    requires Inv(c, w, view) && p in c.procs && c'.procs == c.procs[p := pr']
    requires Core(c'.idx, c'.dat, w') && FreeSound(w')
    requires Permitted(AuthOf(p, c.procs[p]), w, c.dat, view, w', c'.dat, view')
    requires forall j :: 0 <= j < NHASH && AuthOf(p, c.procs[p]).chain != Some(j) ==>
               SameOn(j, MapOf(c.log), MapOf(c'.log))
    requires Local(pr', p, c'.dat, w', view', MapOf(c'.log))
    requires LockTable(c') && Exclusive(c')
    requires Writes(c.procs[p]) && !Writes(pr') ==> Quiet(w', c'.dat, view', MapOf(c'.log), c.procs[p].Chain())
    requires Writes(c.procs[p]) && Writes(pr') ==> pr'.Chain() == c.procs[p].Chain()
    requires OwnHands(p, pr', w') && Serial(c'.log)
    ensures Inv(c', w', view')
  {
    hide Core, FreeSound, Local, LockTable, Exclusive, Quiet, OwnHands, Serial, SameOn, Hash, MapOf, Owners;
    hide OtherChainsSame, FreeSame, HandsSame, FlightSame, SizesSame, NoWriter, Writes;
    forall q | q in c'.procs ensures Local(c'.procs[q], q, c'.dat, w', view', MapOf(c'.log)) {
      if q != p {
        assert c'.procs[q] == c.procs[q];
        KeepOthers(c, w, view, c', w', view', p, pr', q);
      }
    }
    forall h | 0 <= h < NHASH && NoWriter(c'.procs, h) ensures Quiet(w', c'.dat, view', MapOf(c'.log), h) {
      KeepQuiet(c, w, view, c', w', view', p, pr', h);
    }
    KeepOwners(c, w, view, c', w', p, pr');
  }

  lemma NothingChanged(idx: string, dat: string, w: World, view: Map, a: Auth)
    requires Core(idx, dat, w)
    ensures Permitted(a, w, dat, view, w, dat, view)
  {
    hide Laid, Segs, Contents;
    RecsHavePtrs(idx, dat, w);
    ChainSlot(w.img, 0);
    FreePlaces(w);
    forall j | 0 <= j < NHASH ensures ChainSame(w, dat, w, dat, j) {
      ChainSlot(w.img, j);
      ChainPlaces(w, j);
    }
  }

  /** A step that changes no file. */
  lemma Quietly(c: State, w: World, view: Map, c': State, p: nat, pr': Proc)
    requires Inv(c, w, view) && p in c.procs
    requires c' == c.With(p, pr').(locks := c'.locks)
    requires Local(pr', p, c.dat, w, view, MapOf(c.log))
    requires LockTable(c') && Exclusive(c')
    requires Writes(c.procs[p]) ==> Writes(pr') && pr'.Chain() == c.procs[p].Chain()
    requires HoldsRec(c.procs[p].pc) ==> HoldsRec(pr'.pc) && pr'.idxoff == c.procs[p].idxoff
    requires InFlight(c.procs[p].pc) ==> InFlight(pr'.pc)
    ensures Inv(c', w, view)
  {
    hide Core, FreeSound, Local, LockTable, Exclusive, Quiet, Serial, SameOn, Hash, MapOf, Permitted, Locals,
         QuietChains;
    NothingChanged(c.idx, c.dat, w, view, AuthOf(p, c.procs[p]));
    forall j ensures SameOn(j, MapOf(c.log), MapOf(c'.log)) { SameRefl(j, MapOf(c.log)); }
    assert OwnHands(p, pr', w);
    Assemble(c, w, view, c', w, view, p, pr');
  }

  lemma SameRefl(j: nat, m: Map)
    ensures SameOn(j, m, m)
  {
  }

  // ------------------------------------------------------------------- locks

  predicate SameLocks(a: Proc, b: Proc)
  {
    && HoldsChain(a.pc) == HoldsChain(b.pc) && HoldsFree(a.pc) == HoldsFree(b.pc)
    && HoldsData(a.pc) == HoldsData(b.pc) && HoldsIndex(a.pc) == HoldsIndex(b.pc) && a.op == b.op
  }

  lemma LocksKept(c: State, c': State, p: nat, pr': Proc)
    requires LockTable(c) && Exclusive(c) && p in c.procs
    requires c'.procs == c.procs[p := pr'] && c'.locks == c.locks && SameLocks(c.procs[p], pr')
    ensures LockTable(c') && Exclusive(c')
  {
    hide Hash, HoldsChain, HoldsFree, HoldsData, HoldsIndex;
  }

  lemma OverlapSame(a: LockName, b: LockName)
    requires a.ChainLock? ==> a.h < NHASH
    requires b.ChainLock? ==> b.h < NHASH
    ensures Overlap(a, b) <==> a == b
  {
  }

  predicate NameOk(n: LockName) { n.ChainLock? ==> n.h < NHASH }

  lemma LocksTaken(c: State, c': State, p: nat, n: LockName, write: bool, pr': Proc)
    requires LockTable(c) && Exclusive(c) && p in c.procs && Take(c, p, n, write, pr') == Some(c')
    requires forall n', w' :: HasLock(pr', n', w') <==> HasLock(c.procs[p], n', w') || (n' == n && w' == write)
    ensures LockTable(c') && Exclusive(c')
  {
    hide Hash, HoldsChain, HoldsFree, HoldsData, HoldsIndex, Overlap;
    assert LockTable(c');
    forall q | q in c.procs && q != p ensures !Clash(pr', c.procs[q]) && !Clash(c.procs[q], pr') {
      NoClash(c, p, n, write, pr', q);
    }
  }

  lemma NoClash(c: State, p: nat, n: LockName, write: bool, pr': Proc, q: nat)
    requires LockTable(c) && Exclusive(c) && p in c.procs && q in c.procs && p != q && CanLock(c, p, n, write)
    requires forall n', w' :: HasLock(pr', n', w') <==> HasLock(c.procs[p], n', w') || (n' == n && w' == write)
    ensures !Clash(pr', c.procs[q]) && !Clash(c.procs[q], pr')
  {
    var pr, prq := c.procs[p], c.procs[q];
    assert !Clash(pr, prq);
    if Clash(pr', prq) {
      var n', write' := ClashLock(pr', prq);
      assert n' == n by { if HasLock(pr, n', write') { ClashBy(pr, prq, n', write'); } }
      var wq := if n'.ChainLock? then !prq.op.Fetch? else true;
      assert Lock(q, n', wq) in c.locks;
      hide Hash, HoldsChain, HoldsFree, HoldsData, HoldsIndex, Overlap;
      OverlapSame(n', n');
    }
  }

  /** Two clashing processes share a lock, one of them for writing. */
  lemma ClashLock(a: Proc, b: Proc) returns (n: LockName, write: bool)
    requires Clash(a, b)
    ensures NameOk(n) && HasLock(a, n, write)
    ensures HasLock(b, n, if n.ChainLock? then !b.op.Fetch? else true)
    ensures write || !n.ChainLock? || !b.op.Fetch?
  {
    hide HoldsChain, HoldsFree, HoldsData, HoldsIndex;
    write := true;
    if HoldsFree(a.pc) && HoldsFree(b.pc) { n := FreeLock; }
    else if HoldsData(a.pc) && HoldsData(b.pc) { n := DataLock; }
    else if HoldsIndex(a.pc) && HoldsIndex(b.pc) { n := IndexLock; }
    else { n := ChainLock(a.Chain()); write := !a.op.Fetch?; }
  }

  lemma ClashBy(a: Proc, b: Proc, n: LockName, write: bool)
    requires HasLock(a, n, write) && HasLock(b, n, if n.ChainLock? then !b.op.Fetch? else true)
    requires write || !n.ChainLock? || !b.op.Fetch?
    ensures Clash(a, b)
  {
    hide HoldsChain, HoldsFree, HoldsData, HoldsIndex, Hash;
  }

  lemma LocksDropped(c: State, c': State, p: nat, n: LockName, pr': Proc)
    requires LockTable(c) && Exclusive(c) && p in c.procs
    requires c'.procs == Drop(c, p, n, pr').procs && c'.locks == Drop(c, p, n, pr').locks
    requires forall n', w' :: HasLock(pr', n', w') <==> HasLock(c.procs[p], n', w') && n' != n
    ensures LockTable(c') && Exclusive(c')
  {
    hide Hash, HoldsChain, HoldsFree, HoldsData, HoldsIndex;
    forall q | q in c.procs && q != p ensures !Clash(pr', c.procs[q]) && !Clash(c.procs[q], pr') {
      if Clash(pr', c.procs[q]) {
        var n', write' := ClashLock(pr', c.procs[q]);
        ClashBy(c.procs[p], c.procs[q], n', write');
      }
      ClashSym(pr', c.procs[q]);
    }
  }

  lemma ClashSym(a: Proc, b: Proc)
    ensures Clash(a, b) <==> Clash(b, a)
  {
  }
}
