/**
 * The System V semaphore wrapper of apue/lib/semaph.c: a set of three counters
 * -- the value, a count of processes, a lock -- that many processes create,
 * open and close, and that any of them may leave by exiting at any step.  Each
 * system call is one atomic step; the kernel undoes a process's adjustments
 * when it exits.
 *
 * A process here is one use of the semaphore: it creates or opens it once.
 */
module Semaphore {
  import opened Collections

  const BIGCOUNT := 10000

  type Pid = nat
  type SemId = nat

  // Where a process stands, between two system calls.
  datatype Pc =
    | Get          // sem_create: about to semget
    | Lock         // sem_create: about to lock
    | Read         // sem_create: locked, about to read the process counter
    | Set0         // sem_create: locked, about to set the value
    | Set1         // sem_create: locked, about to set the process counter
    | End          // sem_create: locked, about to count itself and unlock
    | OpenOp       // sem_open: about to count itself
    | Open         // has the semaphore open
    | CloseRead    // sem_close: locked and no longer counted, about to read
    | Remove       // sem_close: locked, about to remove the set
    | Unlock       // sem_close: locked, about to unlock
    | Closed

  // The adjustments adj the kernel will make when the process exits.
  datatype Proc = Proc(pc: Pc, id: SemId, init: nat, adj0: int, adj1: int, adj2: int)

  // The three members; ready and late are not in the kernel: whether the set
  // was initialised, and who opened it since a closing process read the counter.
  datatype Set = Set(value: nat, count: nat, lock: nat, ready: bool, late: set<Pid>)

  datatype State = State(
    sets: map<SemId, Set>,
    key: SemId,                 // the set the key names, if it still exists
    next: SemId,                // identifiers from here on are unused
    procs: map<Pid, Proc>)

  datatype Act =
    | StartCreate(p: Pid, init: nat)
    | StartOpen(p: Pid)
    | Go(p: Pid)                // the process makes the system call it is about to make
    | Again(p: Pid)             // sem_create finds its set removed and starts over
    | Operate(p: Pid, d: int)   // sem_wait, sem_signal, sem_op
    | Close(p: Pid)             // sem_close begins
    | Rm(id: SemId)             // sem_rm by anyone, whoever may be using the set
    | Exit(p: Pid)              // at any step, by choice, by error or by a crash

  predicate Enabled(s: State, a: Act)
  {
    match a
    case StartCreate(p, init) => p !in s.procs
    case StartOpen(p) => p !in s.procs && s.key in s.sets
    case Exit(p) => p in s.procs
    case Rm(id) => id in s.sets
    case Again(p) => p in s.procs && s.procs[p].pc.Lock? && s.procs[p].id !in s.sets
    case Operate(p, d) =>
      && p in s.procs && s.procs[p].pc.Open? && s.procs[p].id in s.sets && d != 0
      && s.sets[s.procs[p].id].value + d >= 0
    case Close(p) => p in s.procs && s.procs[p].pc.Open? && s.procs[p].id in s.sets && s.sets[s.procs[p].id].lock == 0
    case Go(p) =>
      && p in s.procs
      && (s.procs[p].pc.Get? || s.procs[p].id in s.sets)
      && match s.procs[p].pc
         case Open | Closed => false
         case Lock => s.sets[s.procs[p].id].lock == 0
         case End => s.sets[s.procs[p].id].count >= 1 && s.sets[s.procs[p].id].lock >= 1
         case OpenOp => s.sets[s.procs[p].id].count >= 1
         case Unlock => s.sets[s.procs[p].id].lock >= 1
         case _ => true
  }

  // A kernel counter after an adjustment; it never becomes negative.
  function Undo(v: nat, d: int): nat
  {
    if v + d >= 0 then v + d else 0
  }

  function Apply(s: State, a: Act): (t: State)
    requires Enabled(s, a)
  {
    match a
    case StartCreate(p, init) => s.(procs := s.procs[p := Proc(Get, 0, init, 0, 0, 0)])
    case StartOpen(p) => s.(procs := s.procs[p := Proc(OpenOp, s.key, 0, 0, 0, 0)])
    case Again(p) => s.(procs := s.procs[p := s.procs[p].(pc := Get)])
    case Rm(id) => s.(sets := s.sets - {id})
    case Operate(p, d) =>
      var pr := s.procs[p];
      With(s, p, pr.(adj0 := pr.adj0 - d), s.sets[pr.id].(value := s.sets[pr.id].value + d))
    case Close(p) =>
      var pr := s.procs[p];
      With(s, p, pr.(pc := CloseRead, adj1 := pr.adj1 - 1, adj2 := pr.adj2 - 1),
           s.sets[pr.id].(lock := 1, count := s.sets[pr.id].count + 1))
    case Exit(p) =>
      var pr := s.procs[p];
      var t := s.(procs := s.procs - {p});
      if pr.id !in s.sets || pr.pc.Get? then t
      else
        var k := s.sets[pr.id];
        t.(sets := s.sets[pr.id := Set(Undo(k.value, pr.adj0), Undo(k.count, pr.adj1), Undo(k.lock, pr.adj2), k.ready,
                                       k.late - {p})])
    case Go(p) => Call(s, p)
  }

  function With(s: State, p: Pid, pr: Proc, k: Set): (t: State)
  {
    s.(procs := s.procs[p := pr], sets := s.sets[pr.id := k])
  }

  // SETVAL clears every process's adjustment of that member.
  function Cleared(procs: map<Pid, Proc>, id: SemId, member: nat): (r: map<Pid, Proc>)
  {
    map p | p in procs :: if procs[p].id != id then procs[p]
                          else if member == 0 then procs[p].(adj0 := 0) else procs[p].(adj1 := 0)
  }

  // The system call that process p is about to make.
  function Call(s: State, p: Pid): (t: State)
    requires Enabled(s, Go(p))
  {
    var pr := s.procs[p];
    if pr.pc.Get? then
      if s.key in s.sets then s.(procs := s.procs[p := pr.(pc := Lock, id := s.key)])
      else State(s.sets[s.next := Set(0, 0, 0, false, {})], s.next, s.next + 1,
                 s.procs[p := pr.(pc := Lock, id := s.next)])
    else
      var k := s.sets[pr.id];
      match pr.pc
      case Lock => With(s, p, pr.(pc := Read, adj2 := pr.adj2 - 1), k.(lock := 1))
      case Read => With(s, p, pr.(pc := if k.count == 0 then Set0 else End), k)
      case Set0 =>
        With(s.(procs := Cleared(s.procs, pr.id, 0)), p, pr.(pc := Set1, adj0 := 0), k.(value := pr.init))
      case Set1 =>
        With(s.(procs := Cleared(s.procs, pr.id, 1)), p, pr.(pc := End, adj1 := 0),
             k.(count := BIGCOUNT, ready := true))
      case End =>
        With(s, p, pr.(pc := Open, adj1 := pr.adj1 + 1, adj2 := pr.adj2 + 1),
             k.(count := k.count - 1, lock := k.lock - 1))
      case OpenOp => With(s, p, pr.(pc := Open, adj1 := pr.adj1 + 1), k.(count := k.count - 1, late := k.late + {p}))
      case CloseRead =>
        With(s, p, pr.(pc := if k.count == BIGCOUNT then Remove else Unlock), k.(late := {}))
      case Remove =>
        s.(procs := s.procs[p := pr.(pc := Closed, adj0 := 0, adj1 := 0, adj2 := 0)], sets := s.sets - {pr.id})
      case Unlock => With(s, p, pr.(pc := Closed, adj2 := pr.adj2 + 1), k.(lock := k.lock - 1))
      case _ => s
  }

  // ---- the invariant --------------------------------------------------------

  function Openers(procs: map<Pid, Proc>, id: SemId): set<Pid>
  {
    set p | p in procs && procs[p].pc.Open? && procs[p].id == id
  }

  predicate Locked(pc: Pc)
  {
    pc.Read? || pc.Set0? || pc.Set1? || pc.End? || pc.CloseRead? || pc.Remove? || pc.Unlock?
  }

  function Lockers(procs: map<Pid, Proc>, id: SemId): set<Pid>
  {
    set p | p in procs && Locked(procs[p].pc) && procs[p].id == id
  }

  // A process's adjustments are what its place in the protocol says.
  ghost predicate Adjusted(pr: Proc)
  {
    && pr.adj1 == (if pr.pc.Open? then 1 else 0)
    && pr.adj2 == (if Locked(pr.pc) then -1 else 0)
  }

  // What the lock holder has established about the set.
  ghost predicate Knows(pr: Proc, k: Set, openers: set<Pid>)
  {
    && (pr.pc.Set0? || pr.pc.Set1? ==> !k.ready)
    && (pr.pc.End? ==> k.ready)
    && (pr.pc.CloseRead? || pr.pc.Remove? || pr.pc.Unlock? ==> k.ready)
    && (pr.pc.Remove? ==> openers == k.late)
  }

  ghost predicate SetOk(k: Set, openers: set<Pid>, lockers: set<Pid>)
  {
    && k.lock == |lockers| && k.lock <= 1
    && k.count == (if k.ready then BIGCOUNT - |openers| else 0)
    && (!k.ready ==> openers == {})
  }

  ghost predicate Inv(s: State)
  {
    && (forall id :: id in s.sets ==> id < s.next && SetOk(s.sets[id], Openers(s.procs, id), Lockers(s.procs, id)))
    && (forall p :: p in s.procs ==> Adjusted(s.procs[p]) && (!s.procs[p].pc.Get? ==> s.procs[p].id < s.next))
    && (forall p :: p in s.procs && s.procs[p].id in s.sets && !s.procs[p].pc.Get? ==>
      Knows(s.procs[p], s.sets[s.procs[p].id], Openers(s.procs, s.procs[p].id)))
  }

  // If the step is sem_create's reading of the counter, fewer processes have
  // the set open than the counter can count.
  ghost predicate Few(s: State, a: Act)
  {
    a.Go? && a.p in s.procs && s.procs[a.p].pc.Read? ==> |Openers(s.procs, s.procs[a.p].id)| < BIGCOUNT
  }

  // ---- one process moves ------------------------------------------------------

  ghost function Marked(who: set<Pid>, p: Pid, yes: bool): set<Pid>
  {
    if yes then who + {p} else who - {p}
  }

  lemma OpenersSet(procs: map<Pid, Proc>, p: Pid, pr: Proc, id: SemId)
    ensures Openers(procs[p := pr], id) == Marked(Openers(procs, id), p, pr.pc.Open? && pr.id == id)
    ensures Lockers(procs[p := pr], id) == Marked(Lockers(procs, id), p, Locked(pr.pc) && pr.id == id)
  {
  }

  lemma OtherSet(procs: map<Pid, Proc>, p: Pid, pr: Proc, id: SemId)
    requires p in procs ==> procs[p].id != id || (!procs[p].pc.Open? && !Locked(procs[p].pc))
    requires pr.id != id || (!pr.pc.Open? && !Locked(pr.pc))
    ensures Openers(procs[p := pr], id) == Openers(procs, id) && Lockers(procs[p := pr], id) == Lockers(procs, id)
    ensures Openers(procs - {p}, id) == Openers(procs, id) && Lockers(procs - {p}, id) == Lockers(procs, id)
  {
  }

  lemma OpenersGone(procs: map<Pid, Proc>, p: Pid, id: SemId)
    ensures Openers(procs - {p}, id) == Openers(procs, id) - {p}
    ensures Lockers(procs - {p}, id) == Lockers(procs, id) - {p}
  {
  }

  // Only one process holds a set's lock.
  lemma OneLocker(s: State, p: Pid, q: Pid)
    requires Inv(s) && p in s.procs && q in s.procs && p != q
    requires s.procs[p].id == s.procs[q].id && s.procs[p].id in s.sets
    requires Locked(s.procs[p].pc)
    ensures !Locked(s.procs[q].pc)
  {
    hide Adjusted, Knows, Openers;
    var l := Lockers(s.procs, s.procs[p].id);
    if Locked(s.procs[q].pc) {
      assert {p, q} <= l;
      SubsetSize({p, q}, l);
    }
  }

  ghost predicate OthersKnow(s: State, p: Pid, id: SemId, k: Set, openers: set<Pid>)
  {
    forall q :: q in s.procs && q != p && s.procs[q].id == id && !s.procs[q].pc.Get? ==> Knows(s.procs[q], k, openers)
  }

  lemma Unlocked(pr: Proc, k: Set, openers: set<Pid>)
    requires !Locked(pr.pc)
    ensures Knows(pr, k, openers)
  {
  }

  lemma LockerAlone(s: State, p: Pid, k: Set, openers: set<Pid>)
    requires Inv(s) && p in s.procs && s.procs[p].id in s.sets && Locked(s.procs[p].pc)
    ensures OthersKnow(s, p, s.procs[p].id, k, openers)
  {
    hide Inv, Locked, Knows;
    forall q | q in s.procs && q != p && s.procs[q].id == s.procs[p].id && !s.procs[q].pc.Get?
      ensures Knows(s.procs[q], k, openers)
    {
      OneLocker(s, p, q);
      Unlocked(s.procs[q], k, openers);
    }
  }

  lemma NobodyLocks(s: State, p: Pid, id: SemId, k: Set, openers: set<Pid>)
    requires Inv(s) && id in s.sets && s.sets[id].lock == 0
    ensures OthersKnow(s, p, id, k, openers)
  {
    hide Adjusted, Knows, Openers;
    assert Lockers(s.procs, id) == {};
    forall q | q in s.procs && q != p && s.procs[q].id == id && !s.procs[q].pc.Get?
      ensures Knows(s.procs[q], k, openers)
    {
      assert q !in Lockers(s.procs, id);
      Unlocked(s.procs[q], k, openers);
    }
  }

  // Process p moves and its set changes to k.
  lemma WithKeeps(s: State, p: Pid, pr: Proc, k: Set)
    requires Inv(s) && p in s.procs && pr.id == s.procs[p].id && pr.id in s.sets && !pr.pc.Get? && !s.procs[p].pc.Get?
    requires Adjusted(pr)
    requires var o := Marked(Openers(s.procs, pr.id), p, pr.pc.Open?);
      SetOk(k, o, Marked(Lockers(s.procs, pr.id), p, Locked(pr.pc))) && Knows(pr, k, o) && OthersKnow(s, p, pr.id, k, o)
    ensures Inv(With(s, p, pr, k))
  {
    hide Openers, Lockers, Adjusted, Knows, SetOk, Locked;
    var t := With(s, p, pr, k);
    forall id | id in t.sets
      ensures SetOk(t.sets[id], Openers(t.procs, id), Lockers(t.procs, id))
    {
      if id == pr.id {
        OpenersSet(s.procs, p, pr, id);
      } else {
        OtherSet(s.procs, p, pr, id);
      }
    }
    forall q | q in t.procs && t.procs[q].id in t.sets && !t.procs[q].pc.Get?
      ensures Knows(t.procs[q], t.sets[t.procs[q].id], Openers(t.procs, t.procs[q].id))
    {
      if t.procs[q].id == pr.id {
        OpenersSet(s.procs, p, pr, pr.id);
      } else {
        OtherSet(s.procs, p, pr, t.procs[q].id);
      }
    }
  }

  lemma Facts(s: State, p: Pid)
    requires Inv(s) && p in s.procs && s.procs[p].id in s.sets && !s.procs[p].pc.Get?
    ensures var pr := s.procs[p];
      var k, o, l := s.sets[pr.id], Openers(s.procs, pr.id), Lockers(s.procs, pr.id);
      && Adjusted(pr) && SetOk(k, o, l) && Knows(pr, k, o) && pr.id < s.next
      && (p in o <==> pr.pc.Open?) && (p in l <==> Locked(pr.pc))
  {
    hide Adjusted, Knows, SetOk, Locked;
  }

  // ---- every step keeps the invariant -------------------------------------------

  lemma LockKeeps(s: State, p: Pid)
    requires Inv(s) && Enabled(s, Go(p)) && s.procs[p].pc.Lock?
    ensures Inv(Call(s, p))
  {
    hide Inv, Openers, Lockers, OthersKnow;
    var pr := s.procs[p];
    var k := s.sets[pr.id].(lock := 1);
    Facts(s, p);
    NobodyLocks(s, p, pr.id, k, Openers(s.procs, pr.id) - {p});
    WithKeeps(s, p, pr.(pc := Read, adj2 := pr.adj2 - 1), k);
  }

  lemma ReadKeeps(s: State, p: Pid)
    requires Inv(s) && Few(s, Go(p)) && Enabled(s, Go(p)) && (s.procs[p].pc.Read? || s.procs[p].pc.CloseRead?)
    ensures Inv(Call(s, p))
  {
    hide Inv, Openers, Lockers, OthersKnow;
    var pr := s.procs[p];
    var k := s.sets[pr.id];
    Facts(s, p);
    var o := Openers(s.procs, pr.id);
    assert o - {p} == o;
    if pr.pc.Read? {
      LockerAlone(s, p, k, o);
      WithKeeps(s, p, pr.(pc := if k.count == 0 then Set0 else End), k);
    } else {
      LockerAlone(s, p, k.(late := {}), o);
      WithKeeps(s, p, pr.(pc := if k.count == BIGCOUNT then Remove else Unlock), k.(late := {}));
    }
  }

  lemma EndKeeps(s: State, p: Pid)
    requires Inv(s) && Enabled(s, Go(p)) && (s.procs[p].pc.End? || s.procs[p].pc.Unlock?)
    ensures Inv(Call(s, p))
  {
    hide Inv, Openers, Lockers, OthersKnow;
    var pr := s.procs[p];
    var k := s.sets[pr.id];
    Facts(s, p);
    var o := Openers(s.procs, pr.id);
    if pr.pc.End? {
      LockerAlone(s, p, k.(count := k.count - 1, lock := k.lock - 1), o + {p});
      WithKeeps(s, p, pr.(pc := Open, adj1 := pr.adj1 + 1, adj2 := pr.adj2 + 1),
                k.(count := k.count - 1, lock := k.lock - 1));
    } else {
      LockerAlone(s, p, k.(lock := k.lock - 1), o - {p});
      assert o - {p} == o;
      WithKeeps(s, p, pr.(pc := Closed, adj2 := pr.adj2 + 1), k.(lock := k.lock - 1));
    }
  }

  lemma OpenKeeps(s: State, p: Pid)
    requires Inv(s) && Enabled(s, Go(p)) && s.procs[p].pc.OpenOp?
    ensures Inv(Call(s, p))
  {
    hide Openers, Lockers, SetOk, Adjusted;
    var pr := s.procs[p];
    var k := s.sets[pr.id];
    Facts(s, p);
    var o, j := Openers(s.procs, pr.id), k.(count := k.count - 1, late := k.late + {p});
    assert OthersKnow(s, p, pr.id, j, o + {p});
    OpenSetOk(k, o, Lockers(s.procs, pr.id), p);
    OpenAdjusted(pr);
    WithKeeps(s, p, pr.(pc := Open, adj1 := pr.adj1 + 1), j);
  }

  lemma OpenAdjusted(pr: Proc)
    requires pr.pc.OpenOp? && Adjusted(pr)
    ensures Adjusted(pr.(pc := Open, adj1 := pr.adj1 + 1))
  {
  }

  lemma OpenSetOk(k: Set, o: set<Pid>, l: set<Pid>, p: Pid)
    requires SetOk(k, o, l) && k.count >= 1 && p !in o && p !in l
    ensures SetOk(k.(count := k.count - 1, late := k.late + {p}), o + {p}, l - {p})
  {
    assert l - {p} == l;
  }

  lemma CloseKeeps(s: State, p: Pid)
    requires Inv(s) && Enabled(s, Close(p))
    ensures Inv(Apply(s, Close(p)))
  {
    hide Inv, Openers, Lockers, OthersKnow;
    var pr := s.procs[p];
    var k := s.sets[pr.id];
    Facts(s, p);
    NobodyLocks(s, p, pr.id, k.(lock := 1, count := k.count + 1), Openers(s.procs, pr.id) - {p});
    WithKeeps(s, p, pr.(pc := CloseRead, adj1 := pr.adj1 - 1, adj2 := pr.adj2 - 1),
              k.(lock := 1, count := k.count + 1));
  }

  lemma OperateKeeps(s: State, p: Pid, d: int)
    requires Inv(s) && Enabled(s, Operate(p, d))
    ensures Inv(Apply(s, Operate(p, d)))
  {
    hide Openers, Lockers;
    var pr := s.procs[p];
    var k := s.sets[pr.id].(value := s.sets[pr.id].value + d);
    Facts(s, p);
    var o, l := Openers(s.procs, pr.id), Lockers(s.procs, pr.id);
    assert o + {p} == o && l - {p} == l;
    assert OthersKnow(s, p, pr.id, k, o);
    WithKeeps(s, p, pr.(adj0 := pr.adj0 - d), k);
  }

  // A process that neither has the set open nor locked moves, and stays so.
  lemma QuietKeeps(s: State, p: Pid, pr: Proc)
    requires Inv(s) && (p in s.procs ==> !s.procs[p].pc.Open? && !Locked(s.procs[p].pc))
    requires !pr.pc.Open? && !Locked(pr.pc) && Adjusted(pr) && (!pr.pc.Get? ==> pr.id < s.next)
    ensures Inv(s.(procs := s.procs[p := pr]))
  {
    hide Openers, Lockers, Adjusted, Knows, SetOk, Locked;
    var procs := s.procs[p := pr];
    forall id
      ensures Openers(procs, id) == Openers(s.procs, id) && Lockers(procs, id) == Lockers(s.procs, id)
    {
      OtherSet(s.procs, p, pr, id);
    }
    forall q | q in procs && procs[q].id in s.sets && !procs[q].pc.Get?
      ensures Knows(procs[q], s.sets[procs[q].id], Openers(procs, procs[q].id))
    {
      if q == p {
        Unlocked(pr, s.sets[pr.id], Openers(procs, pr.id));
      }
    }
  }

  // semget creates a set of three zeros.
  lemma NewSetKeeps(s: State)
    requires Inv(s)
    ensures Inv(s.(sets := s.sets[s.next := Set(0, 0, 0, false, {})], key := s.next, next := s.next + 1))
  {
    hide Adjusted, Knows;
    assert Openers(s.procs, s.next) == {} && Lockers(s.procs, s.next) == {};
  }

  lemma GetKeeps(s: State, p: Pid)
    requires Inv(s) && Enabled(s, Go(p)) && s.procs[p].pc.Get?
    ensures Inv(Call(s, p))
  {
    hide Openers, Lockers, SetOk, Knows;
    var pr := s.procs[p];
    if s.key in s.sets {
      QuietKeeps(s, p, pr.(pc := Lock, id := s.key));
    } else {
      NewSetKeeps(s);
      QuietKeeps(s.(sets := s.sets[s.next := Set(0, 0, 0, false, {})], key := s.next, next := s.next + 1), p,
        pr.(pc := Lock, id := s.next));
    }
  }

  lemma ClearKeeps(s: State, id: SemId, member: nat)
    requires Inv(s) && id in s.sets && (member == 0 || !s.sets[id].ready)
    ensures Inv(s.(procs := Cleared(s.procs, id, member)))
    ensures forall i :: Openers(Cleared(s.procs, id, member), i) == Openers(s.procs, i)
    ensures forall i :: Lockers(Cleared(s.procs, id, member), i) == Lockers(s.procs, i)
  {
    hide Knows, SetOk, Locked;
    var procs := Cleared(s.procs, id, member);
    ClearedMarks(s.procs, id, member);
    forall p | p in procs
      ensures Adjusted(procs[p])
    {
      if member != 0 && s.procs[p].id == id {
        assert Openers(s.procs, id) == {} by {
          NoOpeners(s, id);
        }
        assert p !in Openers(s.procs, id);
      }
    }
    forall p | p in procs && procs[p].id in s.sets && !procs[p].pc.Get?
      ensures Knows(procs[p], s.sets[procs[p].id], Openers(procs, procs[p].id))
    {
      SamePlace(s.procs[p], procs[p], s.sets[procs[p].id], Openers(s.procs, procs[p].id));
    }
  }

  lemma SamePlace(a: Proc, b: Proc, k: Set, openers: set<Pid>)
    requires Knows(a, k, openers) && a.pc == b.pc
    ensures Knows(b, k, openers)
  {
  }

  lemma NoOpeners(s: State, id: SemId)
    requires Inv(s) && id in s.sets && !s.sets[id].ready
    ensures Openers(s.procs, id) == {}
  {
    hide Openers, Lockers, Adjusted, Knows;
  }

  lemma ClearedMarks(procs: map<Pid, Proc>, id: SemId, member: nat)
    ensures forall i :: Openers(Cleared(procs, id, member), i) == Openers(procs, i)
    ensures forall i :: Lockers(Cleared(procs, id, member), i) == Lockers(procs, i)
  {
    hide Locked;
    forall i
      ensures Openers(Cleared(procs, id, member), i) == Openers(procs, i)
      ensures Lockers(Cleared(procs, id, member), i) == Lockers(procs, i)
    {
    }
  }

  lemma SetKeeps(s: State, p: Pid)
    requires Inv(s) && Enabled(s, Go(p)) && (s.procs[p].pc.Set0? || s.procs[p].pc.Set1?)
    ensures Inv(Call(s, p))
  {
    hide Inv, Openers, Lockers, OthersKnow, Cleared;
    var pr := s.procs[p];
    var k, member := s.sets[pr.id], if pr.pc.Set0? then 0 else 1;
    Facts(s, p);
    ClearKeeps(s, pr.id, member);
    ClearedOne(s.procs, pr.id, member, p);
    var t := s.(procs := Cleared(s.procs, pr.id, member));
    Facts(t, p);
    if pr.pc.Set0? {
      LockerAlone(t, p, k.(value := pr.init), {});
      WithKeeps(t, p, pr.(pc := Set1, adj0 := 0), k.(value := pr.init));
    } else {
      LockerAlone(t, p, k.(count := BIGCOUNT, ready := true), {});
      WithKeeps(t, p, pr.(pc := End, adj1 := 0), k.(count := BIGCOUNT, ready := true));
    }
  }

  lemma ClearedOne(procs: map<Pid, Proc>, id: SemId, member: nat, p: Pid)
    requires p in procs && procs[p].id == id
    ensures var c := Cleared(procs, id, member);
      p in c && c[p] == if member == 0 then procs[p].(adj0 := 0) else procs[p].(adj1 := 0)
  {
  }

  // Without its set, nothing is known of a process but its own adjustments.
  lemma RemoveKeeps(s: State, p: Pid)
    requires Inv(s) && Enabled(s, Go(p)) && s.procs[p].pc.Remove?
    ensures Inv(Call(s, p))
  {
    hide Openers, Lockers, SetOk, Knows;
    var pr := s.procs[p];
    var t := s.(sets := s.sets - {pr.id});
    var procs := s.procs[p := pr.(pc := Closed, adj0 := 0, adj1 := 0, adj2 := 0)];
    forall id | id in t.sets
      ensures Openers(procs, id) == Openers(s.procs, id) && Lockers(procs, id) == Lockers(s.procs, id)
    {
      OtherSet(s.procs, p, procs[p], id);
    }
  }

  lemma RmKeeps(s: State, id: SemId)
    requires Inv(s) && id in s.sets
    ensures Inv(Apply(s, Rm(id)))
  {
    hide Openers, Lockers, SetOk, Knows, Adjusted;
  }

  // An exit undoes what the process had adjusted.
  lemma ExitKeeps(s: State, p: Pid)
    requires Inv(s) && Enabled(s, Exit(p))
    ensures Inv(Apply(s, Exit(p)))
  {
    hide Openers, Lockers, SetOk, Knows, Adjusted, Undo;
    var pr := s.procs[p];
    var t := Apply(s, Exit(p));
    forall id | id in t.sets
      ensures SetOk(t.sets[id], Openers(t.procs, id), Lockers(t.procs, id))
    {
      if id == pr.id && !pr.pc.Get? {
        Facts(s, p);
        OpenersGone(s.procs, p, id);
        UndoOk(pr, s.sets[id], Openers(s.procs, id), Lockers(s.procs, id), p);
      } else {
        NoMarks(s, p, id);
        OtherSet(s.procs, p, Proc(Get, 0, 0, 0, 0, 0), id);
      }
    }
    forall q | q in t.procs && t.procs[q].id in t.sets && !t.procs[q].pc.Get?
      ensures Knows(t.procs[q], t.sets[t.procs[q].id], Openers(t.procs, t.procs[q].id))
    {
      var id := t.procs[q].id;
      OpenersGone(s.procs, p, id);
      if id == pr.id && !pr.pc.Get? {
        StillKnows(s.procs[q], s.sets[id], t.sets[id], Openers(s.procs, id), p);
      } else {
        NoMarks(s, p, id);
        OtherSet(s.procs, p, Proc(Get, 0, 0, 0, 0, 0), id);
      }
    }
  }

  lemma NoMarks(s: State, p: Pid, id: SemId)
    requires Inv(s) && p in s.procs && (s.procs[p].id != id || s.procs[p].pc.Get?)
    ensures s.procs[p].id != id || (!s.procs[p].pc.Open? && !Locked(s.procs[p].pc))
  {
  }

  lemma StillKnows(q: Proc, k: Set, j: Set, openers: set<Pid>, p: Pid)
    requires Knows(q, k, openers) && j.ready == k.ready && j.late == k.late - {p}
    ensures Knows(q, j, openers - {p})
  {
  }

  lemma UndoOk(pr: Proc, k: Set, o: set<Pid>, l: set<Pid>, p: Pid)
    requires Adjusted(pr) && SetOk(k, o, l) && (p in o <==> pr.pc.Open?) && (p in l <==> Locked(pr.pc))
    ensures SetOk(Set(Undo(k.value, pr.adj0), Undo(k.count, pr.adj1), Undo(k.lock, pr.adj2), k.ready, k.late - {p}),
                  o - {p}, l - {p})
  {
    assert p !in o ==> o - {p} == o;
    assert p !in l ==> l - {p} == l;
  }

  lemma StepKeeps(s: State, a: Act)
    requires Inv(s) && Few(s, a) && Enabled(s, a)
    ensures Inv(Apply(s, a))
  {
    hide Inv, Few;
    match a
    case StartCreate(p, init) => StartKeeps(s, p, Proc(Get, 0, init, 0, 0, 0));
    case StartOpen(p) => KeyKnown(s); StartKeeps(s, p, Proc(OpenOp, s.key, 0, 0, 0, 0));
    case Again(p) => AgainKeeps(s, p);
    case Operate(p, d) => OperateKeeps(s, p, d);
    case Close(p) => CloseKeeps(s, p);
    case Exit(p) => ExitKeeps(s, p);
    case Rm(id) => RmKeeps(s, id);
    case Go(p) =>
      match s.procs[p].pc {
        case Get => GetKeeps(s, p);
        case Lock => LockKeeps(s, p);
        case Read | CloseRead => ReadKeeps(s, p);
        case Set0 | Set1 => SetKeeps(s, p);
        case End | Unlock => EndKeeps(s, p);
        case OpenOp => OpenKeeps(s, p);
        case Remove => RemoveKeeps(s, p);
        case Open | Closed =>
      }
  }

  lemma KeyKnown(s: State)
    requires Inv(s) && s.key in s.sets
    ensures s.key < s.next
  {
  }

  lemma StartKeeps(s: State, p: Pid, pr: Proc)
    requires Inv(s) && p !in s.procs && (pr.pc.Get? || (pr.pc.OpenOp? && pr.id < s.next))
    requires pr.adj0 == pr.adj1 == pr.adj2 == 0
    ensures Inv(s.(procs := s.procs[p := pr]))
  {
    hide Inv;
    QuietKeeps(s, p, pr);
  }

  lemma AgainKeeps(s: State, p: Pid)
    requires Inv(s) && Enabled(s, Again(p))
    ensures Inv(Apply(s, Again(p)))
  {
    hide Openers, Lockers, SetOk, Knows;
    QuietKeeps(s, p, s.procs[p].(pc := Get));
  }

  // ---- whole runs ----------------------------------------------------------------

  const START := State(map[], 0, 0, map[])

  // The states after each action of a run.
  ghost predicate Runs(acts: seq<Act>, states: seq<State>)
  {
    && |states| == |acts| + 1 && states[0] == START
    && forall i :: 0 <= i < |acts| ==> Enabled(states[i], acts[i]) && states[i + 1] == Apply(states[i], acts[i])
  }

  // Nobody finds the counter run out.
  ghost predicate AlwaysFew(acts: seq<Act>, states: seq<State>)
    requires |states| == |acts| + 1
  {
    forall i :: 0 <= i < |acts| ==> Few(states[i], acts[i])
  }

  lemma {:induction false} RunInv(acts: seq<Act>, states: seq<State>, i: nat)
    requires Runs(acts, states) && AlwaysFew(acts, states) && i < |states|
    ensures Inv(states[i])
  {
    if i > 0 {
      RunInv(acts, states, i - 1);
      StepKeeps(states[i - 1], acts[i - 1]);
    }
  }

  /**
   * In every run the lock counts the processes inside, at most one; the
   * process counter is 0 before initialisation and BIGCOUNT less the openers
   * after it, so it never exceeds BIGCOUNT.
   */
  lemma Counters(acts: seq<Act>, states: seq<State>, i: nat, id: SemId)
    requires Runs(acts, states) && AlwaysFew(acts, states) && i < |states| && id in states[i].sets
    ensures var s, k := states[i], states[i].sets[id];
      && k.lock == |Lockers(s.procs, id)| <= 1
      && k.count == (if k.ready then BIGCOUNT - |Openers(s.procs, id)| else 0)
  {
    RunInv(acts, states, i);
  }

  // The value is set only while nobody has the semaphore open.
  lemma InitialisedAlone(acts: seq<Act>, states: seq<State>, i: nat, p: Pid)
    requires Runs(acts, states) && AlwaysFew(acts, states) && i < |states|
    requires Enabled(states[i], Go(p)) && (states[i].procs[p].pc.Set0? || states[i].procs[p].pc.Set1?)
    ensures Openers(states[i].procs, states[i].procs[p].id) == {}
  {
    RunInv(acts, states, i);
    Facts(states[i], p);
  }

  // A set that is removed is open to just those that opened it, without the
  // lock, since the closing process read the counter.
  lemma RemovedFrom(acts: seq<Act>, states: seq<State>, i: nat, p: Pid)
    requires Runs(acts, states) && AlwaysFew(acts, states) && i < |states|
    requires Enabled(states[i], Go(p)) && states[i].procs[p].pc.Remove?
    ensures var id := states[i].procs[p].id;
      Openers(states[i].procs, id) == states[i].sets[id].late
  {
    RunInv(acts, states, i);
    Facts(states[i], p);
  }

  // ---- removal with and without sem_open ----------------------------------------------

  ghost predicate NobodyOpens(s: State)
  {
    && (forall p :: p in s.procs ==> !s.procs[p].pc.OpenOp?)
    && (forall id :: id in s.sets ==> s.sets[id].late == {})
  }

  lemma StepOpensNot(s: State, a: Act)
    requires NobodyOpens(s) && Enabled(s, a) && !a.StartOpen?
    ensures NobodyOpens(Apply(s, a))
  {
  }

  lemma {:induction false} RunOpensNot(acts: seq<Act>, states: seq<State>, i: nat)
    requires Runs(acts, states) && i < |states| && forall j :: 0 <= j < |acts| ==> !acts[j].StartOpen?
    ensures NobodyOpens(states[i])
  {
    if i > 0 {
      RunOpensNot(acts, states, i - 1);
      StepOpensNot(states[i - 1], acts[i - 1]);
    }
  }

  // Where every process uses sem_create, a set is removed only when nobody has it open.
  lemma RemovedUnused(acts: seq<Act>, states: seq<State>, i: nat, p: Pid)
    requires Runs(acts, states) && AlwaysFew(acts, states) && i < |states|
    requires forall j :: 0 <= j < |acts| ==> !acts[j].StartOpen?
    requires Enabled(states[i], Go(p)) && states[i].procs[p].pc.Remove?
    ensures Openers(states[i].procs, states[i].procs[p].id) == {}
  {
    hide Openers;
    RunOpensNot(acts, states, i);
    RemovedFrom(acts, states, i, p);
  }

  // sem_create initialises a set again exactly when BIGCOUNT processes have it open.
  lemma InitialisedAgain(s: State, p: Pid)
    requires Inv(s) && Enabled(s, Go(p)) && s.procs[p].pc.Read? && s.sets[s.procs[p].id].ready
    ensures Call(s, p).procs[p].pc.Set0? <==> |Openers(s.procs, s.procs[p].id)| == BIGCOUNT
  {
    hide Openers, Lockers;
    Facts(s, p);
  }

  // And that is exactly when reading the counter breaks the invariant.
  lemma ReadExactly(s: State, p: Pid)
    requires Inv(s) && Enabled(s, Go(p)) && s.procs[p].pc.Read?
    ensures Inv(Call(s, p)) <==> Few(s, Go(p))
  {
    hide Inv, Openers, Lockers;
    Facts(s, p);
    if Few(s, Go(p)) {
      ReadKeeps(s, p);
    } else if Inv(Call(s, p)) {
      Facts(Call(s, p), p);
    }
  }

  // A run goes one step further.
  lemma Further(acts: seq<Act>, states: seq<State>, a: Act, t: State) returns (acts': seq<Act>, states': seq<State>)
    requires Runs(acts, states) && AlwaysFew(acts, states) && Enabled(states[|acts|], a) && Few(states[|acts|], a)
    requires t == Apply(states[|acts|], a)
    ensures Runs(acts', states') && AlwaysFew(acts', states') && |acts'| == |acts| + 1 && states'[|acts'|] == t
  {
    hide Few, Enabled, Apply;
    acts', states' := acts + [a], states + [t];
  }

  function One(pc: Pc, adj1: int, adj2: int, k: Set): State
  {
    State(map[0 := k], 0, 1, map[0 := Proc(pc, 0, 1, 0, adj1, adj2)])
  }

  function Two(pc: Pc, adj1: int, adj2: int, other: Pc, adjOther: int, k: Set): State
  {
    State(map[0 := k], 0, 1, map[0 := Proc(pc, 0, 1, 0, adj1, adj2), 1 := Proc(other, 0, 0, 0, adjOther, 0)])
  }

  lemma Created() returns (acts: seq<Act>, states: seq<State>)
    ensures Runs(acts, states) && AlwaysFew(acts, states)
    ensures states[|acts|] == One(Set0, 0, -1, Set(0, 0, 1, false, {}))
  {
    hide Runs, AlwaysFew;
    acts, states := Started();
    acts, states := Further(acts, states, StartCreate(0, 1), State(map[], 0, 0, map[0 := Proc(Get, 0, 1, 0, 0, 0)]));
    acts, states := Further(acts, states, Go(0), One(Lock, 0, 0, Set(0, 0, 0, false, {})));
    acts, states := Further(acts, states, Go(0), One(Read, 0, -1, Set(0, 0, 1, false, {})));
    assert Openers(One(Read, 0, -1, Set(0, 0, 1, false, {})).procs, 0) == {};
    acts, states := Further(acts, states, Go(0), One(Set0, 0, -1, Set(0, 0, 1, false, {})));
  }

  lemma Started() returns (acts: seq<Act>, states: seq<State>)
    ensures Runs(acts, states) && AlwaysFew(acts, states) && states[|acts|] == START
  {
    acts, states := [], [START];
  }

  lemma Opened() returns (acts: seq<Act>, states: seq<State>)
    ensures Runs(acts, states) && AlwaysFew(acts, states)
    ensures states[|acts|] == One(Open, 1, 0, Set(1, BIGCOUNT - 1, 0, true, {}))
  {
    hide Runs, AlwaysFew;
    acts, states := Created();
    acts, states := Further(acts, states, Go(0), One(Set1, 0, -1, Set(1, 0, 1, false, {})));
    acts, states := Further(acts, states, Go(0), One(End, 0, -1, Set(1, BIGCOUNT, 1, true, {})));
    acts, states := Further(acts, states, Go(0), One(Open, 1, 0, Set(1, BIGCOUNT - 1, 0, true, {})));
  }

  // One process creates and closes; another opens between the two halves of
  // the close, and loses the set it has open.
  lemma OpenRace() returns (acts: seq<Act>, states: seq<State>)
    ensures Runs(acts, states) && AlwaysFew(acts, states)
    ensures var s := states[|acts|];
      && Enabled(s, Go(0)) && s.procs[0].pc.Remove?
      && 1 in Openers(s.procs, s.procs[0].id)
      && s.procs[0].id !in Call(s, 0).sets
  {
    hide Runs, AlwaysFew;
    acts, states := Opened();
    acts, states := Further(acts, states, StartOpen(1), Two(Open, 1, 0, OpenOp, 0, Set(1, BIGCOUNT - 1, 0, true, {})));
    acts, states := Further(acts, states, Close(0), Two(CloseRead, 0, -1, OpenOp, 0, Set(1, BIGCOUNT, 1, true, {})));
    acts, states := Further(acts, states, Go(0), Two(Remove, 0, -1, OpenOp, 0, Set(1, BIGCOUNT, 1, true, {})));
    var nobody: set<Pid> := {};
    assert nobody + {1} == {1};
    acts, states := Further(acts, states, Go(1), Two(Remove, 0, -1, Open, 1, Set(1, BIGCOUNT - 1, 1, true, {1})));
  }

  // ---- the counter runs out -----------------------------------------------------------

  // The first n processes have the set open.
  function Crowd(n: nat): (procs: map<Pid, Proc>)
    ensures forall p :: p in procs ==> p < n
  {
    if n == 0 then map[] else Crowd(n - 1)[n - 1 := Proc(Open, 0, 1, 0, 1, 0)]
  }

  function Crowded(n: nat): State
    requires n <= BIGCOUNT
  {
    State(map[0 := Set(1, BIGCOUNT - n, 0, true, {})], 0, 1, Crowd(n))
  }

  // And one more is on its way in.
  function Joining(n: nat, pc: Pc, adj2: int, lock: nat): State
    requires n <= BIGCOUNT
  {
    State(map[0 := Set(1, BIGCOUNT - n, lock, true, {})], 0, 1, Crowd(n)[n := Proc(pc, 0, 1, 0, 0, adj2)])
  }

  lemma {:induction false} CrowdOpens(n: nat)
    ensures |Openers(Crowd(n), 0)| == n
  {
    if n == 0 {
      assert Openers(Crowd(0), 0) == {};
    } else {
      CrowdOpens(n - 1);
      OpenersSet(Crowd(n - 1), n - 1, Proc(Open, 0, 1, 0, 1, 0), 0);
      assert n - 1 !in Openers(Crowd(n - 1), 0);
    }
  }

  lemma JoiningOpens(n: nat, lock: nat)
    requires n <= BIGCOUNT
    ensures |Openers(Joining(n, Read, -1, lock).procs, 0)| == n
  {
    CrowdOpens(n);
    OpenersSet(Crowd(n), n, Proc(Read, 0, 1, 0, 0, -1), 0);
    assert Openers(Crowd(n), 0) - {n} == Openers(Crowd(n), 0);
  }

  // A process calls sem_create and gets as far as reading the counter.
  lemma Join(acts: seq<Act>, states: seq<State>, n: nat) returns (acts': seq<Act>, states': seq<State>)
    requires n <= BIGCOUNT && Runs(acts, states) && AlwaysFew(acts, states) && states[|acts|] == Crowded(n)
    ensures Runs(acts', states') && AlwaysFew(acts', states') && states'[|acts'|] == Joining(n, Read, -1, 1)
  {
    hide Runs, AlwaysFew, Crowd;
    acts', states' := Further(acts, states, StartCreate(n, 1), Joining(n, Get, 0, 0));
    acts', states' := Further(acts', states', Go(n), Joining(n, Lock, 0, 0));
    acts', states' := Further(acts', states', Go(n), Joining(n, Read, -1, 1));
  }

  lemma CrowdIs(n: nat)
    ensures Crowd(n)[n := Proc(Open, 0, 1, 0, 1, 0)] == Crowd(n + 1)
    ensures Crowd(1) == map[0 := Proc(Open, 0, 1, 0, 1, 0)]
  {
  }

  // Up to BIGCOUNT processes can have the semaphore open.
  lemma {:induction false} Fill(n: nat) returns (acts: seq<Act>, states: seq<State>)
    requires 1 <= n <= BIGCOUNT
    ensures Runs(acts, states) && AlwaysFew(acts, states) && states[|acts|] == Crowded(n)
  {
    hide Runs, AlwaysFew, Crowd;
    CrowdIs(n - 1);
    if n == 1 {
      acts, states := Opened();
    } else {
      acts, states := Fill(n - 1);
      acts, states := Join(acts, states, n - 1);
      JoiningOpens(n - 1, 1);
      acts, states := Further(acts, states, Go(n - 1), Joining(n - 1, End, -1, 1));
      acts, states := Further(acts, states, Go(n - 1), Crowded(n));
    }
  }

  // The next one finds the counter at zero and sets the semaphore again, under
  // the processes that have it open.
  lemma RunsOut() returns (acts: seq<Act>, states: seq<State>)
    ensures Runs(acts, states) && AlwaysFew(acts, states)
    ensures var s := states[|acts|];
      && Inv(s) && Enabled(s, Go(BIGCOUNT)) && s.procs[BIGCOUNT].pc.Read? && s.procs[BIGCOUNT].id == 0
      && s.sets[0].ready && |Openers(s.procs, 0)| == BIGCOUNT && Call(s, BIGCOUNT).procs[BIGCOUNT].pc.Set0?
  {
    hide AlwaysFew, Crowd, Inv, Openers;
    acts, states := Fill(BIGCOUNT);
    acts, states := Join(acts, states, BIGCOUNT);
    JoiningOpens(BIGCOUNT, 1);
    RunInv(acts, states, |acts|);
  }
}
