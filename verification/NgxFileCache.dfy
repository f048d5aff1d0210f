/**
 * The open file cache: entries found through a tree of names, ordered by last
 * access in an expire queue, and counted by the cleanups that still hold them
 * (ngx_open_file_cache.c).  This module holds the state, the invariant and
 * what each elementary move keeps; NgxFileCacheOps holds the operations.
 */
module NgxFileCache {
  import opened Options
  import opened Collections

  type Name = string
  type Id = nat
  type Fd = nat
  type Holder = nat

  datatype Entry = Entry(
    name: Name,
    fd: Option<Fd>,
    err: nat,
    isDir: bool,
    uniq: nat,
    count: nat,
    close: bool,
    uses: nat,
    created: int,
    accessed: int)

  // A registered cleanup: whose descriptor was handed out, and how often the
  // file must be used to stay open.
  datatype Cleanup = Cleanup(file: Id, fd: Fd, minUses: nat)

  datatype State = State(
    entries: map<Id, Entry>,     // entries not yet freed, in the tree or detached
    tree: map<Name, Id>,
    queue: seq<Id>,              // the expire queue, last accessed first
    current: nat,
    holders: map<Holder, Cleanup>,
    open: set<Fd>,               // the descriptors open in the kernel
    strays: nat,                 // closes of descriptors that were not open
    clock: int)

  // ---- what the file system shows ------------------------------------------

  // One view of one name: missing, or there with an inode number, for which
  // open and fstat may still fail.
  datatype View =
    | Gone(err: nat)
    | There(uniq: nat, isDir: bool, openErr: nat, fstatFails: bool)

  predicate Plausible(v: View)
  {
    v.Gone? ==> v.err != 0
  }

  datatype Stat = Stat(ok: bool, fd: Option<Fd>, err: nat, uniq: nat, isDir: bool)

  // ngx_open_and_stat_file: the result; a new descriptor, if any, is newFd.
  function OpenAndStat(fd: Option<Fd>, uniq: nat, testDir: bool, v: View, newFd: Fd): (s: Stat)
  {
    if (fd.Some? || testDir) && v.Gone? then Stat(false, None, v.err, uniq, false)
    else if fd.Some? && v.uniq == uniq then Stat(true, fd, 0, v.uniq, v.isDir)
    else if fd.None? && testDir && v.isDir then Stat(true, fd, 0, v.uniq, v.isDir)
    else if v.Gone? then Stat(false, None, v.err, uniq, false)
    else if v.openErr != 0 then Stat(false, None, v.openErr, uniq, false)
    else if v.fstatFails then Stat(false, None, 0, uniq, false)
    else if v.isDir then Stat(true, None, 0, v.uniq, true)
    else Stat(true, Some(newFd), 0, v.uniq, false)
  }

  // An inode number that named an open file now names a directory.
  predicate Reused(fd: Option<Fd>, uniq: nat, v: View)
  {
    fd.Some? && v.There? && v.isDir && v.uniq == uniq
  }

  // A directory never comes with a descriptor, except when an inode is reused.
  lemma DirectoryHasNoFd(fd: Option<Fd>, uniq: nat, testDir: bool, v: View, newFd: Fd)
    ensures var s := OpenAndStat(fd, uniq, testDir, v, newFd);
      (s.ok && s.isDir && s.fd.Some?) <==> Reused(fd, uniq, v)
  {
  }

  // The recorded facts are what the view shows: an error that stat or open
  // gives, or the inode and kind.
  predicate Says(err: nat, uniq: nat, isDir: bool, v: View)
  {
    if err != 0 then (v.Gone? && v.err == err) || (v.There? && v.openErr == err)
    else v.There? && v.uniq == uniq && v.isDir == isDir
  }

  lemma StatSays(fd: Option<Fd>, uniq: nat, testDir: bool, v: View, newFd: Fd)
    requires Plausible(v)
    ensures var s := OpenAndStat(fd, uniq, testDir, v, newFd);
      (s.ok || s.err != 0) ==> Says(s.err, s.uniq, s.isDir, v)
  {
  }

  // ---- the invariant -------------------------------------------------------

  ghost predicate InTree(entries: map<Id, Entry>, tree: map<Name, Id>, id: Id)
  {
    id in entries && entries[id].name in tree && tree[entries[id].name] == id
  }

  // Tree, queue and current describe the same entries; hand is the one taken
  // out of the queue while an operation works on it.
  ghost predicate Indexed(entries: map<Id, Entry>, tree: map<Name, Id>, queue: seq<Id>, current: nat, hand: Option<Id>)
  {
    && (forall n :: n in tree ==> tree[n] in entries && entries[tree[n]].name == n)
    && (forall n :: n in tree ==> tree[n] in queue || hand == Some(tree[n]))
    && (forall id :: id in queue ==> InTree(entries, tree, id) && hand != Some(id))
    && (hand.Some? ==> InTree(entries, tree, hand.value))
    && Distinct(queue)
    && current == |tree| == |queue| + (if hand.Some? then 1 else 0)
  }

  // The queue is ordered by last access.
  ghost predicate Ordered(entries: map<Id, Entry>, queue: seq<Id>, clock: int)
  {
    && (forall id :: id in queue ==> id in entries && entries[id].accessed <= clock)
    && (forall i, j :: 0 <= i < j < |queue| ==>
      queue[i] in entries && queue[j] in entries && entries[queue[i]].accessed >= entries[queue[j]].accessed)
  }

  ghost predicate Sound(e: Entry, inTree: bool)
  {
    && (e.err != 0 || e.isDir ==> e.fd.None? && e.count == 0)
    && (e.count > 0 ==> e.fd.Some?)
    && (inTree && e.err == 0 ==> !e.close)
    && (!inTree ==> e.close && e.count > 0)
  }

  ghost predicate Kinds(entries: map<Id, Entry>, tree: map<Name, Id>)
  {
    forall id :: id in entries ==> Sound(entries[id], InTree(entries, tree, id))
  }

  function FdOf(entries: map<Id, Entry>, id: Id): (fd: Option<Fd>)
  {
    if id in entries then entries[id].fd else None
  }

  function CountOf(entries: map<Id, Entry>, id: Id): (n: nat)
  {
    if id in entries then entries[id].count else 0
  }

  // Every open descriptor belongs to exactly one entry.
  ghost predicate Owned(entries: map<Id, Entry>, open: set<Fd>)
  {
    && (forall id :: FdOf(entries, id).Some? ==> FdOf(entries, id).value in open)
    && (forall a, b :: FdOf(entries, a).Some? && FdOf(entries, a) == FdOf(entries, b) ==> a == b)
    && (forall f :: f in open ==> exists id :: FdOf(entries, id) == Some(f))
  }

  ghost function Users(holders: map<Holder, Cleanup>, id: Id): set<Holder>
  {
    set h | h in holders && holders[h].file == id
  }

  // Counts are the outstanding cleanups, and each cleanup's descriptor is its entry's.
  ghost predicate Counted(entries: map<Id, Entry>, holders: map<Holder, Cleanup>)
  {
    && (forall h :: h in holders ==> FdOf(entries, holders[h].file) == Some(holders[h].fd))
    && (forall id :: CountOf(entries, id) == |Users(holders, id)|)
  }

  ghost predicate Inv(s: State, hand: Option<Id>)
  {
    && Indexed(s.entries, s.tree, s.queue, s.current, hand)
    && Ordered(s.entries, s.queue, s.clock)
    && Kinds(s.entries, s.tree)
    && Owned(s.entries, s.open)
    && Counted(s.entries, s.holders)
    && s.strays == 0
  }

  // ---- the expire queue ----------------------------------------------------

  function Without(q: seq<Id>, id: Id): (r: seq<Id>)
  {
    if q == [] then [] else if q[0] == id then q[1..] else [q[0]] + Without(q[1..], id)
  }

  lemma {:induction false} WithoutAt(q: seq<Id>, k: nat)
    requires Distinct(q) && k < |q|
    ensures Without(q, q[k]) == q[..k] + q[k + 1..]
  {
    if k > 0 {
      WithoutAt(q[1..], k - 1);
      assert q[1..][..k - 1] == q[1..k] && q[1..][k..] == q[k + 1..];
      assert q[..k] == [q[0]] + q[1..k];
      assert q[0] != q[k];
    }
  }

  // An entry is taken out of the queue.
  lemma TakeKeeps(s: State, id: Id)
    requires Inv(s, None) && InTree(s.entries, s.tree, id)
    ensures Inv(s.(queue := Without(s.queue, id)), Some(id))
  {
    hide Kinds, Owned, Counted, Without;
    assert id in s.queue;
    var k :| 0 <= k < |s.queue| && s.queue[k] == id;
    WithoutAt(s.queue, k);
    TakeOrder(s.entries, s.queue, s.clock, k);
    TakeIndex(s.entries, s.tree, s.queue, s.current, k);
  }

  lemma TakeOrder(entries: map<Id, Entry>, q: seq<Id>, clock: int, k: nat)
    requires Ordered(entries, q, clock) && k < |q|
    ensures Ordered(entries, q[..k] + q[k + 1..], clock)
  {
  }

  lemma TakeIndex(entries: map<Id, Entry>, tree: map<Name, Id>, q: seq<Id>, current: nat, k: nat)
    requires Indexed(entries, tree, q, current, None) && k < |q|
    ensures Indexed(entries, tree, q[..k] + q[k + 1..], current, Some(q[k]))
  {
    var r := q[..k] + q[k + 1..];
    assert forall id :: id in r <==> id in q && id != q[k];
  }

  // ---- changing one entry ----------------------------------------------------

  lemma SetIndex(s: State, id: Id, e: Entry, hand: Option<Id>)
    requires Indexed(s.entries, s.tree, s.queue, s.current, hand)
    requires id in s.entries && e.name == s.entries[id].name
    ensures Indexed(s.entries[id := e], s.tree, s.queue, s.current, hand)
  {
    SetInTree(s.entries, s.tree, id, e);
  }

  lemma SetInTree(entries: map<Id, Entry>, tree: map<Name, Id>, id: Id, e: Entry)
    requires id in entries && e.name == entries[id].name
    ensures forall i :: InTree(entries[id := e], tree, i) == InTree(entries, tree, i)
  {
  }

  lemma SetOrder(s: State, id: Id, e: Entry)
    requires Ordered(s.entries, s.queue, s.clock)
    requires id !in s.queue || (id in s.entries && e.accessed == s.entries[id].accessed)
    ensures Ordered(s.entries[id := e], s.queue, s.clock)
  {
  }

  lemma SetKinds(entries: map<Id, Entry>, tree: map<Name, Id>, id: Id, e: Entry)
    requires Kinds(entries, tree) && id in entries && e.name == entries[id].name
    requires Sound(e, InTree(entries, tree, id))
    ensures Kinds(entries[id := e], tree)
  {
    hide Sound, InTree;
    SetInTree(entries, tree, id, e);
  }

  lemma FdsSame(a: map<Id, Entry>, b: map<Id, Entry>, open: set<Fd>)
    requires Owned(a, open) && forall id :: FdOf(b, id) == FdOf(a, id)
    ensures Owned(b, open)
  {
    hide FdOf;
  }

  lemma CountsSame(a: map<Id, Entry>, b: map<Id, Entry>, holders: map<Holder, Cleanup>)
    requires Counted(a, holders) && forall id :: FdOf(b, id) == FdOf(a, id) && CountOf(b, id) == CountOf(a, id)
    ensures Counted(b, holders)
  {
    hide FdOf, CountOf, Users;
  }

  // The entry in hand changes, but not its descriptor and count.
  lemma SetKeeps(s: State, id: Id, e: Entry)
    requires Inv(s, Some(id)) && id in s.entries && e.name == s.entries[id].name
    requires e.fd == s.entries[id].fd && e.count == s.entries[id].count && Sound(e, true)
    ensures Inv(s.(entries := s.entries[id := e]), Some(id))
  {
    hide Kinds, Owned, Counted, Ordered, Indexed, Sound, InTree;
    HandInTree(s, id);
    SetIndex(s, id, e, Some(id));
    SetOrder(s, id, e);
    SetKinds(s.entries, s.tree, id, e);
    FdsSame(s.entries, s.entries[id := e], s.open);
    CountsSame(s.entries, s.entries[id := e], s.holders);
  }

  lemma HandInTree(s: State, id: Id)
    requires Indexed(s.entries, s.tree, s.queue, s.current, Some(id))
    ensures InTree(s.entries, s.tree, id) && id !in s.queue && id in s.entries
    ensures s.current > 0 && s.entries[id].name in s.tree && s.tree[s.entries[id].name] == id
  {
  }

  // The entry in hand goes to the head of the queue.
  lemma PutKeeps(s: State, id: Id, now: int)
    requires Inv(s, Some(id)) && s.clock <= now && id in s.entries
    ensures Inv(s.(entries := s.entries[id := s.entries[id].(accessed := now)], queue := [id] + s.queue,
                   clock := now), None)
  {
    hide Kinds, Owned, Counted, Indexed;
    var e := s.entries[id].(accessed := now);
    assert Sound(e, true) by {
      HandSound(s, id);
    }
    HandInTree(s, id);
    SetKeeps(s, id, e);
    PutIndex(s.entries[id := e], s.tree, s.queue, s.current, id);
  }

  lemma PutIndex(entries: map<Id, Entry>, tree: map<Name, Id>, q: seq<Id>, current: nat, id: Id)
    requires Indexed(entries, tree, q, current, Some(id))
    ensures Indexed(entries, tree, [id] + q, current, None)
  {
    hide InTree;
    assert forall i :: i in [id] + q <==> i == id || i in q;
  }

  lemma HandSound(s: State, id: Id)
    requires Inv(s, Some(id))
    ensures id in s.entries && Sound(s.entries[id], true)
  {
    hide Sound;
  }

  // ---- leaving the tree --------------------------------------------------------

  lemma LeaveIndex(s: State, id: Id)
    requires Indexed(s.entries, s.tree, s.queue, s.current, Some(id)) && id in s.entries
    ensures var name := s.entries[id].name;
      && s.current > 0
      && Indexed(s.entries, s.tree - {name}, s.queue, s.current - 1, None)
      && (forall i :: InTree(s.entries, s.tree - {name}, i) <==> InTree(s.entries, s.tree, i) && i != id)
  {
    var name := s.entries[id].name;
    var tree := s.tree - {name};
    assert |tree| == |s.tree| - 1 by {
      assert tree.Keys == s.tree.Keys - {name};
      assert |tree.Keys| == |tree| && |s.tree.Keys| == |s.tree|;
    }
  }

  // The entry in hand is still in use: it leaves the tree and lives on, to be
  // freed by its last cleanup.
  lemma DetachKeeps(s: State, id: Id)
    requires Inv(s, Some(id)) && id in s.entries && s.entries[id].count > 0
    ensures s.current > 0
    ensures Inv(s.(entries := s.entries[id := s.entries[id].(close := true)], tree := s.tree - {s.entries[id].name},
      current := s.current - 1), None)
  {
    hide Kinds, Owned, Counted, Ordered, Indexed, InTree;
    var e := s.entries[id].(close := true);
    var tree := s.tree - {e.name};
    LeaveIndex(s, id);
    HandInTree(s, id);
    SetIndex(s.(tree := tree, current := s.current - 1), id, e, None);
    SetOrder(s, id, e);
    LeaveKinds(s.entries, s.tree, id, e);
    FdsSame(s.entries, s.entries[id := e], s.open);
    CountsSame(s.entries, s.entries[id := e], s.holders);
  }

  lemma LeaveKinds(entries: map<Id, Entry>, tree: map<Name, Id>, id: Id, e: Entry)
    requires Kinds(entries, tree) && id in entries && InTree(entries, tree, id)
    requires e == entries[id].(close := true) && e.count > 0
    requires forall i :: InTree(entries, tree - {e.name}, i) <==> InTree(entries, tree, i) && i != id
    ensures Kinds(entries[id := e], tree - {e.name})
  {
    hide InTree;
    SetInTree(entries, tree - {e.name}, id, e);
  }

  // The entry in hand holds no descriptor and is freed.
  lemma FreeKeeps(s: State, id: Id)
    requires Inv(s, Some(id)) && id in s.entries && s.entries[id].count == 0 && s.entries[id].fd.None?
    ensures s.current > 0
    ensures Inv(s.(entries := s.entries - {id}, tree := s.tree - {s.entries[id].name}, current := s.current - 1), None)
  {
    hide Kinds, Owned, Counted, Ordered, Indexed, InTree;
    LeaveIndex(s, id);
    HandInTree(s, id);
    var entries, tree := s.entries - {id}, s.tree - {s.entries[id].name};
    FreeIndex(s.entries, tree, s.queue, s.current - 1, id);
    FreeOrder(s.entries, s.queue, s.clock, id);
    FreeKinds(s.entries, s.tree, id, tree);
    FdsSame(s.entries, entries, s.open);
    CountsSame(s.entries, entries, s.holders);
  }

  lemma FreeIndex(entries: map<Id, Entry>, tree: map<Name, Id>, q: seq<Id>, current: nat, id: Id)
    requires Indexed(entries, tree, q, current, None) && !InTree(entries, tree, id)
    ensures Indexed(entries - {id}, tree, q, current, None)
  {
    assert forall i :: InTree(entries, tree, i) ==> InTree(entries - {id}, tree, i);
  }

  lemma FreeOrder(entries: map<Id, Entry>, q: seq<Id>, clock: int, id: Id)
    requires Ordered(entries, q, clock) && id !in q
    ensures Ordered(entries - {id}, q, clock)
  {
  }

  lemma FreeKinds(entries: map<Id, Entry>, tree: map<Name, Id>, id: Id, tree': map<Name, Id>)
    requires Kinds(entries, tree)
    requires forall i :: InTree(entries, tree', i) <==> InTree(entries, tree, i) && i != id
    ensures Kinds(entries - {id}, tree')
  {
    hide Sound;
    forall i | i in entries - {id}
      ensures Sound((entries - {id})[i], InTree(entries - {id}, tree', i))
    {
      assert InTree(entries - {id}, tree', i) == InTree(entries, tree', i) == InTree(entries, tree, i);
    }
  }

  // ---- descriptors ---------------------------------------------------------------

  // An unused entry of the tree gives up its descriptor, which is closed.
  lemma CloseKeeps(s: State, id: Id, hand: Option<Id>)
    requires Inv(s, hand) && InTree(s.entries, s.tree, id) && id in s.entries
    requires s.entries[id].count == 0 && s.entries[id].fd.Some?
    ensures s.entries[id].fd.value in s.open
    ensures Inv(s.(entries := s.entries[id := s.entries[id].(fd := None)],
                   open := s.open - {s.entries[id].fd.value}), hand)
  {
    hide Owned, Counted, Ordered, Indexed, InTree, Sound;
    var e := s.entries[id].(fd := None);
    ClosedSound(s.entries[id]);
    SetIndex(s, id, e, hand);
    SetOrder(s, id, e);
    SetKinds(s.entries, s.tree, id, e);
    CloseOwned(s.entries, s.entries[id := e], id, s.open);
    CloseCounted(s.entries, s.entries[id := e], s.holders, id);
  }

  lemma ClosedSound(e: Entry)
    requires Sound(e, true) && e.count == 0
    ensures Sound(e.(fd := None), true)
  {
  }

  lemma CloseOwned(a: map<Id, Entry>, b: map<Id, Entry>, id: Id, open: set<Fd>)
    requires Owned(a, open) && FdOf(a, id).Some? && FdOf(b, id).None?
    requires forall i :: i != id ==> FdOf(b, i) == FdOf(a, i)
    ensures FdOf(a, id).value in open && Owned(b, open - {FdOf(a, id).value})
  {
    hide FdOf;
    forall f | f in open - {FdOf(a, id).value}
      ensures exists i :: FdOf(b, i) == Some(f)
    {
      var i :| FdOf(a, i) == Some(f);
      assert FdOf(b, i) == Some(f);
    }
  }

  lemma CloseCounted(a: map<Id, Entry>, b: map<Id, Entry>, holders: map<Holder, Cleanup>, id: Id)
    requires Counted(a, holders) && CountOf(a, id) == 0
    requires forall i :: CountOf(b, i) == CountOf(a, i) && (i != id ==> FdOf(b, i) == FdOf(a, i))
    ensures Counted(b, holders)
  {
    hide FdOf, CountOf;
    assert Users(holders, id) == {};
    assert forall h :: h in holders ==> h in Users(holders, holders[h].file);
  }

  // A newly opened descriptor goes to the entry in hand, which then is a file.
  lemma AttachKeeps(s: State, id: Id, e: Entry)
    requires Inv(s, Some(id)) && id in s.entries && s.entries[id].fd.None? && e.name == s.entries[id].name
    requires e.fd.Some? && e.fd.value !in s.open && e.count == s.entries[id].count && e.err == 0 && !e.isDir && !e.close
    ensures Inv(s.(entries := s.entries[id := e], open := s.open + {e.fd.value}), Some(id))
  {
    hide Kinds, Owned, Counted, Ordered, Indexed, InTree;
    HandInTree(s, id);
    HandSound(s, id);
    SetIndex(s, id, e, Some(id));
    SetOrder(s, id, e);
    SetKinds(s.entries, s.tree, id, e);
    AttachOwned(s.entries, s.entries[id := e], id, s.open);
    CloseCounted(s.entries, s.entries[id := e], s.holders, id);
  }

  lemma AttachOwned(a: map<Id, Entry>, b: map<Id, Entry>, id: Id, open: set<Fd>)
    requires Owned(a, open) && FdOf(a, id).None? && FdOf(b, id).Some? && FdOf(b, id).value !in open
    requires forall i :: i != id ==> FdOf(b, i) == FdOf(a, i)
    ensures Owned(b, open + {FdOf(b, id).value})
  {
    hide FdOf;
    forall f | f in open + {FdOf(b, id).value}
      ensures exists i :: FdOf(b, i) == Some(f)
    {
      if f in open {
        var i :| FdOf(a, i) == Some(f);
        assert FdOf(b, i) == Some(f);
      } else {
        assert FdOf(b, id) == Some(f);
      }
    }
  }

  // A new entry, in hand.
  lemma CreateKeeps(s: State, id: Id, e: Entry)
    requires Inv(s, None) && id !in s.entries && e.name !in s.tree
    requires e.fd.None? && e.count == 0 && (e.err == 0 ==> !e.close)
    ensures Inv(s.(entries := s.entries[id := e], tree := s.tree[e.name := id], current := s.current + 1), Some(id))
  {
    hide Kinds, Owned, Counted, Ordered, Indexed, InTree, Sound;
    CreateIndex(s, id, e);
    CreateKinds(s, id, e);
    CreateOrder(s, id, e);
    FdsSame(s.entries, s.entries[id := e], s.open);
    CountsSame(s.entries, s.entries[id := e], s.holders);
  }

  lemma CreateIndex(s: State, id: Id, e: Entry)
    requires Indexed(s.entries, s.tree, s.queue, s.current, None) && id !in s.entries && e.name !in s.tree
    ensures Indexed(s.entries[id := e], s.tree[e.name := id], s.queue, s.current + 1, Some(id))
    ensures id !in s.queue
  {
    var entries, tree := s.entries[id := e], s.tree[e.name := id];
    assert forall i :: InTree(s.entries, s.tree, i) ==> InTree(entries, tree, i);
  }

  lemma CreateKinds(s: State, id: Id, e: Entry)
    requires Kinds(s.entries, s.tree) && Indexed(s.entries, s.tree, s.queue, s.current, None)
    requires id !in s.entries && e.name !in s.tree
    requires e.fd.None? && e.count == 0 && (e.err == 0 ==> !e.close)
    ensures Kinds(s.entries[id := e], s.tree[e.name := id])
  {
    hide Indexed;
    var entries, tree := s.entries[id := e], s.tree[e.name := id];
    assert forall i :: i in s.entries ==> InTree(s.entries, s.tree, i) == InTree(entries, tree, i);
  }

  lemma CreateOrder(s: State, id: Id, e: Entry)
    requires Ordered(s.entries, s.queue, s.clock) && id !in s.entries
    ensures Ordered(s.entries[id := e], s.queue, s.clock)
  {
  }

  // ---- holders -----------------------------------------------------------------

  lemma UsersAdd(holders: map<Holder, Cleanup>, h: Holder, c: Cleanup)
    requires h !in holders
    ensures Users(holders[h := c], c.file) == Users(holders, c.file) + {h} && h !in Users(holders, c.file)
    ensures forall id :: id != c.file ==> Users(holders[h := c], id) == Users(holders, id)
  {
  }

  lemma UsersDrop(holders: map<Holder, Cleanup>, h: Holder)
    requires h in holders
    ensures var id := holders[h].file;
      h in Users(holders, id) && Users(holders - {h}, id) == Users(holders, id) - {h}
    ensures forall id :: id != holders[h].file ==> Users(holders - {h}, id) == Users(holders, id)
  {
  }

  // The entry in hand, an open file, gets one more holder.
  lemma GrantKeeps(s: State, id: Id, h: Holder, minUses: nat)
    requires Inv(s, Some(id)) && id in s.entries && s.entries[id].fd.Some? && h !in s.holders
    ensures var e := s.entries[id];
      Inv(s.(entries := s.entries[id := e.(count := e.count + 1)],
             holders := s.holders[h := Cleanup(id, e.fd.value, minUses)]), Some(id))
  {
    hide Kinds, Owned, Counted, Ordered, Indexed, InTree;
    var e := s.entries[id].(count := s.entries[id].count + 1);
    HandInTree(s, id);
    HandSound(s, id);
    SetIndex(s, id, e, Some(id));
    SetOrder(s, id, e);
    SetKinds(s.entries, s.tree, id, e);
    FdsSame(s.entries, s.entries[id := e], s.open);
    GrantCounted(s.entries, s.entries[id := e], s.holders, h, Cleanup(id, e.fd.value, minUses));
  }

  lemma GrantCounted(a: map<Id, Entry>, b: map<Id, Entry>, holders: map<Holder, Cleanup>, h: Holder, c: Cleanup)
    requires Counted(a, holders) && h !in holders && FdOf(a, c.file) == Some(c.fd)
    requires forall i :: FdOf(b, i) == FdOf(a, i) && CountOf(b, i) == CountOf(a, i) + (if i == c.file then 1 else 0)
    ensures Counted(b, holders[h := c])
  {
    hide FdOf, CountOf, Users;
    UsersAdd(holders, h, c);
  }

  lemma DropCounted(a: map<Id, Entry>, b: map<Id, Entry>, holders: map<Holder, Cleanup>, h: Holder)
    requires Counted(a, holders) && h in holders
    requires forall i :: CountOf(b, i) == CountOf(a, i) - (if i == holders[h].file then 1 else 0)
    requires forall i :: FdOf(b, i) == FdOf(a, i) || CountOf(b, i) == 0
    ensures Counted(b, holders - {h})
  {
    hide FdOf, CountOf;
    UsersDrop(holders, h);
    assert forall i :: CountOf(b, i) == |Users(holders - {h}, i)| by {
      hide Users;
    }
    forall k | k in holders - {h}
      ensures FdOf(b, holders[k].file) == Some(holders[k].fd)
    {
      assert k in Users(holders - {h}, holders[k].file);
    }
  }

  lemma HolderEntry(s: State, h: Holder, hand: Option<Id>)
    requires Inv(s, hand) && h in s.holders
    ensures var id := s.holders[h].file;
      && id in s.entries && s.entries[id].count > 0 && s.entries[id].fd == Some(s.holders[h].fd)
      && Sound(s.entries[id], InTree(s.entries, s.tree, id))
      && s.holders[h].fd in s.open
  {
    hide Indexed, Ordered, InTree, Sound;
    UsersDrop(s.holders, h);
    assert FdOf(s.entries, s.holders[h].file).Some?;
  }

  // A cleanup runs; the entry stays, because the tree or another cleanup needs it.
  lemma ReleaseKeeps(s: State, h: Holder)
    requires Inv(s, None) && h in s.holders && s.holders[h].file in s.entries
    requires s.entries[s.holders[h].file].count > 0
    requires InTree(s.entries, s.tree, s.holders[h].file) || s.entries[s.holders[h].file].count > 1
    ensures var id := s.holders[h].file;
      Inv(s.(entries := s.entries[id := s.entries[id].(count := s.entries[id].count - 1)],
             holders := s.holders - {h}), None)
  {
    hide Kinds, Owned, Counted, Ordered, Indexed, InTree;
    var id := s.holders[h].file;
    var e := s.entries[id].(count := s.entries[id].count - 1);
    HolderEntry(s, h, None);
    SetIndex(s, id, e, None);
    SetOrder(s, id, e);
    SetKinds(s.entries, s.tree, id, e);
    FdsSame(s.entries, s.entries[id := e], s.open);
    DropCounted(s.entries, s.entries[id := e], s.holders, h);
  }

  // The last cleanup of a detached entry closes its descriptor and frees it.
  lemma LastKeeps(s: State, h: Holder)
    requires Inv(s, None) && h in s.holders && s.holders[h].file in s.entries
    requires s.entries[s.holders[h].file].count == 1 && !InTree(s.entries, s.tree, s.holders[h].file)
    ensures s.holders[h].fd in s.open
    ensures Inv(s.(entries := s.entries - {s.holders[h].file}, holders := s.holders - {h},
                   open := s.open - {s.holders[h].fd}), None)
  {
    hide Kinds, Owned, Counted, Ordered, Indexed, InTree, Sound;
    var id := s.holders[h].file;
    HolderEntry(s, h, None);
    NotQueued(s, id);
    FreeIndex(s.entries, s.tree, s.queue, s.current, id);
    FreeOrder(s.entries, s.queue, s.clock, id);
    FreeKinds(s.entries, s.tree, id, s.tree);
    CloseOwned(s.entries, s.entries - {id}, id, s.open);
    DropCounted(s.entries, s.entries - {id}, s.holders, h);
  }

  lemma NotQueued(s: State, id: Id)
    requires Indexed(s.entries, s.tree, s.queue, s.current, None) && !InTree(s.entries, s.tree, id)
    ensures id !in s.queue
  {
  }
}
