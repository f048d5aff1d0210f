/**
 * The operations of the open file cache: opening a name, running a cleanup,
 * and expiring old entries (ngx_open_file_cache.c).
 */
module NgxFileCacheOps {
  import opened Options
  import opened Collections
  import opened NgxFileCache

  datatype Request = Request(uniq: nat, valid: int, minUses: nat, errors: bool, testDir: bool)

  datatype Reply = Reply(ok: bool, fd: Option<Fd>, err: nat, uniq: nat, isDir: bool)

  function ReplyOf(st: Stat): (r: Reply)
  {
    Reply(st.ok, st.fd, st.err, st.uniq, st.isDir)
  }

  // Each entry of the tree records what some view of the file system showed.
  ghost predicate Recorded(entries: map<Id, Entry>, tree: map<Name, Id>, seen: map<Id, View>)
  {
    forall n :: n in tree ==> tree[n] in entries && Records(entries[tree[n]], seen, tree[n])
  }

  ghost predicate Records(e: Entry, seen: map<Id, View>, id: Id)
  {
    id in seen && Says(e.err, e.uniq, e.isDir, seen[id])
  }

  ghost predicate Named(entries: map<Id, Entry>, tree: map<Name, Id>)
  {
    forall n :: n in tree ==> tree[n] in entries && entries[tree[n]].name == n
  }

  lemma RecordedLeave(entries: map<Id, Entry>, tree: map<Name, Id>, seen: map<Id, View>, id: Id, e: Entry)
    requires Recorded(entries, tree, seen) && id in entries && Named(entries, tree)
    ensures Recorded(entries - {id}, tree - {entries[id].name}, seen)
    ensures Recorded(entries[id := e], tree - {entries[id].name}, seen)
  {
    hide Records;
  }

  lemma RecordedSet(entries: map<Id, Entry>, tree: map<Name, Id>, seen: map<Id, View>, id: Id, e: Entry)
    requires Recorded(entries, tree, seen) && id in entries
    requires e.err == entries[id].err && e.uniq == entries[id].uniq && e.isDir == entries[id].isDir
    ensures Recorded(entries[id := e], tree, seen)
  {
    hide Says;
  }

  class Cache {
    const max: nat
    const inactive: int
    var entries: map<Id, Entry>
    var tree: map<Name, Id>
    var queue: seq<Id>
    var current: nat
    var holders: map<Holder, Cleanup>
    var nextId: Id                 // identities from here on are unused
    var nextHolder: Holder
    var open: set<Fd>              // the kernel's open descriptors
    ghost var strays: nat
    ghost var clock: int
    ghost var seen: map<Id, View>

    // The state, apart from descriptors opened but not yet given to an entry.
    ghost function Now(loose: set<Fd>): State
      reads this
    {
      State(entries, tree, queue, current, holders, open - loose, strays, clock)
    }

    ghost predicate Holds(loose: set<Fd>, hand: Option<Id>)
      reads this
    {
      && Inv(Now(loose), hand) && Recorded(entries, tree, seen) && loose <= open
      && (forall id :: id in entries ==> id < nextId) && (forall h :: h in holders ==> h < nextHolder)
    }

    ghost predicate Valid()
      reads this
    {
      Holds({}, None) && current <= max && max >= 1
    }

    constructor (max: nat, inactive: int, now: int)
      requires max >= 1
      ensures Valid() && this.max == max && this.inactive == inactive && tree == map[] && holders == map[] && open == {}
      ensures clock == now
    {
      this.max, this.inactive := max, inactive;
      entries, tree, queue, current, holders := map[], map[], [], 0, map[];
      nextId, nextHolder, open, strays, clock, seen := 0, 0, {}, 0, now, map[];
    }

    method CloseFile(fd: Fd)
      modifies this`open, this`strays
      ensures open == old(open) - {fd} && strays == old(strays) + (if fd in old(open) then 0 else 1)
    {
      if fd !in open {
        strays := strays + 1;
      }
      open := open - {fd};
    }

    // The entry in hand leaves the tree; it is freed unless it is still in use.
    method Discard(id: Id, ghost loose: set<Fd>)
      requires Holds(loose, Some(id))
      modifies this`entries, this`tree, this`current, this`open, this`strays
      ensures open <= old(open) && Holds(loose, None) && old(current) > 0
      ensures current == old(current) - 1 && old(id in entries)
      ensures tree == old(tree) - {old(entries)[id].name}
      ensures forall i :: i != id ==>
        (i in entries <==> i in old(entries)) && (i in entries ==> entries[i] == old(entries)[i])
      ensures id in entries <==> old(entries)[id].count > 0
    {
      hide Inv, Recorded, InTree, Sound, Named;
      HandFacts(Now(loose), id);
      if entries[id].count > 0 {
        Detach(id, loose);
      } else {
        if entries[id].fd.Some? {
          CloseEntry(id, loose, Some(id));
          HandFacts(Now(loose), id);
        }
        ghost var e := entries[id];
        RecordedLeave(entries, tree, seen, id, e);
        FreeKeeps(Now(loose), id);
        tree, current := tree - {entries[id].name}, current - 1;
        entries := entries - {id};
      }
    }

    // The entry in hand lives on outside the tree.
    method Detach(id: Id, ghost loose: set<Fd>)
      requires Holds(loose, Some(id)) && id in entries && entries[id].count > 0
      modifies this`entries, this`tree, this`current
      ensures Holds(loose, None) && old(current) > 0 && current == old(current) - 1
      ensures tree == old(tree) - {old(entries)[id].name}
      ensures entries == old(entries)[id := old(entries)[id].(close := true)]
    {
      hide Inv, Recorded, InTree, Sound, Named;
      HandFacts(Now(loose), id);
      RecordedLeave(entries, tree, seen, id, entries[id].(close := true));
      DetachKeeps(Now(loose), id);
      tree, current := tree - {entries[id].name}, current - 1;
      entries := entries[id := entries[id].(close := true)];
    }

    // An unused entry of the tree has its descriptor closed.
    method CloseEntry(id: Id, ghost loose: set<Fd>, ghost hand: Option<Id>)
      requires Holds(loose, hand) && InTree(entries, tree, id) && entries[id].count == 0 && entries[id].fd.Some?
      modifies this`entries, this`open, this`strays
      ensures Holds(loose, hand) && entries == old(entries)[id := old(entries)[id].(fd := None)]
      ensures open == old(open) - {old(entries)[id].fd.value}
    {
      hide Inv, Recorded, Sound;
      CloseKeeps(Now(loose), id, hand);
      var e := entries[id];
      RecordedSet(entries, tree, seen, id, e.(fd := None));
      ghost var left := open - loose - {e.fd.value};
      CloseFile(e.fd.value);
      assert open - loose == left;
      entries := entries[id := e.(fd := None)];
    }

    // The least recently accessed entry leaves queue and tree.
    method DiscardLast(ghost loose: set<Fd>)
      requires Holds(loose, None) && queue != []
      modifies this`entries, this`tree, this`queue, this`current, this`open, this`strays
      ensures open <= old(open) && Holds(loose, None) && old(current) > 0 && current == old(current) - 1
      ensures var id := old(queue[|queue| - 1]);
        && queue == old(queue[..|queue| - 1]) && id in old(entries)
        && tree == old(tree) - {old(entries)[id].name}
        && (forall i :: i in queue <==> i in old(queue) && i != id)
        && (forall i :: i in queue ==> i in old(entries) && old(entries)[id].accessed <= old(entries)[i].accessed)
        && (forall i :: i != id ==>
              (i in entries <==> i in old(entries)) && (i in entries ==> entries[i] == old(entries)[i]))
    {
      hide Inv, Recorded, InTree, Sound, Distinct;
      var id := queue[|queue| - 1];
      QueueFacts(Now(loose));
      LastOff(queue);
      LastOldest(Now(loose));
      LastKeepsQueue(Now(loose));
      queue := queue[..|queue| - 1];
      Discard(id, loose);
    }

    lemma Queued(loose: set<Fd>)
      requires Holds(loose, None)
      ensures |queue| == current && Distinct(queue) && Named(entries, tree)
      ensures forall n :: n in tree ==> tree[n] in queue && tree[n] in entries
      ensures forall i :: i in queue ==> i in entries && entries[i].name in tree && tree[entries[i].name] == i
    {
      hide Inv, Recorded;
      QueueFacts(Now(loose));
    }

    method TrimOne(ghost e0: map<Id, Entry>, ghost t0: map<Name, Id>, ghost q0: seq<Id>, ghost loose: set<Fd>)
      requires Holds(loose, None) && queue != [] && Trimmed(e0, t0, q0, entries, tree, queue)
      modifies this`entries, this`tree, this`queue, this`current, this`open, this`strays
      ensures open <= old(open) && Holds(loose, None) && old(current) > 0 && current == old(current) - 1
      ensures queue == old(queue[..|queue| - 1]) && Trimmed(e0, t0, q0, entries, tree, queue)
    {
      hide Trimmed, Distinct, Named, Cache.Holds;
      Queued(loose);
      ghost var e, t, q, id := entries, tree, queue, queue[|queue| - 1];
      DiscardLast(loose);
      TrimStep(e0, t0, q0, e, t, q, entries, tree, id, queue);
    }

    /**
     * ngx_expire_old_cached_files.  Entries leave from the tail of the queue
     * only: with n == 0 the last one whatever its age, then, while n allows,
     * those inactive for longer than the configured time.
     */
    method Expire(start: nat, now: int, ghost loose: set<Fd>)
      requires Holds(loose, None)
      modifies this`entries, this`tree, this`queue, this`current, this`open, this`strays
      ensures open <= old(open) && Holds(loose, None) && current <= old(current)
      ensures start == 0 && old(current) > 0 ==> current < old(current)
      ensures Trimmed(old(entries), old(tree), old(queue), entries, tree, queue)
      ensures AllIdle(old(entries), old(queue), |queue|, |old(queue)| - (if start == 0 then 1 else 0), now, inactive)
      ensures |old(queue)| - |queue| < 3 - start && queue != [] ==> !Idle(entries, queue[|queue| - 1], now, inactive)
    {
      hide Inv, Recorded, InTree, Sound, Trimmed, Distinct, Named, AllIdle, Cache.Holds;
      var n := start;
      Queued(loose);
      TrimNone(entries, tree, queue);
      NoneIdle(old(entries), old(queue), now, inactive);
      while n < 3
        invariant open <= old(open) && Holds(loose, None) && current <= old(current) && start <= n
        invariant start == 0 && n > 0 && old(current) > 0 ==> current < old(current)
        invariant |old(queue)| - |queue| == n - start
        invariant Trimmed(old(entries), old(tree), old(queue), entries, tree, queue)
        invariant AllIdle(old(entries), old(queue), |queue|, |old(queue)| - (if start == 0 then 1 else 0), now,
                          inactive)
      {
        Queued(loose);
        if queue == [] {
          return;
        }
        var id := queue[|queue| - 1];
        if n != 0 && now - entries[id].accessed <= inactive {
          return;
        }
        n := n + 1;
        TrimLast(old(entries), old(tree), old(queue), entries, tree, queue);
        AllIdleStep(old(entries), old(queue), |queue|, |old(queue)| - (if start == 0 then 1 else 0), now, inactive);
        TrimOne(old(entries), old(tree), old(queue), loose);
      }
    }

    // An entry of the tree goes to the head of the queue, accessed now.
    method Requeue(id: Id, now: int, ghost loose: set<Fd>)
      requires Holds(loose, None) && InTree(entries, tree, id) && clock <= now
      modifies this`entries, this`queue, this`clock
      ensures Holds(loose, None) && clock == now && queue == [id] + Without(old(queue), id)
      ensures entries == old(entries)[id := old(entries)[id].(accessed := now)]
    {
      hide Inv, Recorded;
      TakeKeeps(Now(loose), id);
      queue := Without(queue, id);
      PutKeeps(Now(loose), id, now);
      RecordedSet(entries, tree, seen, id, entries[id].(accessed := now));
      entries, queue, clock := entries[id := entries[id].(accessed := now)], [id] + queue, now;
    }

    // One cleanup gives its file back (count-- and ngx_close_cached_file).
    method GiveBack(h: Holder, now: int)
      requires Holds({}, None) && h in holders && clock <= now
      modifies this
      ensures Holds({}, None) && holders == old(holders) - {h} && clock >= old(clock)
      ensures tree == old(tree) && current == old(current) && clock <= now
      ensures var c := old(holders)[h];
        && c.file in old(entries) && c.fd in old(open)
        && (var e := old(entries)[c.file];
            && open == (if e.count == 1 && (e.close || e.uses < c.minUses) then old(open) - {c.fd} else old(open))
            && queue == if e.close then old(queue) else [c.file] + Without(old(queue), c.file))
    {
      hide Inv, Recorded, InTree, Sound;
      var c := holders[h];
      HolderFacts(Now({}), h);
      assert open - {} == open;
      var e := entries[c.file];
      if !e.close {
        ReleaseKeeps(Now({}), h);
        RecordedSet(entries, tree, seen, c.file, e.(count := e.count - 1));
        entries, holders := entries[c.file := e.(count := e.count - 1)], holders - {h};
        ReInTree(old(entries), tree, c.file, entries[c.file]);
        Requeue(c.file, now, {});
        ReInTree(old(entries), tree, c.file, entries[c.file]);
        if entries[c.file].uses < c.minUses && entries[c.file].count == 0 {
          CloseEntry(c.file, {}, None);
        }
      } else if e.count > 1 {
        ReleaseKeeps(Now({}), h);
        RecordedSet(entries, tree, seen, c.file, e.(count := e.count - 1));
        entries, holders := entries[c.file := e.(count := e.count - 1)], holders - {h};
      } else {
        LastKeeps(Now({}), h);
        QueueFacts(Now({}));
        RecordedFree(entries, tree, seen, c.file);
        CloseFile(c.fd);
        entries, holders := entries - {c.file}, holders - {h};
        assert open - {} == open;
      }
    }

    /**
     * ngx_open_file_cleanup: the cleanup gives its file back, then at most two
     * inactive entries are expired.
     */
    method Release(h: Holder, now: int)
      requires Valid() && h in holders && clock <= now
      modifies this
      ensures Valid() && holders == old(holders) - {h} && clock <= now
    {
      hide Cache.Holds;
      GiveBack(h, now);
      Expire(1, now, {});
    }

    // The entry in hand gets one more holder.
    method Grant(id: Id, minUses: nat)
      requires Holds({}, Some(id)) && id in entries && entries[id].fd.Some?
      modifies this`entries, this`holders, this`nextHolder
      ensures Holds({}, Some(id))
      ensures entries == old(entries)[id := old(entries)[id].(count := old(entries)[id].count + 1)]
      ensures holders == old(holders)[old(nextHolder) := Cleanup(id, old(entries)[id].fd.value, minUses)]
    {
      hide Inv, Recorded;
      GrantKeeps(Now({}), id, nextHolder, minUses);
      var e := entries[id];
      RecordedSet(entries, tree, seen, id, e.(count := e.count + 1));
      entries := entries[id := e.(count := e.count + 1)];
      holders, nextHolder := holders[nextHolder := Cleanup(id, e.fd.value, minUses)], nextHolder + 1;
    }

    // The entry in hand goes to the head of the queue, accessed now.
    method Put(id: Id, now: int)
      requires Holds({}, Some(id)) && id in entries && clock <= now
      modifies this`entries, this`queue, this`clock
      ensures Holds({}, None) && clock == now && queue == [id] + old(queue)
      ensures entries == old(entries)[id := old(entries)[id].(accessed := now)]
    {
      hide Inv, Recorded;
      PutKeeps(Now({}), id, now);
      RecordedSet(entries, tree, seen, id, entries[id].(accessed := now));
      entries, queue, clock := entries[id := entries[id].(accessed := now)], [id] + queue, now;
    }

    /**
     * From `update` to the end of ngx_open_cached_file: the entry in hand
     * takes over what was found, and the caller gets a holder if it is a file.
     */
    method Settle(id: Id, st: Stat, of: Request, now: int, view: View, ghost loose: set<Fd>,
                  ghost good: bool) returns (r: Reply)
      requires id in entries && clock <= now && st.ok == (st.err == 0)
      requires good ==> Holds(loose, Some(id)) && Fits(entries[id], st, loose) && Says(st.err, st.uniq, st.isDir, view)
      requires !good ==> st.ok && st.isDir && st.fd.Some?
      modifies this
      ensures clock == now && open == old(open)
      ensures r == Reply(st.ok, st.fd, st.err, st.uniq, st.isDir)
      ensures good ==> Holds({}, None) && queue == [id] + old(queue) && tree == old(tree) && current == old(current)
      ensures good && st.ok ==> Shows(id, st, now)
      ensures good && st.ok && !st.isDir ==> st.fd.Some? && st.fd.value in open
      ensures good && st.ok && !st.isDir ==>
        holders == old(holders)[old(nextHolder) := Cleanup(id, st.fd.value, of.minUses)]
      ensures good && (!st.ok || st.isDir) ==> holders == old(holders)
      ensures !good ==> !Valid()
    {
      hide Inv, Recorded, Sound, Says, Fits;
      Note(id, st, now, view, loose, good);
      if st.err == 0 && !st.isDir {
        Grant(id, of.minUses);
      }
      if good {
        PutKeeps(Now({}), id, now);
        RecordedSet(entries, tree, seen, id, entries[id].(accessed := now));
      }
      entries, queue, clock := entries[id := entries[id].(accessed := now)], [id] + queue, now;
      if !good {
        DirectoryWithFd(Now({}), id);
      }
      r := Reply(st.ok, st.fd, st.err, st.uniq, st.isDir);
    }

    // The entry records what was found at the given time.
    predicate Shows(id: Id, st: Stat, when: int)
      reads this
    {
      && id in entries && entries[id].created == when && entries[id].fd == st.fd
      && entries[id].err == st.err && entries[id].uniq == st.uniq && entries[id].isDir == st.isDir
    }

    // The entry in hand records what was found.
    method Note(id: Id, st: Stat, now: int, view: View, ghost loose: set<Fd>, ghost good: bool)
      requires id in entries
      requires good ==> Holds(loose, Some(id)) && Fits(entries[id], st, loose) && Says(st.err, st.uniq, st.isDir, view)
      modifies this`entries, this`seen
      ensures entries == old(entries)[id := Noted(old(entries)[id], st, now)]
      ensures good ==> Holds({}, Some(id)) && (st.err == 0 && !st.isDir ==> st.fd.Some? && st.fd.value in open)
    {
      hide Inv, Recorded, Sound, Says, Fits;
      var e := Noted(entries[id], st, now);
      if good {
        SettleKeeps(Now(loose), id, st, now, loose);
        assert open - loose + loose == open - {};
        HandFacts(Now(loose), id);
        NotedSays(entries[id], st, now, view);
        RecordedNew(entries, tree, seen, id, e, view);
        FitsFile(entries[id], st, loose);
      }
      entries, seen := entries[id := e], seen[id := view];
      if good {
        HandFacts(Now({}), id);
      }
    }

    // Memory ran out: what was opened is closed.
    method GiveUp(st: Stat, ghost loose: set<Fd>, ghost good: bool)
      requires Holds(loose, None) && (good ==> FitsNew(st, loose))
      requires !good ==> st.fd.Some? && loose == {} && exists id :: id in entries && entries[id].fd == st.fd
      modifies this`open, this`strays
      ensures open <= old(open) && (good ==> Holds({}, None))
      ensures !good ==> !Valid()
    {
      hide Inv, Recorded;
      ghost var s := Now(loose);
      if st.fd.Some? {
        CloseFile(st.fd.value);
      }
      assert open - {} == (s.open + loose) - (if st.fd.Some? then {st.fd.value} else {});
      GivenUp(s, Now({}), st, loose, good);
    }

    method MakeRoom(now: int, ghost loose: set<Fd>)
      requires Holds(loose, None) && 1 <= max == current
      modifies this`entries, this`tree, this`queue, this`current, this`open, this`strays
      ensures open <= old(open) && Holds(loose, None) && current < max && tree.Keys <= old(tree.Keys)
    {
      hide Cache.Holds, Trimmed, AllIdle;
      Expire(0, now, loose);
      TrimmedTree(old(entries), old(tree), old(queue), entries, tree, queue);
    }

    // A new entry, in hand; a cached error leaves some of its fields unset.
    method Insert(name: Name, st: Stat, now: int, view: View, ghost loose: set<Fd>, ghost good: bool) returns (id: Id)
      requires Holds(loose, None) && name !in tree && st.ok == (st.err == 0)
      requires good ==> FitsNew(st, loose) && Says(st.err, st.uniq, st.isDir, view)
      modifies this`entries, this`tree, this`current, this`nextId, this`seen
      ensures id in entries && tree == old(tree)[name := id] && current == old(current) + 1
      ensures good ==> Holds(loose, Some(id)) && Fits(entries[id], st, loose)
    {
      hide Inv, Recorded, Says, Fits, FitsNew;
      var junk: bool, junkUniq: nat := *, *;
      id := nextId;
      var e := Entry(name, None, st.err, if st.ok then st.isDir else junk, if st.ok then st.uniq else junkUniq, 0,
                     junk && !st.ok, 1, now, now);
      if good {
        CreateKeeps(Now(loose), id, e);
        SaysError(st, junk, junkUniq, view);
        RecordedCreate(entries, tree, seen, id, e, view);
        NewFits(e, st, loose);
      }
      entries, tree, current, nextId := entries[id := e], tree[name := id], current + 1, nextId + 1;
      seen := seen[id := view];
    }

    /**
     * From `create`: room is made by expiring the least recently accessed
     * entry, and a new entry takes over what was found.
     */
    method Create(name: Name, st: Stat, of: Request, now: int, view: View, memory: bool, ghost loose: set<Fd>,
                  ghost good: bool)
      returns (r: Reply)
      requires Holds(loose, None) && current <= max && 1 <= max
      requires name !in tree && clock <= now && st.ok == (st.err == 0)
      requires good ==> FitsNew(st, loose) && Says(st.err, st.uniq, st.isDir, view)
      requires !good ==> st.ok && st.isDir && st.fd.Some? && loose == {} && current < max
      requires !good ==> exists id :: id in entries && entries[id].fd == st.fd
      modifies this
      ensures clock <= now && open <= old(open)
      ensures good ==> Valid()
      ensures good && memory ==> name in tree && First(tree[name])
      ensures good && memory && st.ok ==> Shows(tree[name], st, now)
      ensures good && memory && st.ok && !st.isDir ==>
        && st.fd.Some? && st.fd.value in open
        && holders == old(holders)[old(nextHolder) := Cleanup(tree[name], st.fd.value, of.minUses)]
      ensures good && (!memory || !st.ok || st.isDir) ==> holders == old(holders)
      ensures r == if memory then ReplyOf(st) else Reply(false, None, st.err, st.uniq, st.isDir)
      ensures !good ==> !Valid()
    {
      hide Cache.Holds, Says, Fits, FitsNew;
      if current >= max {
        MakeRoom(now, loose);
      }
      if !memory {
        GiveUp(st, loose, good);
        return Reply(false, None, st.err, st.uniq, st.isDir);
      }
      var id := Insert(name, st, now, view, loose, good);
      r := Settle(id, st, of, now, view, loose, good);
    }

    // A cached answer is still good enough for this request.
    predicate Current(e: Entry, of: Request, now: int)
    {
      (of.uniq == 0 || of.uniq == e.uniq) && now - e.created < of.valid
    }

    // The one input the cache cannot bear: a look at the file system shows
    // the inode number of a cached open file on a directory.
    ghost predicate Stale(name: Name, of: Request, now: int, view: View)
      reads this
    {
      && name in tree && tree[name] in entries
      && (var e := entries[tree[name]];
          e.fd.Some? && !Current(e, of, now) && Reused(e.fd, e.uniq, view))
    }

    // Whether nothing was found that may be cached.
    predicate Hopeless(st: Stat, of: Request)
    {
      !st.ok && (st.err == 0 || !of.errors)
    }

    // What a request comes to: a look at a file that is not cached or was
    // closed for lack of use, the cached answer, or another look.
    ghost function Outcome(name: Name, of: Request, now: int, view: View, newFd: Fd): Stat
      reads this
    {
      if name !in tree || tree[name] !in entries then OpenAndStat(None, of.uniq, of.testDir, view, newFd)
      else
        var e := entries[tree[name]];
        if e.fd.None? && e.err == 0 && !e.isDir then OpenAndStat(None, of.uniq, of.testDir, view, newFd)
        else if Current(e, of, now) then
          Stat(e.err == 0, if e.err == 0 then e.fd else None, e.err, e.uniq, e.isDir)
        else OpenAndStat(e.fd, e.uniq, of.testDir || e.isDir, view, newFd)
    }

    ghost predicate Answered(name: Name, of: Request, now: int, view: View, r: Reply)
      reads this
    {
      || Says(r.err, r.uniq, r.isDir, view)
      || (&& name in tree && tree[name] in entries && tree[name] in seen && Current(entries[tree[name]], of, now)
          && Says(r.err, r.uniq, r.isDir, seen[tree[name]]))
    }

    // The entry at the head of the queue.
    predicate First(id: Id)
      reads this
    {
      queue != [] && queue[0] == id
    }

    // What a look at the file system opened.
    method Opened(st: Stat, newFd: Fd) returns (ghost loose: set<Fd>)
      requires newFd !in open
      modifies this`open
      ensures loose == if st.fd == Some(newFd) then {newFd} else {}
      ensures open == old(open) + loose && loose !! old(open)
    {
      loose := {};
      if st.fd == Some(newFd) {
        open, loose := open + {newFd}, {newFd};
      }
    }

    // A name that is not cached, or whose entry has just been detached.
    method OpenNew(name: Name, of: Request, now: int, view: View, newFd: Fd, memory: bool) returns (r: Reply)
      requires Valid() && clock <= now && newFd !in open && Plausible(view) && name !in tree
      modifies this
      ensures clock <= now && open <= old(open) + {newFd}
      ensures Valid()
      ensures var st := OpenAndStat(None, of.uniq, of.testDir, view, newFd);
        && (memory || r.ok ==> r == ReplyOf(st)) && (r.ok ==> name in tree && Shows(tree[name], st, now))
      ensures r.ok || r.err != 0 ==> Says(r.err, r.uniq, r.isDir, view)
      ensures r.ok ==> name in tree && First(tree[name])
      ensures r.ok && !r.isDir ==> r.fd.Some? && r.fd.value in open
      ensures r.ok && !r.isDir ==>
        holders == old(holders)[old(nextHolder) := Cleanup(tree[name], r.fd.value, of.minUses)]
      ensures !r.ok || r.isDir ==> holders == old(holders)
    {
      hide Inv, Recorded, Says;
      var st := OpenAndStat(None, of.uniq, of.testDir, view, newFd);
      StatSays(None, of.uniq, of.testDir, view, newFd);
      if Hopeless(st, of) {
        return Reply(false, None, st.err, st.uniq, st.isDir);
      }
      ghost var s := Now({});
      ghost var loose := Opened(st, newFd);
      assert Now(loose) == s by {
        assert open - loose == s.open;
      }
      r := Create(name, st, of, now, view, memory, loose, true);
    }

    // The entry found is used once more and leaves the queue while it is worked on.
    method TakeOut(id: Id)
      requires Valid() && InTree(entries, tree, id)
      modifies this`entries, this`queue
      ensures Holds({}, Some(id)) && entries == old(entries)[id := old(entries)[id].(uses := old(entries)[id].uses + 1)]
      ensures Sound(entries[id], true) && (entries[id].fd.Some? ==> entries[id].fd.value in open)
      ensures id in seen && Says(entries[id].err, entries[id].uniq, entries[id].isDir, seen[id])
    {
      hide Inv, Sound, Says;
      TakeKeeps(Now({}), id);
      var e := entries[id];
      HandFacts(Now({}).(queue := Without(queue, id)), id);
      UsedSound(e);
      SetKeeps(Now({}).(queue := Without(queue, id)), id, e.(uses := e.uses + 1));
      RecordedSet(entries, tree, seen, id, e.(uses := e.uses + 1));
      entries, queue := entries[id := e.(uses := e.uses + 1)], Without(queue, id);
    }

    // The file was closed for lack of use: it is opened again.
    method Reopen(id: Id, of: Request, now: int, view: View, newFd: Fd) returns (r: Reply)
      requires Holds({}, Some(id)) && current <= max && 1 <= max && clock <= now && newFd !in open && Plausible(view)
      requires id in entries && entries[id].fd.None? && entries[id].count == 0
      modifies this
      ensures clock <= now && open <= old(open) + {newFd}
      ensures Valid()
      ensures r == ReplyOf(OpenAndStat(None, of.uniq, of.testDir, view, newFd))
      ensures r.ok || r.err != 0 ==> Says(r.err, r.uniq, r.isDir, view)
      ensures r.ok ==> tree == old(tree) && First(id)
      ensures r.ok && !r.isDir ==> r.fd.Some? && r.fd.value in open
      ensures r.ok && !r.isDir ==> holders == old(holders)[old(nextHolder) := Cleanup(id, r.fd.value, of.minUses)]
      ensures !r.ok || r.isDir ==> holders == old(holders)
    {
      hide Inv, Recorded, Says;
      var st := OpenAndStat(None, of.uniq, of.testDir, view, newFd);
      StatSays(None, of.uniq, of.testDir, view, newFd);
      if Hopeless(st, of) {
        Discard(id, {});
        return Reply(false, None, st.err, st.uniq, st.isDir);
      }
      ghost var s := Now({});
      ghost var loose := Opened(st, newFd);
      assert Now(loose) == s by {
        assert open - loose == s.open;
      }
      r := Settle(id, st, of, now, view, loose, true);
    }

    // The cached answer is given.
    method Answer(id: Id, of: Request, now: int) returns (r: Reply)
      requires Holds({}, Some(id)) && current <= max && 1 <= max && clock <= now
      requires id in entries
      requires entries[id].err == 0 && !entries[id].isDir ==> entries[id].fd.Some? && entries[id].fd.value in open
      modifies this
      ensures clock <= now
      ensures Valid() && tree == old(tree) && open == old(open) && First(id)
      ensures r == Reply(old(entries)[id].err == 0, if old(entries)[id].err == 0 then old(entries)[id].fd else None,
        old(entries)[id].err, old(entries)[id].uniq, old(entries)[id].isDir)
      ensures r.ok && !r.isDir ==>
        r.fd.Some? && holders == old(holders)[old(nextHolder) := Cleanup(id, r.fd.value, of.minUses)]
      ensures !r.ok || r.isDir ==> holders == old(holders)
    {
      hide Cache.Holds;
      var e := entries[id];
      if e.err == 0 && !e.isDir {
        Grant(id, of.minUses);
      }
      Put(id, now);
      r := Reply(e.err == 0, if e.err == 0 then e.fd else None, e.err, e.uniq, e.isDir);
    }

    // The cached answer is too old: the file system is looked at again.
    method Retest(id: Id, of: Request, now: int, view: View, newFd: Fd, memory: bool) returns (r: Reply)
      requires Holds({}, Some(id)) && current <= max && 1 <= max && clock <= now && newFd !in open && Plausible(view)
      requires InTree(entries, tree, id) && Sound(entries[id], true)
      requires entries[id].fd.Some? || entries[id].err != 0 || entries[id].isDir
      requires entries[id].fd.Some? ==> entries[id].fd.value in open
      modifies this
      ensures clock <= now && open <= old(open) + {newFd}
      ensures Valid() <==> !Reused(old(entries)[id].fd, old(entries)[id].uniq, view)
      ensures memory || r.ok ==>
        r == ReplyOf(OpenAndStat(old(entries)[id].fd, old(entries)[id].uniq, of.testDir || old(entries)[id].isDir,
                                 view, newFd))
      ensures Valid() && (r.ok || r.err != 0) ==> Says(r.err, r.uniq, r.isDir, view)
      ensures Valid() && r.ok && !r.isDir ==> r.fd.Some? && r.fd.value in open
      ensures Valid() && r.ok ==> old(entries)[id].name in tree && First(tree[old(entries)[id].name])
      ensures Valid() && r.ok && !r.isDir ==>
        holders == old(holders)[old(nextHolder) := Cleanup(tree[old(entries)[id].name], r.fd.value, of.minUses)]
      ensures Valid() && (!r.ok || r.isDir) ==> holders == old(holders)
    {
      hide Inv, Recorded, Says, Renewable, OpenAndStat, Sound;
      var e := entries[id];
      var st := OpenAndStat(e.fd, e.uniq, of.testDir || e.isDir, view, newFd);
      StatSays(e.fd, e.uniq, of.testDir || e.isDir, view, newFd);
      RetestFits(e, of.testDir || e.isDir, view, newFd);
      if Hopeless(st, of) {
        Discard(id, {});
        return Reply(false, None, st.err, st.uniq, st.isDir);
      }
      ghost var s, good := Now({}), !Reused(e.fd, e.uniq, view);
      ghost var loose := Opened(st, newFd);
      assert Now(loose) == s by {
        assert open - loose == s.open;
      }
      r := Renew(id, st, of, now, view, memory, loose, good);
    }

    // The entry takes over what was found, or makes way for one that does.
    method Renew(id: Id, st: Stat, of: Request, now: int, view: View, memory: bool, ghost loose: set<Fd>,
                 ghost good: bool)
      returns (r: Reply)
      requires Holds(loose, Some(id)) && current <= max && 1 <= max && clock <= now && InTree(entries, tree, id)
      requires st.ok == (st.err == 0) && Says(st.err, st.uniq, st.isDir, view)
      requires Renewable(entries[id], st, loose, good) && (entries[id].fd.Some? ==> entries[id].fd.value in open)
      modifies this
      ensures clock <= now && open <= old(open) && (memory || r.ok ==> r == ReplyOf(st))
      ensures r.err == st.err && r.uniq == st.uniq && r.isDir == st.isDir
      ensures Valid() <==> good
      ensures good && r.ok ==> old(entries)[id].name in tree && First(tree[old(entries)[id].name])
      ensures good && r.ok && !r.isDir ==>
        && r.fd.Some? && r.fd.value in open
        && holders == old(holders)[old(nextHolder) := Cleanup(tree[old(entries)[id].name], r.fd.value, of.minUses)]
      ensures good && (!r.ok || r.isDir) ==> holders == old(holders)
    {
      hide Inv, Recorded, Says, Fits, FitsNew;
      var e := entries[id];
      if Keep(e, st) {
        r := Settle(id, st, of, now, view, loose, true);
      } else if e.count == 0 {
        CloseEntry(id, loose, Some(id));
        r := Settle(id, st, of, now, view, loose, good);
      } else {
        Detach(id, loose);
        assert !good ==> id in entries && entries[id].fd == st.fd;
        r := Create(e.name, st, of, now, view, memory, loose, good);
      }
    }

    /**
     * ngx_open_cached_file.  The cache stays valid exactly when the request is
     * not stale.  Then a file that is answered has exactly one new holder, of
     * a descriptor that is open and belongs to the name's entry, which is now
     * the most recently accessed; no other holder changes; and every answer is
     * what the file system shows now or showed, for the same name, less than
     * the request's valid time ago.
     */
    method Open(name: Name, of: Request, now: int, view: View, newFd: Fd, memory: bool) returns (r: Reply)
      requires Valid() && clock <= now && newFd !in open && Plausible(view)
      modifies this
      ensures clock <= now && open <= old(open) + {newFd}
      ensures Valid() <==> !old(Stale(name, of, now, view))
      ensures memory || r.ok ==> r == ReplyOf(old(Outcome(name, of, now, view, newFd)))
      ensures r.ok && name !in old(tree) ==>
        name in tree && Shows(tree[name], old(Outcome(name, of, now, view, newFd)), now)
      ensures Valid() && (r.ok || r.err != 0) ==> old(Answered(name, of, now, view, r))
      ensures Valid() && r.ok ==> name in tree && First(tree[name])
      ensures Valid() && r.ok && !r.isDir ==> r.fd.Some? && r.fd.value in open
      ensures Valid() && r.ok && !r.isDir ==>
        && holders == old(holders)[old(nextHolder) := Cleanup(tree[name], r.fd.value, of.minUses)]
        && old(nextHolder) !in old(holders)
      ensures Valid() && (!r.ok || r.isDir) ==> holders == old(holders)
    {
      hide Inv, Recorded, Says, Sound, Reused;
      if name !in tree {
        r := OpenNew(name, of, now, view, newFd, memory);
        return;
      }
      var id := tree[name];
      Found(Now({}), name);
      TakeOut(id);
      SoundFacts(entries[id]);
      var e := entries[id];
      if e.fd.None? && e.err == 0 && !e.isDir {
        r := Reopen(id, of, now, view, newFd);
      } else if Current(e, of, now) {
        r := Answer(id, of, now);
      } else {
        NotReused(e, view);
        r := Retest(id, of, now, view, newFd, memory);
      }
    }
  }

  // A run that breaks the cache: a file is opened, and when its answer has
  // grown old its inode number is seen on a directory.
  method ReusedRun() returns (c: Cache)
    ensures fresh(c) && !c.Valid()
  {
    hide Inv, Recorded, Cache.Holds;
    var of := Request(0, 60, 1, false, false);
    c := new Cache(1, 20, 0);
    var r := c.Open("index.html", of, 0, There(7, false, 0, false), 3, true);
    r := c.Open("index.html", of, 60, There(7, true, 0, false), 4, true);
  }

  lemma Found(s: State, name: Name)
    requires Inv(s, None) && name in s.tree
    ensures s.tree[name] in s.entries && s.entries[s.tree[name]].name == name && InTree(s.entries, s.tree, s.tree[name])
  {
  }

  lemma SoundFacts(e: Entry)
    requires Sound(e, true)
    ensures e.fd.None? ==> e.count == 0
  {
  }

  lemma NotReused(e: Entry, view: View)
    ensures e.fd.None? ==> !Reused(e.fd, e.uniq, view)
  {
  }

  // Whether the entry stays and only its record changes.
  predicate Keep(e: Entry, st: Stat)
  {
    e.isDir || e.err != 0 || (st.err == 0 && !st.isDir && st.uniq == e.uniq)
  }

  lemma UsedSound(e: Entry)
    requires Sound(e, true)
    ensures Sound(e.(uses := e.uses + 1), true)
  {
  }

  // What a look at an entry may find; good unless an inode was reused.
  ghost predicate Renewable(e: Entry, st: Stat, loose: set<Fd>, good: bool)
  {
    if Keep(e, st) then good && Fits(e, st, loose)
    else
      && e.fd.Some?
      && (good ==> FitsNew(st, loose) && (e.count == 0 ==> Fits(e.(fd := None), st, loose)))
      && (!good ==> st.ok && st.isDir && st.fd == e.fd && loose == {})
  }

  lemma RetestFits(e: Entry, testDir: bool, view: View, newFd: Fd)
    requires Sound(e, true) && Plausible(view) && e.fd != Some(newFd) && (e.isDir ==> testDir)
    requires e.fd.Some? || e.err != 0 || e.isDir
    ensures var st := OpenAndStat(e.fd, e.uniq, testDir, view, newFd);
      var loose := if st.fd == Some(newFd) then {newFd} else {};
      && (st.ok ==> st.err == 0) && (!st.ok ==> st.fd.None? && !Reused(e.fd, e.uniq, view))
      && (st.ok || st.err != 0 ==> Renewable(e, st, loose, !Reused(e.fd, e.uniq, view)))
  {
  }

  lemma TrimmedTree(e0: map<Id, Entry>, t0: map<Name, Id>, q0: seq<Id>, e: map<Id, Entry>, t: map<Name, Id>, q: seq<Id>)
    requires Trimmed(e0, t0, q0, e, t, q)
    ensures t.Keys <= t0.Keys
  {
  }

  // Memory ran out: a new descriptor is closed again, and all is as before; a
  // descriptor still in use is lost.
  lemma GivenUp(s: State, t: State, st: Stat, loose: set<Fd>, good: bool)
    requires Inv(s, None) && (good ==> FitsNew(st, loose))
    requires !good ==> st.fd.Some? && loose == {} && exists id :: id in s.entries && s.entries[id].fd == st.fd
    requires t == s.(open := (s.open + loose) - (if st.fd.Some? then {st.fd.value} else {}), strays := t.strays)
    requires good ==> t.strays == s.strays
    requires loose !! s.open
    ensures Inv(t, None) <==> good
  {
    hide Indexed, Ordered, Kinds, Counted;
    if good {
      assert t.open == s.open;
    } else {
      var id :| id in s.entries && s.entries[id].fd == st.fd;
      assert FdOf(t.entries, id) == st.fd;
    }
  }

  lemma SaysError(st: Stat, junk: bool, junkUniq: nat, view: View)
    requires Says(st.err, st.uniq, st.isDir, view) && st.ok == (st.err == 0)
    ensures Says(st.err, if st.ok then st.uniq else junkUniq, if st.ok then st.isDir else junk, view)
  {
  }

  lemma RecordedCreate(entries: map<Id, Entry>, tree: map<Name, Id>, seen: map<Id, View>, id: Id, e: Entry, view: View)
    requires Recorded(entries, tree, seen) && id !in entries && Says(e.err, e.uniq, e.isDir, view)
    ensures Recorded(entries[id := e], tree[e.name := id], seen[id := view])
  {
    hide Says;
  }

  lemma NewFits(e: Entry, st: Stat, loose: set<Fd>)
    requires FitsNew(st, loose) && e.fd.None? && e.count == 0
    ensures Fits(e, st, loose)
  {
  }

  // What the entry records from a look at the file system.
  function Noted(e: Entry, st: Stat, now: int): (d: Entry)
  {
    var d := e.(fd := st.fd, err := st.err, created := now);
    if st.err == 0 then d.(uniq := st.uniq, close := false, isDir := st.isDir) else d
  }

  lemma NotedSays(e: Entry, st: Stat, now: int, view: View)
    requires Says(st.err, st.uniq, st.isDir, view)
    ensures var d := Noted(e, st, now);
      Says(d.err, d.uniq, d.isDir, view)
  {
  }

  // What was found can be given to the entry: a new descriptor to one without,
  // the same descriptor to the file it belongs to, or none at all.
  ghost predicate Fits(e: Entry, st: Stat, loose: set<Fd>)
  {
    if st.err != 0 || st.isDir then st.fd.None? && e.fd.None? && e.count == 0 && loose == {}
    else
      && st.fd.Some?
      && ((e.fd.None? && e.count == 0 && loose == {st.fd.value}) || (e.fd == st.fd && loose == {}))
  }

  ghost predicate FitsNew(st: Stat, loose: set<Fd>)
  {
    if st.err != 0 || st.isDir then st.fd.None? && loose == {} else st.fd.Some? && loose == {st.fd.value}
  }

  lemma FitsFile(e: Entry, st: Stat, loose: set<Fd>)
    requires Fits(e, st, loose)
    ensures st.err == 0 && !st.isDir ==> st.fd.Some?
  {
  }

  lemma SettleKeeps(s: State, id: Id, st: Stat, now: int, loose: set<Fd>)
    requires Inv(s, Some(id)) && id in s.entries && Fits(s.entries[id], st, loose) && loose !! s.open
    ensures Inv(s.(entries := s.entries[id := Noted(s.entries[id], st, now)], open := s.open + loose), Some(id))
  {
    hide Inv;
    HandFacts(s, id);
    var e := Noted(s.entries[id], st, now);
    if e.fd == s.entries[id].fd {
      assert s.open + loose == s.open;
      SetKeeps(s, id, e);
    } else {
      AttachKeeps(s, id, e);
    }
  }

  lemma RecordedNew(entries: map<Id, Entry>, tree: map<Name, Id>, seen: map<Id, View>, id: Id, e: Entry, view: View)
    requires Recorded(entries, tree, seen) && Says(e.err, e.uniq, e.isDir, view)
    ensures Recorded(entries[id := e], tree, seen[id := view])
  {
    hide Says;
  }

  lemma DirectoryWithFd(s: State, id: Id)
    requires id in s.entries && s.entries[id].isDir && s.entries[id].fd.Some?
    ensures !Inv(s, None)
  {
    hide Indexed, Ordered, Owned, Counted;
  }

  lemma HolderFacts(s: State, h: Holder)
    requires Inv(s, None) && h in s.holders
    ensures var id := s.holders[h].file;
      && id in s.entries && s.entries[id].count > 0 && s.entries[id].fd == Some(s.holders[h].fd)
      && (InTree(s.entries, s.tree, id) <==> !s.entries[id].close)
      && s.holders[h].fd in s.open
  {
    hide Inv, InTree;
    HolderEntry(s, h, None);
  }

  lemma ReInTree(entries: map<Id, Entry>, tree: map<Name, Id>, id: Id, e: Entry)
    requires InTree(entries, tree, id) && e.name == entries[id].name
    ensures forall m: map<Id, Entry> :: id in m && m[id] == e ==> InTree(m, tree, id)
  {
  }

  lemma RecordedFree(entries: map<Id, Entry>, tree: map<Name, Id>, seen: map<Id, View>, id: Id)
    requires Recorded(entries, tree, seen) && !InTree(entries, tree, id) && Named(entries, tree)
    ensures Recorded(entries - {id}, tree, seen)
  {
    hide Records;
  }

  // The queue has lost its tail, and the tree the same entries; the others are untouched.
  ghost predicate Trimmed(e0: map<Id, Entry>, t0: map<Name, Id>, q0: seq<Id>, e: map<Id, Entry>, t: map<Name, Id>,
                          q: seq<Id>)
  {
    && |q| <= |q0| && q == q0[..|q|]
    && (forall i :: i in q ==> i in e0 && i in e && e[i] == e0[i])
    && (forall n :: n in t ==> n in t0 && t[n] == t0[n] && t[n] in q)
    && (forall n :: n in t0 && t0[n] in q ==> n in t)
  }

  ghost predicate Idle(entries: map<Id, Entry>, id: Id, now: int, inactive: int)
  {
    id in entries && now - entries[id].accessed > inactive
  }

  ghost predicate AllIdle(entries: map<Id, Entry>, q: seq<Id>, from: nat, to: int, now: int, inactive: int)
  {
    forall i :: from <= i < to && i < |q| ==> Idle(entries, q[i], now, inactive)
  }

  lemma NoneIdle(entries: map<Id, Entry>, q: seq<Id>, now: int, inactive: int)
    ensures AllIdle(entries, q, |q|, |q|, now, inactive) && AllIdle(entries, q, |q|, |q| - 1, now, inactive)
  {
  }

  lemma AllIdleStep(entries: map<Id, Entry>, q: seq<Id>, from: nat, to: int, now: int, inactive: int)
    requires AllIdle(entries, q, from, to, now, inactive) && 0 < from <= |q|
    requires from <= to ==> Idle(entries, q[from - 1], now, inactive)
    ensures AllIdle(entries, q, from - 1, to, now, inactive)
  {
  }

  lemma TrimNone(e: map<Id, Entry>, t: map<Name, Id>, q: seq<Id>)
    requires (forall n :: n in t ==> t[n] in q) && (forall i :: i in q ==> i in e)
    ensures Trimmed(e, t, q, e, t, q)
  {
  }

  lemma TrimLast(e0: map<Id, Entry>, t0: map<Name, Id>, q0: seq<Id>, e: map<Id, Entry>, t: map<Name, Id>, q: seq<Id>)
    requires Trimmed(e0, t0, q0, e, t, q) && q != []
    ensures var i := q[|q| - 1];
      i in e && i in e0 && e[i] == e0[i] && i == q0[|q| - 1]
  {
  }

  lemma LastOff(q: seq<Id>)
    requires q != [] && Distinct(q)
    ensures forall i :: i in q[..|q| - 1] <==> i in q && i != q[|q| - 1]
  {
  }

  lemma TrimStep(e0: map<Id, Entry>, t0: map<Name, Id>, q0: seq<Id>, e: map<Id, Entry>, t: map<Name, Id>, q: seq<Id>,
    e': map<Id, Entry>, t': map<Name, Id>, id: Id, r: seq<Id>)
    requires Trimmed(e0, t0, q0, e, t, q) && Named(e, t) && |r| <= |q| && r == q[..|r|]
    requires id in e && t' == t - {e[id].name} && e[id].name in t && t[e[id].name] == id
    requires forall i :: i in r <==> i in q && i != id
    requires forall i :: i != id ==> (i in e' <==> i in e) && (i in e' ==> e'[i] == e[i])
    ensures Trimmed(e0, t0, q0, e', t', r)
  {
    assert r == q0[..|r|];
  }

  lemma QueueFacts(s: State)
    requires Inv(s, None)
    ensures |s.queue| == s.current && Distinct(s.queue)
    ensures forall n :: n in s.tree ==> s.tree[n] in s.queue && s.tree[n] in s.entries
    ensures forall i :: i in s.queue ==> i in s.entries && s.entries[i].name in s.tree && s.tree[s.entries[i].name] == i
    ensures Named(s.entries, s.tree)
  {
  }

  lemma LastOldest(s: State)
    requires Inv(s, None) && s.queue != []
    ensures var last := s.queue[|s.queue| - 1];
      last in s.entries && forall i :: i in s.queue ==>
        i in s.entries && s.entries[last].accessed <= s.entries[i].accessed
  {
    hide Indexed, Kinds, Owned, Counted;
  }

  lemma LastKeepsQueue(s: State)
    requires Inv(s, None) && s.queue != []
    ensures Inv(s.(queue := s.queue[..|s.queue| - 1]), Some(s.queue[|s.queue| - 1]))
  {
    hide Counted, Owned, Kinds, Ordered, Indexed;
    var k := |s.queue| - 1;
    assert s.queue[..k] + s.queue[k + 1..] == s.queue[..k];
    TakeOrder(s.entries, s.queue, s.clock, k);
    TakeIndex(s.entries, s.tree, s.queue, s.current, k);
  }

  lemma HandFacts(s: State, id: Id)
    requires Inv(s, Some(id))
    ensures id in s.entries && InTree(s.entries, s.tree, id) && Sound(s.entries[id], true)
    ensures s.current > 0 && id !in s.queue && s.entries[id].name in s.tree && s.tree[s.entries[id].name] == id
    ensures s.entries[id].fd.Some? ==> s.entries[id].fd.value in s.open
    ensures s.strays == 0 && Named(s.entries, s.tree)
  {
    hide Counted, Ordered, Sound;
    HandInTree(s, id);
    HandSound(s, id);
    assert FdOf(s.entries, id) == s.entries[id].fd;
  }
}
