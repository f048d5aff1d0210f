/** The wildcard hash as it lies in memory: at every level a packed table whose
    values are data or further tables, searched by walking its buckets. */
module NgxPacked {
  import opened Options
  import opened WordSizes
  import opened NgxWildcard
  import opened NgxNames
  import opened NgxDns
  import opened NgxTail
  import opened NgxHash

  /** ngx_hash over a whole string. */
  function HashOf(s: string): (h: nat)
  {
    if s == [] then 0 else HashStep(HashOf(s[..|s| - 1]), s[|s| - 1])
  }

  function HashStep(h: nat, c: char): (r: nat) { (h * 31 + c as nat) % TWO64 }

  datatype Item<V> = Leaf(value: V, starOnly: bool) | Deep(sub: Packed<V>, starOnly: bool)

  datatype Packed<V> = Packed(table: Table<Item<V>>, value: Option<V>)

  // -------------------------------------------------- what the tables stand for

  /** The tables hold, level by level, the entries of the nested hash. */
  ghost predicate Packs<V(!new)>(p: Packed<V>, node: Node<V>, line: nat)
    decreases node, 1
  {
    p.value == node.value && exists keys :: Level(p.table, node, line, keys)
  }

  ghost predicate Level<V(!new)>(t: Table<Item<V>>, node: Node<V>, line: nat, keys: seq<HashKey<Item<V>>>)
    decreases node, 0
  {
    && |keys| == |node.names| && Built(t, keys, line)
    && forall i :: 0 <= i < |keys| ==>
         && KeyOf(keys[i], node.names[i].lab)
         && ItemPacks(keys[i].value, node.names[i].entry, line)
  }

  predicate KeyOf<V>(k: HashKey<V>, lab: string) { k.name == lab && k.hash == HashOf(Lower(lab)) && !k.skip }

  ghost predicate ItemPacks<V(!new)>(item: Item<V>, entry: Entry<V>, line: nat)
    decreases entry, 0
  {
    match entry
    case Data(v, starOnly) => item == Leaf(v, starOnly)
    case Sub(sub, starOnly) => item.Deep? && item.starOnly == starOnly && Packs(item.sub, sub, line)
  }

  predicate LowerCase(s: string) { Lower(s) == s }

  /** All labels are in lower case, as the stored ones are. */
  predicate LowerTree<V>(node: Node<V>)
  {
    forall i :: 0 <= i < |node.names| ==> LowerCase(node.names[i].lab) && LowerEntry(node.names[i].entry)
  }

  predicate LowerEntry<V>(entry: Entry<V>) { entry.Sub? ==> LowerTree(entry.node) }

  // ------------------------------------------------------------------ one level

  /** What a table's walk returns is what the list of labels holds. */
  ghost predicate SameItem<V(!new)>(item: Option<Item<V>>, entry: Option<Entry<V>>, line: nat)
  {
    match entry
    case None => item.None?
    case Some(e) => item.Some? && ItemPacks(item.value, e, line) && LowerEntry(e)
  }

  lemma {:induction false} FirstIsLookup<V(!new)>(keys: seq<HashKey<Item<V>>>, names: seq<Named<V>>, lab: string,
                                                 line: nat, n: nat)
    requires |keys| == |names| && n <= |names|
    requires forall i :: 0 <= i < |keys| ==>
      KeyOf(keys[i], names[i].lab) && ItemPacks(keys[i].value, names[i].entry, line)
    requires forall i :: 0 <= i < |names| ==> LowerCase(names[i].lab) && LowerEntry(names[i].entry)
    ensures SameItem(FirstFrom(keys, 1, 0, lab, n), Lookup(names[n..], lab), line)
    decreases |names| - n
  {
    hide ItemPacks, HashOf, LowerEntry;
    if n < |names| {
      assert names[n..][0] == names[n] && names[n..][1..] == names[n + 1..];
      FirstIsLookup(keys, names, lab, line, n + 1);
    }
  }

  /** ngx_hash_find at one level: the entry of that label. */
  method FindLabel<V(!new)>(p: Packed<V>, key: nat, lab: string, ghost node: Node<V>, ghost line: nat)
    returns (item: Option<Item<V>>)
    requires Packs(p, node, line) && LowerTree(node) && key == HashOf(lab)
    ensures SameItem(item, Lookup(node.names, lab), line)
  {
    hide ItemPacks, HashOf, LowerEntry, SameItem, Built;
    ghost var keys :| Level(p.table, node, line, keys);
    assert p.table.size > 0 by { TableSize(p.table, keys, line); }
    item := NgxHash.Find(p.table, key, lab, keys, line);
    FirstByName(keys, p.table.size, HashOf, lab, 0);
    FirstIsLookup(keys, node.names, lab, line, 0);
    assert node.names[0..] == node.names;
  }

  lemma TableSize<V>(t: Table<V>, keys: seq<HashKey<V>>, line: nat)
    requires Built(t, keys, line)
    ensures t.size > 0
  {
  }

  // ---------------------------------------------------------------- whole names

  /** ngx_hash_find_wc_head on the tables. */
  method PackedHead<V(!new)>(p: Packed<V>, name: string, ghost node: Node<V>, ghost line: nat) returns (r: Option<V>)
    requires Packs(p, node, line) && LowerTree(node)
    ensures r == FindHead(node, name)
    decreases |name|
  {
    hide Packs, LowerTree, LabelStart, Lookup;
    var n := |name|;
    while n > 0 && name[n - 1] != '.'
      invariant 0 <= n <= |name| && '.' !in name[n..]
    {
      assert name[n - 1..] == [name[n - 1]] + name[n..];
      n := n - 1;
    }
    LabelStartIs(name, n);
    var key := 0;
    for i := n to |name|
      invariant key == HashOf(name[n..i])
    {
      HashMore(name, n, i);
      key := HashStep(key, name[i]);
    }
    assert name[n..|name|] == name[n..];
    var item := FindLabel(p, key, name[n..], node, line);
    PackedValue(p, node, line);
    match item {
      case None => r := p.value;
      case Some(Leaf(v, starOnly)) =>
        ItemIs(item.value, Lookup(node.names, name[n..]).value, line);
        r := if starOnly && n == 0 then None else Some(v);
      case Some(Deep(sub, starOnly)) =>
        ItemIs(item.value, Lookup(node.names, name[n..]).value, line);
        ghost var below := Lookup(node.names, name[n..]).value.node;
        PackedValue(sub, below, line);
        if n == 0 {
          r := if starOnly then None else sub.value;
        } else {
          r := PackedHead(sub, name[..n - 1], below, line);
          if r.None? {
            r := sub.value;
          }
        }
    }
  }

  lemma HashMore(name: string, n: nat, i: nat)
    requires n <= i < |name|
    ensures HashOf(name[n..i + 1]) == HashStep(HashOf(name[n..i]), name[i])
  {
    hide HashStep;
    var s := name[n..i + 1];
    assert s[..|s| - 1] == name[n..i] && s[|s| - 1] == name[i];
  }

  lemma PackedValue<V(!new)>(p: Packed<V>, node: Node<V>, line: nat)
    requires Packs(p, node, line)
    ensures p.value == node.value
  {
  }

  lemma ItemIs<V(!new)>(item: Item<V>, entry: Entry<V>, line: nat)
    requires ItemPacks(item, entry, line) && LowerEntry(entry)
    ensures item.Leaf? ==> entry == Data(item.value, item.starOnly)
    ensures item.Deep? ==> entry.Sub? && entry.starOnly == item.starOnly && Packs(item.sub, entry.node, line) &&
                           LowerTree(entry.node)
  {
    hide Packs;
  }

  /** ngx_hash_find_wc_tail on the tables. */
  method PackedTail<V(!new)>(p: Packed<V>, name: string, ghost node: Node<V>, ghost line: nat) returns (r: Option<V>)
    requires Packs(p, node, line) && LowerTree(node)
    ensures r == FindTail(node, name)
    decreases |name|
  {
    hide Packs, LowerTree, DotAt, Lookup;
    var n, key := 0, 0;
    while n < |name| && name[n] != '.'
      invariant n <= |name| && '.' !in name[..n] && key == HashOf(name[0..n])
    {
      assert name[..n + 1] == name[..n] + [name[n]];
      HashMore(name, 0, n);
      key := HashStep(key, name[n]);
      n := n + 1;
    }
    DotAtIs(name, n);
    if n == |name| {
      return None;
    }
    assert name[0..n] == name[..n];
    var item := FindLabel(p, key, name[..n], node, line);
    PackedValue(p, node, line);
    match item {
      case None => r := p.value;
      case Some(Leaf(v, _)) =>
        ItemIs(item.value, Lookup(node.names, name[..n]).value, line);
        r := Some(v);
      case Some(Deep(sub, _)) =>
        ItemIs(item.value, Lookup(node.names, name[..n]).value, line);
        ghost var below := Lookup(node.names, name[..n]).value.node;
        PackedValue(sub, below, line);
        r := PackedTail(sub, name[n + 1..], below, line);
        if r.None? {
          r := sub.value;
        }
    }
  }

  // ------------------------------------------------------------------- building

  /** Every element fits into a bucket, and some size within the limits lets
      all buckets fit. */
  ghost predicate Sized<V>(keys: seq<HashKey<V>>, bucket: nat, maxSize: nat)
    requires 3 * PTR <= bucket
  {
    && (forall n :: 0 <= n < |keys| ==> EltSize(|keys[n].name|) + PTR <= bucket)
    && (var room := bucket - PTR;
        exists s :: FirstSize(|keys|, room, maxSize) <= s <= maxSize && Fits(keys, s, room))
  }

  function LevelKeys<V>(names: seq<Named<V>>): (keys: seq<HashKey<()>>)
    ensures |keys| == |names| && forall i :: 0 <= i < |names| ==> KeyOf(keys[i], names[i].lab)
  {
    seq(|names|, i requires 0 <= i < |names| => HashKey(names[i].lab, HashOf(Lower(names[i].lab)), (), false))
  }

  /** No level has counters that could wrap around. */
  ghost predicate NarrowTree<V>(node: Node<V>, bucket: nat, line: nat)
  {
    && Narrow(LevelKeys(node.names), bucket, line)
    && forall i :: 0 <= i < |node.names| && node.names[i].entry.Sub? ==>
         NarrowTree(node.names[i].entry.node, bucket, line)
  }

  ghost predicate Packable<V>(node: Node<V>, bucket: nat, maxSize: nat)
    requires 3 * PTR <= bucket
  {
    && Sized(LevelKeys(node.names), bucket, maxSize)
    && forall i :: 0 <= i < |node.names| && node.names[i].entry.Sub? ==>
         Packable(node.names[i].entry.node, bucket, maxSize)
  }

  ghost predicate Namesakes<V, W>(a: seq<HashKey<V>>, b: seq<HashKey<W>>)
  {
    |a| == |b| && forall i :: 0 <= i < |a| ==>
      a[i].name == b[i].name && a[i].hash == b[i].hash && a[i].skip == b[i].skip
  }

  lemma {:induction false} BytesAlike<V, W>(a: seq<HashKey<V>>, b: seq<HashKey<W>>, size: nat, k: nat)
    requires Namesakes(a, b) && size > 0
    ensures Bytes(a, size, k) == Bytes(b, size, k)
  {
    hide EltSize;
    if a != [] { BytesAlike(a[..|a| - 1], b[..|b| - 1], size, k); }
  }

  lemma FitsAlike<V, W>(a: seq<HashKey<V>>, b: seq<HashKey<W>>, size: nat, room: nat)
    requires Namesakes(a, b) && size > 0 && Fits(a, size, room)
    ensures Fits(b, size, room)
  {
    hide Bytes;
    forall k | 0 <= k < size ensures Bytes(b, size, k) <= room { BytesAlike(a, b, size, k); }
  }

  lemma NarrowAlike<V, W>(a: seq<HashKey<V>>, b: seq<HashKey<W>>, bucket: nat, line: nat)
    requires Namesakes(a, b) && Narrow(a, bucket, line)
    ensures Narrow(b, bucket, line)
  {
    hide EltSize;
  }

  /** Whether a level can be made depends on its labels alone. */
  lemma SizedAlike<V, W>(a: seq<HashKey<V>>, b: seq<HashKey<W>>, bucket: nat, maxSize: nat)
    requires Namesakes(a, b) && 3 * PTR <= bucket && Sized(a, bucket, maxSize)
    ensures Sized(b, bucket, maxSize)
  {
    hide EltSize, Fits, FirstSize;
    var s :| FirstSize(|a|, bucket - PTR, maxSize) <= s <= maxSize && Fits(a, s, bucket - PTR);
    FitsAlike(a, b, s, bucket - PTR);
  }

  /** The tables of a nested hash, made by ngx_hash_init at the end of each
      level, or nothing exactly when one of them cannot be made. */
  method Pack<V(!new)>(node: Node<V>, bucket: nat, maxSize: nat, line: nat) returns (r: Option<Packed<V>>)
    requires CacheLine(line) && 3 * PTR <= bucket && NarrowTree(node, bucket, line)
    ensures r.Some? <==> Packable(node, bucket, maxSize)
    ensures r.Some? ==> Packs(r.value, node, line)
    decreases node
  {
    hide Built, HashOf, Sized, EltSize, FirstSize, Fits, Narrow;
    var keys: seq<HashKey<Item<V>>> := [];
    for i := 0 to |node.names|
      invariant |keys| == i
      invariant forall j :: 0 <= j < i ==>
        KeyOf(keys[j], node.names[j].lab) && ItemPacks(keys[j].value, node.names[j].entry, line)
      invariant forall j :: 0 <= j < i && node.names[j].entry.Sub? ==>
        Packable(node.names[j].entry.node, bucket, maxSize)
    {
      var named := node.names[i];
      var item;
      match named.entry {
        case Data(v, starOnly) => item := Leaf(v, starOnly);
        case Sub(sub, starOnly) =>
          var q := Pack(sub, bucket, maxSize, line);
          if q.None? {
            return None;
          }
          item := Deep(q.value, starOnly);
      }
      keys := keys + [HashKey(named.lab, HashOf(Lower(named.lab)), item, false)];
    }
    ghost var level := LevelKeys(node.names);
    NarrowAlike(level, keys, bucket, line);
    var t := HashInit(keys, bucket, maxSize, line);
    MadeIsSized(keys, bucket, maxSize, line, t);
    if !t.Done? {
      if Sized(level, bucket, maxSize) { SizedAlike(level, keys, bucket, maxSize); }
      return None;
    }
    SizedAlike(keys, level, bucket, maxSize);
    assert Level(t.table, node, line, keys);
    r := Some(Packed(t.table, node.value));
  }

  lemma MadeIsSized<V>(keys: seq<HashKey<V>>, bucket: nat, maxSize: nat, line: nat, r: InitResult<V>)
    requires CacheLine(line) && 3 * PTR <= bucket
    requires r.TooSmall? <==> exists n :: 0 <= n < |keys| && bucket < EltSize(|keys[n].name|) + PTR
    requires !r.TooSmall? ==>
      var room, end := bucket - PTR, if r.Done? then r.table.size else maxSize + 1;
      var start := FirstSize(|keys|, room, maxSize);
      && (forall s :: start <= s < end ==> !Fits(keys, s, room))
      && (r.Done? ==> start <= end <= maxSize && Fits(keys, end, room))
    ensures r.Done? <==> Sized(keys, bucket, maxSize)
  {
    hide EltSize, Fits, FirstSize;
  }

  // ----------------------------------------------------------- lower-case labels

  ghost predicate LowerKeys<V>(keys: seq<Key<V>>)
  {
    forall i, q :: 0 <= i < |keys| && 0 <= q < |keys[i].labels| ==> LowerCase(keys[i].labels[q])
  }

  ghost predicate LowerLevel<V>(names: seq<Named<V>>)
  {
    forall i :: 0 <= i < |names| ==> LowerCase(names[i].lab) && LowerEntry(names[i].entry)
  }

  lemma {:induction false} LowerNames<V>(keys: seq<Key<V>>)
    requires LowerKeys(keys)
    ensures LowerLevel(MakeNames(keys))
    decreases Weight(keys), 1, |keys|
  {
    hide MakeEntry, LowerCase, LowerEntry, Weight, GroupSize;
    if keys != [] && keys[0].labels != [] {
      var lab := keys[0].labels[0];
      var g := GroupSize(keys, lab);
      GroupLighter(keys, g);
      LowerGroup(keys[..g]);
      LowerNames(keys[g..]);
    }
  }

  lemma {:induction false} LowerGroup<V>(group: seq<Key<V>>)
    requires |group| >= 1 && (forall i :: 0 <= i < |group| ==> |group[i].labels| >= 1) && LowerKeys(group)
    ensures LowerEntry(MakeEntry(group))
    decreases Weight(group), 0, |group|
  {
    hide MakeNames, LowerCase, Weight;
    var next := Nested(group);
    if next != [] {
      GroupLighter(group, |group|);
      LowerNested(group);
      LowerNames(next);
    }
  }

  lemma LowerNested<V>(group: seq<Key<V>>)
    requires |group| >= 1 && (forall i :: 0 <= i < |group| ==> |group[i].labels| >= 1) && LowerKeys(group)
    ensures LowerKeys(Nested(group))
  {
    hide LowerCase;
    var next, d := Nested(group), if Ends(group[0].labels) then 1 else 0;
    forall i, q | 0 <= i < |next| && 0 <= q < |next[i].labels| ensures LowerCase(next[i].labels[q]) {
      assert next[i].labels[q] == group[i + d].labels[q + 1];
    }
  }

  lemma {:induction false} SplitLower(key: string)
    requires Written(key)
    ensures forall q :: 0 <= q < |Split(key)| ==> LowerCase(Split(key)[q])
    decreases |key|
  {
    hide Split, DotAt;
    var n := DotAt(key);
    SplitOnce(key);
    WrittenLower(key[..n]);
    if n < |key| { SplitLower(key[n + 1..]); }
  }

  lemma WrittenLower(s: string)
    requires Written(s)
    ensures LowerCase(s)
  {
  }

  lemma WrittenTree<V>(names: seq<Name<V>>)
    requires forall i :: 0 <= i < |names| ==> Written(names[i].key)
    ensures LowerTree(Build(LabelKeys(names)))
  {
    hide Written, Split, LowerCase, LowerEntry, MakeNames;
    forall i | 0 <= i < |names|
      ensures forall q :: 0 <= q < |Split(names[i].key)| ==> LowerCase(Split(names[i].key)[q])
    {
      SplitLower(names[i].key);
    }
    LowerNames(LabelKeys(names));
  }

  // -------------------------------------------------------------- all together

  /** Wildcards sorted, built into nested hashes and packed into tables, with
      the same first labels together: the walk through the tables finds the
      longest one that matches the name, and nothing exactly when none does. */
  method HeadInTables<V(!new)>(p: Packed<V>, name: string, ghost names: seq<Name<V>>, ghost pats: seq<Pat<V>>,
                              ghost line: nat) returns (r: Option<V>)
    requires Converted(names, pats) && Sorted(names) && Adjacent(LabelKeys(names))
    requires Packs(p, Build(LabelKeys(names)), line)
    ensures IsLongest(pats, name, r)
  {
    hide Packs, Build, Sorted, Adjacent, IsLongest, FindHead, LowerTree, Written, IsKeyOf;
    SortedLookup(names, pats, name);
    WrittenTree(names);
    r := PackedHead(p, name, Build(LabelKeys(names)), line);
  }

  /** The same for wildcards with the star at the end. */
  method TailInTables<V(!new)>(p: Packed<V>, name: string, ghost tails: seq<Name<V>>, ghost line: nat)
    returns (r: Option<V>)
    requires Added(tails) && Sorted(tails) && Adjacent(LabelKeys(tails))
    requires Packs(p, Build(LabelKeys(tails)), line)
    ensures IsLongestTail(tails, name, r)
  {
    hide Packs, Build, Sorted, Adjacent, IsLongestTail, FindTail, LowerTree, Written, ValidTail;
    TailLookup(tails, name);
    WrittenTree(tails);
    r := PackedTail(p, name, Build(LabelKeys(tails)), line);
  }

  /** ngx_hash_wildcard_init with the tables it makes. */
  method BuildTables<V(!new)>(names: seq<Name<V>>, bucket: nat, maxSize: nat, line: nat) returns (r: Option<Packed<V>>)
    requires Graded(LabelKeys(names)) && CacheLine(line) && 3 * PTR <= bucket
    requires NarrowTree(Build(LabelKeys(names)), bucket, line)
    ensures r.Some? <==> Packable(Build(LabelKeys(names)), bucket, maxSize)
    ensures r.Some? ==> Packs(r.value, Build(LabelKeys(names)), line)
  {
    hide Packs, Graded, Build, Packable, NarrowTree;
    var node := WildcardInit(names);
    r := Pack(node, bucket, maxSize, line);
  }
}
