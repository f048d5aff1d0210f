/** The nested wildcard hash for names such as "*.example.com" and
    ".example.com". Names are kept as their labels from the right, so that
    "*.example.com" becomes com, example and an empty last label, and
    ".example.com" becomes com, example. */
module NgxWildcard {
  import opened Options

  type Labels = seq<string>

  datatype Key<V> = Key(labels: Labels, value: V)

  /** An entry's value with its two tag bits: data or nested hash, and whether
      it stands for "*.x" only or for both "x" and "*.x". */
  datatype Entry<V> = Data(value: V, starOnly: bool) | Sub(node: Node<V>, starOnly: bool)

  datatype Named<V> = Named(lab: string, entry: Entry<V>)

  datatype Node<V> = Node(names: seq<Named<V>>, value: Option<V>)

  // ------------------------------------------------------- what should match

  predicate Star(k: Labels) { |k| >= 2 && k[|k| - 1] == "" }

  /** The labels that a name must begin with, counted from the right. */
  function Pattern(k: Labels): (p: Labels) { if Star(k) then k[..|k| - 1] else k }

  predicate ValidLabels(k: Labels) { |k| >= 1 && k != [""] }

  /** A star pattern needs a further label, a dot pattern does not. */
  predicate Matches(k: Labels, name: Labels)
  {
    Pattern(k) <= name && (Star(k) ==> |Pattern(k)| < |name|)
  }

  /** r is the value of the longest matching key, or None if no key matches. */
  ghost predicate IsBest<V>(keys: seq<Key<V>>, name: Labels, r: Option<V>)
  {
    match r
    case None => forall i :: 0 <= i < |keys| ==> !Matches(keys[i].labels, name)
    case Some(v) => exists i :: 0 <= i < |keys| && Wins(keys, name, i) && keys[i].value == v
  }

  ghost predicate Wins<V>(keys: seq<Key<V>>, name: Labels, i: nat)
    requires i < |keys|
  {
    && Matches(keys[i].labels, name)
    && (forall j :: 0 <= j < |keys| && Matches(keys[j].labels, name) ==>
          |Pattern(keys[j].labels)| <= |Pattern(keys[i].labels)|)
  }

  // ------------------------------------------------------------------ lookup

  function Lookup<V>(names: seq<Named<V>>, lab: string): (r: Option<Entry<V>>)
  {
    if names == [] then None
    else if names[0].lab == lab then Some(names[0].entry)
    else Lookup(names[1..], lab)
  }

  /** ngx_hash_find_wc_head on a name's labels from the right. */
  function Find<V>(node: Node<V>, name: Labels): (r: Option<V>)
    requires |name| >= 1
    decreases |name|
  {
    match Lookup(node.names, name[0])
    case None => node.value
    case Some(Data(v, starOnly)) => if starOnly && |name| == 1 then None else Some(v)
    case Some(Sub(sub, starOnly)) =>
      if |name| == 1 then (if starOnly then None else sub.value)
      else
        var r := Find(sub, name[1..]);
        if r.Some? then r else sub.value
  }

  // ---------------------------------------------------------------- building

  /** A pattern comes before its extensions, and no pattern occurs twice. */
  ghost predicate Graded<V>(keys: seq<Key<V>>)
  {
    && (forall i :: 0 <= i < |keys| ==> ValidLabels(keys[i].labels))
    && (forall i, j :: 0 <= i < j < |keys| ==> !(Pattern(keys[j].labels) <= Pattern(keys[i].labels)))
  }

  /** Patterns that share their first labels are adjacent. */
  ghost predicate Adjacent<V>(keys: seq<Key<V>>)
  {
    forall i, j, k, p :: 0 <= i < j < k < |keys| && Alike(keys[i], keys[k], p) ==> Alike(keys[i], keys[j], p)
  }

  predicate Alike<V>(a: Key<V>, b: Key<V>, p: nat) { Shares(Pattern(a.labels), Pattern(b.labels), p) }

  /** Keys arrive sorted. */
  ghost predicate Ordered<V>(keys: seq<Key<V>>) { Graded(keys) && Adjacent(keys) }

  /** The first p labels are the same. */
  predicate Shares(a: Labels, b: Labels, p: nat) { p <= |a| && p <= |b| && a[..p] == b[..p] }

  /** How many keys, from the front, have the given first label. */
  function GroupSize<V>(keys: seq<Key<V>>, lab: string): (n: nat)
    ensures n <= |keys|
    ensures forall i :: 0 <= i < n ==> |keys[i].labels| >= 1 && keys[i].labels[0] == lab
    ensures n < |keys| ==> keys[n].labels == [] || keys[n].labels[0] != lab
  {
    if keys == [] || keys[0].labels == [] || keys[0].labels[0] != lab then 0
    else 1 + GroupSize(keys[1..], lab)
  }

  /** The keys without their first label. */
  function Tails<V>(keys: seq<Key<V>>): (r: seq<Key<V>>)
    requires forall i :: 0 <= i < |keys| ==> |keys[i].labels| >= 1
    ensures |r| == |keys|
    ensures forall i :: 0 <= i < |keys| ==> r[i] == Key(keys[i].labels[1..], keys[i].value)
  {
    seq(|keys|, i requires 0 <= i < |keys| => Key(keys[i].labels[1..], keys[i].value))
  }

  /** The key is just its first label, with or without the star. */
  predicate Ends(k: Labels) { |k| == 1 || (|k| == 2 && k[1] == "") }

  function Weight<V>(keys: seq<Key<V>>): (n: nat)
  {
    if keys == [] then 0 else |keys[0].labels| + Weight(keys[1..])
  }

  /** The members of a group that go into the nested hash. */
  function Nested<V>(group: seq<Key<V>>): (r: seq<Key<V>>)
    requires |group| >= 1 && forall i :: 0 <= i < |group| ==> |group[i].labels| >= 1
  {
    if Ends(group[0].labels) then Tails(group[1..]) else Tails(group)
  }

  lemma {:induction false} WeightSplit<V>(a: seq<Key<V>>, b: seq<Key<V>>)
    ensures Weight(a + b) == Weight(a) + Weight(b)
  {
    if a == [] {
      assert a + b == b;
    } else {
      assert (a + b)[1..] == a[1..] + b;
      WeightSplit(a[1..], b);
    }
  }

  lemma {:induction false} WeightTails<V>(keys: seq<Key<V>>)
    requires forall i :: 0 <= i < |keys| ==> |keys[i].labels| >= 1
    ensures Weight(Tails(keys)) == Weight(keys) - |keys|
  {
    if keys != [] {
      WeightTails(keys[1..]);
      assert Tails(keys)[1..] == Tails(keys[1..]);
    }
  }

  lemma NestedLighter<V>(keys: seq<Key<V>>, g: nat)
    requires 1 <= g <= |keys| && forall i :: 0 <= i < g ==> |keys[i].labels| >= 1
    ensures Nested(keys[..g]) != [] ==> Weight(Nested(keys[..g])) < Weight(keys)
    ensures Weight(keys[g..]) <= Weight(keys)
  {
    var group := keys[..g];
    assert group + keys[g..] == keys;
    WeightSplit(group, keys[g..]);
    WeightTails(group);
    WeightTails(group[1..]);
  }

  lemma GroupLighter<V>(keys: seq<Key<V>>, g: nat)
    requires 1 <= g <= |keys| && forall i :: 0 <= i < g ==> |keys[i].labels| >= 1
    ensures Weight(keys[g..]) <= Weight(keys) && Weight(keys[..g]) <= Weight(keys)
    ensures g == |keys| && Nested(keys) != [] ==> Weight(Nested(keys)) < Weight(keys)
  {
    hide Weight, Nested;
    NestedLighter(keys, g);
    assert keys[..g] + keys[g..] == keys;
    WeightSplit(keys[..g], keys[g..]);
    if g == |keys| { assert keys[..g] == keys; }
  }

  function MakeEntry<V>(group: seq<Key<V>>): (e: Entry<V>)
    requires |group| >= 1 && forall i :: 0 <= i < |group| ==> |group[i].labels| >= 1
    decreases Weight(group), 0, |group|
  {
    var first := group[0];
    var dot := |first.labels| > 1;
    var next := Nested(group);
    if next == [] then Data(first.value, dot)
    else
      GroupLighter(group, |group|);
      Sub(Node(MakeNames(next), if Ends(first.labels) then Some(first.value) else None), dot)
  }

  /** The entries of one level, one for each group of keys. */
  function MakeNames<V>(keys: seq<Key<V>>): (r: seq<Named<V>>)
    decreases Weight(keys), 1, |keys|
  {
    if keys == [] || keys[0].labels == [] then []
    else
      var lab := keys[0].labels[0];
      var g := GroupSize(keys, lab);
      GroupLighter(keys, g);
      [Named(lab, MakeEntry(keys[..g]))] + MakeNames(keys[g..])
  }

  /** ngx_hash_wildcard_init. */
  function Build<V>(keys: seq<Key<V>>): (node: Node<V>) { Node(MakeNames(keys), None) }

  // ------------------------------------------------------------- correctness

  lemma GradedPart<V>(keys: seq<Key<V>>, s: nat, e: nat)
    requires Graded(keys) && s <= e <= |keys|
    ensures Graded(keys[s..e])
  {
    var part := keys[s..e];
    assert forall i :: 0 <= i < |part| ==> part[i] == keys[s + i];
  }

  lemma OrderedPart<V>(keys: seq<Key<V>>, s: nat, e: nat)
    requires Ordered(keys) && s <= e <= |keys|
    ensures Ordered(keys[s..e])
  {
    hide Graded;
    GradedPart(keys, s, e);
    var part := keys[s..e];
    assert forall i :: 0 <= i < |part| ==> part[i] == keys[s + i];
    forall i, j, k, p | 0 <= i < j < k < |part| && Alike(part[i], part[k], p) ensures Alike(part[i], part[j], p) {
      assert Alike(keys[s + i], keys[s + k], p);
    }
  }

  lemma Contiguous<V>(keys: seq<Key<V>>, i: nat, j: nat, k: nat)
    requires Ordered(keys) && i < j < k < |keys| && keys[i].labels[0] == keys[k].labels[0]
    ensures keys[j].labels[0] == keys[i].labels[0]
  {
    AlikeOnce(keys[i], keys[k]);
    AlikeOnce(keys[i], keys[j]);
    assert Alike(keys[i], keys[j], 1);
  }

  lemma AlikeOnce<V>(a: Key<V>, b: Key<V>)
    requires ValidLabels(a.labels) && ValidLabels(b.labels)
    ensures Alike(a, b, 1) <==> a.labels[0] == b.labels[0]
  {
    hide Pattern;
    PatternHead(a.labels);
    PatternHead(b.labels);
    var x, y := Pattern(a.labels), Pattern(b.labels);
    assert x[..1] == [x[0]] && y[..1] == [y[0]];
  }

  lemma HaveLabels<V>(keys: seq<Key<V>>)
    requires Graded(keys)
    ensures forall i :: 0 <= i < |keys| ==> |keys[i].labels| >= 1
  {
  }

  lemma FirstRun<V>(keys: seq<Key<V>>) returns (l: string, g: nat)
    requires Graded(keys) && keys != []
    ensures |keys[0].labels| >= 1 && l == keys[0].labels[0] && 1 <= g == GroupSize(keys, l) <= |keys|
    ensures forall k :: 0 <= k < |keys| ==> |keys[k].labels| >= 1
    ensures forall k :: 0 <= k < g ==> keys[k].labels[0] == l
    ensures g < |keys| ==> keys[g].labels[0] != l
    ensures MakeNames(keys) == [Named(l, MakeEntry(keys[..g]))] + MakeNames(keys[g..])
  {
    hide Graded, MakeEntry;
    HaveLabels(keys);
    l := keys[0].labels[0];
    g := GroupSize(keys, l);
  }

  lemma LookupNone<V>(lab: string)
    ensures Lookup(MakeNames<V>([]), lab) == None
  {
  }

  lemma LookupCons<V>(first: Named<V>, rest: seq<Named<V>>, lab: string)
    ensures Lookup([first] + rest, lab) == if first.lab == lab then Some(first.entry) else Lookup(rest, lab)
  {
    assert ([first] + rest)[1..] == rest;
  }

  /** Keys s to e are the first that begin with the label, and those that
      follow without a break. */
  ghost predicate FirstWith<V>(keys: seq<Key<V>>, lab: string, s: nat, e: nat)
    requires forall i :: 0 <= i < |keys| ==> |keys[i].labels| >= 1
  {
    && s <= e <= |keys| && (s == e ==> s == |keys|)
    && (forall i :: 0 <= i < s ==> keys[i].labels[0] != lab)
    && (forall i :: s <= i < e ==> keys[i].labels[0] == lab)
    && (e < |keys| ==> keys[e].labels[0] != lab)
  }

  /** A label finds the entry made from the first run of keys that begin with it. */
  lemma {:induction false} LookupRun<V>(keys: seq<Key<V>>, lab: string) returns (s: nat, e: nat)
    requires Graded(keys)
    ensures forall i :: 0 <= i < |keys| ==> |keys[i].labels| >= 1
    ensures FirstWith(keys, lab, s, e)
    ensures Lookup(MakeNames(keys), lab) == if s == e then None else Some(MakeEntry(keys[s..e]))
    decreases |keys|
  {
    hide Graded, MakeEntry, MakeNames, GroupSize, Lookup;
    HaveLabels(keys);
    if keys == [] {
      LookupNone<V>(lab);
      return 0, 0;
    }
    var l, g := FirstRun(keys);
    LookupCons(Named(l, MakeEntry(keys[..g])), MakeNames(keys[g..]), lab);
    if l == lab {
      assert keys[0..g] == keys[..g];
      return 0, g;
    }
    GradedPart(keys, g, |keys|);
    assert keys[g..|keys|] == keys[g..];
    var s', e' := LookupRun(keys[g..], lab);
    s, e := g + s', g + e';
    assert keys[g..][s'..e'] == keys[s..e];
    RunShift(keys, g, lab, s', e');
  }

  lemma RunShift<V>(keys: seq<Key<V>>, g: nat, lab: string, s: nat, e: nat)
    requires g <= |keys| && forall i :: 0 <= i < |keys| ==> |keys[i].labels| >= 1
    requires forall i :: 0 <= i < g ==> keys[i].labels[0] != lab
    requires FirstWith(keys[g..], lab, s, e)
    ensures FirstWith(keys, lab, g + s, g + e)
  {
    forall i | g <= i < |keys| ensures keys[i] == keys[g..][i - g] { }
  }

  /** Where keys are ordered, those are all the keys that begin with the label. */
  lemma LookupNames<V>(keys: seq<Key<V>>, lab: string) returns (s: nat, e: nat)
    requires Ordered(keys)
    ensures s <= e <= |keys| && forall i :: 0 <= i < |keys| ==> (s <= i < e <==> keys[i].labels[0] == lab)
    ensures Lookup(MakeNames(keys), lab) == if s == e then None else Some(MakeEntry(keys[s..e]))
  {
    hide MakeEntry, MakeNames, Lookup, Graded, Adjacent;
    s, e := LookupRun(keys, lab);
    forall i | e < i < |keys| && s < e ensures keys[i].labels[0] != lab {
      if keys[i].labels[0] == lab { Contiguous(keys, s, e, i); }
    }
  }

  lemma PatternHead(k: Labels)
    requires ValidLabels(k)
    ensures |Pattern(k)| >= 1 && Pattern(k)[0] == k[0]
  {
  }

  lemma MatchesHead(k: Labels, name: Labels)
    requires ValidLabels(k) && |name| >= 1 && k[0] != name[0]
    ensures !Matches(k, name)
  {
    PatternHead(k);
  }

  /** Matching goes label by label. */
  lemma MatchesTail(k: Labels, name: Labels)
    requires ValidLabels(k) && !Ends(k) && |name| >= 1 && k[0] == name[0]
    ensures ValidLabels(k[1..]) && Pattern(k) == [k[0]] + Pattern(k[1..])
    ensures Matches(k, name) <==> Matches(k[1..], name[1..])
  {
    assert Star(k) <==> Star(k[1..]);
    var p, q := Pattern(k), Pattern(k[1..]);
    assert p == [k[0]] + q;
    assert name == [name[0]] + name[1..];
    assert p <= name <==> q <= name[1..] by {
      if q <= name[1..] { assert name[1..] == q + name[1..][|q|..]; assert name == p + name[|p|..]; }
      if p <= name { assert q == p[1..]; }
    }
  }

  lemma EndsPattern(k: Labels)
    ensures Ends(k) ==> Pattern(k) == [k[0]]
  {
  }

  lemma EndsFirst<V>(group: seq<Key<V>>, i: nat)
    requires Graded(group) && 0 < i < |group| && group[i].labels[0] == group[0].labels[0]
    ensures !Ends(group[i].labels)
  {
    PatternHead(group[0].labels);
    EndsPattern(group[i].labels);
    assert [group[0].labels[0]] <= Pattern(group[0].labels);
  }

  ghost predicate OneGroup<V>(group: seq<Key<V>>, lab: string)
  {
    |group| >= 1 && Graded(group) && forall i :: 0 <= i < |group| ==> group[i].labels[0] == lab
  }

  /** Which member of the group the i-th nested key comes from. */
  function Origin<V>(group: seq<Key<V>>, i: nat): (j: nat)
    requires |group| >= 1
  {
    if Ends(group[0].labels) then i + 1 else i
  }

  lemma NestedAt<V>(group: seq<Key<V>>, lab: string)
    requires OneGroup(group, lab)
    ensures |Nested(group)| == if Ends(group[0].labels) then |group| - 1 else |group|
    ensures forall i :: 0 <= i < |Nested(group)| ==>
      var j := Origin(group, i);
      && Nested(group)[i] == Key(group[j].labels[1..], group[j].value)
      && !Ends(group[j].labels)
  {
    forall j | 0 < j < |group| ensures !Ends(group[j].labels) { EndsFirst(group, j); }
  }

  lemma GradedNested<V>(group: seq<Key<V>>, lab: string)
    requires OneGroup(group, lab)
    ensures Graded(Nested(group))
  {
    hide Nested, Pattern, Matches, Ends, Star;
    var next := Nested(group);
    NestedAt(group, lab);
    forall i | 0 <= i < |next|
      ensures ValidLabels(next[i].labels)
      ensures Pattern(group[Origin(group, i)].labels) == [lab] + Pattern(next[i].labels)
    {
      MatchesTail(group[Origin(group, i)].labels, [lab]);
    }
    forall i, j | 0 <= i < j < |next| ensures !(Pattern(next[j].labels) <= Pattern(next[i].labels)) {
      PrefixTail(lab, Pattern(next[j].labels), Pattern(next[i].labels));
    }
  }

  /** Nested keys are alike as the keys they come from. */
  lemma NestedAlike<V>(group: seq<Key<V>>, lab: string, i: nat, j: nat, p: nat)
    requires OneGroup(group, lab) && i < |Nested(group)| && j < |Nested(group)|
    ensures Origin(group, i) < |group| && Origin(group, j) < |group|
    ensures Alike(Nested(group)[i], Nested(group)[j], p) <==>
            Alike(group[Origin(group, i)], group[Origin(group, j)], p + 1)
  {
    hide Nested, Pattern, Matches, Ends, Star, Graded;
    HaveLabels(group);
    NestedAt(group, lab);
    var a, b := Nested(group)[i], Nested(group)[j];
    var c, d := group[Origin(group, i)], group[Origin(group, j)];
    ValidAt(group, Origin(group, i));
    ValidAt(group, Origin(group, j));
    MatchesTail(c.labels, [lab]);
    MatchesTail(d.labels, [lab]);
    SharesTail(Pattern(c.labels), Pattern(d.labels), p);
    assert Pattern(c.labels)[1..] == Pattern(a.labels) && Pattern(d.labels)[1..] == Pattern(b.labels);
  }

  lemma ValidAt<V>(keys: seq<Key<V>>, i: nat)
    requires Graded(keys) && i < |keys|
    ensures ValidLabels(keys[i].labels)
  {
  }

  lemma OrderedNested<V>(group: seq<Key<V>>, lab: string)
    requires OneGroup(group, lab) && Ordered(group)
    ensures Ordered(Nested(group))
  {
    hide Nested, Pattern, Matches, Shares, Ends, Star, Graded, Alike;
    HaveLabels(group);
    GradedNested(group, lab);
    var next := Nested(group);
    forall i, j, k, p | 0 <= i < j < k < |next| && Alike(next[i], next[k], p) ensures Alike(next[i], next[j], p) {
      NestedAlike(group, lab, i, k, p);
      NestedAlike(group, lab, i, j, p);
    }
  }

  lemma PrefixTail(lab: string, b: Labels, a: Labels)
    ensures b <= a ==> [lab] + b <= [lab] + a
  {
  }

  lemma SharesTail(a: Labels, b: Labels, p: nat)
    requires |a| >= 1 && |b| >= 1 && a[0] == b[0]
    ensures Shares(a[1..], b[1..], p) <==> Shares(a, b, p + 1)
  {
    if p + 1 <= |a| && p + 1 <= |b| {
      assert a[..p + 1] == [a[0]] + a[1..][..p];
      assert b[..p + 1] == [b[0]] + b[1..][..p];
      assert a[..p + 1] == b[..p + 1] ==> a[..p + 1][1..] == b[..p + 1][1..];
    }
  }

  lemma FindFallback<V>(names: seq<Named<V>>, v: Option<V>, name: Labels)
    requires |name| >= 1
    ensures Find(Node(names, v), name) == if Lookup(names, name[0]).None? then v else Find(Node(names, None), name)
  {
  }

  ghost function FindEntry<V>(e: Entry<V>, name: Labels): Option<V>
    requires |name| >= 1
  {
    Find(Node([Named(name[0], e)], None), name)
  }

  lemma FindByEntry<V>(node: Node<V>, name: Labels)
    requires |name| >= 1 && Lookup(node.names, name[0]).Some?
    ensures Find(node, name) == FindEntry(Lookup(node.names, name[0]).value, name)
  {
  }

  /** A group with a nested hash finds what the nested hash finds, or else
      falls back to the group's own first key. */
  lemma EntryNested<V>(group: seq<Key<V>>, name: Labels, r: Option<V>)
    requires |name| > 1 && OneGroup(group, name[0]) && Nested(group) != []
    requires r == Find(Build(Nested(group)), name[1..])
    ensures FindEntry(MakeEntry(group), name) ==
            if r.Some? then r else if Ends(group[0].labels) then Some(group[0].value) else None
  {
    hide Graded;
    HaveLabels(group);
    var v := if Ends(group[0].labels) then Some(group[0].value) else None;
    FindFallback(MakeNames(Nested(group)), v, name[1..]);
    hide Nested, MakeNames;
  }

  /** Nested keys match, and compare in length, as the keys they come from. */
  lemma NestedMatches<V>(group: seq<Key<V>>, name: Labels, i: nat)
    requires |name| > 1 && OneGroup(group, name[0]) && i < |Nested(group)|
    ensures Origin(group, i) < |group| && Nested(group)[i].value == group[Origin(group, i)].value
    ensures Matches(group[Origin(group, i)].labels, name) <==> Matches(Nested(group)[i].labels, name[1..])
    ensures |Pattern(group[Origin(group, i)].labels)| == 1 + |Pattern(Nested(group)[i].labels)|
  {
    NestedAt(group, name[0]);
    MatchesTail(group[Origin(group, i)].labels, name);
  }

  /** Every key but a leading label on its own went into the nested hash. */
  lemma NestedFrom<V>(group: seq<Key<V>>, lab: string, j: nat) returns (i: nat)
    requires OneGroup(group, lab) && j < |group| && (j > 0 || !Ends(group[0].labels))
    ensures i < |Nested(group)| && Origin(group, i) == j
  {
    NestedAt(group, lab);
    i := if Ends(group[0].labels) then j - 1 else j;
  }

  /** The winner of the nested keys, seen from the group. */
  lemma GroupBest<V>(group: seq<Key<V>>, name: Labels, r: Option<V>)
    requires |name| > 1 && OneGroup(group, name[0]) && Nested(group) != []
    requires IsBest(Nested(group), name[1..], r)
    ensures IsBest(group, name, if r.Some? then r
                                else if Ends(group[0].labels) then Some(group[0].value) else None)
  {
    hide Nested, Graded, Matches, Pattern, Ends;
    HaveLabels(group);
    var next, first := Nested(group), group[0].labels;
    GroupMatches(group, name);
    if r.Some? {
      var i :| 0 <= i < |next| && Wins(next, name[1..], i) && next[i].value == r.value;
      NestedMatches(group, name, i);
      forall j | 0 <= j < |group| && Matches(group[j].labels, name)
        ensures |Pattern(group[j].labels)| <= |Pattern(group[Origin(group, i)].labels)|
      {
        if j > 0 || !Ends(first) {
          var i' := NestedFrom(group, name[0], j);
          NestedMatches(group, name, i');
        }
      }
      assert Wins(group, name, Origin(group, i));
    } else {
      forall j | 0 <= j < |group| && (j > 0 || !Ends(first)) ensures !Matches(group[j].labels, name) {
        var i' := NestedFrom(group, name[0], j);
        NestedMatches(group, name, i');
      }
      if Ends(first) { assert Wins(group, name, 0); }
    }
  }

  lemma GroupMatches<V>(group: seq<Key<V>>, name: Labels)
    requires |name| >= 1 && OneGroup(group, name[0])
    ensures Ends(group[0].labels) ==> |Pattern(group[0].labels)| == 1
    ensures Ends(group[0].labels) ==> (Matches(group[0].labels, name) <==> |group[0].labels| == 1 || |name| > 1)
  {
    var k := group[0].labels;
    assert Ends(k) ==> Pattern(k) == [name[0]];
    assert [name[0]] <= name;
  }

  /** A name of one label. */
  lemma EntryShort<V>(group: seq<Key<V>>, name: Labels)
    requires |name| == 1 && OneGroup(group, name[0])
    ensures IsBest(group, name, FindEntry(MakeEntry(group), name))
  {
    GroupMatches(group, name);
    var first := group[0].labels;
    forall i | 0 <= i < |group| && !Ends(group[i].labels) ensures !Matches(group[i].labels, name) {
      MatchesTail(group[i].labels, name);
    }
    forall i | 0 < i < |group| ensures !Ends(group[i].labels) { EndsFirst(group, i); }
    hide Graded, MakeNames, Nested;
    if |first| == 1 { assert Wins(group, name, 0); }
  }

  /** A group whose only key is its label. */
  lemma EntryAlone<V>(group: seq<Key<V>>, name: Labels)
    requires |name| > 1 && OneGroup(group, name[0]) && Nested(group) == []
    ensures IsBest(group, name, FindEntry(MakeEntry(group), name))
  {
    NestedAt(group, name[0]);
    GroupMatches(group, name);
    assert Wins(group, name, 0);
  }

  lemma {:induction false} EntryBest<V>(group: seq<Key<V>>, name: Labels)
    requires |name| >= 1 && OneGroup(group, name[0]) && Ordered(group)
    ensures IsBest(group, name, FindEntry(MakeEntry(group), name))
    decreases |name|, 0
  {
    hide IsBest, Graded, Adjacent, FindEntry, MakeEntry, MakeNames;
    HaveLabels(group);
    if |name| == 1 {
      EntryShort(group, name);
    } else if Nested(group) == [] {
      EntryAlone(group, name);
    } else {
      var r := Find(Build(Nested(group)), name[1..]);
      OrderedNested(group, name[0]);
      FindBest(Nested(group), name[1..]);
      EntryNested(group, name, r);
      GroupBest(group, name, r);
    }
  }

  /** Head lookup returns the value of the longest wildcard that matches the
      name, and nothing exactly when none matches. */
  lemma {:induction false} FindBest<V>(keys: seq<Key<V>>, name: Labels)
    requires Ordered(keys) && |name| >= 1
    ensures IsBest(keys, name, Find(Build(keys), name))
    decreases |name|, 1
  {
    var s, e := LookupNames(keys, name[0]);
    forall i | 0 <= i < |keys| && !(s <= i < e) ensures !Matches(keys[i].labels, name) {
      MatchesHead(keys[i].labels, name);
    }
    if s < e {
      OrderedPart(keys, s, e);
      assert OneGroup(keys[s..e], name[0]);
      FindByEntry(Build(keys), name);
      EntryBest(keys[s..e], name);
      BestPart(keys, name, s, e, Find(Build(keys), name));
    }
  }

  lemma BestPart<V>(keys: seq<Key<V>>, name: Labels, s: nat, e: nat, r: Option<V>)
    requires s <= e <= |keys| && IsBest(keys[s..e], name, r)
    requires forall i :: 0 <= i < |keys| && !(s <= i < e) ==> !Matches(keys[i].labels, name)
    ensures IsBest(keys, name, r)
  {
    var part := keys[s..e];
    if r.Some? {
      var i :| 0 <= i < |part| && Wins(part, name, i) && part[i].value == r.value;
      assert Wins(keys, name, s + i) by {
        forall j | 0 <= j < |keys| && Matches(keys[j].labels, name)
          ensures |Pattern(keys[j].labels)| <= |Pattern(keys[s + i].labels)|
        {
          assert keys[j] == part[j - s];
        }
      }
    } else {
      forall j | 0 <= j < |keys| ensures !Matches(keys[j].labels, name) {
        if s <= j < e { assert keys[j] == part[j - s]; }
      }
    }
  }
}
