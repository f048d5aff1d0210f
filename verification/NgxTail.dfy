/** Wildcards with the star at the end, such as "www.example.*": they are kept
    as "www.example", and a name is looked up from its first label on. */
module NgxTail {
  import opened Options
  import opened NgxWildcard
  import opened NgxNames
  import opened NgxDns

  // ------------------------------------------------------------------ lookup

  /** ngx_hash_find_wc_tail. */
  function FindTail<V>(node: Node<V>, name: string): (r: Option<V>)
    decreases |name|
  {
    var n := DotAt(name);
    if n == |name| then None
    else
      match Lookup(node.names, name[..n])
      case None => node.value
      case Some(Data(v, _)) => Some(v)
      case Some(Sub(sub, _)) =>
        var r := FindTail(sub, name[n + 1..]);
        if r.Some? then r else sub.value
  }

  /** The same search on a name's labels. */
  ghost function TailOf<V>(node: Node<V>, name: Labels): (r: Option<V>)
    requires |name| >= 1
    decreases |name|
  {
    if |name| == 1 then None
    else
      match Lookup(node.names, name[0])
      case None => node.value
      case Some(Data(v, _)) => Some(v)
      case Some(Sub(sub, _)) =>
        var r := TailOf(sub, name[1..]);
        if r.Some? then r else sub.value
  }

  lemma {:induction false} FindTailLabels<V>(node: Node<V>, name: string)
    ensures FindTail(node, name) == TailOf(node, Split(name))
    decreases |name|
  {
    hide Split, DotAt, Lookup;
    var n := DotAt(name);
    SplitStep(name);
    if n < |name| {
      assert |name[n + 1..]| < |name|;
      match Lookup(node.names, name[..n]) {
        case Some(Sub(sub, _)) => FindTailLabels(sub, name[n + 1..]);
        case _ =>
      }
    }
  }

  // -------------------------------------------- tail lookup from head lookup

  function Front(name: Labels): (r: Labels)
    requires |name| >= 2
    ensures |r| == |name| - 1
  {
    name[..|name| - 1]
  }

  ghost predicate NoStars<V>(keys: seq<Key<V>>)
  {
    forall i :: 0 <= i < |keys| ==> !Star(keys[i].labels)
  }

  /** Without star keys, tail lookup is head lookup of all labels but the last. */
  lemma {:induction false} TailIsHead<V>(keys: seq<Key<V>>, name: Labels)
    requires Graded(keys) && NoStars(keys) && |name| >= 2
    ensures TailOf(Build(keys), name) == Find(Build(keys), Front(name))
    decreases |name|
  {
    hide Graded, Find, TailOf, Star, Nested, MakeNames, MakeEntry, Lookup;
    var s, e := LookupRun(keys, name[0]);
    if s < e {
      var group := keys[s..e];
      GradedPart(keys, s, e);
      assert OneGroup(group, name[0]);
      HaveLabels(group);
      var next := Nested(group);
      GradedNested(group, name[0]);
      NestedStars(group, name[0]);
      if next != [] && |name| > 2 {
        TailIsHead(next, name[1..]);
      }
      GroupSame(keys, name, group);
    } else {
      NoGroup(keys, name);
    }
  }

  lemma NoGroup<V>(keys: seq<Key<V>>, name: Labels)
    requires |name| >= 2 && Lookup(MakeNames(keys), name[0]).None?
    ensures TailOf(Build(keys), name) == Find(Build(keys), Front(name))
  {
    hide MakeNames;
  }

  lemma NestedStars<V>(group: seq<Key<V>>, lab: string)
    requires OneGroup(group, lab) && NoStars(group)
    ensures NoStars(Nested(group))
    ensures Ends(group[0].labels) <==> |group[0].labels| == 1
  {
    hide Nested;
    NestedAt(group, lab);
  }

  lemma GroupSame<V>(keys: seq<Key<V>>, name: Labels, group: seq<Key<V>>)
    requires |name| >= 2 && OneGroup(group, name[0]) && NoStars(group)
    requires Lookup(MakeNames(keys), name[0]) == Some(MakeEntry(group))
    requires Nested(group) != [] && |name| > 2 ==>
      TailOf(Build(Nested(group)), name[1..]) == Find(Build(Nested(group)), Front(name[1..]))
    ensures TailOf(Build(keys), name) == Find(Build(keys), Front(name))
  {
    hide Graded, MakeNames, Nested;
    HaveLabels(group);
    NestedStars(group, name[0]);
    var next := Nested(group);
    if next == [] {
      NestedAt(group, name[0]);
    } else if |name| > 2 {
      var v := if Ends(group[0].labels) then Some(group[0].value) else None;
      assert Front(name)[1..] == Front(name[1..]);
      FindFallback(MakeNames(next), v, Front(name[1..]));
      TailFallback(MakeNames(next), v, name[1..]);
    }
  }

  lemma TailFallback<V>(names: seq<Named<V>>, v: Option<V>, name: Labels)
    requires |name| >= 2
    ensures TailOf(Node(names, v), name) == if Lookup(names, name[0]).None? then v else TailOf(Node(names, None), name)
  {
  }

  // ------------------------------------------------- matching, seen as strings

  /** "x.*" matches the names that go on behind x with a dot. */
  predicate TailMatches(x: string, name: string) { x + "." <= name }

  ghost predicate IsLongestTail<V>(tails: seq<Name<V>>, name: string, r: Option<V>)
  {
    match r
    case None => forall i :: 0 <= i < |tails| ==> !TailMatches(tails[i].key, name)
    case Some(v) =>
      exists i :: 0 <= i < |tails| && tails[i].value == v && TailMatches(tails[i].key, name) &&
        forall j :: 0 <= j < |tails| && TailMatches(tails[j].key, name) ==> |tails[j].key| <= |tails[i].key|
  }

  /** Names that ngx_hash_add_key keeps for a tail wildcard. */
  predicate ValidTail(x: string) { x != "" && x[|x| - 1] != '.' }

  lemma PrefixParts(x: string, name: string)
    requires TailMatches(x, name)
    ensures |x| < |name| && name == x + "." + name[|x| + 1..]
    ensures name[..|x|] == x && name[|x|] == '.'
  {
    assert name == (x + ".") + name[|x| + 1..];
  }

  lemma TailLabels(x: string, name: string)
    ensures TailMatches(x, name) <==> |Split(name)| >= 2 && Split(x) <= Front(Split(name))
  {
    hide Split;
    var ls := Split(name);
    if TailMatches(x, name) {
      PrefixParts(x, name);
      SplitAppend(x, name[|x| + 1..]);
      assert Front(ls) == Split(x) + Split(name[|x| + 1..])[..|ls| - |Split(x)| - 1];
    }
    if |ls| >= 2 && Split(x) <= Front(ls) {
      assert ls[..|Split(x)|] == Front(ls)[..|Split(x)|] == Split(x);
      HeadUnder(name, |Split(x)|);
      JoinSplit(x);
    }
  }

  lemma Extends(x: string, y: string, name: string)
    requires |y| < |x| <= |name| && name[..|x|] == x && name[..|y|] == y && name[|y|] == '.'
    ensures x == y + "." + x[|y| + 1..]
  {
    assert x[..|y|] == name[..|y|] && x[|y|] == name[|y|];
    assert x == x[..|y|] + [x[|y|]] + x[|y| + 1..];
  }

  lemma LongerTail(x: string, y: string, name: string)
    requires TailMatches(x, name) && TailMatches(y, name) && |Split(x)| <= |Split(y)|
    ensures |x| <= |y|
  {
    hide Split, TailMatches;
    PrefixParts(x, name);
    PrefixParts(y, name);
    if |y| < |x| {
      Extends(x, y, name);
      SplitAppend(y, x[|y| + 1..]);
    }
  }

  lemma {:induction false} LastSplit(x: string)
    requires ValidTail(x)
    ensures !Star(Split(x)) && ValidLabels(Split(x)) && Split(x)[|Split(x)| - 1] != ""
    decreases |x|
  {
    var n := DotAt(x);
    SplitStep(x);
    if n < |x| {
      assert x[n + 1..] != "" by { assert x[n] == '.'; }
      LastSplit(x[n + 1..]);
    }
  }

  // ------------------------------------------------------------ in any order

  /** Tail wildcards as they are added: all different. */
  ghost predicate Added<V>(tails: seq<Name<V>>)
  {
    && (forall i :: 0 <= i < |tails| ==> ValidTail(tails[i].key) && Written(tails[i].key))
    && (forall i, j :: 0 <= i < j < |tails| ==> tails[i].key != tails[j].key)
  }

  lemma TailKind(key: string, after: char, flags: Flags)
    requires KindOf(key, after, flags).Tail?
    ensures ValidTail(KindOf(key, after, flags).x)
  {
    var n := |key| - 3;
    assert Following(key, after, n) == '.';
    assert key[n] != '.';
    assert key[..|key| - 2][n] == key[n];
  }

  /** The name whose labels from the right are the given ones. */
  function Backwards(ls: Labels): (s: string)
    requires |ls| >= 1
  {
    if |ls| == 1 then ls[0] else Backwards(ls[1..]) + "." + ls[0]
  }

  lemma {:induction false} BackwardsLabels(ls: Labels)
    requires |ls| >= 1 && forall i :: 0 <= i < |ls| ==> '.' !in ls[i]
    ensures RevLabels(Backwards(ls)) == ls
    ensures ls[|ls| - 1] != "" ==> ValidX(Backwards(ls))
    decreases |ls|
  {
    hide RevLabels;
    assert ls[0][0..] == ls[0];
    RevLabelsStep(ls[0], 0);
    if |ls| > 1 {
      BackwardsLabels(ls[1..]);
      RevLabelsAppend(Backwards(ls[1..]), ls[0]);
    } else if ls[0] != "" {
      assert ls[0][0] in ls[0];
    }
  }

  function Mirrored<V>(t: Name<V>): (p: Pat<V>) { Pat(false, Backwards(Split(t.key)), t.value) }

  lemma MirroredKey<V>(t: Name<V>)
    requires ValidTail(t.key)
    ensures IsKeyOf(t, Mirrored(t)) && RevLabels(Mirrored(t).x) == Split(t.key)
  {
    hide Split, RevLabels, Backwards;
    SplitNoDots(t.key);
    LastSplit(t.key);
    BackwardsLabels(Split(t.key));
  }

  lemma SortedTails<V>(tails: seq<Name<V>>)
    requires Added(tails) && Sorted(tails)
    ensures Graded(LabelKeys(tails)) && NoStars(LabelKeys(tails))
  {
    hide Split, RevLabels, Backwards, DnsCmp, Written, Mirrored, IsKeyOf, ValidTail;
    var pats := seq(|tails|, i requires 0 <= i < |tails| => Mirrored(tails[i]));
    forall i | 0 <= i < |tails| ensures IsKeyOf(tails[i], pats[i]) && !Star(LabelKeys(tails)[i].labels) {
      MirroredKey(tails[i]);
      LastSplit(tails[i].key);
    }
    forall i, j | 0 <= i < j < |tails| ensures pats[i].x != pats[j].x {
      MirroredKey(tails[i]);
      MirroredKey(tails[j]);
      JoinSplit(tails[i].key);
      JoinSplit(tails[j].key);
    }
    SortedIsGraded(tails, pats);
  }

  /** Tail wildcards in any order, sorted with ngx_dns_strcmp and built into the
      nested hash: where keys with the same first labels come together, lookup
      finds the longest one that matches the name, and nothing exactly when
      none does. */
  lemma TailLookup<V>(tails: seq<Name<V>>, name: string)
    requires Added(tails) && Sorted(tails) && Adjacent(LabelKeys(tails))
    ensures IsLongestTail(tails, name, FindTail(Build(LabelKeys(tails)), name))
  {
    hide Split, DnsCmp, Written, Graded, Adjacent, FindTail, TailOf, Find, Build, TailMatches, ValidTail, Star, Pattern;
    var keys, ls := LabelKeys(tails), Split(name);
    var r := FindTail(Build(keys), name);
    FindTailLabels(Build(keys), name);
    SortedTails(tails);
    forall i | 0 <= i < |tails|
      ensures TailMatches(tails[i].key, name) <==> |ls| >= 2 && Matches(keys[i].labels, Front(ls))
      ensures Pattern(keys[i].labels) == Split(tails[i].key)
    {
      TailLabels(tails[i].key, name);
      Starless(Split(tails[i].key));
    }
    if |ls| >= 2 {
      TailIsHead(keys, ls);
      FindBest(keys, Front(ls));
      if r.Some? {
        var k :| 0 <= k < |keys| && Wins(keys, Front(ls), k) && keys[k].value == r.value;
        forall j | 0 <= j < |tails| && TailMatches(tails[j].key, name) ensures |tails[j].key| <= |tails[k].key| {
          assert Matches(keys[j].labels, Front(ls));
          LongerTail(tails[j].key, tails[k].key, name);
        }
      }
    } else {
      ShortTail(Build(keys), ls);
    }
  }

  lemma ShortTail<V>(node: Node<V>, ls: Labels)
    requires |ls| == 1
    ensures TailOf(node, ls) == None
  {
  }

  lemma Starless(k: Labels)
    requires !Star(k)
    ensures Pattern(k) == k && forall name: Labels :: Matches(k, name) <==> k <= name
  {
  }
}
