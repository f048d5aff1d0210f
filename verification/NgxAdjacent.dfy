/** When wildcard lookup is right: exactly when, after sorting, patterns with
    the same first labels come together. */
module NgxAdjacent {
  import opened Options
  import opened NgxWildcard
  import opened NgxNames
  import opened NgxDns
  import opened NgxTail

  // ------------------------------------------------------- where values come from

  ghost predicate ValueOf<V>(keys: seq<Key<V>>, r: Option<V>)
  {
    r.Some? ==> exists m :: 0 <= m < |keys| && keys[m].value == r.value
  }

  /** The value of some key other than the k-th. */
  ghost predicate ValueBut<V>(keys: seq<Key<V>>, r: Option<V>, k: nat)
  {
    r.Some? ==> exists m :: 0 <= m < |keys| && m != k && keys[m].value == r.value
  }

  lemma {:induction false} FindValue<V>(keys: seq<Key<V>>, name: Labels)
    requires Graded(keys) && |name| >= 1
    ensures ValueOf(keys, Find(Build(keys), name))
    decreases |name|, 1
  {
    hide Graded, MakeNames, MakeEntry, Lookup, Find;
    var s, e := LookupRun(keys, name[0]);
    if s < e {
      var group := keys[s..e];
      GradedPart(keys, s, e);
      assert OneGroup(group, name[0]);
      FindByEntry(Build(keys), name);
      EntryValue(group, name);
      var r := Find(Build(keys), name);
      if r.Some? {
        var m :| 0 <= m < |group| && group[m].value == r.value;
        assert keys[s + m].value == r.value;
      }
    } else {
      FindNothing(keys, name);
    }
  }

  lemma FindNothing<V>(keys: seq<Key<V>>, name: Labels)
    requires |name| >= 1 && Lookup(MakeNames(keys), name[0]).None?
    ensures Find(Build(keys), name) == None
  {
    hide MakeNames;
  }

  lemma {:induction false} EntryValue<V>(group: seq<Key<V>>, name: Labels)
    requires |name| >= 1 && OneGroup(group, name[0])
    ensures ValueOf(group, FindEntry(MakeEntry(group), name))
    decreases |name|, 0
  {
    hide Graded, FindEntry, MakeEntry, Nested;
    HaveLabels(group);
    if |name| == 1 || Nested(group) == [] {
      EntryFirst(group, name);
    } else {
      var next, rest := Nested(group), name[1..];
      GradedNested(group, name[0]);
      FindValue(next, rest);
      var r := Find(Build(next), rest);
      EntryNested(group, name, r);
      if r.Some? {
        var m :| 0 <= m < |next| && next[m].value == r.value;
        NestedMatches(group, name, m);
        assert group[Origin(group, m)].value == r.value;
      }
    }
  }

  /** Without further labels, or without nested keys, the group's first key. */
  lemma EntryFirst<V>(group: seq<Key<V>>, name: Labels)
    requires |name| >= 1 && OneGroup(group, name[0])
    requires forall i :: 0 <= i < |group| ==> |group[i].labels| >= 1
    requires |name| == 1 || Nested(group) == []
    ensures ValueOf(group, FindEntry(MakeEntry(group), name))
  {
    hide Graded, Nested, MakeNames;
    assert group[0].value == group[0].value;
  }

  // ------------------------------------------------------------------ hidden keys

  /** The shortest name that the key matches, with extra behind a star. */
  ghost function NameOf(k: Labels, extra: string): (name: Labels)
    requires ValidLabels(k)
    ensures |name| >= 1 && name[0] == k[0]
  {
    PatternHead(k);
    Pattern(k) + if Star(k) then [extra] else []
  }

  lemma NameTail(k: Labels, extra: string)
    requires ValidLabels(k) && !Ends(k)
    ensures ValidLabels(k[1..]) && NameOf(k, extra)[1..] == NameOf(k[1..], extra)
    ensures |NameOf(k, extra)| > 1
  {
    MatchesTail(k, [k[0]]);
    assert Star(k) <==> Star(k[1..]);
    PatternHead(k[1..]);
  }

  lemma AlikeFirst<V>(a: Key<V>, b: Key<V>, p: nat)
    requires ValidLabels(a.labels) && ValidLabels(b.labels) && Alike(a, b, p) && p >= 1
    ensures a.labels[0] == b.labels[0]
  {
    hide Pattern;
    PatternHead(a.labels);
    PatternHead(b.labels);
    assert Pattern(a.labels)[0] == Pattern(a.labels)[..p][0];
    assert Pattern(b.labels)[0] == Pattern(b.labels)[..p][0];
  }

  ghost predicate Split3<V>(keys: seq<Key<V>>, i: nat, j: nat, k: nat, p: nat)
  {
    i < j < k < |keys| && Alike(keys[i], keys[k], p) && !Alike(keys[i], keys[j], p)
  }

  lemma SplitSome<V>(keys: seq<Key<V>>, i: nat, j: nat, k: nat, p: nat)
    requires Split3(keys, i, j, k, p)
    ensures p >= 1
  {
  }

  /** A key that is cut off from one with the same first labels is not found by
      its own name. */
  lemma {:induction false} Hidden<V>(keys: seq<Key<V>>, i: nat, j: nat, k: nat, p: nat, extra: string)
    requires Graded(keys) && Split3(keys, i, j, k, p) && ValidLabels(keys[k].labels)
    ensures ValueBut(keys, Find(Build(keys), NameOf(keys[k].labels, extra)), k)
    decreases p, 1
  {
    hide Graded, Alike, MakeNames, MakeEntry, Lookup, Find, FindEntry, Nested, NameOf;
    var name := NameOf(keys[k].labels, extra);
    SplitSome(keys, i, j, k, p);
    ValidAt(keys, i);
    AlikeFirst(keys[i], keys[k], p);
    var s, e := LookupRun(keys, name[0]);
    assert s <= i && s < e;
    var group := keys[s..e];
    GradedPart(keys, s, e);
    assert OneGroup(group, name[0]);
    FindByEntry(Build(keys), name);
    var r := Find(Build(keys), name);
    if k >= e {
      EntryValue(group, name);
      if r.Some? {
        var m :| 0 <= m < |group| && group[m].value == r.value;
        assert keys[s + m].value == r.value;
      }
    } else {
      assert group[i - s] == keys[i] && group[j - s] == keys[j] && group[k - s] == keys[k];
      HiddenBelow(group, i - s, j - s, k - s, p, extra);
      if r.Some? {
        var m :| 0 <= m < |group| && m != k - s && group[m].value == r.value;
        assert keys[s + m].value == r.value;
      }
    }
  }

  lemma {:induction false} HiddenBelow<V>(group: seq<Key<V>>, i: nat, j: nat, k: nat, p: nat, extra: string)
    requires Split3(group, i, j, k, p) && ValidLabels(group[k].labels)
    requires OneGroup(group, group[k].labels[0])
    ensures ValueBut(group, FindEntry(MakeEntry(group), NameOf(group[k].labels, extra)), k)
    decreases p, 0
  {
    hide Graded, Alike, MakeNames, MakeEntry, Lookup, Find, FindEntry, Nested, NameOf;
    HaveLabels(group);
    var lab, name := group[k].labels[0], NameOf(group[k].labels, extra);
    NotEnds(group, i, j, k, p);
    var i' := NestedFrom(group, lab, i);
    var j' := NestedFrom(group, lab, j);
    var k' := NestedFrom(group, lab, k);
    var next := Nested(group);
    NestedAlike(group, lab, i', k', p - 1);
    NestedAlike(group, lab, i', j', p - 1);
    NameTail(group[k].labels, extra);
    NestedAt(group, lab);
    GradedNested(group, lab);
    Hidden(next, i', j', k', p - 1, extra);
    var r := Find(Build(next), name[1..]);
    EntryNested(group, name, r);
    if r.Some? {
      var m :| 0 <= m < |next| && m != k' && next[m].value == r.value;
      NestedMatches(group, name, m);
      assert group[Origin(group, m)].value == r.value;
    } else {
      assert group[0].value == group[0].value;
    }
  }

  /** The three go on below the first label. */
  lemma NotEnds<V>(group: seq<Key<V>>, i: nat, j: nat, k: nat, p: nat)
    requires Split3(group, i, j, k, p) && ValidLabels(group[k].labels) && OneGroup(group, group[k].labels[0])
    ensures p >= 2 && !Ends(group[i].labels) && !Ends(group[k].labels)
  {
    hide Graded;
    ValidAt(group, i);
    ValidAt(group, j);
    SplitSome(group, i, j, k, p);
    if p == 1 { AlikeOnce(group[i], group[j]); }
    EndsPattern(group[i].labels);
    EndsPattern(group[k].labels);
  }

  // ------------------------------------------------------------- the only winner

  predicate Unused<V>(keys: seq<Key<V>>, extra: string)
  {
    forall m :: 0 <= m < |keys| ==> extra !in keys[m].labels
  }

  /** No other key matches the name with as many labels. */
  lemma OnlyBest<V>(keys: seq<Key<V>>, k: nat, w: nat, extra: string)
    requires Graded(keys) && k < |keys| && w < |keys| && Unused(keys, extra) && ValidLabels(keys[k].labels)
    ensures Matches(keys[k].labels, NameOf(keys[k].labels, extra))
    ensures |Pattern(keys[w].labels)| >= |Pattern(keys[k].labels)| ==>
              (Matches(keys[w].labels, NameOf(keys[k].labels, extra)) ==> w == k)
  {
    var a, b, name := Pattern(keys[k].labels), Pattern(keys[w].labels), NameOf(keys[k].labels, extra);
    if b <= name && |b| == |a| { assert b == name[..|a|] == a; }
  }

  function Length(ls: Labels): (n: nat) { if ls == [] then 0 else |ls[0]| + Length(ls[1..]) }

  function Lengths<V>(keys: seq<Key<V>>): (n: nat)
  {
    if keys == [] then 0 else Length(keys[0].labels) + Lengths(keys[1..])
  }

  lemma {:induction false} LengthAt(ls: Labels, q: nat)
    requires q < |ls|
    ensures |ls[q]| <= Length(ls)
  {
    if q > 0 { LengthAt(ls[1..], q - 1); }
  }

  lemma {:induction false} LengthsAt<V>(keys: seq<Key<V>>, m: nat)
    requires m < |keys|
    ensures Length(keys[m].labels) <= Lengths(keys)
  {
    if m > 0 { LengthsAt(keys[1..], m - 1); }
  }

  lemma FreshLabel<V>(keys: seq<Key<V>>) returns (x: string)
    ensures Unused(keys, x) && x != "" && '.' !in x
  {
    x := seq(Lengths(keys) + 1, _ => 'x');
    forall m | 0 <= m < |keys| ensures x !in keys[m].labels {
      if x in keys[m].labels {
        var q :| 0 <= q < |keys[m].labels| && keys[m].labels[q] == x;
        LengthAt(keys[m].labels, q);
        LengthsAt(keys, m);
      }
    }
  }

  ghost predicate OneEach<V>(keys: seq<Key<V>>)
  {
    forall i, j :: 0 <= i < j < |keys| ==> keys[i].value != keys[j].value
  }

  /** Lookup is right about every name exactly when the keys are adjacent. */
  lemma FindExactly<V>(keys: seq<Key<V>>)
    requires Graded(keys) && OneEach(keys)
    ensures Adjacent(keys) <==> forall name: Labels :: |name| >= 1 ==> IsBest(keys, name, Find(Build(keys), name))
  {
    hide Graded, Alike, Build, Find;
    if Adjacent(keys) {
      forall name: Labels | |name| >= 1 ensures IsBest(keys, name, Find(Build(keys), name)) { FindBest(keys, name); }
    } else {
      var i, j, k, p :| 0 <= i < j < k < |keys| && Alike(keys[i], keys[k], p) && !Alike(keys[i], keys[j], p);
      var extra := FreshLabel(keys);
      ValidAt(keys, k);
      WrongName(keys, i, j, k, p, extra);
    }
  }

  lemma WrongName<V>(keys: seq<Key<V>>, i: nat, j: nat, k: nat, p: nat, extra: string)
    requires Graded(keys) && OneEach(keys) && Split3(keys, i, j, k, p) && Unused(keys, extra)
    requires ValidLabels(keys[k].labels)
    ensures var name := NameOf(keys[k].labels, extra);
            !IsBest(keys, name, Find(Build(keys), name))
  {
    hide Graded, Alike, Build, Find, Matches, Pattern, Unused;
    var name := NameOf(keys[k].labels, extra);
    var r := Find(Build(keys), name);
    Hidden(keys, i, j, k, p, extra);
    OnlyBest(keys, k, k, extra);
    if IsBest(keys, name, r) {
      var w :| 0 <= w < |keys| && Wins(keys, name, w) && keys[w].value == r.value;
      OnlyBest(keys, k, w, extra);
    }
  }

  // ----------------------------------------------------------------- as strings

  lemma StrictlyLonger(x: string, y: string, name: string)
    requires RevLabels(x) <= RevLabels(name) && RevLabels(y) <= RevLabels(name) && |RevLabels(x)| < |RevLabels(y)|
    ensures |x| < |y|
  {
    hide RevLabels, EndsWith;
    ShorterPrefix(RevLabels(x), RevLabels(y), RevLabels(name));
    PrefixIsSuffix(x, y);
    EndsLonger(y, x);
  }

  lemma ShorterPrefix(a: Labels, b: Labels, c: Labels)
    requires a <= c && b <= c && |a| <= |b|
    ensures a <= b
  {
  }

  lemma EndsLonger(y: string, x: string)
    ensures EndsWith(y, "." + x) ==> |x| < |y|
  {
  }

  ghost predicate OneValueEach<V>(names: seq<Name<V>>)
  {
    forall i, j :: 0 <= i < j < |names| ==> names[i].value != names[j].value
  }

  /** For every set of wildcards of different values, sorted and built: lookup is
      right about every name exactly when patterns with the same first labels
      came together. */
  lemma HeadExactly<V>(names: seq<Name<V>>, pats: seq<Pat<V>>)
    requires Converted(names, pats) && Sorted(names) && OneValueEach(names)
    ensures Adjacent(LabelKeys(names)) <==>
            forall name :: IsLongest(pats, name, FindHead(Build(LabelKeys(names)), name))
  {
    hide Split, RevLabels, DnsCmp, Written, Graded, Alike, FindHead, Build, IsLongest, IsKeyOf;
    var keys := LabelKeys(names);
    SortedIsGraded(names, pats);
    if Adjacent(keys) {
      forall name ensures IsLongest(pats, name, FindHead(Build(keys), name)) { SortedLookup(names, pats, name); }
    } else {
      var i, j, k, p :| 0 <= i < j < k < |keys| && Alike(keys[i], keys[k], p) && !Alike(keys[i], keys[j], p);
      var extra := FreshLabel(keys);
      ValidAt(keys, k);
      var name := Named(names, k, extra);
      Hidden(keys, i, j, k, p, extra);
      FindHeadLabels(Build(keys), name);
      NotLongest(names, pats, k, extra, name, FindHead(Build(keys), name));
    }
  }

  /** The name as a string. */
  lemma Named<V>(names: seq<Name<V>>, k: nat, extra: string) returns (name: string)
    requires k < |names| && '.' !in extra && ValidLabels(Split(names[k].key))
    ensures RevLabels(name) == NameOf(Split(names[k].key), extra)
  {
    hide Split, RevLabels;
    var ls := NameOf(Split(names[k].key), extra);
    SplitNoDots(names[k].key);
    BackwardsLabels(ls);
    name := Backwards(ls);
  }

  lemma NotLongest<V>(names: seq<Name<V>>, pats: seq<Pat<V>>, k: nat, extra: string, name: string, r: Option<V>)
    requires Converted(names, pats) && Graded(LabelKeys(names)) && OneValueEach(names) && k < |names|
    requires Unused(LabelKeys(names), extra) && ValidLabels(Split(names[k].key))
    requires RevLabels(name) == NameOf(Split(names[k].key), extra) && ValueBut(LabelKeys(names), r, k)
    ensures !IsLongest(pats, name, r)
  {
    hide Split, RevLabels, Written, Graded, PatMatches, Unused, Matches, KeyLabels, ValidX, NameOf;
    var keys := LabelKeys(names);
    OnlyBest(keys, k, k, extra);
    KeyMatches(pats[k], name);
    if r.Some? {
      forall i | 0 <= i < |pats| && pats[i].value == r.value ensures i != k {
        var m :| 0 <= m < |keys| && m != k && keys[m].value == r.value;
        assert names[m].value == r.value;
        assert pats[i].value == names[i].value;
      }
      forall i | 0 <= i < |pats| && i != k && PatMatches(pats[i], name) ensures |pats[i].x| < |pats[k].x| {
        KeyMatches(pats[i], name);
        OnlyBest(keys, k, i, extra);
        KeyPattern(pats[i].star, pats[i].x);
        KeyPattern(pats[k].star, pats[k].x);
        MatchPrefix(keys[i].labels, RevLabels(name));
        MatchPrefix(keys[k].labels, RevLabels(name));
        StrictlyLonger(pats[i].x, pats[k].x, name);
      }
    }
  }

  lemma MatchPrefix(k: Labels, name: Labels)
    requires Matches(k, name)
    ensures Pattern(k) <= name
  {
  }

  /** The same for wildcards with the star at the end. */
  lemma TailExactly<V>(tails: seq<Name<V>>)
    requires Added(tails) && Sorted(tails) && OneValueEach(tails)
    ensures Adjacent(LabelKeys(tails)) <==>
            forall name :: IsLongestTail(tails, name, FindTail(Build(LabelKeys(tails)), name))
  {
    hide Split, DnsCmp, Written, Graded, Alike, FindTail, Build, IsLongestTail, ValidTail, NoStars, Find, NameOf;
    var keys := LabelKeys(tails);
    SortedTails(tails);
    if Adjacent(keys) {
      forall name ensures IsLongestTail(tails, name, FindTail(Build(keys), name)) { TailLookup(tails, name); }
    } else {
      var i, j, k, p :| 0 <= i < j < k < |keys| && Alike(keys[i], keys[k], p) && !Alike(keys[i], keys[j], p);
      var extra := FreshLabel(keys);
      ValidAt(keys, k);
      Hidden(keys, i, j, k, p, extra);
      var name := tails[k].key + "." + extra;
      FindTailLabels(Build(keys), name);
      TailName(tails, k, extra);
      TailIsHead(keys, Split(name));
      NotLongestTail(tails, k, extra, FindTail(Build(keys), name));
    }
  }

  lemma TailName<V>(tails: seq<Name<V>>, k: nat, extra: string)
    requires k < |tails| && '.' !in extra && NoStars(LabelKeys(tails)) && ValidLabels(Split(tails[k].key))
    ensures |Split(tails[k].key + "." + extra)| >= 2
    ensures Front(Split(tails[k].key + "." + extra)) == NameOf(Split(tails[k].key), extra)
  {
    hide Split;
    SplitAppend(tails[k].key, extra);
    SplitOnce(extra);
    assert extra[..|extra|] == extra;
    DotAtIs(extra, |extra|);
    assert LabelKeys(tails)[k].labels == Split(tails[k].key);
    Starless(Split(tails[k].key));
  }

  lemma NotLongestTail<V>(tails: seq<Name<V>>, k: nat, extra: string, r: Option<V>)
    requires Added(tails) && OneValueEach(tails) && k < |tails| && '.' !in extra && ValueBut(LabelKeys(tails), r, k)
    ensures !IsLongestTail(tails, tails[k].key + "." + extra, r)
  {
    hide Split, Written, ValidTail, TailMatches;
    var keys, name := LabelKeys(tails), tails[k].key + "." + extra;
    assert TailMatches(tails[k].key, name) by { Extended(tails[k].key, extra); }
    if r.Some? {
      forall i | 0 <= i < |tails| && tails[i].value == r.value ensures i != k {
        var m :| 0 <= m < |keys| && m != k && keys[m].value == r.value;
        assert tails[m].value == r.value;
      }
      forall i | 0 <= i < |tails| && i != k && TailMatches(tails[i].key, name)
        ensures |tails[i].key| < |tails[k].key|
      {
        ShorterTail(tails[i].key, tails[k].key, extra);
      }
    }
  }

  lemma Extended(x: string, extra: string)
    ensures TailMatches(x, x + "." + extra)
  {
  }

  /** The last dot of the name is the one behind x. */
  lemma ShorterTail(y: string, x: string, extra: string)
    requires TailMatches(y, x + "." + extra) && '.' !in extra && y != x
    ensures |y| < |x|
  {
    var name := x + "." + extra;
    PrefixParts(y, name);
    assert name[..|x|] == x;
  }

  // ------------------------------------------------------------- a wrong answer

  /** A tab sorts below the dot and comes between "a" and "a.b": ".b.a" is cut
      off from ".a", and so some name is looked up wrongly. */
  lemma ControlCharacter()
    ensures var names := [Name("a", 0), Name("a\tb", 1), Name("a.b", 2)];
            var pats := [Pat(false, "a", 0), Pat(false, "a\tb", 1), Pat(false, "b.a", 2)];
            Converted(names, pats) && Sorted(names) && !Adjacent(LabelKeys(names)) && OneValueEach(names)
  {
    hide Split, RevLabels, DnsCmp, Pattern, Alike;
    TabSorts();
    TabLabels();
    var names := [Name("a", 0), Name("a\tb", 1), Name("a.b", 2)];
    var keys := LabelKeys(names);
    AlikeOnce(keys[0], keys[1]);
    AlikeOnce(keys[0], keys[2]);
    assert Alike(keys[0], keys[2], 1) && !Alike(keys[0], keys[1], 1);
  }

  lemma TabSorts()
    ensures DnsCmp("a", "a\tb") <= 0 && DnsCmp("a\tb", "a.b") <= 0 && DnsCmp("a", "a.b") <= 0
  {
    assert "a"[1..] == "" && "a\tb"[1..] == "\tb" && "a.b"[1..] == ".b";
  }

  lemma TabLabels()
    ensures Split("a") == RevLabels("a") == ["a"] && Split("a\tb") == RevLabels("a\tb") == ["a\tb"]
    ensures Split("a.b") == RevLabels("b.a") == ["a", "b"]
  {
    hide Split, RevLabels, DotAt, LabelStart;
    OneLabel("a");
    OneLabel("b");
    OneLabel("a\tb");
    SplitAppend("a", "b");
    RevLabelsAppend("b", "a");
    assert "a" + "." + "b" == "a.b" && "b" + "." + "a" == "b.a";
  }

  lemma OneLabel(l: string)
    requires '.' !in l
    ensures Split(l) == RevLabels(l) == [l]
  {
    hide Split, RevLabels, DotAt;
    assert l[..|l|] == l && l[0..] == l;
    DotAtIs(l, |l|);
    SplitOnce(l);
    RevLabelsStep(l, 0);
  }
}
