/** Wildcard names as strings: adding them, building the nested hash from
    them, and looking a name up. */
module NgxNames {
  import opened Options
  import opened NgxWildcard

  // ------------------------------------------------------------------ labels

  /** Where the last label of the name begins. */
  function LabelStart(name: string): (n: nat)
    ensures n <= |name| && '.' !in name[n..]
    ensures n > 0 ==> name[n - 1] == '.'
  {
    if name == [] || name[|name| - 1] == '.' then |name|
    else
      var n := LabelStart(name[..|name| - 1]);
      assert name[n..] == name[..|name| - 1][n..] + [name[|name| - 1]];
      n
  }

  /** The labels of a name, from the right. */
  function RevLabels(name: string): (r: Labels)
    ensures |r| >= 1
    decreases |name|
  {
    var n := LabelStart(name);
    [name[n..]] + if n == 0 then [] else RevLabels(name[..n - 1])
  }

  function DotAt(s: string): (n: nat)
    ensures n <= |s| && '.' !in s[..n]
    ensures n < |s| ==> s[n] == '.'
  {
    if s == [] || s[0] == '.' then 0
    else
      var n := DotAt(s[1..]);
      assert s[..n + 1] == [s[0]] + s[1..][..n];
      n + 1
  }

  /** The labels of a key, from the left. */
  function Split(s: string): (r: Labels)
    ensures |r| >= 1
    decreases |s|
  {
    var n := DotAt(s);
    [s[..n]] + if n == |s| then [] else Split(s[n + 1..])
  }

  // ------------------------------------------------------------------ lookup

  /** ngx_hash_find_wc_head. */
  function FindHead<V>(node: Node<V>, name: string): (r: Option<V>)
    decreases |name|
  {
    var n := LabelStart(name);
    match Lookup(node.names, name[n..])
    case None => node.value
    case Some(Sub(sub, starOnly)) =>
      if n == 0 then (if starOnly then None else sub.value)
      else
        var r := FindHead(sub, name[..n - 1]);
        if r.Some? then r else sub.value
    case Some(Data(v, starOnly)) => if starOnly && n == 0 then None else Some(v)
  }

  lemma {:induction false} FindHeadLabels<V>(node: Node<V>, name: string)
    ensures FindHead(node, name) == Find(node, RevLabels(name))
    decreases |name|
  {
    var n, r := LabelStart(name), RevLabels(name);
    if n > 0 {
      assert r[1..] == RevLabels(name[..n - 1]);
      match Lookup(node.names, r[0]) {
        case Some(Sub(sub, _)) => FindHeadLabels(sub, name[..n - 1]);
        case _ =>
      }
    }
  }

  // ------------------------------------------------- matching, seen as strings

  datatype Pat<V> = Pat(star: bool, x: string, value: V)

  predicate EndsWith(s: string, t: string) { |t| <= |s| && s[|s| - |t|..] == t }

  /** "*.x" matches names that end in ".x"; ".x" matches those and x itself. */
  predicate PatMatches<V>(p: Pat<V>, name: string)
  {
    EndsWith(name, "." + p.x) || (!p.star && name == p.x)
  }

  ghost predicate IsLongest<V>(pats: seq<Pat<V>>, name: string, r: Option<V>)
  {
    match r
    case None => forall i :: 0 <= i < |pats| ==> !PatMatches(pats[i], name)
    case Some(v) =>
      exists i :: 0 <= i < |pats| && pats[i].value == v && PatMatches(pats[i], name) &&
        forall j :: 0 <= j < |pats| && PatMatches(pats[j], name) ==> |pats[j].x| <= |pats[i].x|
  }

  /** Names that ngx_hash_add_key takes behind the star or dot. */
  predicate ValidX(x: string) { x != "" && x[0] != '.' }

  function KeyLabels(star: bool, x: string): (k: Labels) { RevLabels(x) + if star then [""] else [] }

  lemma LabelStartIs(name: string, n: nat)
    requires n <= |name| && '.' !in name[n..] && (n > 0 ==> name[n - 1] == '.')
    ensures LabelStart(name) == n
  {
    NoDotFrom(name, n);
    NoDotFrom(name, LabelStart(name));
  }

  lemma NoDotFrom(s: string, n: nat)
    requires n <= |s| && '.' !in s[n..]
    ensures forall j :: n <= j < |s| ==> s[j] != '.'
  {
    forall j | n <= j < |s| ensures s[j] != '.' { assert s[j] == s[n..][j - n]; }
  }

  lemma RevLabelsStep(name: string, n: nat)
    requires n <= |name| && '.' !in name[n..] && (n > 0 ==> name[n - 1] == '.')
    ensures RevLabels(name) == [name[n..]] + if n == 0 then [] else RevLabels(name[..n - 1])
  {
    LabelStartIs(name, n);
  }

  /** Labels put in front of a name come last. */
  lemma {:induction false} RevLabelsAppend(a: string, b: string)
    ensures RevLabels(a + "." + b) == RevLabels(b) + RevLabels(a)
    decreases |b|
  {
    hide RevLabels, LabelStart;
    var s, n := a + "." + b, LabelStart(b);
    assert s[|a| + 1 + n..] == b[n..];
    RevLabelsStep(s, |a| + 1 + n);
    RevLabelsStep(b, n);
    if n == 0 {
      assert s[..|a|] == a;
    } else {
      assert s[..|a| + n] == a + "." + b[..n - 1];
      RevLabelsAppend(a, b[..n - 1]);
    }
  }

  /** Sharing labels from the right means ending in the same characters. */
  lemma {:induction false} PrefixIsSuffix(x: string, name: string)
    requires RevLabels(x) <= RevLabels(name)
    ensures name == x || EndsWith(name, "." + x)
    ensures RevLabels(x) == RevLabels(name) ==> name == x
    decreases |x|
  {
    hide RevLabels, LabelStart;
    var m, n := LabelStart(x), LabelStart(name);
    RevLabelsStep(x, m);
    RevLabelsStep(name, n);
    var p, q := RevLabels(x), RevLabels(name);
    assert x[m..] == p[0] == q[0] == name[n..];
    assert n > 0 ==> name == name[..n - 1] + "." + name[n..];
    if m > 0 {
      var x', name' := x[..m - 1], name[..n - 1];
      assert RevLabels(x') == p[1..] <= q[1..] == RevLabels(name');
      assert x == x' + "." + x[m..];
      PrefixIsSuffix(x', name');
      SuffixGrows(x', name', x[m..], x, name);
    }
  }

  lemma SuffixGrows(x': string, name': string, l: string, x: string, name: string)
    requires x == x' + "." + l && name == name' + "." + l && (name' == x' || EndsWith(name', "." + x'))
    ensures name == x || EndsWith(name, "." + x)
  {
    if name' != x' {
      var head := name'[..|name'| - |x'| - 1];
      assert name' == head + ("." + x');
      assert name == head + ("." + x);
    }
  }

  lemma SuffixIsPrefix(x: string, name: string)
    requires name == x || EndsWith(name, "." + x)
    ensures RevLabels(x) <= RevLabels(name)
    ensures EndsWith(name, "." + x) ==> |RevLabels(x)| < |RevLabels(name)|
  {
    hide RevLabels;
    if EndsWith(name, "." + x) {
      var a := name[..|name| - |x| - 1];
      assert name == a + "." + x;
      RevLabelsAppend(a, x);
    }
  }

  lemma {:induction false} LastLabel(x: string)
    requires ValidX(x)
    ensures RevLabels(x)[|RevLabels(x)| - 1] != ""
    decreases |x|
  {
    hide RevLabels, LabelStart;
    var n := LabelStart(x);
    RevLabelsStep(x, n);
    if n > 0 {
      var rest := x[..n - 1];
      assert n > 1 ==> rest[0] == x[0];
      LastLabel(rest);
    } else {
      assert x[0..] == x;
    }
  }

  lemma KeyPattern(star: bool, x: string)
    requires ValidX(x)
    ensures Pattern(KeyLabels(star, x)) == RevLabels(x) && Star(KeyLabels(star, x)) == star
  {
    hide RevLabels;
    LastLabel(x);
    assert star ==> KeyLabels(star, x)[..|RevLabels(x)|] == RevLabels(x);
  }

  lemma KeyMatches<V>(p: Pat<V>, name: string)
    requires ValidX(p.x)
    ensures Matches(KeyLabels(p.star, p.x), RevLabels(name)) <==> PatMatches(p, name)
  {
    hide RevLabels, EndsWith, KeyLabels, Pattern, Star;
    KeyPattern(p.star, p.x);
    if RevLabels(p.x) <= RevLabels(name) {
      PrefixIsSuffix(p.x, name);
      SuffixIsPrefix(p.x, name);
    } else if PatMatches(p, name) {
      SuffixIsPrefix(p.x, name);
    }
  }

  /** Among the wildcards that match a name, more labels means longer. */
  lemma LongerMatch(x: string, y: string, name: string)
    requires RevLabels(x) <= RevLabels(name) && RevLabels(y) <= RevLabels(name)
    ensures |RevLabels(x)| <= |RevLabels(y)| ==> |x| <= |y|
  {
    hide RevLabels;
    if |RevLabels(x)| <= |RevLabels(y)| {
      PrefixOfPrefix(RevLabels(x), RevLabels(y), RevLabels(name));
      PrefixIsSuffix(x, y);
    }
  }

  lemma PrefixOfPrefix(a: seq<string>, b: seq<string>, c: seq<string>)
    requires a <= c && b <= c && |a| <= |b|
    ensures a <= b
  {
  }

  /** keys holds the patterns in some order. */
  ghost predicate KeysOf<V>(pats: seq<Pat<V>>, keys: seq<Key<V>>)
  {
    && (forall i :: 0 <= i < |pats| ==>
          ValidX(pats[i].x) && Key(KeyLabels(pats[i].star, pats[i].x), pats[i].value) in keys)
    && (forall k :: 0 <= k < |keys| ==> From(pats, keys[k]))
  }

  ghost predicate From<V>(pats: seq<Pat<V>>, key: Key<V>)
  {
    exists i :: 0 <= i < |pats| && key == Key(KeyLabels(pats[i].star, pats[i].x), pats[i].value)
  }

  /** For every conflict-free set of wildcards, lookup in the hash built from
      them returns the value of the longest one that matches the name, and
      nothing exactly when none does. */
  lemma HeadLookup<V>(pats: seq<Pat<V>>, keys: seq<Key<V>>, name: string)
    requires KeysOf(pats, keys) && Ordered(keys)
    ensures IsLongest(pats, name, FindHead(Build(keys), name))
  {
    hide RevLabels, Matches, PatMatches, Ordered, Find, Build, FindHead, KeyLabels;
    var labels := RevLabels(name);
    FindHeadLabels(Build(keys), name);
    FindBest(keys, labels);
    var r := FindHead(Build(keys), name);
    if r.Some? {
      var k :| 0 <= k < |keys| && Wins(keys, labels, k) && keys[k].value == r.value;
      assert From(pats, keys[k]);
      var i :| 0 <= i < |pats| && keys[k] == Key(KeyLabels(pats[i].star, pats[i].x), pats[i].value);
      KeyMatches(pats[i], name);
      forall j | 0 <= j < |pats| && PatMatches(pats[j], name) ensures |pats[j].x| <= |pats[i].x| {
        KeyMatches(pats[j], name);
        var k' :| 0 <= k' < |keys| && keys[k'] == Key(KeyLabels(pats[j].star, pats[j].x), pats[j].value);
        Compare(pats[j], pats[i], name);
      }
    } else {
      forall i | 0 <= i < |pats| ensures !PatMatches(pats[i], name) {
        KeyMatches(pats[i], name);
        var k' :| 0 <= k' < |keys| && keys[k'] == Key(KeyLabels(pats[i].star, pats[i].x), pats[i].value);
      }
    }
  }

  lemma Compare<V>(p: Pat<V>, q: Pat<V>, name: string)
    requires ValidX(p.x) && ValidX(q.x)
    requires Matches(KeyLabels(p.star, p.x), RevLabels(name)) && Matches(KeyLabels(q.star, q.x), RevLabels(name))
    requires |Pattern(KeyLabels(p.star, p.x))| <= |Pattern(KeyLabels(q.star, q.x))|
    ensures |p.x| <= |q.x|
  {
    hide RevLabels, KeyLabels;
    KeyPattern(p.star, p.x);
    KeyPattern(q.star, q.x);
    LongerMatch(p.x, q.x, name);
  }

  // ---------------------------------------------------------------- building

  datatype Name<V> = Name(key: string, value: V)

  function LabelKeys<V>(names: seq<Name<V>>): (r: seq<Key<V>>)
    ensures |r| == |names|
    ensures forall i :: 0 <= i < |names| ==> r[i] == Key(Split(names[i].key), names[i].value)
  {
    seq(|names|, i requires 0 <= i < |names| => Key(Split(names[i].key), names[i].value))
  }

  /** The test by which ngx_hash_wildcard_init extends a group: the first len
      characters agree, and a label without a dot is not cut short. */
  predicate Joins(first: string, len: nat, dot: bool, other: string)
    requires len <= |first|
  {
    && len <= |other| && first[..len] == other[..len]
    && (dot || |other| == len || other[len] == '.')
  }

  lemma SplitStep(s: string)
    ensures Split(s)[0] == s[..DotAt(s)]
    ensures |Split(s)| > 1 <==> DotAt(s) < |s|
    ensures DotAt(s) < |s| ==> Split(s)[1..] == Split(s[DotAt(s) + 1..])
  {
  }

  lemma DotAtIs(s: string, n: nat)
    requires n <= |s| && '.' !in s[..n] && (n < |s| ==> s[n] == '.')
    ensures DotAt(s) == n
  {
    var m := DotAt(s);
    assert forall j :: 0 <= j < n ==> s[j] == s[..n][j];
    assert forall j :: 0 <= j < m ==> s[j] == s[..m][j];
  }

  /** The joined length of a key's first label, with its dot if it has one. */
  function HeadLen(key: string): (len: nat)
    ensures len <= |key|
  {
    if DotAt(key) < |key| then DotAt(key) + 1 else DotAt(key)
  }

  lemma JoinsSame(first: string, other: string)
    requires Joins(first, HeadLen(first), DotAt(first) < |first|, other)
    ensures Split(other)[0] == Split(first)[0]
  {
    hide Split, DotAt;
    var n, len := DotAt(first), HeadLen(first);
    assert other[..n] == other[..len][..n] == first[..len][..n] == first[..n];
    if n < |first| { assert other[n] == other[..len][n] == first[..len][n]; }
    DotAtIs(other, n);
    SplitStep(first);
    SplitStep(other);
  }

  /** A longer key with the same first label joins. */
  lemma SameJoins(first: string, other: string)
    requires Split(other)[0] == Split(first)[0] && |Split(other)| > 1
    ensures Joins(first, HeadLen(first), DotAt(first) < |first|, other)
  {
    hide Split, DotAt;
    SplitStep(first);
    SplitStep(other);
    var n := DotAt(first);
    assert |other[..DotAt(other)]| == |first[..n]|;
    if n < |first| {
      UpTo(first, n);
      UpTo(other, n);
    }
  }

  lemma UpTo(s: string, n: nat)
    requires n < |s|
    ensures s[..n + 1] == s[..n] + [s[n]]
  {
  }

  lemma EndsEmpty(s: string)
    ensures DotAt(s) < |s| ==> (Ends(Split(s)) <==> s[DotAt(s) + 1..] == "")
    ensures DotAt(s) == |s| ==> Ends(Split(s))
  {
    SplitStep(s);
    var n := DotAt(s);
    if n < |s| {
      var t := s[n + 1..];
      SplitStep(t);
      assert t[..DotAt(t)] == "" && DotAt(t) == |t| ==> t == "";
    }
  }

  /** What is known about the first group of the keys from n on. */
  lemma GroupFrom<V>(names: seq<Name<V>>, n: nat)
    requires n < |names| && Graded(LabelKeys(names))
    ensures var keys := LabelKeys(names);
            var g := n + GroupSize(keys[n..], keys[n].labels[0]);
            && n < g <= |names| && OneGroup(keys[n..g], keys[n].labels[0])
            && keys[n..][..g - n] == keys[n..g] && keys[n..][g - n..] == keys[g..]
            && MakeNames(keys[n..]) == [Named(keys[n].labels[0], MakeEntry(keys[n..g]))] + MakeNames(keys[g..])
            && (forall i :: n <= i < g ==> keys[i].labels[0] == keys[n].labels[0])
            && (g < |names| ==> keys[g].labels[0] != keys[n].labels[0])
  {
    hide *;
    GroupIn(LabelKeys(names), n);
  }

  lemma GroupIn<V>(keys: seq<Key<V>>, n: nat)
    requires n < |keys| && Graded(keys)
    ensures |keys[n].labels| >= 1
    ensures var g := n + GroupSize(keys[n..], keys[n].labels[0]);
            && n < g <= |keys| && OneGroup(keys[n..g], keys[n].labels[0])
            && keys[n..][..g - n] == keys[n..g] && keys[n..][g - n..] == keys[g..]
            && MakeNames(keys[n..]) == [Named(keys[n].labels[0], MakeEntry(keys[n..g]))] + MakeNames(keys[g..])
            && (forall i :: n <= i < g ==> keys[i].labels[0] == keys[n].labels[0])
            && (g < |keys| ==> keys[g].labels[0] != keys[n].labels[0])
  {
    hide Graded, MakeEntry, MakeNames, GroupSize;
    GradedPart(keys, n, |keys|);
    assert keys[n..|keys|] == keys[n..];
    var l, size := FirstRun(keys[n..]);
    var g := n + size;
    GradedPart(keys, n, g);
    assert keys[n..][..g - n] == keys[n..g] && keys[n..][g - n..] == keys[g..];
    forall i | n <= i < |keys| ensures keys[i] == keys[n..][i - n] { }
  }

  /** The inner loop of ngx_hash_wildcard_init: the end of the group that
      begins at n, and its members without their first label. */
  method Collect<V>(names: seq<Name<V>>, n: nat, len: nat, dot: bool) returns (i: nat, next: seq<Name<V>>)
    requires n < |names| && Graded(LabelKeys(names))
    requires dot == (DotAt(names[n].key) < |names[n].key|) && len == HeadLen(names[n].key)
    ensures var keys := LabelKeys(names);
            && i == n + GroupSize(keys[n..], keys[n].labels[0]) && n < i <= |names|
            && OneGroup(keys[n..i], keys[n].labels[0]) && LabelKeys(next) == Nested(keys[n..i])
  {
    hide Graded, GroupSize, Split, DotAt, MakeNames, MakeEntry, Nested, OneGroup, LabelKeys, Joins;
    ghost var keys := LabelKeys(names);
    var key := names[n].key;
    var dotLen := if dot then len else len + 1;
    GroupFrom(names, n);
    ghost var g := n + GroupSize(keys[n..], keys[n].labels[0]);
    GroupSplits(keys, n, g);
    ghost var target := Nested(keys[n..g]);
    EndsEmpty(key);
    next := [];
    if |key| != len {
      next := [Name(key[len..], names[n].value)];
      FirstNested(names, n, g);
    }
    i := n + 1;
    while i < |names| && Joins(key, len, dot, names[i].key)
      invariant n < i <= g
      invariant |next| == if Ends(keys[n].labels) then i - n - 1 else i - n
      invariant |next| <= |target| && LabelKeys(next) == target[..|next|]
    {
      Member(names, n, i, g);
      NextNested(keys, n, i, g, next, names[i].key[dotLen..]);
      next := next + [Name(names[i].key[dotLen..], names[i].value)];
      i := i + 1;
    }
    if i < g { Member(names, n, i, g); }
    assert target[..|next|] == target;
  }

  lemma GroupSplits<V>(keys: seq<Key<V>>, n: nat, g: nat)
    requires n < g <= |keys| && |keys[n].labels| >= 1 && OneGroup(keys[n..g], keys[n].labels[0])
    ensures forall i :: 0 <= i < |keys[n..g]| ==> |keys[n..g][i].labels| >= 1
    ensures |Nested(keys[n..g])| == if Ends(keys[n].labels) then g - n - 1 else g - n
  {
    NestedAt(keys[n..g], keys[n].labels[0]);
  }

  lemma FirstNested<V>(names: seq<Name<V>>, n: nat, g: nat)
    requires n < g <= |names| && OneGroup(LabelKeys(names)[n..g], LabelKeys(names)[n].labels[0])
    requires HeadLen(names[n].key) != |names[n].key|
    ensures !Ends(LabelKeys(names)[n].labels)
    ensures var next := [Name(names[n].key[HeadLen(names[n].key)..], names[n].value)];
            LabelKeys(next) == Nested(LabelKeys(names)[n..g])[..1]
  {
    hide Split, DotAt, Graded;
    var key, keys := names[n].key, LabelKeys(names);
    SplitStep(key);
    EndsEmpty(key);
    NestedAt(keys[n..g], keys[n].labels[0]);
  }

  /** Exactly the later members of a group join it. */
  lemma Member<V>(names: seq<Name<V>>, n: nat, i: nat, g: nat)
    requires n < i < |names| && i <= g <= |names|
    requires forall k :: n <= k < g ==> LabelKeys(names)[k].labels[0] == LabelKeys(names)[n].labels[0]
    requires g < |names| ==> LabelKeys(names)[g].labels[0] != LabelKeys(names)[n].labels[0]
    requires OneGroup(LabelKeys(names)[n..g], LabelKeys(names)[n].labels[0])
    ensures var key := names[n].key;
            && (Joins(key, HeadLen(key), DotAt(key) < |key|, names[i].key) <==> i < g)
            && (i < g ==> DotAt(key) + 1 <= |names[i].key|)
            && (i < g ==> !Ends(LabelKeys(names)[i].labels))
            && (i < g ==> Split(names[i].key[DotAt(key) + 1..]) == LabelKeys(names)[i].labels[1..])
  {
    hide Split, DotAt, Graded, Joins;
    var keys := LabelKeys(names);
    if Joins(names[n].key, HeadLen(names[n].key), DotAt(names[n].key) < |names[n].key|, names[i].key) {
      JoinsSame(names[n].key, names[i].key);
    }
    if i < g {
      EndsFirst(keys[n..g], i - n);
      assert keys[n..g][i - n] == keys[i];
      SameJoins(names[n].key, names[i].key);
      SplitStep(names[n].key);
      SplitStep(names[i].key);
      assert |names[n].key[..DotAt(names[n].key)]| == |names[i].key[..DotAt(names[i].key)]|;
    }
  }

  /** What is behind a member's first label comes next among the nested keys. */
  lemma NextNested<V>(keys: seq<Key<V>>, n: nat, i: nat, g: nat, next: seq<Name<V>>, rest: string)
    requires n < i < g <= |keys| && |keys[n].labels| >= 1 && OneGroup(keys[n..g], keys[n].labels[0])
    requires |keys[i].labels| >= 1 && Split(rest) == keys[i].labels[1..]
    requires forall k :: 0 <= k < |keys[n..g]| ==> |keys[n..g][k].labels| >= 1
    requires |next| == if Ends(keys[n].labels) then i - n - 1 else i - n
    requires |next| <= |Nested(keys[n..g])| && LabelKeys(next) == Nested(keys[n..g])[..|next|]
    ensures |next| < |Nested(keys[n..g])|
    ensures LabelKeys(next + [Name(rest, keys[i].value)]) == Nested(keys[n..g])[..|next| + 1]
  {
    hide Split, Graded, Nested;
    NestedAt(keys[n..g], keys[n].labels[0]);
    assert Origin(keys[n..g], |next|) == i - n && keys[n..g][i - n] == keys[i];
    assert LabelKeys(next + [Name(rest, keys[i].value)]) == LabelKeys(next) + [Key(Split(rest), keys[i].value)];
  }

  method FirstDot(key: string) returns (len: nat)
    ensures len == DotAt(key)
  {
    hide DotAt;
    len := 0;
    while len < |key| && key[len] != '.'
      invariant len <= |key| && '.' !in key[..len]
    {
      assert key[..len + 1] == key[..len] + [key[len]];
      len := len + 1;
    }
    DotAtIs(key, len);
  }

  /** ngx_hash_wildcard_init. */
  method WildcardInit<V>(names: seq<Name<V>>) returns (node: Node<V>)
    requires Graded(LabelKeys(names))
    ensures node == Build(LabelKeys(names))
    decreases Weight(LabelKeys(names))
  {
    hide Graded, MakeNames, MakeEntry, Nested, OneGroup, LabelKeys, GroupSize, Split, DotAt, Weight;
    ghost var keys := LabelKeys(names);
    var curr: seq<Named<V>> := [];
    var n := 0;
    assert keys[0..] == keys;
    while n < |names|
      invariant n <= |names| && curr + MakeNames(keys[n..]) == MakeNames(keys)
    {
      var key, value := names[n].key, names[n].value;
      var len := FirstDot(key);
      var dot := len < |key|;
      var lab := key[..len];
      if dot { len := len + 1; }
      var i, next := Collect(names, n, len, dot);
      GroupFrom(names, n);
      SplitStep(key);
      EndsEmpty(key);
      EntryOf(keys[n..i], keys[n].labels[0]);
      var entry := Data(value, dot);
      if next != [] {
        NestedSmaller(keys, n, i);
        var sub := WildcardInit(next);
        entry := Sub(Node(sub.names, if |key| == len then Some(value) else None), dot);
      }
      assert MakeNames(keys[n..]) == [Named(lab, entry)] + MakeNames(keys[i..]);
      curr := curr + [Named(lab, entry)];
      n := i;
    }
    NoMoreNames(keys);
    node := Node(curr, None);
  }

  lemma NoMoreNames<V>(keys: seq<Key<V>>)
    ensures MakeNames(keys[|keys|..]) == []
  {
  }

  lemma EntryOf<V>(group: seq<Key<V>>, lab: string)
    requires OneGroup(group, lab)
    ensures |group[0].labels| >= 1 && forall i :: 0 <= i < |group| ==> |group[i].labels| >= 1
    ensures MakeEntry(group) == if Nested(group) == [] then Data(group[0].value, |group[0].labels| > 1)
                                else Sub(Node(MakeNames(Nested(group)),
                                              if Ends(group[0].labels) then Some(group[0].value) else None),
                                         |group[0].labels| > 1)
    ensures Nested(group) != [] ==> Graded(Nested(group))
  {
    hide MakeNames;
    GradedNested(group, lab);
  }

  lemma NestedSmaller<V>(keys: seq<Key<V>>, n: nat, g: nat)
    requires n < g <= |keys| && forall i :: 0 <= i < |keys[n..g]| ==> |keys[n..g][i].labels| >= 1
    ensures Nested(keys[n..g]) != [] ==> Weight(Nested(keys[n..g])) < Weight(keys)
  {
    hide Nested;
    assert keys == keys[..n] + keys[n..];
    WeightSplit(keys[..n], keys[n..]);
    assert keys[n..][..g - n] == keys[n..g];
    forall i | 0 <= i < g - n ensures |keys[n..][i].labels| >= 1 { assert keys[n..][i] == keys[n..g][i]; }
    NestedLighter(keys[n..], g - n);
  }

  // ------------------------------------------------------------- adding names

  /** Labels with a dot between each two. */
  function Join(ls: Labels): (s: string)
    requires |ls| >= 1
  {
    if |ls| == 1 then ls[0] else ls[0] + "." + Join(ls[1..])
  }

  lemma {:induction false} SplitJoin(ls: Labels)
    requires |ls| >= 1 && forall i :: 0 <= i < |ls| ==> '.' !in ls[i]
    ensures Split(Join(ls)) == ls
  {
    var s := Join(ls);
    assert s[..|ls[0]|] == ls[0];
    DotAtIs(s, |ls[0]|);
    if |ls| > 1 {
      assert s[|ls[0]| + 1..] == Join(ls[1..]);
      SplitJoin(ls[1..]);
    }
  }

  lemma {:induction false} JoinAppend(a: Labels, b: Labels)
    requires |a| >= 1 && |b| >= 1
    ensures Join(a + b) == Join(a) + "." + Join(b)
  {
    if |a| > 1 {
      assert (a + b)[1..] == a[1..] + b;
      JoinAppend(a[1..], b);
    } else {
      assert (a + b)[1..] == b;
    }
  }

  lemma {:induction false} NoDots(x: string)
    ensures forall i :: 0 <= i < |RevLabels(x)| ==> '.' !in RevLabels(x)[i]
    decreases |x|
  {
    var n := LabelStart(x);
    if n > 0 { NoDots(x[..n - 1]); }
  }

  /** The labels copied so far, each followed by a dot. */
  function Dotted(done: Labels): (s: string) { if done == [] then [] else Join(done + [""]) }

  lemma DottedPush(done: Labels, l: string)
    ensures Dotted(done) + l == Join(done + [l])
    ensures Dotted(done) + l + "." == Dotted(done + [l])
  {
    hide Join;
    JoinOne(l);
    JoinOne("");
    if done != [] {
      JoinAppend(done, [""]);
      JoinAppend(done, [l]);
    } else {
      assert done + [l] == [l];
    }
    JoinAppend(done + [l], [""]);
  }

  lemma JoinOne(l: string)
    ensures Join([l]) == l
  {
  }

  /** done are the labels behind the dot at e, from the right. */
  ghost predicate DoneFrom(key: string, e: nat, done: Labels)
  {
    e <= |key| && if e == |key| then done == [] else key[e] == '.' && done == RevLabels(key[e + 1..])
  }

  lemma LabelDone(key: string, s: nat, e: nat, done: Labels)
    requires DoneFrom(key, e, done) && s <= e && '.' !in key[s..e]
    ensures RevLabels(key[s..]) == done + [key[s..e]]
  {
    hide RevLabels;
    var l := key[s..e];
    assert l[0..] == l;
    RevLabelsStep(l, 0);
    if e < |key| {
      assert key[s..] == l + "." + key[e + 1..];
      RevLabelsAppend(l, key[e + 1..]);
    } else {
      assert key[s..] == l;
    }
  }

  /** The loop of ngx_hash_add_key that turns ".example.com" into "com.example"
      and "*.example.com" into "com.example.". */
  method Convert(key: string, skip: nat) returns (p: string)
    requires 1 <= skip <= 2 && skip < |key| && key[skip - 1] == '.' && ValidX(key[skip..])
    ensures Split(p) == KeyLabels(skip == 2, key[skip..])
  {
    hide RevLabels, Split, Join, Dotted;
    p := [];
    var len := 0;
    var i := |key| - 1;
    ghost var done: Labels := [];
    assert Dotted([]) == [] by { NoneDotted(); }
    while i > 0
      invariant 0 <= i && i + 1 + len <= |key| && '.' !in key[i + 1..i + 1 + len]
      invariant DoneFrom(key, i + 1 + len, done) && p == Dotted(done)
    {
      if key[i] == '.' {
        var l := key[i + 1..i + 1 + len];
        LabelDone(key, i + 1, i + 1 + len, done);
        DottedPush(done, l);
        p := p + l + ".";
        done := done + [l];
        len := 0;
      } else {
        assert key[i..i + 1 + len] == [key[i]] + key[i + 1..i + 1 + len];
        len := len + 1;
      }
      i := i - 1;
    }
    ghost var l := key[1..1 + len];
    DottedPush(done, l);
    if len > 0 {
      p := p + key[1..1 + len];
    }
    ConvertDone(key, skip, len, done);
  }

  lemma NoneDotted()
    ensures Dotted([]) == []
  {
  }

  lemma ConvertDone(key: string, skip: nat, len: nat, done: Labels)
    requires 1 <= skip <= 2 && skip < |key| && key[skip - 1] == '.' && ValidX(key[skip..])
    requires 1 + len <= |key| && DoneFrom(key, 1 + len, done) && '.' !in key[1..1 + len]
    ensures len > 0 <==> skip == 1
    ensures Split(if len > 0 then Join(done + [key[1..1 + len]]) else Dotted(done)) == KeyLabels(skip == 2, key[skip..])
  {
    hide RevLabels, Split, Join;
    NoDots(key[skip..]);
    if len > 0 { assert key[1] == key[1..1 + len][0]; }
    if skip == 1 {
      LabelDone(key, 1, 1 + len, done);
      SplitJoin(RevLabels(key[1..]));
    } else {
      SplitJoin(RevLabels(key[2..]) + [""]);
    }
  }

  function LowerChar(c: char): (r: char) { if 'A' <= c <= 'Z' then c - 'A' + 'a' else c }

  function Lower(s: string): (r: string)
    ensures |r| == |s| && forall i :: 0 <= i < |s| ==> r[i] == LowerChar(s[i])
  {
    seq(|s|, i requires 0 <= i < |s| => LowerChar(s[i]))
  }

  datatype Code = Ok | Busy | Declined

  /** What a key stands for, with x the lower-cased part behind star or dot. */
  datatype Kind = Rejected | Exact(x: string) | Head(star: bool, x: string) | Tail(x: string)

  /** The character that follows position i; after is the one behind the key,
      at which the scan also looks. */
  function Following(key: string, after: char, i: nat): (c: char) { if i + 1 < |key| then key[i + 1] else after }

  predicate Malformed(key: string, after: char)
  {
    || (exists i, j :: 0 <= i < j < |key| && key[i] == '*' && key[j] == '*')
    || (exists i :: 0 <= i < |key| && key[i] == '.' && Following(key, after, i) == '.')
  }

  /** The flags NGX_HASH_WILDCARD_KEY and NGX_HASH_READONLY_KEY. */
  datatype Flags = Flags(wildcard: bool, readonly: bool)

  function KindOf(key: string, after: char, flags: Flags): (k: Kind)
  {
    if flags.wildcard && Malformed(key, after) then Rejected
    else if flags.wildcard && |key| > 1 && key[0] == '.' then Head(false, Lower(key[1..]))
    else if flags.wildcard && |key| > 2 && key[0] == '*' && key[1] == '.' then Head(true, Lower(key[2..]))
    else if flags.wildcard && |key| > 2 && key[|key| - 2] == '.' && key[|key| - 1] == '*' then
      Tail(Lower(key[..|key| - 2]))
    else if flags.wildcard && '*' in key then Rejected
    else Exact(if flags.readonly then key else Lower(key))
  }

  /** ngx_hash_keys_arrays_t: the names seen so far and the keys to build from. */
  class KeyArrays<V> {
    var exactNames: set<string>
    var headNames: set<string>
    var tailNames: set<string>
    var keys: seq<Name<V>>
    var head: seq<Name<V>>
    var tail: seq<Name<V>>
    ghost var pats: seq<Pat<V>>

    /** The head keys are the converted patterns, and no pattern is there twice. */
    ghost predicate Valid()
      reads this
    {
      && |head| == |pats|
      && (forall i :: 0 <= i < |pats| ==> IsKeyOf(head[i], pats[i]) && pats[i].x in headNames)
      && (forall i, j :: 0 <= i < j < |pats| ==> pats[i].x != pats[j].x)
    }

    constructor ()
      ensures Valid() && pats == [] && exactNames == headNames == tailNames == {} && keys == tail == []
    {
      exactNames, headNames, tailNames := {}, {}, {};
      keys, head, tail, pats := [], [], [], [];
    }

    /** ngx_hash_add_key. A ".x" that is refused because of another wildcard
        still leaves x among the exact names. */
    method AddKey(key: string, after: char, value: V, flags: Flags) returns (rc: Code)
      requires Valid()
      modifies this
      ensures Valid()
      ensures rc == match KindOf(key, after, flags)
                    case Rejected => Declined
                    case Exact(x) => if x in old(exactNames) then Busy else Ok
                    case Head(star, x) => if (!star && x in old(exactNames)) || x in old(headNames) then Busy else Ok
                    case Tail(x) => if x in old(tailNames) then Busy else Ok
      ensures var added := if rc == Ok then KindOf(key, after, flags) else Rejected;
              && pats == old(pats) + (if added.Head? then [Pat(added.star, added.x, value)] else [])
              && headNames == old(headNames) + (if added.Head? then {added.x} else {})
              && keys == old(keys) + (if added.Exact? then [Name(added.x, value)] else [])
              && tail == old(tail) + (if added.Tail? then [Name(added.x, value)] else [])
              && tailNames == old(tailNames) + (if added.Tail? then {added.x} else {})
      ensures exactNames == old(exactNames) + match KindOf(key, after, flags)
                                              case Exact(x) => {x}
                                              case Head(star, x) => if star then {} else {x}
                                              case _ => {}
    {
      hide Malformed, ValidX, IsKeyOf;
      if flags.wildcard {
        var bad, stars := ScanKey(key, after);
        if bad {
          return Declined;
        }
        if |key| > 1 && key[0] == '.' {
          rc := AddHead(key, 1, value, after);
          return;
        }
        if |key| > 2 && key[0] == '*' && key[1] == '.' {
          rc := AddHead(key, 2, value, after);
          return;
        }
        if |key| > 2 && key[|key| - 2] == '.' && key[|key| - 1] == '*' {
          var x := Lower(key[..|key| - 2]);
          if x in tailNames {
            return Busy;
          }
          tailNames, tail := tailNames + {x}, tail + [Name(x, value)];
          return Ok;
        }
        if stars > 0 {
          return Declined;
        }
      }
      var x := if flags.readonly then key else Lower(key);
      if x in exactNames {
        return Busy;
      }
      exactNames, keys := exactNames + {x}, keys + [Name(x, value)];
      rc := Ok;
    }

    /** The wildcard part of ngx_hash_add_key for ".x" and "*.x". */
    method AddHead(key: string, skip: nat, value: V, ghost after: char) returns (rc: Code)
      requires Valid() && 1 <= skip <= 2 && skip < |key| && key[skip - 1] == '.' && !Malformed(key, after)
      modifies this`exactNames, this`headNames, this`head, this`pats
      ensures Valid()
      ensures var x := Lower(key[skip..]);
              && rc == (if (skip == 1 && x in old(exactNames)) || x in old(headNames) then Busy else Ok)
              && pats == old(pats) + (if rc == Ok then [Pat(skip == 2, x, value)] else [])
              && headNames == old(headNames) + (if rc == Ok then {x} else {})
              && exactNames == old(exactNames) + (if skip == 1 then {x} else {})
    {
      hide RevLabels, Split, KeyLabels;
      var x := Lower(key[skip..]);
      if skip == 1 {
        if x in exactNames {
          return Busy;
        }
        exactNames := exactNames + {x};
      }
      assert ValidX(x) by { assert key[skip..][0] == key[skip] == Following(key, after, skip - 1); }
      var lowered := key[..skip] + x;
      assert lowered[skip..] == x;
      var p := Convert(lowered, skip);
      if x in headNames {
        return Busy;
      }
      headNames, head := headNames + {x}, head + [Name(p, value)];
      pats := pats + [Pat(skip == 2, x, value)];
      rc := Ok;
    }
  }

  /** Counts stars and looks for empty labels. */
  method ScanKey(key: string, after: char) returns (bad: bool, stars: nat)
    ensures bad <==> Malformed(key, after)
    ensures !bad ==> (stars == 0 <==> '*' !in key)
  {
    stars := 0;
    var i := 0;
    ghost var at := 0;
    while i < |key|
      invariant i <= |key| && stars <= 1
      invariant stars == 0 ==> forall a :: 0 <= a < i ==> key[a] != '*'
      invariant stars == 1 ==> at < i && key[at] == '*' && forall a :: 0 <= a < i && a != at ==> key[a] != '*'
      invariant forall a :: 0 <= a < i ==> !(key[a] == '.' && Following(key, after, a) == '.')
    {
      if key[i] == '*' {
        stars := stars + 1;
        if stars > 1 {
          return true, stars;
        }
        at := i;
      }
      if key[i] == '.' && Following(key, after, i) == '.' {
        return true, stars;
      }
      i := i + 1;
    }
    bad := false;
  }

  ghost predicate IsKeyOf<V>(name: Name<V>, p: Pat<V>)
  {
    ValidX(p.x) && Split(name.key) == KeyLabels(p.star, p.x) && name.value == p.value
  }
}
