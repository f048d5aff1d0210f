/** Sorting wildcard keys with ngx_dns_strcmp brings them into the order that
    building the nested hash relies on. */
module NgxDns {
  import opened NgxWildcard
  import opened NgxNames

  function CodeOf(c: char): (n: int) { LowerChar(c) as int }

  function Rank(n: int): (r: int) { if n == '.' as int then ' ' as int else n }

  /** ngx_dns_strcmp on zero-terminated strings. */
  function DnsCmp(a: string, b: string): (n: int)
    decreases |a|
  {
    var c1, c2 := if a == [] then 0 else CodeOf(a[0]), if b == [] then 0 else CodeOf(b[0]);
    if c1 == c2 then (if a == [] || b == [] then 0 else DnsCmp(a[1..], b[1..]))
    else Rank(c1) - Rank(c2)
  }

  /** Keys as they are stored: in lower case and zero-terminated. */
  predicate Written(s: string) { forall i :: 0 <= i < |s| ==> s[i] != '\0' && !('A' <= s[i] <= 'Z') }

  /** No character sorts below the dot, or together with it. */
  predicate Clean(s: string) { Written(s) && forall i :: 0 <= i < |s| ==> s[i] > ' ' }

  /** Length of the common prefix. */
  function Common(a: string, b: string): (n: nat)
    ensures n <= |a| && n <= |b| && a[..n] == b[..n]
    ensures n < |a| && n < |b| ==> a[n] != b[n]
  {
    if a == [] || b == [] || a[0] != b[0] then 0
    else
      var n := Common(a[1..], b[1..]);
      assert a[..n + 1] == [a[0]] + a[1..][..n] && b[..n + 1] == [b[0]] + b[1..][..n];
      n + 1
  }

  lemma CommonIs(a: string, b: string, n: nat)
    requires n <= |a| && n <= |b| && a[..n] == b[..n] && (n < |a| && n < |b| ==> a[n] != b[n])
    ensures Common(a, b) == n
  {
    var m := Common(a, b);
    assert forall k :: 0 <= k < n ==> a[k] == a[..n][k] && b[k] == b[..n][k];
    assert forall k :: 0 <= k < m ==> a[k] == a[..m][k] && b[k] == b[..m][k];
  }

  /** The comparison is decided at the first difference. */
  lemma {:induction false} CmpAt(a: string, b: string)
    requires Clean(a) && Clean(b)
    ensures var n := Common(a, b);
            DnsCmp(a, b) <= 0 <==> n == |a| || (n < |b| && Rank(a[n] as int) < Rank(b[n] as int))
  {
    if a != [] && b != [] && a[0] == b[0] {
      assert Clean(a[1..]) && Clean(b[1..]);
      CmpAt(a[1..], b[1..]);
    }
  }

  /** The key is j or goes on behind j with a dot. */
  predicate Under(key: string, j: string)
  {
    j <= key && (|key| > |j| ==> key[|j|] == '.')
  }

  /** Keys under the same labels are adjacent in sorted order. */
  lemma Convex(j: string, s: string, t: string, u: string)
    requires Clean(s) && Clean(t) && Clean(u) && Under(s, j) && Under(u, j)
    requires DnsCmp(s, t) <= 0 && DnsCmp(t, u) <= 0
    ensures Under(t, j)
  {
    hide DnsCmp, Common;
    CmpAt(s, t);
    CmpAt(t, u);
    var q := Common(j, t);
    if q < |j| {
      assert s[..q] == s[..|j|][..q] == j[..q] && u[..q] == u[..|j|][..q] == j[..q];
      assert s[q] == s[..|j|][q] && u[q] == u[..|j|][q];
      CommonIs(s, t, q);
      CommonIs(t, u, q);
      assert false;
    }
    assert j <= t by { assert j[..q] == j; }
    if |t| > |j| && t[|j|] != '.' {
      assert u[..|j|] == j;
      CommonIs(t, u, |j|);
      assert false;
    }
  }

  lemma {:induction false} JoinSplit(s: string)
    ensures Join(Split(s)) == s
    decreases |s|
  {
    hide Split, DotAt;
    SplitOnce(s);
    var n := DotAt(s);
    if n < |s| {
      JoinSplit(s[n + 1..]);
      assert Split(s)[1..] == Split(s[n + 1..]);
      assert s == s[..n] + "." + s[n + 1..];
    } else {
      assert s[..n] == s;
    }
  }

  lemma {:induction false} SplitAppend(a: string, b: string)
    ensures Split(a + "." + b) == Split(a) + Split(b)
    decreases |a|
  {
    hide Split, DotAt;
    var s, n := a + "." + b, DotAt(a);
    assert s[..n] == a[..n];
    DotAtIs(s, n);
    SplitOnce(s);
    SplitOnce(a);
    if n < |a| {
      assert s[n + 1..] == a[n + 1..] + "." + b;
      SplitAppend(a[n + 1..], b);
    } else {
      assert s[n + 1..] == b;
    }
  }

  lemma SplitOnce(s: string)
    ensures Split(s) == [s[..DotAt(s)]] + if DotAt(s) == |s| then [] else Split(s[DotAt(s) + 1..])
  {
    hide DotAt;
  }

  lemma {:induction false} SplitNoDots(s: string)
    ensures forall i :: 0 <= i < |Split(s)| ==> '.' !in Split(s)[i]
    decreases |s|
  {
    if DotAt(s) < |s| { SplitNoDots(s[DotAt(s) + 1..]); }
  }

  /** Sharing the first p labels means lying under the same string. */
  lemma SharesUnder(a: string, b: string, p: nat)
    requires 1 <= p <= |Split(a)|
    ensures Under(a, Join(Split(a)[..p]))
    ensures Shares(Split(a), Split(b), p) <==> Under(b, Join(Split(a)[..p]))
  {
    hide Split, Join;
    var ls := Split(a)[..p];
    var j := Join(ls);
    SplitNoDots(a);
    SplitJoin(ls);
    HeadUnder(a, p);
    if Shares(Split(a), Split(b), p) { HeadUnder(b, p); }
    if Under(b, j) {
      if b != j {
        assert b == j + "." + b[|j| + 1..];
        SplitAppend(j, b[|j| + 1..]);
      }
      assert Split(b)[..p] == ls;
    }
  }

  lemma HeadUnder(a: string, p: nat)
    requires 1 <= p <= |Split(a)|
    ensures Under(a, Join(Split(a)[..p]))
    ensures p < |Split(a)| ==> a == Join(Split(a)[..p]) + "." + Join(Split(a)[p..])
  {
    hide Split, Join;
    JoinSplit(a);
    if p < |Split(a)| {
      assert Split(a) == Split(a)[..p] + Split(a)[p..];
      JoinAppend(Split(a)[..p], Split(a)[p..]);
    } else {
      assert Split(a)[..p] == Split(a);
    }
  }

  ghost predicate Sorted<V>(names: seq<Name<V>>)
  {
    forall i, j :: 0 <= i < j < |names| ==> DnsCmp(names[i].key, names[j].key) <= 0
  }

  /** The names are converted patterns, all different. */
  ghost predicate Converted<V>(names: seq<Name<V>>, pats: seq<Pat<V>>)
  {
    && |names| == |pats|
    && (forall i :: 0 <= i < |names| ==> IsKeyOf(names[i], pats[i]) && Written(names[i].key))
    && (forall i, j :: 0 <= i < j < |pats| ==> pats[i].x != pats[j].x)
  }

  ghost predicate AllClean<V>(names: seq<Name<V>>)
  {
    forall i :: 0 <= i < |names| ==> Clean(names[i].key)
  }

  lemma {:induction false} ShorterLess(a: string, b: string)
    requires Written(a) && b <= a && |b| < |a|
    ensures DnsCmp(a, b) > 0
    decreases |b|
  {
    if b != [] {
      assert a[0] == b[0];
      ShorterLess(a[1..], b[1..]);
    }
  }

  /** A pattern sorts before its extensions. */
  lemma ShorterFirst<V>(a: Name<V>, p: Pat<V>, b: Name<V>, q: Pat<V>)
    requires IsKeyOf(a, p) && IsKeyOf(b, q) && p.x != q.x && Written(a.key)
    requires DnsCmp(a.key, b.key) <= 0
    ensures !(Pattern(Split(b.key)) <= Pattern(Split(a.key)))
  {
    hide RevLabels, Split, Join, DnsCmp;
    KeyPattern(p.star, p.x);
    KeyPattern(q.star, q.x);
    var pa, pb := RevLabels(p.x), RevLabels(q.x);
    if pb <= pa {
      if pb == pa {
        PrefixIsSuffix(q.x, p.x);
        assert false;
      }
      Extension(a, p, b, q);
      ShorterLess(a.key, b.key);
      assert false;
    }
  }

  lemma Extension<V>(a: Name<V>, p: Pat<V>, b: Name<V>, q: Pat<V>)
    requires IsKeyOf(a, p) && IsKeyOf(b, q) && RevLabels(q.x) < RevLabels(p.x)
    ensures b.key <= a.key && |b.key| < |a.key|
  {
    hide RevLabels, Split;
    var n := |RevLabels(q.x)|;
    var ka, kb := Split(a.key), Split(b.key);
    HeadUnder(a.key, n);
    JoinSplit(b.key);
    assert ka[..n] == RevLabels(p.x)[..n] == RevLabels(q.x);
    LastLabel(p.x);
    assert ka[n..][0] == RevLabels(p.x)[n];
    assert Join(ka[n..]) != "";
    if q.star {
      JoinAppend(RevLabels(q.x), [""]);
    } else {
      assert kb == RevLabels(q.x);
    }
  }

  lemma KeyValid(star: bool, x: string)
    requires ValidX(x)
    ensures ValidLabels(KeyLabels(star, x))
  {
    hide RevLabels;
    LastLabel(x);
    assert !star ==> KeyLabels(star, x) == RevLabels(x);
  }

  lemma SortedIsGraded<V>(names: seq<Name<V>>, pats: seq<Pat<V>>)
    requires Converted(names, pats) && Sorted(names)
    ensures Graded(LabelKeys(names))
  {
    hide Split, Join, RevLabels, DnsCmp, Written;
    var keys := LabelKeys(names);
    forall i | 0 <= i < |keys| ensures ValidLabels(keys[i].labels) {
      KeyValid(pats[i].star, pats[i].x);
    }
    forall i, j | 0 <= i < j < |keys| ensures !(Pattern(keys[j].labels) <= Pattern(keys[i].labels)) {
      ShorterFirst(names[i], pats[i], names[j], pats[j]);
    }
  }

  lemma PatternPrefix(a: Labels, b: Labels, p: nat)
    requires Shares(a, b, p) && |Pattern(b)| <= p <= |Pattern(a)|
    ensures Pattern(b) <= Pattern(a)
  {
    var n := |Pattern(b)|;
    assert Pattern(b) == b[..n] && Pattern(a)[..n] == a[..n];
    assert b[..n] == b[..p][..n] && a[..n] == a[..p][..n];
  }

  lemma PatternShares(a: Labels, b: Labels, p: nat)
    requires Shares(a, b, p) && p <= |Pattern(a)| && !(Pattern(b) <= Pattern(a))
    ensures Shares(Pattern(a), Pattern(b), p)
  {
    if |Pattern(b)| <= p {
      PatternPrefix(a, b, p);
    } else {
      assert Pattern(a)[..p] == a[..p] && Pattern(b)[..p] == b[..p];
    }
  }

  lemma SharesPattern(a: Labels, b: Labels, p: nat)
    requires Shares(Pattern(a), Pattern(b), p)
    ensures Shares(a, b, p)
  {
    assert Pattern(a)[..p] == a[..p] && Pattern(b)[..p] == b[..p];
  }

  /** Clean keys with the same first labels come together. */
  lemma CleanAdjacent<V>(names: seq<Name<V>>)
    requires Graded(LabelKeys(names)) && AllClean(names) && Sorted(names)
    ensures Adjacent(LabelKeys(names))
  {
    hide Split, Join, DnsCmp, Clean, Pattern;
    var keys := LabelKeys(names);
    forall i, j, k, p: nat | 0 <= i < j < k < |keys| && Alike(keys[i], keys[k], p) ensures Alike(keys[i], keys[j], p) {
      if p > 0 {
        SharesPattern(keys[i].labels, keys[k].labels, p);
        SharesUnder(names[i].key, names[k].key, p);
        SharesUnder(names[i].key, names[j].key, p);
        Convex(Join(keys[i].labels[..p]), names[i].key, names[j].key, names[k].key);
        PatternShares(keys[i].labels, keys[j].labels, p);
      }
    }
  }

  lemma SortedIsOrdered<V>(names: seq<Name<V>>, pats: seq<Pat<V>>)
    requires Converted(names, pats) && AllClean(names) && Sorted(names)
    ensures Ordered(LabelKeys(names))
  {
    hide Graded, Adjacent, Sorted, Clean, Converted;
    SortedIsGraded(names, pats);
    CleanAdjacent(names);
  }

  /** Wildcards in any order, sorted with ngx_dns_strcmp and built into the
      nested hash: where keys with the same first labels come together, lookup
      finds the longest one that matches. */
  lemma SortedLookup<V>(names: seq<Name<V>>, pats: seq<Pat<V>>, name: string)
    requires Converted(names, pats) && Sorted(names) && Adjacent(LabelKeys(names))
    ensures IsLongest(pats, name, FindHead(Build(LabelKeys(names)), name))
  {
    hide Split, RevLabels, DnsCmp, Written, Graded, Adjacent, FindHead, Build, IsLongest, KeyLabels;
    var keys := LabelKeys(names);
    SortedIsGraded(names, pats);
    AllKeys(names, pats);
    HeadLookup(pats, keys, name);
  }

  lemma AllKeys<V>(names: seq<Name<V>>, pats: seq<Pat<V>>)
    requires Converted(names, pats)
    ensures KeysOf(pats, LabelKeys(names))
  {
    hide Split, RevLabels, Written, KeyLabels, ValidX;
    var keys := LabelKeys(names);
    forall i | 0 <= i < |pats| ensures Key(KeyLabels(pats[i].star, pats[i].x), pats[i].value) in keys {
      assert keys[i] == Key(KeyLabels(pats[i].star, pats[i].x), pats[i].value);
    }
    assert forall k :: 0 <= k < |keys| ==> From(pats, keys[k]);
  }
}
