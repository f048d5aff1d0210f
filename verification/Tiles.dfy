/**
 * One line of the 2048 board: findTarget and slideArray of 2048.c slide and
 * merge it in place; the rule they follow is compact, then merge each tile at
 * most once.  Tiles are numbers without the 16-bit limit.
 */
module Tiles {

  // ---- the rule ------------------------------------------------------------------

  function Compact(line: seq<nat>): (tiles: seq<nat>)
    ensures |tiles| <= |line| && forall t :: t in tiles ==> t != 0 && t in line
  {
    if line == [] then [] else if line[0] == 0 then Compact(line[1..]) else [line[0]] + Compact(line[1..])
  }

  // Equal neighbours merge from the front, each tile at most once.
  function Merge(tiles: seq<nat>): (merged: seq<nat>)
    ensures |merged| <= |tiles|
    decreases |tiles|
  {
    if |tiles| < 2 then tiles
    else if tiles[0] == tiles[1] then [tiles[0] + tiles[1]] + Merge(tiles[2..])
    else [tiles[0]] + Merge(tiles[1..])
  }

  function Zeros(n: nat): (s: seq<nat>)
    ensures |s| == n
  {
    seq(n, _ => 0)
  }

  function Slide(line: seq<nat>): (r: seq<nat>)
    ensures |r| == |line|
  {
    var m := Merge(Compact(line));
    m + Zeros(|line| - |m|)
  }

  // The points a merge scores: the value of each merged tile.
  function Gain(tiles: seq<nat>): nat
    decreases |tiles|
  {
    if |tiles| < 2 then 0
    else if tiles[0] == tiles[1] then tiles[0] + tiles[1] + Gain(tiles[2..])
    else Gain(tiles[1..])
  }

  // ---- merging as tiles arrive ---------------------------------------------------------

  // The tiles that are final, the one that may still merge, if any, and the points.
  datatype Pile = Pile(done: seq<nat>, open: seq<nat>, points: nat)
  {
    function Tiles(): seq<nat>
    {
      done + open
    }
  }

  function Push(p: Pile, v: nat): Pile
  {
    if p.open == [v] then Pile(p.done + [v + v], [], p.points + v + v)
    else Pile(p.done + p.open, [v], p.points)
  }

  function PushAll(p: Pile, tiles: seq<nat>): Pile
    decreases |tiles|
  {
    if tiles == [] then p else PushAll(Push(p, tiles[0]), tiles[1..])
  }

  // The open tile goes through the rule together with what arrives.
  lemma {:induction false} PushMerges(p: Pile, rest: seq<nat>)
    requires |p.open| <= 1
    ensures var r := PushAll(p, rest);
      r.Tiles() == p.done + Merge(p.open + rest) && r.points == p.points + Gain(p.open + rest)
    decreases |rest|
  {
    if rest == [] {
      assert p.open + rest == p.open;
    } else {
      var q := Push(p, rest[0]);
      PushMerges(q, rest[1..]);
      MergeArrival(p, rest);
    }
  }

  lemma MergeArrival(p: Pile, rest: seq<nat>)
    requires |p.open| <= 1 && rest != []
    ensures var q := Push(p, rest[0]);
      && q.done + Merge(q.open + rest[1..]) == p.done + Merge(p.open + rest)
      && q.points + Gain(q.open + rest[1..]) == p.points + Gain(p.open + rest)
  {
    hide Merge, Gain, Push;
    if p.open == [rest[0]] {
      ArrivalMerges(p, rest);
    } else if p.open == [] {
      ArrivalFirst(p, rest);
    } else {
      ArrivalNew(p, rest);
    }
  }

  lemma ArrivalMerges(p: Pile, rest: seq<nat>)
    requires rest != [] && p.open == [rest[0]]
    ensures var q := Push(p, rest[0]);
      && q.done + Merge(q.open + rest[1..]) == p.done + Merge(p.open + rest)
      && q.points + Gain(q.open + rest[1..]) == p.points + Gain(p.open + rest)
  {
    hide Merge, Gain;
    var v, more := rest[0], rest[1..];
    assert p.open + rest == [v, v] + more;
    MergeEqual(v, more);
    assert [] + more == more;
    Assoc(p.done, [v + v], Merge(more));
  }

  lemma ArrivalFirst(p: Pile, rest: seq<nat>)
    requires rest != [] && p.open == []
    ensures var q := Push(p, rest[0]);
      && q.done + Merge(q.open + rest[1..]) == p.done + Merge(p.open + rest)
      && q.points + Gain(q.open + rest[1..]) == p.points + Gain(p.open + rest)
  {
    hide Merge, Gain;
    assert [rest[0]] + rest[1..] == rest && [] + rest == rest && p.done + [] == p.done;
  }

  lemma ArrivalNew(p: Pile, rest: seq<nat>)
    requires rest != [] && |p.open| == 1 && p.open[0] != rest[0]
    ensures var q := Push(p, rest[0]);
      && q.done + Merge(q.open + rest[1..]) == p.done + Merge(p.open + rest)
      && q.points + Gain(q.open + rest[1..]) == p.points + Gain(p.open + rest)
  {
    hide Merge, Gain;
    var o := p.open[0];
    assert p.open == [o] && [rest[0]] + rest[1..] == rest;
    MergeUnequal(o, rest);
    Assoc(p.done, [o], Merge(rest));
  }

  lemma Assoc(a: seq<nat>, b: seq<nat>, c: seq<nat>)
    ensures (a + b) + c == a + (b + c)
  {
  }

  lemma MergeEqual(v: nat, more: seq<nat>)
    ensures Merge([v, v] + more) == [v + v] + Merge(more) && Gain([v, v] + more) == v + v + Gain(more)
  {
    assert ([v, v] + more)[2..] == more;
  }

  lemma MergeUnequal(o: nat, rest: seq<nat>)
    requires rest != [] && rest[0] != o
    ensures Merge([o] + rest) == [o] + Merge(rest) && Gain([o] + rest) == Gain(rest)
  {
    assert ([o] + rest)[1..] == rest;
  }

  const EMPTY := Pile([], [], 0)

  lemma PushIsMerge(tiles: seq<nat>)
    ensures PushAll(EMPTY, tiles).Tiles() == Merge(tiles) && PushAll(EMPTY, tiles).points == Gain(tiles)
  {
    PushMerges(EMPTY, tiles);
    assert [] + tiles == tiles && [] + Merge(tiles) == Merge(tiles);
  }

  // ---- the line in place -----------------------------------------------------------------

  // The line holds these tiles, then zeros up to x, then what it held before.
  ghost predicate Shape(now: seq<nat>, line: seq<nat>, x: nat, tiles: seq<nat>)
  {
    && |now| == |line| && |tiles| <= x <= |line|
    && (forall i :: 0 <= i < |tiles| ==> now[i] == tiles[i] && tiles[i] != 0)
    && (forall i :: |tiles| <= i < x ==> now[i] == 0)
    && (forall i :: x <= i < |line| ==> now[i] == line[i])
  }

  // What slideArray keeps at position x: stop is behind the last merger.
  ghost predicate Slid(now: seq<nat>, line: seq<nat>, x: nat, stop: nat, p: Pile)
  {
    && |p.open| <= 1 && Shape(now, line, x, p.Tiles())
    && p == PushAll(EMPTY, Compact(line[..x]))
    && stop <= |p.done| && (p.open == [] ==> stop == |p.done| && (x > 0 ==> |p.done| < x))
  }

  // Where tile x belongs: behind the last tile, or on it if the two may merge.
  function Target(p: Pile, v: nat): nat
  {
    if p.open == [v] then |p.done| else |p.Tiles()|
  }

  // The search of findTarget below position t.
  function Found(a: seq<nat>, x: nat, stop: nat, t: nat): nat
    requires t <= x < |a|
  {
    if t == 0 then x
    else if a[t - 1] != 0 then if a[t - 1] == a[x] then t - 1 else t
    else if t - 1 == stop then t - 1
    else Found(a, x, stop, t - 1)
  }

  lemma {:induction false} FoundIsTarget(now: seq<nat>, line: seq<nat>, x: nat, stop: nat, p: Pile, t: nat)
    requires x < |now| && Slid(now, line, x, stop, p) && now[x] != 0
    requires |p.Tiles()| <= t <= x && (p.open == [] && x > 0 ==> |p.done| < t)
    ensures Found(now, x, stop, t) == Target(p, now[x])
  {
    hide PushAll, Compact;
    if t > |p.Tiles()| {
      assert now[t - 1] == 0;
      if t - 1 != stop {
        FoundIsTarget(now, line, x, stop, p, t - 1);
      }
    } else if t > 0 {
      assert now[t - 1] == p.Tiles()[t - 1];
    }
  }

  lemma {:induction false} PushLast(p: Pile, tiles: seq<nat>, v: nat)
    ensures PushAll(p, tiles + [v]) == Push(PushAll(p, tiles), v)
    decreases |tiles|
  {
    if tiles == [] {
      assert tiles + [v] == [v];
    } else {
      assert (tiles + [v])[1..] == tiles[1..] + [v];
      PushLast(Push(p, tiles[0]), tiles[1..], v);
    }
  }

  lemma {:induction false} CompactLast(line: seq<nat>, v: nat)
    ensures Compact(line + [v]) == if v == 0 then Compact(line) else Compact(line) + [v]
  {
    if line == [] {
      assert line + [v] == [v];
    } else {
      assert (line + [v])[1..] == line[1..] + [v];
      CompactLast(line[1..], v);
    }
  }

  lemma PiledNext(line: seq<nat>, x: nat)
    requires x < |line|
    ensures var p := PushAll(EMPTY, Compact(line[..x]));
      PushAll(EMPTY, Compact(line[..x + 1])) == if line[x] == 0 then p else Push(p, line[x])
  {
    assert line[..x + 1] == line[..x] + [line[x]];
    CompactLast(line[..x], line[x]);
    PushLast(EMPTY, Compact(line[..x]), line[x]);
  }

  // The line after tile x has gone to t.
  function Moved(now: seq<nat>, x: nat, t: nat): (r: seq<nat>)
    requires t <= x < |now|
    ensures |r| == |now|
  {
    if t == x then now else now[t := now[t] + now[x]][x := 0]
  }

  // Tile x goes to its target.
  lemma SlidNext(now: seq<nat>, line: seq<nat>, x: nat, stop: nat, p: Pile)
    requires x < |now| && Slid(now, line, x, stop, p) && now[x] != 0
    ensures var t := Target(p, now[x]);
      && t <= x && (p.open == [now[x]] ==> t < x && now[t] == now[x]) && (p.open != [now[x]] && t < x ==> now[t] == 0)
      && Slid(Moved(now, x, t), line, x + 1, if p.open == [now[x]] then t + 1 else stop, Push(p, now[x]))
  {
    hide PushAll, Compact;
    PiledNext(line, x);
    if p.open == [now[x]] {
      ShapeMerges(now, line, x, p.done, now[x]);
    } else {
      ShapeMoves(now, line, x, p.Tiles());
      assert p.done + p.open == p.Tiles();
    }
  }

  lemma ShapeMerges(now: seq<nat>, line: seq<nat>, x: nat, done: seq<nat>, v: nat)
    requires x < |now| && Shape(now, line, x, done + [v]) && now[x] == v != 0
    ensures Shape(Moved(now, x, |done|), line, x + 1, done + [v + v])
  {
    assert forall i :: 0 <= i < |done| ==> (done + [v])[i] == done[i] && (done + [v + v])[i] == done[i];
  }

  lemma ShapeMoves(now: seq<nat>, line: seq<nat>, x: nat, tiles: seq<nat>)
    requires x < |now| && Shape(now, line, x, tiles) && now[x] != 0
    ensures Shape(Moved(now, x, |tiles|), line, x + 1, tiles + [now[x]])
  {
  }

  lemma SlidZero(now: seq<nat>, line: seq<nat>, x: nat, stop: nat, p: Pile)
    requires x < |now| && Slid(now, line, x, stop, p) && now[x] == 0
    ensures Slid(now, line, x + 1, stop, p)
  {
    hide PushAll, Compact;
    PiledNext(line, x);
  }

  // ---- what the whole line becomes --------------------------------------------------------

  lemma SlidWhole(now: seq<nat>, line: seq<nat>, stop: nat, p: Pile)
    requires Slid(now, line, |line|, stop, p)
    ensures now == Slide(line) && p.points == Gain(Compact(line))
  {
    hide PushAll, Compact, Merge, Gain;
    assert line[..|line|] == line;
    PushIsMerge(Compact(line));
  }

  // What later tiles can still do to a pile: double its open tile.
  lemma {:induction false} PileStays(p: Pile, rest: seq<nat>)
    requires |p.open| <= 1
    ensures var r := PushAll(p, rest).Tiles();
      && |r| >= |p.Tiles()| && r[..|p.done|] == p.done
      && (p.open != [] ==> r[|p.done|] == p.open[0] || r[|p.done|] == 2 * p.open[0])
    decreases |rest|
  {
    if rest != [] {
      var q := Push(p, rest[0]);
      PileStays(q, rest[1..]);
      var r := PushAll(q, rest[1..]).Tiles();
      assert p.done == q.done[..|p.done|] && r[..|p.done|] == r[..|q.done|][..|p.done|];
      if |q.done| > |p.done| {
        assert r[|p.done|] == r[..|q.done|][|p.done|];
      }
    }
  }

  lemma CompactAppend(a: seq<nat>, b: seq<nat>)
    ensures Compact(a + b) == Compact(a) + Compact(b)
  {
    if a == [] {
      assert a + b == b;
    } else {
      assert (a + b)[1..] == a[1..] + b;
    }
  }

  lemma {:induction false} PushAllAppend(p: Pile, a: seq<nat>, b: seq<nat>)
    ensures PushAll(p, a + b) == PushAll(PushAll(p, a), b)
    decreases |a|
  {
    if a == [] {
      assert a + b == b;
    } else {
      assert (a + b)[1..] == a[1..] + b;
      PushAllAppend(Push(p, a[0]), a[1..], b);
    }
  }

  // The pile at x is still recognisable in the slid line.
  lemma PileInSlide(line: seq<nat>, x: nat, p: Pile)
    requires x <= |line| && p == PushAll(EMPTY, Compact(line[..x])) && |p.open| <= 1
    ensures |Slide(line)| == |line|
    ensures forall i :: 0 <= i < |p.done| && i < |line| ==> Slide(line)[i] == p.done[i]
    ensures p.open != [] && |p.done| < |line| ==>
      Slide(line)[|p.done|] == p.open[0] || Slide(line)[|p.done|] == 2 * p.open[0]
  {
    hide PushAll, Compact, Merge;
    assert line == line[..x] + line[x..];
    CompactAppend(line[..x], line[x..]);
    PushAllAppend(EMPTY, Compact(line[..x]), Compact(line[x..]));
    PileStays(p, Compact(line[x..]));
    PushIsMerge(Compact(line));
    var r := PushAll(p, Compact(line[x..])).Tiles();
    assert forall i :: 0 <= i < |p.done| ==> r[i] == r[..|p.done|][i];
  }

  // The first tile that moves shows that the slid line is another.
  lemma FirstMove(line: seq<nat>, x: nat, stop: nat, p: Pile)
    requires x < |line| && Slid(line, line, x, stop, p) && line[x] != 0 && Target(p, line[x]) != x
    ensures Slide(line) != line
  {
    hide PushAll, Compact, Slide;
    SlidNext(line, line, x, stop, p);
    PiledNext(line, x);
    PileInSlide(line, x + 1, Push(p, line[x]));
  }

  // ---- lines that do not move ---------------------------------------------------------------

  // No gap in front of a tile and no equal neighbours.
  ghost predicate Fixed(line: seq<nat>)
  {
    forall i :: 0 <= i && i + 1 < |line| ==> if line[i] == 0 then line[i + 1] == 0 else line[i] != line[i + 1]
  }

  lemma {:induction false} FixedCompact(line: seq<nat>)
    requires Fixed(line)
    ensures var c := Compact(line);
      |c| <= |line| && line == c + Zeros(|line| - |c|)
  {
    if line != [] {
      var c := Compact(line);
      if line[0] == 0 {
        AllZeros(line);
      } else {
        FixedTail(line);
        FixedCompact(line[1..]);
        assert line == [line[0]] + line[1..];
      }
    }
  }

  lemma FixedTail(line: seq<nat>)
    requires Fixed(line) && line != []
    ensures Fixed(line[1..])
  {
    forall i | 0 <= i && i + 1 < |line[1..]|
      ensures if line[1..][i] == 0 then line[1..][i + 1] == 0 else line[1..][i] != line[1..][i + 1]
    {
      assert line[1..][i] == line[i + 1] && line[1..][i + 1] == line[i + 2];
    }
  }

  lemma {:induction false} AllZeros(line: seq<nat>)
    requires Fixed(line) && (line != [] ==> line[0] == 0)
    ensures line == Zeros(|line|) && Compact(line) == []
  {
    if line != [] {
      FixedTail(line);
      if |line| > 1 {
        assert line[0 + 1] == 0;
      }
      AllZeros(line[1..]);
      assert line == [line[0]] + line[1..];
    }
  }

  lemma {:induction false} FixedMerge(tiles: seq<nat>)
    requires forall i :: 0 <= i && i + 1 < |tiles| ==> tiles[i] != tiles[i + 1]
    ensures Merge(tiles) == tiles
    decreases |tiles|
  {
    if |tiles| >= 2 {
      assert tiles[0] != tiles[0 + 1];
      var t := tiles[1..];
      forall i | 0 <= i && i + 1 < |t|
        ensures t[i] != t[i + 1]
      {
        assert t[i] == tiles[i + 1] && t[i + 1] == tiles[(i + 1) + 1];
      }
      FixedMerge(t);
      assert tiles == [tiles[0]] + t;
    }
  }

  // A line stays as it is exactly when it has no gap and no pair.
  lemma SlideFixed(line: seq<nat>)
    ensures Slide(line) == line <==> Fixed(line)
  {
    if Fixed(line) {
      FixedCompact(line);
      var c := Compact(line);
      forall i | 0 <= i && i + 1 < |c|
        ensures c[i] != c[i + 1]
      {
        assert c[i] == line[i] && c[i + 1] == line[i + 1] && c[i] in c;
      }
      FixedMerge(c);
    } else {
      var i :| 0 <= i && i + 1 < |line| && !(if line[i] == 0 then line[i + 1] == 0 else line[i] != line[i + 1]);
      NotFixed(line, i);
    }
  }

  // A gap before a tile, or a pair, does not survive.
  lemma NotFixed(line: seq<nat>, i: nat)
    requires i + 1 < |line| && ((line[i] == 0 && line[i + 1] != 0) || (line[i] != 0 && line[i] == line[i + 1]))
    ensures Slide(line) != line
  {
    var c := Compact(line);
    var m := Merge(c);
    MergeNonzero(c);
    CompactPadded(m, |line| - |m|);
    if line == m + Zeros(|line| - |m|) {
      assert c == m;
      if i + 1 < |m| {
        assert m[i] in m;
        MergeShorter(c, i);
      }
    }
  }

  lemma {:induction false} MergeNonzero(tiles: seq<nat>)
    requires forall t :: t in tiles ==> t != 0
    ensures forall t :: t in Merge(tiles) ==> t != 0
    decreases |tiles|
  {
    if |tiles| >= 2 {
      var rest := if tiles[0] == tiles[1] then tiles[2..] else tiles[1..];
      assert tiles[0] in tiles && forall t :: t in rest ==> t in tiles;
      MergeNonzero(rest);
    }
  }

  lemma {:induction false} CompactPadded(tiles: seq<nat>, n: nat)
    requires forall t :: t in tiles ==> t != 0
    ensures Compact(tiles + Zeros(n)) == tiles
    decreases |tiles| + n
  {
    var line := tiles + Zeros(n);
    if tiles != [] {
      assert tiles[0] in tiles && line[1..] == tiles[1..] + Zeros(n);
      assert forall t :: t in tiles[1..] ==> t in tiles;
      CompactPadded(tiles[1..], n);
    } else if n > 0 {
      assert line[1..] == [] + Zeros(n - 1);
      CompactPadded([], n - 1);
    }
  }

  // A pair makes the merged tiles fewer.
  lemma {:induction false} MergeShorter(tiles: seq<nat>, i: nat)
    requires i + 1 < |tiles| && tiles[i] == tiles[i + 1]
    ensures |Merge(tiles)| < |tiles|
    decreases |tiles|
  {
    if tiles[0] != tiles[1] {
      MergeShorter(tiles[1..], i - 1);
    }
  }
}
