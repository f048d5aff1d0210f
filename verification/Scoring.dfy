/**
 * What 2048 moves keep: the sum of the tiles, and the tie between tiles and
 * score.  A tile 2^k is worth (k - 1) * 2^k points, the points of all the
 * mergers it took to make it out of twos.
 */
module Scoring {
  import opened Tiles
  import opened Board

  datatype Weight = Value | Points

  // The points in a tile: twice those of its halves, and its own merger.
  function PointsIn(v: nat): nat
  {
    if v <= 2 then 0 else 2 * PointsIn(v / 2) + v
  }

  function Of(w: Weight, v: nat): nat
  {
    if w.Value? then v else PointsIn(v)
  }

  function LineSum(w: Weight, l: seq<nat>): nat
  {
    if l == [] then 0 else LineSum(w, l[..|l| - 1]) + Of(w, l[|l| - 1])
  }

  function GridSum(w: Weight, g: Grid): nat
  {
    if g == [] then 0 else GridSum(w, g[..|g| - 1]) + LineSum(w, g[|g| - 1])
  }

  // ---- tiles are powers of two ------------------------------------------------------

  predicate IsTile(v: nat)
  {
    v == 2 || (v > 2 && v % 2 == 0 && IsTile(v / 2))
  }

  function Power2(k: nat): nat
  {
    if k == 0 then 1 else 2 * Power2(k - 1)
  }

  // A tile is a power of two, from two on, and its points are (k - 1) * 2^k.
  lemma {:induction false} TilePoints(v: nat) returns (k: nat)
    requires IsTile(v)
    ensures k >= 1 && v == Power2(k) && PointsIn(v) == (k - 1) * v
  {
    if v == 2 {
      k := 1;
      assert Power2(1) == 2 * Power2(0);
    } else {
      var j := TilePoints(v / 2);
      k := j + 1;
      assert PointsIn(v) == 2 * ((j - 1) * (v / 2)) + v;
      assert 2 * ((j - 1) * (v / 2)) == (j - 1) * v;
    }
  }

  lemma Doubled(v: nat)
    requires v >= 2
    ensures Of(Value, v + v) == 2 * Of(Value, v) && Of(Points, v + v) == 2 * Of(Points, v) + v + v
    ensures IsTile(v) ==> IsTile(v + v)
  {
    assert (v + v) / 2 == v;
  }

  // ---- one line ---------------------------------------------------------------------

  lemma {:induction false} SumAppend(w: Weight, a: seq<nat>, b: seq<nat>)
    ensures LineSum(w, a + b) == LineSum(w, a) + LineSum(w, b)
    decreases |b|
  {
    if b == [] {
      assert a + b == a;
    } else {
      var n := |b| - 1;
      assert (a + b)[..|a + b| - 1] == a + b[..n] && (a + b)[|a + b| - 1] == b[n];
      SumAppend(w, a, b[..n]);
    }
  }

  lemma SumOne(w: Weight, v: nat)
    ensures LineSum(w, [v]) == Of(w, v)
  {
    assert [v][..0] == [];
  }

  lemma {:induction false} SumZeros(w: Weight, n: nat)
    ensures LineSum(w, Zeros(n)) == 0
  {
    if n > 0 {
      assert Zeros(n)[..n - 1] == Zeros(n - 1);
      SumZeros(w, n - 1);
    }
  }

  lemma {:induction false} SumCompact(w: Weight, l: seq<nat>)
    ensures LineSum(w, Compact(l)) == LineSum(w, l)
  {
    if l != [] {
      assert l == [l[0]] + l[1..];
      SumAppend(w, [l[0]], l[1..]);
      SumAppend(w, [l[0]], Compact(l[1..]));
      SumOne(w, l[0]);
      SumCompact(w, l[1..]);
    }
  }

  // Mergers add nothing to the sum, and to the points just what they score.
  lemma {:induction false} SumMerge(w: Weight, tiles: seq<nat>)
    requires forall i :: 0 <= i < |tiles| ==> tiles[i] >= 2
    ensures LineSum(w, Merge(tiles)) == LineSum(w, tiles) + if w.Points? then Gain(tiles) else 0
    decreases |tiles|
  {
    hide LineSum, Of;
    if |tiles| >= 2 {
      var v := tiles[0];
      if v == tiles[1] {
        assert tiles == [v] + ([v] + tiles[2..]);
        SumAppend(w, [v], [v] + tiles[2..]);
        SumAppend(w, [v], tiles[2..]);
        SumAppend(w, [v + v], Merge(tiles[2..]));
        SumOne(w, v);
        SumOne(w, v + v);
        Doubled(v);
        SumMerge(w, tiles[2..]);
      } else {
        assert tiles == [v] + tiles[1..];
        SumAppend(w, [v], tiles[1..]);
        SumAppend(w, [v], Merge(tiles[1..]));
        SumMerge(w, tiles[1..]);
      }
    }
  }

  ghost predicate TileLine(l: seq<nat>)
  {
    forall i :: 0 <= i < |l| ==> l[i] == 0 || IsTile(l[i])
  }

  lemma SumSlide(w: Weight, l: seq<nat>)
    requires TileLine(l)
    ensures LineSum(w, Slide(l)) == LineSum(w, l) + if w.Points? then Gain(Compact(l)) else 0
  {
    hide LineSum, Merge, Gain;
    var c := Compact(l);
    forall i | 0 <= i < |c|
      ensures c[i] >= 2
    {
      assert c[i] in c;
      var k :| 0 <= k < |l| && l[k] == c[i];
    }
    SumCompact(w, l);
    SumMerge(w, c);
    SumAppend(w, Merge(c), Zeros(|l| - |Merge(c)|));
    SumZeros(w, |l| - |Merge(c)|);
  }

  lemma {:induction false} MergeTiles(tiles: seq<nat>)
    requires forall i :: 0 <= i < |tiles| ==> IsTile(tiles[i])
    ensures forall i :: 0 <= i < |Merge(tiles)| ==> IsTile(Merge(tiles)[i])
    decreases |tiles|
  {
    hide IsTile;
    if |tiles| >= 2 {
      if tiles[0] == tiles[1] {
        TileDoubles(tiles[0]);
        MergeTiles(tiles[2..]);
      } else {
        MergeTiles(tiles[1..]);
      }
    }
  }

  lemma TileDoubles(v: nat)
    requires IsTile(v)
    ensures IsTile(v + v)
  {
    Doubled(v);
  }

  lemma SlideTiles(l: seq<nat>)
    requires TileLine(l)
    ensures TileLine(Slide(l))
  {
    hide IsTile;
    var c := Compact(l);
    forall i | 0 <= i < |c|
      ensures IsTile(c[i])
    {
      assert c[i] in c;
      var k :| 0 <= k < |l| && l[k] == c[i];
    }
    MergeTiles(c);
  }

  // ---- the whole board --------------------------------------------------------------

  // The cells at height y, one from each line.
  ghost function Level(g: Grid, y: nat): (l: seq<nat>)
    requires forall x :: 0 <= x < |g| ==> y < |g[x]|
    ensures |l| == |g| && forall x :: 0 <= x < |g| ==> l[x] == g[x][y]
  {
    seq(|g|, x requires 0 <= x < |g| => g[x][y])
  }

  // The first m cells of every line.
  ghost function Heads(g: Grid, m: nat): (h: Grid)
    requires forall x :: 0 <= x < |g| ==> m <= |g[x]|
    ensures |h| == |g| && forall x :: 0 <= x < |g| ==> h[x] == g[x][..m]
  {
    seq(|g|, x requires 0 <= x < |g| => g[x][..m])
  }

  lemma {:induction false} OneLevel(w: Weight, g: Grid, m: nat)
    requires forall x :: 0 <= x < |g| ==> m < |g[x]|
    ensures GridSum(w, Heads(g, m + 1)) == GridSum(w, Heads(g, m)) + LineSum(w, Level(g, m))
    decreases |g|
  {
    hide LineSum, Heads, Level;
    if g == [] {
      assert Heads(g, m + 1) == [] && Heads(g, m) == [] && Level(g, m) == [];
      LastCell(w, []);
    } else {
      var n := |g| - 1;
      var f := g[..n];
      OneLevel(w, f, m);
      assert Heads(g, m + 1)[..n] == Heads(f, m + 1) && Heads(g, m)[..n] == Heads(f, m);
      assert Level(g, m)[..n] == Level(f, m);
      LastCell(w, Level(g, m));
      LastCell(w, g[n][..m + 1]);
      assert g[n][..m + 1][..m] == g[n][..m];
    }
  }

  lemma LastCell(w: Weight, l: seq<nat>)
    ensures LineSum(w, l) == if l == [] then 0 else LineSum(w, l[..|l| - 1]) + Of(w, l[|l| - 1])
  {
  }

  ghost function LevelSum(w: Weight, g: Grid, m: nat): nat
    requires forall x :: 0 <= x < |g| ==> m <= |g[x]|
  {
    if m == 0 then 0 else LevelSum(w, g, m - 1) + LineSum(w, Level(g, m - 1))
  }

  // Summing level by level is summing line by line.
  lemma {:induction false} LevelsSum(w: Weight, g: Grid, m: nat)
    requires forall x :: 0 <= x < |g| ==> m <= |g[x]|
    ensures LevelSum(w, g, m) == GridSum(w, Heads(g, m))
    decreases m
  {
    hide LineSum;
    if m == 0 {
      EmptySum(w, Heads(g, 0));
    } else {
      LevelsSum(w, g, m - 1);
      OneLevel(w, g, m - 1);
    }
  }

  lemma {:induction false} EmptySum(w: Weight, g: Grid)
    requires forall x :: 0 <= x < |g| ==> g[x] == []
    ensures GridSum(w, g) == 0
  {
    if g != [] {
      EmptySum(w, g[..|g| - 1]);
    }
  }

  // The lines of a rotated board are the levels of the board, highest first.
  lemma {:induction false} RotatedFrom(w: Weight, g: Grid, k: nat)
    requires Square(g, |g|) && k <= |g|
    ensures GridSum(w, Rotated(g)[..k]) + LevelSum(w, g, |g| - k) == LevelSum(w, g, |g|)
    decreases k
  {
    hide LineSum;
    var r := Rotated(g);
    if k > 0 {
      RotatedFrom(w, g, k - 1);
      assert r[..k][..k - 1] == r[..k - 1] && r[..k][k - 1] == r[k - 1];
      assert r[k - 1] == Level(g, |g| - k);
    }
  }

  lemma SumRotated(w: Weight, g: Grid)
    requires Square(g, |g|)
    ensures GridSum(w, Rotated(g)) == GridSum(w, g)
  {
    hide LineSum;
    var n := |g|;
    RotatedFrom(w, g, n);
    LevelsSum(w, g, n);
    assert Rotated(g)[..n] == Rotated(g);
    forall x | 0 <= x < n
      ensures Heads(g, n)[x] == g[x]
    {
    }
    assert Heads(g, n) == g;
  }

  // What a move scores: the gains of all lines.
  ghost function UpGain(g: Grid): nat
  {
    if g == [] then 0 else UpGain(g[..|g| - 1]) + Gain(Compact(g[|g| - 1]))
  }

  ghost predicate TileGrid(g: Grid)
  {
    forall x :: 0 <= x < |g| ==> TileLine(g[x])
  }

  lemma {:induction false} SumUp(w: Weight, g: Grid)
    requires Square(g, |g|) && TileGrid(g)
    ensures GridSum(w, Up(g)) == GridSum(w, g) + if w.Points? then UpGain(g) else 0
  {
    SumUpTo(w, g, |g|);
    assert Up(g)[..|g|] == Up(g) && g[..|g|] == g;
  }

  lemma {:induction false} SumUpTo(w: Weight, g: Grid, k: nat)
    requires Square(g, |g|) && TileGrid(g) && k <= |g|
    ensures GridSum(w, Up(g)[..k]) == GridSum(w, g[..k]) + if w.Points? then UpGain(g[..k]) else 0
    decreases k
  {
    hide LineSum, Slide, Gain;
    if k > 0 {
      SumUpTo(w, g, k - 1);
      SumSlide(w, g[k - 1]);
      assert Up(g)[..k][..k - 1] == Up(g)[..k - 1] && g[..k][..k - 1] == g[..k - 1];
    }
  }

  lemma UpTiles(g: Grid)
    requires Square(g, |g|) && TileGrid(g)
    ensures TileGrid(Up(g))
  {
    hide TileLine;
    forall x | 0 <= x < |g|
      ensures TileLine(Up(g)[x])
    {
      SlideTiles(g[x]);
    }
  }

  lemma RotatedTiles(g: Grid)
    requires Square(g, |g|) && TileGrid(g)
    ensures TileGrid(Rotated(g))
  {
    hide IsTile;
    var n, r := |g|, Rotated(g);
    forall i, j | 0 <= i < n && 0 <= j < n
      ensures r[i][j] == 0 || IsTile(r[i][j])
    {
      assert TileLine(g[j]);
      assert r[i][j] == g[j][n - 1 - i];
    }
  }

  // A new tile in an empty cell adds its weight.
  lemma {:induction false} SumPlaced(w: Weight, g: Grid, x: nat, y: nat, v: nat)
    requires x < |g| && y < |g[x]| && g[x][y] == 0
    ensures GridSum(w, Placed(g, x, y, v)) == GridSum(w, g) + Of(w, v)
    decreases |g|
  {
    var n := |g| - 1;
    var h := Placed(g, x, y, v);
    if x < n {
      assert h[..n] == Placed(g[..n], x, y, v);
      SumPlaced(w, g[..n], x, y, v);
    } else {
      assert h[..n] == g[..n];
      LinePlaced(w, g[x], y, v);
    }
  }

  lemma {:induction false} LinePlaced(w: Weight, l: seq<nat>, y: nat, v: nat)
    requires y < |l| && l[y] == 0
    ensures LineSum(w, l[y := v]) == LineSum(w, l) + Of(w, v)
    decreases |l|
  {
    var n := |l| - 1;
    if y < n {
      assert l[y := v][..n] == l[..n][y := v];
      LinePlaced(w, l[..n], y, v);
    } else {
      assert l[y := v][..n] == l[..n];
    }
  }
}
