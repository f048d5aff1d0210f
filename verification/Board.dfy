/**
 * The 2048 board: what the four moves, which 2048.c makes from one slide and
 * rotations in place, do to a board of any size, and when the game has ended.
 */
module Board {
  import opened Tiles

  type Grid = seq<seq<nat>>

  ghost predicate Square(g: Grid, n: nat)
  {
    |g| == n && forall x :: 0 <= x < n ==> |g[x]| == n
  }

  // The board with v in cell (x, y).
  function Placed(g: Grid, x: nat, y: nat, v: nat): (r: Grid)
    requires x < |g| && y < |g[x]|
    ensures |r| == |g|
  {
    var l: seq<nat> := g[x][y := v];
    g[x := l]
  }

  // ---- the moves as 2048.c makes them -----------------------------------------------

  // rotateBoard.
  ghost function Rotated(g: Grid): (r: Grid)
    requires Square(g, |g|)
    ensures Square(r, |g|)
    ensures forall i, j :: 0 <= i < |g| && 0 <= j < |g| ==> r[i][j] == g[j][|g| - 1 - i]
  {
    var n := |g|;
    seq(n, i requires 0 <= i < n => seq(n, j requires 0 <= j < n => g[j][n - 1 - i]))
  }

  ghost function Up(g: Grid): (r: Grid)
    requires Square(g, |g|)
    ensures Square(r, |g|) && forall x :: 0 <= x < |g| ==> r[x] == Slide(g[x])
  {
    seq(|g|, x requires 0 <= x < |g| => Slide(g[x]))
  }

  ghost function Left(g: Grid): (r: Grid)
    requires Square(g, |g|)
    ensures Square(r, |g|)
  {
    Rotated(Rotated(Rotated(Up(Rotated(g)))))
  }

  ghost function Down(g: Grid): (r: Grid)
    requires Square(g, |g|)
    ensures Square(r, |g|)
  {
    Rotated(Rotated(Up(Rotated(Rotated(g)))))
  }

  ghost function Right(g: Grid): (r: Grid)
    requires Square(g, |g|)
    ensures Square(r, |g|)
  {
    Rotated(Up(Rotated(Rotated(Rotated(g)))))
  }

  // ---- the moves along their direction -------------------------------------------------

  // The line across the columns at height y, from the left.
  ghost function Across(g: Grid, y: nat): (l: seq<nat>)
    requires Square(g, |g|) && y < |g|
    ensures |l| == |g| && forall x :: 0 <= x < |g| ==> l[x] == g[x][y]
  {
    seq(|g|, x requires 0 <= x < |g| => g[x][y])
  }

  ghost function Reversed(l: seq<nat>): (r: seq<nat>)
    ensures |r| == |l| && forall i :: 0 <= i < |l| ==> r[i] == l[|l| - 1 - i]
  {
    seq(|l|, i requires 0 <= i < |l| => l[|l| - 1 - i])
  }

  lemma SameGrid(g: Grid, h: Grid)
    requires Square(g, |g|) && Square(h, |g|)
    requires forall i, j :: 0 <= i < |g| && 0 <= j < |g| ==> g[i][j] == h[i][j]
    ensures g == h
  {
    forall i | 0 <= i < |g|
      ensures g[i] == h[i]
    {
    }
  }

  // Four quarter turns are none.
  lemma FullTurn(g: Grid)
    requires Square(g, |g|)
    ensures Rotated(Rotated(Rotated(Rotated(g)))) == g
  {
    var r := Rotated(Rotated(Rotated(Rotated(g))));
    var n := |g|;
    forall i, j | 0 <= i < n && 0 <= j < n
      ensures r[i][j] == g[i][j]
    {
      assert r[i][j] == Rotated(Rotated(Rotated(g)))[j][n - 1 - i];
      assert Rotated(Rotated(Rotated(g)))[j][n - 1 - i] == Rotated(Rotated(g))[n - 1 - i][n - 1 - j];
      assert Rotated(Rotated(g))[n - 1 - i][n - 1 - j] == Rotated(g)[n - 1 - j][i];
    }
    SameGrid(r, g);
  }

  // A move to the left slides every line across.
  lemma LeftAcross(g: Grid, y: nat)
    requires Square(g, |g|) && y < |g|
    ensures Across(Left(g), y) == Slide(Across(g, y))
  {
    hide Slide;
    var n, r := |g|, Rotated(g);
    var u := Up(r);
    assert r[n - 1 - y] == Across(g, y);
    forall x | 0 <= x < n
      ensures Left(g)[x][y] == u[n - 1 - y][x]
    {
      assert Left(g)[x][y] == Rotated(Rotated(u))[y][n - 1 - x];
      assert Rotated(Rotated(u))[y][n - 1 - x] == Rotated(u)[n - 1 - x][n - 1 - y];
    }
    assert |Slide(r[n - 1 - y])| == n;
  }

  lemma DownReversed(g: Grid, x: nat)
    requires Square(g, |g|) && x < |g|
    ensures Reversed(Down(g)[x]) == Slide(Reversed(g[x]))
  {
    hide Slide;
    var n, h := |g|, Rotated(Rotated(g));
    var u := Up(h);
    forall j | 0 <= j < n
      ensures h[n - 1 - x][j] == Reversed(g[x])[j]
    {
      assert h[n - 1 - x][j] == Rotated(g)[j][x];
    }
    assert h[n - 1 - x] == Reversed(g[x]);
    forall j | 0 <= j < n
      ensures Reversed(Down(g)[x])[j] == u[n - 1 - x][j]
    {
      assert Down(g)[x][n - 1 - j] == Rotated(u)[n - 1 - j][n - 1 - x];
    }
  }

  lemma RightAcross(g: Grid, y: nat)
    requires Square(g, |g|) && y < |g|
    ensures Reversed(Across(Right(g), y)) == Slide(Reversed(Across(g, y)))
  {
    hide Slide;
    var n, h := |g|, Rotated(Rotated(Rotated(g)));
    var u := Up(h);
    forall j | 0 <= j < n
      ensures h[y][j] == Reversed(Across(g, y))[j]
    {
      assert h[y][j] == Rotated(Rotated(g))[j][n - 1 - y];
      assert Rotated(Rotated(g))[j][n - 1 - y] == Rotated(g)[n - 1 - y][n - 1 - j];
    }
    assert h[y] == Reversed(Across(g, y));
    forall j | 0 <= j < n
      ensures Reversed(Across(Right(g), y))[j] == u[y][j]
    {
      assert Right(g)[n - 1 - j][y] == u[y][j];
    }
  }

  // ---- boards that do not move ---------------------------------------------------------------

  ghost predicate Full(g: Grid)
  {
    forall x, y :: 0 <= x < |g| && 0 <= y < |g[x]| ==> g[x][y] != 0
  }

  ghost predicate HasTile(g: Grid)
  {
    exists x, y :: 0 <= x < |g| && 0 <= y < |g[x]| && g[x][y] != 0
  }

  ghost predicate Pairless(l: seq<nat>)
  {
    forall i :: 0 <= i && i + 1 < |l| ==> l[i] != l[i + 1]
  }

  // What gameEnded looks for.
  ghost predicate Ended(g: Grid)
    requires Square(g, |g|)
  {
    Full(g) && (forall x :: 0 <= x < |g| ==> Pairless(g[x])) && (forall y :: 0 <= y < |g| ==> Pairless(Across(g, y)))
  }

  ghost predicate NoMove(g: Grid)
    requires Square(g, |g|)
  {
    Up(g) == g && Left(g) == g && Down(g) == g && Right(g) == g
  }

  lemma ReversedTwice(l: seq<nat>)
    ensures Reversed(Reversed(l)) == l
  {
  }

  // A line that neither slide moves is empty or has neither gap nor pair.
  lemma BothWays(l: seq<nat>)
    ensures (Slide(l) == l && Slide(Reversed(l)) == Reversed(l)) <==> (l == Zeros(|l|) || (0 !in l && Pairless(l)))
  {
    hide Slide;
    SlideFixed(l);
    SlideFixed(Reversed(l));
    FixedBothWays(l);
  }

  lemma FixedBothWays(l: seq<nat>)
    ensures (Fixed(l) && Fixed(Reversed(l))) <==> (l == Zeros(|l|) || (0 !in l && Pairless(l)))
  {
    var r := Reversed(l);
    if Fixed(l) && Fixed(r) {
      if i: nat :| i < |l| && l[i] == 0 {
        ZeroAfter(l, i);
        ZeroAfter(r, |l| - 1 - i);
        assert forall k :: 0 <= k <= i ==> l[k] == r[|l| - 1 - k];
      } else {
        assert 0 !in l;
      }
    }
    if 0 !in l && Pairless(l) {
      forall i | 0 <= i && i + 1 < |r|
        ensures r[i] != r[i + 1]
      {
        var k := |l| - 2 - i;
        assert r[i] == l[k + 1] && r[i + 1] == l[k];
      }
      assert forall k :: 0 <= k < |l| ==> r[k] in l;
    }
  }

  lemma {:induction false} ZeroAfter(l: seq<nat>, i: nat)
    requires Fixed(l) && i < |l| && l[i] == 0
    ensures forall k :: i <= k < |l| ==> l[k] == 0
    decreases |l| - i
  {
    if i + 1 < |l| {
      ZeroAfter(l, i + 1);
    }
  }

  lemma SameLines(g: Grid, h: Grid)
    requires Square(g, |g|) && Square(h, |g|)
    ensures g == h <==> forall y :: 0 <= y < |g| ==> Across(g, y) == Across(h, y)
    ensures g == h <==> forall x :: 0 <= x < |g| ==> Reversed(g[x]) == Reversed(h[x])
    ensures g == h <==> forall y :: 0 <= y < |g| ==> Reversed(Across(g, y)) == Reversed(Across(h, y))
  {
    if forall y :: 0 <= y < |g| ==> Across(g, y) == Across(h, y) {
      forall i, j | 0 <= i < |g| && 0 <= j < |g|
        ensures g[i][j] == h[i][j]
      {
        assert Across(g, j)[i] == Across(h, j)[i];
      }
      SameGrid(g, h);
    }
    if forall x :: 0 <= x < |g| ==> Reversed(g[x]) == Reversed(h[x]) {
      forall x | 0 <= x < |g|
        ensures g[x] == h[x]
      {
        ReversedTwice(g[x]);
        ReversedTwice(h[x]);
      }
    }
    if forall y :: 0 <= y < |g| ==> Reversed(Across(g, y)) == Reversed(Across(h, y)) {
      forall y | 0 <= y < |g|
        ensures Across(g, y) == Across(h, y)
      {
        ReversedTwice(Across(g, y));
        ReversedTwice(Across(h, y));
      }
    }
  }

  // No move changes the board exactly when no line slides either way.
  ghost predicate StuckBothWays(l: seq<nat>)
  {
    Slide(l) == l && Slide(Reversed(l)) == Reversed(l)
  }

  lemma NoMoveLines(g: Grid)
    requires Square(g, |g|)
    ensures NoMove(g) <==> forall k :: 0 <= k < |g| ==> StuckBothWays(g[k]) && StuckBothWays(Across(g, k))
  {
    hide Slide, Left, Down, Right, Up, Across, Reversed;
    UpStays(g);
    LeftStays(g);
    DownStays(g);
    RightStays(g);
  }

  lemma UpStays(g: Grid)
    requires Square(g, |g|)
    ensures Up(g) == g <==> forall k :: 0 <= k < |g| ==> Slide(g[k]) == g[k]
  {
    hide Slide;
  }

  lemma LeftStays(g: Grid)
    requires Square(g, |g|)
    ensures Left(g) == g <==> forall k :: 0 <= k < |g| ==> Slide(Across(g, k)) == Across(g, k)
  {
    hide Slide, Left, Across;
    forall k | 0 <= k < |g|
      ensures Across(Left(g), k) == Slide(Across(g, k))
    {
      LeftAcross(g, k);
    }
    SameLines(g, Left(g));
  }

  lemma DownStays(g: Grid)
    requires Square(g, |g|)
    ensures Down(g) == g <==> forall k :: 0 <= k < |g| ==> Slide(Reversed(g[k])) == Reversed(g[k])
  {
    hide Slide, Down, Reversed;
    forall k | 0 <= k < |g|
      ensures Reversed(Down(g)[k]) == Slide(Reversed(g[k]))
    {
      DownReversed(g, k);
    }
    SameLines(g, Down(g));
  }

  lemma RightStays(g: Grid)
    requires Square(g, |g|)
    ensures Right(g) == g <==> forall k :: 0 <= k < |g| ==> Slide(Reversed(Across(g, k))) == Reversed(Across(g, k))
  {
    hide Slide, Right, Across, Reversed;
    forall k | 0 <= k < |g|
      ensures Reversed(Across(Right(g), k)) == Slide(Reversed(Across(g, k)))
    {
      RightAcross(g, k);
    }
    SameLines(g, Right(g));
  }

  /**
   * On a board with a tile, what gameEnded looks for is there exactly when
   * none of the four moves would change the board.
   */
  lemma EndedExactly(g: Grid)
    requires Square(g, |g|) && HasTile(g)
    ensures Ended(g) <==> NoMove(g)
  {
    hide Slide, NoMove, Pairless, StuckBothWays;
    NoMoveLines(g);
    forall k | 0 <= k < |g|
      ensures StuckBothWays(g[k]) <==> (g[k] == Zeros(|g|) || (0 !in g[k] && Pairless(g[k])))
      ensures StuckBothWays(Across(g, k)) <==>
        (Across(g, k) == Zeros(|g|) || (0 !in Across(g, k) && Pairless(Across(g, k))))
    {
      Stuck(g[k]);
      Stuck(Across(g, k));
    }
    if Ended(g) {
      FullLines(g);
    } else if NoMove(g) {
      StuckIsFull(g);
    }
  }

  lemma Stuck(l: seq<nat>)
    ensures StuckBothWays(l) <==> (l == Zeros(|l|) || (0 !in l && Pairless(l)))
  {
    BothWays(l);
  }

  lemma FullLines(g: Grid)
    requires Square(g, |g|) && Full(g)
    ensures forall k :: 0 <= k < |g| ==> 0 !in g[k] && 0 !in Across(g, k)
  {
  }

  // Where every line is empty or full and some tile is there, all are full.
  lemma StuckIsFull(g: Grid)
    requires Square(g, |g|) && HasTile(g)
    requires forall k :: 0 <= k < |g| ==>
      (g[k] == Zeros(|g|) || 0 !in g[k]) && (Across(g, k) == Zeros(|g|) || 0 !in Across(g, k))
    ensures Full(g) && forall k :: 0 <= k < |g| ==> g[k] != Zeros(|g|) && Across(g, k) != Zeros(|g|)
  {
    var a, b :| 0 <= a < |g| && 0 <= b < |g[a]| && g[a][b] != 0;
    forall x, y | 0 <= x < |g| && 0 <= y < |g[x]|
      ensures g[x][y] != 0
    {
      assert g[a][y] in g[a];
      assert Across(g, y)[a] == g[a][y];
      assert Across(g, y)[x] in Across(g, y);
    }
    forall k | 0 <= k < |g|
      ensures g[k] != Zeros(|g|) && Across(g, k) != Zeros(|g|)
    {
      assert g[k][0] != 0 && Across(g, k)[0] != 0;
    }
  }
}
