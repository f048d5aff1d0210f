/**
 * 2048.c at work: the board is changed in place, and grid shows what it holds.
 */
module Game {
  import opened Tiles
  import opened Board
  import opened Scoring
  import opened Options

  // ---- rotating in place ------------------------------------------------------------

  // Layer i is the i-th ring of cells from the edge; four cells of it turn
  // with cell (i, j) of its first side.  Turned says which have, once the
  // rings before i and the first sides of ring i up to j are done.
  ghost predicate Turned(n: nat, i: int, j: int, a: int, b: int)
  {
    var e := n - 1;
    || a < i || b < i || e - a < i || e - b < i
    || (a == i && i <= b < e - i && b < j)
    || (b == e - i && i <= a < e - i && a < j)
    || (a == e - i && i < b <= e - i && e - b < j)
    || (b == i && i < a <= e - i && e - a < j)
  }

  ghost predicate Cells(board: array2<nat>, g: Grid)
    reads board
  {
    && board.Length0 == board.Length1 == |g| && Square(g, |g|)
    && forall x, y :: 0 <= x < |g| && 0 <= y < |g| ==> board[x, y] == g[x][y]
  }

  // The cells that have turned show the rotated board, the others the board.
  ghost predicate Turning(board: array2<nat>, g: Grid, i: int, j: int)
    reads board
  {
    && board.Length0 == board.Length1 == |g| && Square(g, |g|)
    && forall a, b :: 0 <= a < |g| && 0 <= b < |g| ==> board[a, b] == Shown(g, i, j, a, b)
  }

  ghost function Shown(g: Grid, i: int, j: int, a: int, b: int): nat
    requires Square(g, |g|) && 0 <= a < |g| && 0 <= b < |g|
  {
    if Turned(|g|, i, j, a, b) then g[b][|g| - 1 - a] else g[a][b]
  }

  // The four cells that turn together.
  ghost predicate Four(n: nat, i: int, j: int, a: int, b: int)
  {
    var e := n - 1;
    (a == i && b == j) || (a == j && b == e - i) || (a == e - i && b == e - j) || (a == e - j && b == i)
  }

  lemma TurnedNext(n: nat, i: nat, j: nat, a: nat, b: nat)
    requires a < n && b < n && i < n / 2 && i <= j < n - i - 1
    ensures Turned(n, i, j + 1, a, b) <==> Turned(n, i, j, a, b) || Four(n, i, j, a, b)
    ensures Four(n, i, j, a, b) ==> !Turned(n, i, j, a, b)
  {
  }

  lemma RingDone(n: nat, i: nat, a: nat, b: nat)
    requires a < n && b < n && i < n / 2
    ensures Turned(n, i, n - i - 1, a, b) <==> Turned(n, i + 1, i + 1, a, b)
  {
  }

  class Game {
    const n: nat
    const board: array2<nat>
    var score: nat
    ghost var grid: Grid
    ghost var fours: nat       // how many tiles began as a four
    ghost var carried: nat     // points made before the board was last cleared

    ghost predicate Valid()
      reads this, board
    {
      |grid| == n && Cells(board, grid)
    }

    method Turn(i: nat, j: nat)
      requires Turning(board, grid, i, j) && |grid| == n && i < n / 2 && i <= j < n - i - 1
      modifies board
      ensures Turning(board, grid, i, j + 1)
    {
      hide Turned;
      var e := n - 1;
      TurnedNext(n, i, j, i, j);
      TurnedNext(n, i, j, j, e - i);
      TurnedNext(n, i, j, e - i, e - j);
      TurnedNext(n, i, j, e - j, i);
      var tmp := board[i, j];
      board[i, j] := board[j, n - i - 1];
      board[j, n - i - 1] := board[n - i - 1, n - j - 1];
      board[n - i - 1, n - j - 1] := board[n - j - 1, i];
      board[n - j - 1, i] := tmp;
      forall a, b | 0 <= a < n && 0 <= b < n
        ensures board[a, b] == Shown(grid, i, j + 1, a, b)
      {
        TurnedNext(n, i, j, a, b);
        assert old(board[a, b]) == Shown(grid, i, j, a, b);
      }
    }

    // rotateBoard.
    method RotateBoard()
      requires Valid()
      modifies this`grid, board
      ensures Valid() && grid == Rotated(old(grid))
    {
      var i := 0;
      while i < n / 2
        invariant 0 <= i <= n / 2 && |grid| == n && Turning(board, grid, i, i) && grid == old(grid)
      {
        var j := i;
        while j < n - i - 1
          invariant i <= j <= n - i - 1 && |grid| == n && Turning(board, grid, i, j) && grid == old(grid)
        {
          Turn(i, j);
          j := j + 1;
        }
        NextRing(board, grid, i);
        i := i + 1;
      }
      AllTurned(board, grid, i);
      grid := Rotated(grid);
    }

    // Row r holds now, and the others what grid shows.
    ghost predicate RowHolds(r: nat, now: seq<nat>)
      reads this, board
    {
      && r < n == |grid| && Square(grid, n) && |now| == n && board.Length0 == board.Length1 == n
      && (forall y :: 0 <= y < n ==> board[r, y] == now[y])
      && (forall x, y :: 0 <= x < n && 0 <= y < n && x != r ==> board[x, y] == grid[x][y])
    }

    // findTarget.
    method FindTarget(r: nat, x: nat, stop: nat, ghost now: seq<nat>) returns (t: nat)
      requires RowHolds(r, now) && x < n
      ensures t == Found(now, x, stop, x)
    {
      if x == 0 {
        return x;
      }
      t := x;
      while t > 0
        invariant t <= x && Found(now, x, stop, t) == Found(now, x, stop, x)
      {
        t := t - 1;
        if board[r, t] != 0 {
          if board[r, t] != board[r, x] {
            return t + 1;
          }
          return t;
        } else if t == stop {
          return t;
        }
      }
      return x;
    }

    // Tile x of row r goes to t, merging with what is there.
    method MoveTile(r: nat, x: nat, t: nat, ghost now: seq<nat>)
      requires RowHolds(r, now) && t < x < n
      modifies board
      ensures RowHolds(r, Moved(now, x, t))
    {
      board[r, t] := board[r, t] + board[r, x];
      board[r, x] := 0;
    }

    /**
     * slideArray on one line: it becomes the compacted and merged line, the
     * score grows by the mergers, and success says whether it changed.
     */
    method SlideArray(r: nat) returns (success: bool)
      requires Valid() && r < n
      modifies this`score, this`grid, board
      ensures Valid() && grid == old(grid)[r := Slide(old(grid)[r])]
      ensures score == old(score) + Gain(Compact(old(grid)[r]))
      ensures success <==> grid != old(grid)
    {
      hide Slide, PushAll, Compact, Gain, Found, Slid;
      success := false;
      ghost var line, p := grid[r], EMPTY;
      ghost var now := line;
      var x, stop := 0, 0;
      SlidStart(line);
      while x < n
        invariant x <= n && grid == old(grid) && RowHolds(r, now) && Slid(now, line, x, stop, p)
        invariant score == old(score) + p.points
        invariant if success then Slide(line) != line else now == line
      {
        if board[r, x] != 0 {
          var t := FindTarget(r, x, stop, now);
          TargetFound(now, line, x, stop, p);
          SlidNext(now, line, x, stop, p);
          if t != x {
            if !success {
              FirstMove(line, x, stop, p);
            }
            if board[r, t] != 0 {
              score := score + board[r, t] + board[r, x];
              stop := t + 1;
            }
            MoveTile(r, x, t, now);
            success := true;
          }
          now, p := Moved(now, x, t), Push(p, now[x]);
        } else {
          SlidZero(now, line, x, stop, p);
        }
        x := x + 1;
      }
      SlidWhole(now, line, stop, p);
      grid := grid[r := now];
    }

    // moveUp: every line slides.
    method MoveUp() returns (success: bool)
      requires Valid()
      modifies this`score, this`grid, board
      ensures Valid() && grid == Up(old(grid)) && score == old(score) + UpGain(old(grid))
      ensures success <==> grid != old(grid)
    {
      hide Slide, Compact, Gain, Up, UpGain, Partly, Game.Valid;
      success := false;
      ghost var g := grid;
      Dimensions();
      PartlyEnds(g);
      var x := 0;
      while x < n
        invariant x <= n && Valid() && grid == Partly(g, x)
        invariant score == old(score) + UpGain(g[..x])
        invariant success <==> grid != g
      {
        UpNext(g, x);
        Dimensions();
        var one := SlideArray(x);
        success := success || one;
        x := x + 1;
      }
    }

    lemma Dimensions()
      requires Valid()
      ensures |grid| == n && Square(grid, n)
    {
    }

    method MoveLeft() returns (success: bool)
      requires Valid()
      modifies this`score, this`grid, board
      ensures Valid() && grid == After(ToLeft, old(grid)) && score == old(score) + GainOf(ToLeft, old(grid))
      ensures success <==> grid != old(grid)
    {
      hide Slide, UpGain, Rotated, Up;
      RotateBoard();
      success := MoveUp();
      ChangedBoard(ToLeft, old(grid));
      RotateBoard();
      RotateBoard();
      RotateBoard();
    }

    method MoveDown() returns (success: bool)
      requires Valid()
      modifies this`score, this`grid, board
      ensures Valid() && grid == After(ToBottom, old(grid)) && score == old(score) + GainOf(ToBottom, old(grid))
      ensures success <==> grid != old(grid)
    {
      hide Slide, UpGain, Rotated, Up;
      RotateBoard();
      RotateBoard();
      success := MoveUp();
      ChangedBoard(ToBottom, old(grid));
      RotateBoard();
      RotateBoard();
    }

    method MoveRight() returns (success: bool)
      requires Valid()
      modifies this`score, this`grid, board
      ensures Valid() && grid == After(ToRight, old(grid)) && score == old(score) + GainOf(ToRight, old(grid))
      ensures success <==> grid != old(grid)
    {
      hide Slide, UpGain, Rotated, Up;
      RotateBoard();
      RotateBoard();
      RotateBoard();
      success := MoveUp();
      ChangedBoard(ToRight, old(grid));
      RotateBoard();
    }

    // findPairDown: two equal neighbours in some line.
    method FindPairDown() returns (found: bool)
      requires Valid()
      ensures found <==> exists x :: 0 <= x < n && !Pairless(grid[x])
    {
      for x := 0 to n
        invariant forall k :: 0 <= k < x ==> Pairless(grid[k])
      {
        for y := 0 to n - 1
          invariant forall i :: 0 <= i < y ==> grid[x][i] != grid[x][i + 1]
        {
          if board[x, y] == board[x, y + 1] {
            assert !Pairless(grid[x]);
            return true;
          }
        }
      }
      return false;
    }

    // countEmpty.
    method CountEmpty() returns (count: nat)
      requires Valid()
      ensures count == Holes(grid)
    {
      count := 0;
      var x := 0;
      while x < n
        invariant x <= n && count == Holes(grid[..x])
      {
        var y := 0;
        while y < n
          invariant y <= n && count == Holes(grid[..x]) + LineHoles(grid[x][..y])
        {
          if board[x, y] == 0 {
            count := count + 1;
          }
          assert grid[x][..y + 1][..y] == grid[x][..y];
          y := y + 1;
        }
        assert grid[..x + 1][..x] == grid[..x] && grid[x][..n] == grid[x];
        x := x + 1;
      }
      assert grid[..n] == grid;
    }

    /**
     * gameEnded: the board is as before, and on a board with a tile the answer
     * is whether none of the four moves would change it.
     */
    method GameEnded() returns (ended: bool)
      requires Valid()
      modifies this`grid, board
      ensures Valid() && grid == old(grid)
      ensures ended <==> Ended(grid)
      ensures HasTile(grid) ==> (ended <==> NoMove(grid))
    {
      hide NoMove, Pairless, Full, Rotated, HasTile;
      if HasTile(grid) {
        EndedExactly(grid);
      }
      ended := true;
      var count := CountEmpty();
      HolesFull(grid);
      if count > 0 {
        return false;
      }
      var found := FindPairDown();
      if found {
        return false;
      }
      AcrossRotated(grid);
      FullTurn(grid);
      RotateBoard();
      found := FindPairDown();
      if found {
        ended := false;
      }
      RotateBoard();
      RotateBoard();
      RotateBoard();
    }

    /**
     * addRandom, given two random numbers: a two, or one time in ten a four,
     * in an empty cell, if there is one.
     */
    method AddRandom(r: nat, s: nat)
      requires Valid()
      modifies this`grid, this`fours, board
      ensures Valid() && Inserted(old(grid), grid, r, if s % 10 == 9 then 4 else 2)
      ensures fours == old(fours) + if !Full(old(grid)) && s % 10 == 9 then 1 else 0
    {
      hide Lists, Inserted, Full;
      Dimensions();
      var list := EmptyCells();
      Chosen(grid, list, r, if s % 10 == 9 then 4 else 2);
      if |list| > 0 {
        var (x, y) := list[r % |list|];
        var v := ((s % 10) / 9 + 1) * 2;
        board[x, y] := v;
        assert v == if s % 10 == 9 then 4 else 2;
        grid, fours := Placed(grid, x, y, v), fours + if v == 4 then 1 else 0;
      }
    }

    method EmptyCells() returns (list: seq<(nat, nat)>)
      requires Valid()
      ensures Lists(grid, n, 0, list)
    {
      hide Lists;
      list := [];
      NoneListed(grid);
      for x := 0 to n
        invariant Lists(grid, x, 0, list)
      {
        for y := 0 to n
          invariant Lists(grid, x, y, list)
        {
          CellListed(grid, x, y, list);
          if board[x, y] == 0 {
            list := list + [(x, y)];
          }
        }
        RowListed(grid, x, list);
      }
    }

    // Tiles are powers of two, and the score is the points in the tiles less
    // four for each tile that began as a four.
    ghost predicate Scored()
      reads this
    {
      TileGrid(grid) && score + 4 * fours == GridSum(Points, grid)
    }

    // The same, with what was scored on boards given up.
    ghost predicate Accounted()
      reads this
    {
      TileGrid(grid) && score + 4 * fours == carried + GridSum(Points, grid)
    }

    constructor (n: nat)
      ensures Valid() && Scored() && this.n == n && score == 0 && fours == 0 && fresh(board) && Square(grid, n)
      ensures Accounted() && carried == 0
      ensures forall x, y :: 0 <= x < n && 0 <= y < n ==> grid[x][y] == 0
    {
      this.n, score, fours, carried := n, 0, 0, 0;
      board := new nat[n, n]((x, y) => 0);
      grid := seq(n, x => Zeros(n));
      new;
      BlankBoard(grid);
    }

    method Move(d: Direction) returns (success: bool)
      requires Valid()
      modifies this`score, this`grid, board
      ensures Valid() && grid == After(d, old(grid)) && score == old(score) + GainOf(d, old(grid))
      ensures success <==> grid != old(grid)
    {
      hide Up, Left, Right, Down, UpGain;
      match d
      case ToTop => success := MoveUp();
      case ToLeft => success := MoveLeft();
      case ToBottom => success := MoveDown();
      case ToRight => success := MoveRight();
    }

    /**
     * The main loop: two tiles to begin with, then keys until the game ends or
     * the player leaves; draw gives the random numbers of each tile.  Whatever
     * is pressed and drawn, tiles stay powers of two, the score is accounted
     * for, and the game ends only when no move is left.  The score tells what
     * the tiles are worth exactly if nothing was carried over from a board
     * given up, and so always if nobody presses r.
     */
    method Play(draw: nat -> (nat, nat), keys: string) returns (over: bool)
      requires Valid() && Accounted() && n > 0
      modifies this, board
      ensures Valid() && Accounted()
      ensures Scored() <==> carried == 0
      ensures 'r' !in keys ==> carried == old(carried)
      ensures over ==> NoMove(grid)
    {
      hide After, GainOf, Inserted, Game.Valid, Game.Accounted, NoMove;
      over := false;
      Insert(draw(0));
      Insert(draw(1));
      var i, k := 0, 2;
      while i < |keys|
        invariant i <= |keys| && Valid() && Accounted() && HasTile(grid)
        invariant 'r' !in keys ==> carried == old(carried)
      {
        var c := keys[i];
        i := i + 1;
        var success := false;
        if Pressed(c).Some? {
          success := Press(Pressed(c).value);
        }
        if success {
          Insert(draw(k));
          k := k + 1;
          over := GameEnded();
          if over {
            break;
          }
        }
        if c == 'q' {
          if i == |keys| {
            break;
          }
          c := keys[i];
          i := i + 1;
          if c == 'y' {
            break;
          }
        }
        if c == 'r' {
          if i == |keys| {
            break;
          }
          c := keys[i];
          i := i + 1;
          if c == 'y' {
            Restart(draw(k), draw(k + 1));
            k := k + 2;
          }
        }
      }
      AccountedMeans();
    }

    lemma AccountedMeans()
      ensures Accounted() ==> (Scored() <==> carried == 0)
    {
    }

    // A random tile keeps the score accounted for.
    method Insert(d: (nat, nat))
      requires Valid() && Accounted() && n > 0
      modifies this, board
      ensures Valid() && Accounted() && HasTile(grid) && score == old(score) && carried == old(carried)
    {
      hide GridSum, TileGrid;
      Dimensions();
      AddRandom(d.0, d.1);
      InsertKeeps(old(grid), grid, d.0, if d.1 % 10 == 9 then 4 else 2);
    }

    // So does a move.
    method Press(d: Direction) returns (success: bool)
      requires Valid() && Accounted()
      modifies this, board
      ensures Valid() && Accounted() && grid == After(d, old(grid)) && (success <==> grid != old(grid))
      ensures GridSum(Value, grid) == GridSum(Value, old(grid)) && carried == old(carried)
      ensures HasTile(old(grid)) ==> HasTile(grid)
    {
      hide GridSum, TileGrid, After, GainOf, HasTile;
      Dimensions();
      success := Move(d);
      MoveKeeps(d, old(grid));
    }

    // Restarting clears the board and not the score, which then tells what the
    // tiles are worth exactly if it was zero.
    method Restart(first: (nat, nat), second: (nat, nat))
      requires Valid() && n > 0
      modifies this, board
      ensures Valid() && Accounted() && HasTile(grid) && score == carried == old(score)
      ensures Scored() <==> old(score) == 0
    {
      hide GridSum, TileGrid, HasTile;
      forall x, y | 0 <= x < n && 0 <= y < n {
        board[x, y] := 0;
      }
      grid, fours, carried := seq(n, x => Zeros(n)), 0, score;
      BlankBoard(grid);
      Insert(first);
      Insert(second);
    }
  }

  // The keys of each direction; an arrow key ends in a letter.
  function Pressed(c: char): Option<Direction>
  {
    if c in "ahD" then Some(ToLeft)
    else if c in "dlC" then Some(ToRight)
    else if c in "wkA" then Some(ToTop)
    else if c in "sjB" then Some(ToBottom)
    else None
  }

  /**
   * A game whose score does not tell what its tiles are worth: two twos meet,
   * and the player starts over.
   */
  method StaleScore(n: nat) returns (g: Game)
    requires n >= 2
    ensures fresh(g) && fresh(g.board) && g.n == n && g.Valid() && g.Accounted() && !g.Scored()
  {
    hide UpGain, Lists, Inserted;
    g := new Game(n);
    ghost var blank := g.grid;
    g.AddRandom(0, 0);
    FirstFilled(blank, g.grid, 0, 0, 2);
    ghost var one := g.grid;
    g.AddRandom(0, 0);
    FirstFilled(one, g.grid, 0, 1, 2);
    TwoTwos(g.grid);
    var _ := g.Move(ToTop);
    g.Restart((0, 0), (0, 0));
  }

  // Draw number 0 fills the first empty cell.
  lemma FirstFilled(g: Grid, h: Grid, x: nat, y: nat, v: nat)
    requires x < |g| && y < |g[x]| && g[x][y] == 0 && Inserted(g, h, 0, v)
    requires forall a: nat, b: nat :: a < |g| && b < |g[a]| && Before((a, b), (x, y)) ==> g[a][b] != 0
    ensures h == Placed(g, x, y, v)
  {
    var list :| Lists(g, |g|, 0, list) && list != [] && Fills(g, h, list[0 % |list|], v);
    assert Before((x, y), (|g|, 0)) && (x, y) in list;
    assert list[0] in list;
  }

  lemma TwoTwos(g: Grid)
    requires Square(g, |g|) && |g| >= 2 && g[0][0] == g[0][1] == 2
    ensures GainOf(ToTop, g) > 0
  {
    FirstGain(g);
    assert Compact(g[0]) == [2, 2] + Compact(g[0][1..][1..]);
  }

  lemma {:induction false} FirstGain(g: Grid)
    requires g != []
    ensures UpGain(g) >= Gain(Compact(g[0]))
  {
    if |g| > 1 {
      FirstGain(g[..|g| - 1]);
    }
  }

  lemma NextRing(board: array2<nat>, g: Grid, i: nat)
    requires i < |g| / 2 && Turning(board, g, i, |g| - i - 1)
    ensures Turning(board, g, i + 1, i + 1)
  {
    hide Turned;
    forall a, b | 0 <= a < |g| && 0 <= b < |g|
      ensures board[a, b] == Shown(g, i + 1, i + 1, a, b)
    {
      RingDone(|g|, i, a, b);
      assert board[a, b] == Shown(g, i, |g| - i - 1, a, b);
    }
  }

  lemma AllTurned(board: array2<nat>, g: Grid, i: nat)
    requires i == |g| / 2 && Turning(board, g, i, i)
    ensures Cells(board, Rotated(g))
  {
  }

  lemma SlidStart(line: seq<nat>)
    ensures Slid(line, line, 0, 0, EMPTY)
  {
    assert line[..0] == [];
  }

  lemma TargetFound(now: seq<nat>, line: seq<nat>, x: nat, stop: nat, p: Pile)
    requires x < |now| && Slid(now, line, x, stop, p) && now[x] != 0
    ensures Found(now, x, stop, x) == Target(p, now[x])
  {
    hide PushAll, Compact;
    FoundIsTarget(now, line, x, stop, p, x);
  }

  // The first x lines have slid.
  ghost function Partly(g: Grid, x: nat): (h: Grid)
    requires Square(g, |g|) && x <= |g|
    ensures Square(h, |g|)
  {
    Up(g)[..x] + g[x..]
  }

  lemma PartlyEnds(g: Grid)
    requires Square(g, |g|)
    ensures Partly(g, 0) == g && Partly(g, |g|) == Up(g) && UpGain(g[..0]) == 0 && g[..|g|] == g
  {
    hide Slide;
  }

  lemma UpNext(g: Grid, x: nat)
    requires Square(g, |g|) && x < |g|
    ensures var h := Partly(g, x);
      && h[x] == g[x] && h[x := Slide(g[x])] == Partly(g, x + 1)
      && (Partly(g, x + 1) != g <==> h != g || Partly(g, x + 1) != h)
    ensures UpGain(g[..x + 1]) == UpGain(g[..x]) + Gain(Compact(g[x]))
  {
    hide Slide, Compact, Gain;
    assert g[..x + 1][..x] == g[..x];
    var h := Partly(g, x);
    var k := h[x := Slide(g[x])];
    if h != g {
      var i :| 0 <= i < |g| && h[i] != g[i];
      assert k[i] == h[i];
    }
  }

  datatype Direction = ToTop | ToLeft | ToBottom | ToRight

  // The board turned so that the direction is up.
  ghost function Facing(d: Direction, g: Grid): (r: Grid)
    requires Square(g, |g|)
    ensures Square(r, |g|)
  {
    match d
    case ToTop => g
    case ToLeft => Rotated(g)
    case ToBottom => Rotated(Rotated(g))
    case ToRight => Rotated(Rotated(Rotated(g)))
  }

  ghost function After(d: Direction, g: Grid): (r: Grid)
    requires Square(g, |g|)
    ensures Square(r, |g|)
  {
    match d
    case ToTop => Up(g)
    case ToLeft => Left(g)
    case ToBottom => Down(g)
    case ToRight => Right(g)
  }

  ghost function GainOf(d: Direction, g: Grid): nat
    requires Square(g, |g|)
  {
    UpGain(Facing(d, g))
  }

  // A move changes the board exactly when it changes the turned board.
  lemma ChangedBoard(d: Direction, g: Grid)
    requires Square(g, |g|)
    ensures Up(Facing(d, g)) != Facing(d, g) <==> After(d, g) != g
  {
    hide Rotated, Up, Slide;
    FullTurn(g);
    var u := Up(Facing(d, g));
    FullTurn(u);
  }

  // How many cells are empty.
  ghost function LineHoles(l: seq<nat>): nat
  {
    if l == [] then 0 else LineHoles(l[..|l| - 1]) + if l[|l| - 1] == 0 then 1 else 0
  }

  ghost function Holes(g: Grid): nat
  {
    if g == [] then 0 else Holes(g[..|g| - 1]) + LineHoles(g[|g| - 1])
  }

  lemma {:induction false} LineHolesFull(l: seq<nat>)
    ensures LineHoles(l) == 0 <==> forall y :: 0 <= y < |l| ==> l[y] != 0
  {
    if l != [] {
      var n := |l| - 1;
      LineHolesFull(l[..n]);
      assert forall y :: 0 <= y < n ==> l[..n][y] == l[y];
    }
  }

  lemma {:induction false} HolesFull(g: Grid)
    ensures Holes(g) == 0 <==> Full(g)
  {
    if g != [] {
      var n := |g| - 1;
      HolesFull(g[..n]);
      LineHolesFull(g[n]);
      assert forall x :: 0 <= x < n ==> g[..n][x] == g[x];
    }
  }

  lemma AcrossRotated(g: Grid)
    requires Square(g, |g|)
    ensures (forall y :: 0 <= y < |g| ==> Pairless(Across(g, y))) <==>
      (forall i :: 0 <= i < |g| ==> Pairless(Rotated(g)[i]))
  {
    hide Pairless;
    forall i | 0 <= i < |g|
      ensures Rotated(g)[i] == Across(g, |g| - 1 - i)
    {
    }
    forall y | 0 <= y < |g|
      ensures Rotated(g)[|g| - 1 - y] == Across(g, y)
    {
    }
  }

  // The empty cells before cell (x, y), each once, row by row.
  ghost predicate Lists(g: Grid, x: nat, y: nat, list: seq<(nat, nat)>)
  {
    && (forall c :: c in list ==> Before(c, (x, y)) && c.0 < |g| && c.1 < |g[c.0]| && g[c.0][c.1] == 0)
    && (forall a: nat, b: nat :: a < |g| && b < |g[a]| && Before((a, b), (x, y)) && g[a][b] == 0 ==> (a, b) in list)
    && (forall j, k :: 0 <= j < k < |list| ==> Before(list[j], list[k]))
  }

  predicate Before(c: (nat, nat), d: (nat, nat))
  {
    c.0 < d.0 || (c.0 == d.0 && c.1 < d.1)
  }

  lemma NoneListed(g: Grid)
    ensures Lists(g, 0, 0, [])
  {
  }

  lemma CellListed(g: Grid, x: nat, y: nat, list: seq<(nat, nat)>)
    requires Lists(g, x, y, list) && x < |g| && y < |g[x]|
    ensures Lists(g, x, y + 1, if g[x][y] == 0 then list + [(x, y)] else list)
  {
    hide Before;
    JustBefore(x, y);
    if g[x][y] == 0 {
      assert (list + [(x, y)])[|list|] == (x, y);
      assert forall c :: c in list + [(x, y)] <==> c in list || c == (x, y);
    }
  }

  lemma JustBefore(x: nat, y: nat)
    ensures forall c :: Before(c, (x, y + 1)) <==> Before(c, (x, y)) || c == (x, y)
  {
  }

  lemma RowListed(g: Grid, x: nat, list: seq<(nat, nat)>)
    requires x < |g| && Lists(g, x, |g[x]|, list)
    ensures Lists(g, x + 1, 0, list)
  {
  }

  // v has come into empty cell number r, counted round and round, if there is one.
  ghost predicate Inserted(g: Grid, h: Grid, r: nat, v: nat)
  {
    if Full(g) then h == g
    else exists list :: Lists(g, |g|, 0, list) && list != [] && Fills(g, h, list[r % |list|], v)
  }

  ghost predicate Fills(g: Grid, h: Grid, c: (nat, nat), v: nat)
  {
    c.0 < |g| && c.1 < |g[c.0]| && g[c.0][c.1] == 0 && h == Placed(g, c.0, c.1, v)
  }

  lemma BlankBoard(g: Grid)
    requires forall x :: 0 <= x < |g| ==> g[x] == Zeros(|g|)
    ensures TileGrid(g) && GridSum(Points, g) == 0
  {
    BlankSum(g, |g|);
  }

  lemma {:induction false} BlankSum(g: Grid, m: nat)
    requires forall x :: 0 <= x < |g| ==> g[x] == Zeros(m)
    ensures GridSum(Points, g) == 0
  {
    if g != [] {
      SumZeros(Points, m);
      BlankSum(g[..|g| - 1], m);
    }
  }

  lemma Chosen(g: Grid, list: seq<(nat, nat)>, r: nat, v: nat)
    requires Lists(g, |g|, 0, list)
    ensures list == [] <==> Full(g)
    ensures list == [] ==> Inserted(g, g, r, v)
    ensures list != [] ==>
      var (x, y) := list[r % |list|];
      x < |g| && y < |g[x]| && g[x][y] == 0 && Inserted(g, Placed(g, x, y, v), r, v)
  {
    if list != [] {
      var c := list[r % |list|];
      assert c in list;
      assert Fills(g, Placed(g, c.0, c.1, v), c, v);
    } else {
      forall a, b | 0 <= a < |g| && 0 <= b < |g[a]| ensures g[a][b] != 0 { assert Before((a, b), (|g|, 0)); }
    }
  }

  lemma InsertKeeps(g: Grid, h: Grid, r: nat, v: nat)
    requires Square(g, |g|) && |g| > 0 && TileGrid(g) && (v == 2 || v == 4) && Inserted(g, h, r, v)
    ensures TileGrid(h) && HasTile(h)
    ensures GridSum(Points, h) == GridSum(Points, g) + if !Full(g) && v == 4 then 4 else 0
  {
    hide Lists, GridSum;
    if Full(g) {
      assert g[0][0] != 0;
    } else {
      hide Full;
      var list :| Lists(g, |g|, 0, list) && list != [] && Fills(g, h, list[r % |list|], v);
      FillKeeps(g, h, list[r % |list|], v);
    }
  }

  lemma FillKeeps(g: Grid, h: Grid, c: (nat, nat), v: nat)
    requires Square(g, |g|) && TileGrid(g) && (v == 2 || v == 4) && Fills(g, h, c, v)
    ensures TileGrid(h) && HasTile(h)
    ensures GridSum(Points, h) == GridSum(Points, g) + if v == 4 then 4 else 0
  {
    hide GridSum;
    SumPlaced(Points, g, c.0, c.1, v);
    assert h[c.0][c.1] != 0;
  }

  lemma FacingSum(w: Weight, d: Direction, g: Grid)
    requires Square(g, |g|) && TileGrid(g)
    ensures GridSum(w, Facing(d, g)) == GridSum(w, g) && TileGrid(Facing(d, g))
  {
    hide GridSum, TileGrid, Rotated;
    SumRotated(w, g);
    RotatedTiles(g);
    var r := Rotated(g);
    SumRotated(w, r);
    RotatedTiles(r);
    SumRotated(w, Rotated(r));
    RotatedTiles(Rotated(r));
  }

  lemma BackSum(w: Weight, u: Grid)
    requires Square(u, |u|) && TileGrid(u)
    ensures forall d :: GridSum(w, Facing(d, u)) == GridSum(w, u) && TileGrid(Facing(d, u))
  {
    hide GridSum, TileGrid, Facing;
    forall d
      ensures GridSum(w, Facing(d, u)) == GridSum(w, u) && TileGrid(Facing(d, u))
    {
      FacingSum(w, d, u);
    }
  }

  /**
   * Every move keeps the sum of the tiles, keeps them powers of two, and adds
   * to their points exactly what it scores.
   */
  lemma MoveKeeps(d: Direction, g: Grid)
    requires Square(g, |g|) && TileGrid(g)
    ensures TileGrid(After(d, g))
    ensures GridSum(Value, After(d, g)) == GridSum(Value, g)
    ensures GridSum(Points, After(d, g)) == GridSum(Points, g) + GainOf(d, g)
    ensures HasTile(g) ==> HasTile(After(d, g))
  {
    hide GridSum, TileGrid, UpGain, Rotated, Up, HasTile;
    FacingSum(Value, d, g);
    FacingSum(Points, d, g);
    var f := Facing(d, g);
    var u := Up(f);
    SumUp(Value, f);
    SumUp(Points, f);
    UpTiles(f);
    BackSum(Value, u);
    BackSum(Points, u);
    var back := if d.ToTop? then ToTop else if d.ToLeft? then ToRight else if d.ToBottom? then ToBottom else ToLeft;
    assert After(d, g) == Facing(back, u);
    TileMeansSum(g);
    TileMeansSum(After(d, g));
  }

  // There is a tile exactly when the sum is not nothing.
  lemma TileMeansSum(g: Grid)
    ensures HasTile(g) <==> GridSum(Value, g) > 0
  {
    if g != [] {
      var f, l := g[..|g| - 1], g[|g| - 1];
      TileMeansSum(f);
      LineMeansSum(l);
      if HasTile(f) {
        var x, y :| 0 <= x < |f| && 0 <= y < |f[x]| && f[x][y] != 0;
        assert g[x][y] != 0;
      }
      if y: nat :| y < |l| && l[y] != 0 {
        assert g[|g| - 1][y] != 0;
      }
      if HasTile(g) {
        var x, y :| 0 <= x < |g| && 0 <= y < |g[x]| && g[x][y] != 0;
        assert x < |f| ==> f[x][y] != 0;
      }
    }
  }

  lemma {:induction false} LineMeansSum(l: seq<nat>)
    ensures (exists y: nat :: y < |l| && l[y] != 0) <==> LineSum(Value, l) > 0
  {
    if l != [] {
      var n := |l| - 1;
      LineMeansSum(l[..n]);
      if y: nat :| y < n && l[y] != 0 {
        assert l[..n][y] != 0;
      }
      if l[n] != 0 {
        assert n < |l|;
      }
      if y: nat :| y < n && l[..n][y] != 0 {
        assert l[y] != 0;
      }
    }
  }
}
