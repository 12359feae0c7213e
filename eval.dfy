/** CalcPieceCost: the material score of a board with small positional
    bonuses, from White's side (positive is good for White) and negated for
    Black, together with the number of enemy pieces on the board. */
module Eval {
  import opened Board
  import opened Attack

  // ---------------------------------------------------------------------
  // The "defended pawn" tests.

  /** A white pawn on (x, y) counts as defended when a white piece stands on
      (x - 1, y - 1) or (x + 1, y - 1). */
  predicate WhitePawnDefended(g: Grid, x: Coord, y: Coord) {
    (x > 0 && y > 0 && IsWhite(g[x - 1][y - 1])) || (x < 7 && y > 0 && IsWhite(g[x + 1][y - 1]))
  }

  /** The black test as the source writes it: the second disjunct guards the
      read of row y + 1 with `y > 0`. None stands for the read of row 8 that
      a black pawn on row 7 (not in column 7) makes the source throw on. */
  function BlackPawnDefendedAsWritten(g: Grid, x: Coord, y: Coord): Option<bool> {
    if x > 0 && y < 7 && IsBlack(g[x - 1][y + 1]) then Some(true)
    else if x < 7 && y > 0 then
      if y + 1 > 7 then None else Some(IsBlack(g[x + 1][y + 1]))
    else Some(false)
  }

  /** The black test with the guard the white test mirrors: a black piece on
      (x - 1, y + 1) or (x + 1, y + 1), each read only when on the board. */
  predicate BlackPawnDefended(g: Grid, x: Coord, y: Coord) {
    (x > 0 && y < 7 && IsBlack(g[x - 1][y + 1])) || (x < 7 && y < 7 && IsBlack(g[x + 1][y + 1]))
  }

  /** The board seen from the other side: rows reversed and colours swapped. */
  function Flip(g: Grid): (r: Grid)
    ensures forall x: Coord, y: Coord :: r[x][y] == Swap(g[x][7 - y])
  {
    var r := seq(8, x requires 0 <= x < 8 => seq(8, y requires 0 <= y < 8 => Swap(g[x][7 - y])));
    assert forall x :: 0 <= x < 8 ==> |r[x]| == 8;
    r
  }

  function Swap(p: Piece): Piece {
    if p == Empty then Empty else Piece(Opponent(p.color), p.kind)
  }

  /** The corrected black test is the white test on the flipped board. */
  lemma BlackPawnDefendedMirrorsWhite(g: Grid, x: Coord, y: Coord)
    ensures BlackPawnDefended(g, x, y) <==> WhitePawnDefended(Flip(g), x, 7 - y)
  {
    var f := Flip(g);
    if x > 0 && y < 7 {
      assert f[x - 1][7 - y - 1] == Swap(g[x - 1][y + 1]);
    }
    if x < 7 && y < 7 {
      assert f[x + 1][7 - y - 1] == Swap(g[x + 1][y + 1]);
    }
  }

  /** As written, the test agrees with the corrected one wherever it does not
      throw, except on row 0, where it skips the square (x + 1, 1). */
  lemma AsWrittenAgreesAwayFromEdges(g: Grid, x: Coord, y: Coord)
    requires 0 < y < 7
    ensures BlackPawnDefendedAsWritten(g, x, y) == Some(BlackPawnDefended(g, x, y))
  {
  }

  /** The two inputs that show the guard is wrong: a black pawn on (3, 7)
      makes the source read row 8, and a black pawn on (3, 0) with a black
      piece on (4, 1) is not counted as defended although the mirrored white
      position is. */
  lemma BlackPawnGuardCounterexamples()
    ensures var g := Set(Set(EmptyBoard(), Square(3, 7), BlackPawn), Square(2, 6), BlackPawn);
            BlackPawnDefendedAsWritten(g, 3, 7).None? && !BlackPawnDefended(g, 3, 7) &&
            Evaluate(g, White) == Fault
    ensures var g := Set(Set(EmptyBoard(), Square(3, 0), BlackPawn), Square(4, 1), BlackKnight);
            BlackPawnDefendedAsWritten(g, 3, 0) == Some(false) && BlackPawnDefended(g, 3, 0) &&
            WhitePawnDefended(Flip(g), 3, 7) && PieceCost(g, Square(3, 0)) == -995
  {
    var g1 := Set(Set(EmptyBoard(), Square(3, 7), BlackPawn), Square(2, 6), BlackPawn);
    assert g1[3][7] == BlackPawn;
    EvaluateFaults(g1, White);
    var g := Set(Set(EmptyBoard(), Square(3, 0), BlackPawn), Square(4, 1), BlackKnight);
    BlackPawnDefendedMirrorsWhite(g, 3, 0);
  }

  function EmptyBoard(): (g: Grid)
    ensures forall x: Coord, y: Coord :: g[x][y] == Empty
  {
    seq(8, _ => seq(8, _ => Empty))
  }

  // ---------------------------------------------------------------------
  // The score.

  predicate OnRim(x: Coord, y: Coord) { x <= 1 || x >= 6 || y <= 1 || y >= 6 }

  /** What the piece on one square adds to the score: the switch of
      CalcPieceCost, with the black pawn test as the source writes it. On a
      square where that test reads row 8 the value is never used, since
      CalcPieceCost raises there (see Throws). */
  function PieceCost(g: Grid, s: Square): (r: int)
    ensures r == 0 <==> At(g, s) == Empty
    ensures IsWhite(At(g, s)) ==> 0 < r <= 100000
    ensures IsBlack(At(g, s)) ==> -100000 <= r < 0
  {
    var x, y := s.x, s.y;
    match g[x][y]
    case Empty => 0
    case Piece(White, kind) =>
      (match kind
       case Pawn =>
         (if y > 4 && (x == 3 || x == 4) then -5 else 0) + (if WhitePawnDefended(g, x, y) then 10 else 0) + 1000
       case Knight => (if OnRim(x, y) then -2 else 0) + 3000
       case Bishop => (if y < 7 then 3 else 0) + 3000
       case Rook => 5000
       case Queen => 9000
       case King => 99999 + (if y == 6 then 1 else 0))
    case Piece(Black, kind) =>
      match kind
      case Pawn =>
        -1000 + (if y < 4 && (x == 3 || x == 4) then 5 else 0) + (if BlackPawnDefendedAsWritten(g, x, y) == Some(true) then -10 else 0)
      case Knight => (if OnRim(x, y) then 2 else 0) - 3000
      case Bishop => (if y > 0 then -3 else 0) - 3000
      case Rook => -5000
      case Queen => -9000
      case King => (if y == 0 then -1 else 0) - 99999
  }

  /** The cost accumulated over the first n squares in row-major order. */
  function Material(g: Grid, n: nat): int
    requires n <= 64
  {
    if n == 0 then 0 else Material(g, n - 1) + PieceCost(g, SquareAt(n - 1))
  }

  /** The number of pieces of colour col among the first n squares. */
  function PieceCount(g: Grid, col: Color, n: nat): nat
    requires n <= 64
  {
    if n == 0 then 0 else PieceCount(g, col, n - 1) + (if IsColor(At(g, SquareAt(n - 1)), col) then 1 else 0)
  }

  /** The value CalcPieceCost returns for myColor. */
  function Score(g: Grid, myColor: Color): int {
    if myColor == Black then -Material(g, 64) else Material(g, 64)
  }

  /** The squares CalcPieceCost raises on: a black pawn whose defended test
      reads row 8. */
  predicate Throws(g: Grid, s: Square) {
    At(g, s) == Piece(Black, Pawn) && BlackPawnDefendedAsWritten(g, s.x, s.y).None?
  }

  /** The source raises exactly for a black pawn on row 7 outside column 7. */
  lemma ThrowsExactly(g: Grid, s: Square)
    ensures Throws(g, s) <==> At(g, s) == Piece(Black, Pawn) && s.y == 7 && s.x < 7
  {
  }

  /** What CalcPieceCost gives for myColor: the score, or Fault when some
      square makes it read row 8. */
  function Evaluate(g: Grid, myColor: Color): (r: Outcome<int>)
    ensures r.Ok? ==> -6400000 <= r.value <= 6400000
  {
    if exists x, y | 0 <= x < 8 && 0 <= y < 8 :: Throws(g, Square(x, y)) then Fault
    else ScoreBound(g, myColor); Ok(Score(g, myColor))
  }

  /** CalcPieceCost raises exactly when a black pawn stands on row 7
      outside column 7, and otherwise gives the score. */
  lemma EvaluateFaults(g: Grid, myColor: Color)
    ensures Evaluate(g, myColor).Fault? <==> exists x: Coord :: x < 7 && g[x][7] == Piece(Black, Pawn)
    ensures Evaluate(g, myColor).Ok? ==> Evaluate(g, myColor).value == Score(g, myColor)
  {
    if Evaluate(g, myColor).Fault? {
      var x, y :| 0 <= x < 8 && 0 <= y < 8 && Throws(g, Square(x, y));
      ThrowsExactly(g, Square(x, y));
    } else {
      forall x: Coord | x < 7
        ensures g[x][7] != Piece(Black, Pawn)
      {
        ThrowsExactly(g, Square(x, 7));
      }
    }
  }

  /** The count CalcPieceCost returns in enemyPieceCount. */
  function EnemyCount(g: Grid, myColor: Color): nat {
    PieceCount(g, Opponent(myColor), 64)
  }

  /** One square of CalcPieceCost's switch; ok is false where the source
      raises. */
  method SquareCost(board: array2<Piece>, x: Coord, y: Coord) returns (ok: bool, delta: int, white: nat, black: nat)
    requires IsBoard(board)
    ensures ok <==> !Throws(Snapshot(board), Square(x, y))
    ensures ok ==> delta == PieceCost(Snapshot(board), Square(x, y))
    ensures white == (if IsWhite(board[x, y]) then 1 else 0) && black == (if IsBlack(board[x, y]) then 1 else 0)
  {
    ok := true;
    delta, white, black := 0, 0, 0;
    match board[x, y] {
      case Empty =>
      case Piece(White, kind) =>
        match kind {
          case Pawn =>
            if y > 4 && (x == 3 || x == 4) {
              delta := delta - 5;
            }
            if (x > 0 && y > 0 && IsWhite(board[x - 1, y - 1])) || (x < 7 && y > 0 && IsWhite(board[x + 1, y - 1])) {
              delta := delta + 10;
            }
            delta := delta + 1000;
          case Knight =>
            if x <= 1 || x >= 6 || y <= 1 || y >= 6 {
              delta := delta - 2;
            }
            delta := delta + 3000;
          case Bishop =>
            if y < 7 {
              delta := delta + 3;
            }
            delta := delta + 3000;
          case Rook => delta := delta + 5000;
          case Queen => delta := delta + 9000;
          case King =>
            delta := delta + 99999;
            if y == 6 {
              delta := delta + 1;
            }
        }
        white := 1;
      case Piece(Black, kind) =>
        match kind {
          case Pawn =>
            delta := delta - 1000;
            if y < 4 && (x == 3 || x == 4) {
              delta := delta + 5;
            }
            var defended := x > 0 && y < 7 && IsBlack(board[x - 1, y + 1]);
            if !defended && x < 7 && y > 0 {
              if y == 7 {
                // The read of board[X + 1, Y + 1] is off the board.
                ok := false;
              } else {
                defended := IsBlack(board[x + 1, y + 1]);
              }
            }
            if defended {
              delta := delta - 10;
            }
          case Knight =>
            if x <= 1 || x >= 6 || y <= 1 || y >= 6 {
              delta := delta + 2;
            }
            delta := delta - 3000;
          case Bishop =>
            if y > 0 {
              delta := delta - 3;
            }
            delta := delta - 3000;
          case Rook => delta := delta - 5000;
          case Queen => delta := delta - 9000;
          case King =>
            if y == 0 {
              delta := delta - 1;
            }
            delta := delta - 99999;
        }
        black := 1;
    }
  }

  lemma MaterialNext(g: Grid, n: nat, s: Square)
    requires n < 64 && s == SquareAt(n)
    ensures Material(g, n + 1) == Material(g, n) + PieceCost(g, s)
    ensures PieceCount(g, White, n + 1) == PieceCount(g, White, n) + (if IsWhite(At(g, s)) then 1 else 0)
    ensures PieceCount(g, Black, n + 1) == PieceCount(g, Black, n) + (if IsBlack(At(g, s)) then 1 else 0)
  {
  }

  /** The inner loop of CalcPieceCost over row y, from the running cost and
      counts of the rows before; ok is false where the source raises. */
  method SumRow(board: array2<Piece>, y: Coord, cost0: int, white0: int, black0: int, ghost g: Grid)
    returns (ok: bool, cost: int, whiteCount: int, blackCount: int)
    requires IsBoard(board) && g == Snapshot(board)
    requires cost0 == Material(g, y * 8)
    requires white0 == PieceCount(g, White, y * 8) && black0 == PieceCount(g, Black, y * 8)
    ensures ok <==> forall x: Coord :: !Throws(g, Square(x, y))
    ensures ok ==> cost == Material(g, y * 8 + 8)
    ensures ok ==> whiteCount == PieceCount(g, White, y * 8 + 8) && blackCount == PieceCount(g, Black, y * 8 + 8)
  {
    cost, whiteCount, blackCount := cost0, white0, black0;
    var x := 0;
    while x < 8
      invariant 0 <= x <= 8
      invariant cost == Material(g, y * 8 + x)
      invariant whiteCount == PieceCount(g, White, y * 8 + x) && blackCount == PieceCount(g, Black, y * 8 + x)
      invariant forall i: Coord :: i < x ==> !Throws(g, Square(i, y))
    {
      SquareAtIndex(Square(x, y));
      MaterialNext(g, y * 8 + x, Square(x, y));
      var squareOk, delta, white, black := SquareCost(board, x, y);
      if !squareOk {
        return false, cost, whiteCount, blackCount;
      }
      cost := cost + delta;
      whiteCount := whiteCount + white;
      blackCount := blackCount + black;
      x := x + 1;
    }
    ok := true;
  }

  /** CalcPieceCost: sum the squares row by row, then negate for Black and
      report the count of the other colour's pieces; Fault where the source
      raises. */
  method CalcPieceCost(board: array2<Piece>, myColor: Color) returns (r: Outcome<int>, enemyPieceCount: int)
    requires IsBoard(board)
    ensures r == Evaluate(Snapshot(board), myColor)
    ensures r.Ok? ==> enemyPieceCount == EnemyCount(Snapshot(board), myColor)
  {
    ghost var g := Snapshot(board);
    var cost := 0;
    var whiteCount, blackCount := 0, 0;
    var y := 0;
    while y < 8
      invariant 0 <= y <= 8
      invariant cost == Material(g, y * 8)
      invariant whiteCount == PieceCount(g, White, y * 8) && blackCount == PieceCount(g, Black, y * 8)
      invariant forall x: Coord, j: Coord :: j < y ==> !Throws(g, Square(x, j))
    {
      var ok;
      ok, cost, whiteCount, blackCount := SumRow(board, y, cost, whiteCount, blackCount, g);
      if !ok {
        return Fault, 0;
      }
      y := y + 1;
    }
    if myColor == Black {
      cost := cost * -1;
      enemyPieceCount := whiteCount;
    } else {
      enemyPieceCount := blackCount;
    }
    r := Ok(cost);
  }


  // ---------------------------------------------------------------------
  // Properties of the score.

  /** The Black-side score is the negation of the White-side score: the
      source sums from White's side and flips the sign only after the loop. */
  lemma ScoreIsSignFlipped(g: Grid)
    ensures Score(g, Black) == -Score(g, White)
  {
  }

  /** CalcPieceCost raises for both sides or for neither, and otherwise
      gives Black the negation of White's value. */
  lemma EvaluateIsSignFlipped(g: Grid)
    ensures Evaluate(g, Black).Fault? <==> Evaluate(g, White).Fault?
    ensures Evaluate(g, Black).Ok? ==> Evaluate(g, Black).value == -Evaluate(g, White).value
  {
  }

  /** No square is worth more than the king, so n squares are worth at most
      n kings either way. */
  lemma {:induction false} MaterialBound(g: Grid, n: nat)
    requires n <= 64
    ensures -100000 * n <= Material(g, n) <= 100000 * n
  {
    if n > 0 {
      MaterialBound(g, n - 1);
      var cost := PieceCost(g, SquareAt(n - 1));
      assert -100000 <= cost <= 100000;
    }
  }

  /** A score lies within 6400000 of zero: a board has 64 squares. */
  lemma ScoreBound(g: Grid, c: Color)
    ensures -6400000 <= Score(g, c) <= 6400000
  {
    MaterialBound(g, 64);
  }

  lemma {:induction false} MaterialOfEmpty(n: nat)
    requires n <= 64
    ensures Material(EmptyBoard(), n) == 0
  {
    if n > 0 {
      MaterialOfEmpty(n - 1);
    }
  }

  /** An empty board scores 0 for either side. */
  lemma EmptyBoardScoresZero(c: Color)
    ensures Score(EmptyBoard(), c) == 0
    ensures Evaluate(EmptyBoard(), c) == Ok(0)
  {
    MaterialOfEmpty(64);
  }

  /** The squares among the first n holding a piece of colour col. */
  function ColoredBefore(g: Grid, col: Color, n: nat): set<Square> {
    set x: int, y: int | 0 <= x < 8 && 0 <= y < 8 && y * 8 + x < n && IsColor(g[x][y], col) :: Square(x, y)
  }


  /** Square n - 1 joins the colored squares among the first n exactly when
      it holds a piece of that colour. */
  lemma ColoredStep(g: Grid, col: Color, n: nat)
    requires 0 < n <= 64
    ensures SquareAt(n - 1) !in ColoredBefore(g, col, n - 1)
    ensures ColoredBefore(g, col, n) ==
            ColoredBefore(g, col, n - 1) + (if IsColor(At(g, SquareAt(n - 1)), col) then {SquareAt(n - 1)} else {})
  {
    var s := SquareAt(n - 1);
    IndexOfSquareAt(n - 1);
    var before, after := ColoredBefore(g, col, n - 1), ColoredBefore(g, col, n);
    var extra := if IsColor(At(g, s), col) then {s} else {};
    forall t | t in after ensures t in before + extra {
      if Index(t) == n - 1 { IndexInjective(t, s); }
    }
  }

  lemma {:induction false} PieceCountIsSetSize(g: Grid, col: Color, n: nat)
    requires n <= 64
    ensures PieceCount(g, col, n) == |ColoredBefore(g, col, n)|
  {
    if n > 0 {
      PieceCountIsSetSize(g, col, n - 1);
      ColoredStep(g, col, n);
    }
  }

  /** enemyPieceCount is the number of squares holding a piece of the other
      colour. */
  lemma EnemyCountIsOpponentPieces(g: Grid, myColor: Color)
    ensures EnemyCount(g, myColor) ==
            |set x: int, y: int | 0 <= x < 8 && 0 <= y < 8 && IsColor(g[x][y], Opponent(myColor)) :: Square(x, y)|
  {
    PieceCountIsSetSize(g, Opponent(myColor), 64);
    assert ColoredBefore(g, Opponent(myColor), 64) ==
           set x: int, y: int | 0 <= x < 8 && 0 <= y < 8 && IsColor(g[x][y], Opponent(myColor)) :: Square(x, y);
  }
}
