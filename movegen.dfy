/** The move generators: GetPawnMoves, GetKnightMoves, GetBishopMoves,
    GetRookMoves, GetKingMoves, the row-major dispatcher GetAllMoves and the
    legality filter MovesIntoCheck. Each generator is a function on the
    board's value that fixes the moves and their order, and a method on the
    board array that builds the list step by step and is proved to return
    that function's value. */
module MoveGen {
  import opened Board
  import opened Rules
  import opened Attack

  // ---------------------------------------------------------------------
  // Legality filter.

  /** The king MovesIntoCheck looks for: the White king when the piece on
      From is White (`> Empty`), the Black king otherwise. */
  function MoverKing(p: Piece): (r: Piece)
    ensures r != Empty && r.kind == King
    ensures p != Empty ==> r == KingOf(p.color)
  {
    if IsWhite(p) then WhiteKing else BlackKing
  }

  /** MovesIntoCheck as a value: the mover's king is in check on the board
      after the move. */
  function IntoCheck(g: Grid, m: Move): bool {
    KingInCheck(Apply(g, m), MoverKing(At(g, m.from)))
  }

  /** MovesIntoCheck: make the move on the shared board, look for check, then
      write back the two saved squares. */
  method MovesIntoCheck(board: array2<Piece>, m: Move) returns (inCheck: bool)
    requires IsBoard(board)
    modifies board
    ensures Snapshot(board) == old(Snapshot(board))
    ensures inCheck == IntoCheck(old(Snapshot(board)), m)
  {
    ghost var g := Snapshot(board);
    var tempPieceTo := board[m.to.x, m.to.y];
    var tempPieceFrom := board[m.from.x, m.from.y];
    var myKing := BlackKing;
    if IsWhite(board[m.from.x, m.from.y]) {
      myKing := WhiteKing;
    }
    MakeMove(board, m);
    inCheck := KingInCheck(Snapshot(board), myKing);
    Put(board, m.to, tempPieceTo);
    Put(board, m.from, tempPieceFrom);
    RestoreAfterApply(g, m);
  }

  // ---------------------------------------------------------------------
  // The generators as functions.

  /** Every move of ms is a freshly generated move from s. */
  predicate AllFrom(ms: seq<Move>, s: Square) {
    forall m :: m in ms ==> m == Mv(s, m.to)
  }

  /** The square (x + dx, y + dy) as a one-move list when it is on the board
      and empty or held by an enemy: one guarded block of GetKnightMoves. */
  function Jump(g: Grid, c: Color, s: Square, dx: int, dy: int): (r: seq<Move>)
    ensures |r| <= 1
  {
    var x, y := s.x + dx, s.y + dy;
    if ValidLocation(x, y) && (g[x][y] == Empty || IsEnemy(g[x][y], c)) then [Mv(s, Square(x, y))] else []
  }

  /** A white pawn looks at row Y - 1 and a black pawn at row Y + 1 without a
      bounds check. */
  predicate PawnCanStep(c: Color, s: Square) {
    if c == White then s.y >= 1 else s.y <= 6
  }

  /** GetPawnMoves: one step forward onto an empty square, two steps from
      the start row over two empty squares, then the two diagonal captures
      (White: left then right; Black: right then left). */
  function PawnMoves(g: Grid, c: Color, s: Square): (r: seq<Move>)
    requires PawnCanStep(c, s)
    ensures |r| <= 4
  {
    var x, y := s.x, s.y;
    if c == White then
      (if g[x][y - 1] == Empty then [Mv(s, Square(x, y - 1))] else []) +
      (if y == 6 && g[x][y - 2] == Empty && g[x][y - 1] == Empty then [Mv(s, Square(x, y - 2))] else []) +
      (if x > 0 && y > 0 && IsEnemy(g[x - 1][y - 1], c) then [Mv(s, Square(x - 1, y - 1))] else []) +
      (if x < 7 && y > 0 && IsEnemy(g[x + 1][y - 1], c) then [Mv(s, Square(x + 1, y - 1))] else [])
    else
      (if g[x][y + 1] == Empty then [Mv(s, Square(x, y + 1))] else []) +
      (if y == 1 && g[x][y + 2] == Empty && g[x][y + 1] == Empty then [Mv(s, Square(x, y + 2))] else []) +
      (if x < 7 && y < 7 && IsEnemy(g[x + 1][y + 1], c) then [Mv(s, Square(x + 1, y + 1))] else []) +
      (if x > 0 && y < 7 && IsEnemy(g[x - 1][y + 1], c) then [Mv(s, Square(x - 1, y + 1))] else [])
  }

  /** GetKnightMoves: the eight jumps in the source's order. */
  function KnightMoves(g: Grid, c: Color, s: Square): (r: seq<Move>)
    ensures |r| <= 8
  {
    Jump(g, c, s, -1, -2) + Jump(g, c, s, -2, -1) + Jump(g, c, s, 1, -2) + Jump(g, c, s, 2, -1) +
    Jump(g, c, s, -1, 2) + Jump(g, c, s, -2, 1) + Jump(g, c, s, 1, 2) + Jump(g, c, s, 2, 1)
  }

  /** One sliding loop from step i on: empty squares are added and the loop
      goes on, the first enemy is added and ends it, an own piece or the
      board's edge ends it. */
  function Ray(g: Grid, c: Color, s: Square, dx: int, dy: int, i: nat): (r: seq<Move>)
    requires Dir(dx, dy) && i >= 1
    decreases 8 - i, g
  {
    var x, y := Step(s.x, dx, i), Step(s.y, dy, i);
    if !ValidLocation(x, y) then []
    else if g[x][y] == Empty then [Mv(s, Square(x, y))] + Ray(g, c, s, dx, dy, i + 1)
    else if IsEnemy(g[x][y], c) then [Mv(s, Square(x, y))]
    else []
  }

  /** GetRookMoves: down, up, right, left. */
  function RookMoves(g: Grid, c: Color, s: Square): (r: seq<Move>)
  {
    Ray(g, c, s, 0, 1, 1) + Ray(g, c, s, 0, -1, 1) + Ray(g, c, s, 1, 0, 1) + Ray(g, c, s, -1, 0, 1)
  }

  /** GetBishopMoves: down-right, down-left, up-right, up-left. */
  function BishopMoves(g: Grid, c: Color, s: Square): (r: seq<Move>)
  {
    Ray(g, c, s, 1, 1, 1) + Ray(g, c, s, -1, 1, 1) + Ray(g, c, s, 1, -1, 1) + Ray(g, c, s, -1, -1, 1)
  }

  /** One guarded block of GetKingMoves: a jump that does not move into check. */
  function KingStep(g: Grid, c: Color, s: Square, dx: int, dy: int): (r: seq<Move>)
    ensures |r| <= 1
  {
    var x, y := s.x + dx, s.y + dy;
    if ValidLocation(x, y) && (g[x][y] == Empty || IsEnemy(g[x][y], c)) && !IntoCheck(g, Mv(s, Square(x, y)))
    then [Mv(s, Square(x, y))] else []
  }

  /** GetKingMoves: down, up, right, left, down-right, down-left, up-right,
      up-left. */
  function KingMoves(g: Grid, c: Color, s: Square): (r: seq<Move>)
  {
    KingStep(g, c, s, 0, 1) + KingStep(g, c, s, 0, -1) + KingStep(g, c, s, 1, 0) + KingStep(g, c, s, -1, 0) +
    KingStep(g, c, s, 1, 1) + KingStep(g, c, s, -1, 1) + KingStep(g, c, s, 1, -1) + KingStep(g, c, s, -1, -1)
  }

  /** No pawn of colour c stands where GetPawnMoves would index off the board. */
  predicate Generable(g: Grid, c: Color) {
    forall x, y | 0 <= x < 8 && 0 <= y < 8 :: g[x][y] == Piece(c, Pawn) ==> PawnCanStep(c, Square(x, y))
  }

  /** The switch of GetAllMoves for one square: nothing for an empty square
      or a piece of the other colour; the queen's moves are the rook's
      followed by the bishop's. */
  function SquareMoves(g: Grid, c: Color, s: Square): (r: seq<Move>)
    requires At(g, s) == Piece(c, Pawn) ==> PawnCanStep(c, s)
  {
    var p := At(g, s);
    if p == Empty || p.color != c then []
    else match p.kind
      case Pawn => PawnMoves(g, c, s)
      case Knight => KnightMoves(g, c, s)
      case Bishop => BishopMoves(g, c, s)
      case Rook => RookMoves(g, c, s)
      case Queen => RookMoves(g, c, s) + BishopMoves(g, c, s)
      case King => KingMoves(g, c, s)
  }

  /** The moves of the first n squares in row-major order. */
  function MovesBefore(g: Grid, c: Color, n: nat): (r: seq<Move>)
    requires n <= 64 && Generable(g, c)
  {
    if n == 0 then [] else MovesBefore(g, c, n - 1) + SquareMoves(g, c, SquareAt(n - 1))
  }

  /** GetAllMoves: every square, rows outer and columns inner. */
  function AllMoves(g: Grid, c: Color): seq<Move>
    requires Generable(g, c)
  {
    MovesBefore(g, c, 64)
  }

  // ---------------------------------------------------------------------
  // The generators as methods on the board array.

  /** One guarded knight block: add the target if on the board and empty or
      enemy. */
  method TryJump(board: array2<Piece>, c: Color, s: Square, dx: int, dy: int) returns (moves: seq<Move>)
    requires IsBoard(board)
    ensures moves == Jump(Snapshot(board), c, s, dx, dy)
  {
    moves := [];
    var x, y := s.x + dx, s.y + dy;
    if ValidLocation(x, y) {
      if board[x, y] == Empty || IsEnemy(board[x, y], c) {
        moves := moves + [Mv(s, Square(x, y))];
      }
    }
  }

  method GetKnightMoves(board: array2<Piece>, c: Color, s: Square) returns (knightMoves: seq<Move>)
    requires IsBoard(board)
    ensures knightMoves == KnightMoves(Snapshot(board), c, s)
  {
    var m1 := TryJump(board, c, s, -1, -2);
    var m2 := TryJump(board, c, s, -2, -1);
    var m3 := TryJump(board, c, s, 1, -2);
    var m4 := TryJump(board, c, s, 2, -1);
    var m5 := TryJump(board, c, s, -1, 2);
    var m6 := TryJump(board, c, s, -2, 1);
    var m7 := TryJump(board, c, s, 1, 2);
    var m8 := TryJump(board, c, s, 2, 1);
    knightMoves := m1 + m2 + m3 + m4 + m5 + m6 + m7 + m8;
  }

  /** The four guarded blocks of GetPawnMoves, each adding at most one move. */
  method GetPawnMoves(board: array2<Piece>, c: Color, s: Square) returns (pawnMoves: seq<Move>)
    requires IsBoard(board) && PawnCanStep(c, s)
    ensures pawnMoves == PawnMoves(Snapshot(board), c, s)
  {
    ghost var g := Snapshot(board);
    var x, y := s.x, s.y;
    var forward, double, capture1, capture2: seq<Move> := [], [], [], [];
    if c == White {
      if board[x, y - 1] == Empty {
        forward := [Mv(s, Square(x, y - 1))];
      }
      if y == 6 && board[x, y - 2] == Empty && board[x, y - 1] == Empty {
        double := [Mv(s, Square(x, y - 2))];
      }
      if x > 0 && y > 0 {
        if IsEnemy(board[x - 1, y - 1], c) {
          capture1 := [Mv(s, Square(x - 1, y - 1))];
        }
      }
      if x < 7 && y > 0 {
        if IsEnemy(board[x + 1, y - 1], c) {
          capture2 := [Mv(s, Square(x + 1, y - 1))];
        }
      }
    } else {
      if board[x, y + 1] == Empty {
        forward := [Mv(s, Square(x, y + 1))];
      }
      if y == 1 && board[x, y + 2] == Empty && board[x, y + 1] == Empty {
        double := [Mv(s, Square(x, y + 2))];
      }
      if x < 7 && y < 7 {
        if IsEnemy(board[x + 1, y + 1], c) {
          capture1 := [Mv(s, Square(x + 1, y + 1))];
        }
      }
      if x > 0 && y < 7 {
        if IsEnemy(board[x - 1, y + 1], c) {
          capture2 := [Mv(s, Square(x - 1, y + 1))];
        }
      }
    }
    pawnMoves := forward + double + capture1 + capture2;
  }

  /** One sliding loop of GetRookMoves or GetBishopMoves: step (curX, curY)
      while the next square is on the board. */
  lemma AppendOne(a: seq<Move>, m: Move, b: seq<Move>)
    ensures (a + [m]) + b == a + ([m] + b)
  {
  }

  method Slide(board: array2<Piece>, c: Color, s: Square, dx: int, dy: int) returns (moves: seq<Move>)
    requires IsBoard(board) && Dir(dx, dy)
    ensures moves == Ray(Snapshot(board), c, s, dx, dy, 1)
  {
    ghost var g := Snapshot(board);
    moves := [];
    var curX: int, curY: int := s.x, s.y;
    ghost var i: nat := 1;
    while ValidLocation(curX + dx, curY + dy)
      invariant i >= 1 && curX == Step(s.x, dx, i - 1) && curY == Step(s.y, dy, i - 1)
      invariant moves + Ray(g, c, s, dx, dy, i) == Ray(g, c, s, dx, dy, 1)
      invariant !ValidLocation(curX + dx, curY + dy) ==> Ray(g, c, s, dx, dy, i) == []
      decreases 8 - i
    {
      curX, curY := curX + dx, curY + dy;
      assert curX == Step(s.x, dx, i) && curY == Step(s.y, dy, i);
      var p := board[curX, curY];
      assert p == g[curX][curY];
      var sq := Square(curX, curY);
      ghost var rest := Ray(g, c, s, dx, dy, i + 1);
      if p == Empty {
        assert Ray(g, c, s, dx, dy, i) == [Mv(s, sq)] + rest;
        AppendOne(moves, Mv(s, sq), rest);
        moves := moves + [Mv(s, sq)];
      } else if IsEnemy(p, c) {
        assert Ray(g, c, s, dx, dy, i) == [Mv(s, sq)];
        moves := moves + [Mv(s, sq)];
        break;
      } else {
        assert Ray(g, c, s, dx, dy, i) == [];
        assert moves == moves + [];
        break;
      }
      i := i + 1;
    }
  }

  method GetRookMoves(board: array2<Piece>, c: Color, s: Square) returns (rookMoves: seq<Move>)
    requires IsBoard(board)
    ensures rookMoves == RookMoves(Snapshot(board), c, s)
  {
    var down := Slide(board, c, s, 0, 1);
    var up := Slide(board, c, s, 0, -1);
    var right := Slide(board, c, s, 1, 0);
    var left := Slide(board, c, s, -1, 0);
    rookMoves := down + up + right + left;
  }

  method GetBishopMoves(board: array2<Piece>, c: Color, s: Square) returns (bishopMoves: seq<Move>)
    requires IsBoard(board)
    ensures bishopMoves == BishopMoves(Snapshot(board), c, s)
  {
    var downRight := Slide(board, c, s, 1, 1);
    var downLeft := Slide(board, c, s, -1, 1);
    var upRight := Slide(board, c, s, 1, -1);
    var upLeft := Slide(board, c, s, -1, -1);
    bishopMoves := downRight + downLeft + upRight + upLeft;
  }

  /** One guarded block of GetKingMoves; the probe restores the board. */
  method TryKingStep(board: array2<Piece>, c: Color, s: Square, dx: int, dy: int) returns (moves: seq<Move>)
    requires IsBoard(board)
    modifies board
    ensures Snapshot(board) == old(Snapshot(board))
    ensures moves == KingStep(old(Snapshot(board)), c, s, dx, dy)
  {
    moves := [];
    var x, y := s.x + dx, s.y + dy;
    if ValidLocation(x, y) {
      if board[x, y] == Empty || IsEnemy(board[x, y], c) {
        var kingMove := Mv(s, Square(x, y));
        var intoCheck := MovesIntoCheck(board, kingMove);
        if !intoCheck {
          moves := moves + [kingMove];
        }
      }
    }
  }

  method GetKingMoves(board: array2<Piece>, c: Color, s: Square) returns (kingMoves: seq<Move>)
    requires IsBoard(board)
    modifies board
    ensures Snapshot(board) == old(Snapshot(board))
    ensures kingMoves == KingMoves(old(Snapshot(board)), c, s)
  {
    var down := TryKingStep(board, c, s, 0, 1);
    var up := TryKingStep(board, c, s, 0, -1);
    var right := TryKingStep(board, c, s, 1, 0);
    var left := TryKingStep(board, c, s, -1, 0);
    var downRight := TryKingStep(board, c, s, 1, 1);
    var downLeft := TryKingStep(board, c, s, -1, 1);
    var upRight := TryKingStep(board, c, s, 1, -1);
    var upLeft := TryKingStep(board, c, s, -1, -1);
    kingMoves := down + up + right + left + downRight + downLeft + upRight + upLeft;
  }

  /** The switch of GetAllMoves on one square. */
  method GetSquareMoves(board: array2<Piece>, c: Color, s: Square) returns (moves: seq<Move>)
    requires IsBoard(board)
    requires At(Snapshot(board), s) == Piece(c, Pawn) ==> PawnCanStep(c, s)
    modifies board
    ensures Snapshot(board) == old(Snapshot(board))
    ensures moves == SquareMoves(old(Snapshot(board)), c, s)
  {
    var p := board[s.x, s.y];
    moves := [];
    if p != Empty && p.color == c {
      match p.kind
      case Pawn => moves := GetPawnMoves(board, c, s);
      case Knight => moves := GetKnightMoves(board, c, s);
      case Bishop => moves := GetBishopMoves(board, c, s);
      case Rook => moves := GetRookMoves(board, c, s);
      case Queen =>
        var rook := GetRookMoves(board, c, s);
        var bishop := GetBishopMoves(board, c, s);
        moves := rook + bishop;
      case King => moves := GetKingMoves(board, c, s);
    }
  }

  lemma MovesBeforeNext(g: Grid, c: Color, k: nat, s: Square)
    requires k < 64 && Generable(g, c) && s == SquareAt(k)
    ensures At(g, s) == Piece(c, Pawn) ==> PawnCanStep(c, s)
    ensures MovesBefore(g, c, k + 1) == MovesBefore(g, c, k) + SquareMoves(g, c, s)
  {
  }


  /** One square of GetAllMoves: its moves are appended to the list. */
  method AddSquareMoves(board: array2<Piece>, c: Color, s: Square, ghost n: nat, movesSoFar: seq<Move>)
      returns (allMoves: seq<Move>)
    requires IsBoard(board) && Generable(Snapshot(board), c)
    requires n < 64 && s == SquareAt(n) && movesSoFar == MovesBefore(Snapshot(board), c, n)
    modifies board
    ensures Snapshot(board) == old(Snapshot(board))
    ensures allMoves == MovesBefore(old(Snapshot(board)), c, n + 1)
  {
    MovesBeforeNext(Snapshot(board), c, n, s);
    var moves := GetSquareMoves(board, c, s);
    allMoves := movesSoFar + moves;
  }

  /** The inner loop of GetAllMoves: the squares of row y, left to right. */
  method AddRowMoves(board: array2<Piece>, c: Color, y: Coord, movesSoFar: seq<Move>) returns (allMoves: seq<Move>)
    requires IsBoard(board) && Generable(Snapshot(board), c)
    requires movesSoFar == MovesBefore(Snapshot(board), c, y * 8)
    modifies board
    ensures Snapshot(board) == old(Snapshot(board))
    ensures allMoves == MovesBefore(old(Snapshot(board)), c, y * 8 + 8)
  {
    ghost var g := Snapshot(board);
    ghost var n: nat := y * 8;
    allMoves := movesSoFar;
    var x := 0;
    while x < 8
      invariant 0 <= x <= 8 && n == y * 8 + x
      invariant Snapshot(board) == g
      invariant allMoves == MovesBefore(g, c, n)
    {
      SquareAtIndex(Square(x, y));
      allMoves := AddSquareMoves(board, c, Square(x, y), n, allMoves);
      x := x + 1;
      n := n + 1;
    }
  }

  method GetAllMoves(board: array2<Piece>, c: Color) returns (allMoves: seq<Move>)
    requires IsBoard(board) && Generable(Snapshot(board), c)
    modifies board
    ensures Snapshot(board) == old(Snapshot(board))
    ensures allMoves == AllMoves(old(Snapshot(board)), c)
  {
    ghost var g := Snapshot(board);
    ghost var n: nat := 0;
    allMoves := [];
    var y := 0;
    while y < 8
      invariant 0 <= y <= 8 && n == y * 8
      invariant Snapshot(board) == g
      invariant allMoves == MovesBefore(g, c, n)
    {
      allMoves := AddRowMoves(board, c, y, allMoves);
      y := y + 1;
      n := n + 8;
    }
  }
}
