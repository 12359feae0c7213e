/** The chess board of the engine: piece codes, squares, moves and the
    8x8 grid indexed [X, Y] (X the column, Y the row). White pawns start on
    row 6 and move towards row 0; black pawns start on row 1 and move
    towards row 7. */
module Board {

  /** The two sides. The source encodes them as 0 and 1 and flips with
      Math.Abs(c - 1). */
  datatype Color = White | Black

  function Opponent(c: Color): (r: Color)
    ensures r != c
  {
    if c == White then Black else White
  }

  datatype Kind = Pawn | Knight | Bishop | Rook | Queen | King

  /** A piece code. The framework's codes are signed integers: white pieces
      are greater than Empty and black pieces less; the engine only ever
      compares a code with Empty or with a named constant, so the colour
      stands for the sign and the kind for the magnitude. */
  datatype Piece = Empty | Piece(color: Color, kind: Kind)

  const WhitePawn := Piece(White, Pawn)
  const BlackPawn := Piece(Black, Pawn)
  const WhiteKnight := Piece(White, Knight)
  const BlackKnight := Piece(Black, Knight)
  const WhiteKing := Piece(White, King)
  const BlackKing := Piece(Black, King)

  /** `code > ChessPiece.Empty` */
  predicate IsWhite(p: Piece) { p.Piece? && p.color == White }

  /** `code < ChessPiece.Empty` */
  predicate IsBlack(p: Piece) { p.Piece? && p.color == Black }

  predicate IsColor(p: Piece, c: Color) { p.Piece? && p.color == c }

  /** The king code of a side. */
  function KingOf(c: Color): Piece { Piece(c, King) }

  /** isEnemy: a piece is an enemy of White when its code is below Empty and
      an enemy of Black when its code is above Empty. */
  function IsEnemy(p: Piece, c: Color): (r: bool)
    ensures r ==> p != Empty
    ensures r <==> IsColor(p, Opponent(c))
  {
    if c == White && IsBlack(p) then true
    else if c == Black && IsWhite(p) then true
    else false
  }

  /** validLocation: both coordinates inside [0, 7]. */
  function ValidLocation(x: int, y: int): (r: bool)
    ensures r <==> 0 <= x < 8 && 0 <= y < 8
  {
    if x < 0 || x > 7 then false
    else if y < 0 || y > 7 then false
    else true
  }

  type Coord = i: int | 0 <= i < 8

  /** ChessLocation: a square of the board. */
  datatype Square = Square(x: Coord, y: Coord)

  datatype Option<T> = None | Some(value: T)

  /** A result, or the exception the source raises where it indexes off the
      board or dereferences null: a pawn of the side to move on its last row
      in GetPawnMoves, a black pawn on row 7 in CalcPieceCost, a move with no
      squares in GetNextMove's last log line. */
  datatype Outcome<T> = Ok(value: T) | Fault

  datatype Flag = NoFlag | Check | Checkmate | Stalemate

  /** ChessMove: the generators create moves with NoFlag and value 0; the
      search later writes the value and SetFlags the flag. */
  datatype Move = Move(from: Square, to: Square, flag: Flag, value: int)

  /** A freshly generated move. */
  function Mv(from: Square, to: Square): Move { Move(from, to, NoFlag, 0) }

  predicate IsGrid(g: seq<seq<Piece>>) {
    |g| == 8 && forall x :: 0 <= x < 8 ==> |g[x]| == 8
  }

  /** The value of a board: column X, row Y is g[X][Y]. */
  type Grid = g: seq<seq<Piece>> | IsGrid(g) witness seq(8, _ => seq(8, _ => Empty))

  function At(g: Grid, s: Square): Piece { g[s.x][s.y] }

  function Set(g: Grid, s: Square, p: Piece): (r: Grid)
    ensures forall x: Coord, y: Coord :: r[x][y] == if Square(x, y) == s then p else g[x][y]
  {
    g[s.x := g[s.x][s.y := p]]
  }

  /** ChessBoard.MakeMove as modelled here: the piece on From is put on To and
      From is cleared. */
  function Apply(g: Grid, m: Move): (r: Grid)
    ensures forall x: Coord, y: Coord {:trigger r[x][y]} :: r[x][y] ==
                                         if Square(x, y) == m.from then Empty
                                         else if Square(x, y) == m.to then At(g, m.from)
                                         else g[x][y]
  {
    Set(Set(g, m.to, At(g, m.from)), m.from, Empty)
  }

  /** Writing back the two squares saved before a move gives the board
      before the move: the restore step of every make/unmake in the engine. */
  lemma RestoreAfterApply(g: Grid, m: Move)
    ensures Set(Set(Apply(g, m), m.to, At(g, m.to)), m.from, At(g, m.from)) == g
  {
    var r := Set(Set(Apply(g, m), m.to, At(g, m.to)), m.from, At(g, m.from));
    forall x: Coord | true ensures r[x] == g[x] {
      forall y: Coord | true ensures r[x][y] == g[x][y] { }
    }
  }

  predicate IsBoard(a: array2<Piece>) { a.Length0 == 8 && a.Length1 == 8 }

  /** The current contents of a board array as a value. */
  function Snapshot(a: array2<Piece>): (g: Grid)
    requires IsBoard(a)
    reads a
    ensures forall x: Coord, y: Coord {:trigger g[x][y]} :: g[x][y] == a[x, y]
  {
    seq(8, x requires 0 <= x < 8 reads a => seq(8, y requires 0 <= y < 8 reads a => a[x, y]))
  }

  /** ChessBoard.MakeMove on the engine's board array. */
  method MakeMove(a: array2<Piece>, m: Move)
    requires IsBoard(a)
    modifies a
    ensures Snapshot(a) == Apply(old(Snapshot(a)), m)
  {
    ghost var g := Snapshot(a);
    a[m.to.x, m.to.y] := a[m.from.x, m.from.y];
    a[m.from.x, m.from.y] := Empty;
    assert Snapshot(a) == Apply(g, m) by {
      var r := Snapshot(a);
      var e := Apply(g, m);
      forall x: Coord | true ensures r[x] == e[x] {
        forall y: Coord | true ensures r[x][y] == e[x][y] { }
      }
    }
  }

  /** `board[square] = piece` */
  method Put(a: array2<Piece>, s: Square, p: Piece)
    requires IsBoard(a)
    modifies a
    ensures Snapshot(a) == Set(old(Snapshot(a)), s, p)
  {
    ghost var g := Snapshot(a);
    a[s.x, s.y] := p;
    assert Snapshot(a) == Set(g, s, p) by {
      var r := Snapshot(a);
      var e := Set(g, s, p);
      forall x: Coord | true ensures r[x] == e[x] {
        forall y: Coord | true ensures r[x][y] == e[x][y] { }
      }
    }
  }

  /** ChessBoard.Clone: a fresh board with the same contents. */
  method Clone(a: array2<Piece>) returns (b: array2<Piece>)
    requires IsBoard(a)
    ensures fresh(b) && IsBoard(b) && Snapshot(b) == Snapshot(a)
  {
    b := new Piece[8, 8];
    var x := 0;
    while x < 8
      invariant 0 <= x <= 8
      invariant forall i: Coord, j: Coord :: i < x ==> b[i, j] == a[i, j]
    {
      var y := 0;
      while y < 8
        invariant 0 <= y <= 8
        invariant forall i: Coord, j: Coord :: i < x || (i == x && j < y) ==> b[i, j] == a[i, j]
      {
        b[x, y] := a[x, y];
        y := y + 1;
      }
      x := x + 1;
    }
    assert Snapshot(b) == Snapshot(a) by {
      var r := Snapshot(b);
      var e := Snapshot(a);
      forall x: Coord | true ensures r[x] == e[x] {
        forall y: Coord | true ensures r[x][y] == e[x][y] { }
      }
    }
  }
}
