/** What the generators produce, stated against the movement predicates:
    GetAllMoves returns exactly the moves, from the squares of the side to
    move, that the matching predicate accepts (for the king, also those not
    moving into check), each once per square in row-major order. */
module MoveGenProofs {
  import opened Board
  import opened Rules
  import opened Attack
  import opened MoveGen

  // ---------------------------------------------------------------------
  // Rays.

  /** The target of a sliding loop from step i: ahead of the square at step
      i - 1, only empty squares in between, and empty or enemy-held. */
  predicate RayTarget(g: Grid, c: Color, s: Square, dx: int, dy: int, i: nat, t: Square)
    requires Dir(dx, dy) && i >= 1 && ValidLocation(Step(s.x, dx, i - 1), Step(s.y, dy, i - 1))
  {
    var px, py := Step(s.x, dx, i - 1), Step(s.y, dy, i - 1);
    Ahead(px, py, t.x, t.y, dx, dy) && Between(g, px, py, t.x, t.y, dx, dy) && Landable(At(g, t), c)
  }

  lemma {:induction false} RayOnlyTargets(g: Grid, c: Color, s: Square, dx: int, dy: int, i: nat, m: Move)
    requires Dir(dx, dy) && i >= 1 && ValidLocation(Step(s.x, dx, i - 1), Step(s.y, dy, i - 1))
    requires m in Ray(g, c, s, dx, dy, i)
    ensures m == Mv(s, m.to) && RayTarget(g, c, s, dx, dy, i, m.to)
    decreases 8 - i
  {
    var px, py := Step(s.x, dx, i - 1), Step(s.y, dy, i - 1);
    var x, y := Step(s.x, dx, i), Step(s.y, dy, i);
    assert x == px + dx && y == py + dy;
    var t0 := Square(x, y);
    if m == Mv(s, t0) {
      assert Ahead(px, py, x, y, dx, dy);
    } else {
      assert g[x][y] == Empty && m in Ray(g, c, s, dx, dy, i + 1);
      RayOnlyTargets(g, c, s, dx, dy, i + 1, m);
      StepBack(px, py, m.to, dx, dy);
    }
  }

  lemma {:induction false} RayAllTargets(g: Grid, c: Color, s: Square, dx: int, dy: int, i: nat, t: Square)
    requires Dir(dx, dy) && i >= 1 && ValidLocation(Step(s.x, dx, i - 1), Step(s.y, dy, i - 1))
    requires RayTarget(g, c, s, dx, dy, i, t)
    ensures Mv(s, t) in Ray(g, c, s, dx, dy, i)
    decreases 8 - i
  {
    var px, py := Step(s.x, dx, i - 1), Step(s.y, dy, i - 1);
    StepStaysOnBoard(px, py, t, dx, dy);
    var x, y := Step(s.x, dx, i), Step(s.y, dy, i);
    assert x == px + dx && y == py + dy;
    var t0 := Square(x, y);
    if t == t0 {
      if g[x][y] == Empty {
        assert Ray(g, c, s, dx, dy, i) == [Mv(s, t0)] + Ray(g, c, s, dx, dy, i + 1);
      }
    } else {
      assert g[x][y] == Empty;
      RayAllTargets(g, c, s, dx, dy, i + 1, t);
      assert Ray(g, c, s, dx, dy, i) == [Mv(s, t0)] + Ray(g, c, s, dx, dy, i + 1);
    }
  }

  /** A move is on a sliding loop from the piece's square exactly when its
      target lies ahead with only empty squares in between, and is empty or
      enemy-held. */
  lemma RayMember(g: Grid, c: Color, s: Square, dx: int, dy: int, m: Move)
    requires Dir(dx, dy)
    ensures m in Ray(g, c, s, dx, dy, 1) <==>
              m == Mv(s, m.to) && Ahead(s.x, s.y, m.to.x, m.to.y, dx, dy) &&
              Between(g, s.x, s.y, m.to.x, m.to.y, dx, dy) && Landable(At(g, m.to), c)
  {
    assert Step(s.x, dx, 0) == s.x && Step(s.y, dy, 0) == s.y;
    if m in Ray(g, c, s, dx, dy, 1) {
      RayOnlyTargets(g, c, s, dx, dy, 1, m);
    }
    if m == Mv(s, m.to) && RayTarget(g, c, s, dx, dy, 1, m.to) {
      RayAllTargets(g, c, s, dx, dy, 1, m.to);
    }
  }

  /** The diagonal direction from s towards t, when t is on a diagonal of s. */
  lemma DiagonalAhead(s: Square, t: Square, dx: int, dy: int)
    requires dx == -1 || dx == 1
    requires dy == -1 || dy == 1
    ensures Ahead(s.x, s.y, t.x, t.y, dx, dy) <==>
              t.x != s.x && t.y != s.y && Abs(t.y - s.y) == Abs(t.x - s.x) &&
              (t.x > s.x <==> dx == 1) && (t.y > s.y <==> dy == 1)
  {
  }

  /** GetBishopMoves yields exactly the moves BishopToMove accepts. */
  lemma BishopMovesExact(g: Grid, c: Color, s: Square, m: Move)
    ensures m in BishopMoves(g, c, s) <==> m == Mv(s, m.to) && BishopToMove(g, m, c)
  {
    RayMember(g, c, s, 1, 1, m);
    RayMember(g, c, s, -1, 1, m);
    RayMember(g, c, s, 1, -1, m);
    RayMember(g, c, s, -1, -1, m);
    DiagonalAhead(s, m.to, 1, 1);
    DiagonalAhead(s, m.to, -1, 1);
    DiagonalAhead(s, m.to, 1, -1);
    DiagonalAhead(s, m.to, -1, -1);
  }

  /** GetRookMoves yields exactly the moves RookToMove accepts, for a piece of
      colour c on s (which rules out the move onto its own square). */
  lemma RookMovesExact(g: Grid, c: Color, s: Square, m: Move)
    requires IsColor(At(g, s), c)
    ensures m in RookMoves(g, c, s) <==> m == Mv(s, m.to) && RookToMove(g, m, c)
  {
    RayMember(g, c, s, 0, 1, m);
    RayMember(g, c, s, 0, -1, m);
    RayMember(g, c, s, 1, 0, m);
    RayMember(g, c, s, -1, 0, m);
  }

  /** GetKnightMoves yields exactly the moves KnightToMove accepts. */
  lemma KnightMovesExact(g: Grid, c: Color, s: Square, m: Move)
    requires IsColor(At(g, s), c)
    ensures m in KnightMoves(g, c, s) <==> m == Mv(s, m.to) && KnightToMove(g, m, c)
  {
    JumpMember(g, c, s, -1, -2, m);
    JumpMember(g, c, s, -2, -1, m);
    JumpMember(g, c, s, 1, -2, m);
    JumpMember(g, c, s, 2, -1, m);
    JumpMember(g, c, s, -1, 2, m);
    JumpMember(g, c, s, -2, 1, m);
    JumpMember(g, c, s, 1, 2, m);
    JumpMember(g, c, s, 2, 1, m);
  }

  lemma JumpMember(g: Grid, c: Color, s: Square, dx: int, dy: int, m: Move)
    ensures m in Jump(g, c, s, dx, dy) <==>
              m == Mv(s, m.to) && m.to.x == s.x + dx && m.to.y == s.y + dy && Landable(At(g, m.to), c)
  {
  }

  lemma KingStepMember(g: Grid, c: Color, s: Square, dx: int, dy: int, m: Move)
    ensures m in KingStep(g, c, s, dx, dy) <==>
              m == Mv(s, m.to) && m.to.x == s.x + dx && m.to.y == s.y + dy && Landable(At(g, m.to), c) &&
              !IntoCheck(g, m)
  {
  }

  /** GetKingMoves yields exactly the moves KingToMove accepts that do not
      move into check; there are at most eight. */
  lemma KingMovesExact(g: Grid, c: Color, s: Square, m: Move)
    requires IsColor(At(g, s), c)
    ensures m in KingMoves(g, c, s) <==> m == Mv(s, m.to) && KingToMove(g, m, c) && !IntoCheck(g, m)
    ensures m in KingMoves(g, c, s) ==> Dist(s, m.to) == 1
    ensures |KingMoves(g, c, s)| <= 8
  {
    KingStepMember(g, c, s, 0, 1, m);
    KingStepMember(g, c, s, 0, -1, m);
    KingStepMember(g, c, s, 1, 0, m);
    KingStepMember(g, c, s, -1, 0, m);
    KingStepMember(g, c, s, 1, 1, m);
    KingStepMember(g, c, s, -1, 1, m);
    KingStepMember(g, c, s, 1, -1, m);
    KingStepMember(g, c, s, -1, -1, m);
  }

  /** GetPawnMoves yields exactly the moves PawnToMove accepts. */
  lemma PawnMovesExact(g: Grid, c: Color, s: Square, m: Move)
    requires At(g, s) == Piece(c, Pawn) && PawnCanStep(c, s)
    ensures m in PawnMoves(g, c, s) <==> m == Mv(s, m.to) && PawnToMove(g, m)
  {
    if c == White {
      WhitePawnMovesExact(g, s, m);
    } else {
      BlackPawnMovesExact(g, s, m);
    }
  }

  lemma WhitePawnMovesExact(g: Grid, s: Square, m: Move)
    requires At(g, s) == WhitePawn && PawnCanStep(White, s)
    ensures m in PawnMoves(g, White, s) <==> m == Mv(s, m.to) && PawnToMove(g, m)
  {
    var x, y := s.x, s.y;
    var forward := if g[x][y - 1] == Empty then [Mv(s, Square(x, y - 1))] else [];
    var double := if y == 6 && g[x][y - 2] == Empty && g[x][y - 1] == Empty then [Mv(s, Square(x, y - 2))] else [];
    var left := if x > 0 && y > 0 && IsEnemy(g[x - 1][y - 1], White) then [Mv(s, Square(x - 1, y - 1))] else [];
    var right := if x < 7 && y > 0 && IsEnemy(g[x + 1][y - 1], White) then [Mv(s, Square(x + 1, y - 1))] else [];
    assert PawnMoves(g, White, s) == forward + double + left + right;
    assert m in PawnMoves(g, White, s) <==> m in forward || m in double || m in left || m in right;
  }

  lemma BlackPawnMovesExact(g: Grid, s: Square, m: Move)
    requires At(g, s) == BlackPawn && PawnCanStep(Black, s)
    ensures m in PawnMoves(g, Black, s) <==> m == Mv(s, m.to) && PawnToMove(g, m)
  {
    var x, y := s.x, s.y;
    var forward := if g[x][y + 1] == Empty then [Mv(s, Square(x, y + 1))] else [];
    var double := if y == 1 && g[x][y + 2] == Empty && g[x][y + 1] == Empty then [Mv(s, Square(x, y + 2))] else [];
    var right := if x < 7 && y < 7 && IsEnemy(g[x + 1][y + 1], Black) then [Mv(s, Square(x + 1, y + 1))] else [];
    var left := if x > 0 && y < 7 && IsEnemy(g[x - 1][y + 1], Black) then [Mv(s, Square(x - 1, y + 1))] else [];
    assert PawnMoves(g, Black, s) == forward + double + right + left;
    assert m in PawnMoves(g, Black, s) <==> m in forward || m in double || m in right || m in left;
  }

  // ---------------------------------------------------------------------
  // The dispatcher.

  /** The predicate that judges a move of the piece on its From square, as
      IsValidMove picks it; a king move must also not move into check. */
  predicate Accepts(g: Grid, m: Move, c: Color)
    requires IsColor(At(g, m.from), c)
    requires At(g, m.from).kind == Pawn ==> PawnCanStep(c, m.from)
  {
    match At(g, m.from).kind
    case Pawn => PawnToMove(g, m)
    case Knight => KnightToMove(g, m, c)
    case Bishop => BishopToMove(g, m, c)
    case Rook => RookToMove(g, m, c)
    case Queen => BishopToMove(g, m, c) || RookToMove(g, m, c)
    case King => KingToMove(g, m, c) && !IntoCheck(g, m)
  }

  lemma SquareMovesExact(g: Grid, c: Color, s: Square, m: Move)
    requires At(g, s) == Piece(c, Pawn) ==> PawnCanStep(c, s)
    ensures m in SquareMoves(g, c, s) <==>
              m == Mv(s, m.to) && IsColor(At(g, s), c) && Accepts(g, m, c)
  {
    if IsColor(At(g, s), c) {
      match At(g, s).kind
      case Pawn => PawnMovesExact(g, c, s, m);
      case Knight => KnightMovesExact(g, c, s, m);
      case Bishop => BishopMovesExact(g, c, s, m);
      case Rook => RookMovesExact(g, c, s, m);
      case Queen => RookMovesExact(g, c, s, m); BishopMovesExact(g, c, s, m);
      case King => KingMovesExact(g, c, s, m);
    }
  }


  lemma GenerableAt(g: Grid, c: Color, s: Square)
    requires Generable(g, c)
    ensures At(g, s) == Piece(c, Pawn) ==> PawnCanStep(c, s)
  {
  }

  /** Every move generated for a square starts on that square. */
  lemma SquareMovesFrom(g: Grid, c: Color, s: Square, m: Move)
    requires At(g, s) == Piece(c, Pawn) ==> PawnCanStep(c, s)
    requires m in SquareMoves(g, c, s)
    ensures m.from == s
  {
    SquareMovesExact(g, c, s, m);
  }

  /** The concatenation of parts[0], ..., parts[n - 1]. */
  function Flatten(parts: seq<seq<Move>>, n: nat): seq<Move>
    requires n <= |parts|
  {
    if n == 0 then [] else Flatten(parts, n - 1) + parts[n - 1]
  }

  /** When part k holds only moves from the square of index k, a move is in
      the first n parts exactly when it is in the part of its own square. */
  lemma {:induction false} FlattenMember(parts: seq<seq<Move>>, n: nat, m: Move)
    requires n <= |parts|
    requires forall k, mv :: 0 <= k < |parts| && mv in parts[k] ==> Index(mv.from) == k
    ensures m in Flatten(parts, n) <==> Index(m.from) < n && m in parts[Index(m.from)]
  {
    if n > 0 {
      FlattenMember(parts, n - 1, m);
      if m in parts[n - 1] {
        assert Index(m.from) == n - 1;
      }
    }
  }

  /** The moves of every square, by square index. */
  function SquareTable(g: Grid, c: Color): (r: seq<seq<Move>>)
    requires Generable(g, c)
    ensures |r| == 64
  {
    seq(64, k requires 0 <= k < 64 => SquareMoves(g, c, SquareAt(k)))
  }

  lemma {:induction false} MovesBeforeFlat(g: Grid, c: Color, n: nat)
    requires n <= 64 && Generable(g, c)
    ensures MovesBefore(g, c, n) == Flatten(SquareTable(g, c), n)
  {
    if n > 0 {
      MovesBeforeFlat(g, c, n - 1);
    }
  }

  /** Each entry of the table holds only moves from its own square. */
  lemma SquareTableFrom(g: Grid, c: Color)
    requires Generable(g, c)
    ensures forall k, mv :: 0 <= k < 64 && mv in SquareTable(g, c)[k] ==> Index(mv.from) == k
  {
    forall k, mv | 0 <= k < 64 && mv in SquareTable(g, c)[k]
      ensures Index(mv.from) == k
    {
      SquareMovesFrom(g, c, SquareAt(k), mv);
      IndexOfSquareAt(k);
    }
  }

  /** The moves of the first n squares are the moves each of those squares
      generates. */
  lemma MovesBeforeSquares(g: Grid, c: Color, n: nat, m: Move)
    requires n <= 64 && Generable(g, c)
    ensures m in MovesBefore(g, c, n) <==> Index(m.from) < n && m in SquareMoves(g, c, m.from)
  {
    MovesBeforeFlat(g, c, n);
    SquareTableFrom(g, c);
    FlattenMember(SquareTable(g, c), n, m);
    SquareAtIndex(m.from);
  }

  lemma MovesBeforeMember(g: Grid, c: Color, n: nat, m: Move)
    requires n <= 64 && Generable(g, c)
    ensures m in MovesBefore(g, c, n) <==>
              Index(m.from) < n && m == Mv(m.from, m.to) && IsColor(At(g, m.from), c) && Accepts(g, m, c)
  {
    GenerableAt(g, c, m.from);
    MovesBeforeSquares(g, c, n, m);
    SquareMovesExact(g, c, m.from, m);
  }

  /** GetAllMoves returns exactly the moves from squares of colour c that the
      matching predicate accepts (both directions). */
  lemma AllMovesExact(g: Grid, c: Color, m: Move)
    requires Generable(g, c)
    ensures m in AllMoves(g, c) <==> m == Mv(m.from, m.to) && IsColor(At(g, m.from), c) && Accepts(g, m, c)
  {
    SquareAtIndex(m.from);
    MovesBeforeMember(g, c, 64, m);
  }

  /** Every generated move starts on a piece of the side to move, leaves its
      square and lands on an empty or enemy-held square. */
  lemma AllMovesSound(g: Grid, c: Color, m: Move)
    requires Generable(g, c)
    requires m in AllMoves(g, c)
    ensures IsColor(At(g, m.from), c)
    ensures m.to != m.from && Landable(At(g, m.to), c)
    ensures m.flag == NoFlag && m.value == 0
  {
    AllMovesExact(g, c, m);
    GenerableAt(g, c, m.from);
    AcceptsLands(g, m, c);
  }

  /** A move any of the predicates accepts leaves its square and lands on an
      empty or enemy-held square. */
  lemma AcceptsLands(g: Grid, m: Move, c: Color)
    requires IsColor(At(g, m.from), c) && (At(g, m.from).kind == Pawn ==> PawnCanStep(c, m.from))
    requires Accepts(g, m, c)
    ensures m.to != m.from && Landable(At(g, m.to), c)
  {
    match At(g, m.from).kind
    case Pawn =>
    case Knight =>
    case Bishop =>
    case Rook =>
    case Queen =>
    case King =>
  }
}
