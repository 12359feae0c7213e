/** The check detector: KingInCheck finds a king and runs three scans on its
    square, CheckDiagonal, CheckHorizontalAndVertical and CheckFromKnight.
    Each scan is modelled after its loop; AttackedBy is an independent
    statement of what makes a square attacked, and the lemmas at the end
    prove the scans equal to it. */
module Attack {
  import opened Board
  import opened Rules

  /** A direction: each component -1, 0 or 1, not both 0. */
  predicate Dir(dx: int, dy: int) { -1 <= dx <= 1 && -1 <= dy <= 1 && (dx != 0 || dy != 0) }

  /** a moved i steps in direction d (d in {-1, 0, 1}). */
  function Step(a: int, d: int, i: int): int { if d > 0 then a + i else if d < 0 then a - i else a }

  /** King's-move distance between two squares. */
  function Dist(s: Square, t: Square): nat {
    if Abs(t.x - s.x) >= Abs(t.y - s.y) then Abs(t.x - s.x) else Abs(t.y - s.y)
  }

  /** What one occupied or empty square on a ray means for a king of colour
      col, i squares away: an enemy slider of the ray's kind or an enemy
      queen attacks, an enemy king attacks from one square away, any other
      piece blocks the ray, and an empty square lets the scan go on. */
  datatype Look = Hit | Blocked | Open

  function LookAt(p: Piece, col: Color, slider: Kind, i: int): Look {
    if p == Empty then Open
    else if IsEnemy(p, col) then
      if p.kind == slider || p.kind == Queen then Hit
      else if i == 1 && p.kind == King then Hit
      else Blocked
    else Blocked
  }

  /** One scan loop: look at the square i steps from s in direction
      (dx, dy) and go on outwards while the squares are empty and on the
      board. */
  function Scan(g: Grid, s: Square, col: Color, dx: int, dy: int, slider: Kind, i: nat): bool
    requires Dir(dx, dy) && i >= 1
    decreases 8 - i, g
  {
    var x, y := Step(s.x, dx, i), Step(s.y, dy, i);
    if !ValidLocation(x, y) then false
    else match LookAt(g[x][y], col, slider, i)
      case Hit => true
      case Blocked => false
      case Open => Scan(g, s, col, dx, dy, slider, i + 1)
  }

  /** The pawn special case of CheckDiagonal: an enemy pawn on one of the
      two squares diagonally in front of the king (towards row 0 for a
      white king, towards row 7 for a black king). */
  function PawnNextToKing(g: Grid, s: Square, col: Color): bool {
    if col == White then
      (s.x - 1 >= 0 && s.y - 1 >= 0 && g[s.x - 1][s.y - 1] == BlackPawn) ||
      (s.x + 1 <= 7 && s.y - 1 >= 0 && g[s.x + 1][s.y - 1] == BlackPawn)
    else
      (s.x - 1 >= 0 && s.y + 1 <= 7 && g[s.x - 1][s.y + 1] == WhitePawn) ||
      (s.x + 1 <= 7 && s.y + 1 <= 7 && g[s.x + 1][s.y + 1] == WhitePawn)
  }

  /** One of the two loops of CheckDiagonal: for i = 1 up to the board edge
      on the side dx (-1 left, +1 right), look first at the upper diagonal
      square (row - i), then at the lower one (row + i), each until its
      diagonal is found blocked; stop early once both are blocked. */
  function DiagonalPair(g: Grid, s: Square, col: Color, dx: int, i: nat, upSafe: bool, downSafe: bool): bool
    requires dx == -1 || dx == 1
    requires i >= 1
    decreases 9 - i, g
  {
    var limit := if dx < 0 then s.x else 7 - s.x;
    if i > limit then false
    else if upSafe && downSafe then false
    else
      var x := Step(s.x, dx, i);
      var up := if !upSafe && s.y - i >= 0 then LookAt(g[x][s.y - i], col, Bishop, i) else Open;
      if up == Hit then true
      else
        var down := if !downSafe && s.y + i <= 7 then LookAt(g[x][s.y + i], col, Bishop, i) else Open;
        if down == Hit then true
        else DiagonalPair(g, s, col, dx, i + 1, upSafe || up == Blocked, downSafe || down == Blocked)
  }

  /** CheckDiagonal: the king's colour is the sign of its code; the source
      throws when the square is empty. */
  function CheckDiagonal(g: Grid, s: Square): bool
    requires At(g, s) != Empty
  {
    var col := At(g, s).color;
    if PawnNextToKing(g, s, col) then true
    else if DiagonalPair(g, s, col, -1, 1, false, false) then true
    else DiagonalPair(g, s, col, 1, 1, false, false)
  }

  /** CheckHorizontalAndVertical: left, right, up, down. */
  function CheckHorizontalAndVertical(g: Grid, s: Square): bool
    requires At(g, s) != Empty
  {
    var col := At(g, s).color;
    Scan(g, s, col, -1, 0, Rook, 1) || Scan(g, s, col, 1, 0, Rook, 1) ||
    Scan(g, s, col, 0, -1, Rook, 1) || Scan(g, s, col, 0, 1, Rook, 1)
  }

  /** An enemy knight on the square (x, y), if that square is on the board. */
  function KnightOn(g: Grid, x: int, y: int, col: Color): bool {
    ValidLocation(x, y) && g[x][y] == Piece(Opponent(col), Knight)
  }

  /** CheckFromKnight: the eight knight offsets, in the source's order. */
  function CheckFromKnight(g: Grid, s: Square): bool
    requires At(g, s) != Empty
  {
    var col := At(g, s).color;
    var x: int, y: int := s.x, s.y;
    KnightOn(g, x + 1, y + 2, col) || KnightOn(g, x + 1, y - 2, col) ||
    KnightOn(g, x - 1, y - 2, col) || KnightOn(g, x - 1, y + 2, col) ||
    KnightOn(g, x + 2, y + 1, col) || KnightOn(g, x + 2, y - 1, col) ||
    KnightOn(g, x - 2, y - 1, col) || KnightOn(g, x - 2, y + 1, col)
  }

  /** The square with row-major index i (row Y = i / 8, column X = i % 8). */
  function SquareAt(i: int): Square
    requires 0 <= i < 64
  {
    Square(i % 8, i / 8)
  }

  function Index(s: Square): nat { s.y * 8 + s.x }

  lemma SquareAtIndex(s: Square)
    ensures Index(s) < 64 && SquareAt(Index(s)) == s
  {
  }

  lemma IndexOfSquareAt(k: nat)
    requires k < 64
    ensures Index(SquareAt(k)) == k
  {
  }

  /** The first square, in the row-major order of the source's nested loops
      (Y outer, X inner), from index i on that holds p. */
  function FindFrom(g: Grid, p: Piece, i: nat): (r: Option<Square>)
    requires i <= 64
    ensures r.Some? ==> At(g, r.value) == p && i <= Index(r.value) &&
                        forall t: Square :: i <= Index(t) < Index(r.value) ==> At(g, t) != p
    ensures r.None? ==> forall t: Square :: i <= Index(t) ==> At(g, t) != p
    decreases 64 - i, g
  {
    if i == 64 then None
    else if At(g, SquareAt(i)) == p then Some(SquareAt(i))
    else FindFrom(g, p, i + 1)
  }

  /** KingInCheck(board, king): false when no square holds the king;
      otherwise the three scans on the first square that does. */
  function KingInCheck(g: Grid, king: Piece): bool
    requires king != Empty
  {
    match FindFrom(g, king, 0)
    case None => false
    case Some(s) =>
      if CheckDiagonal(g, s) then true
      else if CheckHorizontalAndVertical(g, s) then true
      else if CheckFromKnight(g, s) then true
      else false
  }

  // ---------------------------------------------------------------------
  // The reference: what it means for a square to be attacked.

  /** An enemy pawn stands where it captures onto s: a white pawn captures
      diagonally towards row 0, a black pawn towards row 7. */
  ghost predicate PawnAttack(g: Grid, s: Square, col: Color) {
    exists t: Square :: At(g, t) == Piece(Opponent(col), Pawn) && Abs(t.x - s.x) == 1 &&
                        t.y == (if col == White then s.y - 1 else s.y + 1)
  }

  /** Along direction (dx, dy) from s, the first occupied square holds an
      enemy that attacks along that line. */
  ghost predicate RayAttack(g: Grid, s: Square, col: Color, dx: int, dy: int, slider: Kind) {
    exists t: Square :: Ahead(s.x, s.y, t.x, t.y, dx, dy) && Between(g, s.x, s.y, t.x, t.y, dx, dy) &&
                        LookAt(At(g, t), col, slider, Dist(s, t)) == Hit
  }

  /** An enemy knight a knight's jump away. */
  ghost predicate KnightAttack(g: Grid, s: Square, col: Color) {
    exists t: Square :: At(g, t) == Piece(Opponent(col), Knight) &&
                        ((Abs(t.x - s.x) == 1 && Abs(t.y - s.y) == 2) || (Abs(t.x - s.x) == 2 && Abs(t.y - s.y) == 1))
  }

  ghost predicate DiagonalAttack(g: Grid, s: Square, col: Color) {
    RayAttack(g, s, col, -1, -1, Bishop) || RayAttack(g, s, col, -1, 1, Bishop) ||
    RayAttack(g, s, col, 1, -1, Bishop) || RayAttack(g, s, col, 1, 1, Bishop)
  }

  ghost predicate LineAttack(g: Grid, s: Square, col: Color) {
    RayAttack(g, s, col, -1, 0, Rook) || RayAttack(g, s, col, 1, 0, Rook) ||
    RayAttack(g, s, col, 0, -1, Rook) || RayAttack(g, s, col, 0, 1, Rook)
  }

  /** A king of colour col on s is attacked. */
  ghost predicate AttackedBy(g: Grid, s: Square, col: Color) {
    PawnAttack(g, s, col) || DiagonalAttack(g, s, col) || LineAttack(g, s, col) || KnightAttack(g, s, col)
  }

  // ---------------------------------------------------------------------
  // The scans equal the reference.

  /** Taking one step from p towards a square ahead of it stays on the board. */
  lemma StepStaysOnBoard(px: Coord, py: Coord, t: Square, dx: int, dy: int)
    requires Ahead(px, py, t.x, t.y, dx, dy)
    ensures ValidLocation(px + dx, py + dy)
    ensures (px + dx != t.x || py + dy != t.y) ==> Ahead(px + dx, py + dy, t.x, t.y, dx, dy)
  {
  }

  /** A step back from a square that is not the target keeps the target ahead. */
  lemma StepBack(px: Coord, py: Coord, t: Square, dx: int, dy: int)
    requires ValidLocation(px + dx, py + dy)
    requires Ahead(px + dx, py + dy, t.x, t.y, dx, dy)
    ensures Ahead(px, py, t.x, t.y, dx, dy)
  {
  }

  /** What a ray scan from step i finds: a square ahead of the square at step
      i - 1 whose piece hits the king and with every square in between empty. */
  ghost predicate FoundFrom(g: Grid, s: Square, col: Color, dx: int, dy: int, slider: Kind, i: nat, t: Square)
    requires Dir(dx, dy) && i >= 1 && ValidLocation(Step(s.x, dx, i - 1), Step(s.y, dy, i - 1))
  {
    var px, py := Step(s.x, dx, i - 1), Step(s.y, dy, i - 1);
    Ahead(px, py, t.x, t.y, dx, dy) && Between(g, px, py, t.x, t.y, dx, dy) &&
    LookAt(At(g, t), col, slider, Dist(s, t)) == Hit
  }

  lemma {:induction false} ScanFinds(g: Grid, s: Square, col: Color, dx: int, dy: int, slider: Kind, i: nat)
      returns (t: Square)
    requires Dir(dx, dy) && i >= 1 && ValidLocation(Step(s.x, dx, i - 1), Step(s.y, dy, i - 1))
    requires Scan(g, s, col, dx, dy, slider, i)
    ensures FoundFrom(g, s, col, dx, dy, slider, i, t)
    decreases 8 - i
  {
    var px, py := Step(s.x, dx, i - 1), Step(s.y, dy, i - 1);
    var x, y := Step(s.x, dx, i), Step(s.y, dy, i);
    assert x == px + dx && y == py + dy;
    assert ValidLocation(x, y);
    if LookAt(g[x][y], col, slider, i) == Hit {
      t := Square(x, y);
      assert Dist(s, t) == i;
      assert Ahead(px, py, t.x, t.y, dx, dy);
    } else {
      assert LookAt(g[x][y], col, slider, i) == Open;
      t := ScanFinds(g, s, col, dx, dy, slider, i + 1);
      assert Ahead(x, y, t.x, t.y, dx, dy) && Between(g, x, y, t.x, t.y, dx, dy);
      StepBack(px, py, t, dx, dy);
      assert Between(g, px, py, t.x, t.y, dx, dy);
    }
  }

  lemma {:induction false} ScanSees(g: Grid, s: Square, col: Color, dx: int, dy: int, slider: Kind, i: nat, t: Square)
    requires Dir(dx, dy) && i >= 1 && ValidLocation(Step(s.x, dx, i - 1), Step(s.y, dy, i - 1))
    requires FoundFrom(g, s, col, dx, dy, slider, i, t)
    ensures Scan(g, s, col, dx, dy, slider, i)
    decreases 8 - i
  {
    var px, py := Step(s.x, dx, i - 1), Step(s.y, dy, i - 1);
    StepStaysOnBoard(px, py, t, dx, dy);
    var x, y := Step(s.x, dx, i), Step(s.y, dy, i);
    assert x == px + dx && y == py + dy;
    if x == t.x && y == t.y {
      assert Dist(s, t) == i;
    } else {
      assert g[x][y] == Empty;
      ScanSees(g, s, col, dx, dy, slider, i + 1, t);
    }
  }

  /** A ray scan from the king's square finds an attacker exactly when the
      first occupied square along the ray is one. */
  lemma ScanIsRayAttack(g: Grid, s: Square, col: Color, dx: int, dy: int, slider: Kind)
    requires Dir(dx, dy)
    ensures Scan(g, s, col, dx, dy, slider, 1) <==> RayAttack(g, s, col, dx, dy, slider)
  {
    assert Step(s.x, dx, 0) == s.x && Step(s.y, dy, 0) == s.y;
    if Scan(g, s, col, dx, dy, slider, 1) {
      var t := ScanFinds(g, s, col, dx, dy, slider, 1);
    }
    if RayAttack(g, s, col, dx, dy, slider) {
      var t: Square :| Ahead(s.x, s.y, t.x, t.y, dx, dy) && Between(g, s.x, s.y, t.x, t.y, dx, dy) &&
                       LookAt(At(g, t), col, slider, Dist(s, t)) == Hit;
      ScanSees(g, s, col, dx, dy, slider, 1, t);
    }
  }

  /** The interleaved two-diagonal loop of CheckDiagonal is the two ray
      scans it interleaves, each skipped once its diagonal is blocked. */
  lemma {:induction false} DiagonalPairIsTwoScans(g: Grid, s: Square, col: Color, dx: int, i: nat, upSafe: bool, downSafe: bool)
    requires dx == -1 || dx == 1
    requires i >= 1
    ensures DiagonalPair(g, s, col, dx, i, upSafe, downSafe) <==>
            (!upSafe && Scan(g, s, col, dx, -1, Bishop, i)) || (!downSafe && Scan(g, s, col, dx, 1, Bishop, i))
    decreases 9 - i
  {
    var limit := if dx < 0 then s.x else 7 - s.x;
    var x := Step(s.x, dx, i);
    if i > limit {
      assert !ValidLocation(x, s.y - i) && !ValidLocation(x, s.y + i);
    } else if upSafe && downSafe {
    } else {
      var up := if !upSafe && s.y - i >= 0 then LookAt(g[x][s.y - i], col, Bishop, i) else Open;
      var down := if !downSafe && s.y + i <= 7 then LookAt(g[x][s.y + i], col, Bishop, i) else Open;
      assert Step(s.y, -1, i) == s.y - i && Step(s.y, 1, i) == s.y + i;
      assert Step(s.y, -1, i + 1) == s.y - i - 1 && Step(s.y, 1, i + 1) == s.y + i + 1;
      if !upSafe && up == Open {
        assert Scan(g, s, col, dx, -1, Bishop, i) == Scan(g, s, col, dx, -1, Bishop, i + 1);
      }
      if !downSafe && down == Open {
        assert Scan(g, s, col, dx, 1, Bishop, i) == Scan(g, s, col, dx, 1, Bishop, i + 1);
      }
      if up != Hit && down != Hit {
        DiagonalPairIsTwoScans(g, s, col, dx, i + 1, upSafe || up == Blocked, downSafe || down == Blocked);
      }
    }
  }

  lemma PawnNextToKingIsPawnAttack(g: Grid, s: Square, col: Color)
    ensures PawnNextToKing(g, s, col) <==> PawnAttack(g, s, col)
  {
    var dy := if col == White then -1 else 1;
    if PawnNextToKing(g, s, col) {
      if s.x - 1 >= 0 && 0 <= s.y + dy <= 7 && g[s.x - 1][s.y + dy] == Piece(Opponent(col), Pawn) {
        assert At(g, Square(s.x - 1, s.y + dy)) == Piece(Opponent(col), Pawn);
      } else {
        assert At(g, Square(s.x + 1, s.y + dy)) == Piece(Opponent(col), Pawn);
      }
    }
  }

  lemma KnightSeen(g: Grid, s: Square, col: Color, x: int, y: int)
    requires KnightOn(g, x, y, col)
    requires (Abs(x - s.x) == 1 && Abs(y - s.y) == 2) || (Abs(x - s.x) == 2 && Abs(y - s.y) == 1)
    ensures KnightAttack(g, s, col)
  {
    assert At(g, Square(x, y)) == Piece(Opponent(col), Knight);
  }

  lemma CheckFromKnightIsKnightAttack(g: Grid, s: Square)
    requires At(g, s) != Empty
    ensures CheckFromKnight(g, s) <==> KnightAttack(g, s, At(g, s).color)
  {
    var col := At(g, s).color;
    var x: int, y: int := s.x, s.y;
    if CheckFromKnight(g, s) {
      if KnightOn(g, x + 1, y + 2, col) { KnightSeen(g, s, col, x + 1, y + 2); }
      else if KnightOn(g, x + 1, y - 2, col) { KnightSeen(g, s, col, x + 1, y - 2); }
      else if KnightOn(g, x - 1, y - 2, col) { KnightSeen(g, s, col, x - 1, y - 2); }
      else if KnightOn(g, x - 1, y + 2, col) { KnightSeen(g, s, col, x - 1, y + 2); }
      else if KnightOn(g, x + 2, y + 1, col) { KnightSeen(g, s, col, x + 2, y + 1); }
      else if KnightOn(g, x + 2, y - 1, col) { KnightSeen(g, s, col, x + 2, y - 1); }
      else if KnightOn(g, x - 2, y - 1, col) { KnightSeen(g, s, col, x - 2, y - 1); }
      else { KnightSeen(g, s, col, x - 2, y + 1); }
    }
    if KnightAttack(g, s, col) {
      var t: Square :| At(g, t) == Piece(Opponent(col), Knight) &&
                       ((Abs(t.x - x) == 1 && Abs(t.y - y) == 2) || (Abs(t.x - x) == 2 && Abs(t.y - y) == 1));
      assert KnightOn(g, t.x, t.y, col);
    }
  }

  /** CheckDiagonal: an enemy pawn in capturing position, or an attacker
      first on one of the four diagonals. */
  lemma CheckDiagonalIsAttack(g: Grid, s: Square)
    requires At(g, s) != Empty
    ensures CheckDiagonal(g, s) <==> PawnAttack(g, s, At(g, s).color) || DiagonalAttack(g, s, At(g, s).color)
  {
    var col := At(g, s).color;
    PawnNextToKingIsPawnAttack(g, s, col);
    DiagonalPairIsTwoScans(g, s, col, -1, 1, false, false);
    DiagonalPairIsTwoScans(g, s, col, 1, 1, false, false);
    ScanIsRayAttack(g, s, col, -1, -1, Bishop);
    ScanIsRayAttack(g, s, col, -1, 1, Bishop);
    ScanIsRayAttack(g, s, col, 1, -1, Bishop);
    ScanIsRayAttack(g, s, col, 1, 1, Bishop);
  }

  /** CheckHorizontalAndVertical: an attacker first on the row or the column. */
  lemma CheckHorizontalAndVerticalIsAttack(g: Grid, s: Square)
    requires At(g, s) != Empty
    ensures CheckHorizontalAndVertical(g, s) <==> LineAttack(g, s, At(g, s).color)
  {
    var col := At(g, s).color;
    ScanIsRayAttack(g, s, col, -1, 0, Rook);
    ScanIsRayAttack(g, s, col, 1, 0, Rook);
    ScanIsRayAttack(g, s, col, 0, -1, Rook);
    ScanIsRayAttack(g, s, col, 0, 1, Rook);
  }

  lemma IndexInjective(s: Square, t: Square)
    requires Index(s) == Index(t)
    ensures s == t
  {
  }

  /** The search of KingInCheck stops on the first square holding the piece. */
  lemma FindsFirst(g: Grid, p: Piece, s: Square, i: nat)
    requires i <= Index(s)
    requires At(g, s) == p
    requires forall t: Square :: Index(t) < Index(s) ==> At(g, t) != p
    ensures FindFrom(g, p, i) == Some(s)
  {
    var r := FindFrom(g, p, i);
    if r.Some? && Index(r.value) == Index(s) {
      IndexInjective(r.value, s);
    }
  }

  /** KingInCheck is false when no square holds the king; otherwise it says
      whether the first square (row-major) holding it is attacked. */
  lemma KingInCheckIsAttacked(g: Grid, king: Piece, s: Square)
    requires king != Empty
    ensures (forall t: Square :: At(g, t) != king) ==> !KingInCheck(g, king)
    ensures At(g, s) == king && (forall t: Square :: Index(t) < Index(s) ==> At(g, t) != king) ==>
              (KingInCheck(g, king) <==> AttackedBy(g, s, king.color))
  {
    if At(g, s) == king && (forall t: Square :: Index(t) < Index(s) ==> At(g, t) != king) {
      FindsFirst(g, king, s, 0);
      CheckDiagonalIsAttack(g, s);
      CheckHorizontalAndVerticalIsAttack(g, s);
      CheckFromKnightIsKnightAttack(g, s);
    }
  }
}
