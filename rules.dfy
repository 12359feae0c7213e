/** The movement predicates the engine uses to judge one proposed move
    (PawnToMove, KnightToMove, BishopToMove, RookToMove, KingToMove), and the
    ray geometry they share with the generators and the check detector. */
module Rules {
  import opened Board

  function Abs(n: int): nat { if n < 0 then -n else n }

  /** (tx, ty) lies one or more steps from (x, y) in direction (dx, dy),
      each component of the direction being -1, 0 or 1. */
  predicate Ahead(x: int, y: int, tx: int, ty: int, dx: int, dy: int) {
    -1 <= dx <= 1 && -1 <= dy <= 1 && (dx != 0 || dy != 0) &&
    (if dx == 0 then tx == x else if dx > 0 then tx > x else tx < x) &&
    (if dy == 0 then ty == y else if dy > 0 then ty > y else ty < y) &&
    (dx != 0 && dy != 0 ==> Abs(tx - x) == Abs(ty - y))
  }

  /** Every square strictly between (x, y) and (tx, ty), walking in
      direction (dx, dy), is empty: the "piece in the way" loops. */
  function Between(g: Grid, x: Coord, y: Coord, tx: Coord, ty: Coord, dx: int, dy: int): bool
    requires Ahead(x, y, tx, ty, dx, dy)
    decreases Abs(tx - x) + Abs(ty - y)
  {
    var nx, ny := x + dx, y + dy;
    (nx == tx && ny == ty) || (g[nx][ny] == Empty && Between(g, nx, ny, tx, ty, dx, dy))
  }

  /** Where a move may land: an empty square or one holding an enemy of c. */
  predicate Landable(p: Piece, c: Color) { p == Empty || IsEnemy(p, c) }

  /** A pawn reads the square in front of it before anything else, so a
      white pawn on row 0 or a black pawn on row 7 makes the source index
      off the board. */
  predicate PawnCanLook(p: Piece, y: int) {
    (IsWhite(p) ==> y >= 1) && (IsBlack(p) ==> y <= 6)
  }

  /** PawnToMove: the colour is the sign of the piece on From. White:
      two squares from row 6 over two empty squares, one square onto an
      empty square, or one square diagonally forward onto an enemy. Black
      mirrors this from row 1 towards row 7. */
  function PawnToMove(g: Grid, m: Move): (r: bool)
    requires At(g, m.from) != Empty
    requires PawnCanLook(At(g, m.from), m.from.y)
    ensures r ==> Landable(At(g, m.to), At(g, m.from).color)
  {
    var ox, oy, tx, ty := m.from.x, m.from.y, m.to.x, m.to.y;
    if IsWhite(At(g, m.from)) then
      if oy == 6 && ty == 4 && ox == tx && g[ox][oy - 1] == Empty && g[ox][oy - 2] == Empty then true
      else if g[ox][oy - 1] == Empty && ty == oy - 1 && ox == tx then true
      else if Abs(tx - ox) == 1 && oy - ty == 1 && IsEnemy(g[tx][ty], White) then true
      else false
    else
      if oy == 1 && ty == 3 && ox == tx && g[ox][oy + 1] == Empty && g[ox][oy + 2] == Empty then true
      else if g[ox][oy + 1] == Empty && ty == oy + 1 && ox == tx then true
      else if Abs(tx - ox) == 1 && oy - ty == -1 && IsEnemy(g[tx][ty], Black) then true
      else false
  }

  /** A pawn moves ahead: straight by one, or by two, onto an empty square,
      or one square diagonally onto an enemy. */
  lemma PawnToMoveAhead(g: Grid, m: Move)
    requires At(g, m.from) != Empty
    requires PawnCanLook(At(g, m.from), m.from.y)
    ensures PawnToMove(g, m) ==>
              var ahead := if IsWhite(At(g, m.from)) then -1 else 1;
              (m.to.x == m.from.x && At(g, m.to) == Empty &&
               (m.to.y == m.from.y + ahead || m.to.y == m.from.y + 2 * ahead)) ||
              (Abs(m.to.x - m.from.x) == 1 && m.to.y == m.from.y + ahead && IsEnemy(At(g, m.to), At(g, m.from).color))
  {
  }

  /** KnightToMove: one step of 1 and one of 2, onto an empty or enemy square. */
  function KnightToMove(g: Grid, m: Move, c: Color): (r: bool)
    requires At(g, m.from) != Empty
    ensures r <==> Landable(At(g, m.to), c) &&
                   ((Abs(m.to.x - m.from.x) == 1 && Abs(m.to.y - m.from.y) == 2) ||
                    (Abs(m.to.x - m.from.x) == 2 && Abs(m.to.y - m.from.y) == 1))
  {
    var offsetX, offsetY := Abs(m.to.x - m.from.x), Abs(m.to.y - m.from.y);
    if (offsetX == 1 || offsetY == 1) && (offsetX == 2 || offsetY == 2) then
      At(g, m.to) == Empty || IsEnemy(At(g, m.to), c)
    else false
  }

  /** BishopToMove: a proper diagonal, not onto an own piece, with every
      square in between empty. */
  function BishopToMove(g: Grid, m: Move, c: Color): (r: bool)
    ensures r ==> Landable(At(g, m.to), c) && m.to != m.from && Abs(m.to.x - m.from.x) == Abs(m.to.y - m.from.y)
  {
    var ox, oy, tx, ty := m.from.x, m.from.y, m.to.x, m.to.y;
    if ty == oy || tx == ox then false
    else if Abs(ty - oy) != Abs(tx - ox) then false
    else if !IsEnemy(g[tx][ty], c) && g[tx][ty] != Empty then false
    else if ty < oy then
      if tx > ox then Between(g, ox, oy, tx, ty, 1, -1)
      else Between(g, ox, oy, tx, ty, -1, -1)
    else
      if tx > ox then Between(g, ox, oy, tx, ty, 1, 1)
      else Between(g, ox, oy, tx, ty, -1, 1)
  }

  /** RookToMove: along the row or the column, not onto an own piece, with
      every square in between empty. A move onto its own square passes the
      path test with no squares to look at (the source's "moving left" loop
      runs zero times). */
  function RookToMove(g: Grid, m: Move, c: Color): (r: bool)
    ensures r ==> Landable(At(g, m.to), c) && (m.to.x == m.from.x || m.to.y == m.from.y)
  {
    var ox, oy, tx, ty := m.from.x, m.from.y, m.to.x, m.to.y;
    if !IsEnemy(g[tx][ty], c) && g[tx][ty] != Empty then false
    else if ty == oy then
      if tx > ox then Between(g, ox, oy, tx, ty, 1, 0)
      else if tx < ox then Between(g, ox, oy, tx, ty, -1, 0)
      else true
    else if tx == ox then
      if ty > oy then Between(g, ox, oy, tx, ty, 0, 1)
      else Between(g, ox, oy, tx, ty, 0, -1)
    else false
  }

  /** KingToMove: at most one step in each direction, onto an empty or enemy
      square. */
  function KingToMove(g: Grid, m: Move, c: Color): (r: bool)
    ensures r <==> Abs(m.to.x - m.from.x) <= 1 && Abs(m.to.y - m.from.y) <= 1 && Landable(At(g, m.to), c)
  {
    var offsetX, offsetY := Abs(m.to.x - m.from.x), Abs(m.to.y - m.from.y);
    if offsetX > 1 || offsetY > 1 then false
    else if At(g, m.to) == Empty || IsEnemy(At(g, m.to), c) then true
    else false
  }
}
