/** Judging a move: SetFlags labels the engine's own move as Check or
    Checkmate, and IsValidMove is the validator the framework runs on the
    opponent's move. Both are functions on board values that fix the
    answer, and methods on the board array proved to give that answer. */
module Judge {
  import opened Board
  import opened Rules
  import opened Attack
  import opened MoveGen
  import opened MoveGenProofs
  import opened Search

  /** Some move of ms does not move into check on g: the loops that clear
      `noMoves` at the first such move. */
  predicate Escapes(g: Grid, ms: seq<Move>) {
    Legal(g, ms) != []
  }

  /** Escapes means what it says: some move of the list does not move into
      check. */
  lemma {:induction false} EscapesMeaning(g: Grid, ms: seq<Move>)
    ensures Escapes(g, ms) <==> exists k :: 0 <= k < |ms| && !IntoCheck(g, ms[k])
  {
    if |ms| > 0 {
      LegalFrom(g, ms, 0);
      assert ms[0..] == ms;
      EscapesMeaning(g, ms[1..]);
      if exists k :: 0 <= k < |ms| && !IntoCheck(g, ms[k]) {
        var k :| 0 <= k < |ms| && !IntoCheck(g, ms[k]);
        if k > 0 {
          assert ms[1..][k - 1] == ms[k];
        }
      }
      if exists k :: 0 <= k < |ms[1..]| && !IntoCheck(g, ms[1..][k]) {
        var k :| 0 <= k < |ms[1..]| && !IntoCheck(g, ms[1..][k]);
        assert ms[k + 1] == ms[1..][k];
      }
    }
  }

  /** Walk ms, probing each move with MovesIntoCheck, and stop at the first
      one that does not move into check. */
  method FindEscape(board: array2<Piece>, ms: seq<Move>) returns (found: bool)
    requires IsBoard(board)
    modifies board
    ensures Snapshot(board) == old(Snapshot(board))
    ensures found == Escapes(old(Snapshot(board)), ms)
  {
    ghost var g := Snapshot(board);
    assert ms[0..] == ms;
    for k := 0 to |ms|
      invariant Snapshot(board) == g
      invariant Legal(g, ms[k..]) == Legal(g, ms)
    {
      var into := MovesIntoCheck(board, ms[k]);
      LegalFrom(g, ms, k);
      if !into {
        return true;
      }
    }
    assert ms[|ms|..] == [];
    return false;
  }

  // ---------------------------------------------------------------------
  // SetFlags.

  /** What SetFlags does to the move it is handed: replace it by a null
      move flagged Stalemate, or set its flag. */
  datatype Flagging = Replaced | Flagged(flag: Flag)

  /** SetFlags for side c playing m on g: a move into check is replaced;
      otherwise the flag is Check when the enemy king is attacked after the
      move, Checkmate when in addition no enemy reply escapes, and NoFlag
      when the enemy king is not attacked. Generating the replies faults
      where GetAllMoves would raise. */
  function FlagSpec(g: Grid, m: Move, c: Color): (r: Outcome<Flagging>)
  {
    if IntoCheck(g, m) then Ok(Replaced)
    else
      var a := Apply(g, m);
      if !KingInCheck(a, KingOf(Opponent(c))) then Ok(Flagged(NoFlag))
      else if !Generable(a, Opponent(c)) then Fault
      else if Escapes(a, AllMoves(a, Opponent(c))) then Ok(Flagged(Check))
      else Ok(Flagged(Checkmate))
  }

  method SetFlags(board: array2<Piece>, m: Move, c: Color) returns (r: Outcome<Flagging>)
    requires IsBoard(board)
    modifies board
    ensures Snapshot(board) == old(Snapshot(board))
    ensures r == FlagSpec(old(Snapshot(board)), m, c)
  {
    var into := MovesIntoCheck(board, m);
    if into {
      return Ok(Replaced);
    }
    var enemyKing := KingOf(Opponent(c));
    var boardAfterMove := Clone(board);
    MakeMove(boardAfterMove, m);
    if !KingInCheck(Snapshot(boardAfterMove), enemyKing) {
      return Ok(Flagged(NoFlag));
    }
    var ok := CanGenerate(boardAfterMove, Opponent(c));
    if !ok {
      return Fault;
    }
    var oppMoves := GetAllMoves(boardAfterMove, Opponent(c));
    var escape := FindEscape(boardAfterMove, oppMoves);
    r := if escape then Ok(Flagged(Check)) else Ok(Flagged(Checkmate));
  }

  // ---------------------------------------------------------------------
  // IsValidMove.

  /** The answer of IsValidMove and the board it leaves behind: the move
      stays made on the caller's board on several of its return paths. */
  datatype Verdict = Verdict(valid: Outcome<bool>, after: Grid)

  /** The switch on the piece on From, once it is neither empty nor a
      queen that fails both tests: the matching movement predicate, with
      the moving side's colour for the landing test. */
  function Shape(g: Grid, m: Move, c: Color): bool
    requires At(g, m.from) != Empty
    requires At(g, m.from).kind == Pawn ==> PawnCanLook(At(g, m.from), m.from.y)
  {
    match At(g, m.from).kind
    case Pawn => PawnToMove(g, m)
    case Rook => RookToMove(g, m, c)
    case Knight => KnightToMove(g, m, c)
    case Bishop => BishopToMove(g, m, c)
    case Queen => true
    case King => KingToMove(g, m, c)
  }

  /** The piece switch of IsValidMove: None to go on, Some(answer) for the
      paths that return or raise before the flags are looked at. */
  function Early(g: Grid, m: Move, c: Color): (r: Option<Outcome<bool>>)
    ensures r.None? ==> At(g, m.from) != Empty &&
                        (At(g, m.from).kind == Pawn ==> PawnCanLook(At(g, m.from), m.from.y))
  {
    var p := At(g, m.from);
    if p == Empty then Some(Ok(false))
    else if p.kind == Pawn && !PawnCanLook(p, m.from.y) then Some(Fault)
    else if p.kind == Queen && !BishopToMove(g, m, c) && !RookToMove(g, m, c) then Some(Ok(false))
    else None
  }

  /** IsValidMove for side c playing m on g. A move into check is invalid.
      The flag is then judged on the board after the move:
      - NoFlag: invalid when no move the player had before the move
        escapes on the board after it, or when the enemy king is attacked;
      - Check: invalid unless the enemy king is attacked;
      - Stalemate (judged on the board before the move): valid exactly when
        the player's own king is not attacked and none of the player's
        moves escapes, whatever the piece's movement;
      - Checkmate: valid exactly when the enemy king is attacked and no
        enemy reply escapes, whatever the piece's movement.
      NoFlag and Check then answer with the movement predicate. */
  function Validate(g: Grid, m: Move, c: Color): (r: Verdict)
  {
    if IntoCheck(g, m) then Verdict(Ok(false), g)
    else match Early(g, m, c)
      case Some(answer) => Verdict(answer, g)
      case None =>
        var isValid := Shape(g, m, c);
        if !Generable(g, c) then Verdict(Fault, g)
        else
          var a := Apply(g, m);
          if !Generable(a, Opponent(c)) then Verdict(Fault, a)
          else FlagVerdict(g, m, c, isValid)
  }

  /** The flag part of IsValidMove, once both move lists exist. */
  function FlagVerdict(g: Grid, m: Move, c: Color, isValid: bool): (r: Verdict)
    requires Generable(g, c) && Generable(Apply(g, m), Opponent(c))
  {
    var a := Apply(g, m);
    var enemyKing := KingOf(Opponent(c));
    match m.flag
    case NoFlag =>
      if !Escapes(a, AllMoves(g, c)) then Verdict(Ok(false), a)
      else if KingInCheck(a, enemyKing) then Verdict(Ok(false), a)
      else Verdict(Ok(isValid), g)
    case Check =>
      if !KingInCheck(a, enemyKing) then Verdict(Ok(false), a)
      else Verdict(Ok(isValid), g)
    case Stalemate =>
      if KingInCheck(g, KingOf(c)) then Verdict(Ok(false), g)
      else Verdict(Ok(!Escapes(g, AllMoves(g, c))), g)
    case Checkmate =>
      if !KingInCheck(a, enemyKing) then Verdict(Ok(false), a)
      else Verdict(Ok(!Escapes(a, AllMoves(a, Opponent(c)))), a)
  }

  method IsValidMove(board: array2<Piece>, m: Move, c: Color) returns (valid: Outcome<bool>)
    requires IsBoard(board)
    modifies board
    ensures Verdict(valid, Snapshot(board)) == Validate(old(Snapshot(board)), m, c)
  {
    ghost var g := Snapshot(board);
    var tempPieceTo := board[m.to.x, m.to.y];
    var tempPieceFrom := board[m.from.x, m.from.y];
    var into := MovesIntoCheck(board, m);
    if into {
      return Ok(false);
    }
    var early, isValid := PieceSwitch(board, m, c);
    if early.Some? {
      return early.value;
    }
    var mine := CanGenerate(board, c);
    if !mine {
      return Fault;
    }
    var playerMoves := GetAllMoves(board, c);
    MakeMove(board, m);
    var theirs := CanGenerate(board, Opponent(c));
    if !theirs {
      return Fault;
    }
    valid := JudgeFlag(board, m, c, isValid, tempPieceTo, tempPieceFrom, g, playerMoves);
  }

  /** The switch of IsValidMove on the piece on From. */
  method PieceSwitch(board: array2<Piece>, m: Move, c: Color) returns (early: Option<Outcome<bool>>, isValid: bool)
    requires IsBoard(board)
    ensures early == Early(Snapshot(board), m, c)
    ensures early.None? ==> isValid == Shape(Snapshot(board), m, c)
  {
    isValid := true;
    var p := board[m.from.x, m.from.y];
    if p == Empty {
      return Some(Ok(false)), isValid;
    }
    match p.kind {
    case Pawn =>
      if !PawnCanLook(p, m.from.y) {
        return Some(Fault), isValid;
      }
      isValid := PawnToMove(Snapshot(board), m);
    case Rook =>
      isValid := RookToMove(Snapshot(board), m, c);
    case Knight =>
      isValid := KnightToMove(Snapshot(board), m, c);
    case Bishop =>
      isValid := BishopToMove(Snapshot(board), m, c);
    case Queen =>
      if BishopToMove(Snapshot(board), m, c) || RookToMove(Snapshot(board), m, c) {
        isValid := true;
      } else {
        return Some(Ok(false)), isValid;
      }
    case King =>
      isValid := KingToMove(Snapshot(board), m, c);
    }
    early := None;
  }

  /** IsValidMove from "check the flag state" on, with the move made on the
      board and the player's moves generated before it. */
  method JudgeFlag(board: array2<Piece>, m: Move, c: Color, isValid: bool, tempPieceTo: Piece,
                   tempPieceFrom: Piece, ghost g: Grid, playerMoves: seq<Move>) returns (valid: Outcome<bool>)
    requires IsBoard(board) && Generable(g, c) && playerMoves == AllMoves(g, c)
    requires Snapshot(board) == Apply(g, m) && Generable(Apply(g, m), Opponent(c))
    requires tempPieceTo == At(g, m.to) && tempPieceFrom == At(g, m.from)
    modifies board
    ensures Verdict(valid, Snapshot(board)) == FlagVerdict(g, m, c, isValid)
  {
    var enemyKing := KingOf(Opponent(c));
    var enemyMoves := GetAllMoves(board, Opponent(c));
    match m.flag {
    case NoFlag =>
      var escape := FindEscape(board, playerMoves);
      if !escape {
        return Ok(false);
      }
      if KingInCheck(Snapshot(board), enemyKing) {
        return Ok(false);
      }
    case Check =>
      if !KingInCheck(Snapshot(board), enemyKing) {
        return Ok(false);
      }
    case Stalemate =>
      Restore(board, m, tempPieceTo, tempPieceFrom, g);
      if KingInCheck(Snapshot(board), KingOf(c)) {
        return Ok(false);
      }
      var escape := FindEscape(board, playerMoves);
      return Ok(!escape);
    case Checkmate =>
      if !KingInCheck(Snapshot(board), enemyKing) {
        return Ok(false);
      }
      var escape := FindEscape(board, enemyMoves);
      return Ok(!escape);
    }
    Restore(board, m, tempPieceTo, tempPieceFrom, g);
    return Ok(isValid);
  }

  /** Write the two saved squares back after m was made on g. */
  method Restore(board: array2<Piece>, m: Move, tempPieceTo: Piece, tempPieceFrom: Piece, ghost g: Grid)
    requires IsBoard(board) && Snapshot(board) == Apply(g, m)
    requires tempPieceTo == At(g, m.to) && tempPieceFrom == At(g, m.from)
    modifies board
    ensures Snapshot(board) == g
  {
    Put(board, m.to, tempPieceTo);
    Put(board, m.from, tempPieceFrom);
    RestoreAfterApply(g, m);
  }
}
