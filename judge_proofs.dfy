/** How the judges agree with each other and with the search: the engine's
    own flagged moves pass its validator, an accepted Check or Checkmate
    claim is one SetFlags would make, and a move SetFlags calls Checkmate
    is one the search already values at Infinity. */
module JudgeProofs {
  import opened Board
  import opened Rules
  import opened Attack
  import opened MoveGen
  import opened MoveGenProofs
  import opened Search
  import opened SearchProofs
  import opened RootProofs
  import opened Judge

  /** The legal moves are the listed moves that do not move into check. */
  lemma {:induction false} LegalMember(g: Grid, ms: seq<Move>, m: Move)
    ensures m in Legal(g, ms) <==> m in ms && !IntoCheck(g, m)
  {
    if |ms| > 0 {
      LegalMember(g, ms[1..], m);
      assert ms == [ms[0]] + ms[1..];
    }
  }

  /** A move SetFlags calls Checkmate leaves the other side no legal reply,
      so the search values it at Infinity at every depth. */
  lemma CheckmateValuedInfinity(g: Grid, m: Move, c: Color, depth: int)
    requires FlagSpec(g, m, c) == Ok(Flagged(Checkmate))
    ensures RootValue(g, depth, c, m) == Ok(Infinity)
  {
    var a := Apply(g, m);
    assert Generable(a, Opponent(c)) && Legal(a, AllMoves(a, Opponent(c))) == [];
    assert MinOverLegal(a, depth, c) == Ok(Infinity);
  }

  /** A move that leaves the other side no legal reply without attacking
      its king, a stalemate, gets NoFlag from SetFlags and yet the same
      value Infinity from the search as a checkmate. */
  lemma StalemateValuedAsMate(g: Grid, m: Move, c: Color, depth: int)
    requires !IntoCheck(g, m)
    requires Generable(Apply(g, m), Opponent(c)) && !Escapes(Apply(g, m), AllMoves(Apply(g, m), Opponent(c)))
    requires !KingInCheck(Apply(g, m), KingOf(Opponent(c)))
    ensures FlagSpec(g, m, c) == Ok(Flagged(NoFlag))
    ensures RootValue(g, depth, c, m) == Ok(Infinity)
  {
    var a := Apply(g, m);
    assert MinOverLegal(a, depth, c) == Ok(Infinity);
  }

  /** SetFlags never replaces a legal move of the side to move. */
  lemma LegalMoveFlagged(g: Grid, m: Move, c: Color)
    requires Generable(g, c) && m in Legal(g, AllMoves(g, c))
    ensures FlagSpec(g, m, c).Ok? ==> FlagSpec(g, m, c).value.Flagged?
  {
    LegalMember(g, AllMoves(g, c), m);
  }

  /** The engine's own legal move that SetFlags flags Check passes
      IsValidMove with that flag, and the board is left as it was. */
  lemma OwnCheckValidates(g: Grid, m: Move, c: Color)
    requires Generable(g, c) && m in Legal(g, AllMoves(g, c))
    requires FlagSpec(g, m, c) == Ok(Flagged(Check))
    ensures Validate(g, m.(flag := Check), c) == Verdict(Ok(true), g)
  {
    OwnMovePassesSwitch(g, m, c, Check);
    FlagVerdictOwn(g, m, c, Check);
    ValidateReduces(g, m.(flag := Check), c);
  }

  /** The engine's own legal move that SetFlags flags Checkmate passes
      IsValidMove with that flag, and the move stays made on the board. */
  lemma OwnCheckmateValidates(g: Grid, m: Move, c: Color)
    requires Generable(g, c) && m in Legal(g, AllMoves(g, c))
    requires FlagSpec(g, m, c) == Ok(Flagged(Checkmate))
    ensures Validate(g, m.(flag := Checkmate), c) == Verdict(Ok(true), Apply(g, m))
  {
    OwnMovePassesSwitch(g, m, c, Checkmate);
    FlagVerdictOwn(g, m, c, Checkmate);
    ValidateReduces(g, m.(flag := Checkmate), c);
  }

  /** The engine's own legal move that SetFlags leaves unflagged passes
      IsValidMove exactly when one of the mover's moves from before it does
      not move into check on the board after it; IsValidMove faults where
      the reply list cannot be generated. */
  lemma OwnNoFlagValidates(g: Grid, m: Move, c: Color)
    requires Generable(g, c) && m in Legal(g, AllMoves(g, c))
    requires FlagSpec(g, m, c) == Ok(Flagged(NoFlag))
    ensures Validate(g, m.(flag := NoFlag), c).valid ==
            if Generable(Apply(g, m), Opponent(c)) then Ok(Escapes(Apply(g, m), AllMoves(g, c))) else Fault
  {
    OwnMovePassesSwitch(g, m, c, NoFlag);
    ValidateReduces(g, m.(flag := NoFlag), c);
    FlagVerdictOwn(g, m, c, NoFlag);
  }

  /** Past the first checks and the player's move list, IsValidMove is
      its flag part, or faults on the reply list. */
  lemma ValidateReduces(g: Grid, m: Move, c: Color)
    requires !IntoCheck(g, m) && Early(g, m, c).None? && Generable(g, c)
    ensures Validate(g, m, c) == if Generable(Apply(g, m), Opponent(c)) then FlagVerdict(g, m, c, Shape(g, m, c))
                                 else Verdict(Fault, Apply(g, m))
  {
  }

  /** The engine's own legal move, whatever its flag, gets past the first
      checks of IsValidMove with its movement predicate satisfied. */
  lemma OwnMovePassesSwitch(g: Grid, m: Move, c: Color, f: Flag)
    requires Generable(g, c) && m in Legal(g, AllMoves(g, c))
    ensures Apply(g, m.(flag := f)) == Apply(g, m)
    ensures !IntoCheck(g, m.(flag := f)) && Early(g, m.(flag := f), c).None? && Shape(g, m.(flag := f), c)
  {
    LegalMember(g, AllMoves(g, c), m);
    OwnMoveShape(g, m, c);
    FlagIgnored(g, m, c, f);
  }

  lemma OwnMoveShape(g: Grid, m: Move, c: Color)
    requires Generable(g, c) && m in AllMoves(g, c) && !IntoCheck(g, m)
    ensures Early(g, m, c).None? && Shape(g, m, c)
  {
    AllMovesExact(g, c, m);
    GenerableAt(g, c, m.from);
    AcceptedShape(g, m, c);
  }

  /** A move the matching predicate accepts, from a piece of the side to
      move that can look ahead, passes the switch of IsValidMove. */
  lemma AcceptedShape(g: Grid, m: Move, c: Color)
    requires IsColor(At(g, m.from), c) && (At(g, m.from).kind == Pawn ==> PawnCanStep(c, m.from))
    requires Accepts(g, m, c)
    ensures Early(g, m, c).None? && Shape(g, m, c)
  {
  }

  /** The first checks of IsValidMove read the squares of the move only. */
  lemma FlagIgnored(g: Grid, m: Move, c: Color, f: Flag)
    ensures Apply(g, m.(flag := f)) == Apply(g, m) && IntoCheck(g, m.(flag := f)) == IntoCheck(g, m)
    ensures Early(g, m.(flag := f), c) == Early(g, m, c)
    ensures Early(g, m, c).None? ==> Shape(g, m.(flag := f), c) == Shape(g, m, c)
  {
    var m' := m.(flag := f);
    assert Apply(g, m') == Apply(g, m);
    assert At(g, m.from) != Empty && PawnCanLook(At(g, m.from), m.from.y) ==> PawnToMove(g, m') == PawnToMove(g, m);
    assert BishopToMove(g, m', c) == BishopToMove(g, m, c);
    assert RookToMove(g, m', c) == RookToMove(g, m, c);
  }

  lemma FlagVerdictOwn(g: Grid, m: Move, c: Color, f: Flag)
    requires Generable(g, c) && !IntoCheck(g, m)
    requires FlagSpec(g, m, c) == Ok(Flagged(f))
    ensures f != NoFlag ==> Generable(Apply(g, m), Opponent(c))
    ensures Generable(Apply(g, m), Opponent(c)) ==>
            var v := FlagVerdict(g, m.(flag := f), c, true);
            (f == Check ==> v == Verdict(Ok(true), g)) &&
            (f == Checkmate ==> v == Verdict(Ok(true), Apply(g, m))) &&
            (f == NoFlag ==> v.valid == Ok(Escapes(Apply(g, m), AllMoves(g, c))))
  {
    assert Apply(g, m.(flag := f)) == Apply(g, m);
  }

  /** A claim IsValidMove accepts is one the engine would make: a NoFlag
      move is one SetFlags leaves unflagged, a Check claim one SetFlags
      calls Check or Checkmate, a Checkmate claim one SetFlags calls
      Checkmate, and a Stalemate claim is made by a side whose king is not
      attacked and none of whose moves escapes check. */
  lemma AcceptedClaims(g: Grid, m: Move, c: Color)
    requires Validate(g, m, c).valid == Ok(true)
    ensures m.flag == NoFlag ==> FlagSpec(g, m, c) == Ok(Flagged(NoFlag))
    ensures m.flag == Check ==> FlagSpec(g, m, c) == Ok(Flagged(Check)) || FlagSpec(g, m, c) == Ok(Flagged(Checkmate))
    ensures m.flag == Checkmate ==> FlagSpec(g, m, c) == Ok(Flagged(Checkmate))
    ensures m.flag == Stalemate ==> !KingInCheck(g, KingOf(c)) && Generable(g, c) && !Escapes(g, AllMoves(g, c))
  {
    assert !IntoCheck(g, m) && Early(g, m, c).None? && Generable(g, c) && Generable(Apply(g, m), Opponent(c));
    FlagVerdictClaims(g, m, c, Shape(g, m, c));
  }

  lemma FlagVerdictClaims(g: Grid, m: Move, c: Color, isValid: bool)
    requires Generable(g, c) && Generable(Apply(g, m), Opponent(c)) && !IntoCheck(g, m)
    requires FlagVerdict(g, m, c, isValid).valid == Ok(true)
    ensures m.flag == NoFlag ==> FlagSpec(g, m, c) == Ok(Flagged(NoFlag))
    ensures m.flag == Check ==> FlagSpec(g, m, c) == Ok(Flagged(Check)) || FlagSpec(g, m, c) == Ok(Flagged(Checkmate))
    ensures m.flag == Checkmate ==> FlagSpec(g, m, c) == Ok(Flagged(Checkmate))
    ensures m.flag == Stalemate ==> !KingInCheck(g, KingOf(c)) && !Escapes(g, AllMoves(g, c))
  {
  }

  /** IsValidMove leaves the caller's board as it was or with the move
      made; an accepted move leaves it as it was, except a Checkmate claim,
      which leaves the move made. */
  lemma ValidateLeaves(g: Grid, m: Move, c: Color)
    ensures Validate(g, m, c).after == g || Validate(g, m, c).after == Apply(g, m)
    ensures Validate(g, m, c).valid == Ok(true) && m.flag != Checkmate ==> Validate(g, m, c).after == g
    ensures Validate(g, m, c).valid == Ok(true) && m.flag == Checkmate ==> Validate(g, m, c).after == Apply(g, m)
  {
    if !IntoCheck(g, m) && Early(g, m, c).None? && Generable(g, c) && Generable(Apply(g, m), Opponent(c)) {
      FlagVerdictLeaves(g, m, c, Shape(g, m, c));
    }
  }

  lemma FlagVerdictLeaves(g: Grid, m: Move, c: Color, isValid: bool)
    requires Generable(g, c) && Generable(Apply(g, m), Opponent(c))
    ensures FlagVerdict(g, m, c, isValid).after == g || FlagVerdict(g, m, c, isValid).after == Apply(g, m)
    ensures FlagVerdict(g, m, c, isValid).valid == Ok(true) && m.flag != Checkmate ==> FlagVerdict(g, m, c, isValid).after == g
    ensures FlagVerdict(g, m, c, isValid).valid == Ok(true) && m.flag == Checkmate ==> FlagVerdict(g, m, c, isValid).after == Apply(g, m)
  {
  }
}
