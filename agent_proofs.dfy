/** What GetNextMove answers: one of its legal moves carrying the flag
    SetFlags gives it, never a null move while a legal move exists, and with
    no legal move a null move flagged Checkmate exactly when its own king is
    attacked. Its Check and Checkmate answers pass its own IsValidMove. */
module AgentProofs {
  import opened Board
  import opened Rules
  import opened Attack
  import opened MoveGen
  import opened MoveGenProofs
  import opened Eval
  import opened Search
  import opened RootProofs
  import opened Judge
  import opened JudgeProofs
  import opened Agent

  /** m has the squares of one of the moves of ms. */
  predicate SquaresIn(m: Move, ms: seq<Move>) {
    exists k :: 0 <= k < |ms| && SameSquares(m, ms[k])
  }

  /** SetFlags reads a move's squares only. */
  lemma FlagSpecSquares(g: Grid, a: Move, b: Move, c: Color)
    requires SameSquares(a, b)
    ensures FlagSpec(g, a, c) == FlagSpec(g, b, c)
  {
    SameSquaresApply(g, a, b);
  }

  /** flags holds what SetFlags makes of each of the legal moves legal of
      side c on g; none of them is replaced. */
  predicate Judged(g: Grid, c: Color, legal: seq<Move>, flags: seq<Outcome<Flagging>>) {
    |flags| == |legal| &&
    (forall k {:trigger FlagSpec(g, legal[k], c)} :: 0 <= k < |legal| ==> flags[k] == FlagSpec(g, legal[k], c)) &&
    (forall k :: 0 <= k < |legal| ==> flags[k].Ok? ==> flags[k].value.Flagged?)
  }

  /** The loop state over the legal moves: the move objects keep their
      squares slot by slot, the move list covers them all, the chosen move
      carries the flag SetFlags gives it, and there is no null move while a
      legal move exists. */
  predicate Tracks(legal: seq<Move>, flags: seq<Outcome<Flagging>>, objs: seq<Move>, refs: seq<nat>, cur: Choice) {
    Fits(objs, refs, cur) && |objs| == |legal| && |refs| == |legal| && |flags| == |legal| &&
    (forall k :: 0 <= k < |legal| ==> SameSquares(objs[k], legal[k])) &&
    (cur.Chosen? ==> flags[cur.id] == Ok(Flagged(objs[cur.id].flag))) &&
    (|legal| > 0 ==> !cur.NullMove?)
  }

  lemma DeepenTracks(g: Grid, c: Color, legal: seq<Move>, flags: seq<Outcome<Flagging>>, depth: int,
                     objs: seq<Move>, refs: seq<nat>, cur: Choice, pick: nat, p: nat, o: seq<bool>)
    requires Judged(g, c, legal, flags) && Tracks(legal, flags, objs, refs, cur)
    ensures var r := DeepenSpec(g, c, depth, objs, refs, cur, pick, p, o);
            r.out.Ok? ==> Tracks(legal, flags, r.out.value.objs, r.out.value.refs, r.out.value.cur)
    decreases Budget(p, o), 1
  {
    if Over(o, p) {
    } else if |refs| == 0 {
      DeepenTracks(g, c, legal, flags, depth, objs, refs, NullMove(NoMovesFlag(g, c)), pick, p + 1, o);
    } else {
      TurnTracks(g, c, legal, flags, depth, objs, refs, cur, pick, p + 1, o);
    }
  }

  lemma TurnTracks(g: Grid, c: Color, legal: seq<Move>, flags: seq<Outcome<Flagging>>, depth: int,
                   objs: seq<Move>, refs: seq<nat>, cur: Choice, pick: nat, p: nat, o: seq<bool>)
    requires Judged(g, c, legal, flags) && Tracks(legal, flags, objs, refs, cur) && |refs| > 0 && p <= |o|
    ensures var r := DeepenTurn(g, c, depth, objs, refs, cur, pick, p, o);
            r.out.Ok? ==> Tracks(legal, flags, r.out.value.objs, r.out.value.refs, r.out.value.cur)
    decreases Budget(p, o), 5
  {
    var mm := MiniMaxSpec(g, depth, c, objs, refs, pick, p, o);
    DeepenTurnStep(g, c, depth, objs, refs, cur, pick, p, o, mm);
    MiniMaxShape(g, depth, c, objs, refs, pick, p, o);
    if mm.out.Ok? {
      TracksSearched(legal, flags, objs, mm.out.value.objs, refs, cur);
      AfterTracks(g, c, legal, flags, depth, mm.out.value.objs, refs, cur, mm.out.value.best, pick, mm.polls, o);
    }
  }

  /** A search rewrites values only. */
  lemma TracksSearched(legal: seq<Move>, flags: seq<Outcome<Flagging>>, objs: seq<Move>, moves: seq<Move>,
                       refs: seq<nat>, cur: Choice)
    requires Tracks(legal, flags, objs, refs, cur) && Retagged(moves, objs)
    ensures Tracks(legal, flags, moves, refs, cur)
  {
  }

  lemma AfterTracks(g: Grid, c: Color, legal: seq<Move>, flags: seq<Outcome<Flagging>>, depth: int,
                    moves: seq<Move>, refs: seq<nat>, cur: Choice, best: nat, pick: nat, q: nat, o: seq<bool>)
    requires Judged(g, c, legal, flags) && Tracks(legal, flags, moves, refs, cur) && best < |moves|
    ensures var r := DeepenAfter(g, c, depth, moves, refs, cur, best, pick, q, o);
            r.out.Ok? ==> Tracks(legal, flags, r.out.value.objs, r.out.value.refs, r.out.value.cur)
    decreases Budget(q, o), 4
  {
    if !Over(o, q) {
      var chosen := if cur.NoChoice? || moves[best].value > ChoiceValue(moves, cur) then Chosen(best) else cur;
      var fl := FlagChosen(g, c, moves, chosen);
      assert DeepenAfter(g, c, depth, moves, refs, cur, best, pick, q, o) ==
             DeepenFlag(g, c, depth, moves, refs, chosen, pick, q + 1, o);
      if fl.Ok? {
        TracksFlagged(g, c, legal, flags, moves, refs, cur, chosen);
        DeepenTracks(g, c, legal, flags, depth + 1, fl.value.0, SortDesc(fl.value.0, refs), fl.value.1, pick, q + 1, o);
      }
    }
  }

  /** SetFlags on the chosen legal move flags it, and sorting keeps the
      move list. */
  lemma TracksFlagged(g: Grid, c: Color, legal: seq<Move>, flags: seq<Outcome<Flagging>>,
                      moves: seq<Move>, refs: seq<nat>, cur: Choice, chosen: Choice)
    requires Judged(g, c, legal, flags) && Tracks(legal, flags, moves, refs, cur)
    requires chosen.Chosen? && chosen.id < |moves| && (!cur.NoChoice? ==> chosen == cur || chosen.id < |moves|)
    requires FlagChosen(g, c, moves, chosen).Ok?
    ensures var fl := FlagChosen(g, c, moves, chosen).value;
            Tracks(legal, flags, fl.0, SortDesc(fl.0, refs), fl.1)
  {
    var id := chosen.id;
    FlagSpecSquares(g, moves[id], legal[id], c);
    var fl := FlagChosen(g, c, moves, chosen).value;
    var sorted := SortDesc(fl.0, refs);
    assert |sorted| == |multiset(sorted)| == |multiset(refs)| == |refs|;
    assert fl.0[id].flag == flags[id].value.flag;
  }

  /** What SetFlags makes of each move of ms. */
  function JudgeAll(g: Grid, c: Color, ms: seq<Move>): (r: seq<Outcome<Flagging>>)
    ensures |r| == |ms|
  {
    if |ms| == 0 then [] else [FlagSpec(g, ms[0], c)] + JudgeAll(g, c, ms[1..])
  }

  lemma {:induction false} JudgeAllAt(g: Grid, c: Color, ms: seq<Move>, k: nat)
    requires k < |ms|
    ensures JudgeAll(g, c, ms)[k] == FlagSpec(g, ms[k], c)
  {
    if k > 0 {
      JudgeAllAt(g, c, ms[1..], k - 1);
    }
  }

  /** SetFlags flags every legal move of side c on g. */
  lemma LegalJudged(g: Grid, c: Color)
    requires Generable(g, c)
    ensures Judged(g, c, Legal(g, AllMoves(g, c)), JudgeAll(g, c, Legal(g, AllMoves(g, c))))
  {
    var legal := Legal(g, AllMoves(g, c));
    var flags := JudgeAll(g, c, legal);
    forall k | 0 <= k < |legal|
      ensures flags[k] == FlagSpec(g, legal[k], c) && (flags[k].Ok? ==> flags[k].value.Flagged?)
    {
      JudgeAllAt(g, c, legal, k);
      LegalFlaggedAt(g, c, k);
    }
  }

  lemma LegalFlaggedAt(g: Grid, c: Color, k: nat)
    requires Generable(g, c) && k < |Legal(g, AllMoves(g, c))|
    ensures var f := FlagSpec(g, Legal(g, AllMoves(g, c))[k], c); f.Ok? ==> f.value.Flagged?
  {
    LegalMoveFlagged(g, Legal(g, AllMoves(g, c))[k], c);
  }

  /** The loop starts from the legal moves in the order generated, with
      nothing chosen. */
  lemma TracksStart(legal: seq<Move>, flags: seq<Outcome<Flagging>>)
    requires |flags| == |legal|
    ensures Tracks(legal, flags, legal, Identity(|legal|), NoChoice)
  {
  }

  /** The move GetNextMove answers, when it answers one, is one of the
      legal moves of side c on g, with the squares it had when generated and
      the flag SetFlags gives it. */
  lemma {:induction false} NextMoveReply(g: Grid, c: Color, pick: nat, p: nat, o: seq<bool>)
    requires NextMoveSpec(g, c, pick, p, o).out.Ok?
    ensures Generable(g, c)
    ensures var m := NextMoveSpec(g, c, pick, p, o).out.value;
            SquaresIn(m, Legal(g, AllMoves(g, c))) && FlagSpec(g, m, c) == Ok(Flagged(m.flag))
  {
    var legal := Legal(g, AllMoves(g, c));
    var flags := JudgeAll(g, c, legal);
    LegalJudged(g, c);
    var refs := Identity(|legal|);
    TracksStart(legal, flags);
    DeepenTracks(g, c, legal, flags, 1, legal, refs, NoChoice, pick, p + 1, o);
    var d := DeepenSpec(g, c, 1, legal, refs, NoChoice, pick, p + 1, o).out.value;
    if d.cur.Chosen? {
      var id := d.cur.id;
      assert SameSquares(d.objs[id], legal[id]);
      FlagSpecSquares(g, d.objs[id], legal[id], c);
    }
  }

  lemma {:induction false} DeepenNoMoves(g: Grid, c: Color, depth: int, objs: seq<Move>, pick: nat, p: nat, o: seq<bool>)
    ensures DeepenSpec(g, c, depth, objs, [], NullMove(NoMovesFlag(g, c)), pick, p, o).out ==
            Ok(Deepening(objs, [], NullMove(NoMovesFlag(g, c))))
    decreases Budget(p, o)
  {
    if !Over(o, p) {
      DeepenNoMoves(g, c, depth, objs, pick, p + 1, o);
    }
  }

  /** With no legal move the loop of GetNextMove ends holding the null
      move, flagged Checkmate when its own king is attacked and Stalemate
      otherwise (or nothing, when the clock stops it before its first pass),
      and the last log line then raises on it. */
  lemma NoLegalMoveFaults(g: Grid, c: Color, pick: nat, p: nat, o: seq<bool>)
    requires Generable(g, c) && Legal(g, AllMoves(g, c)) == []
    ensures Deepened(g, c, pick, p, o).out ==
            Ok(Deepening([], [], if Over(o, p + 1) then NoChoice else NullMove(NoMovesFlag(g, c))))
    ensures NextMoveSpec(g, c, pick, p, o).out == Fault
  {
    assert Identity(0) == [];
    DeepenFirstNoMoves(g, c, pick, p + 1, o);
  }

  /** With no legal move the intended answer is the null move flagged
      Checkmate when its own king is attacked and Stalemate otherwise,
      unless the clock stops the loop before its first pass. */
  lemma NoLegalReply(g: Grid, c: Color, pick: nat, p: nat, o: seq<bool>)
    requires Generable(g, c) && Legal(g, AllMoves(g, c)) == []
    ensures IntendedNextMove(g, c, pick, p, o).out ==
            if Over(o, p + 1) then Ok(Unset) else Ok(Null(if KingInCheck(g, KingOf(c)) then Checkmate else Stalemate))
  {
    NoLegalMoveFaults(g, c, pick, p, o);
  }

  /** The source and the intended answer agree whenever a move was chosen,
      and the source raises in every other case. */
  lemma AnswerAsIntended(g: Grid, c: Color, pick: nat, p: nat, o: seq<bool>)
    ensures NextMoveSpec(g, c, pick, p, o).polls == IntendedNextMove(g, c, pick, p, o).polls
    ensures NextMoveSpec(g, c, pick, p, o).out.Ok? <==>
            IntendedNextMove(g, c, pick, p, o).out.Ok? && IntendedNextMove(g, c, pick, p, o).out.value.Play?
    ensures NextMoveSpec(g, c, pick, p, o).out.Ok? ==>
            IntendedNextMove(g, c, pick, p, o).out.value == Play(NextMoveSpec(g, c, pick, p, o).out.value)
  {
  }

  /** White to move on the empty board has no legal move and its king is
      not attacked, so the loop holds a null move flagged Stalemate: the
      source raises on it where the intended answer is that move. */
  lemma NullMoveCounterexample(g: Grid, o: seq<bool>)
    requires g == EmptyBoard() && o == [false, false]
    ensures NextMoveSpec(g, White, 0, 0, o).out == Fault
    ensures IntendedNextMove(g, White, 0, 0, o).out == Ok(Null(Stalemate))
  {
    NoPiecesNoMoves(g, White);
    assert FindFrom(g, KingOf(White), 0).None?;
    assert !Over(o, 1);
    NoLegalReply(g, White, 0, 0, o);
    NoLegalMoveFaults(g, White, 0, 0, o);
  }

  /** A side with no piece on the board has no move. */
  lemma NoPiecesNoMoves(g: Grid, c: Color)
    requires forall x: Coord, y: Coord :: !IsColor(g[x][y], c)
    ensures Generable(g, c) && Legal(g, AllMoves(g, c)) == []
  {
    if AllMoves(g, c) != [] {
      AllMovesExact(g, c, AllMoves(g, c)[0]);
    }
  }

  lemma DeepenFirstNoMoves(g: Grid, c: Color, pick: nat, p: nat, o: seq<bool>)
    ensures DeepenSpec(g, c, 1, [], [], NoChoice, pick, p, o).out ==
            Ok(Deepening([], [], if Over(o, p) then NoChoice else NullMove(NoMovesFlag(g, c))))
  {
    if !Over(o, p) {
      DeepenNoMoves(g, c, 1, [], pick, p + 1, o);
    }
  }

  /** The piece switch of IsValidMove reads a move's squares, not its
      value. */
  lemma SwitchIgnoresValue(g: Grid, m: Move, c: Color, v: int)
    ensures Early(g, m.(value := v), c) == Early(g, m, c)
    ensures Early(g, m, c).None? ==> Shape(g, m.(value := v), c) == Shape(g, m, c)
  {
    var m' := m.(value := v);
    assert BishopToMove(g, m', c) == BishopToMove(g, m, c);
    assert RookToMove(g, m', c) == RookToMove(g, m, c);
    if At(g, m.from) != Empty {
      assert KnightToMove(g, m', c) == KnightToMove(g, m, c);
      assert KingToMove(g, m', c) == KingToMove(g, m, c);
      if PawnCanLook(At(g, m.from), m.from.y) {
        assert PawnToMove(g, m') == PawnToMove(g, m);
      }
    }
  }

  /** IsValidMove reads a move's squares and flag, not its value. */
  lemma ValidateIgnoresValue(g: Grid, m: Move, c: Color, v: int)
    ensures Validate(g, m.(value := v), c) == Validate(g, m, c)
  {
    var m' := m.(value := v);
    assert Apply(g, m') == Apply(g, m);
    assert IntoCheck(g, m') == IntoCheck(g, m);
    SwitchIgnoresValue(g, m, c, v);
    if !IntoCheck(g, m) && Early(g, m, c).None? && Generable(g, c) && Generable(Apply(g, m), Opponent(c)) {
      FlagVerdictIgnoresValue(g, m, c, Shape(g, m, c), v);
    }
  }

  lemma FlagVerdictIgnoresValue(g: Grid, m: Move, c: Color, isValid: bool, v: int)
    requires Generable(g, c) && Generable(Apply(g, m), Opponent(c))
    ensures Apply(g, m.(value := v)) == Apply(g, m)
    ensures FlagVerdict(g, m.(value := v), c, isValid) == FlagVerdict(g, m, c, isValid)
  {
    assert Apply(g, m.(value := v)) == Apply(g, m);
  }

  /** GetNextMove's answers pass its own IsValidMove: a move flagged Check
      is accepted with the board left as it was, one flagged Checkmate is
      accepted with the move left made, and an unflagged one is accepted
      exactly when one of its side's moves escapes check on the board after
      it. */
  lemma ReplyValidates(g: Grid, c: Color, pick: nat, p: nat, o: seq<bool>)
    requires NextMoveSpec(g, c, pick, p, o).out.Ok?
    ensures var m := NextMoveSpec(g, c, pick, p, o).out.value;
            (m.flag == Check ==> Validate(g, m, c) == Verdict(Ok(true), g)) &&
            (m.flag == Checkmate ==> Validate(g, m, c) == Verdict(Ok(true), Apply(g, m))) &&
            (m.flag == NoFlag ==>
               Validate(g, m, c).valid ==
               if Generable(Apply(g, m), Opponent(c)) then Ok(Escapes(Apply(g, m), AllMoves(g, c))) else Fault)
  {
    var m := NextMoveSpec(g, c, pick, p, o).out.value;
    NextMoveReply(g, c, pick, p, o);
    var legal := Legal(g, AllMoves(g, c));
    var k :| 0 <= k < |legal| && SameSquares(m, legal[k]);
    var m0 := legal[k];
    assert m0 in Legal(g, AllMoves(g, c));
    FlagSpecSquares(g, m, m0, c);
    SameSquaresApply(g, m, m0);
    assert m0.(flag := m.flag).(value := m.value) == m;
    ValidateIgnoresValue(g, m0.(flag := m.flag), c, m.value);
    if m.flag == Check {
      OwnCheckValidates(g, m0, c);
    } else if m.flag == Checkmate {
      OwnCheckmateValidates(g, m0, c);
    } else if m.flag == NoFlag {
      OwnNoFlagValidates(g, m0, c);
    }
  }
}
