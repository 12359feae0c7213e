/** The engine object and its turn: StudentAI counts its turns, keeps the
    last six boards it was shown, and in GetNextMove filters its legal
    moves, deepens MiniMax one ply at a time while the clock allows, flags
    the chosen move with SetFlags and sorts the move list by value for the
    next, deeper search. With no legal move it answers a null move flagged
    Checkmate or Stalemate. */
module Agent {
  import opened Board
  import opened Attack
  import opened MoveGen
  import opened Search
  import opened RootProofs
  import opened Judge

  /** NumberOfPreviousStates */
  const HistoryLength := 6

  /** The history after a board is added: appended while there is room,
      otherwise the oldest board is dropped first. */
  function Window(states: seq<Grid>, g: Grid): (r: seq<Grid>)
    ensures |states| <= HistoryLength ==> |r| == if |states| < HistoryLength then |states| + 1 else HistoryLength
    ensures |r| > 0 && r[|r| - 1] == g
    ensures |r| <= |states| + 1 && r == (states + [g])[|states| + 1 - |r|..]
  {
    if |states| < HistoryLength then states + [g] else states[1..] + [g]
  }

  // ---------------------------------------------------------------------
  // The deepening loop as a function.

  /** What myNextMove refers to: nothing yet, one of the move objects, or
      a null move carrying only a flag. */
  datatype Choice = NoChoice | Chosen(id: nat) | NullMove(flag: Flag)

  /** What GetNextMove would hand back if its last log line did not read
      the squares of myNextMove: null, a move, or a null move with a flag. */
  datatype Reply = Unset | Play(move: Move) | Null(flag: Flag)

  /** The state the deepening loop carries: the move objects, the order of
      the move list, and the current choice. */
  datatype Deepening = Deepening(objs: seq<Move>, refs: seq<nat>, cur: Choice)

  predicate Fits(objs: seq<Move>, refs: seq<nat>, cur: Choice) {
    Refs(objs, refs) && (cur.Chosen? ==> cur.id < |objs|)
  }

  /** ValueOfMove of the current choice; a null move is taken to carry the
      value 0. */
  function ChoiceValue(objs: seq<Move>, cur: Choice): int
    requires cur.Chosen? ==> cur.id < |objs|
  {
    if cur.Chosen? then objs[cur.id].value else 0
  }

  /** The flag of the null move GetNextMove makes when it has no legal
      move: Checkmate when its own king is attacked, Stalemate otherwise. */
  function NoMovesFlag(g: Grid, c: Color): Flag {
    if KingInCheck(g, KingOf(c)) then Checkmate else Stalemate
  }

  /** The move list in its first order: the legal moves as generated. */
  function Identity(n: nat): (r: seq<nat>)
    ensures |r| == n && forall i :: 0 <= i < n ==> r[i] == i
  {
    seq(n, i => i)
  }

  /** The move list sorted by the values in the move objects, largest
      first (List.Sort with a descending comparison). */
  predicate Descending(objs: seq<Move>, refs: seq<nat>)
    requires Refs(objs, refs)
  {
    forall i, j :: 0 <= i < j < |refs| ==> objs[refs[i]].value >= objs[refs[j]].value
  }

  function Insert(objs: seq<Move>, id: nat, refs: seq<nat>): (r: seq<nat>)
    requires id < |objs| && Refs(objs, refs) && Descending(objs, refs)
    ensures multiset(r) == multiset(refs) + multiset{id}
    ensures Refs(objs, r) && Descending(objs, r)
    ensures |r| == |refs| + 1 && (r[0] == id || (|refs| > 0 && r[0] == refs[0]))
  {
    if |refs| == 0 then [id]
    else if objs[id].value >= objs[refs[0]].value then
      DescendingCons(objs, id, refs);
      [id] + refs
    else
      assert refs == [refs[0]] + refs[1..];
      DescendingTail(objs, refs);
      var rest := Insert(objs, id, refs[1..]);
      DescendingCons(objs, refs[0], rest);
      [refs[0]] + rest
  }

  lemma DescendingTail(objs: seq<Move>, refs: seq<nat>)
    requires Refs(objs, refs) && Descending(objs, refs) && |refs| > 0
    ensures Refs(objs, refs[1..]) && Descending(objs, refs[1..])
    ensures |refs| > 1 ==> objs[refs[0]].value >= objs[refs[1]].value
  {
  }

  lemma DescendingCons(objs: seq<Move>, x: nat, rest: seq<nat>)
    requires x < |objs| && Refs(objs, rest) && Descending(objs, rest)
    requires |rest| > 0 ==> objs[x].value >= objs[rest[0]].value
    ensures Refs(objs, [x] + rest) && Descending(objs, [x] + rest)
  {
    var r := [x] + rest;
    forall i, j | 0 <= i < j < |r|
      ensures objs[r[i]].value >= objs[r[j]].value
    {
      assert r[j] == rest[j - 1];
      if i > 0 {
        assert r[i] == rest[i - 1];
      }
    }
  }

  function SortDesc(objs: seq<Move>, refs: seq<nat>): (r: seq<nat>)
    requires Refs(objs, refs)
    ensures multiset(r) == multiset(refs)
    ensures Refs(objs, r) && Descending(objs, r)
  {
    if |refs| == 0 then []
    else
      assert refs == [refs[0]] + refs[1..];
      Insert(objs, refs[0], SortDesc(objs, refs[1..]))
  }

  /** SetFlags on myNextMove: a move object gets its flag, or myNextMove
      is replaced by a null move flagged Stalemate. */
  function FlagChosen(g: Grid, c: Color, objs: seq<Move>, cur: Choice): (r: Outcome<(seq<Move>, Choice)>)
    requires cur.Chosen? ==> cur.id < |objs|
    ensures r.Ok? ==> |r.value.0| == |objs| && (r.value.1.Chosen? ==> r.value.1 == cur)
  {
    if cur.Chosen? then
      match FlagSpec(g, objs[cur.id], c)
      case Fault => Fault
      case Ok(Replaced) => Ok((objs, NullMove(Stalemate)))
      case Ok(Flagged(f)) => Ok((objs[cur.id := objs[cur.id].(flag := f)], cur))
    else Ok((objs, NullMove(Stalemate)))
  }

  /** The number of polls the clock has left to say go on. */
  function Budget(p: nat, o: seq<bool>): nat {
    if p <= |o| then |o| - p + 1 else 0
  }

  /** The loop of GetNextMove from the poll p on. */
  function DeepenSpec(g: Grid, c: Color, depth: int, objs: seq<Move>, refs: seq<nat>, cur: Choice,
                      pick: nat, p: nat, o: seq<bool>): (r: Run<Deepening>)
    requires Fits(objs, refs, cur)
    ensures r.polls >= p
    ensures r.out.Ok? ==> Fits(r.out.value.objs, r.out.value.refs, r.out.value.cur)
    decreases Budget(p, o), 1
  {
    if Over(o, p) then Run(Ok(Deepening(objs, refs, cur)), p + 1)
    else if |refs| == 0 then DeepenSpec(g, c, depth, objs, refs, NullMove(NoMovesFlag(g, c)), pick, p + 1, o)
    else DeepenTurn(g, c, depth, objs, refs, cur, pick, p + 1, o)
  }

  /** One search of the loop once the poll said go on: MiniMax at this
      depth, the poll after it, the choice, SetFlags and the sort. */
  function DeepenTurn(g: Grid, c: Color, depth: int, objs: seq<Move>, refs: seq<nat>, cur: Choice,
                      pick: nat, p: nat, o: seq<bool>): (r: Run<Deepening>)
    requires Fits(objs, refs, cur) && |refs| > 0 && p <= |o|
    ensures r.polls >= p
    ensures r.out.Ok? ==> Fits(r.out.value.objs, r.out.value.refs, r.out.value.cur)
    decreases Budget(p, o), 5
  {
    MiniMaxShape(g, depth, c, objs, refs, pick, p, o);
    match MiniMaxSpec(g, depth, c, objs, refs, pick, p, o)
    case Run(Fault, q) => Run(Fault, q)
    case Run(Ok(Pick(best, moves)), q) => DeepenAfter(g, c, depth, moves, refs, cur, best, pick, q, o)
  }

  /** After a search that ended at the poll q: the poll, and the loop stops
      or goes on. */
  function DeepenAfter(g: Grid, c: Color, depth: int, moves: seq<Move>, refs: seq<nat>, cur: Choice, best: nat,
                       pick: nat, q: nat, o: seq<bool>): (r: Run<Deepening>)
    requires Fits(moves, refs, cur) && best < |moves|
    ensures r.polls >= q
    ensures r.out.Ok? ==> Fits(r.out.value.objs, r.out.value.refs, r.out.value.cur)
    decreases Budget(q, o), 4
  {
    if Over(o, q) then Run(Ok(Deepening(moves, refs, cur)), q + 1)
    else DeepenChoose(g, c, depth, moves, refs, cur, best, pick, q + 1, o)
  }

  /** After a search, from the poll p after it: myNextMove becomes the
      search's best move when there is none yet or the best move is worth
      more than the current one. */
  function DeepenChoose(g: Grid, c: Color, depth: int, moves: seq<Move>, refs: seq<nat>, cur: Choice, best: nat,
                        pick: nat, p: nat, o: seq<bool>): (r: Run<Deepening>)
    requires Fits(moves, refs, cur) && best < |moves| && p <= |o|
    ensures r.polls >= p
    ensures r.out.Ok? ==> Fits(r.out.value.objs, r.out.value.refs, r.out.value.cur)
    decreases Budget(p, o), 3
  {
    var chosen := if cur.NoChoice? || moves[best].value > ChoiceValue(moves, cur) then Chosen(best) else cur;
    DeepenFlag(g, c, depth, moves, refs, chosen, pick, p, o)
  }

  /** The end of a search, from the poll p after it: SetFlags on the
      choice, the sort, and the loop again one ply deeper. */
  function DeepenFlag(g: Grid, c: Color, depth: int, moves: seq<Move>, refs: seq<nat>, chosen: Choice,
                      pick: nat, p: nat, o: seq<bool>): (r: Run<Deepening>)
    requires Fits(moves, refs, chosen) && p <= |o|
    ensures r.polls >= p
    ensures r.out.Ok? ==> Fits(r.out.value.objs, r.out.value.refs, r.out.value.cur)
    decreases Budget(p, o), 2
  {
    match FlagChosen(g, c, moves, chosen)
    case Fault => Run(Fault, p)
    case Ok((flagged, next)) =>
      DeepenSpec(g, c, depth + 1, flagged, SortDesc(flagged, refs), next, pick, p, o)
  }

  /** GetNextMove for side c on g from poll p up to the end of its loop:
      the legal moves, one poll spent inside a log line, then the deepening
      loop from depth 1. */
  function Deepened(g: Grid, c: Color, pick: nat, p: nat, o: seq<bool>): (r: Run<Deepening>)
    ensures r.out.Ok? ==> Fits(r.out.value.objs, r.out.value.refs, r.out.value.cur)
  {
    if !Generable(g, c) then Run(Fault, p)
    else
      var legal := Legal(g, AllMoves(g, c));
      DeepenSpec(g, c, 1, legal, Identity(|legal|), NoChoice, pick, p + 1, o)
  }

  /** The last log line of GetNextMove reads myNextMove.From.X: a null
      dereference when nothing was chosen (myNextMove is null) and when the
      choice is the null move, whose From is null. */
  function Answer(d: Deepening): (r: Outcome<Move>)
    requires Fits(d.objs, d.refs, d.cur)
  {
    match d.cur
    case Chosen(id) => Ok(d.objs[id])
    case _ => Fault
  }

  /** GetNextMove as the source runs it. */
  function NextMoveSpec(g: Grid, c: Color, pick: nat, p: nat, o: seq<bool>): (r: Run<Move>)
  {
    match Deepened(g, c, pick, p, o)
    case Run(Fault, q) => Run(Fault, q)
    case Run(Ok(d), q) => Run(Answer(d), q)
  }

  /** The reply the loop's end state stands for once the last log line is
      left aside: the choice, or the flagged null move the comment at the
      fallback announces. */
  function IntendedAnswer(d: Deepening): Reply
    requires Fits(d.objs, d.refs, d.cur)
  {
    match d.cur
    case NoChoice => Unset
    case Chosen(id) => Play(d.objs[id])
    case NullMove(f) => Null(f)
  }

  /** GetNextMove with the last log line left aside. */
  function IntendedNextMove(g: Grid, c: Color, pick: nat, p: nat, o: seq<bool>): (r: Run<Reply>)
  {
    match Deepened(g, c, pick, p, o)
    case Run(Fault, q) => Run(Fault, q)
    case Run(Ok(d), q) => Run(Ok(IntendedAnswer(d)), q)
  }

  /** DeepenTurn, given the outcome of MiniMax. */
  lemma DeepenTurnStep(g: Grid, c: Color, depth: int, objs: seq<Move>, refs: seq<nat>, cur: Choice,
                       pick: nat, p: nat, o: seq<bool>, mm: Run<Pick>)
    requires Fits(objs, refs, cur) && |refs| > 0 && p <= |o|
    requires mm == MiniMaxSpec(g, depth, c, objs, refs, pick, p, o)
    ensures mm.out.Fault? ==> DeepenTurn(g, c, depth, objs, refs, cur, pick, p, o) == Run(Fault, mm.polls)
    ensures mm.out.Ok? ==>
            mm.out.value.best < |mm.out.value.objs| && Fits(mm.out.value.objs, refs, cur) &&
            DeepenTurn(g, c, depth, objs, refs, cur, pick, p, o) ==
            DeepenAfter(g, c, depth, mm.out.value.objs, refs, cur, mm.out.value.best, pick, mm.polls, o)
  {
    MiniMaxShape(g, depth, c, objs, refs, pick, p, o);
  }

  /** DeepenFlag, given the outcome of SetFlags. */
  lemma DeepenFlagStep(g: Grid, c: Color, depth: int, moves: seq<Move>, refs: seq<nat>, chosen: Choice,
                       pick: nat, p: nat, o: seq<bool>, fl: Outcome<(seq<Move>, Choice)>)
    requires Fits(moves, refs, chosen) && p <= |o|
    requires fl == FlagChosen(g, c, moves, chosen)
    ensures fl.Fault? ==> DeepenFlag(g, c, depth, moves, refs, chosen, pick, p, o) == Run(Fault, p)
    ensures fl.Ok? ==> DeepenFlag(g, c, depth, moves, refs, chosen, pick, p, o) ==
                       DeepenSpec(g, c, depth + 1, fl.value.0, SortDesc(fl.value.0, refs), fl.value.1, pick, p, o)
  {
  }

  // ---------------------------------------------------------------------
  // The methods.

  /** The filter of GetNextMove: keep the moves that do not move into
      check, in order. */
  method LegalMoves(board: array2<Piece>, allMoves: seq<Move>) returns (validMoves: seq<Move>)
    requires IsBoard(board)
    modifies board
    ensures Snapshot(board) == old(Snapshot(board))
    ensures validMoves == Legal(old(Snapshot(board)), allMoves)
  {
    ghost var g := Snapshot(board);
    validMoves := [];
    assert allMoves[0..] == allMoves;
    for i := 0 to |allMoves|
      invariant Snapshot(board) == g
      invariant validMoves + Legal(g, allMoves[i..]) == Legal(g, allMoves)
    {
      var into := MovesIntoCheck(board, allMoves[i]);
      LegalFrom(g, allMoves, i);
      if !into {
        assert Legal(g, allMoves[i..]) == [allMoves[i]] + Legal(g, allMoves[i + 1..]);
        validMoves := validMoves + [allMoves[i]];
      }
    }
    assert allMoves[|allMoves|..] == [];
  }

  /** What one pass of the loop body leaves: go round again with the new
      state, or leave the loop with this outcome. */
  datatype Turn = Again(objs: seq<Move>, refs: seq<nat>, cur: Choice) | Finished(r: Outcome<Deepening>)

  /** The else branch of the loop body: MiniMax, the poll after it, the
      choice, SetFlags and the sort. */
  method DeepenStep(board: array2<Piece>, c: Color, depth: int, objs: seq<Move>, refs: seq<nat>, cur: Choice,
                    pick: nat, clock: TurnClock, ghost g: Grid) returns (t: Turn)
    requires IsBoard(board) && Snapshot(board) == g
    requires Fits(objs, refs, cur) && |refs| > 0 && clock.polls <= |clock.answers|
    modifies board, clock
    ensures Snapshot(board) == g && clock.polls >= old(clock.polls)
    ensures t.Finished? ==>
      Run(t.r, clock.polls) == DeepenTurn(g, c, depth, objs, refs, cur, pick, old(clock.polls), clock.answers)
    ensures t.Again? ==>
      Fits(t.objs, t.refs, t.cur) && old(clock.polls) < clock.polls <= |clock.answers| &&
      DeepenTurn(g, c, depth, objs, refs, cur, pick, old(clock.polls), clock.answers) ==
      DeepenSpec(g, c, depth + 1, t.objs, t.refs, t.cur, pick, clock.polls, clock.answers)
  {
    ghost var p := clock.polls;
    var r := MiniMax(depth, board, c, objs, refs, pick, clock);
    DeepenTurnStep(g, c, depth, objs, refs, cur, pick, p, clock.answers, Run(r, clock.polls));
    if r.Fault? {
      return Finished(Fault);
    }
    t := Proceed(board, c, depth, refs, cur, pick, r.value.objs, r.value.best, clock, g);
  }

  /** The loop body after MiniMax: the poll, then Choose. */
  method Proceed(board: array2<Piece>, c: Color, depth: int, refs: seq<nat>, cur: Choice,
                 pick: nat, moves: seq<Move>, best: nat, clock: TurnClock, ghost g: Grid) returns (t: Turn)
    requires IsBoard(board) && Snapshot(board) == g
    requires Fits(moves, refs, cur) && best < |moves|
    modifies board, clock
    ensures Snapshot(board) == g && clock.polls >= old(clock.polls)
    ensures t.Finished? ==>
      Run(t.r, clock.polls) == DeepenAfter(g, c, depth, moves, refs, cur, best, pick, old(clock.polls), clock.answers)
    ensures t.Again? ==>
      Fits(t.objs, t.refs, t.cur) && old(clock.polls) < clock.polls <= |clock.answers| &&
      DeepenAfter(g, c, depth, moves, refs, cur, best, pick, old(clock.polls), clock.answers) ==
      DeepenSpec(g, c, depth + 1, t.objs, t.refs, t.cur, pick, clock.polls, clock.answers)
  {
    var over := clock.IsMyTurnOver();
    if over {
      return Finished(Ok(Deepening(moves, refs, cur)));
    }
    t := Choose(board, c, depth, moves, refs, cur, best, pick, g, clock.polls, clock.answers);
  }

  /** The choice of myNextMove, then Settle. */
  method Choose(board: array2<Piece>, c: Color, depth: int, moves: seq<Move>, refs: seq<nat>, cur: Choice, best: nat,
                pick: nat, ghost g: Grid, ghost p: nat, ghost o: seq<bool>) returns (t: Turn)
    requires IsBoard(board) && Snapshot(board) == g
    requires Fits(moves, refs, cur) && best < |moves| && p <= |o|
    modifies board
    ensures Snapshot(board) == g
    ensures t.Finished? ==> Run(t.r, p) == DeepenChoose(g, c, depth, moves, refs, cur, best, pick, p, o)
    ensures t.Again? ==>
      Fits(t.objs, t.refs, t.cur) &&
      DeepenChoose(g, c, depth, moves, refs, cur, best, pick, p, o) == DeepenSpec(g, c, depth + 1, t.objs, t.refs, t.cur, pick, p, o)
  {
    var chosen := if cur.NoChoice? || moves[best].value > ChoiceValue(moves, cur) then Chosen(best) else cur;
    t := Settle(board, c, depth, moves, refs, chosen, pick, g, p, o);
  }

  /** The end of the loop body: SetFlags on the choice and the sort. */
  method Settle(board: array2<Piece>, c: Color, depth: int, moves: seq<Move>, refs: seq<nat>, chosen: Choice,
                pick: nat, ghost g: Grid, ghost p: nat, ghost o: seq<bool>) returns (t: Turn)
    requires IsBoard(board) && Snapshot(board) == g
    requires Fits(moves, refs, chosen) && p <= |o|
    modifies board
    ensures Snapshot(board) == g
    ensures t.Finished? ==> Run(t.r, p) == DeepenFlag(g, c, depth, moves, refs, chosen, pick, p, o)
    ensures t.Again? ==>
      Fits(t.objs, t.refs, t.cur) &&
      DeepenFlag(g, c, depth, moves, refs, chosen, pick, p, o) == DeepenSpec(g, c, depth + 1, t.objs, t.refs, t.cur, pick, p, o)
  {
    var fl := FlagChoice(board, c, moves, chosen, g);
    DeepenFlagStep(g, c, depth, moves, refs, chosen, pick, p, o, fl);
    if fl.Fault? {
      return Finished(Fault);
    }
    t := Again(fl.value.0, SortDesc(fl.value.0, refs), fl.value.1);
  }

  /** SetFlags on the chosen move, or the null move in its place. */
  method FlagChoice(board: array2<Piece>, c: Color, moves: seq<Move>, chosen: Choice, ghost g: Grid)
    returns (fl: Outcome<(seq<Move>, Choice)>)
    requires IsBoard(board) && Snapshot(board) == g
    requires chosen.Chosen? ==> chosen.id < |moves|
    modifies board
    ensures Snapshot(board) == g
    ensures fl == FlagChosen(g, c, moves, chosen)
  {
    if chosen.Chosen? {
      var f := SetFlags(board, moves[chosen.id], c);
      match f
      case Fault =>
        fl := Fault;
      case Ok(Replaced) =>
        fl := Ok((moves, NullMove(Stalemate)));
      case Ok(Flagged(flag)) =>
        fl := Ok((moves[chosen.id := moves[chosen.id].(flag := flag)], chosen));
    } else {
      fl := Ok((moves, NullMove(Stalemate)));
    }
  }

  /** The loop of GetNextMove from depth 1. */
  method Deepen(board: array2<Piece>, c: Color, validMoves: seq<Move>, pick: nat, clock: TurnClock, ghost g: Grid)
    returns (r: Outcome<Deepening>)
    requires IsBoard(board) && Snapshot(board) == g
    modifies board, clock
    ensures Snapshot(board) == g
    ensures Run(r, clock.polls) ==
            DeepenSpec(g, c, 1, validMoves, Identity(|validMoves|), NoChoice, pick, old(clock.polls), clock.answers)
  {
    var depth := 1;
    var objs, refs, cur := validMoves, Identity(|validMoves|), NoChoice;
    while true
      invariant Snapshot(board) == g && Fits(objs, refs, cur)
      invariant DeepenSpec(g, c, depth, objs, refs, cur, pick, clock.polls, clock.answers) ==
                DeepenSpec(g, c, 1, validMoves, Identity(|validMoves|), NoChoice, pick, old(clock.polls), clock.answers)
      decreases Budget(clock.polls, clock.answers)
    {
      var over := clock.IsMyTurnOver();
      if over {
        return Ok(Deepening(objs, refs, cur));
      }
      if |refs| == 0 {
        cur := NullMove(if KingInCheck(Snapshot(board), KingOf(c)) then Checkmate else Stalemate);
      } else {
        var t := DeepenStep(board, c, depth, objs, refs, cur, pick, clock, g);
        if t.Finished? {
          return t.r;
        }
        objs, refs, cur := t.objs, t.refs, t.cur;
        depth := depth + 1;
      }
    }
  }

  class StudentAI {
    var turnCount: int
    /** PreviousStates, as the boards' contents. */
    var previousStates: seq<Grid>

    predicate Valid()
      reads this
    {
      |previousStates| <= HistoryLength
    }

    constructor ()
      ensures Valid() && turnCount == 0 && previousStates == []
    {
      turnCount := 0;
      previousStates := [];
    }

    /** The history update at the start of GetNextMove. */
    method Remember(g: Grid)
      requires Valid()
      modifies this
      ensures Valid() && turnCount == old(turnCount)
      ensures previousStates == Window(old(previousStates), g)
    {
      if |previousStates| < HistoryLength {
        previousStates := previousStates + [g];
      } else {
        previousStates := previousStates[1..];
        previousStates := previousStates + [g];
      }
    }

    /** GetNextMove: count the turn, remember the board, filter the legal
        moves and run the deepening loop. The board is left as it was. */
    method GetNextMove(board: array2<Piece>, c: Color, pick: nat, clock: TurnClock) returns (r: Outcome<Move>)
      requires IsBoard(board) && Valid()
      modifies this, board, clock
      ensures Valid() && turnCount == old(turnCount) + 1
      ensures previousStates == Window(old(previousStates), old(Snapshot(board)))
      ensures Snapshot(board) == old(Snapshot(board))
      ensures Run(r, clock.polls) == NextMoveSpec(old(Snapshot(board)), c, pick, old(clock.polls), clock.answers)
    {
      var g := Snapshot(board);
      turnCount := turnCount + 1;
      Remember(g);
      var ok := CanGenerate(board, c);
      if !ok {
        return Fault;
      }
      var allMoves := GetAllMoves(board, c);
      var validMoves := LegalMoves(board, allMoves);
      var logged := clock.IsMyTurnOver();
      var d := Deepen(board, c, validMoves, pick, clock, g);
      if d.Fault? {
        return Fault;
      }
      // The last log line reads the squares of the chosen move.
      r := Answer(d.value);
    }
  }
}
