/** The alpha-beta search of the engine: Max and Min, mutually recursive,
    making and unmaking moves on the shared board, and the root loop
    MiniMax. Each is a function on board values that fixes the result and
    the number of clock polls made, and a method on the board array that is
    proved to return that function's value. */
module Search {
  import opened Board
  import opened Attack
  import opened MoveGen
  import opened Eval

  /** The engine's stand-in for infinity: the start value of minValue, and
      of maxValue negated. */
  const Infinity := 999999999

  /** An outcome and the number of clock polls made when it is reached. */
  datatype Run<T> = Run(out: Outcome<T>, polls: nat)

  // ---------------------------------------------------------------------
  // The clock.

  /** IsMyTurnOver as an oracle: answers[p] is the answer to poll number p,
      and every poll past the end of answers reports the turn over. */
  predicate Over(answers: seq<bool>, p: nat) {
    p >= |answers| || answers[p]
  }

  class TurnClock {
    const answers: seq<bool>
    var polls: nat

    constructor (answers: seq<bool>)
      ensures this.answers == answers && polls == 0
    {
      this.answers := answers;
      polls := 0;
    }

    /** IsMyTurnOver */
    method IsMyTurnOver() returns (over: bool)
      modifies this
      ensures polls == old(polls) + 1
      ensures over == Over(answers, old(polls))
    {
      over := Over(answers, polls);
      polls := polls + 1;
    }
  }

  // ---------------------------------------------------------------------
  // The search as functions.

  /** Termination measures: Max at depth d ranks above Min at depth d, and
      Min at depth d ranks above Max at depth d - 1 and d - 2. */
  function MaxRank(depth: int): nat {
    if depth <= 0 then 0 else 2 * depth + 1
  }

  function MinRank(depth: int): nat {
    if depth <= 0 then 1 else 2 * depth
  }

  /** The depth Min hands to Max after the reply m: two plies less when the
      reply captures nothing and depth > 1, one ply less otherwise. */
  function ReplyDepth(g: Grid, m: Move, depth: int): (d: int)
    ensures MaxRank(d) < MinRank(depth)
  {
    if depth > 1 && At(g, m.to) == Empty then depth - 2 else depth - 1
  }

  /** The moves of ms that do not leave their mover's king in check, in
      order: the moves that pass the MovesIntoCheck test at the head of the
      loops of Max, Min and GetNextMove. */
  function Legal(g: Grid, ms: seq<Move>): (r: seq<Move>)
    ensures |r| <= |ms|
  {
    if |ms| == 0 then [] else (if IntoCheck(g, ms[0]) then [] else [ms[0]]) + Legal(g, ms[1..])
  }

  /** Max for the engine's side c with the window (alpha, beta), starting at
      poll p. */
  function MaxSpec(g: Grid, depth: int, c: Color, alpha: int, beta: int, p: nat, o: seq<bool>): (r: Run<int>)
    ensures r.polls >= p
    decreases MaxRank(depth), 2, 0
  {
    if depth <= 0 then Run(Evaluate(g, c), p)
    else if Over(o, p) then Run(Evaluate(g, c), p + 1)
    else MaxMoves(g, depth, c, alpha, beta, p + 1, o)
  }

  /** Max once the poll has said go on: generate the moves of side c and
      run the loop over the legal ones, from -Infinity. */
  function MaxMoves(g: Grid, depth: int, c: Color, alpha: int, beta: int, p: nat, o: seq<bool>): (r: Run<int>)
    requires depth > 0
    ensures r.polls >= p
    decreases MaxRank(depth), 1, 0
  {
    if !Generable(g, c) then Run(Fault, p)
    else MaxLoop(g, depth, c, Legal(g, AllMoves(g, c)), -Infinity, alpha, beta, p, o)
  }

  /** The loop of Max over the legal moves ls still to try, with the running
      maximum and the current alpha: poll, evaluate with Min, stop once the
      maximum reaches beta. */
  function MaxLoop(g: Grid, depth: int, c: Color, ls: seq<Move>, maxValue: int,
                   alpha: int, beta: int, p: nat, o: seq<bool>): (r: Run<int>)
    requires depth > 0
    ensures r.polls >= p
    decreases MaxRank(depth), 0, |ls|
  {
    if |ls| == 0 then Run(Ok(maxValue), p)
    else if Over(o, p) then Run(Evaluate(g, c), p + 1)
    else match MinAfter(g, ls[0], depth, c, alpha, beta, p + 1, o)
      case Run(Fault, q) => Run(Fault, q)
      case Run(Ok(v), q) =>
        var m := if v > maxValue then v else maxValue;
        if m >= beta then Run(Ok(m), q)
        else MaxLoop(g, depth, c, ls[1..], m, if m > alpha then m else alpha, beta, q, o)
  }

  /** Min on the board after the engine's move m, at the same depth. */
  function MinAfter(g: Grid, m: Move, depth: int, c: Color, alpha: int, beta: int, p: nat, o: seq<bool>): (r: Run<int>)
    ensures r.polls >= p
    decreases MinRank(depth), 3, 0
  {
    MinSpec(Apply(g, m), depth, c, alpha, beta, p, o)
  }

  /** Min: the replies of the other side to the engine's move, with the
      window (alpha, beta), starting at poll p. */
  function MinSpec(g: Grid, depth: int, c: Color, alpha: int, beta: int, p: nat, o: seq<bool>): (r: Run<int>)
    ensures r.polls >= p
    decreases MinRank(depth), 2, 0
  {
    if Over(o, p) then Run(Evaluate(g, c), p + 1)
    else MinMoves(g, depth, c, alpha, beta, p + 1, o)
  }

  /** Min once the poll has said go on: generate the replies of the other
      side and run the loop over the legal ones, from Infinity. */
  function MinMoves(g: Grid, depth: int, c: Color, alpha: int, beta: int, p: nat, o: seq<bool>): (r: Run<int>)
    ensures r.polls >= p
    decreases MinRank(depth), 1, 0
  {
    if !Generable(g, Opponent(c)) then Run(Fault, p)
    else MinLoop(g, depth, c, Legal(g, AllMoves(g, Opponent(c))), Infinity, alpha, beta, p, o)
  }

  /** The loop of Min over the legal replies ls still to try: poll, evaluate
      with Max, stop once the minimum reaches alpha. */
  function MinLoop(g: Grid, depth: int, c: Color, ls: seq<Move>, minValue: int,
                   alpha: int, beta: int, p: nat, o: seq<bool>): (r: Run<int>)
    ensures r.polls >= p
    decreases MinRank(depth), 0, |ls|
  {
    if |ls| == 0 then Run(Ok(minValue), p)
    else if Over(o, p) then Run(Ok(minValue), p + 1)
    else match MaxAfter(g, ls[0], depth, c, alpha, beta, p + 1, o)
      case Run(Fault, q) => Run(Fault, q)
      case Run(Ok(v), q) =>
        var m := if v < minValue then v else minValue;
        if m <= alpha then Run(Ok(m), q)
        else MinLoop(g, depth, c, ls[1..], m, alpha, if m < beta then m else beta, q, o)
  }

  /** Max on the board after the reply m, at the depth Min hands down. */
  function MaxAfter(g: Grid, m: Move, depth: int, c: Color, alpha: int, beta: int, p: nat, o: seq<bool>): (r: Run<int>)
    ensures r.polls >= p
    decreases MaxRank(ReplyDepth(g, m, depth)), 3, 0
  {
    MaxSpec(Apply(g, m), ReplyDepth(g, m, depth), c, alpha, beta, p, o)
  }

  /** Legal on the moves from index i on: the head is kept or dropped by
      the MovesIntoCheck test. */
  lemma LegalFrom(g: Grid, ms: seq<Move>, i: nat)
    requires i < |ms|
    ensures IntoCheck(g, ms[i]) ==> Legal(g, ms[i..]) == Legal(g, ms[i + 1..])
    ensures !IntoCheck(g, ms[i]) ==>
              |Legal(g, ms[i..])| > 0 && Legal(g, ms[i..])[0] == ms[i] && Legal(g, ms[i..])[1..] == Legal(g, ms[i + 1..])
  {
    assert ms[i..][1..] == ms[i + 1..];
    if !IntoCheck(g, ms[i]) {
      assert Legal(g, ms[i..]) == [ms[i]] + Legal(g, ms[i + 1..]);
    }
  }

  /** One turn of MaxLoop once the poll said go on, given the result of
      Min on the first legal move. */
  lemma MaxLoopStep(g: Grid, depth: int, c: Color, ls: seq<Move>, maxValue: int, alpha: int, beta: int,
                    p: nat, o: seq<bool>, child: Run<int>)
    requires depth > 0 && |ls| > 0 && !Over(o, p)
    requires child == MinSpec(Apply(g, ls[0]), depth, c, alpha, beta, p + 1, o)
    ensures child.out.Fault? ==> MaxLoop(g, depth, c, ls, maxValue, alpha, beta, p, o) == Run(Fault, child.polls)
    ensures child.out.Ok? ==>
      var m := if child.out.value > maxValue then child.out.value else maxValue;
      MaxLoop(g, depth, c, ls, maxValue, alpha, beta, p, o) ==
        if m >= beta then Run(Ok(m), child.polls)
        else MaxLoop(g, depth, c, ls[1..], m, if m > alpha then m else alpha, beta, child.polls, o)
  {
    assert MinAfter(g, ls[0], depth, c, alpha, beta, p + 1, o) == child;
  }

  /** One turn of MinLoop once the poll said go on, given the result of
      Max on the first legal reply. */
  lemma MinLoopStep(g: Grid, depth: int, c: Color, ls: seq<Move>, minValue: int, alpha: int, beta: int,
                    p: nat, o: seq<bool>, child: Run<int>)
    requires |ls| > 0 && !Over(o, p)
    requires child == MaxSpec(Apply(g, ls[0]), ReplyDepth(g, ls[0], depth), c, alpha, beta, p + 1, o)
    ensures child.out.Fault? ==> MinLoop(g, depth, c, ls, minValue, alpha, beta, p, o) == Run(Fault, child.polls)
    ensures child.out.Ok? ==>
      var m := if child.out.value < minValue then child.out.value else minValue;
      MinLoop(g, depth, c, ls, minValue, alpha, beta, p, o) ==
        if m <= alpha then Run(Ok(m), child.polls)
        else MinLoop(g, depth, c, ls[1..], m, alpha, if m < beta then m else beta, child.polls, o)
  {
    assert MaxAfter(g, ls[0], depth, c, alpha, beta, p + 1, o) == child;
  }

  // ---------------------------------------------------------------------
  // The root loop as a function. The root moves are objects: objs holds
  // them, indexed by identity, and refs is the list the root loop walks.

  /** What MiniMax hands back: the identity of the best move and the move
      objects with the values written into them. */
  datatype Pick = Pick(best: nat, objs: seq<Move>)

  predicate Refs(objs: seq<Move>, refs: seq<nat>) {
    forall j :: 0 <= j < |refs| ==> refs[j] < |objs|
  }

  /** The move MiniMax evaluates first: a random one at depth 1, the head of
      the sorted list from depth 2 on. */
  function FirstIndex(depth: int, pick: nat, count: nat): (k: nat)
    requires count > 0
    ensures k < count
  {
    if depth > 1 then 0 else pick % count
  }

  predicate SameSquares(a: Move, b: Move) {
    a.from == b.from && a.to == b.to
  }

  function WithValue(objs: seq<Move>, id: nat, v: int): (r: seq<Move>)
    requires id < |objs|
    ensures |r| == |objs|
  {
    objs[id := objs[id].(value := v)]
  }

  function MiniMaxSpec(g: Grid, depth: int, c: Color, objs: seq<Move>, refs: seq<nat>, pick: nat,
                       p: nat, o: seq<bool>): (r: Run<Pick>)
    requires |refs| > 0 && Refs(objs, refs)
    ensures r.polls >= p
  {
    var best := refs[FirstIndex(depth, pick, |refs|)];
    match MinSpec(Apply(g, objs[best]), depth, c, -Infinity, Infinity, p, o)
    case Run(Fault, q) => Run(Fault, q)
    case Run(Ok(v), q) => RootLoop(g, depth, c, WithValue(objs, best, v), refs, 0, best, v, q, o)
  }

  /** The loop of MiniMax from refs[i] on: poll, skip the move with the
      current best move's squares, evaluate the rest with Min. */
  function RootLoop(g: Grid, depth: int, c: Color, objs: seq<Move>, refs: seq<nat>, i: nat,
                    best: nat, alpha: int, p: nat, o: seq<bool>): (r: Run<Pick>)
    requires Refs(objs, refs) && i <= |refs| && best < |objs|
    ensures r.polls >= p
    decreases |refs| - i
  {
    if i == |refs| then Run(Ok(Pick(best, objs)), p)
    else if Over(o, p) then Run(Ok(Pick(best, objs)), p + 1)
    else if SameSquares(objs[refs[i]], objs[best]) then
      RootLoop(g, depth, c, objs, refs, i + 1, best, alpha, p + 1, o)
    else match MinSpec(Apply(g, objs[refs[i]]), depth, c, alpha, Infinity, p + 1, o)
      case Run(Fault, q) => Run(Fault, q)
      case Run(Ok(v), q) =>
        if v > alpha then RootLoop(g, depth, c, WithValue(objs, refs[i], v), refs, i + 1, refs[i], v, q, o)
        else RootLoop(g, depth, c, WithValue(objs, refs[i], v), refs, i + 1, best, alpha, q, o)
  }

  /** One turn of RootLoop once the poll said go on and the move is not
      the best move's twin, given the result of Min on that move. */
  lemma RootLoopStep(g: Grid, depth: int, c: Color, objs: seq<Move>, refs: seq<nat>, i: nat,
                     best: nat, alpha: int, p: nat, o: seq<bool>, child: Run<int>)
    requires Refs(objs, refs) && i < |refs| && best < |objs| && !Over(o, p)
    requires !SameSquares(objs[refs[i]], objs[best])
    requires child == MinSpec(Apply(g, objs[refs[i]]), depth, c, alpha, Infinity, p + 1, o)
    ensures child.out.Fault? ==> RootLoop(g, depth, c, objs, refs, i, best, alpha, p, o) == Run(Fault, child.polls)
    ensures child.out.Ok? ==>
      var v := child.out.value;
      RootLoop(g, depth, c, objs, refs, i, best, alpha, p, o) ==
        RootLoop(g, depth, c, WithValue(objs, refs[i], v), refs, i + 1, if v > alpha then refs[i] else best,
                 if v > alpha then v else alpha, child.polls, o)
  {
  }

  // ---------------------------------------------------------------------
  // The methods.

  /** Whether GetAllMoves can run for side c: the source indexes off the
      board for a pawn of c on its last row (row 0 for White, row 7 for
      Black). */
  method CanGenerate(board: array2<Piece>, c: Color) returns (ok: bool)
    requires IsBoard(board)
    ensures ok == Generable(Snapshot(board), c)
  {
    var y: Coord := if c == White then 0 else 7;
    for x := 0 to 8
      invariant forall i: Coord :: i < x ==> board[i, y] != Piece(c, Pawn)
    {
      if board[x, y] == Piece(c, Pawn) {
        assert !PawnCanStep(c, Square(x, y));
        return false;
      }
    }
    return true;
  }

  /** `return CalcPieceCost(board, myColor, out currentValue);` */
  method Leaf(board: array2<Piece>, c: Color) returns (r: Outcome<int>)
    requires IsBoard(board)
    ensures r.Fault? <==> exists x: Coord :: x < 7 && board[x, 7] == Piece(Black, Pawn)
    ensures r == Evaluate(Snapshot(board), c)
  {
    var enemyPieceCount;
    r, enemyPieceCount := CalcPieceCost(board, c);
    ghost var g := Snapshot(board);
    EvaluateFaults(g, c);
    assert forall x: Coord :: g[x][7] == board[x, 7];
  }

  /** One move of Max's loop: save the two squares, make the move, call Min
      at the same depth, write the two squares back. */
  method MaxChild(board: array2<Piece>, move: Move, depth: int, c: Color, alpha: int, beta: int, clock: TurnClock)
    returns (v: Outcome<int>)
    requires IsBoard(board) && depth > 0
    modifies board, clock
    ensures v.Ok? ==> Snapshot(board) == old(Snapshot(board))
    ensures Run(v, clock.polls) == MinAfter(old(Snapshot(board)), move, depth, c, alpha, beta, old(clock.polls), clock.answers)
    decreases MaxRank(depth), 0
  {
    ghost var g := Snapshot(board);
    var tempPieceTo := board[move.to.x, move.to.y];
    var tempPieceFrom := board[move.from.x, move.from.y];
    MakeMove(board, move);
    v := Min(board, depth, c, alpha, beta, clock);
    if v.Fault? {
      return;
    }
    Put(board, move.to, tempPieceTo);
    Put(board, move.from, tempPieceFrom);
    RestoreAfterApply(g, move);
  }

  /** What one turn of the Max or Min loop leaves: the running value and
      the moved bound of the window, or the result to return now. */
  datatype Step = Next(value: int, bound: int) | Stop(r: Outcome<int>)

  /** Max's update once Min has valued a move: a fault stops the loop, a
      maximum that reaches beta cuts off, any other maximum raises alpha. */
  function MaxNext(v: Outcome<int>, maxValue: int, alpha: int, beta: int): (s: Step)
    ensures s.Next? ==> s.value < beta && s.value >= maxValue && s.bound >= alpha && s.bound >= s.value
    ensures s.Stop? && s.r.Ok? ==> s.r.value >= beta && s.r.value >= maxValue
    ensures v.Ok? && s.Next? ==> s.value >= v.value
  {
    if v.Fault? then Stop(Fault)
    else
      var m := if v.value > maxValue then v.value else maxValue;
      if m >= beta then Stop(Ok(m)) else Next(m, if m > alpha then m else alpha)
  }

  /** Min's update once Max has valued a reply: a fault stops the loop, a
      minimum that reaches alpha cuts off, any other minimum lowers beta. */
  function MinNext(v: Outcome<int>, minValue: int, alpha: int, beta: int): (s: Step)
    ensures s.Next? ==> s.value > alpha && s.value <= minValue && s.bound <= beta && s.bound <= s.value
    ensures s.Stop? && s.r.Ok? ==> s.r.value <= alpha && s.r.value <= minValue
    ensures v.Ok? && s.Next? ==> s.value <= v.value
  {
    if v.Fault? then Stop(Fault)
    else
      var m := if v.value < minValue then v.value else minValue;
      if m <= alpha then Stop(Ok(m)) else Next(m, if m < beta then m else beta)
  }

  /** MaxLoopStep with the update as a Step. */
  lemma MaxLoopNext(g: Grid, depth: int, c: Color, ls: seq<Move>, maxValue: int, alpha: int, beta: int,
                    p: nat, o: seq<bool>)
    requires depth > 0 && |ls| > 0 && !Over(o, p)
    ensures var child := MinAfter(g, ls[0], depth, c, alpha, beta, p + 1, o);
            var s := MaxNext(child.out, maxValue, alpha, beta);
            (s.Stop? ==> MaxLoop(g, depth, c, ls, maxValue, alpha, beta, p, o) == Run(s.r, child.polls)) &&
            (s.Next? ==> MaxLoop(g, depth, c, ls, maxValue, alpha, beta, p, o) ==
                         MaxLoop(g, depth, c, ls[1..], s.value, s.bound, beta, child.polls, o))
  {
    MaxLoopStep(g, depth, c, ls, maxValue, alpha, beta, p, o, MinAfter(g, ls[0], depth, c, alpha, beta, p + 1, o));
  }

  /** MinLoopStep with the update as a Step. */
  lemma MinLoopNext(g: Grid, depth: int, c: Color, ls: seq<Move>, minValue: int, alpha: int, beta: int,
                    p: nat, o: seq<bool>)
    requires |ls| > 0 && !Over(o, p)
    ensures var child := MaxAfter(g, ls[0], depth, c, alpha, beta, p + 1, o);
            var s := MinNext(child.out, minValue, alpha, beta);
            (s.Stop? ==> MinLoop(g, depth, c, ls, minValue, alpha, beta, p, o) == Run(s.r, child.polls)) &&
            (s.Next? ==> MinLoop(g, depth, c, ls, minValue, alpha, beta, p, o) ==
                         MinLoop(g, depth, c, ls[1..], s.value, alpha, s.bound, child.polls, o))
  {
    MinLoopStep(g, depth, c, ls, minValue, alpha, beta, p, o, MaxAfter(g, ls[0], depth, c, alpha, beta, p + 1, o));
  }

  /** The body of Max's loop for a legal move: poll, evaluate the move with
      Min, update the maximum, cut off at beta, raise alpha. */
  method MaxStep(board: array2<Piece>, move: Move, depth: int, c: Color, maxValue: int, alpha: int, beta: int,
                 clock: TurnClock, ghost g: Grid, ghost ls: seq<Move>)
    returns (s: Step)
    requires IsBoard(board) && depth > 0 && Snapshot(board) == g && |ls| > 0 && ls[0] == move
    modifies board, clock
    ensures s.Next? ==> Snapshot(board) == g
    ensures s.Next? ==> MaxLoop(g, depth, c, ls, maxValue, alpha, beta, old(clock.polls), clock.answers) ==
                        MaxLoop(g, depth, c, ls[1..], s.value, s.bound, beta, clock.polls, clock.answers)
    ensures s.Stop? && s.r.Ok? ==> Snapshot(board) == g
    ensures s.Stop? ==> Run(s.r, clock.polls) == MaxLoop(g, depth, c, ls, maxValue, alpha, beta, old(clock.polls), clock.answers)
    decreases MaxRank(depth), 2
  {
    var over := clock.IsMyTurnOver();
    if over {
      var cost := Leaf(board, c);
      return Stop(cost);
    }
    ghost var p := clock.polls;
    s := MaxTry(board, move, depth, c, maxValue, alpha, beta, clock);
    MaxLoopNext(g, depth, c, ls, maxValue, alpha, beta, p - 1, clock.answers);
  }

  /** Max's loop body past the poll: value the move with Min and update
      the maximum and alpha. */
  method MaxTry(board: array2<Piece>, move: Move, depth: int, c: Color, maxValue: int, alpha: int, beta: int,
                clock: TurnClock)
    returns (s: Step)
    requires IsBoard(board) && depth > 0
    modifies board, clock
    ensures s != Stop(Fault) ==> Snapshot(board) == old(Snapshot(board))
    ensures var child := MinAfter(old(Snapshot(board)), move, depth, c, alpha, beta, old(clock.polls), clock.answers);
            clock.polls == child.polls && s == MaxNext(child.out, maxValue, alpha, beta)
    decreases MaxRank(depth), 1
  {
    var v := MaxChild(board, move, depth, c, alpha, beta, clock);
    if v.Fault? {
      s := Stop(Fault);
    } else {
      var currentValue := v.value;
      var m := maxValue;
      if currentValue > m {
        m := currentValue;
      }
      if m >= beta {
        s := Stop(Ok(m));
      } else {
        var a := alpha;
        if m > a {
          a := m;
        }
        s := Next(m, a);
      }
    }
  }

  /** One turn of Max's loop over its move list ms: a move that moves into
      check is skipped, any other is tried by MaxStep. */
  method MaxVisit(board: array2<Piece>, depth: int, c: Color, ms: seq<Move>, i: nat, maxValue: int, alpha: int, beta: int,
                  clock: TurnClock, ghost g: Grid)
    returns (s: Step)
    requires IsBoard(board) && depth > 0 && Snapshot(board) == g && i < |ms|
    modifies board, clock
    ensures s.Next? ==> Snapshot(board) == g
    ensures s.Next? ==> MaxLoop(g, depth, c, Legal(g, ms[i..]), maxValue, alpha, beta, old(clock.polls), clock.answers) ==
                        MaxLoop(g, depth, c, Legal(g, ms[i + 1..]), s.value, s.bound, beta, clock.polls, clock.answers)
    ensures s.Stop? && s.r.Ok? ==> Snapshot(board) == g
    ensures s.Stop? ==> Run(s.r, clock.polls) == MaxLoop(g, depth, c, Legal(g, ms[i..]), maxValue, alpha, beta, old(clock.polls), clock.answers)
    decreases MaxRank(depth), 3
  {
    var into := MovesIntoCheck(board, ms[i]);
    LegalFrom(g, ms, i);
    if into {
      s := Next(maxValue, alpha);
    } else {
      s := MaxStep(board, ms[i], depth, c, maxValue, alpha, beta, clock, g, Legal(g, ms[i..]));
    }
  }

  method Max(board: array2<Piece>, depth: int, c: Color, alpha: int, beta: int, clock: TurnClock)
    returns (r: Outcome<int>)
    requires IsBoard(board)
    modifies board, clock
    ensures r.Ok? ==> Snapshot(board) == old(Snapshot(board))
    ensures Run(r, clock.polls) == MaxSpec(old(Snapshot(board)), depth, c, alpha, beta, old(clock.polls), clock.answers)
    decreases MaxRank(depth), 5
  {
    if depth <= 0 {
      r := Leaf(board, c);
      return;
    }
    var over := clock.IsMyTurnOver();
    if over {
      r := Leaf(board, c);
      return;
    }
    var ok := CanGenerate(board, c);
    if !ok {
      return Fault;
    }
    var myMoves := GetAllMoves(board, c);
    r := MaxOverMoves(board, depth, c, myMoves, alpha, beta, clock, Snapshot(board));
  }

  /** The loop of Max over the engine's moves, from -Infinity. */
  method MaxOverMoves(board: array2<Piece>, depth: int, c: Color, myMoves: seq<Move>, alpha: int, beta: int,
                      clock: TurnClock, ghost g: Grid)
    returns (r: Outcome<int>)
    requires IsBoard(board) && depth > 0 && Snapshot(board) == g
    modifies board, clock
    ensures r.Ok? ==> Snapshot(board) == g
    ensures Run(r, clock.polls) == MaxLoop(g, depth, c, Legal(g, myMoves), -Infinity, alpha, beta, old(clock.polls), clock.answers)
    decreases MaxRank(depth), 4
  {
    var maxValue := -Infinity;
    var a := alpha;
    var i := 0;
    assert myMoves[0..] == myMoves;
    while i < |myMoves|
      invariant 0 <= i <= |myMoves| && Snapshot(board) == g
      invariant MaxLoop(g, depth, c, Legal(g, myMoves[i..]), maxValue, a, beta, clock.polls, clock.answers) ==
                MaxLoop(g, depth, c, Legal(g, myMoves), -Infinity, alpha, beta, old(clock.polls), clock.answers)
    {
      var step := MaxVisit(board, depth, c, myMoves, i, maxValue, a, beta, clock, g);
      if step.Stop? {
        return step.r;
      }
      maxValue, a := step.value, step.bound;
      i := i + 1;
    }
    return Ok(maxValue);
  }

  /** One reply in Min's loop: save the two squares, make the reply, call
      Max two plies shallower for a quiet reply when depth > 1 and one ply
      shallower otherwise, write the two squares back. */
  method MinChild(board: array2<Piece>, oppMove: Move, depth: int, c: Color, alpha: int, beta: int, clock: TurnClock)
    returns (v: Outcome<int>)
    requires IsBoard(board)
    modifies board, clock
    ensures v.Ok? ==> Snapshot(board) == old(Snapshot(board))
    ensures Run(v, clock.polls) == MaxAfter(old(Snapshot(board)), oppMove, depth, c, alpha, beta, old(clock.polls), clock.answers)
    decreases MinRank(depth), 0
  {
    ghost var g := Snapshot(board);
    var tempPieceTo := board[oppMove.to.x, oppMove.to.y];
    var tempPieceFrom := board[oppMove.from.x, oppMove.from.y];
    MakeMove(board, oppMove);
    var replyDepth := if depth > 1 && tempPieceTo == Empty then depth - 2 else depth - 1;
    v := Max(board, replyDepth, c, alpha, beta, clock);
    if v.Fault? {
      return;
    }
    Put(board, oppMove.to, tempPieceTo);
    Put(board, oppMove.from, tempPieceFrom);
    RestoreAfterApply(g, oppMove);
  }

  /** The body of Min's loop for a legal reply: poll, evaluate the reply
      with Max, update the minimum, cut off at alpha, lower beta. */
  method MinStep(board: array2<Piece>, oppMove: Move, depth: int, c: Color, minValue: int, alpha: int, beta: int,
                 clock: TurnClock, ghost g: Grid, ghost ls: seq<Move>)
    returns (s: Step)
    requires IsBoard(board) && Snapshot(board) == g && |ls| > 0 && ls[0] == oppMove
    modifies board, clock
    ensures s.Next? ==> Snapshot(board) == g
    ensures s.Next? ==> MinLoop(g, depth, c, ls, minValue, alpha, beta, old(clock.polls), clock.answers) ==
                        MinLoop(g, depth, c, ls[1..], s.value, alpha, s.bound, clock.polls, clock.answers)
    ensures s.Stop? && s.r.Ok? ==> Snapshot(board) == g
    ensures s.Stop? ==> Run(s.r, clock.polls) == MinLoop(g, depth, c, ls, minValue, alpha, beta, old(clock.polls), clock.answers)
    decreases MinRank(depth), 2
  {
    var over := clock.IsMyTurnOver();
    if over {
      return Stop(Ok(minValue));
    }
    ghost var p := clock.polls;
    s := MinTry(board, oppMove, depth, c, minValue, alpha, beta, clock);
    MinLoopNext(g, depth, c, ls, minValue, alpha, beta, p - 1, clock.answers);
  }

  /** Min's loop body past the poll: value the reply with Max and update
      the minimum and beta. */
  method MinTry(board: array2<Piece>, oppMove: Move, depth: int, c: Color, minValue: int, alpha: int, beta: int,
                clock: TurnClock)
    returns (s: Step)
    requires IsBoard(board)
    modifies board, clock
    ensures s != Stop(Fault) ==> Snapshot(board) == old(Snapshot(board))
    ensures var child := MaxAfter(old(Snapshot(board)), oppMove, depth, c, alpha, beta, old(clock.polls), clock.answers);
            clock.polls == child.polls && s == MinNext(child.out, minValue, alpha, beta)
    decreases MinRank(depth), 1
  {
    var v := MinChild(board, oppMove, depth, c, alpha, beta, clock);
    if v.Fault? {
      s := Stop(Fault);
    } else {
      var currentValue := v.value;
      var m := minValue;
      if currentValue < m {
        m := currentValue;
      }
      if m <= alpha {
        s := Stop(Ok(m));
      } else {
        var b := beta;
        if m < b {
          b := m;
        }
        s := Next(m, b);
      }
    }
  }

  /** One turn of Min's loop over the replies ms: a reply that moves into
      check is skipped, any other is tried by MinStep. */
  method MinVisit(board: array2<Piece>, depth: int, c: Color, ms: seq<Move>, i: nat, minValue: int, alpha: int, beta: int,
                  clock: TurnClock, ghost g: Grid)
    returns (s: Step)
    requires IsBoard(board) && Snapshot(board) == g && i < |ms|
    modifies board, clock
    ensures s.Next? ==> Snapshot(board) == g
    ensures s.Next? ==> MinLoop(g, depth, c, Legal(g, ms[i..]), minValue, alpha, beta, old(clock.polls), clock.answers) ==
                        MinLoop(g, depth, c, Legal(g, ms[i + 1..]), s.value, alpha, s.bound, clock.polls, clock.answers)
    ensures s.Stop? && s.r.Ok? ==> Snapshot(board) == g
    ensures s.Stop? ==> Run(s.r, clock.polls) == MinLoop(g, depth, c, Legal(g, ms[i..]), minValue, alpha, beta, old(clock.polls), clock.answers)
    decreases MinRank(depth), 3
  {
    var into := MovesIntoCheck(board, ms[i]);
    LegalFrom(g, ms, i);
    if into {
      s := Next(minValue, beta);
    } else {
      s := MinStep(board, ms[i], depth, c, minValue, alpha, beta, clock, g, Legal(g, ms[i..]));
    }
  }

  method Min(board: array2<Piece>, depth: int, c: Color, alpha: int, beta: int, clock: TurnClock)
    returns (r: Outcome<int>)
    requires IsBoard(board)
    modifies board, clock
    ensures r.Ok? ==> Snapshot(board) == old(Snapshot(board))
    ensures Run(r, clock.polls) == MinSpec(old(Snapshot(board)), depth, c, alpha, beta, old(clock.polls), clock.answers)
    decreases MinRank(depth), 5
  {
    var over := clock.IsMyTurnOver();
    if over {
      r := Leaf(board, c);
      return;
    }
    var oppColor := if c == White then Black else White;
    var ok := CanGenerate(board, oppColor);
    if !ok {
      return Fault;
    }
    var oppMoves := GetAllMoves(board, oppColor);
    r := MinOverReplies(board, depth, c, oppMoves, alpha, beta, clock, Snapshot(board));
  }

  /** The loop of Min over the other side's replies, from Infinity. */
  method MinOverReplies(board: array2<Piece>, depth: int, c: Color, oppMoves: seq<Move>, alpha: int, beta: int,
                        clock: TurnClock, ghost g: Grid)
    returns (r: Outcome<int>)
    requires IsBoard(board) && Snapshot(board) == g
    modifies board, clock
    ensures r.Ok? ==> Snapshot(board) == g
    ensures Run(r, clock.polls) == MinLoop(g, depth, c, Legal(g, oppMoves), Infinity, alpha, beta, old(clock.polls), clock.answers)
    decreases MinRank(depth), 4
  {
    var minValue := Infinity;
    var b := beta;
    var i := 0;
    assert oppMoves[0..] == oppMoves;
    while i < |oppMoves|
      invariant 0 <= i <= |oppMoves| && Snapshot(board) == g
      invariant MinLoop(g, depth, c, Legal(g, oppMoves[i..]), minValue, alpha, b, clock.polls, clock.answers) ==
                MinLoop(g, depth, c, Legal(g, oppMoves), Infinity, alpha, beta, old(clock.polls), clock.answers)
    {
      var step := MinVisit(board, depth, c, oppMoves, i, minValue, alpha, b, clock, g);
      if step.Stop? {
        return step.r;
      }
      minValue, b := step.value, step.bound;
      i := i + 1;
    }
    return Ok(minValue);
  }

  /** What one turn of MiniMax's loop leaves: the move objects, the best
      move and alpha, or the result to return now. */
  datatype RootTurn = Advance(moves: seq<Move>, best: nat, alpha: int) | Done(r: Outcome<Pick>)

  /** The body of MiniMax's loop for refs[i]: poll, skip the best move's
      twin, evaluate the move with Min on a copy of the board, write the
      value into the move object and keep it when it beats alpha. */
  method RootStep(board: array2<Piece>, depth: int, c: Color, moves: seq<Move>, refs: seq<nat>, i: nat,
                  best: nat, alpha: int, clock: TurnClock, ghost g: Grid)
    returns (s: RootTurn)
    requires IsBoard(board) && Snapshot(board) == g
    requires Refs(moves, refs) && i < |refs| && best < |moves|
    modifies clock
    ensures s.Advance? ==> s.best < |s.moves| && Refs(s.moves, refs)
    ensures s.Advance? ==> RootLoop(g, depth, c, moves, refs, i, best, alpha, old(clock.polls), clock.answers) ==
                           RootLoop(g, depth, c, s.moves, refs, i + 1, s.best, s.alpha, clock.polls, clock.answers)
    ensures s.Done? ==> Run(s.r, clock.polls) == RootLoop(g, depth, c, moves, refs, i, best, alpha, old(clock.polls), clock.answers)
  {
    var over := clock.IsMyTurnOver();
    if over {
      return Done(Ok(Pick(best, moves)));
    }
    var move := moves[refs[i]];
    if move.from == moves[best].from && move.to == moves[best].to {
      return Advance(moves, best, alpha);
    }
    s := RootTry(board, depth, c, moves, refs, i, best, alpha, clock, g);
  }

  method RootTry(board: array2<Piece>, depth: int, c: Color, moves: seq<Move>, refs: seq<nat>, i: nat,
                 best: nat, alpha: int, clock: TurnClock, ghost g: Grid)
    returns (s: RootTurn)
    requires IsBoard(board) && Snapshot(board) == g
    requires Refs(moves, refs) && i < |refs| && best < |moves|
    requires !SameSquares(moves[refs[i]], moves[best])
    requires clock.polls > 0 && !Over(clock.answers, clock.polls - 1)
    modifies clock
    ensures s.Advance? ==> s.best < |s.moves| && Refs(s.moves, refs)
    ensures s.Advance? ==> RootLoop(g, depth, c, moves, refs, i, best, alpha, old(clock.polls) - 1, clock.answers) ==
                           RootLoop(g, depth, c, s.moves, refs, i + 1, s.best, s.alpha, clock.polls, clock.answers)
    ensures s.Done? ==> Run(s.r, clock.polls) == RootLoop(g, depth, c, moves, refs, i, best, alpha, old(clock.polls) - 1, clock.answers)
  {
    var move := moves[refs[i]];
    var boardAfterMove := Clone(board);
    MakeMove(boardAfterMove, move);
    var v := Min(boardAfterMove, depth, c, alpha, Infinity, clock);
    RootLoopStep(g, depth, c, moves, refs, i, best, alpha, old(clock.polls) - 1, clock.answers, Run(v, clock.polls));
    if v.Fault? {
      return Done(Fault);
    }
    var currentValue := v.value;
    var moves' := WithValue(moves, refs[i], currentValue);
    if currentValue > alpha {
      return Advance(moves', refs[i], currentValue);
    }
    return Advance(moves', best, alpha);
  }

  /** MiniMax: evaluate the first move on a copy of the board, then every
      other move of the list, writing each value into its move object and
      keeping the best. The board itself is only read. */
  method MiniMax(depth: int, board: array2<Piece>, c: Color, objs: seq<Move>, refs: seq<nat>, pick: nat,
                 clock: TurnClock) returns (r: Outcome<Pick>)
    requires IsBoard(board) && |refs| > 0 && Refs(objs, refs)
    modifies clock
    ensures Run(r, clock.polls) == MiniMaxSpec(Snapshot(board), depth, c, objs, refs, pick, old(clock.polls), clock.answers)
  {
    ghost var g := Snapshot(board);
    var alpha := -Infinity;
    var beta := Infinity;
    var best: nat := refs[FirstIndex(depth, pick, |refs|)];
    var boardAfterMove := Clone(board);
    MakeMove(boardAfterMove, objs[best]);
    var v := Min(boardAfterMove, depth, c, alpha, beta, clock);
    if v.Fault? {
      return Fault;
    }
    alpha := v.value;
    var moves := WithValue(objs, best, alpha);
    var i: nat := 0;
    while i < |refs|
      invariant 0 <= i <= |refs| && best < |moves| && Refs(moves, refs)
      invariant Snapshot(board) == g
      invariant RootLoop(g, depth, c, moves, refs, i, best, alpha, clock.polls, clock.answers) ==
                MiniMaxSpec(g, depth, c, objs, refs, pick, old(clock.polls), clock.answers)
    {
      var step := RootStep(board, depth, c, moves, refs, i, best, alpha, clock, g);
      if step.Done? {
        return step.r;
      }
      moves, best, alpha := step.moves, step.best, step.alpha;
      i := i + 1;
    }
    return Ok(Pick(best, moves));
  }
}
