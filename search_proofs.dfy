/** What the alpha-beta search computes. Plain minimax over the same legal
    moves, with the same horizon rule and the same leaf score, is the
    reference; when no clock poll says the turn is over, Max and Min return
    a fail-soft bound of the plain value and MiniMax returns a move whose
    plain value is the best in its list. */
module SearchProofs {
  import opened Board
  import opened MoveGen
  import opened Eval
  import opened Search

  function Larger(a: int, b: int): int { if a > b then a else b }

  function Smaller(a: int, b: int): int { if a < b then a else b }

  // ---------------------------------------------------------------------
  // Plain minimax.

  /** The value of the position g for the engine's side c with the engine
      to move, looking depth plies ahead: CalcPieceCost at the horizon, the
      largest value of a legal move otherwise (-Infinity when there is
      none), and Fault where the move generator would raise. */
  function PlainMax(g: Grid, depth: int, c: Color): (r: Outcome<int>)
    ensures r.Ok? ==> -Infinity <= r.value <= Infinity
    decreases MaxRank(depth), 2, 0
  {
    if depth <= 0 then Evaluate(g, c)
    else if !Generable(g, c) then Fault
    else MaxOverLegal(g, depth, c)
  }

  /** The largest value of a legal move of side c. */
  function MaxOverLegal(g: Grid, depth: int, c: Color): (r: Outcome<int>)
    requires depth > 0 && Generable(g, c)
    ensures r.Ok? ==> -Infinity <= r.value <= Infinity
    decreases MaxRank(depth), 1, 0
  {
    MaxOver(g, depth, c, Legal(g, AllMoves(g, c)))
  }

  function MaxOver(g: Grid, depth: int, c: Color, ls: seq<Move>): (r: Outcome<int>)
    requires depth > 0
    ensures r.Ok? ==> -Infinity <= r.value <= Infinity
    decreases MaxRank(depth), 0, |ls|
  {
    if |ls| == 0 then Ok(-Infinity)
    else match PlainMin(Apply(g, ls[0]), depth, c)
      case Fault => Fault
      case Ok(v) =>
        match MaxOver(g, depth, c, ls[1..])
        case Fault => Fault
        case Ok(w) => Ok(Larger(v, w))
  }

  /** The value of the position g for the engine's side c with the other
      side to move: the smallest value of a legal reply (Infinity when
      there is none), a quiet reply looking two plies less far ahead. */
  function PlainMin(g: Grid, depth: int, c: Color): (r: Outcome<int>)
    ensures r.Ok? ==> -Infinity <= r.value <= Infinity
    decreases MinRank(depth), 2, 0
  {
    if !Generable(g, Opponent(c)) then Fault
    else MinOverLegal(g, depth, c)
  }

  /** The smallest value of a legal reply of the other side. */
  function MinOverLegal(g: Grid, depth: int, c: Color): (r: Outcome<int>)
    requires Generable(g, Opponent(c))
    ensures r.Ok? ==> -Infinity <= r.value <= Infinity
    decreases MinRank(depth), 1, 0
  {
    MinOver(g, depth, c, Legal(g, AllMoves(g, Opponent(c))))
  }

  function MinOver(g: Grid, depth: int, c: Color, ls: seq<Move>): (r: Outcome<int>)
    ensures r.Ok? ==> -Infinity <= r.value <= Infinity
    decreases MinRank(depth), 0, |ls|
  {
    if |ls| == 0 then Ok(Infinity)
    else match PlainMax(Apply(g, ls[0]), ReplyDepth(g, ls[0], depth), c)
      case Fault => Fault
      case Ok(v) =>
        match MinOver(g, depth, c, ls[1..])
        case Fault => Fault
        case Ok(w) => Ok(Smaller(v, w))
  }

  // ---------------------------------------------------------------------
  // Fail-soft alpha-beta.

  /** No poll from number p up to q says the turn is over. */
  predicate Quiet(o: seq<bool>, p: nat, q: nat) {
    forall i: nat :: p <= i < q ==> !Over(o, i)
  }

  /** A poll inside a quiet stretch says go on. */
  lemma QuietAt(o: seq<bool>, p: nat, q: nat)
    requires p < q && Quiet(o, p, q)
    ensures !Over(o, p)
  {
  }

  /** A stretch inside a quiet stretch is quiet. */
  lemma QuietWithin(o: seq<bool>, p: nat, q: nat, p2: nat, q2: nat)
    requires Quiet(o, p, q) && p <= p2 && q2 <= q
    ensures Quiet(o, p2, q2)
  {
  }

  /** Unfolding one move of the plain maximum. */
  lemma MaxOverFirst(g: Grid, depth: int, c: Color, ls: seq<Move>)
    requires depth > 0 && |ls| > 0 && MaxOver(g, depth, c, ls).Ok?
    ensures PlainMin(Apply(g, ls[0]), depth, c).Ok? && MaxOver(g, depth, c, ls[1..]).Ok?
    ensures MaxOver(g, depth, c, ls).value ==
            Larger(PlainMin(Apply(g, ls[0]), depth, c).value, MaxOver(g, depth, c, ls[1..]).value)
  {
  }

  /** Unfolding one reply of the plain minimum. */
  lemma MinOverFirst(g: Grid, depth: int, c: Color, ls: seq<Move>)
    requires |ls| > 0 && MinOver(g, depth, c, ls).Ok?
    ensures PlainMax(Apply(g, ls[0]), ReplyDepth(g, ls[0], depth), c).Ok? && MinOver(g, depth, c, ls[1..]).Ok?
    ensures MinOver(g, depth, c, ls).value ==
            Smaller(PlainMax(Apply(g, ls[0]), ReplyDepth(g, ls[0], depth), c).value, MinOver(g, depth, c, ls[1..]).value)
  {
  }

  /** v is a fail-soft result of a search with window (alpha, beta) whose
      exact value is m: an upper bound of m at or below alpha, a lower
      bound at or above beta, and m itself in between. */
  predicate FailSoft(v: int, m: int, alpha: int, beta: int) {
    (v <= alpha ==> m <= v) && (v >= beta ==> m >= v) && (alpha < v < beta ==> m == v)
  }

  lemma {:induction false} MaxFailSoft(g: Grid, depth: int, c: Color, alpha: int, beta: int, p: nat, o: seq<bool>)
    requires -Infinity <= alpha && beta <= Infinity
    requires PlainMax(g, depth, c).Ok?
    requires Quiet(o, p, MaxSpec(g, depth, c, alpha, beta, p, o).polls)
    ensures MaxSpec(g, depth, c, alpha, beta, p, o).out.Ok?
    ensures -Infinity <= MaxSpec(g, depth, c, alpha, beta, p, o).out.value <= Infinity
    ensures alpha < beta ==> FailSoft(MaxSpec(g, depth, c, alpha, beta, p, o).out.value, PlainMax(g, depth, c).value, alpha, beta)
    decreases MaxRank(depth), 3, 0
  {
    if depth > 0 {
      PlainMaxMoves(g, depth, c);
      MaxSpecGoesOn(g, depth, c, alpha, beta, p, o);
      MaxMovesFailSoft(g, depth, c, alpha, beta, p + 1, o);
    }
  }

  /** Short of the horizon, a plain value is the one over the legal moves. */
  lemma PlainMaxMoves(g: Grid, depth: int, c: Color)
    requires depth > 0 && PlainMax(g, depth, c).Ok?
    ensures Generable(g, c) && PlainMax(g, depth, c) == MaxOverLegal(g, depth, c)
  {
  }

  /** Short of the horizon, a Max whose polls are quiet goes on to its
      moves after its first poll. */
  lemma MaxSpecGoesOn(g: Grid, depth: int, c: Color, alpha: int, beta: int, p: nat, o: seq<bool>)
    requires depth > 0 && Quiet(o, p, MaxSpec(g, depth, c, alpha, beta, p, o).polls)
    ensures MaxSpec(g, depth, c, alpha, beta, p, o) == MaxMoves(g, depth, c, alpha, beta, p + 1, o)
    ensures Quiet(o, p + 1, MaxMoves(g, depth, c, alpha, beta, p + 1, o).polls)
  {
    var q := MaxSpec(g, depth, c, alpha, beta, p, o).polls;
    assert q >= p + 1;
    QuietAt(o, p, q);
    QuietWithin(o, p, q, p + 1, q);
  }

  /** Max on a position whose moves can be generated is its loop over
      the legal ones, from -Infinity; so is the plain value. */
  lemma MaxMovesLoop(g: Grid, depth: int, c: Color, alpha: int, beta: int, p: nat, o: seq<bool>)
    requires depth > 0 && Generable(g, c)
    ensures MaxMoves(g, depth, c, alpha, beta, p, o) ==
            MaxLoop(g, depth, c, Legal(g, AllMoves(g, c)), -Infinity, alpha, beta, p, o)
    ensures MaxOverLegal(g, depth, c) == MaxOver(g, depth, c, Legal(g, AllMoves(g, c)))
  {
  }

  lemma {:induction false} MaxMovesFailSoft(g: Grid, depth: int, c: Color, alpha: int, beta: int, p: nat, o: seq<bool>)
    requires depth > 0 && Generable(g, c)
    requires -Infinity <= alpha && beta <= Infinity
    requires MaxOverLegal(g, depth, c).Ok?
    requires Quiet(o, p, MaxMoves(g, depth, c, alpha, beta, p, o).polls)
    ensures MaxMoves(g, depth, c, alpha, beta, p, o).out.Ok?
    ensures -Infinity <= MaxMoves(g, depth, c, alpha, beta, p, o).out.value <= Infinity
    ensures alpha < beta ==>
              FailSoft(MaxMoves(g, depth, c, alpha, beta, p, o).out.value, MaxOverLegal(g, depth, c).value, alpha, beta)
    decreases MaxRank(depth), 2, 0
  {
    var ls := Legal(g, AllMoves(g, c));
    MaxMovesLoop(g, depth, c, alpha, beta, p, o);
    MaxLoopFailSoft(g, depth, c, ls, -Infinity, alpha, beta, p, o);
    assert Larger(-Infinity, MaxOver(g, depth, c, ls).value) == MaxOver(g, depth, c, ls).value;
  }

  /** The loop of Max from maxValue, with the running alpha at or above
      maxValue: its result is at least maxValue and a fail-soft bound of
      the larger of maxValue and the plain value of the moves left. */
  lemma {:induction false} MaxLoopFailSoft(g: Grid, depth: int, c: Color, ls: seq<Move>, maxValue: int,
                                           alpha: int, beta: int, p: nat, o: seq<bool>)
    requires depth > 0
    requires -Infinity <= maxValue <= alpha && maxValue <= Infinity && beta <= Infinity
    requires MaxOver(g, depth, c, ls).Ok?
    requires Quiet(o, p, MaxLoop(g, depth, c, ls, maxValue, alpha, beta, p, o).polls)
    ensures var r := MaxLoop(g, depth, c, ls, maxValue, alpha, beta, p, o);
            r.out.Ok? && maxValue <= r.out.value <= Infinity &&
            (alpha < beta ==> FailSoft(r.out.value, Larger(maxValue, MaxOver(g, depth, c, ls).value), alpha, beta))
    decreases MaxRank(depth), 1, |ls|
  {
    if |ls| > 0 {
      MaxLoopFirst(g, depth, c, ls, maxValue, alpha, beta, p, o);
      var child := MinSpec(Apply(g, ls[0]), depth, c, alpha, beta, p + 1, o);
      MaxLoopStep(g, depth, c, ls, maxValue, alpha, beta, p, o, child);
      var v1 := child.out.value;
      var m1 := PlainMin(Apply(g, ls[0]), depth, c).value;
      var rest := MaxOver(g, depth, c, ls[1..]);
      var m := Larger(v1, maxValue);
      if m < beta {
        MaxLoopFailSoft(g, depth, c, ls[1..], m, Larger(m, alpha), beta, child.polls, o);
      }
      var v := MaxLoop(g, depth, c, ls, maxValue, alpha, beta, p, o).out.value;
      if alpha < beta {
        MaxTurn(maxValue, alpha, beta, v1, m1, v, rest.value);
      }
    }
  }

  /** The first turn of Max's loop: the poll says go on, and Min on the
      first move gives a fail-soft value within the loop's polls. */
  lemma MaxLoopFirst(g: Grid, depth: int, c: Color, ls: seq<Move>, maxValue: int,
                     alpha: int, beta: int, p: nat, o: seq<bool>)
    requires depth > 0 && |ls| > 0
    requires -Infinity <= maxValue <= alpha && maxValue <= Infinity && beta <= Infinity
    requires MaxOver(g, depth, c, ls).Ok?
    requires Quiet(o, p, MaxLoop(g, depth, c, ls, maxValue, alpha, beta, p, o).polls)
    ensures !Over(o, p)
    ensures var child := MinSpec(Apply(g, ls[0]), depth, c, alpha, beta, p + 1, o);
            child.out.Ok? && -Infinity <= child.out.value <= Infinity &&
            p < child.polls <= MaxLoop(g, depth, c, ls, maxValue, alpha, beta, p, o).polls &&
            (alpha < beta ==> FailSoft(child.out.value, PlainMin(Apply(g, ls[0]), depth, c).value, alpha, beta))
    ensures PlainMin(Apply(g, ls[0]), depth, c).Ok? && MaxOver(g, depth, c, ls[1..]).Ok?
    ensures MaxOver(g, depth, c, ls).value ==
            Larger(PlainMin(Apply(g, ls[0]), depth, c).value, MaxOver(g, depth, c, ls[1..]).value)
    decreases MaxRank(depth), 0, 0
  {
    var loop := MaxLoop(g, depth, c, ls, maxValue, alpha, beta, p, o);
    QuietAt(o, p, loop.polls);
    var child := MinSpec(Apply(g, ls[0]), depth, c, alpha, beta, p + 1, o);
    MaxLoopStep(g, depth, c, ls, maxValue, alpha, beta, p, o, child);
    assert child.polls <= loop.polls;
    QuietWithin(o, p, loop.polls, p + 1, child.polls);
    MaxOverFirst(g, depth, c, ls);
    MinFailSoft(Apply(g, ls[0]), depth, c, alpha, beta, p + 1, o);
  }

  /** The arithmetic of one turn of Max's loop: a fail-soft child value and
      a fail-soft rest give a fail-soft whole. */
  lemma MaxTurn(maxValue: int, alpha: int, beta: int, v1: int, m1: int, v: int, rest: int)
    requires maxValue <= alpha < beta
    requires FailSoft(v1, m1, alpha, beta)
    requires var m := Larger(v1, maxValue);
             if m >= beta then v == m
             else v >= m && FailSoft(v, Larger(m, rest), Larger(m, alpha), beta)
    ensures FailSoft(v, Larger(maxValue, Larger(m1, rest)), alpha, beta)
  {
  }

  lemma {:induction false} MinFailSoft(g: Grid, depth: int, c: Color, alpha: int, beta: int, p: nat, o: seq<bool>)
    requires -Infinity <= alpha && beta <= Infinity
    requires PlainMin(g, depth, c).Ok?
    requires Quiet(o, p, MinSpec(g, depth, c, alpha, beta, p, o).polls)
    ensures MinSpec(g, depth, c, alpha, beta, p, o).out.Ok?
    ensures -Infinity <= MinSpec(g, depth, c, alpha, beta, p, o).out.value <= Infinity
    ensures alpha < beta ==> FailSoft(MinSpec(g, depth, c, alpha, beta, p, o).out.value, PlainMin(g, depth, c).value, alpha, beta)
    decreases MinRank(depth), 3, 0
  {
    PlainMinMoves(g, depth, c);
    MinSpecGoesOn(g, depth, c, alpha, beta, p, o);
    MinMovesFailSoft(g, depth, c, alpha, beta, p + 1, o);
  }

  /** A plain value with the other side to move is the one over its legal
      replies. */
  lemma PlainMinMoves(g: Grid, depth: int, c: Color)
    requires PlainMin(g, depth, c).Ok?
    ensures Generable(g, Opponent(c)) && PlainMin(g, depth, c) == MinOverLegal(g, depth, c)
  {
  }

  /** A Min whose polls are quiet goes on to the replies after its first
      poll. */
  lemma MinSpecGoesOn(g: Grid, depth: int, c: Color, alpha: int, beta: int, p: nat, o: seq<bool>)
    requires Quiet(o, p, MinSpec(g, depth, c, alpha, beta, p, o).polls)
    ensures MinSpec(g, depth, c, alpha, beta, p, o) == MinMoves(g, depth, c, alpha, beta, p + 1, o)
    ensures Quiet(o, p + 1, MinMoves(g, depth, c, alpha, beta, p + 1, o).polls)
  {
    var q := MinSpec(g, depth, c, alpha, beta, p, o).polls;
    assert q >= p + 1;
    QuietAt(o, p, q);
    QuietWithin(o, p, q, p + 1, q);
  }

  /** Min on a position whose replies can be generated is its loop over
      the legal ones, from Infinity; so is the plain value. */
  lemma MinMovesLoop(g: Grid, depth: int, c: Color, alpha: int, beta: int, p: nat, o: seq<bool>)
    requires Generable(g, Opponent(c))
    ensures MinMoves(g, depth, c, alpha, beta, p, o) ==
            MinLoop(g, depth, c, Legal(g, AllMoves(g, Opponent(c))), Infinity, alpha, beta, p, o)
    ensures MinOverLegal(g, depth, c) == MinOver(g, depth, c, Legal(g, AllMoves(g, Opponent(c))))
  {
  }

  lemma {:induction false} MinMovesFailSoft(g: Grid, depth: int, c: Color, alpha: int, beta: int, p: nat, o: seq<bool>)
    requires Generable(g, Opponent(c))
    requires -Infinity <= alpha && beta <= Infinity
    requires MinOverLegal(g, depth, c).Ok?
    requires Quiet(o, p, MinMoves(g, depth, c, alpha, beta, p, o).polls)
    ensures MinMoves(g, depth, c, alpha, beta, p, o).out.Ok?
    ensures -Infinity <= MinMoves(g, depth, c, alpha, beta, p, o).out.value <= Infinity
    ensures alpha < beta ==>
              FailSoft(MinMoves(g, depth, c, alpha, beta, p, o).out.value, MinOverLegal(g, depth, c).value, alpha, beta)
    decreases MinRank(depth), 2, 0
  {
    var ls := Legal(g, AllMoves(g, Opponent(c)));
    MinMovesLoop(g, depth, c, alpha, beta, p, o);
    MinLoopFailSoft(g, depth, c, ls, Infinity, alpha, beta, p, o);
    assert Smaller(Infinity, MinOver(g, depth, c, ls).value) == MinOver(g, depth, c, ls).value;
  }

  /** The loop of Min from minValue, with the running beta at or below
      minValue: its result is at most minValue and a fail-soft bound of
      the smaller of minValue and the plain value of the replies left. */
  lemma {:induction false} MinLoopFailSoft(g: Grid, depth: int, c: Color, ls: seq<Move>, minValue: int,
                                           alpha: int, beta: int, p: nat, o: seq<bool>)
    requires -Infinity <= alpha && -Infinity <= minValue && beta <= minValue <= Infinity
    requires MinOver(g, depth, c, ls).Ok?
    requires Quiet(o, p, MinLoop(g, depth, c, ls, minValue, alpha, beta, p, o).polls)
    ensures var r := MinLoop(g, depth, c, ls, minValue, alpha, beta, p, o);
            r.out.Ok? && -Infinity <= r.out.value <= minValue &&
            (alpha < beta ==> FailSoft(r.out.value, Smaller(minValue, MinOver(g, depth, c, ls).value), alpha, beta))
    decreases MinRank(depth), 1, |ls|
  {
    if |ls| > 0 {
      MinLoopFirst(g, depth, c, ls, minValue, alpha, beta, p, o);
      var child := MaxSpec(Apply(g, ls[0]), ReplyDepth(g, ls[0], depth), c, alpha, beta, p + 1, o);
      MinLoopStep(g, depth, c, ls, minValue, alpha, beta, p, o, child);
      var v1 := child.out.value;
      var m1 := PlainMax(Apply(g, ls[0]), ReplyDepth(g, ls[0], depth), c).value;
      var rest := MinOver(g, depth, c, ls[1..]);
      var m := Smaller(v1, minValue);
      if m > alpha {
        MinLoopFailSoft(g, depth, c, ls[1..], m, alpha, Smaller(m, beta), child.polls, o);
      }
      var v := MinLoop(g, depth, c, ls, minValue, alpha, beta, p, o).out.value;
      if alpha < beta {
        MinTurn(minValue, alpha, beta, v1, m1, v, rest.value);
      }
    }
  }

  /** The first turn of Min's loop: the poll says go on, and Max on the
      first reply gives a fail-soft value within the loop's polls. */
  lemma MinLoopFirst(g: Grid, depth: int, c: Color, ls: seq<Move>, minValue: int,
                     alpha: int, beta: int, p: nat, o: seq<bool>)
    requires |ls| > 0
    requires -Infinity <= alpha && -Infinity <= minValue && beta <= minValue <= Infinity
    requires MinOver(g, depth, c, ls).Ok?
    requires Quiet(o, p, MinLoop(g, depth, c, ls, minValue, alpha, beta, p, o).polls)
    ensures !Over(o, p)
    ensures var child := MaxSpec(Apply(g, ls[0]), ReplyDepth(g, ls[0], depth), c, alpha, beta, p + 1, o);
            child.out.Ok? && -Infinity <= child.out.value <= Infinity &&
            p < child.polls <= MinLoop(g, depth, c, ls, minValue, alpha, beta, p, o).polls &&
            (alpha < beta ==>
               FailSoft(child.out.value, PlainMax(Apply(g, ls[0]), ReplyDepth(g, ls[0], depth), c).value, alpha, beta))
    ensures PlainMax(Apply(g, ls[0]), ReplyDepth(g, ls[0], depth), c).Ok? && MinOver(g, depth, c, ls[1..]).Ok?
    ensures MinOver(g, depth, c, ls).value ==
            Smaller(PlainMax(Apply(g, ls[0]), ReplyDepth(g, ls[0], depth), c).value, MinOver(g, depth, c, ls[1..]).value)
    decreases MinRank(depth), 0, 0
  {
    var loop := MinLoop(g, depth, c, ls, minValue, alpha, beta, p, o);
    QuietAt(o, p, loop.polls);
    var child := MaxSpec(Apply(g, ls[0]), ReplyDepth(g, ls[0], depth), c, alpha, beta, p + 1, o);
    MinLoopStep(g, depth, c, ls, minValue, alpha, beta, p, o, child);
    assert child.polls <= loop.polls;
    QuietWithin(o, p, loop.polls, p + 1, child.polls);
    MinOverFirst(g, depth, c, ls);
    MaxFailSoft(Apply(g, ls[0]), ReplyDepth(g, ls[0], depth), c, alpha, beta, p + 1, o);
  }

  /** The arithmetic of one turn of Min's loop. */
  lemma MinTurn(minValue: int, alpha: int, beta: int, v1: int, m1: int, v: int, rest: int)
    requires alpha < beta <= minValue
    requires FailSoft(v1, m1, alpha, beta)
    requires var m := Smaller(v1, minValue);
             if m <= alpha then v == m
             else v <= m && FailSoft(v, Smaller(m, rest), alpha, Smaller(m, beta))
    ensures FailSoft(v, Smaller(minValue, Smaller(m1, rest)), alpha, beta)
  {
  }

  // ---------------------------------------------------------------------
  // The values Max and Min give without searching.

  /** Max gives what CalcPieceCost gives at the horizon, and when its first
      poll says the turn is over. */
  lemma MaxStopsEarly(g: Grid, depth: int, c: Color, alpha: int, beta: int, p: nat, o: seq<bool>)
    requires depth <= 0 || Over(o, p)
    ensures MaxSpec(g, depth, c, alpha, beta, p, o).out == Evaluate(g, c)
  {
  }

  /** Once the poll says go on, Max with no legal move gives -Infinity. */
  lemma MaxNoLegalMove(g: Grid, depth: int, c: Color, alpha: int, beta: int, p: nat, o: seq<bool>)
    requires depth > 0 && !Over(o, p) && Generable(g, c) && Legal(g, AllMoves(g, c)) == []
    ensures MaxSpec(g, depth, c, alpha, beta, p, o).out == Ok(-Infinity)
  {
    assert MaxSpec(g, depth, c, alpha, beta, p, o) == MaxMoves(g, depth, c, alpha, beta, p + 1, o);
    MaxMovesLoop(g, depth, c, alpha, beta, p + 1, o);
  }

  /** Once the poll says go on, Min with no legal reply gives Infinity. */
  lemma MinNoLegalReply(g: Grid, depth: int, c: Color, alpha: int, beta: int, p: nat, o: seq<bool>)
    requires !Over(o, p) && Generable(g, Opponent(c)) && Legal(g, AllMoves(g, Opponent(c))) == []
    ensures MinSpec(g, depth, c, alpha, beta, p, o).out == Ok(Infinity)
  {
    MinMovesLoop(g, depth, c, alpha, beta, p + 1, o);
  }
}
