/** What MiniMax picks. The root moves are move objects whose values the
    search writes; under a clock that never says the turn is over, MiniMax
    returns one of the listed moves, its plain minimax value is the largest
    in the list, and that value is the one written into it. */
module RootProofs {
  import opened Board
  import opened Eval
  import opened Search
  import opened SearchProofs

  /** The plain value of playing root move m. */
  function RootValue(g: Grid, depth: int, c: Color, m: Move): (r: Outcome<int>)
    ensures r.Ok? ==> -Infinity <= r.value <= Infinity
  {
    PlainMin(Apply(g, m), depth, c)
  }

  /** a is b with only the values of the moves rewritten. */
  predicate Retagged(a: seq<Move>, b: seq<Move>) {
    |a| == |b| && forall k :: 0 <= k < |a| ==> SameSquares(a[k], b[k]) && a[k].flag == b[k].flag
  }

  /** Every listed move has a plain value. */
  predicate Valued(g: Grid, depth: int, c: Color, objs: seq<Move>, refs: seq<nat>)
    requires Refs(objs, refs)
  {
    forall j :: 0 <= j < |refs| ==> RootValue(g, depth, c, objs[refs[j]]).Ok?
  }

  /** The move is the best of the list: its value is at least every listed
      move's value. */
  predicate Best(g: Grid, depth: int, c: Color, objs: seq<Move>, refs: seq<nat>, best: nat)
    requires Refs(objs, refs) && Valued(g, depth, c, objs, refs) && best < |objs|
    requires RootValue(g, depth, c, objs[best]).Ok?
  {
    forall j :: 0 <= j < |refs| ==>
      RootValue(g, depth, c, objs[refs[j]]).value <= RootValue(g, depth, c, objs[best]).value
  }

  /** A move's effect on the board depends on its squares only. */
  lemma SameSquaresApply(g: Grid, a: Move, b: Move)
    requires SameSquares(a, b)
    ensures Apply(g, a) == Apply(g, b)
  {
  }

  /** Rewriting a move's value keeps the list's moves. */
  lemma RetaggedWithValue(objs: seq<Move>, objs0: seq<Move>, id: nat, v: int)
    requires Retagged(objs, objs0) && id < |objs|
    ensures Retagged(WithValue(objs, id, v), objs0)
  {
  }

  /** What the loop of MiniMax keeps: objs are the moves of objs0, best is
      a listed move whose exact value alpha is written into it, and no move
      before refs[i] is worth more. */
  predicate Kept(g: Grid, depth: int, c: Color, objs0: seq<Move>, objs: seq<Move>,
                 refs: seq<nat>, i: nat, best: nat, alpha: int)
  {
    Refs(objs0, refs) && Retagged(objs, objs0) && i <= |refs| && best < |objs0| &&
    Valued(g, depth, c, objs0, refs) &&
    best in refs && RootValue(g, depth, c, objs0[best]) == Ok(alpha) && objs[best].value == alpha &&
    forall j :: 0 <= j < i ==> RootValue(g, depth, c, objs0[refs[j]]).value <= alpha
  }

  /** What MiniMax promises of its pick under a quiet clock. */
  predicate Picked(g: Grid, depth: int, c: Color, objs0: seq<Move>, refs: seq<nat>, r: Outcome<Pick>)
    requires Refs(objs0, refs) && Valued(g, depth, c, objs0, refs)
  {
    r.Ok? && r.value.best in refs && Retagged(r.value.objs, objs0) &&
    RootValue(g, depth, c, objs0[r.value.best]).Ok? &&
    Best(g, depth, c, objs0, refs, r.value.best) &&
    r.value.objs[r.value.best].value == RootValue(g, depth, c, objs0[r.value.best]).value
  }

  /** The loop of MiniMax from refs[i] on, with best the best of refs[..i]:
      under a quiet clock it ends with the best of all refs, its exact
      value written into it. */
  lemma {:induction false} RootLoopBest(g: Grid, depth: int, c: Color, objs0: seq<Move>, objs: seq<Move>,
                                        refs: seq<nat>, i: nat, best: nat, alpha: int, p: nat, o: seq<bool>)
    requires Kept(g, depth, c, objs0, objs, refs, i, best, alpha)
    requires Quiet(o, p, RootLoop(g, depth, c, objs, refs, i, best, alpha, p, o).polls)
    ensures Picked(g, depth, c, objs0, refs, RootLoop(g, depth, c, objs, refs, i, best, alpha, p, o).out)
    decreases |refs| - i, 2
  {
    if i < |refs| {
      QuietAt(o, p, RootLoop(g, depth, c, objs, refs, i, best, alpha, p, o).polls);
      if SameSquares(objs[refs[i]], objs[best]) {
        RootSkip(g, depth, c, objs0, objs, refs, i, best, alpha, p, o);
      } else {
        RootEval(g, depth, c, objs0, objs, refs, i, best, alpha, p, o);
      }
    }
  }

  /** The turn that skips the best move's twin: its value is the best's. */
  lemma {:induction false} RootSkip(g: Grid, depth: int, c: Color, objs0: seq<Move>, objs: seq<Move>,
                                    refs: seq<nat>, i: nat, best: nat, alpha: int, p: nat, o: seq<bool>)
    requires Kept(g, depth, c, objs0, objs, refs, i, best, alpha) && i < |refs| && !Over(o, p)
    requires SameSquares(objs[refs[i]], objs[best])
    requires Quiet(o, p, RootLoop(g, depth, c, objs, refs, i, best, alpha, p, o).polls)
    ensures Picked(g, depth, c, objs0, refs, RootLoop(g, depth, c, objs, refs, i, best, alpha, p, o).out)
    decreases |refs| - i, 1
  {
    var loop := RootLoop(g, depth, c, objs, refs, i, best, alpha, p, o);
    assert loop == RootLoop(g, depth, c, objs, refs, i + 1, best, alpha, p + 1, o);
    SameSquaresApply(g, objs0[refs[i]], objs0[best]);
    QuietWithin(o, p, loop.polls, p + 1, loop.polls);
    RootLoopBest(g, depth, c, objs0, objs, refs, i + 1, best, alpha, p + 1, o);
  }

  /** The turn that evaluates refs[i] with Min: a value above alpha is the
      move's exact value and makes it the best. */
  lemma {:induction false} RootEval(g: Grid, depth: int, c: Color, objs0: seq<Move>, objs: seq<Move>,
                                    refs: seq<nat>, i: nat, best: nat, alpha: int, p: nat, o: seq<bool>)
    requires Kept(g, depth, c, objs0, objs, refs, i, best, alpha) && i < |refs| && !Over(o, p)
    requires !SameSquares(objs[refs[i]], objs[best])
    requires Quiet(o, p, RootLoop(g, depth, c, objs, refs, i, best, alpha, p, o).polls)
    ensures Picked(g, depth, c, objs0, refs, RootLoop(g, depth, c, objs, refs, i, best, alpha, p, o).out)
    decreases |refs| - i, 1
  {
    var child := MinSpec(Apply(g, objs[refs[i]]), depth, c, alpha, Infinity, p + 1, o);
    RootChild(g, depth, c, objs0, objs, refs, i, best, alpha, p, o);
    RootLoopStep(g, depth, c, objs, refs, i, best, alpha, p, o, child);
    var v := child.out.value;
    RetaggedWithValue(objs, objs0, refs[i], v);
    if v > alpha {
      RootLoopBest(g, depth, c, objs0, WithValue(objs, refs[i], v), refs, i + 1, refs[i], v, child.polls, o);
    } else {
      RootLoopBest(g, depth, c, objs0, WithValue(objs, refs[i], v), refs, i + 1, best, alpha, child.polls, o);
    }
  }

  /** Min on the move refs[i], within the loop's quiet polls: it gives the
      move's exact value when that beats alpha, and a value at or below
      alpha when the move's value is at or below alpha. */
  lemma RootChild(g: Grid, depth: int, c: Color, objs0: seq<Move>, objs: seq<Move>,
                  refs: seq<nat>, i: nat, best: nat, alpha: int, p: nat, o: seq<bool>)
    requires Refs(objs0, refs) && Retagged(objs, objs0) && i < |refs| && best < |objs0|
    requires Valued(g, depth, c, objs0, refs)
    requires RootValue(g, depth, c, objs0[best]) == Ok(alpha)
    requires !SameSquares(objs[refs[i]], objs[best])
    requires Quiet(o, p, RootLoop(g, depth, c, objs, refs, i, best, alpha, p, o).polls)
    ensures !Over(o, p)
    ensures var child := MinSpec(Apply(g, objs[refs[i]]), depth, c, alpha, Infinity, p + 1, o);
            var m := RootValue(g, depth, c, objs0[refs[i]]).value;
            child.out.Ok? && p < child.polls &&
            Quiet(o, child.polls, RootLoop(g, depth, c, objs, refs, i, best, alpha, p, o).polls) &&
            (child.out.value > alpha ==> m == child.out.value) &&
            (child.out.value <= alpha ==> m <= alpha)
  {
    var loop := RootLoop(g, depth, c, objs, refs, i, best, alpha, p, o);
    QuietAt(o, p, loop.polls);
    var child := MinSpec(Apply(g, objs[refs[i]]), depth, c, alpha, Infinity, p + 1, o);
    RootLoopStep(g, depth, c, objs, refs, i, best, alpha, p, o, child);
    assert child.polls <= loop.polls;
    QuietWithin(o, p, loop.polls, p + 1, child.polls);
    QuietWithin(o, p, loop.polls, child.polls, loop.polls);
    SameSquaresApply(g, objs[refs[i]], objs0[refs[i]]);
    assert RootValue(g, depth, c, objs0[refs[i]]).Ok?;
    MinFailSoft(Apply(g, objs[refs[i]]), depth, c, alpha, Infinity, p + 1, o);
  }

  /** MiniMax under a quiet clock, when every listed move has a plain
      value: it returns one of the listed moves, the best of them, with
      its exact value written into it, and changes no move but its value. */
  lemma MiniMaxBest(g: Grid, depth: int, c: Color, objs: seq<Move>, refs: seq<nat>, pick: nat,
                    p: nat, o: seq<bool>)
    requires |refs| > 0 && Refs(objs, refs) && Valued(g, depth, c, objs, refs)
    requires Quiet(o, p, MiniMaxSpec(g, depth, c, objs, refs, pick, p, o).polls)
    ensures Picked(g, depth, c, objs, refs, MiniMaxSpec(g, depth, c, objs, refs, pick, p, o).out)
  {
    var best := refs[FirstIndex(depth, pick, |refs|)];
    var child := MinSpec(Apply(g, objs[best]), depth, c, -Infinity, Infinity, p, o);
    var whole := MiniMaxSpec(g, depth, c, objs, refs, pick, p, o);
    assert child.polls <= whole.polls;
    QuietWithin(o, p, whole.polls, p, child.polls);
    assert RootValue(g, depth, c, objs[best]).Ok?;
    MinFailSoft(Apply(g, objs[best]), depth, c, -Infinity, Infinity, p, o);
    var v := child.out.value;
    assert whole == RootLoop(g, depth, c, WithValue(objs, best, v), refs, 0, best, v, child.polls, o);
    QuietWithin(o, p, whole.polls, child.polls, whole.polls);
    RetaggedWithValue(objs, objs, best, v);
    RootLoopBest(g, depth, c, objs, WithValue(objs, best, v), refs, 0, best, v, child.polls, o);
  }

  /** The loop of MiniMax under any clock: what it picks is a listed move,
      and it rewrites only the values of the moves. */
  lemma {:induction false} RootLoopShape(g: Grid, depth: int, c: Color, objs0: seq<Move>, objs: seq<Move>,
                                         refs: seq<nat>, i: nat, best: nat, alpha: int, p: nat, o: seq<bool>)
    requires Refs(objs0, refs) && Retagged(objs, objs0) && i <= |refs| && best in refs
    ensures var r := RootLoop(g, depth, c, objs, refs, i, best, alpha, p, o).out;
            r.Ok? ==> r.value.best in refs && Retagged(r.value.objs, objs0)
    decreases |refs| - i
  {
    if i < |refs| && !Over(o, p) {
      if SameSquares(objs[refs[i]], objs[best]) {
        RootLoopShape(g, depth, c, objs0, objs, refs, i + 1, best, alpha, p + 1, o);
      } else {
        var child := MinSpec(Apply(g, objs[refs[i]]), depth, c, alpha, Infinity, p + 1, o);
        RootLoopStep(g, depth, c, objs, refs, i, best, alpha, p, o, child);
        if child.out.Ok? {
          var v := child.out.value;
          RetaggedWithValue(objs, objs0, refs[i], v);
          RootLoopShape(g, depth, c, objs0, WithValue(objs, refs[i], v), refs, i + 1,
                        if v > alpha then refs[i] else best, if v > alpha then v else alpha, child.polls, o);
        }
      }
    }
  }

  /** MiniMax under any clock: when it returns a pick, the pick is a listed
      move and the move objects differ from the given ones in their values
      only. */
  lemma MiniMaxShape(g: Grid, depth: int, c: Color, objs: seq<Move>, refs: seq<nat>, pick: nat,
                     p: nat, o: seq<bool>)
    requires |refs| > 0 && Refs(objs, refs)
    ensures var r := MiniMaxSpec(g, depth, c, objs, refs, pick, p, o).out;
            r.Ok? ==> r.value.best in refs && Retagged(r.value.objs, objs)
  {
    var best := refs[FirstIndex(depth, pick, |refs|)];
    var child := MinSpec(Apply(g, objs[best]), depth, c, -Infinity, Infinity, p, o);
    if child.out.Ok? {
      var v := child.out.value;
      RetaggedWithValue(objs, objs, best, v);
      RootLoopShape(g, depth, c, objs, WithValue(objs, best, v), refs, 0, best, v, child.polls, o);
    }
  }
}
