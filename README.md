# StudentAI chess engine, modelled in Dafny

This project models `StudentAI`, the engine of the UvsChess framework that plays one side of a chess game on an 8x8 board. The model covers the engine's move generation, check detection, evaluation, alpha-beta search, move flagging and move validation. It proves that the code computes what its comments and structure promise.

The board is an `array2<Piece>` indexed `[X, Y]`. X is the column and Y the row. White pawns start on row 6 and move towards row 0. Black pawns start on row 1 and move towards row 7. A piece code is `Empty` or a colour with a kind. The engine only compares codes with `Empty` (white above, black below) or with named constants, so no integer codes are needed.

Each imperative routine of the source is a `method` on the board array. It is proved equal to a `function` on the board's value (`Grid`, obtained by `Snapshot`). Lemmas then state what that function means.

- `Board`: piece codes, squares, moves, `isEnemy`, `validLocation`, and `MakeMove` as the relocate-and-clear step.
- `Rules`: the movement predicates `PawnToMove`, `KnightToMove`, `BishopToMove`, `RookToMove`, `KingToMove`.
- `Attack`: `KingInCheck` and its three scans. Each scan is proved equal to an independent definition of "attacked".
- `MoveGen` and `MoveGenProofs`: the five generators, `GetAllMoves` and `MovesIntoCheck`. The proofs show each generator yields exactly the moves its predicate accepts.
- `Eval`: `CalcPieceCost` as written, with its sign symmetry, its zero on an empty board and its enemy count. The black-pawn test at line 2056 is modelled as written, including the exception it raises for a black pawn on row 7. The corrected test is stated beside it (see Findings).
- `Search` and `SearchProofs`:
  - `Max`, `Min` and `MiniMax` with make/unmake on the shared board;
  - plain minimax as the reference;
  - the fail-soft alpha-beta bounds that hold while the clock does not interrupt.
- `RootProofs`: the move `MiniMax` picks, and the values it writes into the move objects.
- `Judge` and `JudgeProofs`: `SetFlags` and `IsValidMove`, and how the two agree.
- `Agent` and `AgentProofs`: the `StudentAI` object with `TurnCount` and the six-board history, and `GetNextMove` with its iterative deepening.

`IsMyTurnOver` is the framework's clock. It becomes a `TurnClock` object whose fixed sequence `answers` gives the answer to each poll. Every poll past the end of `answers` says the turn is over. `Random` at the root becomes a parameter `pick`. The source raises an exception where it indexes off the board or reads through a null reference. This happens for a pawn on its last row in `GetPawnMoves`, for a black pawn on row 7 in `CalcPieceCost`, and for a null `myNextMove` in the last log line of `GetNextMove`. The model gives those paths an explicit `Fault` outcome.

## Model

| member | source | states |
|---|---|---|
| Board.Opponent | uvschess/uvschess/StudentAI/StudentAI.cs:235 | the colour flip `Math.Abs(c - 1)` always yields the other colour |
| Board.IsEnemy | uvschess/uvschess/StudentAI/StudentAI.cs:1411-1422 | a piece is an enemy exactly when it belongs to the other colour (below Empty for White, above Empty for Black); Empty is never an enemy |
| Board.ValidLocation | uvschess/uvschess/StudentAI/StudentAI.cs:1973-1978 | true exactly when both coordinates lie in [0, 7] |
| Board.Apply | uvschess/uvschess/StudentAI/StudentAI.cs:1486 | after a move the From square is empty, the To square holds the moved piece, and every other square is unchanged |
| Board.RestoreAfterApply | uvschess/uvschess/StudentAI/StudentAI.cs:1478-1489 | writing back the two saved squares after a move gives exactly the board before the move |
| Board.MakeMove | uvschess/uvschess/StudentAI/StudentAI.cs:1486 | the board array after MakeMove is the board before with the move applied |
| Board.Put | uvschess/uvschess/StudentAI/StudentAI.cs:1488-1489 | an assignment to one square changes that square and no other |
| Board.Clone | uvschess/uvschess/StudentAI/StudentAI.cs:1444 | the clone is a fresh board with the same contents |
| Rules.KnightToMove | uvschess/uvschess/StudentAI/StudentAI.cs:407-425 | accepted exactly when one coordinate changes by 1 and the other by 2, and the target is empty or enemy-held |
| Rules.KingToMove | uvschess/uvschess/StudentAI/StudentAI.cs:566-581 | accepted exactly when each coordinate changes by at most 1 and the target is empty or enemy-held |
| Rules.PawnToMove | uvschess/uvschess/StudentAI/StudentAI.cs:338-399 | an accepted pawn move lands on an empty or enemy square; MoveGenProofs.PawnMovesExact shows GetPawnMoves yields exactly the moves it accepts |
| Rules.PawnToMoveAhead | uvschess/uvschess/StudentAI/StudentAI.cs:338-399 | an accepted pawn move goes ahead for its colour: straight by one, or by two, onto an empty square, or one square diagonally onto an enemy |
| Rules.BishopToMove | uvschess/uvschess/StudentAI/StudentAI.cs:433-497 | an accepted bishop move leaves its square along a diagonal and lands on an empty or enemy square; MoveGenProofs.BishopMovesExact shows GetBishopMoves yields exactly the moves it accepts |
| Rules.RookToMove | uvschess/uvschess/StudentAI/StudentAI.cs:505-556 | an accepted rook move stays on its row or column and lands on an empty or enemy square; MoveGenProofs.RookMovesExact shows GetRookMoves yields exactly the moves it accepts |
| Attack.FindFrom | uvschess/uvschess/StudentAI/StudentAI.cs:1541-1546 | returns the first square in row-major order (from index i on) that holds the piece, and None exactly when no such square exists |
| Attack.ScanFinds | uvschess/uvschess/StudentAI/StudentAI.cs:1780-1800 | a ray scan that reports check has found a square ahead with only empty squares before it whose piece attacks along the ray |
| Attack.ScanSees | uvschess/uvschess/StudentAI/StudentAI.cs:1780-1800 | conversely, such an attacking square makes the ray scan report check |
| Attack.ScanIsRayAttack | uvschess/uvschess/StudentAI/StudentAI.cs:1780-1800 | a ray scan reports check exactly when the first occupied square along the ray is an enemy slider of that ray's kind, an enemy queen, or an enemy king one step away |
| Attack.CheckDiagonal | uvschess/uvschess/StudentAI/StudentAI.cs:1592-1755 | the pawn-adjacency test, then the two interleaved diagonal loops; Attack.CheckDiagonalIsAttack states what it decides |
| Attack.CheckHorizontalAndVertical | uvschess/uvschess/StudentAI/StudentAI.cs:1763-1889 | the four rank and file rays; Attack.CheckHorizontalAndVerticalIsAttack states what it decides |
| Attack.CheckFromKnight | uvschess/uvschess/StudentAI/StudentAI.cs:1897-1967 | the eight knight probes in the source's order; Attack.CheckFromKnightIsKnightAttack states what it decides |
| Attack.KingInCheck | uvschess/uvschess/StudentAI/StudentAI.cs:1538-1564 | the first square holding the king in row-major order, then the three scans on it, and false when there is none; Attack.KingInCheckIsAttacked states what it decides |
| Attack.DiagonalPairIsTwoScans | uvschess/uvschess/StudentAI/StudentAI.cs:1635-1755 | the interleaved two-diagonal loop with its early stop equals the two separate diagonal ray scans, each skipped once its diagonal is blocked |
| Attack.PawnNextToKingIsPawnAttack | uvschess/uvschess/StudentAI/StudentAI.cs:1602-1633 | the pawn special case reports check exactly when an enemy pawn stands on a square from which it captures onto the king |
| Attack.CheckFromKnightIsKnightAttack | uvschess/uvschess/StudentAI/StudentAI.cs:1897-1967 | the eight knight probes report check exactly when an enemy knight is a knight's jump away |
| Attack.CheckDiagonalIsAttack | uvschess/uvschess/StudentAI/StudentAI.cs:1592-1755 | CheckDiagonal reports check exactly for a pawn attack or a first-hit attacker on one of the four diagonals |
| Attack.CheckHorizontalAndVerticalIsAttack | uvschess/uvschess/StudentAI/StudentAI.cs:1763-1889 | CheckHorizontalAndVertical reports check exactly for a first-hit attacker on the king's row or column |
| Attack.FindsFirst | uvschess/uvschess/StudentAI/StudentAI.cs:1541-1546 | the king search stops on the first square holding the piece |
| Attack.KingInCheckIsAttacked | uvschess/uvschess/StudentAI/StudentAI.cs:1538-1564 | false when no square holds the king; otherwise true exactly when the first square holding it is attacked by a pawn, slider, king or knight |
| MoveGen.MoverKing | uvschess/uvschess/StudentAI/StudentAI.cs:1480-1484 | the king looked for is a king, and is the mover's own king whenever From holds a piece |
| MoveGen.MovesIntoCheck | uvschess/uvschess/StudentAI/StudentAI.cs:1476-1491 | the board is left exactly as on entry, and the answer is whether the mover's king is in check on the board after the move |
| MoveGen.PawnMoves | uvschess/uvschess/StudentAI/StudentAI.cs:1327-1403 | a pawn has at most four moves |
| MoveGen.KnightMoves | uvschess/uvschess/StudentAI/StudentAI.cs:1246-1317 | a knight has at most eight moves |
| MoveGen.TryJump | uvschess/uvschess/StudentAI/StudentAI.cs:1250-1257 | one guarded knight block adds the move exactly as the specification of a jump says |
| MoveGen.GetKnightMoves | uvschess/uvschess/StudentAI/StudentAI.cs:1246-1317 | the list built is the knight's moves, in the source's order |
| MoveGen.GetPawnMoves | uvschess/uvschess/StudentAI/StudentAI.cs:1327-1403 | the list built is the pawn's moves, in the source's order |
| MoveGen.Slide | uvschess/uvschess/StudentAI/StudentAI.cs:1046-1062 | the stepping loop adds the empty squares along the ray and the first enemy, and stops at an own piece or the edge |
| MoveGen.GetRookMoves | uvschess/uvschess/StudentAI/StudentAI.cs:1039-1130 | the list built is the four rook rays in the order down, up, right, left |
| MoveGen.GetBishopMoves | uvschess/uvschess/StudentAI/StudentAI.cs:1140-1236 | the list built is the four diagonal rays in the source's order |
| MoveGen.TryKingStep | uvschess/uvschess/StudentAI/StudentAI.cs:811-822 | one guarded king block adds the step when the target is on the board, empty or enemy-held and not into check, and leaves the board unchanged |
| MoveGen.GetKingMoves | uvschess/uvschess/StudentAI/StudentAI.cs:781-915 | the list built is the king's eight guarded steps in the source's order, and the board is left unchanged |
| MoveGen.GetSquareMoves | uvschess/uvschess/StudentAI/StudentAI.cs:698-765 | the switch on one square: nothing for an empty or enemy square, rook then bishop moves for a queen |
| MoveGen.AddSquareMoves | uvschess/uvschess/StudentAI/StudentAI.cs:698-765 | appending one square's moves extends the moves of the squares before it by that square's moves |
| MoveGen.AddRowMoves | uvschess/uvschess/StudentAI/StudentAI.cs:696-767 | the inner loop adds the moves of one whole row, left to right |
| MoveGen.GetAllMoves | uvschess/uvschess/StudentAI/StudentAI.cs:685-771 | the list built is every square's moves in row-major order, and the board is left unchanged |
| MoveGenProofs.RayOnlyTargets | uvschess/uvschess/StudentAI/StudentAI.cs:1046-1062 | every move on a sliding ray lands ahead of the piece, over empty squares only, on an empty or enemy square |
| MoveGenProofs.RayAllTargets | uvschess/uvschess/StudentAI/StudentAI.cs:1046-1062 | every such square is reached by the sliding ray |
| MoveGenProofs.RayMember | uvschess/uvschess/StudentAI/StudentAI.cs:1039-1130 | a move is on a ray exactly when its target lies ahead with only empty squares between and is empty or enemy-held |
| MoveGenProofs.DiagonalAhead | uvschess/uvschess/StudentAI/StudentAI.cs:433-497 | a square lies ahead on a diagonal exactly when it is a proper diagonal square on the matching side |
| MoveGenProofs.BishopMovesExact | uvschess/uvschess/StudentAI/StudentAI.cs:1140-1236 | GetBishopMoves yields exactly the fresh moves BishopToMove accepts |
| MoveGenProofs.RookMovesExact | uvschess/uvschess/StudentAI/StudentAI.cs:1039-1130 | GetRookMoves yields exactly the fresh moves RookToMove accepts |
| MoveGenProofs.KnightMovesExact | uvschess/uvschess/StudentAI/StudentAI.cs:1246-1317 | GetKnightMoves yields exactly the fresh moves KnightToMove accepts |
| MoveGenProofs.JumpMember | uvschess/uvschess/StudentAI/StudentAI.cs:1250-1257 | one knight block yields the jump exactly when its target is on the board and empty or enemy-held |
| MoveGenProofs.KingStepMember | uvschess/uvschess/StudentAI/StudentAI.cs:811-822 | one king block yields the step exactly when its target is on the board, empty or enemy-held, and not into check |
| MoveGenProofs.KingMovesExact | uvschess/uvschess/StudentAI/StudentAI.cs:781-915 | GetKingMoves yields exactly the KingToMove moves that do not move into check; each is one step away, and there are at most eight |
| MoveGenProofs.PawnMovesExact | uvschess/uvschess/StudentAI/StudentAI.cs:1327-1403 | GetPawnMoves yields exactly the fresh moves PawnToMove accepts |
| MoveGenProofs.WhitePawnMovesExact | uvschess/uvschess/StudentAI/StudentAI.cs:1333-1364 | the same for a white pawn |
| MoveGenProofs.BlackPawnMovesExact | uvschess/uvschess/StudentAI/StudentAI.cs:1367-1398 | the same for a black pawn |
| MoveGenProofs.SquareMovesExact | uvschess/uvschess/StudentAI/StudentAI.cs:698-765 | one square's moves are exactly the fresh moves of a piece of the side to move that its predicate accepts (rook or bishop for a queen) |
| MoveGenProofs.SquareMovesFrom | uvschess/uvschess/StudentAI/StudentAI.cs:698-765 | every move generated for a square starts on that square |
| MoveGenProofs.MovesBeforeSquares | uvschess/uvschess/StudentAI/StudentAI.cs:694-768 | the moves of the first n squares are the moves each of those squares generates |
| MoveGenProofs.MovesBeforeMember | uvschess/uvschess/StudentAI/StudentAI.cs:694-768 | a move is among the first n squares' moves exactly when it starts on one of them and is accepted |
| MoveGenProofs.AllMovesExact | uvschess/uvschess/StudentAI/StudentAI.cs:685-771 | GetAllMoves yields exactly the fresh moves from the side's pieces that the matching predicate accepts (king moves also not into check) |
| MoveGenProofs.AllMovesSound | uvschess/uvschess/StudentAI/StudentAI.cs:685-771 | every generated move starts on a piece of the side to move, leaves its square, lands on an empty or enemy square and carries NoFlag and value 0 |
| MoveGenProofs.AcceptsLands | uvschess/uvschess/StudentAI/StudentAI.cs:338-581 | a move any of the predicates accepts leaves its square and lands on an empty or enemy square |
| Eval.BlackPawnDefendedMirrorsWhite | uvschess/uvschess/StudentAI/StudentAI.cs:2056 | the corrected black pawn test is the white test (2007) on the board flipped top to bottom with colours swapped |
| Eval.AsWrittenAgreesAwayFromEdges | uvschess/uvschess/StudentAI/StudentAI.cs:2056 | on rows 1 to 6 the test as written gives the corrected answer |
| Eval.BlackPawnGuardCounterexamples | uvschess/uvschess/StudentAI/StudentAI.cs:2056 | as written, a black pawn on (3, 7) reads off the board, so CalcPieceCost raises; a black pawn on (3, 0) defended from (4, 1) is not counted, so the square adds -995 |
| Eval.Flip | uvschess/uvschess/StudentAI/StudentAI.cs:2002-2097 | the flipped board holds on (x, y) the colour-swapped piece of (x, 7 - y) |
| Eval.PieceCost | uvschess/uvschess/StudentAI/StudentAI.cs:1999-2100 | the switch with the black pawn test as written at 2056: a square adds 0 exactly when empty, between 1 and 100000 for a white piece, and between -100000 and -1 for a black piece |
| Eval.SquareCost | uvschess/uvschess/StudentAI/StudentAI.cs:1999-2100 | one step of the switch counts a white or a black piece, raises exactly where the square makes the source read row 8, and otherwise adds the square's cost |
| Eval.SumRow | uvschess/uvschess/StudentAI/StudentAI.cs:1997-2099 | the inner loop adds the costs and counts of one row, and stops exactly when a square of that row makes the source raise |
| Eval.ThrowsExactly | uvschess/uvschess/StudentAI/StudentAI.cs:2056 | the black pawn test reads row 8 exactly for a black pawn on row 7 outside column 7 |
| Eval.Evaluate | uvschess/uvschess/StudentAI/StudentAI.cs:1990-2113 | a value CalcPieceCost returns lies within 6400000 of zero |
| Eval.EvaluateFaults | uvschess/uvschess/StudentAI/StudentAI.cs:1990-2113 | CalcPieceCost raises exactly when a black pawn stands on row 7 outside column 7, and otherwise returns the score |
| Eval.CalcPieceCost | uvschess/uvschess/StudentAI/StudentAI.cs:1990-2113 | the outcome is the one Evaluate gives: Fault exactly where the source raises, otherwise the score for myColor with the guard as written; when it returns, the count is the number of enemy pieces |
| Eval.ScoreIsSignFlipped | uvschess/uvschess/StudentAI/StudentAI.cs:2103-2111 | the Black-side score is the negation of the White-side score on every board |
| Eval.EvaluateIsSignFlipped | uvschess/uvschess/StudentAI/StudentAI.cs:2103-2111 | CalcPieceCost raises for both colours or for neither, and otherwise Black's value is the negation of White's |
| Eval.MaterialBound | uvschess/uvschess/StudentAI/StudentAI.cs:1995-2102 | n squares contribute at most 100000·n in absolute value |
| Eval.ScoreBound | uvschess/uvschess/StudentAI/StudentAI.cs:1990-2113 | every score lies within 6400000 of zero |
| Eval.EmptyBoardScoresZero | uvschess/uvschess/StudentAI/StudentAI.cs:1990-2113 | an empty board scores 0 for either side, and CalcPieceCost returns 0 on it |
| Eval.PieceCountIsSetSize | uvschess/uvschess/StudentAI/StudentAI.cs:2012-2096 | the counters equal the number of squares among the first n holding a piece of that colour |
| Eval.EnemyCountIsOpponentPieces | uvschess/uvschess/StudentAI/StudentAI.cs:2103-2111 | enemyPieceCount is the number of squares holding a piece of the other colour |
| Search.TurnClock.IsMyTurnOver | uvschess/uvschess/StudentAI/StudentAI.cs:111 | each poll consumes one answer of the oracle and returns it |
| Search.ReplyDepth | uvschess/uvschess/StudentAI/StudentAI.cs:2424-2431 | the depth Min hands to Max ranks strictly lower, so the mutual recursion ends |
| Search.MaxLoopStep | uvschess/uvschess/StudentAI/StudentAI.cs:2501-2526 | one turn of Max's loop: a fault stops it, a maximum reaching beta returns at once, otherwise alpha rises to the maximum and the loop goes on |
| Search.MinLoopStep | uvschess/uvschess/StudentAI/StudentAI.cs:2411-2443 | one turn of Min's loop: a fault stops it, a minimum reaching alpha returns at once, otherwise beta falls to the minimum and the loop goes on |
| Search.MaxNext | uvschess/uvschess/StudentAI/StudentAI.cs:2517-2525 | Max goes on only with a running maximum below beta and an alpha at or above it; a stop returns a value at or above beta |
| Search.MinNext | uvschess/uvschess/StudentAI/StudentAI.cs:2434-2442 | Min goes on only with a running minimum above alpha and a beta at or below it; a stop returns a value at or below alpha |
| Search.MaxLoopNext | uvschess/uvschess/StudentAI/StudentAI.cs:2501-2526 | the turn of Max's loop is the update of MaxNext on the value Min gives for the move |
| Search.MinLoopNext | uvschess/uvschess/StudentAI/StudentAI.cs:2411-2443 | the turn of Min's loop is the update of MinNext on the value Max gives for the reply |
| Search.FirstIndex | uvschess/uvschess/StudentAI/StudentAI.cs:2320-2325 | the first move evaluated is a valid index into the move list |
| Search.RootLoopStep | uvschess/uvschess/StudentAI/StudentAI.cs:2341-2351 | one turn of MiniMax's loop writes Min's value into the move and makes it the best when it beats alpha |
| Search.CanGenerate | uvschess/uvschess/StudentAI/StudentAI.cs:1334 | true exactly when no pawn of the side stands where GetPawnMoves would index off the board |
| Search.Leaf | uvschess/uvschess/StudentAI/StudentAI.cs:2457 | the leaf outcome is CalcPieceCost's: Fault exactly when a black pawn stands on row 7 outside column 7, otherwise the score |
| Search.MaxChild | uvschess/uvschess/StudentAI/StudentAI.cs:2511-2516 | make the move, call Min, restore: the value of Min after the move, with the board restored |
| Search.MaxStep | uvschess/uvschess/StudentAI/StudentAI.cs:2507-2525 | the loop body of Max does one turn of Max's loop and restores the board |
| Search.MaxTry | uvschess/uvschess/StudentAI/StudentAI.cs:2511-2525 | the body past the poll is MaxNext on Min's value |
| Search.MaxVisit | uvschess/uvschess/StudentAI/StudentAI.cs:2501-2526 | a move into check is skipped, any other is one turn of Max's loop over the legal moves |
| Search.Max | uvschess/uvschess/StudentAI/StudentAI.cs:2453-2528 | Max returns the outcome and makes the polls its specification fixes, with CalcPieceCost as written (its exception included) at the horizon and on a stop, and leaves the board unchanged when it returns a value |
| Search.MaxOverMoves | uvschess/uvschess/StudentAI/StudentAI.cs:2501-2527 | the loop of Max is its specification over the legal moves, starting from -999999999 |
| Search.MinChild | uvschess/uvschess/StudentAI/StudentAI.cs:2421-2433 | make the reply, call Max two plies shallower for a quiet reply when depth > 1 and one ply shallower otherwise, restore |
| Search.MinStep | uvschess/uvschess/StudentAI/StudentAI.cs:2417-2442 | the loop body of Min does one turn of Min's loop and restores the board |
| Search.MinTry | uvschess/uvschess/StudentAI/StudentAI.cs:2421-2442 | the body past the poll is MinNext on Max's value |
| Search.MinVisit | uvschess/uvschess/StudentAI/StudentAI.cs:2411-2443 | a reply into check is skipped, any other is one turn of Min's loop over the legal replies |
| Search.Min | uvschess/uvschess/StudentAI/StudentAI.cs:2362-2445 | Min returns the outcome and makes the polls its specification fixes, with CalcPieceCost as written (its exception included) on a stop and at Max's leaves, and leaves the board unchanged when it returns a value |
| Search.MinOverReplies | uvschess/uvschess/StudentAI/StudentAI.cs:2411-2444 | the loop of Min is its specification over the legal replies, starting from 999999999 |
| Search.RootStep | uvschess/uvschess/StudentAI/StudentAI.cs:2333-2340 | the poll ends the loop with the current best; the best move's twin is skipped |
| Search.RootTry | uvschess/uvschess/StudentAI/StudentAI.cs:2341-2351 | Min on a clone after the move, its value written into the move, the best kept |
| Search.MiniMax | uvschess/uvschess/StudentAI/StudentAI.cs:2312-2354 | MiniMax returns what its specification fixes, over the values of Min with CalcPieceCost as written (its exception included), and never writes to the board |
| SearchProofs.PlainMax | uvschess/uvschess/StudentAI/StudentAI.cs:2453-2528 | the reference minimax value for the engine to move lies within ±999999999 |
| SearchProofs.PlainMin | uvschess/uvschess/StudentAI/StudentAI.cs:2362-2445 | the reference minimax value for the other side to move lies within ±999999999 |
| SearchProofs.MaxOverFirst | uvschess/uvschess/StudentAI/StudentAI.cs:2501-2526 | the reference maximum is the larger of the first move's value and the rest |
| SearchProofs.MinOverFirst | uvschess/uvschess/StudentAI/StudentAI.cs:2411-2443 | the reference minimum is the smaller of the first reply's value and the rest |
| SearchProofs.MaxFailSoft | uvschess/uvschess/StudentAI/StudentAI.cs:2453-2528 | with no poll saying stop, Max returns a fail-soft bound of the plain minimax value: the exact value inside (alpha, beta), an upper bound at or below alpha, a lower bound at or above beta |
| SearchProofs.MinFailSoft | uvschess/uvschess/StudentAI/StudentAI.cs:2362-2445 | the same for Min |
| SearchProofs.PlainMaxMoves | uvschess/uvschess/StudentAI/StudentAI.cs:2462 | short of the horizon, a plain value exists only when the moves can be generated, and is the one over the legal moves |
| SearchProofs.PlainMinMoves | uvschess/uvschess/StudentAI/StudentAI.cs:2372 | a plain value with the other side to move is the one over its legal replies |
| SearchProofs.MaxSpecGoesOn | uvschess/uvschess/StudentAI/StudentAI.cs:2458-2462 | when the poll says go on, Max generates its moves |
| SearchProofs.MinSpecGoesOn | uvschess/uvschess/StudentAI/StudentAI.cs:2367-2372 | when the poll says go on, Min generates the replies |
| SearchProofs.MaxMovesLoop | uvschess/uvschess/StudentAI/StudentAI.cs:2462-2527 | Max runs its loop over the legal moves from -999999999 |
| SearchProofs.MinMovesLoop | uvschess/uvschess/StudentAI/StudentAI.cs:2372-2444 | Min runs its loop over the legal replies from 999999999 |
| SearchProofs.MaxMovesFailSoft | uvschess/uvschess/StudentAI/StudentAI.cs:2462-2527 | the loop of Max over all legal moves is fail-soft for the plain value |
| SearchProofs.MinMovesFailSoft | uvschess/uvschess/StudentAI/StudentAI.cs:2372-2444 | the loop of Min over all legal replies is fail-soft for the plain value |
| SearchProofs.MaxLoopFailSoft | uvschess/uvschess/StudentAI/StudentAI.cs:2501-2527 | from a running maximum at or below alpha, the loop of Max returns at least that maximum and a fail-soft bound of the best remaining value |
| SearchProofs.MinLoopFailSoft | uvschess/uvschess/StudentAI/StudentAI.cs:2411-2444 | from a running minimum at or above beta, the loop of Min returns at most that minimum and a fail-soft bound of the least remaining value |
| SearchProofs.MaxLoopFirst | uvschess/uvschess/StudentAI/StudentAI.cs:2507-2516 | the first turn of Max's loop polls "go on" and gets a fail-soft value from Min |
| SearchProofs.MinLoopFirst | uvschess/uvschess/StudentAI/StudentAI.cs:2417-2433 | the first turn of Min's loop polls "go on" and gets a fail-soft value from Max |
| SearchProofs.MaxTurn | uvschess/uvschess/StudentAI/StudentAI.cs:2517-2525 | the cutoff at beta and the raising of alpha keep the result fail-soft |
| SearchProofs.MinTurn | uvschess/uvschess/StudentAI/StudentAI.cs:2434-2442 | the cutoff at alpha and the lowering of beta keep the result fail-soft |
| SearchProofs.MaxStopsEarly | uvschess/uvschess/StudentAI/StudentAI.cs:2457-2461 | Max returns what CalcPieceCost gives (its score, or Fault where it raises) when depth <= 0 or when its first poll says the turn is over |
| SearchProofs.MaxNoLegalMove | uvschess/uvschess/StudentAI/StudentAI.cs:2456 | with no legal move, Max returns -999999999 |
| SearchProofs.MinNoLegalReply | uvschess/uvschess/StudentAI/StudentAI.cs:2365 | with no legal reply, Min returns 999999999 |
| RootProofs.RootValue | uvschess/uvschess/StudentAI/StudentAI.cs:2344 | the plain value of a root move lies within ±999999999 |
| RootProofs.SameSquaresApply | uvschess/uvschess/StudentAI/StudentAI.cs:2337 | two moves with the same squares give the same board, so skipping the twin loses nothing |
| RootProofs.RetaggedWithValue | uvschess/uvschess/StudentAI/StudentAI.cs:2345 | writing a value into a move object keeps every move's squares and flag |
| RootProofs.RootLoopBest | uvschess/uvschess/StudentAI/StudentAI.cs:2331-2352 | with no poll saying stop, the loop ends with the best move of the list, its exact value written into it |
| RootProofs.RootSkip | uvschess/uvschess/StudentAI/StudentAI.cs:2337-2340 | the skipped twin of the best move has the best move's value |
| RootProofs.RootEval | uvschess/uvschess/StudentAI/StudentAI.cs:2341-2351 | a value above alpha is the move's exact value and makes it the best; any other value means the move is no better |
| RootProofs.RootChild | uvschess/uvschess/StudentAI/StudentAI.cs:2344 | Min on a root move gives its exact value when that beats alpha, and a value at or below alpha otherwise |
| RootProofs.MiniMaxBest | uvschess/uvschess/StudentAI/StudentAI.cs:2312-2354 | with no poll saying stop, MiniMax returns a listed move whose plain value is the largest in the list, with that value written into it |
| RootProofs.RootLoopShape | uvschess/uvschess/StudentAI/StudentAI.cs:2331-2352 | under any clock the loop picks a listed move and rewrites only move values |
| RootProofs.MiniMaxShape | uvschess/uvschess/StudentAI/StudentAI.cs:2312-2354 | under any clock MiniMax picks a listed move and changes the move objects' values only |
| Judge.EscapesMeaning | uvschess/uvschess/StudentAI/StudentAI.cs:1455-1462 | the escape loop finds a move exactly when some move of the list does not move into check |
| Judge.FindEscape | uvschess/uvschess/StudentAI/StudentAI.cs:1455-1462 | the loop answers whether some move escapes check, and leaves the board unchanged |
| Judge.SetFlags | uvschess/uvschess/StudentAI/StudentAI.cs:1431-1468 | a move into check is replaced by a null move flagged Stalemate; otherwise Check when the enemy king is attacked after the move, Checkmate when no enemy reply escapes too, NoFlag otherwise; the board is left unchanged |
| Judge.Early | uvschess/uvschess/StudentAI/StudentAI.cs:191-230 | when the piece switch goes on, From holds a piece and a pawn there can look ahead |
| Judge.IsValidMove | uvschess/uvschess/StudentAI/StudentAI.cs:173-326 | the answer and the board left behind are those the validator's specification fixes, including the paths that leave the move made |
| Judge.PieceSwitch | uvschess/uvschess/StudentAI/StudentAI.cs:191-230 | the switch answers with the matching movement predicate, or returns early for an empty square or a queen that fails both tests |
| Judge.JudgeFlag | uvschess/uvschess/StudentAI/StudentAI.cs:233-325 | the flag checks, from the board after the move on, give the flag verdict |
| Judge.Restore | uvschess/uvschess/StudentAI/StudentAI.cs:283-284 | writing back the saved squares gives the board before the move |
| JudgeProofs.LegalMember | uvschess/uvschess/StudentAI/StudentAI.cs:102-108 | a move is kept by the legality filter exactly when it is listed and does not move into check |
| JudgeProofs.CheckmateValuedInfinity | uvschess/uvschess/StudentAI/StudentAI.cs:1463-1466 | a move SetFlags calls Checkmate is valued 999999999 by the search at every depth |
| JudgeProofs.StalemateValuedAsMate | uvschess/uvschess/StudentAI/StudentAI.cs:1447 | a stalemating move gets NoFlag from SetFlags, yet the same value 999999999 as a mate |
| JudgeProofs.LegalMoveFlagged | uvschess/uvschess/StudentAI/StudentAI.cs:1433-1438 | SetFlags never replaces a legal move of the side to move |
| JudgeProofs.OwnCheckValidates | uvschess/uvschess/StudentAI/StudentAI.cs:273-280 | the engine's own legal move flagged Check passes IsValidMove, with the board restored |
| JudgeProofs.OwnCheckmateValidates | uvschess/uvschess/StudentAI/StudentAI.cs:300-315 | the engine's own legal move flagged Checkmate passes IsValidMove, with the move left made |
| JudgeProofs.OwnNoFlagValidates | uvschess/uvschess/StudentAI/StudentAI.cs:236-272 | the engine's unflagged legal move passes exactly when one of its side's earlier moves escapes check on the board after it |
| JudgeProofs.ValidateReduces | uvschess/uvschess/StudentAI/StudentAI.cs:233-235 | past the first checks the validator is its flag part, or faults on the reply list |
| JudgeProofs.OwnMovePassesSwitch | uvschess/uvschess/StudentAI/StudentAI.cs:184-230 | the engine's own legal move, whatever its flag, passes the first checks with its movement predicate satisfied |
| JudgeProofs.OwnMoveShape | uvschess/uvschess/StudentAI/StudentAI.cs:191-230 | a generated move that does not move into check passes the piece switch |
| JudgeProofs.AcceptedShape | uvschess/uvschess/StudentAI/StudentAI.cs:191-230 | a move its predicate accepts passes the piece switch |
| JudgeProofs.FlagIgnored | uvschess/uvschess/StudentAI/StudentAI.cs:184-230 | the first checks read the move's squares, not its flag |
| JudgeProofs.FlagVerdictOwn | uvschess/uvschess/StudentAI/StudentAI.cs:236-316 | for the flag SetFlags gives, the flag part accepts Check and Checkmate, and for NoFlag asks for an escape |
| JudgeProofs.AcceptedClaims | uvschess/uvschess/StudentAI/StudentAI.cs:173-326 | an accepted claim is one the engine would make: NoFlag, Check and Checkmate agree with SetFlags, and Stalemate is claimed by a side not in check with no escaping move |
| JudgeProofs.FlagVerdictClaims | uvschess/uvschess/StudentAI/StudentAI.cs:236-316 | the same for the flag part |
| JudgeProofs.ValidateLeaves | uvschess/uvschess/StudentAI/StudentAI.cs:173-326 | the board is left as it was or with the move made; an accepted move leaves it as it was, except a Checkmate claim, which leaves the move made |
| JudgeProofs.FlagVerdictLeaves | uvschess/uvschess/StudentAI/StudentAI.cs:236-318 | the same for the flag part |
| Agent.Window | uvschess/uvschess/StudentAI/StudentAI.cs:85-98 | the history keeps the last boards shown, newest last, growing by one up to six and then dropping the oldest |
| Agent.SortDesc | uvschess/uvschess/StudentAI/StudentAI.cs:145 | the sorted move list is a permutation of the list, in descending order of value |
| Agent.Insert | uvschess/uvschess/StudentAI/StudentAI.cs:145 | inserting into a descending list keeps it descending and adds the element once |
| Agent.FlagChosen | uvschess/uvschess/StudentAI/StudentAI.cs:144 | SetFlags on the current choice keeps the move objects and, when it keeps a move, keeps the same one |
| Agent.DeepenTurnStep | uvschess/uvschess/StudentAI/StudentAI.cs:135-139 | one deepening turn is MiniMax, then the rest of the turn on its pick |
| Agent.DeepenFlagStep | uvschess/uvschess/StudentAI/StudentAI.cs:144-146 | the end of a turn is SetFlags, the sort, and the loop one ply deeper |
| Agent.LegalMoves | uvschess/uvschess/StudentAI/StudentAI.cs:100-109 | the filter keeps the moves that do not move into check, in order, and leaves the board unchanged |
| Agent.DeepenStep | uvschess/uvschess/StudentAI/StudentAI.cs:133-155 | the search branch of the loop body is one deepening turn |
| Agent.Proceed | uvschess/uvschess/StudentAI/StudentAI.cs:136-146 | the poll after MiniMax either stops with the previous choice or goes on |
| Agent.Choose | uvschess/uvschess/StudentAI/StudentAI.cs:140-143 | the search's best move replaces the choice when there is none or it is worth more |
| Agent.Settle | uvschess/uvschess/StudentAI/StudentAI.cs:144-146 | SetFlags on the choice and the sort, then the next depth |
| Agent.FlagChoice | uvschess/uvschess/StudentAI/StudentAI.cs:144 | SetFlags on the chosen move object or null move |
| Agent.Deepen | uvschess/uvschess/StudentAI/StudentAI.cs:111-156 | the deepening loop from depth 1 returns what its specification fixes, with the board unchanged |
| Agent.StudentAI.Remember | uvschess/uvschess/StudentAI/StudentAI.cs:85-98 | the history becomes the window with the new board |
| Agent.StudentAI.GetNextMove | uvschess/uvschess/StudentAI/StudentAI.cs:64-163 | the turn count rises by one, the history takes the board, the board is left unchanged, and the outcome is the one the turn's specification fixes: the chosen move, or Fault where the last log line reads the squares of a null myNextMove |
| AgentProofs.FlagSpecSquares | uvschess/uvschess/StudentAI/StudentAI.cs:1431-1468 | SetFlags reads a move's squares only |
| AgentProofs.DeepenTracks | uvschess/uvschess/StudentAI/StudentAI.cs:111-156 | the deepening loop keeps the move objects' squares, the move list, and the chosen move flagged as SetFlags flags it |
| AgentProofs.TurnTracks | uvschess/uvschess/StudentAI/StudentAI.cs:133-155 | one deepening turn keeps the same |
| AgentProofs.TracksSearched | uvschess/uvschess/StudentAI/StudentAI.cs:2345 | a search rewrites values only |
| AgentProofs.AfterTracks | uvschess/uvschess/StudentAI/StudentAI.cs:136-146 | the end of a turn keeps the same |
| AgentProofs.TracksFlagged | uvschess/uvschess/StudentAI/StudentAI.cs:144-145 | SetFlags flags the chosen legal move and the sort keeps the move list |
| AgentProofs.LegalJudged | uvschess/uvschess/StudentAI/StudentAI.cs:1433-1468 | SetFlags flags every legal move without replacing it |
| AgentProofs.LegalFlaggedAt | uvschess/uvschess/StudentAI/StudentAI.cs:1433-1438 | the same, move by move |
| AgentProofs.NextMoveReply | uvschess/uvschess/StudentAI/StudentAI.cs:64-163 | the move GetNextMove answers has the squares of a legal move and the flag SetFlags gives it |
| AgentProofs.DeepenNoMoves | uvschess/uvschess/StudentAI/StudentAI.cs:113-131 | with no legal move the loop keeps the flagged null move |
| AgentProofs.NoLegalReply | uvschess/uvschess/StudentAI/StudentAI.cs:113-131 | with no legal move the intended answer is a null move flagged Checkmate when the own king is attacked and Stalemate otherwise, unless the clock stops the loop first |
| AgentProofs.NoLegalMoveFaults | uvschess/uvschess/StudentAI/StudentAI.cs:111-160 | with no legal move the loop ends holding that flagged null move (or nothing), and GetNextMove then raises at line 160 |
| AgentProofs.AnswerAsIntended | uvschess/uvschess/StudentAI/StudentAI.cs:111-162 | GetNextMove answers a move exactly when the intended answer is that move, with the same polls, and raises in every other case |
| AgentProofs.NullMoveCounterexample | uvschess/uvschess/StudentAI/StudentAI.cs:113-160 | White to move on the empty board, with the clock quiet for two polls: GetNextMove raises, while the intended answer is the null move flagged Stalemate |
| AgentProofs.NoPiecesNoMoves | uvschess/uvschess/StudentAI/StudentAI.cs:685-771 | a side with no piece on the board has no legal move |
| AgentProofs.DeepenFirstNoMoves | uvschess/uvschess/StudentAI/StudentAI.cs:111-131 | the first pass with no legal move makes the flagged null move |
| AgentProofs.SwitchIgnoresValue | uvschess/uvschess/StudentAI/StudentAI.cs:191-230 | the piece switch of IsValidMove reads squares, not the value |
| AgentProofs.ValidateIgnoresValue | uvschess/uvschess/StudentAI/StudentAI.cs:173-326 | IsValidMove reads a move's squares and flag, not its value |
| AgentProofs.FlagVerdictIgnoresValue | uvschess/uvschess/StudentAI/StudentAI.cs:233-325 | the same for the flag part |
| AgentProofs.ReplyValidates | uvschess/uvschess/StudentAI/StudentAI.cs:173-326 | GetNextMove's Check and Checkmate answers pass its own IsValidMove, and an unflagged one passes exactly when its side has an escaping move on the board after it |

## Left out

- Logging, the profiler, the `Name` property and the decision-tree visualizer (`AddAllPossibleMovesToDecisionTree`, `AddAllChildrenToDecisionTree`, `SetDecisionTree`) are left out. The one log line with an effect is the last one of `GetNextMove` (line 160): it reads `myNextMove.From` and raises when that is null, and the model keeps that exception as `Fault`.
- Wall-clock time: `IsMyTurnOver` is an oracle of answers. The poll made inside the log line at line 110 is counted as a poll.
- `System.Random` at the root is the parameter `pick`. The index actually used is `pick % count`.
- `ChessBoard.MakeMove`, `Clone` and the framework types are not part of this model. `MakeMove` is assumed to put the From piece on To and clear From. Promotion, castling and en passant are not modelled.
- Search.Max, Search.Min: on a `Fault` (an exception in the source) the board is not stated to be restored, because the source leaves the move made when GetAllMoves throws mid-search.
- Agent.SortDesc: the source's `List.Sort` is unstable. The model uses one particular descending order, and nothing is proved about the order of equal values.
- Agent.ChoiceValue: the null move's `ValueOfMove` is assumed to be 0, because the framework constructor is not part of this model.
- Move objects are values. The root move list is a sequence of indices into them, which models the aliasing of `myNextMove` with an entry of `allMoves`. The history holds board values, not references to the framework's board objects.
- Flags beyond NoFlag, Check, Checkmate and Stalemate, and the `default: throw` branch of IsValidMove's piece switch: the piece datatype has no other values.
- RootProofs.MiniMaxBest: the exact-best result is proved only when no poll says the turn is over. With an interrupted search only the shape (a listed move, values rewritten) is proved.
- `Greedy`, and the one-argument `KingInCheck(ref board)`: never called.
- Commented-out code: the old `GetKingMoves`, the `KingInCheck`-by-move stub, `CalcDefendedCost`, the `*IsDefending` methods, `AlphaBetaPruning`, and the quiescence block in `Min`.
- The `depth <= 0` block of `Max` at lines 2463-2499 is unreachable, because line 2457 returns first.
- MoveGen.GetKingMoves: the search for the king when it is given invalid coordinates (lines 791-810) is not modelled. GetAllMoves only ever passes a square on the board.
- MoveGen.GetPawnMoves, Rules.PawnToMove: a pawn on its last row makes the source index off the board. These members require it not to stand there, and callers that can meet it (the search, SetFlags, IsValidMove) return `Fault`.

## Findings

| source | as written | input that shows it | evidently intended | confidence | as-written member | corrected member |
|---|---|---|---|---|---|---|
| uvschess/uvschess/StudentAI/StudentAI.cs:2056 | the second half of the black-pawn "defended" test guards the read of `board[X + 1, Y + 1]` with `Y > 0` | a black pawn on (3, 7) reads row 8 and throws; a black pawn on (3, 0) with a black knight on (4, 1) is not counted as defended | `Y < 7`, mirroring the white test at line 2007 | not executed | Eval.BlackPawnGuardCounterexamples | Eval.BlackPawnDefendedMirrorsWhite |
| uvschess/uvschess/StudentAI/StudentAI.cs:160 | the last log line reads `myNextMove.From.X`, but the fallback at line 117 is `new ChessMove(null, null)`, whose From is null | White to move on the empty board, with the clock quiet for the first two polls: the loop holds a null move flagged Stalemate and line 160 raises | return the flagged null move, as the comment at lines 115-116 announces | not executed | AgentProofs.NullMoveCounterexample | AgentProofs.NoLegalReply |
