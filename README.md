# isdead in Dafny

A model of the Go package `isdead`. It decides whether a chess position holding only
kings, pawns and bishops is dead, meaning neither side can ever mate (the dead-position
rule of Article 5.2.2 of the FIDE Laws of Chess). The model also covers the
Forsyth–Edwards Notation (FEN) front end that builds the position from a string.

The package has two parts.

- **The evaluator** (`IsDead`) works on 64-bit boards.
  - Every set of squares is a `bv64`; square (rank, file) is bit `rank * 8 + 7 - file`.
  - It grows the regions the pieces can reach by iterating one-step move generators to a
    fixed point:
    - pawn pushes, blocked by a head-on enemy pawn;
    - king steps, avoiding the squares of the king's own blocked pawns and the squares
      the blocked enemy pawns attack;
    - bishop diagonal steps, avoiding the bishop's own blocked pawns.
  - It then runs a fixed sequence of early-return tests: promotion, captures, king
    captures and four corner mates.
- **The FEN scanner** (`IsDeadFen`) reads three fields of the string character by
  character into the six masks, then calls the evaluator:
  - the piece placement;
  - the active colour;
  - the en passant target square.

Files:

- `bitboard.dfy` (`Bitboard`): the masks and the one-step generators, with:
  - their geometry on single squares;
  - monotonicity and colour preservation;
  - connectivity facts;
  - `Popcount`, which stands in for `bits.OnesCount64`.
- `closures.dfy` (`Closures`): the two shapes of fixed-point loop, for any step function.
  - `Expand`/`Closure` is "OR in a step, then clear the impossible squares", used for
    kings and bishops.
  - `Advance`/`Reach` is "OR in the unblocked step", used for pawns.
  - Each comes with four kinds of lemma: seed, avoidance, fixed point and leastness
    (`ClosureFacts` and `ClosureLeast`; `ReachFacts`, `ReachAvoids` and `ReachLeast`).
  - Each also has a round count proving that the loop terminates.
- `moves.dfy` (`Moves`): `computeKingMoves` and `computeBishopMoves` as loops, each
  proved equal to its closure, plus what the closures mean on an open board.
- `evaluator.dfy` (`Evaluator`): the `State` record and the verdict.
  - `DeadPosition` states the verdict as one formula over the regions.
  - `IsDead` is the evaluator's sequence of loops and early returns, proved to compute
    it.
- `verdicts.dfy` (`Verdicts`): what the verdict means for whole families of positions.
- `fen.dfy` (`Fen`): the scanner.
  - `Step` gives the effect of one character, `Run` folds it over a string and `Scan`
    starts the fold from the initial state.
  - `IsDeadFen` is the character loop, proved to end in the scanned state.

Structure that differs from the Go code:

- The two pawn loops of `IsDead` are the methods `ComputeWhitePawnMoves` and
  `ComputeBlackPawnMoves`.
- The loop body of `IsDeadFen` is the method `ReadChar`.
- Each loop round is written through the shared round functions `Expand` and `Advance`.
- `IsDead` unpacks the `State` and hands the six masks to `IsDeadPosition`.
- The two promotion tests are one `if` with `||`. Both branches return false, so the
  result is the same.
- The eight capture and corner-mate tests are the method `CheckPlay`. It runs them in
  the same order through `CheckCaptures` and `CheckCornerMates`, the corner mates split
  by the side mated.

## Model

| member | source | states |
|---|---|---|
| `Bitboard.NamedMasks` | isdead/isdead.go:6-9 | `ABCDEFG` holds every square not on the h-file, `BCDEFGH` every square not on the a-file, `RANK_8` exactly rank 8, `RANK_1` exactly rank 1; the dark-square mask is the squares with even rank + file |
| `Bitboard.CornerMasks` | isdead/isdead.go:11-23 | each named square constant is the single bit of that square (a8, b8, g8, h8, a7, h7, a1, b1, g1, h1, a2, h2) |
| `Bitboard.SingleKingMovesGeometry` | isdead/isdead.go:35-44 | from one square, the king generator yields exactly the squares at Chebyshev distance 1, so nothing wraps between the a- and h-files |
| `Bitboard.DiagonalStepsGeometry` | isdead/isdead.go:59-63 | from one square, the bishop step yields exactly the squares one rank and one file away |
| `Bitboard.WhitePawnAttackGeometry` | isdead/isdead.go:72-74 | a white pawn attacks exactly the on-board squares one rank up and one file aside |
| `Bitboard.BlackPawnAttackGeometry` | isdead/isdead.go:76-78 | a black pawn attacks exactly the on-board squares one rank down and one file aside |
| `Bitboard.PushGeometry` | isdead/isdead.go:187 | a shift by 8 moves a square one rank up (or, shifting right, down) on the same file, and a square pushed off the board is lost |
| `Bitboard.SingleKingMovesMonotone` | isdead/isdead.go:35-44 | a larger set of squares never has fewer king steps |
| `Bitboard.DiagonalStepsMonotone` | isdead/isdead.go:59-63 | a larger set of squares never has fewer diagonal steps |
| `Bitboard.DiagonalStepsKeepColour` | isdead/isdead.go:59-63 | diagonal steps from dark squares land on dark squares, and from light squares on light squares |
| `Bitboard.PushesMonotone` | isdead/isdead.go:187 | pushes keep inclusion, in both directions |
| `Bitboard.SingleKingMovesConnected` | isdead/isdead.go:35-44 | a non-empty set that no king step leaves is the whole board |
| `Bitboard.DiagonalStepsConnected` | isdead/isdead.go:59-63 | a non-empty set of one colour that no diagonal step leaves is that whole colour |
| `Bitboard.PushesReachLastRank` | isdead/isdead.go:185-210 | a non-empty set closed under pushes towards rank 8 meets rank 8, and likewise towards rank 1 |
| `Bitboard.Popcount` | isdead/isdead.go:251 | the count of set bits is at most 64 |
| `Bitboard.PopcountGrows` | isdead/isdead.go:46-55 | a mask that gains a square has a strictly larger count, so a growing loop ends within 64 rounds |
| `Bitboard.PopcountZero` | isdead/isdead.go:251 | the count is zero exactly for the empty mask |
| `Bitboard.PopcountOfSquare` | isdead/isdead.go:251 | one square counts one |
| `Bitboard.PopcountAboveOne` | isdead/isdead.go:251 | the count exceeds one exactly when the mask holds two distinct squares, which is what "a second bishop" means in the corner-mate tests |
| `Closures.ExpandFacts` | isdead/isdead.go:48-49 | one king/bishop round never meets the impossible squares, keeps a region already clear of them, and a round that changes such a region raises its count |
| `Closures.ClosureFacts` | isdead/isdead.go:46-70 | the closure is disjoint from `imp`, one more round leaves it unchanged, and it holds the first round and so every seed square outside `imp` |
| `Closures.ClosureLeast` | isdead/isdead.go:46-70 | for a monotone step, the closure lies inside every fixed point of the round that holds the first round |
| `Closures.ClosureWithin` | isdead/isdead.go:57-70 | a closure seeded inside a region its step never leaves stays in that region |
| `Closures.ClosureRoundsBound` | isdead/isdead.go:46-70 | the loop changes its mask at most 65 times: at most one round only drops squares of `imp`, and then at most one round per square gained |
| `Closures.AdvanceFacts` | isdead/isdead.go:187 | one pawn round keeps every square it had, and a round that changes the region raises its count |
| `Closures.ReachFacts` | isdead/isdead.go:185-202 | the pawn region contains the pawns and one more push round adds nothing |
| `Closures.ReachAvoids` | isdead/isdead.go:185-202 | the pawn region adds no blocked square: outside the seed it avoids `blocked` |
| `Closures.ReachLeast` | isdead/isdead.go:185-202 | for a monotone step, the pawn region lies inside every region that holds the pawns and is closed under a round |
| `Closures.ReachRoundsBound` | isdead/isdead.go:185-202 | a pawn loop changes its mask at most 64 minus the number of pawns times |
| `Moves.ComputeKingMoves` | isdead/isdead.go:46-55 | the loop returns exactly the king closure of the kings avoiding `impossibleSquares` |
| `Moves.ComputeBishopMoves` | isdead/isdead.go:57-70 | the loop returns exactly the bishop closure of the bishops avoiding `impossibleSquares` |
| `Moves.KingStepsMonotone` | isdead/isdead.go:35-44 | the king generator is monotone for all inputs |
| `Moves.DiagonalStepsMonotoneAll` | isdead/isdead.go:59-63 | the bishop step is monotone for all inputs |
| `Moves.PawnPushesMonotone` | isdead/isdead.go:187 | both pawn pushes are monotone for all inputs |
| `Moves.KingMovesLeast` | isdead/isdead.go:46-55 | the king region lies inside every set that holds the first round and that one more king round leaves unchanged |
| `Moves.BishopMovesLeast` | isdead/isdead.go:57-70 | the bishop region lies inside every set that holds the first round and that one more bishop round leaves unchanged |
| `Moves.KingMovesOfNoKing` | isdead/isdead.go:46-55 | with no king the king region is empty |
| `Moves.KingMovesOnOpenBoard` | isdead/isdead.go:46-55 | with nothing impossible, any king reaches every square |
| `Moves.BishopMovesKeepColour` | isdead/isdead.go:57-70 | bishops on one colour reach only squares of that colour |
| `Moves.BishopMovesOnOpenBoard` | isdead/isdead.go:57-70 | with nothing impossible, bishops reach every square of their colour |
| `Evaluator.BlockedPawnsFacing` | isdead/isdead.go:182-183 | the blocked black pawns are the blocked white pawns shifted up one rank |
| `Evaluator.BlockedPawnsOwn` | isdead/isdead.go:182-183 | each blocked set holds only pawns of its own side |
| `Evaluator.WhitePawnMovesLeast` | isdead/isdead.go:185-193 | the white pawn region lies inside every set that holds the white pawns and that one more push round leaves unchanged |
| `Evaluator.BlackPawnMovesLeast` | isdead/isdead.go:195-202 | the black pawn region lies inside every set that holds the black pawns and that one more push round leaves unchanged |
| `Evaluator.PawnMovesAvoidBlocks` | isdead/isdead.go:182-202 | beyond its own pawns, a pawn region never enters a square of the blocked enemy pawns |
| `Evaluator.ComputeWhitePawnMoves` | isdead/isdead.go:185-193 | the white pawn loop returns exactly the white pawn region |
| `Evaluator.ComputeBlackPawnMoves` | isdead/isdead.go:195-202 | the black pawn loop returns exactly the black pawn region |
| `Evaluator.CheckPlay` | isdead/isdead.go:232-265 | the eight tests return "play goes on" exactly when a capture, king capture or corner mate is possible |
| `Evaluator.CheckCaptures` | isdead/isdead.go:232-248 | the pawn, bishop and king capture tests fire exactly when some capture is possible |
| `Evaluator.CheckCornerMates` | isdead/isdead.go:250-265 | the four corner tests fire exactly when some corner mate is possible |
| `Evaluator.CheckBlackCornerMate` | isdead/isdead.go:250-257 | the a8 and h8 tests fire exactly when the black king can be mated in a corner |
| `Evaluator.CheckWhiteCornerMate` | isdead/isdead.go:258-265 | the a1 and h1 tests fire exactly when the white king can be mated in a corner |
| `Evaluator.IsDeadPosition` | isdead/isdead.go:176-268 | the evaluator returns exactly `DeadPosition`: true with no pawns or bishops, otherwise true exactly when no pawn promotes and no capture or corner mate is possible |
| `Evaluator.IsDead` | isdead/isdead.go:176 | on a `State`, the result is the verdict on its six masks |
| `Evaluator.PromotionKeepsAlive` | isdead/isdead.go:204-210 | once there is a pawn or bishop, a white pawn region meeting rank 8 or a black one meeting rank 1 means not dead |
| `Evaluator.PlayKeepsAlive` | isdead/isdead.go:232-265 | once there is a pawn or bishop, any capture, king capture or corner mate means not dead |
| `Evaluator.QuietIsDead` | isdead/isdead.go:204-267 | without promotion, capture, king capture or corner mate the position is dead |
| `Verdicts.BareBoardIsDead` | isdead/isdead.go:177-180 | no pawns and no bishops: dead, wherever the kings stand |
| `Verdicts.FreeWhitePawnsPromote` | isdead/isdead.go:185-207 | white pawns with no head-on block always reach rank 8 |
| `Verdicts.FreeBlackPawnsPromote` | isdead/isdead.go:195-210 | black pawns with no head-on block always reach rank 1 |
| `Verdicts.FreePawnsKeepAlive` | isdead/isdead.go:182-210 | when no pawn is blocked head on, any pawn at all means not dead |
| `Verdicts.NoPawnsOneSideBishopless` | isdead/isdead.go:232-267 | with no pawns, if one side has no bishop the position is dead |
| `Verdicts.NoPawnsOppositeColourBishops` | isdead/isdead.go:225-267 | with no pawns, at most one bishop a side on opposite colours is dead |
| `Verdicts.NoPawnsSameColourBishops` | isdead/isdead.go:225-235 | with no pawns, bishops of both sides on one colour can meet, so not dead |
| `Verdicts.NoCapturesWithoutPawns` | isdead/isdead.go:232-248 | with empty pawn regions and bishop regions that do not meet, no capture test fires |
| `Verdicts.QuietWithoutPawns` | isdead/isdead.go:232-265 | with empty pawn regions, bishop regions that do not meet, and either at most one bishop a side or a side without bishops, none of the eight play tests fires |
| `Verdicts.NoMateOfBlackWithoutPawns` | isdead/isdead.go:250-257 | for any black pawn region without a7 and h7, mating black in the corner needs two black bishops and a bishop of each side |
| `Verdicts.NoMateOfWhiteWithoutPawns` | isdead/isdead.go:258-265 | for any white pawn region without a2 and h2, mating white in the corner needs two white bishops and a bishop of each side |
| `Fen.IsDeadFen` | isdead/isdead.go:86-174 | for a string on which Go does not panic, `Dead` is "no other piece was seen and the scanned position is dead", and `HasPawns` and `HasBishops` are exactly "the scanned pawn (bishop) masks are not empty" |
| `Fen.ReadChar` | isdead/isdead.go:93-160 | the loop body does to the cursors and masks exactly what `Step` says |
| `Fen.FaultsPersist` | isdead/isdead.go:120-157 | after a negative shift count nothing more is read |
| `Fen.RunAppend` | isdead/isdead.go:93 | reading two strings in turn is reading their concatenation |
| `Fen.CursorsStayInRange` | isdead/isdead.go:89-159 | the rank cursor never exceeds 7 and the file cursor never goes below 0 |
| `Fen.SquareIndexAtMost63` | isdead/isdead.go:120 | no computed square index exceeds 63, so no bit is ever shifted out |
| `Fen.OtherPiecesStaySeen` | isdead/isdead.go:137-139 | once an unsupported piece is seen, it stays seen |
| `Fen.OtherPieceMarksPosition` | isdead/isdead.go:137-167 | an unsupported character in the placement field marks the position, so `Dead` is false |
| `Fen.PlacementCharacters` | isdead/isdead.go:98-140 | in the placement field, `/` goes to file 0 of the next rank down, a digit d advances the file by d and sets no bits, each of `KkBbPp` sets its square in its own mask and advances the file, anything else advances the file and marks the position |
| `Fen.SpaceStartsNextField` | isdead/isdead.go:94-97 | a space increments the field index and changes nothing else |
| `Fen.ColourFieldSetsTurn` | isdead/isdead.go:141-147 | the active colour field changes only the side to move, to what its last `w` or `b` says |
| `Fen.TurnAfterChoices` | isdead/isdead.go:141-147 | the side to move only ever becomes 0 or 1, or stays as it was |
| `Fen.IgnoredFields` | isdead/isdead.go:93-160 | the castling field and every field after the en passant one change nothing |
| `Fen.EnPassantField` | isdead/isdead.go:148-160 | in the en passant field `-` changes nothing, and a square sets the file and rank cursors and adds a black pawn there when white is to move, a white pawn otherwise |
| `Fen.EnPassantCharacters` | isdead/isdead.go:148-158 | one character of the en passant field: a file letter sets only the file cursor; a rank digit sets the rank cursor and adds a pawn on the square of the two cursors, whatever the file cursor holds (or faults on a negative index); any other character changes nothing |
| `Fen.LoneRankDigitAddsPawn` | isdead/isdead.go:148-158 | the string `8/8/8/8/8/8/8/8 w - 3` scans, without fault and without an unsupported piece, to a board holding only a black pawn on a2, with the cursors on rank index 2, file 8, field 3 |

## Left out

- Go's panic on a negative shift count in `IsDeadFen` is not modelled. Such an index
  arises, for example, from a ninth rank, an over-long rank 1, or an en passant digit
  read with a stale file cursor. The scanner records it as `faulted`, and
  `Fen.IsDeadFen` requires a string that never reaches it.
- `bits.OnesCount64` is replaced by the local `Bitboard.Popcount`; the Go library is
  not modelled.
- Go decodes the string into runes. The model takes the input as a `seq<char>`, so
  invalid UTF-8 is not modelled.
- Go's `int` for the rank and file cursors is unbounded here. The file cursor grows by
  at most 8 per character, so overflow needs about 2^60 characters with a 64-bit `int`,
  and about 2^28 with a 32-bit one.
- An en passant field with a rank digit but no file letter is not rejected: the digit
  uses the file cursor left by the placement field and adds a pawn there
  (`Fen.LoneRankDigitAddsPawn`). A malformed field should add no pawn, but the model
  follows the code.
- Left-right symmetry is not proved. Reflecting a position across the d/e line
  (file f to file 7 - f) should not change the verdict, since every generator is
  mirror-symmetric and the a8/h8 and a1/h1 mate tests swap. The bit-level lemmas that
  join the reflected step terms back into `SingleKingMoves` and `DiagonalSteps` exceed
  the verifier's resource limit, so no lemma states this invariance.
- Chess correctness of the verdict is not claimed. The code ignores blocking by a
  side's own pawns and handles en passant only roughly. The model states what the code
  computes.
- `Turn` is read from the string and steers the en passant pawn. The evaluator does not
  use it, and neither does the model.
