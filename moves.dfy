/**
 * The king and bishop move closures of the evaluator, as the loops the evaluator runs
 * and as instances of the closure of `Closures`, with what the closures mean for kings
 * and bishops.
 */
module Moves {
  import opened Bitboard
  import opened Closures

  /** Every square the kings can walk to without entering `impossibleSquares`. */
  method ComputeKingMoves(kings: bv64, impossibleSquares: bv64) returns (r: bv64)
    ensures r == Closure(SingleKingMoves, kings, impossibleSquares)
  {
    var k := kings;
    while true
      invariant Closure(SingleKingMoves, k, impossibleSquares) ==
                Closure(SingleKingMoves, kings, impossibleSquares)
      decreases ClosureRounds(SingleKingMoves, k, impossibleSquares)
    {
      var newKings := Expand(SingleKingMoves, k, impossibleSquares);
      if newKings == k {
        return k;
      }
      k := newKings;
    }
  }

  /** Every square the bishops can slide to without crossing `impossibleSquares`. */
  method ComputeBishopMoves(bishops: bv64, impossibleSquares: bv64) returns (r: bv64)
    ensures r == Closure(DiagonalSteps, bishops, impossibleSquares)
  {
    var b := bishops;
    while true
      invariant Closure(DiagonalSteps, b, impossibleSquares) ==
                Closure(DiagonalSteps, bishops, impossibleSquares)
      decreases ClosureRounds(DiagonalSteps, b, impossibleSquares)
    {
      var newBishops := Expand(DiagonalSteps, b, impossibleSquares);
      if newBishops == b {
        return b;
      }
      b := newBishops;
    }
  }

  lemma KingStepsMonotone()
    ensures Monotone(SingleKingMoves)
  {
    forall x: bv64, y: bv64 | Subset(x, y)
      ensures Subset(SingleKingMoves(x), SingleKingMoves(y))
    {
      SingleKingMovesMonotone(x, y);
    }
  }

  lemma DiagonalStepsMonotoneAll()
    ensures Monotone(DiagonalSteps)
  {
    forall x: bv64, y: bv64 | Subset(x, y)
      ensures Subset(DiagonalSteps(x), DiagonalSteps(y))
    {
      DiagonalStepsMonotone(x, y);
    }
  }

  lemma PawnPushesMonotone()
    ensures Monotone(PushNorth) && Monotone(PushSouth)
  {
    forall x: bv64, y: bv64 | Subset(x, y)
      ensures Subset(PushNorth(x), PushNorth(y)) && Subset(PushSouth(x), PushSouth(y))
    {
      PushesMonotone(x, y);
    }
  }

  /** The king and bishop regions are the least regions that hold the first round of the
      loop and that one more round leaves unchanged. */
  lemma KingMovesLeast(kings: bv64, imp: bv64, y: bv64)
    requires Subset(Expand(SingleKingMoves, kings, imp), y) && Expand(SingleKingMoves, y, imp) == y
    ensures Subset(Closure(SingleKingMoves, kings, imp), y)
  {
    KingStepsMonotone();
    ClosureLeast(SingleKingMoves, kings, imp, y);
  }

  lemma BishopMovesLeast(bishops: bv64, imp: bv64, y: bv64)
    requires Subset(Expand(DiagonalSteps, bishops, imp), y) && Expand(DiagonalSteps, y, imp) == y
    ensures Subset(Closure(DiagonalSteps, bishops, imp), y)
  {
    DiagonalStepsMonotoneAll();
    ClosureLeast(DiagonalSteps, bishops, imp, y);
  }

  /** No king has no moves. */
  lemma KingMovesOfNoKing(imp: bv64)
    ensures Closure(SingleKingMoves, 0, imp) == 0
  {
  }

  /** With nothing impossible, a king reaches every square. */
  lemma KingMovesOnOpenBoard(kings: bv64)
    requires kings != 0
    ensures Closure(SingleKingMoves, kings, 0) == FULL_BOARD
  {
    var r := Closure(SingleKingMoves, kings, 0);
    ClosureFacts(SingleKingMoves, kings, 0);
    SingleKingMovesConnected(r);
  }

  /** Bishops on one colour never reach a square of the other. */
  lemma BishopMovesKeepColour(bishops: bv64, imp: bv64)
    ensures Subset(bishops, DARK_SQUARES) ==>
      Subset(Closure(DiagonalSteps, bishops, imp), DARK_SQUARES)
    ensures Subset(bishops, LIGHT_SQUARES) ==>
      Subset(Closure(DiagonalSteps, bishops, imp), LIGHT_SQUARES)
  {
    forall x: bv64 | Subset(x, DARK_SQUARES)
      ensures Subset(DiagonalSteps(x), DARK_SQUARES)
    {
      DiagonalStepsKeepColour(x);
    }
    forall x: bv64 | Subset(x, LIGHT_SQUARES)
      ensures Subset(DiagonalSteps(x), LIGHT_SQUARES)
    {
      DiagonalStepsKeepColour(x);
    }
    if Subset(bishops, DARK_SQUARES) {
      ClosureWithin(DiagonalSteps, bishops, imp, DARK_SQUARES);
    }
    if Subset(bishops, LIGHT_SQUARES) {
      ClosureWithin(DiagonalSteps, bishops, imp, LIGHT_SQUARES);
    }
  }

  /** With nothing impossible, bishops reach every square of their colour. */
  lemma BishopMovesOnOpenBoard(bishops: bv64)
    requires bishops != 0
    ensures Subset(bishops, DARK_SQUARES) ==> Closure(DiagonalSteps, bishops, 0) == DARK_SQUARES
    ensures Subset(bishops, LIGHT_SQUARES) ==> Closure(DiagonalSteps, bishops, 0) == LIGHT_SQUARES
  {
    var r := Closure(DiagonalSteps, bishops, 0);
    ClosureFacts(DiagonalSteps, bishops, 0);
    BishopMovesKeepColour(bishops, 0);
    DiagonalStepsConnected(r);
  }
}
