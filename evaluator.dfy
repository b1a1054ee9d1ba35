/**
 * The dead-position evaluator: a position holding only kings, pawns and bishops is
 * judged dead unless pawns can promote, a piece can capture an enemy pawn or bishop,
 * a king can capture an enemy pawn, or one of four corner mates is possible.
 *
 * `DeadPosition` states the verdict as one formula over the regions the pieces can
 * reach; `IsDeadPosition` is the evaluator's sequence of loops and early returns,
 * proved to agree.  `Dead` and `IsDead` apply them to the six masks of a `State`.
 */
module Evaluator {
  import opened Bitboard
  import opened Closures
  import opened Moves

  /** Where the pieces of each kind stand, one mask per kind and colour, and the side to
      move (0 for white, 1 for black). */
  datatype State = State(
    whiteKings: bv64, blackKings: bv64,
    whitePawns: bv64, blackPawns: bv64,
    whiteBishops: bv64, blackBishops: bv64,
    turn: int)

  // Every function below takes the masks themselves rather than a `State`: the
  // verdict is a formula over plain words.

  /** White pawns with a black pawn directly in front of them. */
  function BlockedWhitePawns(whitePawns: bv64, blackPawns: bv64): bv64 {
    ((whitePawns << 8) & blackPawns) >> 8
  }

  /** Black pawns with a white pawn directly in front of them. */
  function BlockedBlackPawns(whitePawns: bv64, blackPawns: bv64): bv64 {
    ((blackPawns >> 8) & whitePawns) << 8
  }

  /** The blocked pawns come in facing pairs: each blocked black pawn stands one rank
      above a blocked white pawn. */
  lemma BlockedPawnsFacing(whitePawns: bv64, blackPawns: bv64)
    ensures BlockedBlackPawns(whitePawns, blackPawns) == BlockedWhitePawns(whitePawns, blackPawns) << 8
  {
  }

  /** Each blocked set holds only pawns of its own side. */
  lemma BlockedPawnsOwn(whitePawns: bv64, blackPawns: bv64)
    ensures Subset(BlockedWhitePawns(whitePawns, blackPawns), whitePawns)
    ensures Subset(BlockedBlackPawns(whitePawns, blackPawns), blackPawns)
  {
  }

  // The regions the pieces can reach.  Pawns walk forward until blocked head on; a king
  // avoids the squares the blocked enemy pawns attack and its own blocked pawns; a
  // bishop avoids its own blocked pawns.

  function WhitePawnMoves(whitePawns: bv64, blackPawns: bv64): bv64 {
    Reach(PushNorth, whitePawns, BlockedBlackPawns(whitePawns, blackPawns))
  }

  function BlackPawnMoves(whitePawns: bv64, blackPawns: bv64): bv64 {
    Reach(PushSouth, blackPawns, BlockedWhitePawns(whitePawns, blackPawns))
  }

  /** The pawn regions are the least regions that hold the pawns and that one more push
      round leaves unchanged, and beyond the pawns themselves they hold no blocked
      square. */
  lemma WhitePawnMovesLeast(whitePawns: bv64, blackPawns: bv64, y: bv64)
    requires Subset(whitePawns, y) && Advance(PushNorth, y, BlockedBlackPawns(whitePawns, blackPawns)) == y
    ensures Subset(WhitePawnMoves(whitePawns, blackPawns), y)
  {
    PawnPushesMonotone();
    ReachLeast(PushNorth, whitePawns, BlockedBlackPawns(whitePawns, blackPawns), y);
  }

  lemma BlackPawnMovesLeast(whitePawns: bv64, blackPawns: bv64, y: bv64)
    requires Subset(blackPawns, y) && Advance(PushSouth, y, BlockedWhitePawns(whitePawns, blackPawns)) == y
    ensures Subset(BlackPawnMoves(whitePawns, blackPawns), y)
  {
    PawnPushesMonotone();
    ReachLeast(PushSouth, blackPawns, BlockedWhitePawns(whitePawns, blackPawns), y);
  }

  lemma PawnMovesAvoidBlocks(whitePawns: bv64, blackPawns: bv64)
    ensures Subset(WhitePawnMoves(whitePawns, blackPawns), whitePawns | !BlockedBlackPawns(whitePawns, blackPawns))
    ensures Subset(BlackPawnMoves(whitePawns, blackPawns), blackPawns | !BlockedWhitePawns(whitePawns, blackPawns))
  {
    ReachAvoids(PushNorth, whitePawns, BlockedBlackPawns(whitePawns, blackPawns));
    ReachAvoids(PushSouth, blackPawns, BlockedWhitePawns(whitePawns, blackPawns));
  }

  /** The squares the white king can never enter: those the blocked black pawns attack and
      those its own blocked pawns stand on. */
  function WhiteKingBarrier(whitePawns: bv64, blackPawns: bv64): bv64 {
    BlackPawnAttack(BlockedBlackPawns(whitePawns, blackPawns)) | BlockedWhitePawns(whitePawns, blackPawns)
  }

  function BlackKingBarrier(whitePawns: bv64, blackPawns: bv64): bv64 {
    WhitePawnAttack(BlockedWhitePawns(whitePawns, blackPawns)) | BlockedBlackPawns(whitePawns, blackPawns)
  }

  function WhiteKingMoves(whiteKings: bv64, whitePawns: bv64, blackPawns: bv64): bv64 {
    Closure(SingleKingMoves, whiteKings, WhiteKingBarrier(whitePawns, blackPawns))
  }

  function BlackKingMoves(blackKings: bv64, whitePawns: bv64, blackPawns: bv64): bv64 {
    Closure(SingleKingMoves, blackKings, BlackKingBarrier(whitePawns, blackPawns))
  }

  function WhiteBishopMoves(whiteBishops: bv64, whitePawns: bv64, blackPawns: bv64): bv64 {
    Closure(DiagonalSteps, whiteBishops, BlockedWhitePawns(whitePawns, blackPawns))
  }

  function BlackBishopMoves(blackBishops: bv64, whitePawns: bv64, blackPawns: bv64): bv64 {
    Closure(DiagonalSteps, blackBishops, BlockedBlackPawns(whitePawns, blackPawns))
  }

  // The tests, each a reason the position is not dead, over the regions (`wp` for the
  // white pawns' region, `bk` for the black king's, and so on).

  /** A white pawn can reach rank 8, or a black pawn rank 1. */
  predicate WhitePromotes(wp: bv64) {
    wp & RANK_8 != 0
  }

  predicate BlackPromotes(bp: bv64) {
    bp & RANK_1 != 0
  }

  /** A white pawn or bishop can reach a square some black pawn or bishop can reach. */
  predicate WhiteCaptures(wp: bv64, bp: bv64, wb: bv64, bb: bv64) {
    (WhitePawnAttack(wp) | wb) & (bp | bb) != 0
  }

  predicate BlackCaptures(wp: bv64, bp: bv64, wb: bv64, bb: bv64) {
    (BlackPawnAttack(bp) | bb) & (wp | wb) != 0
  }

  /** A king can reach a square an enemy pawn can reach. */
  predicate WhiteKingCaptures(bp: bv64, wk: bv64) {
    wk & bp != 0
  }

  predicate BlackKingCaptures(wp: bv64, bk: bv64) {
    bk & wp != 0
  }

  /** The black king mated on a8 by a white bishop, with its own bishop on b8 and its own
      pawn or a second bishop on a7; likewise on h8, and the white king on a1 and h1. */
  predicate MateOnA8(bp: bv64, bk: bv64, wb: bv64, bb: bv64, bishops: nat) {
    wb & A8 != 0 && bk & A8 != 0 && bb & B8 != 0 && (bp & A7 != 0 || bishops > 1)
  }

  predicate MateOnH8(bp: bv64, bk: bv64, wb: bv64, bb: bv64, bishops: nat) {
    wb & H8 != 0 && bk & H8 != 0 && bb & G8 != 0 && (bp & H7 != 0 || bishops > 1)
  }

  predicate MateOnA1(wp: bv64, wk: bv64, wb: bv64, bb: bv64, bishops: nat) {
    bb & A1 != 0 && wk & A1 != 0 && wb & B1 != 0 && (wp & A2 != 0 || bishops > 1)
  }

  predicate MateOnH1(wp: bv64, wk: bv64, wb: bv64, bb: bv64, bishops: nat) {
    bb & H1 != 0 && wk & H1 != 0 && wb & G1 != 0 && (wp & H2 != 0 || bishops > 1)
  }

  /** Some capture, by a pawn, a bishop or a king, is possible. */
  predicate CapturePossible(wp: bv64, bp: bv64, wk: bv64, bk: bv64, wb: bv64, bb: bv64) {
    WhiteCaptures(wp, bp, wb, bb) || BlackCaptures(wp, bp, wb, bb) ||
    WhiteKingCaptures(bp, wk) || BlackKingCaptures(wp, bk)
  }

  /** The black king can be mated in a corner of rank 8, or the white king in a corner
      of rank 1; `whiteBishops` and `blackBishops` count the bishops each side has. */
  predicate BlackCornerMate(bp: bv64, bk: bv64, wb: bv64, bb: bv64, blackBishops: nat) {
    MateOnA8(bp, bk, wb, bb, blackBishops) || MateOnH8(bp, bk, wb, bb, blackBishops)
  }

  predicate WhiteCornerMate(wp: bv64, wk: bv64, wb: bv64, bb: bv64, whiteBishops: nat) {
    MateOnA1(wp, wk, wb, bb, whiteBishops) || MateOnH1(wp, wk, wb, bb, whiteBishops)
  }

  /** Some corner mate is possible. */
  predicate CornerMatePossible(wp: bv64, bp: bv64, wk: bv64, bk: bv64, wb: bv64, bb: bv64,
                               whiteBishops: nat, blackBishops: nat) {
    BlackCornerMate(bp, bk, wb, bb, blackBishops) || WhiteCornerMate(wp, wk, wb, bb, whiteBishops)
  }

  /** Some capture or corner mate is possible. */
  predicate PlayGoesOn(wp: bv64, bp: bv64, wk: bv64, bk: bv64, wb: bv64, bb: bv64,
                       whiteBishops: nat, blackBishops: nat) {
    CapturePossible(wp, bp, wk, bk, wb, bb) ||
    CornerMatePossible(wp, bp, wk, bk, wb, bb, whiteBishops, blackBishops)
  }

  /** The verdict: dead when there are no pawns or bishops at all, and otherwise exactly
      when no pawn can promote and no capture or corner mate is possible. */
  predicate DeadPosition(whiteKings: bv64, blackKings: bv64, whitePawns: bv64, blackPawns: bv64,
                         whiteBishops: bv64, blackBishops: bv64) {
    var wp := WhitePawnMoves(whitePawns, blackPawns);
    var bp := BlackPawnMoves(whitePawns, blackPawns);
    (whitePawns == 0 && blackPawns == 0 && whiteBishops == 0 && blackBishops == 0) ||
    !(WhitePromotes(wp) || BlackPromotes(bp) ||
      PlayGoesOn(wp, bp,
        WhiteKingMoves(whiteKings, whitePawns, blackPawns), BlackKingMoves(blackKings, whitePawns, blackPawns),
        WhiteBishopMoves(whiteBishops, whitePawns, blackPawns), BlackBishopMoves(blackBishops, whitePawns, blackPawns),
        Popcount(whiteBishops), Popcount(blackBishops)))
  }

  predicate Dead(s: State) {
    DeadPosition(s.whiteKings, s.blackKings, s.whitePawns, s.blackPawns, s.whiteBishops, s.blackBishops)
  }

  /** The evaluator's entry point; `Turn` plays no part. */
  method IsDead(s: State) returns (dead: bool)
    ensures dead == Dead(s)
  {
    dead := IsDeadPosition(s.whiteKings, s.blackKings, s.whitePawns, s.blackPawns,
                           s.whiteBishops, s.blackBishops);
  }

  method IsDeadPosition(whiteKings: bv64, blackKings: bv64, whitePawns: bv64, blackPawns: bv64,
                        whiteBishops: bv64, blackBishops: bv64) returns (dead: bool)
    ensures dead == DeadPosition(whiteKings, blackKings, whitePawns, blackPawns, whiteBishops, blackBishops)
  {
    if whitePawns == 0 && blackPawns == 0 && whiteBishops == 0 && blackBishops == 0 {
      return true;
    }
    var blockedWhitePawns := BlockedWhitePawns(whitePawns, blackPawns);
    var blockedBlackPawns := BlockedBlackPawns(whitePawns, blackPawns);

    var whitePawnMoves := ComputeWhitePawnMoves(whitePawns, blockedBlackPawns);
    var blackPawnMoves := ComputeBlackPawnMoves(blackPawns, blockedWhitePawns);

    if WhitePromotes(whitePawnMoves) || BlackPromotes(blackPawnMoves) {
      PromotionKeepsAlive(whiteKings, blackKings, whitePawns, blackPawns, whiteBishops, blackBishops);
      return false;
    }

    var whiteKingMoves := ComputeKingMoves(whiteKings, WhiteKingBarrier(whitePawns, blackPawns));
    var blackKingMoves := ComputeKingMoves(blackKings, BlackKingBarrier(whitePawns, blackPawns));

    var whiteBishopMoves := ComputeBishopMoves(whiteBishops, blockedWhitePawns);
    var blackBishopMoves := ComputeBishopMoves(blackBishops, blockedBlackPawns);

    var goesOn := CheckPlay(whitePawnMoves, blackPawnMoves, whiteKingMoves, blackKingMoves,
                            whiteBishopMoves, blackBishopMoves, Popcount(whiteBishops), Popcount(blackBishops));
    if goesOn {
      PlayKeepsAlive(whiteKings, blackKings, whitePawns, blackPawns, whiteBishops, blackBishops);
      return false;
    }
    QuietIsDead(whiteKings, blackKings, whitePawns, blackPawns, whiteBishops, blackBishops);
    return true;
  }

  lemma PromotionKeepsAlive(whiteKings: bv64, blackKings: bv64, whitePawns: bv64, blackPawns: bv64,
                            whiteBishops: bv64, blackBishops: bv64)
    requires !(whitePawns == 0 && blackPawns == 0 && whiteBishops == 0 && blackBishops == 0)
    requires WhitePromotes(WhitePawnMoves(whitePawns, blackPawns)) || BlackPromotes(BlackPawnMoves(whitePawns, blackPawns))
    ensures !DeadPosition(whiteKings, blackKings, whitePawns, blackPawns, whiteBishops, blackBishops)
  {
  }

  lemma PlayKeepsAlive(whiteKings: bv64, blackKings: bv64, whitePawns: bv64, blackPawns: bv64,
                       whiteBishops: bv64, blackBishops: bv64)
    requires !(whitePawns == 0 && blackPawns == 0 && whiteBishops == 0 && blackBishops == 0)
    requires PlayGoesOn(WhitePawnMoves(whitePawns, blackPawns), BlackPawnMoves(whitePawns, blackPawns),
        WhiteKingMoves(whiteKings, whitePawns, blackPawns), BlackKingMoves(blackKings, whitePawns, blackPawns),
        WhiteBishopMoves(whiteBishops, whitePawns, blackPawns), BlackBishopMoves(blackBishops, whitePawns, blackPawns),
        Popcount(whiteBishops), Popcount(blackBishops))
    ensures !DeadPosition(whiteKings, blackKings, whitePawns, blackPawns, whiteBishops, blackBishops)
  {
  }

  lemma QuietIsDead(whiteKings: bv64, blackKings: bv64, whitePawns: bv64, blackPawns: bv64,
                    whiteBishops: bv64, blackBishops: bv64)
    requires !(WhitePromotes(WhitePawnMoves(whitePawns, blackPawns)) || BlackPromotes(BlackPawnMoves(whitePawns, blackPawns)))
    requires !PlayGoesOn(WhitePawnMoves(whitePawns, blackPawns), BlackPawnMoves(whitePawns, blackPawns),
        WhiteKingMoves(whiteKings, whitePawns, blackPawns), BlackKingMoves(blackKings, whitePawns, blackPawns),
        WhiteBishopMoves(whiteBishops, whitePawns, blackPawns), BlackBishopMoves(blackBishops, whitePawns, blackPawns),
        Popcount(whiteBishops), Popcount(blackBishops))
    ensures DeadPosition(whiteKings, blackKings, whitePawns, blackPawns, whiteBishops, blackBishops)
  {
  }

  /** The capture and corner-mate tests, in the evaluator's order. */
  method CheckPlay(whitePawnMoves: bv64, blackPawnMoves: bv64, whiteKingMoves: bv64, blackKingMoves: bv64,
                   whiteBishopMoves: bv64, blackBishopMoves: bv64, whiteBishops: nat, blackBishops: nat)
    returns (goesOn: bool)
    ensures goesOn == PlayGoesOn(whitePawnMoves, blackPawnMoves, whiteKingMoves, blackKingMoves,
                                 whiteBishopMoves, blackBishopMoves, whiteBishops, blackBishops)
  {
    goesOn := CheckCaptures(whitePawnMoves, blackPawnMoves, whiteKingMoves, blackKingMoves,
                            whiteBishopMoves, blackBishopMoves);
    if goesOn {
      return;
    }
    goesOn := CheckCornerMates(whitePawnMoves, blackPawnMoves, whiteKingMoves, blackKingMoves,
                               whiteBishopMoves, blackBishopMoves, whiteBishops, blackBishops);
  }

  /** The four capture tests. */
  method CheckCaptures(whitePawnMoves: bv64, blackPawnMoves: bv64, whiteKingMoves: bv64, blackKingMoves: bv64,
                       whiteBishopMoves: bv64, blackBishopMoves: bv64)
    returns (captures: bool)
    ensures captures == CapturePossible(whitePawnMoves, blackPawnMoves, whiteKingMoves, blackKingMoves,
                                        whiteBishopMoves, blackBishopMoves)
  {
    if WhiteCaptures(whitePawnMoves, blackPawnMoves, whiteBishopMoves, blackBishopMoves) {
      return true;
    }
    if BlackCaptures(whitePawnMoves, blackPawnMoves, whiteBishopMoves, blackBishopMoves) {
      return true;
    }
    if WhiteKingCaptures(blackPawnMoves, whiteKingMoves) {
      return true;
    }
    return BlackKingCaptures(whitePawnMoves, blackKingMoves);
  }

  /** The four corner-mate tests. */
  method CheckCornerMates(whitePawnMoves: bv64, blackPawnMoves: bv64, whiteKingMoves: bv64, blackKingMoves: bv64,
                          whiteBishopMoves: bv64, blackBishopMoves: bv64, whiteBishops: nat, blackBishops: nat)
    returns (mates: bool)
    ensures mates == CornerMatePossible(whitePawnMoves, blackPawnMoves, whiteKingMoves, blackKingMoves,
                                        whiteBishopMoves, blackBishopMoves, whiteBishops, blackBishops)
  {
    mates := CheckBlackCornerMate(blackPawnMoves, blackKingMoves, whiteBishopMoves, blackBishopMoves, blackBishops);
    if mates {
      return;
    }
    mates := CheckWhiteCornerMate(whitePawnMoves, whiteKingMoves, whiteBishopMoves, blackBishopMoves, whiteBishops);
  }

  /** The mate tests on a8 and h8. */
  method CheckBlackCornerMate(blackPawnMoves: bv64, blackKingMoves: bv64, whiteBishopMoves: bv64,
                              blackBishopMoves: bv64, blackBishops: nat)
    returns (mate: bool)
    ensures mate == BlackCornerMate(blackPawnMoves, blackKingMoves, whiteBishopMoves, blackBishopMoves, blackBishops)
  {
    if MateOnA8(blackPawnMoves, blackKingMoves, whiteBishopMoves, blackBishopMoves, blackBishops) {
      return true;
    }
    return MateOnH8(blackPawnMoves, blackKingMoves, whiteBishopMoves, blackBishopMoves, blackBishops);
  }

  /** The mate tests on a1 and h1. */
  method CheckWhiteCornerMate(whitePawnMoves: bv64, whiteKingMoves: bv64, whiteBishopMoves: bv64,
                              blackBishopMoves: bv64, whiteBishops: nat)
    returns (mate: bool)
    ensures mate == WhiteCornerMate(whitePawnMoves, whiteKingMoves, whiteBishopMoves, blackBishopMoves, whiteBishops)
  {
    if MateOnA1(whitePawnMoves, whiteKingMoves, whiteBishopMoves, blackBishopMoves, whiteBishops) {
      return true;
    }
    return MateOnH1(whitePawnMoves, whiteKingMoves, whiteBishopMoves, blackBishopMoves, whiteBishops);
  }

  method ComputeWhitePawnMoves(whitePawns: bv64, blockedBlackPawns: bv64) returns (r: bv64)
    ensures r == Reach(PushNorth, whitePawns, blockedBlackPawns)
  {
    r := whitePawns;
    while true
      invariant Reach(PushNorth, r, blockedBlackPawns) == Reach(PushNorth, whitePawns, blockedBlackPawns)
      decreases ReachRounds(PushNorth, r, blockedBlackPawns)
    {
      var next := Advance(PushNorth, r, blockedBlackPawns);
      if next == r {
        return r;
      }
      r := next;
    }
  }

  method ComputeBlackPawnMoves(blackPawns: bv64, blockedWhitePawns: bv64) returns (r: bv64)
    ensures r == Reach(PushSouth, blackPawns, blockedWhitePawns)
  {
    r := blackPawns;
    while true
      invariant Reach(PushSouth, r, blockedWhitePawns) == Reach(PushSouth, blackPawns, blockedWhitePawns)
      decreases ReachRounds(PushSouth, r, blockedWhitePawns)
    {
      var next := Advance(PushSouth, r, blockedWhitePawns);
      if next == r {
        return r;
      }
      r := next;
    }
  }
}
