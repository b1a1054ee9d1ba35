/**
 * What the verdict means for a few families of positions: a bare board and a side
 * without bishops are dead, free pawns promote, the bishops of opposite colours
 * cannot meet and those of one colour always can.
 */
module Verdicts {
  import opened Bitboard
  import opened Closures
  import opened Moves
  import opened Evaluator

  /** With no pawns and no bishops the position is dead, wherever the kings stand. */
  lemma BareBoardIsDead(whiteKings: bv64, blackKings: bv64)
    ensures DeadPosition(whiteKings, blackKings, 0, 0, 0, 0)
  {
  }

  /** A white pawn with no black pawn ever in front of it walks to rank 8. */
  lemma FreeWhitePawnsPromote(whitePawns: bv64, blackPawns: bv64)
    requires whitePawns != 0 && BlockedBlackPawns(whitePawns, blackPawns) == 0
    ensures WhitePromotes(WhitePawnMoves(whitePawns, blackPawns))
  {
    var r := Reach(PushNorth, whitePawns, 0);
    ReachFacts(PushNorth, whitePawns, 0);
    assert r != 0;
    assert Subset(PushNorth(r), r);
    PushesReachLastRank(r);
  }

  lemma FreeBlackPawnsPromote(whitePawns: bv64, blackPawns: bv64)
    requires blackPawns != 0 && BlockedWhitePawns(whitePawns, blackPawns) == 0
    ensures BlackPromotes(BlackPawnMoves(whitePawns, blackPawns))
  {
    var r := Reach(PushSouth, blackPawns, 0);
    ReachFacts(PushSouth, blackPawns, 0);
    assert r != 0;
    assert Subset(PushSouth(r), r);
    PushesReachLastRank(r);
  }

  /** When no pawn is blocked head on, any pawn at all keeps the game alive. */
  lemma FreePawnsKeepAlive(whiteKings: bv64, blackKings: bv64, whitePawns: bv64, blackPawns: bv64,
                           whiteBishops: bv64, blackBishops: bv64)
    requires whitePawns != 0 || blackPawns != 0
    requires BlockedWhitePawns(whitePawns, blackPawns) == 0
    ensures !DeadPosition(whiteKings, blackKings, whitePawns, blackPawns, whiteBishops, blackBishops)
  {
    BlockedPawnsFacing(whitePawns, blackPawns);
    if whitePawns != 0 {
      FreeWhitePawnsPromote(whitePawns, blackPawns);
    } else {
      FreeBlackPawnsPromote(whitePawns, blackPawns);
    }
    PromotionKeepsAlive(whiteKings, blackKings, whitePawns, blackPawns, whiteBishops, blackBishops);
  }

  /** With no pawns, a side without bishops can neither capture nor mate, nor be
      captured, nor be mated. */
  lemma NoPawnsOneSideBishopless(whiteKings: bv64, blackKings: bv64,
                                 whiteBishops: bv64, blackBishops: bv64)
    requires whiteBishops == 0 || blackBishops == 0
    ensures DeadPosition(whiteKings, blackKings, 0, 0, whiteBishops, blackBishops)
  {
    var wb := WhiteBishopMoves(whiteBishops, 0, 0);
    var bb := BlackBishopMoves(blackBishops, 0, 0);
    NoPawnRegions(whiteBishops, blackBishops);
    QuietWithoutPawns(WhiteKingMoves(whiteKings, 0, 0), BlackKingMoves(blackKings, 0, 0), wb, bb,
                      Popcount(whiteBishops), Popcount(blackBishops));
    QuietIsDead(whiteKings, blackKings, 0, 0, whiteBishops, blackBishops);
  }

  /** With no pawns nothing is blocked, the pawn regions are empty, and a side without
      bishops has an empty bishop region. */
  lemma NoPawnRegions(whiteBishops: bv64, blackBishops: bv64)
    ensures BlockedWhitePawns(0, 0) == 0 && BlockedBlackPawns(0, 0) == 0
    ensures WhitePawnMoves(0, 0) == 0 && BlackPawnMoves(0, 0) == 0
    ensures whiteBishops == 0 ==> WhiteBishopMoves(whiteBishops, 0, 0) == 0
    ensures blackBishops == 0 ==> BlackBishopMoves(blackBishops, 0, 0) == 0
  {
  }

  /** With empty pawn regions and bishop regions that do not meet, nothing can be
      captured. */
  lemma NoCapturesWithoutPawns(wk: bv64, bk: bv64, wb: bv64, bb: bv64)
    requires wb & bb == 0
    ensures !WhiteCaptures(0, 0, wb, bb) && !BlackCaptures(0, 0, wb, bb)
    ensures !WhiteKingCaptures(0, wk) && !BlackKingCaptures(0, bk)
  {
  }

  /** Without a pawn beside the corner, a corner mate needs the mated side to have two
      bishops, and one bishop of each side. */
  lemma NoMateOfBlackWithoutPawns(bp: bv64, bk: bv64, wb: bv64, bb: bv64, blackBishops: nat)
    requires bp & A7 == 0 && bp & H7 == 0
    requires blackBishops <= 1 || wb == 0 || bb == 0
    ensures !MateOnA8(bp, bk, wb, bb, blackBishops) && !MateOnH8(bp, bk, wb, bb, blackBishops)
  {
  }

  lemma NoMateOfWhiteWithoutPawns(wp: bv64, wk: bv64, wb: bv64, bb: bv64, whiteBishops: nat)
    requires wp & A2 == 0 && wp & H2 == 0
    requires whiteBishops <= 1 || wb == 0 || bb == 0
    ensures !MateOnA1(wp, wk, wb, bb, whiteBishops) && !MateOnH1(wp, wk, wb, bb, whiteBishops)
  {
  }

  lemma QuietWithoutPawns(wk: bv64, bk: bv64, wb: bv64, bb: bv64, whiteBishops: nat, blackBishops: nat)
    requires wb & bb == 0
    requires (whiteBishops <= 1 && blackBishops <= 1) || wb == 0 || bb == 0
    ensures !PlayGoesOn(0, 0, wk, bk, wb, bb, whiteBishops, blackBishops)
  {
    NoCapturesWithoutPawns(wk, bk, wb, bb);
    NoMateOfBlackWithoutPawns(0, bk, wb, bb, blackBishops);
    NoMateOfWhiteWithoutPawns(0, wk, wb, bb, whiteBishops);
  }

  /** With no pawns, one bishop a side on opposite colours: the bishops never meet, and
      no corner mate is possible without a second bishop. */
  lemma NoPawnsOppositeColourBishops(whiteKings: bv64, blackKings: bv64,
                                     whiteBishops: bv64, blackBishops: bv64)
    requires (Subset(whiteBishops, DARK_SQUARES) && Subset(blackBishops, LIGHT_SQUARES)) ||
             (Subset(whiteBishops, LIGHT_SQUARES) && Subset(blackBishops, DARK_SQUARES))
    requires Popcount(whiteBishops) <= 1 && Popcount(blackBishops) <= 1
    ensures DeadPosition(whiteKings, blackKings, 0, 0, whiteBishops, blackBishops)
  {
    var wb := WhiteBishopMoves(whiteBishops, 0, 0);
    var bb := BlackBishopMoves(blackBishops, 0, 0);
    NoPawnRegions(whiteBishops, blackBishops);
    BishopMovesKeepColour(whiteBishops, 0);
    BishopMovesKeepColour(blackBishops, 0);
    ColoursApart(wb, bb);
    QuietWithoutPawns(WhiteKingMoves(whiteKings, 0, 0), BlackKingMoves(blackKings, 0, 0), wb, bb,
                      Popcount(whiteBishops), Popcount(blackBishops));
    QuietIsDead(whiteKings, blackKings, 0, 0, whiteBishops, blackBishops);
  }

  lemma ColoursApart(x: bv64, y: bv64)
    requires (Subset(x, DARK_SQUARES) && Subset(y, LIGHT_SQUARES)) ||
             (Subset(x, LIGHT_SQUARES) && Subset(y, DARK_SQUARES))
    ensures x & y == 0
  {
  }

  /** With no pawns, bishops of both sides on one colour can always meet. */
  lemma NoPawnsSameColourBishops(whiteKings: bv64, blackKings: bv64,
                                 whiteBishops: bv64, blackBishops: bv64)
    requires whiteBishops != 0 && blackBishops != 0
    requires (Subset(whiteBishops, DARK_SQUARES) && Subset(blackBishops, DARK_SQUARES)) ||
             (Subset(whiteBishops, LIGHT_SQUARES) && Subset(blackBishops, LIGHT_SQUARES))
    ensures !DeadPosition(whiteKings, blackKings, 0, 0, whiteBishops, blackBishops)
  {
    assert BlockedWhitePawns(0, 0) == 0 && BlockedBlackPawns(0, 0) == 0;
    BishopMovesOnOpenBoard(whiteBishops);
    BishopMovesOnOpenBoard(blackBishops);
    var wb := WhiteBishopMoves(whiteBishops, 0, 0);
    var bb := BlackBishopMoves(blackBishops, 0, 0);
    assert wb == bb && wb != 0;
    assert WhiteCaptures(WhitePawnMoves(0, 0), BlackPawnMoves(0, 0), wb, bb);
  }
}
