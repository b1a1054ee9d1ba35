/**
 * Board masks of the dead-position evaluator.
 *
 * A board mask is a 64-bit word; bit `rank * 8 + 7 - file` stands for the square
 * on `rank` (0 = rank 1) and `file` (0 = the a-file).  So each byte of the word is
 * one rank, the a-file is the high bit of its byte, a shift by 8 moves a whole mask
 * one rank and a shift by 1 moves it one file, which is why every sideways step
 * first clears the edge file with ABCDEFG or BCDEFGH.
 *
 * A square index is a `bv6` and a rank or file a `bv3`: the types hold exactly the
 * 64 squares and the 8 ranks or files, and every statement about squares stays in the
 * theory of bit-vectors.
 */
module Bitboard {

  // Files a to g, and files b to h.
  const ABCDEFG: bv64 := 0xFEFE_FEFE_FEFE_FEFE
  const BCDEFGH: bv64 := 0x7F7F_7F7F_7F7F_7F7F
  const RANK_8: bv64 := 0xFF00_0000_0000_0000
  const RANK_1: bv64 := 0x0000_0000_0000_00FF

  const A8: bv64 := 0x8000_0000_0000_0000
  const B8: bv64 := 0x4000_0000_0000_0000
  const G8: bv64 := 0x0200_0000_0000_0000
  const H8: bv64 := 0x0100_0000_0000_0000
  const A7: bv64 := 0x0080_0000_0000_0000
  const H7: bv64 := 0x0001_0000_0000_0000

  const A1: bv64 := 0x0000_0000_0000_0080
  const B1: bv64 := 0x0000_0000_0000_0040
  const G1: bv64 := 0x0000_0000_0000_0002
  const H1: bv64 := 0x0000_0000_0000_0001
  const A2: bv64 := 0x0000_0000_0000_8000
  const H2: bv64 := 0x0000_0000_0000_0100

  // The squares whose rank + file is even (a1 is one of them), and the others.
  const DARK_SQUARES: bv64 := 0x55AA_55AA_55AA_55AA
  const LIGHT_SQUARES: bv64 := 0xAA55_AA55_AA55_AA55

  const FULL_BOARD: bv64 := 0xFFFF_FFFF_FFFF_FFFF

  type Square = bv6
  type Coord = bv3

  function RankOf(sq: Square): Coord { (sq >> 3) as Coord }

  function FileOf(sq: Square): Coord { 7 - (sq & 7) as Coord }

  function SquareAt(rank: Coord, file: Coord): Square { rank as Square * 8 + 7 - file as Square }

  function Mask(sq: Square): bv64 { 1 << sq }

  predicate Has(x: bv64, sq: Square) { (x >> sq) & 1 == 1 }

  predicate Subset(x: bv64, y: bv64) { x & !y == 0 }

  predicate Disjoint(x: bv64, y: bv64) { x & y == 0 }

  lemma SubsetMeet(x: bv64, y: bv64)
    requires Subset(x, y)
    ensures x & y == x
  {
  }

  lemma SubsetTransitive(x: bv64, y: bv64, z: bv64)
    requires Subset(x, y) && Subset(y, z)
    ensures Subset(x, z)
  {
  }

  /** The named masks hold exactly the squares their names say. */
  lemma NamedMasks(sq: Square)
    ensures Has(ABCDEFG, sq) <==> FileOf(sq) != 7
    ensures Has(BCDEFGH, sq) <==> FileOf(sq) != 0
    ensures Has(RANK_8, sq) <==> RankOf(sq) == 7
    ensures Has(RANK_1, sq) <==> RankOf(sq) == 0
    ensures Has(DARK_SQUARES, sq) <==> (RankOf(sq) + FileOf(sq)) & 1 == 0
    ensures LIGHT_SQUARES == !DARK_SQUARES
  {
  }

  /** The corner, flank and guard squares of the four corner-mate patterns. */
  lemma CornerMasks()
    ensures A8 == Mask(SquareAt(7, 0)) && B8 == Mask(SquareAt(7, 1))
    ensures G8 == Mask(SquareAt(7, 6)) && H8 == Mask(SquareAt(7, 7))
    ensures A7 == Mask(SquareAt(6, 0)) && H7 == Mask(SquareAt(6, 7))
    ensures A1 == Mask(SquareAt(0, 0)) && B1 == Mask(SquareAt(0, 1))
    ensures G1 == Mask(SquareAt(0, 6)) && H1 == Mask(SquareAt(0, 7))
    ensures A2 == Mask(SquareAt(1, 0)) && H2 == Mask(SquareAt(1, 7))
  {
  }

  // ---------------------------------------------------------------------------
  // One-step move generators
  // ---------------------------------------------------------------------------

  /** Every square one king step away from some square of `kings`. */
  function SingleKingMoves(kings: bv64): bv64 {
    ((kings & BCDEFGH) << 9) |
    (kings << 8) |
    ((kings & ABCDEFG) << 7) |
    ((kings & BCDEFGH) << 1) |
    ((kings & ABCDEFG) >> 1) |
    ((kings & BCDEFGH) >> 7) |
    (kings >> 8) |
    ((kings & ABCDEFG) >> 9)
  }

  /** Every square one diagonal step away from some square of `bishops`. */
  function DiagonalSteps(bishops: bv64): bv64 {
    ((bishops & BCDEFGH) << 9) |
    ((bishops & ABCDEFG) << 7) |
    ((bishops & BCDEFGH) >> 7) |
    ((bishops & ABCDEFG) >> 9)
  }

  /** The squares white pawns standing on `whitePawns` attack. */
  function WhitePawnAttack(whitePawns: bv64): bv64 {
    ((whitePawns & BCDEFGH) << 9) | ((whitePawns & ABCDEFG) << 7)
  }

  /** The squares black pawns standing on `blackPawns` attack. */
  function BlackPawnAttack(blackPawns: bv64): bv64 {
    ((blackPawns & BCDEFGH) >> 7) | ((blackPawns & ABCDEFG) >> 9)
  }

  function Distance(a: Coord, b: Coord): Coord { if a >= b then a - b else b - a }

  /** The number of king steps between two squares on an empty board. */
  function KingDistance(from: Square, to: Square): Coord {
    var dr := Distance(RankOf(from), RankOf(to));
    var df := Distance(FileOf(from), FileOf(to));
    if dr >= df then dr else df
  }

  /** From one square the king reaches exactly the squares at distance 1, with no wrap
      from the a-file to the h-file. */
  lemma SingleKingMovesGeometry(from: Square, to: Square)
    ensures Has(SingleKingMoves(Mask(from)), to) <==> KingDistance(from, to) == 1
  {
  }

  lemma DiagonalStepsGeometry(from: Square, to: Square)
    ensures Has(DiagonalSteps(Mask(from)), to) <==>
      Distance(RankOf(from), RankOf(to)) == 1 && Distance(FileOf(from), FileOf(to)) == 1
  {
  }

  /** A white pawn attacks the two squares diagonally in front of it (one at the edge). */
  lemma WhitePawnAttackGeometry(from: Square, to: Square)
    ensures Has(WhitePawnAttack(Mask(from)), to) <==>
      RankOf(from) < 7 && RankOf(to) == RankOf(from) + 1 && Distance(FileOf(from), FileOf(to)) == 1
  {
  }

  lemma BlackPawnAttackGeometry(from: Square, to: Square)
    ensures Has(BlackPawnAttack(Mask(from)), to) <==>
      RankOf(from) > 0 && RankOf(to) + 1 == RankOf(from) && Distance(FileOf(from), FileOf(to)) == 1
  {
  }

  /** A shift by 8 is a push one rank towards rank 8 on the same file; off the board
      nothing is left. */
  lemma PushGeometry(from: Square, to: Square)
    ensures Has(Mask(from) << 8, to) <==>
      RankOf(from) < 7 && RankOf(to) == RankOf(from) + 1 && FileOf(to) == FileOf(from)
    ensures Has(Mask(from) >> 8, to) <==>
      RankOf(from) > 0 && RankOf(to) + 1 == RankOf(from) && FileOf(to) == FileOf(from)
  {
  }

  /** The generators work square by square, so they keep inclusion. */
  lemma SingleKingMovesMonotone(x: bv64, y: bv64)
    requires Subset(x, y)
    ensures Subset(SingleKingMoves(x), SingleKingMoves(y))
  {
    SubsetMeet(x, y);
    SingleKingMovesMeet(x, y);
  }

  lemma SingleKingMovesMeet(x: bv64, y: bv64)
    ensures Subset(SingleKingMoves(x & y), SingleKingMoves(y))
  {
  }

  lemma DiagonalStepsMonotone(x: bv64, y: bv64)
    requires Subset(x, y)
    ensures Subset(DiagonalSteps(x), DiagonalSteps(y))
  {
    SubsetMeet(x, y);
    DiagonalStepsMeet(x, y);
  }

  lemma DiagonalStepsMeet(x: bv64, y: bv64)
    ensures Subset(DiagonalSteps(x & y), DiagonalSteps(y))
  {
  }

  /** A diagonal step changes both rank and file by one, so it keeps the square colour. */
  lemma DiagonalStepsKeepColour(x: bv64)
    ensures Subset(x, DARK_SQUARES) ==> Subset(DiagonalSteps(x), DARK_SQUARES)
    ensures Subset(x, LIGHT_SQUARES) ==> Subset(DiagonalSteps(x), LIGHT_SQUARES)
  {
  }

  /** A shift by 8 pushes every square one rank towards rank 8 (white pawns) or rank 1
      (black pawns); what leaves the board is lost. */
  function PushNorth(x: bv64): bv64 { x << 8 }

  function PushSouth(x: bv64): bv64 { x >> 8 }

  lemma PushesMonotone(x: bv64, y: bv64)
    requires Subset(x, y)
    ensures Subset(PushNorth(x), PushNorth(y)) && Subset(PushSouth(x), PushSouth(y))
  {
  }

  /** The king graph is connected: a non-empty region that no king step leaves is the
      whole board. */
  lemma SingleKingMovesConnected(r: bv64)
    requires r != 0 && Subset(SingleKingMoves(r), r)
    ensures r == FULL_BOARD
  {
  }

  /** The squares of one colour are connected by diagonal steps. */
  lemma DiagonalStepsConnected(r: bv64)
    requires r != 0 && Subset(DiagonalSteps(r), r)
    ensures Subset(r, DARK_SQUARES) ==> r == DARK_SQUARES
    ensures Subset(r, LIGHT_SQUARES) ==> r == LIGHT_SQUARES
  {
  }

  /** A non-empty region closed under pushes towards rank 8 has a square on rank 8, and
      one closed under pushes towards rank 1 has a square on rank 1. */
  lemma PushesReachLastRank(r: bv64)
    requires r != 0
    ensures Subset(PushNorth(r), r) ==> r & RANK_8 != 0
    ensures Subset(PushSouth(r), r) ==> r & RANK_1 != 0
  {
  }

  // ---------------------------------------------------------------------------
  // Population count (the evaluator's stand-in for a library bit count)
  // ---------------------------------------------------------------------------

  /** The number of set bits among the low eight bits of `b`. */
  function ByteCount(b: bv64): (n: nat)
    ensures n <= 8
    ensures n == 0 <==> b & 0xFF == 0
  {
    (if b & 0x01 != 0 then 1 else 0) +
    (if b & 0x02 != 0 then 1 else 0) +
    (if b & 0x04 != 0 then 1 else 0) +
    (if b & 0x08 != 0 then 1 else 0) +
    (if b & 0x10 != 0 then 1 else 0) +
    (if b & 0x20 != 0 then 1 else 0) +
    (if b & 0x40 != 0 then 1 else 0) +
    (if b & 0x80 != 0 then 1 else 0)
  }

  /** The number of squares in a mask, counted rank by rank. */
  function Popcount(x: bv64): (n: nat)
    ensures n <= 64
  {
    ByteCount(x) + ByteCount(x >> 8) + ByteCount(x >> 16) + ByteCount(x >> 24) +
    ByteCount(x >> 32) + ByteCount(x >> 40) + ByteCount(x >> 48) + ByteCount(x >> 56)
  }

  lemma ByteCountMonotone(a: bv64, b: bv64)
    requires Subset(a, b)
    ensures ByteCount(a) <= ByteCount(b)
    ensures a & 0xFF != b & 0xFF ==> ByteCount(a) < ByteCount(b)
  {
  }

  lemma SomeRankDiffers(x: bv64, y: bv64)
    requires x != y
    ensures
      || x & 0xFF != y & 0xFF
      || (x >> 8) & 0xFF != (y >> 8) & 0xFF
      || (x >> 16) & 0xFF != (y >> 16) & 0xFF
      || (x >> 24) & 0xFF != (y >> 24) & 0xFF
      || (x >> 32) & 0xFF != (y >> 32) & 0xFF
      || (x >> 40) & 0xFF != (y >> 40) & 0xFF
      || (x >> 48) & 0xFF != (y >> 48) & 0xFF
      || (x >> 56) & 0xFF != (y >> 56) & 0xFF
  {
  }

  lemma RanksSubset(x: bv64, y: bv64)
    requires Subset(x, y)
    ensures Subset(x >> 8, y >> 8) && Subset(x >> 16, y >> 16) && Subset(x >> 24, y >> 24)
    ensures Subset(x >> 32, y >> 32) && Subset(x >> 40, y >> 40) && Subset(x >> 48, y >> 48)
    ensures Subset(x >> 56, y >> 56)
  {
  }

  /** A mask that grows by at least one square has a larger count; since a count is at
      most 64, a mask can grow at most 64 times. */
  lemma PopcountGrows(x: bv64, y: bv64)
    requires Subset(x, y) && x != y
    ensures Popcount(x) < Popcount(y)
  {
    SomeRankDiffers(x, y);
    RanksSubset(x, y);
    ByteCountMonotone(x, y);
    ByteCountMonotone(x >> 8, y >> 8);
    ByteCountMonotone(x >> 16, y >> 16);
    ByteCountMonotone(x >> 24, y >> 24);
    ByteCountMonotone(x >> 32, y >> 32);
    ByteCountMonotone(x >> 40, y >> 40);
    ByteCountMonotone(x >> 48, y >> 48);
    ByteCountMonotone(x >> 56, y >> 56);
  }

  /** The count is zero only for the empty mask, and one for a single square. */
  lemma PopcountZero(x: bv64)
    ensures Popcount(x) == 0 <==> x == 0
  {
  }

  lemma PopcountOfSquare(sq: Square)
    ensures Popcount(Mask(sq)) == 1
  {
  }

  /** The evaluator only ever asks whether a side has more than one bishop: that is
      exactly when the mask holds two different squares. */
  lemma PopcountAboveOne(x: bv64)
    ensures Popcount(x) > 1 <==> exists a: Square, b: Square :: a != b && Subset(Mask(a) | Mask(b), x)
  {
    if Popcount(x) > 1 {
      var a, b := TwoSquares(x);
    }
    if exists a: Square, b: Square :: a != b && Subset(Mask(a) | Mask(b), x) {
      var a: Square, b: Square :| a != b && Subset(Mask(a) | Mask(b), x);
      TwoSquaresCount(x, a, b);
    }
  }

  lemma TwoSquares(x: bv64) returns (a: Square, b: Square)
    requires Popcount(x) > 1
    ensures a != b && Subset(Mask(a) | Mask(b), x)
  {
    PopcountZero(x);
    a := SomeSquare(x);
    PopcountOfSquare(a);
    b := OtherSquare(x, a);
  }

  lemma OtherSquare(x: bv64, a: Square) returns (b: Square)
    requires Subset(Mask(a), x) && x != Mask(a)
    ensures a != b && Subset(Mask(a) | Mask(b), x)
  {
    b := SomeSquare(x & !Mask(a));
  }

  lemma TwoSquaresCount(x: bv64, a: Square, b: Square)
    requires a != b && Subset(Mask(a) | Mask(b), x)
    ensures Popcount(x) > 1
  {
    PopcountOfSquare(a);
    PopcountGrows(Mask(a), Mask(a) | Mask(b));
    if x != Mask(a) | Mask(b) {
      PopcountGrows(Mask(a) | Mask(b), x);
    }
  }

  /** The squares whose index is at least `sq`. */
  function SquaresFrom(sq: Square): bv64 { !(Mask(sq) - 1) }

  /** A square of a non-empty mask. */
  lemma SomeSquare(x: bv64) returns (sq: Square)
    requires x != 0
    ensures Subset(Mask(sq), x)
  {
    assert SquaresFrom(0) == FULL_BOARD;
    sq := SquareFrom(x, 0);
  }

  lemma SquareFrom(x: bv64, from: Square) returns (sq: Square)
    requires x & SquaresFrom(from) != 0
    ensures Subset(Mask(sq), x)
    decreases 63 - from as int
  {
    if x & Mask(from) != 0 {
      MeetsSquare(x, from);
      return from;
    }
    NextSquare(x, from);
    sq := SquareFrom(x, from + 1);
  }

  lemma MeetsSquare(x: bv64, sq: Square)
    requires x & Mask(sq) != 0
    ensures Subset(Mask(sq), x)
  {
  }

  lemma NextSquare(x: bv64, from: Square)
    requires x & SquaresFrom(from) != 0 && x & Mask(from) == 0
    ensures from != 63 && x & SquaresFrom(from + 1) != 0
  {
  }
}
