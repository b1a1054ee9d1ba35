/**
 * The fixed-point closures the evaluator iterates: a region grows by one step of a
 * move generator until it stops changing.
 *
 * Two shapes occur.  Kings and bishops use `Expand`: OR in one step, then clear the
 * impossible squares, so even a seed square that is impossible is dropped (after it
 * has been stepped from once).  Pawns use `Advance`: OR in the step minus the blocked
 * squares, so the seed itself is always kept.  Both are stated once here, for any step
 * function; the evaluator instantiates them with the generators of `Bitboard`.
 */
module Closures {
  import opened Bitboard

  /** A step function is monotone when a larger region never steps to fewer squares. */
  ghost predicate Monotone(step: bv64 -> bv64) {
    forall x: bv64, y: bv64 :: Subset(x, y) ==> Subset(step(x), step(y))
  }

  /** A step function keeps `region` when it never leaves it. */
  ghost predicate Keeps(step: bv64 -> bv64, region: bv64) {
    forall x: bv64 :: Subset(x, region) ==> Subset(step(x), region)
  }

  // ---------------------------------------------------------------------------
  // King and bishop closures
  // ---------------------------------------------------------------------------

  /** One round of the king or bishop loop: add one step, then clear `imp`. */
  function Expand(step: bv64 -> bv64, k: bv64, imp: bv64): bv64 {
    (k | step(k)) & !imp
  }

  lemma ExpandFacts(step: bv64 -> bv64, k: bv64, imp: bv64)
    ensures Disjoint(Expand(step, k, imp), imp)
    ensures Disjoint(k, imp) ==> Subset(k, Expand(step, k, imp))
    ensures Disjoint(k, imp) && Expand(step, k, imp) != k ==>
      Popcount(k) < Popcount(Expand(step, k, imp))
  {
    if Disjoint(k, imp) && Expand(step, k, imp) != k {
      PopcountGrows(k, Expand(step, k, imp));
    }
  }

  /** Rounds until nothing changes.  A region already free of `imp` only grows, so its
      count strictly rises until the round changes nothing; a region that meets `imp`
      is free of it after one round. */
  function Closure(step: bv64 -> bv64, k: bv64, imp: bv64): bv64
    decreases if Disjoint(k, imp) then 0 else 1, 64 - Popcount(k)
  {
    var next := Expand(step, k, imp);
    ExpandFacts(step, k, imp);
    if next == k then k else Closure(step, next, imp)
  }

  /** The closure avoids `imp`, one more round leaves it unchanged, and it holds the
      first round (so every seed square outside `imp`). */
  lemma {:induction false} ClosureFacts(step: bv64 -> bv64, k: bv64, imp: bv64)
    ensures Disjoint(Closure(step, k, imp), imp)
    ensures Expand(step, Closure(step, k, imp), imp) == Closure(step, k, imp)
    ensures Subset(Expand(step, k, imp), Closure(step, k, imp))
    ensures Subset(k & !imp, Closure(step, k, imp))
    decreases if Disjoint(k, imp) then 0 else 1, 64 - Popcount(k)
  {
    var next := Expand(step, k, imp);
    ExpandFacts(step, k, imp);
    if next != k {
      ClosureFacts(step, next, imp);
      ExpandFacts(step, next, imp);
      SubsetTransitive(next, Expand(step, next, imp), Closure(step, next, imp));
    }
    SeedSurvives(step, k, imp, Closure(step, k, imp));
  }

  lemma SeedSurvives(step: bv64 -> bv64, k: bv64, imp: bv64, r: bv64)
    requires Subset(Expand(step, k, imp), r)
    ensures Subset(k & !imp, r)
  {
  }

  /** The closure is the least region above the first round that the round leaves
      unchanged, so it does not depend on how many rounds the loop takes. */
  lemma {:induction false} ClosureLeast(step: bv64 -> bv64, k: bv64, imp: bv64, y: bv64)
    requires Monotone(step)
    requires Subset(Expand(step, k, imp), y) && Expand(step, y, imp) == y
    ensures Subset(Closure(step, k, imp), y)
    decreases if Disjoint(k, imp) then 0 else 1, 64 - Popcount(k)
  {
    var next := Expand(step, k, imp);
    ExpandFacts(step, k, imp);
    if next != k {
      ExpandMonotone(step, next, y, imp);
      ClosureLeast(step, next, imp, y);
    }
  }

  lemma ExpandMonotone(step: bv64 -> bv64, x: bv64, y: bv64, imp: bv64)
    requires Monotone(step) && Subset(x, y)
    ensures Subset(Expand(step, x, imp), Expand(step, y, imp))
  {
    assert Subset(step(x), step(y));
  }

  /** A closure whose seed lies in a region its step function keeps stays in it. */
  lemma {:induction false} ClosureWithin(step: bv64 -> bv64, k: bv64, imp: bv64, region: bv64)
    requires Keeps(step, region) && Subset(k, region)
    ensures Subset(Closure(step, k, imp), region)
    decreases if Disjoint(k, imp) then 0 else 1, 64 - Popcount(k)
  {
    var next := Expand(step, k, imp);
    ExpandFacts(step, k, imp);
    if next != k {
      assert Subset(step(k), region);
      ClosureWithin(step, next, imp, region);
    }
  }

  /** The number of rounds that change the region: at most one that only drops squares
      of `imp`, then at most one per square added. */
  ghost function ClosureRounds(step: bv64 -> bv64, k: bv64, imp: bv64): nat
    decreases if Disjoint(k, imp) then 0 else 1, 64 - Popcount(k)
  {
    var next := Expand(step, k, imp);
    ExpandFacts(step, k, imp);
    if next == k then 0 else 1 + ClosureRounds(step, next, imp)
  }

  lemma {:induction false} ClosureRoundsBound(step: bv64 -> bv64, k: bv64, imp: bv64)
    ensures Disjoint(k, imp) ==> ClosureRounds(step, k, imp) + Popcount(k) <= 64
    ensures ClosureRounds(step, k, imp) <= 65
    decreases if Disjoint(k, imp) then 0 else 1, 64 - Popcount(k)
  {
    var next := Expand(step, k, imp);
    ExpandFacts(step, k, imp);
    if next != k {
      ClosureRoundsBound(step, next, imp);
    }
  }

  // ---------------------------------------------------------------------------
  // Pawn reach
  // ---------------------------------------------------------------------------

  /** One round of a pawn loop: add the pushes that do not land on a blocked square. */
  function Advance(step: bv64 -> bv64, x: bv64, blocked: bv64): bv64 {
    x | (step(x) & !blocked)
  }

  lemma AdvanceFacts(step: bv64 -> bv64, x: bv64, blocked: bv64)
    ensures Subset(x, Advance(step, x, blocked))
    ensures Advance(step, x, blocked) != x ==> Popcount(x) < Popcount(Advance(step, x, blocked))
  {
    if Advance(step, x, blocked) != x {
      PopcountGrows(x, Advance(step, x, blocked));
    }
  }

  /** Rounds until nothing changes; each round that changes the region adds a square. */
  function Reach(step: bv64 -> bv64, x: bv64, blocked: bv64): bv64
    decreases 64 - Popcount(x)
  {
    var next := Advance(step, x, blocked);
    AdvanceFacts(step, x, blocked);
    if next == x then x else Reach(step, next, blocked)
  }

  /** The reach holds the seed and one more round leaves it unchanged. */
  lemma {:induction false} ReachFacts(step: bv64 -> bv64, x: bv64, blocked: bv64)
    ensures Subset(x, Reach(step, x, blocked))
    ensures Advance(step, Reach(step, x, blocked), blocked) == Reach(step, x, blocked)
    decreases 64 - Popcount(x)
  {
    var next := Advance(step, x, blocked);
    AdvanceFacts(step, x, blocked);
    if next != x {
      ReachFacts(step, next, blocked);
      SubsetTransitive(x, next, Reach(step, next, blocked));
    }
  }

  /** The reach adds no blocked square: beyond the seed it lies outside `blocked`. */
  lemma {:induction false} ReachAvoids(step: bv64 -> bv64, x: bv64, blocked: bv64)
    ensures Subset(Reach(step, x, blocked), x | !blocked)
    decreases 64 - Popcount(x)
  {
    var next := Advance(step, x, blocked);
    AdvanceFacts(step, x, blocked);
    if next != x {
      ReachAvoids(step, next, blocked);
      assert next | !blocked == x | !blocked;
    }
  }

  /** The reach is the least region above the seed that a round leaves unchanged. */
  lemma {:induction false} ReachLeast(step: bv64 -> bv64, x: bv64, blocked: bv64, y: bv64)
    requires Monotone(step)
    requires Subset(x, y) && Advance(step, y, blocked) == y
    ensures Subset(Reach(step, x, blocked), y)
    decreases 64 - Popcount(x)
  {
    var next := Advance(step, x, blocked);
    AdvanceFacts(step, x, blocked);
    if next != x {
      assert Subset(step(x), step(y));
      ReachLeast(step, next, blocked, y);
    }
  }

  /** The number of rounds that add squares: at most one per square added. */
  ghost function ReachRounds(step: bv64 -> bv64, x: bv64, blocked: bv64): nat
    decreases 64 - Popcount(x)
  {
    var next := Advance(step, x, blocked);
    AdvanceFacts(step, x, blocked);
    if next == x then 0 else 1 + ReachRounds(step, next, blocked)
  }

  lemma {:induction false} ReachRoundsBound(step: bv64 -> bv64, x: bv64, blocked: bv64)
    ensures ReachRounds(step, x, blocked) + Popcount(x) <= 64
    decreases 64 - Popcount(x)
  {
    var next := Advance(step, x, blocked);
    AdvanceFacts(step, x, blocked);
    if next != x {
      ReachRoundsBound(step, next, blocked);
    }
  }
}
