/** The two built-in strategies: their success predicates and the move heuristic
    that automated runs follow. */
module Strategies {
  import opened Board

  /** "77" and "16". */
  datatype Strategy = SevenSeven | Sixteen

  /** Below or at this probability automated runs dump attempts into slot C. */
  const LowProb: int := 45

  /** Whether success counts `a`, `b`, `c` of slots A, B, C meet the strategy's target. */
  predicate Meets(strategy: Strategy, a: nat, b: nat, c: nat) {
    match strategy
    case SevenSeven => a >= 7 && b >= 7 && c <= 4
    case Sixteen => a + b >= 16 && c <= 4 && !(a == 8 && b == 8)
  }

  /** The strategy evaluator on a board. */
  function CheckSuccess(stones: Stones, strategy: Strategy): (r: bool)
    ensures r ==> stones.Successes(C) <= 4
    ensures r ==> stones.Successes(A) + stones.Successes(B) >= 14
  {
    Meets(strategy, stones.Successes(A), stones.Successes(B), stones.Successes(C))
  }

  /** Both strategies reward successes in A and B and penalise successes in C: more of
      the former and fewer of the latter never turn a success into a failure. The
      8/8 carve-out of "16" does not break this, since 8/8 is reached only from 15. */
  lemma MeetsMonotone(strategy: Strategy, a: nat, b: nat, c: nat, a': nat, b': nat, c': nat)
    requires Meets(strategy, a, b, c)
    requires a <= a' && b <= b' && c' <= c
    ensures Meets(strategy, a', b', c')
  {
  }

  /** The strategy evaluator reads the outcome counter of each slot: "77" needs at
      least seven successes in A and in B and at most four in C; "16" needs at least
      sixteen successes across A and B, at most four in C, and not eight in each. */
  lemma CheckSuccessCounts(stones: Stones)
    ensures CheckSuccess(stones, SevenSeven) <==>
              GetCounts(stones.a).success >= 7 && GetCounts(stones.b).success >= 7 &&
              GetCounts(stones.c).success <= 4
    ensures CheckSuccess(stones, Sixteen) <==>
              GetCounts(stones.a).success + GetCounts(stones.b).success >= 16 &&
              GetCounts(stones.c).success <= 4 &&
              !(GetCounts(stones.a).success == 8 && GetCounts(stones.b).success == 8)
  {
  }

  /** The boards named as examples of each strategy's target. */
  lemma CheckSuccessExamples(stones: Stones)
    ensures stones.Successes(A) == 8 && stones.Successes(B) == 8 && stones.Successes(C) == 0
            ==> !CheckSuccess(stones, Sixteen)
    ensures stones.Successes(A) == 9 && stones.Successes(B) == 7 && stones.Successes(C) == 0
            ==> CheckSuccess(stones, Sixteen)
    ensures stones.Successes(A) == 7 && stones.Successes(B) == 7 && stones.Successes(C) == 4
            ==> CheckSuccess(stones, SevenSeven)
    ensures stones.Successes(A) == 7 && stones.Successes(B) == 7 && stones.Successes(C) == 5
            ==> !CheckSuccess(stones, SevenSeven)
  {
  }

  /** The move heuristic: the slot the next automated attempt targets, or None
      once no slot can be cut. The order of its rules is stated in NextMoveRules. */
  function NextMove(prob: int, stones: Stones, strategy: Strategy): (r: Option<Slot>)
    ensures r.None? <==> !stones.CanCut(A) && !stones.CanCut(B) && !stones.CanCut(C)
    ensures r.Some? ==> stones.CanCut(r.value)
  {
    if |stones.a| == SlotCapacity && |stones.b| == SlotCapacity && |stones.c| == SlotCapacity then None
    else if prob <= LowProb && stones.CanCut(C) then Some(C)
    else
      match strategy
      case SevenSeven =>
        if !stones.CanCut(A) && !stones.CanCut(B) then (if stones.CanCut(C) then Some(C) else None)
        else if !stones.CanCut(A) then Some(B)
        else if !stones.CanCut(B) then Some(A)
        else if stones.Successes(A) < stones.Successes(B) then Some(A)
        else if stones.Successes(B) < stones.Successes(A) then Some(B)
        else Some(A)
      case Sixteen =>
        if !stones.CanCut(A) && !stones.CanCut(B) then (if stones.CanCut(C) then Some(C) else None)
        else if stones.CanCut(A) then Some(A)
        else Some(B)
  }

  /** The order in which the heuristic's rules apply. Below, "dumping" means the
      probability is at most 45 while C is open. */
  lemma NextMoveRules(prob: int, stones: Stones, strategy: Strategy)
    // the shared rule comes first: low probability is spent on C
    ensures prob <= LowProb && stones.CanCut(C) ==> NextMove(prob, stones, strategy) == Some(C)
    ensures NextMove(prob, stones, strategy) == Some(C) ==>
              prob <= LowProb || (!stones.CanCut(A) && !stones.CanCut(B))
    // once A and B are full, C takes the rest under both strategies
    ensures !stones.CanCut(A) && !stones.CanCut(B) && stones.CanCut(C) ==>
              NextMove(prob, stones, strategy) == Some(C)
    // "77": with one of A and B full the other is chosen ...
    ensures strategy == SevenSeven && !(prob <= LowProb && stones.CanCut(C)) ==>
              (!stones.CanCut(A) && stones.CanCut(B) ==> NextMove(prob, stones, strategy) == Some(B)) &&
              (stones.CanCut(A) && !stones.CanCut(B) ==> NextMove(prob, stones, strategy) == Some(A))
    // ... and with both open the one with fewer successes, ties going to A
    ensures strategy == SevenSeven && !(prob <= LowProb && stones.CanCut(C)) &&
            stones.CanCut(A) && stones.CanCut(B) ==>
              (NextMove(prob, stones, strategy) == Some(A) <==> stones.Successes(A) <= stones.Successes(B)) &&
              (NextMove(prob, stones, strategy) == Some(B) <==> stones.Successes(B) < stones.Successes(A))
    // "16" fills A, then B
    ensures strategy == Sixteen && !(prob <= LowProb && stones.CanCut(C)) ==>
              (stones.CanCut(A) ==> NextMove(prob, stones, strategy) == Some(A)) &&
              (!stones.CanCut(A) && stones.CanCut(B) ==> NextMove(prob, stones, strategy) == Some(B))
    ensures strategy == Sixteen && NextMove(prob, stones, strategy) == Some(B) ==> !stones.CanCut(A)
  {
  }
}
