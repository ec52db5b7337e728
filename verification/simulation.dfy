/** Automated play: one run from a clean board until no move remains, and a batch of
    runs that stops at the first success. */
module Simulation {
  import opened Board
  import opened Strategies

  /** The random source: the draws of a stream of rolls, as far as they are given. A
      batch reads at most 60000 draws, so every stream is represented by its first
      60000 entries; a draw past the end of a shorter sequence reads as 0. */
  type RollSource = seq<Roll>

  /** The n-th draw of the stream. */
  function Draw(rolls: RollSource, n: nat): Roll {
    if n < |rolls| then rolls[n] else 0
  }

  /** Upper bound on the runs of one batch. */
  const MaxAttempts: nat := 2000

  /** Draws one run consumes: one per outcome of a full board. */
  const DrawsPerRun: nat := 30

  /** The state every run starts from: empty slots, probability 75. */
  const Start: State := State(Empty, StartProb)

  /** The rest of a run from `st`, reading draws from position `next` of `rolls` on. */
  function Run(strategy: Strategy, st: State, rolls: RollSource, next: nat): (r: State)
    requires st.stones.Bounded()
    ensures r.stones.Full()
    ensures InBand(st.prob) ==> InBand(r.prob)
    decreases 3 * SlotCapacity - st.stones.Filled()
  {
    match NextMove(st.prob, st.stones, strategy)
    case None => st
    case Some(slot) => Run(strategy, Attempt(st, slot, Draw(rolls, next)), rolls, next + 1)
  }

  /** A run only appends: every slot history it starts from is a prefix of the one
      it ends with. */
  lemma {:induction false} RunExtends(strategy: Strategy, st: State, rolls: RollSource, next: nat)
    requires st.stones.Bounded()
    ensures forall s :: st.stones.Get(s) <= Run(strategy, st, rolls, next).stones.Get(s)
    decreases 3 * SlotCapacity - st.stones.Filled()
  {
    match NextMove(st.prob, st.stones, strategy)
    case None =>
    case Some(slot) =>
      var st' := Attempt(st, slot, Draw(rolls, next));
      RunExtends(strategy, st', rolls, next + 1);
      AttemptRecords(st, slot, Draw(rolls, next));
  }

  /** A run records only successes and fails: it adds no unset entry. */
  lemma {:induction false} RunRecordsOutcomes(strategy: Strategy, st: State, rolls: RollSource, next: nat)
    requires st.stones.Bounded()
    requires forall s :: Unset !in st.stones.Get(s)
    ensures forall s :: Unset !in Run(strategy, st, rolls, next).stones.Get(s)
    decreases 3 * SlotCapacity - st.stones.Filled()
  {
    match NextMove(st.prob, st.stones, strategy)
    case None =>
    case Some(slot) =>
      AttemptRecords(st, slot, Draw(rolls, next));
      RunRecordsOutcomes(strategy, Attempt(st, slot, Draw(rolls, next)), rolls, next + 1);
  }

  /** One step of a run: the attempt the heuristic asks for, then the rest. */
  lemma RunStep(strategy: Strategy, st: State, rolls: RollSource, next: nat)
    requires st.stones.Bounded()
    requires NextMove(st.prob, st.stones, strategy).Some?
    ensures Run(strategy, st, rolls, next) ==
            Run(strategy, Attempt(st, NextMove(st.prob, st.stones, strategy).value, Draw(rolls, next)), rolls, next + 1)
  {
  }

  /** A whole run from the start state, its first draw at position `start`. */
  function Simulate(strategy: Strategy, rolls: RollSource, start: nat): State {
    Run(strategy, Start, rolls, start)
  }

  /** After a whole run the outcome counter of every slot reports ten entries, each
      of them a success or a fail. */
  lemma SimulateCounts(strategy: Strategy, rolls: RollSource, start: nat, s: Slot)
    ensures GetCounts(Simulate(strategy, rolls, start).stones.Get(s)).length == SlotCapacity
    ensures GetCounts(Simulate(strategy, rolls, start).stones.Get(s)).success +
            GetCounts(Simulate(strategy, rolls, start).stones.Get(s)).fail == SlotCapacity
  {
    RunRecordsOutcomes(strategy, Start, rolls, start);
    CountsAddUp(Simulate(strategy, rolls, start).stones.Get(s));
  }

  /** The k-th run (counting from 0) of a batch. */
  function RunAt(strategy: Strategy, rolls: RollSource, k: nat): State {
    Simulate(strategy, rolls, 30 * k)
  }

  /** Run k of a batch is the run whose first draw is at position 30k. */
  lemma RunAtDraws(strategy: Strategy, rolls: RollSource, k: nat, next: nat)
    requires next == 30 * k
    ensures RunAt(strategy, rolls, k) == Simulate(strategy, rolls, next)
  {
  }

  /** Whether the k-th run of a batch meets the strategy's target. */
  predicate Succeeds(strategy: Strategy, rolls: RollSource, k: nat) {
    CheckSuccess(RunAt(strategy, rolls, k).stones, strategy)
  }

  /** If none of the first n runs of a batch succeeds and run n fails too, none of
      the first n + 1 runs succeeds. */
  lemma NoneSucceedsYet(strategy: Strategy, rolls: RollSource, n: nat)
    requires forall k :: 0 <= k < n ==> !Succeeds(strategy, rolls, k)
    requires !Succeeds(strategy, rolls, n)
    ensures forall k :: 0 <= k < n + 1 ==> !Succeeds(strategy, rolls, k)
  {
  }

  /** One run: ask the heuristic for a slot, attempt it, until no move is left.
      It always takes exactly 30 steps and leaves every slot full. */
  method SimulateOneStone(strategy: Strategy, rolls: RollSource, start: nat) returns (result: State, steps: nat)
    ensures result == Simulate(strategy, rolls, start)
    ensures steps == DrawsPerRun
    ensures result.stones.Full()
    ensures InBand(result.prob)
  {
    var cur := Start;
    var next := start;
    steps := 0;
    while true
      invariant cur.Sound()
      invariant steps == cur.stones.Filled() && next == start + steps
      invariant Run(strategy, cur, rolls, next) == Simulate(strategy, rolls, start)
      decreases 3 * SlotCapacity - steps
    {
      var move := NextMove(cur.prob, cur.stones, strategy);
      if move.None? {
        break;
      }
      RunStep(strategy, cur, rolls, next);
      cur := Attempt(cur, move.value, Draw(rolls, next));
      next := next + 1;
      steps := steps + 1;
    }
    result := cur;
  }

  /** A batch: up to 2000 runs, stopping at the first that meets the target. Run k
      reads the 30 draws that follow the k runs before it. */
  method Batch(strategy: Strategy, rolls: RollSource) returns (attempts: nat, success: bool, best: Option<State>)
    ensures 1 <= attempts <= MaxAttempts
    ensures best == Some(RunAt(strategy, rolls, attempts - 1))
    ensures success <==> Succeeds(strategy, rolls, attempts - 1)
    ensures forall k :: 0 <= k < attempts - 1 ==> !Succeeds(strategy, rolls, k)
    ensures !success ==> attempts == MaxAttempts
  {
    attempts := 0;
    success := false;
    best := None;
    var next := 0;
    while attempts < MaxAttempts
      invariant attempts <= MaxAttempts
      invariant next == 30 * attempts
      invariant !success
      invariant attempts == 0 <==> best.None?
      invariant attempts > 0 ==> best == Some(RunAt(strategy, rolls, attempts - 1))
      invariant forall k :: 0 <= k < attempts ==> !Succeeds(strategy, rolls, k)
    {
      attempts := attempts + 1;
      RunAtDraws(strategy, rolls, attempts - 1, next);
      var result, steps := SimulateOneStone(strategy, rolls, next);
      next := next + steps;
      best := Some(result);
      assert best == Some(RunAt(strategy, rolls, attempts - 1));
      if CheckSuccess(result.stones, strategy) {
        success := true;
        break;
      }
      NoneSucceedsYet(strategy, rolls, attempts - 1);
    }
  }
}
