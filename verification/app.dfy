/** The simulator's state as the user interface drives it: manual cuts, reset, one
    automated run, and a batch of automated runs. */
module App {
  import opened Board
  import opened Strategies
  import opened Simulation

  /** The status line shown after an automated run: none yet, success, failure, or
      failure after the batch cap of `limit` runs. */
  datatype Status = Blank | Succeeded | Failed | CappedFailed(limit: nat)

  class AppState {
    var probability: int
    var stones: Stones
    var attemptCount: nat
    var lastStatus: Status

    /** Every slot holds at most ten outcomes, each a success or a fail, and the
        probability is one of the six band values. */
    ghost predicate Valid()
      reads this
    {
      State(stones, probability).Sound() && forall s :: Unset !in stones.Get(s)
    }

    constructor ()
      ensures Valid()
      ensures probability == StartProb && stones == Empty
      ensures attemptCount == 0 && lastStatus == Blank
    {
      probability := StartProb;
      stones := Empty;
      attemptCount := 0;
      lastStatus := Blank;
    }

    /** A manual cut of `option`, the random source having drawn `roll`. A full slot
        rejects the cut and nothing changes; otherwise exactly one outcome is
        appended to that slot, the other two stay as they were, and the
        probability moves by that outcome. */
    method HandleCut(option: Slot, roll: Roll)
      requires Valid()
      modifies this
      ensures Valid()
      ensures attemptCount == old(attemptCount) && lastStatus == old(lastStatus)
      ensures !old(stones).CanCut(option) ==> stones == old(stones) && probability == old(probability)
      ensures old(stones).CanCut(option) ==>
                stones.Get(option) == old(stones).Get(option) + [OutcomeOf(roll < old(probability))]
      ensures forall t :: t != option ==> stones.Get(t) == old(stones).Get(t)
      ensures old(stones).CanCut(option) ==> probability == NextProb(old(probability), roll < old(probability))
    {
      if |stones.Get(option)| >= SlotCapacity {
        return;
      }
      var after := Attempt(State(stones, probability), option, roll);
      AttemptRecords(State(stones, probability), option, roll);
      stones := after.stones;
      probability := after.prob;
    }

    /** Back to the start: probability 75, empty slots, no attempts, no status. */
    method HandleReset()
      modifies this
      ensures Valid()
      ensures probability == StartProb && stones == Empty
      ensures attemptCount == 0 && lastStatus == Blank
    {
      probability := StartProb;
      stones := Empty;
      attemptCount := 0;
      lastStatus := Blank;
    }

    /** One automated run, reading its draws from `rolls`: the board and probability
        become the run's result, one more attempt is counted, and the status says
        whether the run met the strategy's target. */
    method RunInstantAuto(strategy: Strategy, rolls: RollSource)
      modifies this
      ensures Valid()
      ensures State(stones, probability) == Simulate(strategy, rolls, 0)
      ensures stones.Full()
      ensures attemptCount == old(attemptCount) + 1
      ensures lastStatus == if CheckSuccess(stones, strategy) then Succeeded else Failed
    {
      var result, _ := SimulateOneStone(strategy, rolls, 0);
      RunRecordsOutcomes(strategy, Start, rolls, 0);
      probability := result.prob;
      stones := result.stones;
      attemptCount := attemptCount + 1;
      if CheckSuccess(result.stones, strategy) {
        lastStatus := Succeeded;
      } else {
        lastStatus := Failed;
      }
    }

    /** Automated runs until one meets the target, at most 2000 of them. The state
        becomes the last run performed and the attempt count the number of runs; the
        status is success when that run met the target, and a capped failure
        otherwise, which happens only after all 2000 runs failed. */
    method RunFullAuto(strategy: Strategy, rolls: RollSource)
      modifies this
      ensures Valid()
      ensures 1 <= attemptCount <= MaxAttempts
      ensures State(stones, probability) == RunAt(strategy, rolls, attemptCount - 1)
      ensures lastStatus == Succeeded || lastStatus == CappedFailed(MaxAttempts)
      ensures lastStatus == Succeeded <==> CheckSuccess(stones, strategy)
      ensures lastStatus.CappedFailed? ==> attemptCount == MaxAttempts
      ensures forall k :: 0 <= k < attemptCount - 1 ==> !Succeeds(strategy, rolls, k)
    {
      var attempts, success, best := Batch(strategy, rolls);
      RunRecordsOutcomes(strategy, Start, rolls, 30 * (attempts - 1));
      if best.Some? {
        probability := best.value.prob;
        stones := best.value.stones;
      }
      attemptCount := attempts;
      if success {
        lastStatus := Succeeded;
      } else {
        lastStatus := CappedFailed(MaxAttempts);
      }
    }
  }
}
