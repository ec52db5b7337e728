/** The board of the crafting simulator: three slots of at most ten outcomes each,
    the outcome counter, and the probability that drifts after every attempt. */
module Board {

  datatype Option<T> = None | Some(value: T)

  /** One recorded attempt; `Unset` stands for the `null` entry the result type admits. */
  datatype Outcome = Success | Fail | Unset

  /** The three slots a player can cut. */
  datatype Slot = A | B | C

  /** Number of outcomes a slot can hold. */
  const SlotCapacity: nat := 10

  /** Probability band, in percent, and the step it moves by after each attempt. */
  const StartProb: int := 75
  const MinProb: int := 25
  const MaxProb: int := 75
  const ProbStep: int := 10

  /** A draw of the random source: an integer percentage in [0, 100). */
  type Roll = r: int | 0 <= r < 100

  /** The histories of the three slots. */
  datatype Stones = Stones(a: seq<Outcome>, b: seq<Outcome>, c: seq<Outcome>) {

    function Get(s: Slot): seq<Outcome> {
      match s
      case A => a
      case B => b
      case C => c
    }

    /** The board with `o` appended to slot `s`. */
    function Append(s: Slot, o: Outcome): (r: Stones)
      ensures r.Get(s) == Get(s) + [o]
      ensures forall t :: t != s ==> r.Get(t) == Get(t)
    {
      match s
      case A => Stones(a + [o], b, c)
      case B => Stones(a, b + [o], c)
      case C => Stones(a, b, c + [o])
    }

    /** A slot can still be cut while it holds fewer than ten outcomes. */
    predicate CanCut(s: Slot) {
      |Get(s)| < SlotCapacity
    }

    predicate Bounded() {
      |a| <= SlotCapacity && |b| <= SlotCapacity && |c| <= SlotCapacity
    }

    predicate Full() {
      |a| == SlotCapacity && |b| == SlotCapacity && |c| == SlotCapacity
    }

    /** Total number of outcomes recorded on the board. */
    function Filled(): nat {
      |a| + |b| + |c|
    }

    /** Number of successes recorded in slot `s`. */
    function Successes(s: Slot): nat {
      Count(Get(s), Success)
    }
  }

  /** The board every run and every reset starts from. */
  const Empty: Stones := Stones([], [], [])

  /** Number of entries of `res` equal to `o`: the length of the filtered history. */
  function Count(res: seq<Outcome>, o: Outcome): (n: nat)
    ensures n <= |res|
  {
    if res == [] then 0
    else (if res[0] == o then 1 else 0) + Count(res[1..], o)
  }

  /** Every entry is exactly one of success, fail or unset. */
  lemma {:induction false} CountPartition(res: seq<Outcome>)
    ensures Count(res, Success) + Count(res, Fail) + Count(res, Unset) == |res|
  {
    if res != [] {
      CountPartition(res[1..]);
    }
  }

  /** A count is zero exactly when the outcome does not occur. */
  lemma {:induction false} CountZero(res: seq<Outcome>, o: Outcome)
    ensures Count(res, o) == 0 <==> o !in res
  {
    if res != [] {
      assert res == [res[0]] + res[1..];
      CountZero(res[1..], o);
    }
  }

  /** A count equals the length exactly when every entry is that outcome. */
  lemma {:induction false} CountAll(res: seq<Outcome>, o: Outcome)
    ensures Count(res, o) == |res| <==> forall i :: 0 <= i < |res| ==> res[i] == o
  {
    if res != [] {
      CountAll(res[1..], o);
      if Count(res, o) == |res| {
        forall i | 0 <= i < |res| ensures res[i] == o {
          if i > 0 {
            assert res[i] == res[1..][i - 1];
          }
        }
      }
      if forall i :: 0 <= i < |res| ==> res[i] == o {
        assert forall i :: 0 <= i < |res[1..]| ==> res[1..][i] == o by {
          forall i | 0 <= i < |res[1..]| ensures res[1..][i] == o {
            assert res[1..][i] == res[i + 1];
          }
        }
      }
    }
  }

  /** Appending one outcome raises its own count by one and leaves the others. */
  lemma {:induction false} CountAppend(res: seq<Outcome>, x: Outcome, o: Outcome)
    ensures Count(res + [x], o) == Count(res, o) + (if x == o then 1 else 0)
  {
    if res == [] {
      assert res + [x] == [x];
    } else {
      assert (res + [x])[1..] == res[1..] + [x];
      CountAppend(res[1..], x, o);
    }
  }

  /** The positions of `res` holding `o`. */
  ghost function Positions(res: seq<Outcome>, o: Outcome): set<nat> {
    set i: nat | i < |res| && res[i] == o
  }

  /** Count agrees with the positions it counts: it is the size of the filtered history. */
  lemma {:induction false} CountPositions(res: seq<Outcome>, o: Outcome)
    ensures Count(res, o) == |Positions(res, o)|
    decreases |res|
  {
    if res != [] {
      var init := res[..|res| - 1];
      var x := res[|res| - 1];
      assert res == init + [x];
      CountPositions(init, o);
      CountAppend(init, x, o);
      if x == o {
        assert Positions(res, o) == Positions(init, o) + {|init|};
      } else {
        assert Positions(res, o) == Positions(init, o);
      }
    }
  }

  datatype Counts = Counts(success: nat, fail: nat, length: nat)

  /** The outcome counter: successes, fails and length of one slot history. The
      entries it counts as neither are the unset ones. */
  function GetCounts(res: seq<Outcome>): (k: Counts)
    ensures k.length == |res|
    ensures k.success + k.fail + Count(res, Unset) == k.length
  {
    CountPartition(res);
    Counts(Count(res, Success), Count(res, Fail), |res|)
  }

  /** Successes and fails never exceed the length, and add up to it when no entry
      is unset, which holds of every history the simulator builds. */
  lemma CountsAddUp(res: seq<Outcome>)
    ensures GetCounts(res).success + GetCounts(res).fail <= GetCounts(res).length
    ensures Unset !in res ==> GetCounts(res).success + GetCounts(res).fail == GetCounts(res).length
  {
    CountZero(res, Unset);
  }

  /** Appending to one slot moves that slot's counts by exactly the appended outcome
      and leaves the counts of the other two slots as they were. */
  lemma AppendCounts(stones: Stones, s: Slot, o: Outcome)
    ensures GetCounts(stones.Append(s, o).Get(s)) ==
            Counts(GetCounts(stones.Get(s)).success + (if o == Success then 1 else 0),
                   GetCounts(stones.Get(s)).fail + (if o == Fail then 1 else 0),
                   |stones.Get(s)| + 1)
    ensures forall t :: t != s ==> stones.Append(s, o).Successes(t) == stones.Successes(t)
  {
    CountAppend(stones.Get(s), o, Success);
    CountAppend(stones.Get(s), o, Fail);
  }

  /** The values the probability can take: 25, 35, 45, 55, 65 and 75. */
  predicate InBand(p: int) {
    MinProb <= p <= MaxProb && (p - MinProb) % 10 == 0
  }

  /** The six band values, listed. */
  lemma InBandValues(p: int)
    ensures InBand(p) <==> p in {25, 35, 45, 55, 65, 75}
  {
  }

  /** The outcome recorded for an attempt. */
  function OutcomeOf(ok: bool): (o: Outcome)
    ensures o != Unset
    ensures o == Success <==> ok
  {
    if ok then Success else Fail
  }

  /** An attempt succeeds when its roll falls below the current probability. */
  predicate Succeeded(roll: Roll, prob: int) {
    roll < prob
  }

  /** The probability after one attempt: down one step on success, up one step on
      failure, clamped to the band. */
  function NextProb(p: int, ok: bool): (q: int)
    ensures InBand(p) ==> InBand(q)
  {
    if ok then (if p - ProbStep < MinProb then MinProb else p - ProbStep)
    else (if p + ProbStep > MaxProb then MaxProb else p + ProbStep)
  }

  /** Within the band a success lowers the probability and a failure raises it, by
      one step, except that it stays put at the bottom or the top of the band. */
  lemma NextProbMoves(p: int, ok: bool)
    requires InBand(p)
    ensures ok ==> NextProb(p, ok) == (if p == MinProb then p else p - ProbStep)
    ensures !ok ==> NextProb(p, ok) == (if p == MaxProb then p else p + ProbStep)
  {
  }

  /** A success followed by a failure (or the other way round) restores the
      probability unless the first step was clamped. */
  lemma NextProbUndo(p: int)
    requires InBand(p)
    ensures p > MinProb ==> NextProb(NextProb(p, true), false) == p
    ensures p < MaxProb ==> NextProb(NextProb(p, false), true) == p
  {
  }

  /** The board together with the probability of the next attempt. */
  datatype State = State(stones: Stones, prob: int) {
    /** Every slot within capacity and the probability on one of its six values. */
    predicate Sound() {
      stones.Bounded() && InBand(prob)
    }
  }

  /** The single-attempt executor: record the outcome `roll` gives in `slot`, then
      move the probability by that outcome. */
  function Attempt(st: State, slot: Slot, roll: Roll): (r: State)
    ensures r.stones.Filled() == st.stones.Filled() + 1
    ensures st.Sound() && st.stones.CanCut(slot) ==> r.Sound()
  {
    var ok := Succeeded(roll, st.prob);
    State(st.stones.Append(slot, OutcomeOf(ok)), NextProb(st.prob, ok))
  }

  /** An attempt appends one success or fail to its slot, a success exactly when the
      roll is below the probability, changes no other slot, and moves the
      probability the way that outcome dictates. */
  lemma AttemptRecords(st: State, slot: Slot, roll: Roll)
    ensures Attempt(st, slot, roll).stones.Get(slot) ==
            st.stones.Get(slot) + [if roll < st.prob then Success else Fail]
    ensures forall t :: t != slot ==> Attempt(st, slot, roll).stones.Get(t) == st.stones.Get(t)
    ensures Attempt(st, slot, roll).prob == NextProb(st.prob, roll < st.prob)
  {
  }
}
