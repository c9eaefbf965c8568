/**
 * The Monte Carlo reliability estimator (monte_carlo_reliability in
 * reliability.py). Each trial walks the subsystems in order and draws one
 * value per subsystem; the trial fails at the first subsystem whose draw is
 * below its failure probability and draws nothing more. The estimate is the
 * fraction of successful trials.
 *
 * The random source is an explicit argument: `draw(k)` is the k-th value the
 * generator hands out from the start of the call on. The estimator itself
 * does not depend on the draws lying in [0, 1); the lemmas that need it say so.
 */
module MonteCarlo {

  /** The values the random generator returns, in order, from the start of a call. */
  type DrawStream = nat -> real

  /** Every draw lies in [0, 1), as np.random.random() promises. */
  ghost predicate UnitDraws(draw: DrawStream)
  {
    forall k: nat :: 0.0 <= draw(k) < 1.0
  }

  /** The only failure of the estimator: the final division by a zero sample count. */
  datatype Error = ZeroDivisionError

  datatype Result<T> = Ok(value: T) | Err(error: Error)

  /** What one trial decides, and how many draws it takes from the stream. */
  datatype TrialOutcome = TrialOutcome(success: bool, consumed: nat)

  /** The successes counted and the draws consumed after a number of trials. */
  datatype Tally = Tally(successes: nat, used: nat)

  /**
   * The reference meaning of a successful trial that starts at stream position
   * `pos`: every subsystem's draw is at least its failure probability.
   */
  predicate AllSurvive(probs: seq<real>, draw: DrawStream, pos: nat)
  {
    forall j :: 0 <= j < |probs| ==> probs[j] <= draw(pos + j)
  }

  /**
   * One mission trial starting at stream position `pos`: subsystems in order,
   * one draw each, stopping at the first draw below the failure probability.
   */
  function Trial(probs: seq<real>, draw: DrawStream, pos: nat): (t: TrialOutcome)
    ensures t.consumed <= |probs|
    ensures t.success ==> t.consumed == |probs|
    ensures !t.success ==> 1 <= t.consumed
    decreases |probs|
  {
    if probs == [] then TrialOutcome(true, 0)
    else if draw(pos) < probs[0] then TrialOutcome(false, 1)
    else
      var rest := Trial(probs[1..], draw, pos + 1);
      TrialOutcome(rest.success, rest.consumed + 1)
  }

  /** The outcome of the first `n` trials, each starting where the previous one stopped. */
  function Simulate(probs: seq<real>, draw: DrawStream, n: nat): (s: Tally)
    ensures s.successes <= n
    ensures s.used <= n * |probs|
    decreases n
  {
    if n == 0 then Tally(0, 0)
    else
      var prev := Simulate(probs, draw, n - 1);
      var t := Trial(probs, draw, prev.used);
      assert n * |probs| == (n - 1) * |probs| + |probs|;
      Tally(prev.successes + (if t.success then 1 else 0), prev.used + t.consumed)
  }

  /** How many trials `for i in range(nSamples)` runs: none for a negative count. */
  function TrialCount(nSamples: int): (n: nat)
    ensures nSamples <= 0 ==> n == 0
    ensures nSamples >= 0 ==> n == nSamples
  {
    if nSamples > 0 then nSamples else 0
  }

  /**
   * The value monte_carlo_reliability returns: successes / nSamples, or the
   * division error when nSamples is 0. A negative count runs no trial and
   * divides 0 by it, which is 0.
   */
  function Estimate(probs: seq<real>, draw: DrawStream, nSamples: int): (r: Result<real>)
    ensures r.Err? <==> nSamples == 0
    ensures r.Ok? ==> 0.0 <= r.value <= 1.0
    ensures nSamples < 0 ==> r == Ok(0.0)
  {
    if nSamples == 0 then Err(ZeroDivisionError)
    else
      var successes := Simulate(probs, draw, TrialCount(nSamples)).successes;
      FractionBounds(successes, nSamples);
      Ok(successes as real / nSamples as real)
  }

  /** A count of successes out of a nonzero sample count, divided by it, is a fraction in [0, 1]. */
  lemma FractionBounds(successes: nat, nSamples: int)
    requires nSamples != 0 && successes <= TrialCount(nSamples)
    ensures 0.0 <= successes as real / nSamples as real <= 1.0
    ensures nSamples < 0 ==> successes as real / nSamples as real == 0.0
  {
  }

  /**
   * The estimator's loops. Besides the estimate it returns how many draws it
   * took from the stream, that is, how far it advanced the random generator.
   */
  method MonteCarloReliability(failureProbs: seq<real>, nSamples: int, draw: DrawStream)
    returns (r: Result<real>, used: nat)
    ensures r == Estimate(failureProbs, draw, nSamples)
    ensures used == Simulate(failureProbs, draw, TrialCount(nSamples)).used
  {
    var successes: nat := 0;
    var pos: nat := 0;
    var i := 0;
    while i < nSamples
      invariant 0 <= i <= TrialCount(nSamples)
      invariant Simulate(failureProbs, draw, i) == Tally(successes, pos)
    {
      var missionSuccess := true;
      ghost var start := pos;
      var j := 0;
      while j < |failureProbs|
        invariant 0 <= j <= |failureProbs|
        invariant pos == start + j
        invariant missionSuccess
        invariant var rest := Trial(failureProbs[j..], draw, pos);
                  Trial(failureProbs, draw, start) == TrialOutcome(rest.success, rest.consumed + j)
      {
        var failProb := failureProbs[j];
        var randomDraw := draw(pos);
        pos := pos + 1;
        if randomDraw < failProb {
          missionSuccess := false;
          break;
        }
        assert failureProbs[j..][1..] == failureProbs[j + 1..];
        j := j + 1;
      }
      assert Trial(failureProbs, draw, start) == TrialOutcome(missionSuccess, pos - start);
      if missionSuccess {
        successes := successes + 1;
      }
      i := i + 1;
    }
    if nSamples == 0 {
      r := Err(ZeroDivisionError);
    } else {
      r := Ok(successes as real / nSamples as real);
    }
    used := pos;
  }

  /** A trial succeeds exactly when every subsystem's draw is at least its failure probability. */
  lemma {:induction false} TrialSucceedsIffAllSurvive(probs: seq<real>, draw: DrawStream, pos: nat)
    ensures Trial(probs, draw, pos).success <==> AllSurvive(probs, draw, pos)
    decreases |probs|
  {
    if probs != [] {
      var tail := probs[1..];
      TrialSucceedsIffAllSurvive(tail, draw, pos + 1);
      if !(draw(pos) < probs[0]) && AllSurvive(tail, draw, pos + 1) {
        forall j | 0 <= j < |probs| ensures probs[j] <= draw(pos + j) {
          if j > 0 {
            assert probs[j] == tail[j - 1] && pos + j == pos + 1 + (j - 1);
          }
        }
      }
      if AllSurvive(probs, draw, pos) {
        assert probs[0] <= draw(pos + 0);
        forall j | 0 <= j < |tail| ensures tail[j] <= draw(pos + 1 + j) {
          assert tail[j] == probs[j + 1] && pos + 1 + j == pos + (j + 1);
        }
      }
    }
  }

  /**
   * The short-circuit: a failed trial consumes exactly up to and including its
   * first failing subsystem, the one at index `consumed - 1`; every subsystem
   * before it survived.
   */
  lemma {:induction false} TrialStopsAtFirstFailure(probs: seq<real>, draw: DrawStream, pos: nat)
    requires !Trial(probs, draw, pos).success
    ensures var c := Trial(probs, draw, pos).consumed;
      && draw(pos + c - 1) < probs[c - 1]
      && forall j :: 0 <= j < c - 1 ==> probs[j] <= draw(pos + j)
    decreases |probs|
  {
    if !(draw(pos) < probs[0]) {
      var tail := probs[1..];
      TrialStopsAtFirstFailure(tail, draw, pos + 1);
      var c := Trial(probs, draw, pos).consumed;
      assert Trial(tail, draw, pos + 1).consumed == c - 1;
      assert tail[c - 2] == probs[c - 1] && pos + 1 + (c - 2) == pos + c - 1;
      forall j | 0 <= j < c - 1 ensures probs[j] <= draw(pos + j) {
        if j > 0 {
          assert probs[j] == tail[j - 1] && pos + j == pos + 1 + (j - 1);
        }
      }
    }
  }

  /**
   * A trial reads only the draws it consumes: any stream that agrees on them
   * gives the same outcome, so the draws skipped by the short-circuit are left
   * for the next trial.
   */
  lemma {:induction false} TrialReadsOnlyConsumedDraws(probs: seq<real>, draw: DrawStream, other: DrawStream, pos: nat)
    requires forall k :: pos <= k < pos + Trial(probs, draw, pos).consumed ==> other(k) == draw(k)
    ensures Trial(probs, other, pos) == Trial(probs, draw, pos)
    decreases |probs|
  {
    if probs != [] {
      assert other(pos) == draw(pos);
      if !(draw(pos) < probs[0]) {
        TrialReadsOnlyConsumedDraws(probs[1..], draw, other, pos + 1);
      }
    }
  }

  /** When every trial, wherever it starts, succeeds, all trials are counted and each consumes every subsystem's draw. */
  lemma {:induction false} SimulateAllSucceed(probs: seq<real>, draw: DrawStream, n: nat)
    requires forall pos: nat :: AllSurvive(probs, draw, pos)
    ensures Simulate(probs, draw, n) == Tally(n, n * |probs|)
    decreases n
  {
    if n > 0 {
      SimulateAllSucceed(probs, draw, n - 1);
      TrialSucceedsIffAllSurvive(probs, draw, (n - 1) * |probs|);
      assert n * |probs| == (n - 1) * |probs| + |probs|;
    }
  }

  /** When every trial, wherever it starts, fails, no success is counted. */
  lemma {:induction false} SimulateAllFail(probs: seq<real>, draw: DrawStream, n: nat)
    requires forall pos: nat :: !AllSurvive(probs, draw, pos)
    ensures Simulate(probs, draw, n).successes == 0
    decreases n
  {
    if n > 0 {
      SimulateAllFail(probs, draw, n - 1);
      TrialSucceedsIffAllSurvive(probs, draw, Simulate(probs, draw, n - 1).used);
    }
  }

  /** With no subsystems every trial succeeds without drawing: the estimate is 1. */
  lemma EmptySystemEstimatesOne(draw: DrawStream, nSamples: int)
    requires nSamples > 0
    ensures Estimate([], draw, nSamples) == Ok(1.0)
    ensures Simulate([], draw, nSamples).used == 0
  {
    SimulateAllSucceed([], draw, nSamples);
    assert nSamples as real / nSamples as real == 1.0;
  }

  /**
   * With draws in [0, 1) and no failure probability above 0, every trial
   * succeeds: the estimate is 1 and every trial draws once per subsystem.
   */
  lemma FaultlessSystemEstimatesOne(probs: seq<real>, draw: DrawStream, nSamples: int)
    requires UnitDraws(draw)
    requires forall j :: 0 <= j < |probs| ==> probs[j] <= 0.0
    requires nSamples > 0
    ensures Estimate(probs, draw, nSamples) == Ok(1.0)
    ensures Simulate(probs, draw, nSamples).used == nSamples * |probs|
  {
    forall pos: nat ensures AllSurvive(probs, draw, pos) {
      forall j | 0 <= j < |probs| ensures probs[j] <= draw(pos + j) {
        assert 0.0 <= draw(pos + j);
      }
    }
    SimulateAllSucceed(probs, draw, nSamples);
    assert nSamples as real / nSamples as real == 1.0;
  }

  /**
   * With draws in [0, 1) and a subsystem whose failure probability is at
   * least 1, every trial fails: the estimate is 0.
   */
  lemma CertainFailureEstimatesZero(probs: seq<real>, draw: DrawStream, nSamples: int, k: int)
    requires UnitDraws(draw)
    requires 0 <= k < |probs| && probs[k] >= 1.0
    requires nSamples != 0
    ensures Estimate(probs, draw, nSamples) == Ok(0.0)
  {
    forall pos: nat ensures !AllSurvive(probs, draw, pos) {
      assert draw(pos + k) < 1.0;
    }
    SimulateAllFail(probs, draw, TrialCount(nSamples));
  }

  /** The stream 0.1, 0.9, 0.6, 0.6, ... used by the example below. */
  function ExampleDraws(k: nat): real
  {
    if k == 0 then 0.1 else if k == 1 then 0.9 else 0.6
  }

  /**
   * Two subsystems of failure probability 1/2 and the draws 0.1, 0.9, 0.6:
   * the first trial fails at its first draw and leaves the second subsystem's
   * draw to the next trial, which takes 0.9 and 0.6 and succeeds. Two
   * samples give the estimate 1/2 and consume three draws, not four.
   */
  lemma ShortCircuitExample()
    ensures Trial([0.5, 0.5], ExampleDraws, 0) == TrialOutcome(false, 1)
    ensures Simulate([0.5, 0.5], ExampleDraws, 2) == Tally(1, 3)
    ensures Estimate([0.5, 0.5], ExampleDraws, 2) == Ok(0.5)
  {
  }
}
