# Spacecraft mission reliability, modelled in Dafny

`reliability.py` estimates the probability that every subsystem of a
spacecraft works during a mission. It does this in two ways, and each is
checked against the other:

- `monte_carlo_reliability` runs `n_samples` trials. Each trial walks the
  subsystems in order and draws one random value per subsystem. The trial
  fails at the first subsystem whose draw is below its failure probability,
  and draws nothing for the remaining subsystems. The result is the number of
  successful trials divided by `n_samples`.
- `analytical_reliability` multiplies `1 - p` over the failure probabilities
  `p`, starting from 1.

The model has one module per function.

- `MonteCarlo` (`monte_carlo.dfy`). The random generator becomes an explicit
  stream `draw: nat -> real`. `draw(k)` is the k-th value the generator hands
  out from the start of the call. `Trial` and `Simulate` define one trial and a
  run of trials as functions. `MonteCarloReliability` is the nested loop with
  the early `break`, and it is proved equal to them. It also returns how many
  draws it took, which is how far the generator advances. A sample count of 0
  gives `Err(ZeroDivisionError)`, where the source raises the same exception.
  A negative count runs no trial, and `0 / n_samples` gives 0.
- `Analytical` (`analytical.dfy`). `PartialProduct(probs, n)` multiplies
  `ProbWorks(p) = 1 - p` over the first `n` subsystems, as a recursive
  function. `Product` is the partial product over all subsystems.
  `AnalyticalReliability` is the accumulator loop: after `j` iterations its
  accumulator equals `PartialProduct(probs, j)`, so it returns `Product`.

All arithmetic is exact, over `real`. Failure probabilities are arbitrary
reals, because the source does not check their range. Each lemma states the
range it needs.

## Model

| member | source | states |
|---|---|---|
| MonteCarlo.AllSurvive | reliability.py:39-53 | the reference meaning of a successful trial: `mission_success` stays true exactly when no subsystem's draw is below its failure probability; `TrialSucceedsIffAllSurvive` ties it to `Trial` |
| MonteCarlo.Trial | reliability.py:39-49 | a trial consumes at most one draw per subsystem; a successful trial consumes exactly one per subsystem; a failed trial consumes at least one |
| MonteCarlo.Simulate | reliability.py:34-53 | after n trials the success counter is at most n, and at most n times the number of subsystems draws have been consumed |
| MonteCarlo.TrialCount | reliability.py:37 | `range(n_samples)` runs n_samples trials when n_samples is not negative, and none when it is negative |
| MonteCarlo.Estimate | reliability.py:56 | the division fails exactly when n_samples is 0; otherwise the estimate lies in [0, 1]; a negative n_samples gives 0 |
| MonteCarlo.MonteCarloReliability | reliability.py:12-56 | the nested loops with the early break return the fraction of successful trials, or the division error, and consume exactly the draws the trials use one after another |
| MonteCarlo.TrialSucceedsIffAllSurvive | reliability.py:39-53 | a trial is counted as a success if and only if every subsystem's draw is at least its failure probability |
| MonteCarlo.TrialStopsAtFirstFailure | reliability.py:42-49 | a failed trial stops at its first failing subsystem: with c draws consumed, draw c-1 is below its probability and every earlier draw is not |
| MonteCarlo.TrialReadsOnlyConsumedDraws | reliability.py:42-49 | a trial's outcome depends only on the draws it consumes, so the draws skipped by the break go to the next trial |
| MonteCarlo.SimulateAllSucceed | reliability.py:34-53 | if every trial succeeds wherever it starts in the stream, n trials count n successes and consume n times the number of subsystems draws |
| MonteCarlo.SimulateAllFail | reliability.py:34-53 | if every trial fails wherever it starts in the stream, no success is counted |
| MonteCarlo.EmptySystemEstimatesOne | reliability.py:39-56 | with no subsystems and a positive n_samples, the estimate is 1 and no draw is consumed |
| MonteCarlo.FaultlessSystemEstimatesOne | reliability.py:39-56 | with draws in [0, 1) and every failure probability at most 0, the estimate is 1 and every trial draws once per subsystem |
| MonteCarlo.CertainFailureEstimatesZero | reliability.py:39-56 | with draws in [0, 1), a subsystem with failure probability at least 1 and a nonzero n_samples, the estimate is 0 |
| MonteCarlo.ShortCircuitExample | reliability.py:42-56 | for probabilities [0.5, 0.5] and draws 0.1, 0.9, 0.6, the first trial fails after one draw, two trials consume three draws, and the estimate is 1/2 |
| Analytical.PartialProduct | reliability.py:83-85 | the running product after n loop iterations: (1 - p) multiplied in over the first n subsystems, in order, starting from 1 |
| Analytical.Product | reliability.py:63-65 | the reliability R = (1 - p1) × ... × (1 - pN) that the loop is proved to compute and that the lemmas below bound |
| Analytical.AnalyticalReliability | reliability.py:80-87 | the accumulator loop returns the product of (1 - p) over the subsystems in order, and 1 for no subsystems |
| Analytical.PartialProductPrefix | reliability.py:83-85 | the product over the first n subsystems depends only on those n failure probabilities |
| Analytical.ProductAppend | reliability.py:83-85 | the product over two groups of subsystems placed one after the other is the product of the two groups' products |
| Analytical.ProductInUnitInterval | reliability.py:80-87 | if every failure probability is in [0, 1], the analytical reliability is in [0, 1] |
| Analytical.ProductNonNegative | reliability.py:80-87 | if every failure probability is at most 1, the analytical reliability is not negative |
| Analytical.ProductPositive | reliability.py:80-87 | if every failure probability is below 1, the analytical reliability is positive |
| Analytical.ProductZeroOnCertainFailure | reliability.py:80-87 | if some subsystem's failure probability is 1, the analytical reliability is 0 |
| Analytical.PartialProductMonotone | reliability.py:83-85 | once subsystem k has been multiplied in, raising its failure probability never increases the running product, if the other subsystems' probabilities are at most 1 |
| Analytical.ProductMonotone | reliability.py:83-85 | raising one subsystem's failure probability while the others stay fixed and at most 1 never increases the analytical reliability |
| Analytical.PartialProductStrictlyMonotone | reliability.py:83-85 | once subsystem k has been multiplied in, strictly raising its failure probability strictly lowers the running product, if the others are below 1 |
| Analytical.ProductStrictlyMonotone | reliability.py:83-85 | if the other failure probabilities are below 1, strictly raising one subsystem's failure probability strictly lowers the analytical reliability |
| Analytical.FiveSubsystemExample | reliability.py:101 | for the failure probabilities [0.01, 0.02, 0.015, 0.01, 0.025], the analytical reliability is exactly 0.92243826675 |

Notes on the code's behaviour at its edges:

- The code does not check that the failure probabilities lie in [0, 1], that
  the list is non-empty, or that `n_samples` is positive. The model accepts any
  reals and an empty list. It fails only for `n_samples` = 0, as Python's
  division does, and returns 0 for a negative count.
- For the five-subsystem configuration at reliability.py:101, the product
  0.99 × 0.98 × 0.985 × 0.99 × 0.975 is exactly 0.92243826675
  (`FiveSubsystemExample`).

## Left out

- IEEE floating-point rounding in `1.0 - fail_prob`, `reliability *= ...` and
  `successes / n_samples`. The model uses exact `real` arithmetic, and a
  negative sample count gives 0 rather than the float -0.0.
- The random generator `np.random.random()` itself, and its distribution. It
  becomes the explicit argument `draw`. The model does not track the
  generator's state before the call or after it. It only reports how many
  draws the call consumed.
- Statistical claims, such as the Monte Carlo estimate converging to the
  analytical value. Proving them needs probability theory, not reasoning
  about the program.
- The `__main__` reporting harness (reliability.py:94-137). It formats and
  prints results, absolute and relative errors, and the 0.001 verification
  message. Only its five-subsystem configuration appears, in
  `FiveSubsystemExample`.
- The unused `matplotlib` import.
- Non-numeric or non-integer arguments, which Python would reject at run time.
