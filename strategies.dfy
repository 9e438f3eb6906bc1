/** The value-estimation rules of the simulator (src/strategies.py): each rule rewrites the per-arm
    preference vector after one reward. The pure functions below give each rule's effect on values;
    the classes update arrays and fields in place, as the Python objects do, and are proved against them. */
module Strategies {
  import opened Wrappers
  import opened Averages

  type Positive = r: real | 0.0 < r witness 1.0

  /** Stand-in for numpy's `exp`: an uninterpreted function, known only to be positive. */
  type Exponential = real -> Positive

  /** The value view of a strategy object: its hyperparameters and the state it keeps between calls.
      `bonus(t, n)` stands for `(log(t) / n) ** 0.5`, which the model leaves uninterpreted. */
  datatype State =
    | SampleAveragesState
    | ConstantStepSizeState(alpha: real)
    | UCBState(c: real, bonus: (nat, nat) -> real, time: nat, values: Option<seq<real>>)
    | GradientBanditState(alpha: real, exp: Exponential, meanReward: real, time: nat, probs: Option<seq<real>>)

  /** One `estimate_values` call, as a value. */
  datatype Call = Call(preferences: seq<real>, counts: seq<nat>, indx: nat, reward: real)

  /** Any internal vector the strategy already holds has length `n`. */
  predicate Fits(s: State, n: nat)
  {
    match s
    case UCBState(_, _, _, values) => values.None? || |values.value| == n
    case GradientBanditState(_, _, _, _, probs) => probs.None? || |probs.value| == n
    case _ => true
  }

  /** What each rule's `estimate_values` needs of its arguments to stay clear of an IndexError,
      a division by a zero count, or numpy refusing to combine vectors of different lengths. */
  predicate Admissible(s: State, preferences: seq<real>, counts: seq<nat>, indx: nat)
  {
    match s
    case SampleAveragesState => indx < |preferences| && indx < |counts| && counts[indx] > 0
    case ConstantStepSizeState(_) => indx < |preferences|
    case UCBState(_, _, _, _) =>
      indx < |preferences| && |counts| == |preferences| && counts[indx] > 0 && Fits(s, |preferences|)
    case GradientBanditState(_, _, _, _, _) => indx < |preferences| && Fits(s, |preferences|)
  }

  function Zeros(n: nat): (z: seq<real>)
    ensures |z| == n && forall i :: 0 <= i < n ==> z[i] == 0.0
  {
    seq(n, i => 0.0)
  }

  // ---------------------------------------------------------------- sample averages

  /** One sample-average step: move `q` towards `reward` by 1/count of the difference. */
  function SampleAverage(q: real, count: nat, reward: real): real
    requires count > 0
  {
    q + 1.0 / (count as real) * (reward - q)
  }

  /** The first sample replaces the estimate, and no sample-average step overshoots the reward. */
  lemma {:induction false} SampleAverageBounds(q: real, count: nat, reward: real)
    requires count > 0
    ensures count == 1 ==> SampleAverage(q, count, reward) == reward
    ensures Between(q, SampleAverage(q, count, reward), reward)
  {
    InverseAtMostOne(count);
    StepBetween(q, 1.0 / (count as real), reward);
  }

  /** `r` lies between `q` and `reward`, inclusive. */
  predicate Between(q: real, r: real, reward: real)
  {
    (q <= reward ==> q <= r <= reward) && (reward <= q ==> reward <= r <= q)
  }

  /** 1/count is a weight in (0, 1]. */
  lemma {:induction false} InverseAtMostOne(count: nat)
    requires count > 0
    ensures 0.0 < 1.0 / (count as real) <= 1.0
  {
    var w := 1.0 / (count as real);
    assert w * (count as real) == 1.0;
  }

  /** A step by a weight in [0, 1] lands between the estimate and the reward. */
  lemma {:induction false} StepBetween(q: real, w: real, reward: real)
    ensures 0.0 <= w <= 1.0 ==> Between(q, q + w * (reward - q), reward)
  {
    if 0.0 <= w <= 1.0 {
      var d := if q <= reward then reward - q else q - reward;
      NonNegativeProduct(w, d);
      NonNegativeProduct(1.0 - w, d);
    }
  }

  /** A product of two non-negative reals is non-negative. */
  lemma {:induction false} NonNegativeProduct(a: real, b: real)
    requires 0.0 <= a && 0.0 <= b
    ensures 0.0 <= a * b
  {
  }

  /** `SampleAverages.estimate_values`: only the chosen entry moves, by the sample-average step. */
  function EstimateSampleAverages(preferences: seq<real>, counts: seq<nat>, indx: nat, reward: real): (r: seq<real>)
    requires indx < |preferences| && indx < |counts| && counts[indx] > 0
    ensures |r| == |preferences|
    ensures r[indx] == SampleAverage(preferences[indx], counts[indx], reward)
    ensures forall j :: 0 <= j < |r| && j != indx ==> r[j] == preferences[j]
  {
    preferences[indx := SampleAverage(preferences[indx], counts[indx], reward)]
  }

  /** The estimate of one arm after the rewards `rs`, its count running 1, 2, ..., |rs|. */
  function SampleAveraged(q: real, rs: seq<real>): real
  {
    if rs == [] then q else SampleAverage(SampleAveraged(q, rs[..|rs| - 1]), |rs|, rs[|rs| - 1])
  }

  /** Whatever the starting estimate, after k sample-average updates the estimate is the
      arithmetic mean of the k rewards. */
  lemma {:induction false} SampleAveragesTrackMean(q: real, rs: seq<real>)
    requires |rs| > 0
    ensures SampleAveraged(q, rs) == Mean(rs)
    decreases |rs|
  {
    var k := |rs| - 1;
    if k > 0 {
      SampleAveragesTrackMean(q, rs[..k]);
    }
    assert rs[..k] + [rs[k]] == rs;
    IncrementalMean(SampleAveraged(q, rs[..k]), rs[..k], rs[k]);
  }

  // ---------------------------------------------------------------- constant step size

  /** One constant-step-size step. */
  function ConstantStep(alpha: real, q: real, reward: real): real
  {
    q + alpha * (reward - q)
  }

  /** A zero step size keeps the estimate, a unit step size takes the reward, and a step size in [0, 1]
      lands between the two. */
  lemma {:induction false} ConstantStepBounds(alpha: real, q: real, reward: real)
    ensures alpha == 0.0 ==> ConstantStep(alpha, q, reward) == q
    ensures alpha == 1.0 ==> ConstantStep(alpha, q, reward) == reward
    ensures 0.0 <= alpha <= 1.0 ==> Between(q, ConstantStep(alpha, q, reward), reward)
  {
    StepBetween(q, alpha, reward);
  }

  /** `ConstantStepSize.estimate_values`: only the chosen entry moves, by the constant step. */
  function EstimateConstantStepSize(alpha: real, preferences: seq<real>, indx: nat, reward: real): (r: seq<real>)
    requires indx < |preferences|
    ensures |r| == |preferences|
    ensures r[indx] == preferences[indx] + alpha * (reward - preferences[indx])
    ensures forall j :: 0 <= j < |r| && j != indx ==> r[j] == preferences[j]
  {
    preferences[indx := ConstantStep(alpha, preferences[indx], reward)]
  }

  function Pow(x: real, k: nat): real
  {
    if k == 0 then 1.0 else x * Pow(x, k - 1)
  }

  /** The estimate of one arm after the rewards `rs`, applied in order, under a constant step size. */
  function ConstantStepped(alpha: real, q: real, rs: seq<real>): real
    decreases |rs|
  {
    if rs == [] then q else ConstantStepped(alpha, ConstantStep(alpha, q, rs[0]), rs[1..])
  }

  /** The sum of `rs` in which the i-th of k rewards carries weight alpha * (1 - alpha)^(k-1-i). */
  function RecencyWeighted(alpha: real, rs: seq<real>): real
    decreases |rs|
  {
    if rs == [] then 0.0 else alpha * Pow(1.0 - alpha, |rs| - 1) * rs[0] + RecencyWeighted(alpha, rs[1..])
  }

  /** A constant step size gives an exponential recency-weighted average: after k rewards the
      estimate is (1-alpha)^k times the starting estimate plus the recency-weighted sum of the rewards. */
  lemma {:induction false} ConstantStepIsRecencyWeighted(alpha: real, q: real, rs: seq<real>)
    ensures ConstantStepped(alpha, q, rs) == Pow(1.0 - alpha, |rs|) * q + RecencyWeighted(alpha, rs)
    decreases |rs|
  {
    if rs == [] {
      assert Pow(1.0 - alpha, 0) == 1.0;
    } else {
      var stepped := ConstantStep(alpha, q, rs[0]);
      ConstantStepIsRecencyWeighted(alpha, stepped, rs[1..]);
      UnfoldRecencyWeighted(alpha, q, rs);
      RegroupStep(alpha, 1.0 - alpha, q, rs[0], stepped, Pow(1.0 - alpha, |rs| - 1), Pow(1.0 - alpha, |rs|),
        RecencyWeighted(alpha, rs[1..]), ConstantStepped(alpha, q, rs), RecencyWeighted(alpha, rs));
    }
  }

  /** One unfolding of each function that ConstantStepIsRecencyWeighted is about. */
  lemma {:induction false} UnfoldRecencyWeighted(alpha: real, q: real, rs: seq<real>)
    requires rs != []
    ensures ConstantStepped(alpha, q, rs) == ConstantStepped(alpha, ConstantStep(alpha, q, rs[0]), rs[1..])
    ensures RecencyWeighted(alpha, rs) == alpha * Pow(1.0 - alpha, |rs| - 1) * rs[0] + RecencyWeighted(alpha, rs[1..])
    ensures Pow(1.0 - alpha, |rs|) == (1.0 - alpha) * Pow(1.0 - alpha, |rs| - 1)
    ensures ConstantStep(alpha, q, rs[0]) == q + alpha * (rs[0] - q)
    ensures |rs[1..]| == |rs| - 1
  {
  }

  /** The algebra of one step of ConstantStepIsRecencyWeighted, over plain reals. */
  lemma {:induction false} RegroupStep(a: real, b: real, q: real, r: real, s: real, p: real, pb: real, w: real, lhs: real, rw: real)
    requires b == 1.0 - a
    requires s == q + a * (r - q)
    requires pb == b * p
    requires lhs == p * s + w
    requires rw == a * p * r + w
    ensures lhs == pb * q + rw
  {
  }

  // ---------------------------------------------------------------- upper confidence bound

  /** `UCB._init_values`: the value table, created as zeros of the given length when absent. */
  function InitialValues(values: Option<seq<real>>, length: nat): (v: seq<real>)
    ensures values.None? ==> v == Zeros(length)
    ensures values.Some? ==> v == values.value
  {
    if values.None? then Zeros(length) else values.value
  }

  /** `UCB.estimate_values`: tick the clock, sample-average the chosen entry of the internal table,
      and return the table plus c times the exploration bonus of each arm. */
  function EstimateUCB(s: State, preferences: seq<real>, counts: seq<nat>, indx: nat, reward: real): (r: (State, seq<real>))
    requires s.UCBState? && Admissible(s, preferences, counts, indx)
    ensures r.0.UCBState? && r.0.c == s.c && r.0.bonus == s.bonus
    ensures r.0.time == s.time + 1
    ensures r.0.values.Some? && |r.0.values.value| == |preferences|
    ensures r.0.values.value == InitialValues(s.values, |preferences|)[indx := SampleAverage(InitialValues(s.values, |preferences|)[indx], counts[indx], reward)]
    ensures |r.1| == |preferences|
    ensures forall i :: 0 <= i < |preferences| ==> r.1[i] == r.0.values.value[i] + s.c * s.bonus(r.0.time, counts[i])
  {
    var values := InitialValues(s.values, |preferences|);
    var time := s.time + 1;
    var updated := values[indx := SampleAverage(values[indx], counts[indx], reward)];
    (UCBState(s.c, s.bonus, time, Some(updated)), WithBonus(updated, s.c, s.bonus, time, counts))
  }

  /** `values + c * (log(time) / counts) ** 0.5`, entry by entry. */
  function WithBonus(values: seq<real>, c: real, bonus: (nat, nat) -> real, time: nat, counts: seq<nat>): (r: seq<real>)
    requires |counts| == |values|
    ensures |r| == |values| && forall i :: 0 <= i < |values| ==> r[i] == values[i] + c * bonus(time, counts[i])
  {
    seq(|values|, i requires 0 <= i < |values| => values[i] + c * bonus(time, counts[i]))
  }

  // ---------------------------------------------------------------- gradient bandit

  /** `GradientBandit._init_probs`: the uniform distribution when no probabilities are held yet. */
  function InitialProbs(probs: Option<seq<real>>, length: nat): (p: seq<real>)
    ensures probs.None? ==> |p| == length && forall i :: 0 <= i < length ==> p[i] == 1.0 / (length as real)
    ensures probs.Some? ==> p == probs.value
  {
    if probs.None? then seq(length, i requires 0 <= i < length => 1.0 / (length as real)) else probs.value
  }

  /** `GradientBandit._derive_probs`: the softmax of the preferences. Every entry is positive
      and, for a non-empty vector, the entries sum to 1. */
  function Softmax(exp: Exponential, preferences: seq<real>): (p: seq<real>)
    ensures |p| == |preferences|
    ensures forall i :: 0 <= i < |p| ==> 0.0 < p[i]
    ensures |p| > 0 ==> Sum(p) == 1.0
  {
    var e: seq<real> := seq(|preferences|, i requires 0 <= i < |preferences| => exp(preferences[i]) as real);
    if |e| == 0 then [] else
      SumPositive(e);
      var total := Sum(e);
      var p: seq<real> := seq(|e|, i requires 0 <= i < |e| => e[i] / total);
      SumDivided(e, p, total);
      assert Sum(p) == total / total == 1.0;
      p
  }

  /** A probability vector: positive entries summing to 1. */
  predicate Distribution(p: seq<real>)
  {
    (forall i :: 0 <= i < |p| ==> 0.0 < p[i]) && Sum(p) == 1.0
  }

  /** `GradientBandit.estimate_values`: tick the clock, fold the reward into the mean reward, lower
      every preference by alpha * (reward - mean) * probs[j] and raise the chosen one by
      alpha * (reward - mean), both with the mean that already includes this reward; then derive the
      probabilities from the new preferences. */
  function EstimateGradient(s: State, preferences: seq<real>, indx: nat, reward: real): (r: (State, seq<real>))
    requires s.GradientBanditState? && indx < |preferences| && Fits(s, |preferences|)
    ensures r.0.GradientBanditState? && r.0.alpha == s.alpha && r.0.exp == s.exp
    ensures r.0.time == s.time + 1
    ensures r.0.meanReward == SampleAverage(s.meanReward, r.0.time, reward)
    ensures r.0.probs == Some(Softmax(s.exp, r.1))
    ensures r.1 == GradientStep(preferences, InitialProbs(s.probs, |preferences|), indx, s.alpha, reward, r.0.meanReward)
  {
    var probs := InitialProbs(s.probs, |preferences|);
    var time := s.time + 1;
    var mean := SampleAverage(s.meanReward, time, reward);
    var raised := GradientStep(preferences, probs, indx, s.alpha, reward, mean);
    (GradientBanditState(s.alpha, s.exp, mean, time, Some(Softmax(s.exp, raised))), raised)
  }

  /** The uniform starting vector is a probability vector. */
  lemma {:induction false} UniformIsDistribution(n: nat)
    requires n > 0
    ensures Distribution(InitialProbs(None, n))
  {
    var u := InitialProbs(None, n);
    SumConstant(u, 1.0 / (n as real));
    assert (n as real) * (1.0 / (n as real)) == 1.0;
  }

  /** The preference step of the gradient rule with d = alpha * (reward - mean): lower every preference
      by d * pi[j], then raise the chosen one by d. */
  function GradientStep(preferences: seq<real>, pi: seq<real>, indx: nat, alpha: real, reward: real, mean: real): (r: seq<real>)
    requires |pi| == |preferences| && indx < |preferences|
    ensures |r| == |preferences|
  {
    var d := alpha * (reward - mean);
    var lowered := ScaledDifference(preferences, d, pi);
    lowered[indx := lowered[indx] + d]
  }

  /** EstimateGradient, assembled from its parts. */
  lemma {:induction false} EstimateGradientIs(s: State, preferences: seq<real>, indx: nat, reward: real, time: nat, mean: real, raised: seq<real>)
    requires s.GradientBanditState? && indx < |preferences| && Fits(s, |preferences|)
    requires time == s.time + 1 && mean == SampleAverage(s.meanReward, time, reward)
    requires raised == GradientStep(preferences, InitialProbs(s.probs, |preferences|), indx, s.alpha, reward, mean)
    ensures EstimateGradient(s, preferences, indx, reward) == (GradientBanditState(s.alpha, s.exp, mean, time, Some(Softmax(s.exp, raised))), raised)
  {
  }

  lemma {:induction false} GradientStepUnfold(preferences: seq<real>, pi: seq<real>, indx: nat, alpha: real, reward: real, mean: real)
    requires |pi| == |preferences| && indx < |preferences|
    ensures var lowered := ScaledDifference(preferences, alpha * (reward - mean), pi);
            GradientStep(preferences, pi, indx, alpha, reward, mean) == lowered[indx := lowered[indx] + alpha * (reward - mean)]
  {
  }

  /** The step is the stochastic-gradient-ascent step on the preferences: the chosen preference gains
      d * (1 - pi[indx]) and every other preference loses d * pi[j]. */
  lemma {:induction false} GradientStepIsPolicyGradient(preferences: seq<real>, pi: seq<real>, indx: nat, alpha: real, reward: real, mean: real)
    requires |pi| == |preferences| && indx < |preferences|
    ensures var r, d := GradientStep(preferences, pi, indx, alpha, reward, mean), alpha * (reward - mean);
            && r[indx] == preferences[indx] + d * (1.0 - pi[indx])
            && forall j :: 0 <= j < |preferences| && j != indx ==> r[j] == preferences[j] - d * pi[j]
  {
    var d := alpha * (reward - mean);
    forall j | 0 <= j < |preferences|
      ensures ScaledDifference(preferences, d, pi)[j] == preferences[j] - d * pi[j]
    {
      ScaledDifferenceAt(preferences, d, pi, j);
    }
    var x := preferences[indx] - d * pi[indx];
    assert x + d == preferences[indx] + d * (1.0 - pi[indx]);
  }

  /** When pi sums to 1 the step moves preferences without changing their total. */
  lemma {:induction false} GradientStepKeepsTotal(preferences: seq<real>, pi: seq<real>, indx: nat, alpha: real, reward: real, mean: real)
    requires |pi| == |preferences| && indx < |preferences|
    requires Sum(pi) == 1.0
    ensures Sum(GradientStep(preferences, pi, indx, alpha, reward, mean)) == Sum(preferences)
  {
    var d := alpha * (reward - mean);
    var lowered := ScaledDifference(preferences, d, pi);
    var step := lowered[indx := lowered[indx] + d];
    GradientStepUnfold(preferences, pi, indx, alpha, reward, mean);
    ShiftKeepsTotal(preferences, pi, indx, d, lowered, step);
    assert GradientStep(preferences, pi, indx, alpha, reward, mean) == step;
  }

  /** Lowering every entry by d * pi[j] and raising one entry by d keeps the total when pi sums to 1. */
  lemma {:induction false} ShiftKeepsTotal(preferences: seq<real>, pi: seq<real>, indx: nat, d: real, lowered: seq<real>, step: seq<real>)
    requires |pi| == |preferences| && indx < |preferences|
    requires Sum(pi) == 1.0
    requires lowered == ScaledDifference(preferences, d, pi) && step == lowered[indx := lowered[indx] + d]
    ensures Sum(step) == Sum(preferences)
  {
    LoweredTotal(preferences, pi, d, lowered);
    SumUpdate(lowered, indx, lowered[indx] + d);
  }

  /** Lowering every entry by d * pi[j] lowers the total by d when pi sums to 1. */
  lemma {:induction false} LoweredTotal(preferences: seq<real>, pi: seq<real>, d: real, lowered: seq<real>)
    requires |pi| == |preferences| && Sum(pi) == 1.0
    requires lowered == ScaledDifference(preferences, d, pi)
    ensures Sum(lowered) == Sum(preferences) - d
  {
    SumScaledDifference(preferences, d, pi);
    var mass := Sum(pi);
    assert d * mass == d;
  }

  // ---------------------------------------------------------------- dispatch

  /** One `estimate_values` call of whichever rule `s` is: the new strategy state and the returned preferences. */
  function Estimate(s: State, preferences: seq<real>, counts: seq<nat>, indx: nat, reward: real): (r: (State, seq<real>))
    requires Admissible(s, preferences, counts, indx)
    ensures |r.1| == |preferences|
    ensures Fits(r.0, |preferences|)
  {
    match s
    case SampleAveragesState => (s, EstimateSampleAverages(preferences, counts, indx, reward))
    case ConstantStepSizeState(alpha) => (s, EstimateConstantStepSize(alpha, preferences, indx, reward))
    case UCBState(_, _, _, _) => EstimateUCB(s, preferences, counts, indx, reward)
    case GradientBanditState(_, _, _, _, _) => EstimateGradient(s, preferences, indx, reward)
  }

  // ---------------------------------------------------------------- sequences of calls

  /** The call passes vectors of length n, a valid arm and a positive count for it, as a player does. */
  predicate CallFits(c: Call, n: nat)
  {
    |c.preferences| == n && |c.counts| == n && c.indx < n && c.counts[c.indx] > 0
  }

  predicate CallsAdmissible(calls: seq<Call>, n: nat)
    decreases |calls|
  {
    calls == [] || (CallFits(calls[0], n) && CallsAdmissible(calls[1..], n))
  }

  /** The strategy state after the calls, in order. */
  function After(s: State, calls: seq<Call>, n: nat): (r: State)
    requires Fits(s, n) && CallsAdmissible(calls, n)
    ensures Fits(r, n)
    decreases |calls|
  {
    if calls == [] then s else
      var c := calls[0];
      After(Estimate(s, c.preferences, c.counts, c.indx, c.reward).0, calls[1..], n)
  }

  /** The rewards the calls pass, in order. */
  function Rewards(calls: seq<Call>): (rs: seq<real>)
    ensures |rs| == |calls|
    decreases |calls|
  {
    if calls == [] then [] else [calls[0].reward] + Rewards(calls[1..])
  }

  lemma {:induction false} RewardsRegroup(past: seq<real>, calls: seq<Call>)
    requires calls != []
    ensures past + [calls[0].reward] + Rewards(calls[1..]) == past + Rewards(calls)
  {
    var x, rest := [calls[0].reward], Rewards(calls[1..]);
    assert Rewards(calls) == x + rest;
    assert past + x + rest == past + (x + rest);
  }

  /** Sample averages and constant step size keep no state of their own. */
  lemma {:induction false} StatelessRulesStayPut(s: State, calls: seq<Call>, n: nat)
    requires s.SampleAveragesState? || s.ConstantStepSizeState?
    requires CallsAdmissible(calls, n)
    ensures After(s, calls, n) == s
    decreases |calls|
  {
    if calls != [] {
      StatelessRulesStayPut(s, calls[1..], n);
    }
  }

  /** UCB's clock advances by one per call, c and the bonus never change, and the value table exists
      (with one entry per arm) from the first call on. */
  lemma {:induction false} UCBClock(s: State, calls: seq<Call>, n: nat)
    requires s.UCBState? && Fits(s, n) && CallsAdmissible(calls, n)
    ensures var r := After(s, calls, n);
            && r.UCBState? && r.c == s.c && r.bonus == s.bonus
            && r.time == s.time + |calls|
            && (|calls| > 0 ==> r.values.Some? && |r.values.value| == n)
    decreases |calls|
  {
    if calls != [] {
      var c := calls[0];
      var next := Estimate(s, c.preferences, c.counts, c.indx, c.reward).0;
      UCBClock(next, calls[1..], n);
    }
  }

  /** What GradientBandit's fields mean once it has been given `rewards`: the clock counts them, the mean
      reward is their arithmetic mean, and it holds a probability vector. */
  predicate GradientInvariant(s: State, rewards: seq<real>)
  {
    && s.GradientBanditState?
    && s.time == |rewards|
    && (|rewards| > 0 ==> s.meanReward == Mean(rewards) && s.probs.Some? && Distribution(s.probs.value))
  }

  /** One call keeps GradientInvariant with the call's reward appended, and keeps alpha and exp. */
  lemma {:induction false} GradientStepKeepsInvariant(s: State, rewards: seq<real>, c: Call, n: nat)
    requires GradientInvariant(s, rewards) && Fits(s, n)
    requires CallFits(c, n)
    ensures var r := Estimate(s, c.preferences, c.counts, c.indx, c.reward).0;
            GradientInvariant(r, rewards + [c.reward]) && r.alpha == s.alpha && r.exp == s.exp
  {
    IncrementalMean(s.meanReward, rewards, c.reward);
  }

  /** GradientBandit's mean reward is the arithmetic mean of every reward it has been given,
      its clock counts them, and from the first call on it holds a probability vector over the arms. */
  lemma {:induction false} GradientMeanIsMean(s: State, past: seq<real>, calls: seq<Call>, n: nat)
    requires GradientInvariant(s, past) && Fits(s, n) && CallsAdmissible(calls, n)
    ensures GradientInvariant(After(s, calls, n), past + Rewards(calls))
    ensures After(s, calls, n).alpha == s.alpha && After(s, calls, n).exp == s.exp
    decreases |calls|
  {
    if calls == [] {
      assert past + Rewards(calls) == past;
      assert After(s, calls, n) == s;
      assert GradientInvariant(After(s, calls, n), past + Rewards(calls));
    } else {
      var c := calls[0];
      GradientStepKeepsInvariant(s, past, c, n);
      var next := Estimate(s, c.preferences, c.counts, c.indx, c.reward).0;
      GradientMeanIsMean(next, past + [c.reward], calls[1..], n);
      var rs := past + [c.reward] + Rewards(calls[1..]);
      RewardsRegroup(past, calls);
      assert After(s, calls, n) == After(next, calls[1..], n);
      assert GradientInvariant(After(next, calls[1..], n), rs);
      assert GradientInvariant(After(s, calls, n), past + Rewards(calls));
    }
  }

  // ---------------------------------------------------------------- the strategy objects

  /** `SampleAverages`: keeps nothing; writes the chosen entry of the caller's array and hands that array back. */
  class SampleAverages {
    /** The strategy keeps no vector, so it fits a bandit with any number of arms. */
    constructor ()
      ensures forall n: nat :: Fits(SampleAveragesRule(this).Model(), n)
    {
    }

    method EstimateValues(preferences: array<real>, numberOfActions: array<nat>, indx: nat, reward: real) returns (r: array<real>)
      requires indx < preferences.Length && indx < numberOfActions.Length && numberOfActions[indx] > 0
      modifies preferences
      ensures r == preferences
      ensures preferences[..] == EstimateSampleAverages(old(preferences[..]), numberOfActions[..], indx, reward)
    {
      preferences[indx] := SampleAverage(preferences[indx], numberOfActions[indx], reward);
      r := preferences;
    }
  }

  /** `ConstantStepSize`: keeps only its step size; writes the chosen entry of the caller's array and hands it back. */
  class ConstantStepSize {
    const alpha: real

    constructor (alpha: real := 0.1)
      ensures this.alpha == alpha
    {
      this.alpha := alpha;
    }

    method EstimateValues(preferences: array<real>, numberOfActions: array<nat>, indx: nat, reward: real) returns (r: array<real>)
      requires indx < preferences.Length
      modifies preferences
      ensures r == preferences
      ensures preferences[..] == EstimateConstantStepSize(alpha, old(preferences[..]), indx, reward)
    {
      preferences[indx] := ConstantStep(alpha, preferences[indx], reward);
      r := preferences;
    }
  }

  /** `UCB`: a clock that starts at 1 and a value table created on the first call. */
  class UCB {
    const c: real
    const bonus: (nat, nat) -> real
    var time: nat
    var values: array?<real>

    function Model(): State
      reads this, values
    {
      UCBState(c, bonus, time, if values == null then None else Some(values[..]))
    }

    constructor (c: real := 2.0, bonus: (nat, nat) -> real)
      ensures Model() == UCBState(c, bonus, 1, None)
    {
      this.c, this.bonus := c, bonus;
      time, values := 1, null;
    }

    /** `_init_values`: zeros of the given length, only when there is no table yet. */
    method InitValues(length: nat)
      modifies this`values
      ensures old(values) == null ==> fresh(values)
      ensures old(values) != null ==> values == old(values)
      ensures values != null && values[..] == InitialValues(old(Model()).values, length)
    {
      if values == null {
        values := new real[length](i => 0.0);
      }
    }

    /** `estimate_values`: returns a new array; the caller's preferences are only measured. */
    method EstimateValues(preferences: array<real>, numberOfActions: array<nat>, indx: nat, reward: real) returns (r: array<real>)
      requires Admissible(Model(), preferences[..], numberOfActions[..], indx)
      modifies this, values
      ensures fresh(r) && values != null && values != r
      ensures old(values) == null ==> fresh(values)
      ensures old(values) != null ==> values == old(values)
      ensures (Model(), r[..]) == EstimateUCB(old(Model()), old(preferences[..]), numberOfActions[..], indx, reward)
    {
      ghost var before := Model();
      ghost var prefs := preferences[..];
      if values == null {
        InitValues(preferences.Length);
      }
      ghost var initial := values[..];
      time := time + 1;
      values[indx] := SampleAverage(values[indx], numberOfActions[indx], reward);
      assert values[..] == initial[indx := SampleAverage(initial[indx], numberOfActions[indx], reward)];
      r := AddBonus(values, c, bonus, time, numberOfActions);
    }

    /** A new array holding `WithBonus` of the table. */
    static method AddBonus(values: array<real>, c: real, bonus: (nat, nat) -> real, time: nat, counts: array<nat>) returns (r: array<real>)
      requires counts.Length == values.Length
      ensures fresh(r) && r[..] == WithBonus(values[..], c, bonus, time, counts[..])
    {
      r := new real[values.Length];
      forall i | 0 <= i < r.Length {
        r[i] := values[i] + c * bonus(time, counts[i]);
      }
      ghost var expected := WithBonus(values[..], c, bonus, time, counts[..]);
      assert forall i :: 0 <= i < r.Length ==> r[i] == expected[i];
    }
  }

  /** `GradientBandit`: a clock and a running mean reward, both from 0, and the probabilities of its last update. */
  class GradientBandit {
    const alpha: real
    const exp: Exponential
    var meanReward: real
    var time: nat
    var probs: Option<seq<real>>

    function Model(): State
      reads this
    {
      GradientBanditState(alpha, exp, meanReward, time, probs)
    }

    constructor (alpha: real := 0.1, exp: Exponential)
      ensures Model() == GradientBanditState(alpha, exp, 0.0, 0, None)
    {
      this.alpha, this.exp := alpha, exp;
      meanReward, time, probs := 0.0, 0, None;
    }

    /** `_init_probs`: the uniform vector, only when there are no probabilities yet. */
    method InitProbs(length: nat)
      modifies this`probs
      ensures probs == Some(InitialProbs(old(probs), length))
    {
      if probs.None? {
        probs := Some(seq(length, i requires 0 <= i < length => 1.0 / (length as real)));
      }
    }

    /** `_derive_probs`: the softmax of the given preferences. */
    method DeriveProbs(preferences: array<real>)
      modifies this`probs
      ensures probs == Some(Softmax(exp, old(preferences[..])))
    {
      probs := Some(Softmax(exp, preferences[..]));
    }

    /** `estimate_values`: rewrites the caller's array in place and hands it back. */
    method EstimateValues(preferences: array<real>, numberOfActions: array<nat>, indx: nat, reward: real) returns (r: array<real>)
      requires indx < preferences.Length && Fits(Model(), preferences.Length)
      modifies this, preferences
      ensures r == preferences
      ensures (Model(), preferences[..]) == EstimateGradient(old(Model()), old(preferences[..]), indx, reward)
    {
      ghost var before := Model();
      ghost var prefs := preferences[..];
      if probs.None? {
        InitProbs(preferences.Length);
      }
      time := time + 1;
      meanReward := SampleAverage(meanReward, time, reward);
      var pi := probs.value;
      assert pi == InitialProbs(before.probs, preferences.Length);
      Step(preferences, pi, indx, alpha, reward, meanReward);
      ghost var raised := preferences[..];
      EstimateGradientIs(before, prefs, indx, reward, time, meanReward, raised);
      DeriveProbs(preferences);
      assert probs == Some(Softmax(exp, raised));
      r := preferences;
    }

    /** `preferences -= step * pi` followed by `preferences[indx] += step`, in place,
        with step = alpha * (reward - mean). */
    static method Step(preferences: array<real>, pi: seq<real>, indx: nat, alpha: real, reward: real, mean: real)
      requires |pi| == preferences.Length && indx < preferences.Length
      modifies preferences
      ensures preferences[..] == GradientStep(old(preferences[..]), pi, indx, alpha, reward, mean)
    {
      ghost var prefs := preferences[..];
      var step := alpha * (reward - mean);
      Lower(preferences, step, pi);
      ghost var lowered := preferences[..];
      preferences[indx] := preferences[indx] + step;
      assert preferences[..] == lowered[indx := lowered[indx] + step];
      GradientStepUnfold(prefs, pi, indx, alpha, reward, mean);
    }

    /** `preferences -= step * pi`, in place. */
    static method Lower(preferences: array<real>, step: real, pi: seq<real>)
      requires |pi| == preferences.Length
      modifies preferences
      ensures preferences[..] == ScaledDifference(old(preferences[..]), step, pi)
    {
      ghost var prefs := preferences[..];
      forall j | 0 <= j < preferences.Length {
        preferences[j] := preferences[j] - step * pi[j];
      }
      forall j | 0 <= j < preferences.Length
        ensures preferences[j] == ScaledDifference(prefs, step, pi)[j]
      {
        ScaledDifferenceAt(prefs, step, pi, j);
      }
    }
  }

  /** The strategy a player follows: one of the four rules, as the object that implements it. */
  datatype Rule =
    | SampleAveragesRule(sampleAverages: SampleAverages)
    | ConstantStepSizeRule(constantStepSize: ConstantStepSize)
    | UCBRule(ucb: UCB)
    | GradientBanditRule(gradientBandit: GradientBandit)
  {
    /** The rule object itself. */
    function Holder(): object
    {
      match this
      case SampleAveragesRule(o) => o
      case ConstantStepSizeRule(o) => o
      case UCBRule(o) => o
      case GradientBanditRule(o) => o
    }

    /** Every object a call of the rule may change: the rule object and, for UCB, its value table. */
    function Footprint(): (f: set<object>)
      reads Holder()
      ensures Holder() in f
    {
      match this
      case UCBRule(u) => {u} + (if u.values == null then {} else {u.values})
      case _ => {Holder()}
    }

    function Model(): State
      reads Holder(), Footprint()
    {
      match this
      case SampleAveragesRule(_) => SampleAveragesState
      case ConstantStepSizeRule(o) => ConstantStepSizeState(o.alpha)
      case UCBRule(u) => u.Model()
      case GradientBanditRule(g) => g.Model()
    }

    /** `strategy.estimate_values(...)`, dispatched on the rule. */
    method EstimateValues(preferences: array<real>, numberOfActions: array<nat>, indx: nat, reward: real) returns (r: array<real>)
      requires Admissible(Model(), preferences[..], numberOfActions[..], indx)
      requires preferences !in Footprint()
      modifies Footprint(), preferences
      ensures (Model(), r[..]) == Estimate(old(Model()), old(preferences[..]), numberOfActions[..], indx, reward)
      ensures r == preferences || fresh(r)
      ensures r !in Footprint()
      ensures fresh(Footprint() - old(Footprint()))
    {
      match this
      case SampleAveragesRule(o) =>
        r := o.EstimateValues(preferences, numberOfActions, indx, reward);
      case ConstantStepSizeRule(o) =>
        r := o.EstimateValues(preferences, numberOfActions, indx, reward);
      case UCBRule(u) =>
        r := u.EstimateValues(preferences, numberOfActions, indx, reward);
      case GradientBanditRule(g) =>
        r := g.EstimateValues(preferences, numberOfActions, indx, reward);
    }
  }
}
