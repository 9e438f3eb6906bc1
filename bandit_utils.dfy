/** The simulator's entities (src/bandit_utils.py): arms with a true value, a bandit that owns the arms,
    a player that pulls them under an epsilon-greedy policy, and a benchmark that averages many runs.
    Every random draw is an argument: a standard-normal draw is a real `z`, so N(mu, sigma) is mu + sigma * z;
    a uniform draw on [0, 1) is a `Unit`. */
module BanditUtils {
  import opened Wrappers
  import opened Averages
  import opened Strategies

  /** A uniform draw on [0, 1). */
  type Unit = u: real | 0.0 <= u < 1.0

  // ---------------------------------------------------------------- arms

  /** The `Arm.q` setter: an explicit value is kept, `None` is replaced by the standard-normal draw `z`. */
  function InitialQ(value: Option<real>, z: real): (q: real)
    ensures value.Some? ==> q == value.value
    ensures value.None? ==> q == z
  {
    if value.Some? then value.value else z
  }

  /** `Arm.reset_q`: add N(0, incrDev), that is incrDev * z, unless the deviation is 0. Skipping a zero
      deviation changes nothing: the drift is incrDev * z either way. */
  function Drifted(q: real, incrDev: real, z: real): (r: real)
    ensures r == q + incrDev * z
  {
    if incrDev != 0.0 then q + incrDev * z else q
  }

  /** One arm of the bandit: its true value moves, its deviation is fixed. */
  class Arm {
    var q: real
    const incrDev: real

    constructor (incrDev: real := 0.0, value: Option<real> := None, z: real)
      ensures this.incrDev == incrDev && q == InitialQ(value, z)
    {
      this.incrDev := incrDev;
      q := InitialQ(value, z);
    }

    /** The `q` setter. */
    method SetQ(value: Option<real>, z: real)
      modifies this`q
      ensures q == InitialQ(value, z)
    {
      q := InitialQ(value, z);
    }

    /** `action`: a reward drawn from N(q, 1). */
    method Action(z: real) returns (reward: real)
      ensures reward - z == q
    {
      reward := q + z;
    }

    /** `reset_q`: the true value drifts, and stays put when the deviation is 0. */
    method ResetQ(z: real)
      modifies this`q
      ensures q == Drifted(old(q), incrDev, z)
      ensures incrDev == 0.0 ==> q == old(q)
    {
      if incrDev != 0.0 {
        q := q + incrDev * z;
      }
    }
  }

  /** No arm occurs twice. */
  predicate Distinct(arms: seq<Arm>)
  {
    forall i, j :: 0 <= i < j < |arms| ==> arms[i] != arms[j]
  }

  function Objects(arms: seq<Arm>): set<object>
  {
    set a: Arm | a in arms :: a as object
  }

  // ---------------------------------------------------------------- bandits

  /** The `Bandit.q` setter: `None` stands for n unknown values; a list of the wrong length is a ValueError;
      any other list is copied. */
  function ValidateQ(n: nat, value: Option<seq<Option<real>>>): (r: Result<seq<Option<real>>, string>)
    ensures r.Failure? <==> value.Some? && |value.value| != n
    ensures r.Success? ==> |r.value| == n
    ensures r.Success? && value.Some? ==> r.value == value.value
    ensures r.Success? && value.None? ==> forall i :: 0 <= i < n ==> r.value[i].None?
  {
    if value.None? then Success(seq(n, i => None))
    else if |value.value| != n then Failure("Lenght of arm`s values not equal to the number of arms")
    else Success(value.value)
  }

  /** The true values of arms built from `q`, one draw per arm: every explicit value comes back exactly,
      every unknown one is its draw. */
  function ArmValues(q: seq<Option<real>>, draws: seq<real>): (qs: seq<real>)
    requires |draws| == |q|
    ensures |qs| == |q|
    ensures forall i :: 0 <= i < |q| && q[i].Some? ==> qs[i] == q[i].value
    ensures forall i :: 0 <= i < |q| && q[i].None? ==> qs[i] == draws[i]
  {
    seq(|q|, i requires 0 <= i < |q| => InitialQ(q[i], draws[i]))
  }

  /** The true values after every arm has drifted once. */
  function DriftAll(qs: seq<real>, incrDev: real, drifts: seq<real>): (r: seq<real>)
    requires |drifts| == |qs|
    ensures |r| == |qs|
    ensures forall i :: 0 <= i < |qs| ==> r[i] == Drifted(qs[i], incrDev, drifts[i])
    ensures incrDev == 0.0 ==> r == qs
  {
    seq(|qs|, i requires 0 <= i < |qs| => Drifted(qs[i], incrDev, drifts[i]))
  }

  /** `[Arm(incr_dev, v) for v in values]`: new, distinct arms. */
  method BuildArms(incrDev: real, values: seq<Option<real>>, draws: seq<real>) returns (arms: seq<Arm>)
    requires |draws| == |values|
    ensures |arms| == |values| && Distinct(arms)
    ensures forall i :: 0 <= i < |arms| ==> fresh(arms[i]) && arms[i].incrDev == incrDev
    ensures forall i :: 0 <= i < |arms| ==> arms[i].q == InitialQ(values[i], draws[i])
  {
    arms := [];
    var i := 0;
    while i < |values|
      invariant 0 <= i <= |values| && |arms| == i && Distinct(arms)
      invariant forall j :: 0 <= j < i ==> fresh(arms[j]) && arms[j].incrDev == incrDev
      invariant forall j :: 0 <= j < i ==> arms[j].q == InitialQ(values[j], draws[j])
    {
      var arm := new Arm(incrDev, values[i], draws[i]);
      arms := arms + [arm];
      i := i + 1;
    }
  }

  /** A k-armed bandit: the number of arms, the stored list of values the arms are built from, the deviation
      of their drift, and the arms. */
  class Bandit {
    const n: nat
    var q: seq<Option<real>>
    const incrDev: real
    var arms: seq<Arm>
    ghost var Repr: set<object>

    ghost predicate Valid()
      reads this, Repr
    {
      && this in Repr
      && (forall a :: a in arms ==> a in Repr)
      && |q| == n && |arms| == n && Distinct(arms)
      && forall i :: 0 <= i < n ==> arms[i].incrDev == incrDev
    }

    /** The true value of every arm. */
    function Qs(): (qs: seq<real>)
      reads this, arms
      ensures |qs| == |arms| && forall i :: 0 <= i < |arms| ==> qs[i] == arms[i].q
    {
      seq(|arms|, i requires 0 <= i < |arms| reads this, arms => arms[i].q)
    }

    /** `__init__` once the stored list has been validated. */
    constructor (n: nat, q: seq<Option<real>>, incrDev: real, draws: seq<real>)
      requires |q| == n && |draws| == n
      ensures Valid() && fresh(Repr)
      ensures this.n == n && this.q == q && this.incrDev == incrDev
      ensures Qs() == ArmValues(q, draws)
    {
      this.n, this.q, this.incrDev := n, q, incrDev;
      var built := BuildArms(incrDev, q, draws);
      arms := built;
      Repr := {this} + Objects(built);
    }

    /** The deep copy a player makes of the bandit it is given: same stored list, same deviation,
      new arms holding the current true values. */
    constructor Copy(other: Bandit)
      requires other.Valid()
      ensures Valid() && fresh(Repr)
      ensures n == other.n && q == other.q && incrDev == other.incrDev
      ensures Qs() == other.Qs()
    {
      var qs := other.Qs();
      n, q, incrDev := other.n, other.q, other.incrDev;
      var built := BuildArms(other.incrDev, seq(|qs|, i requires 0 <= i < |qs| => Some(qs[i])), seq(|qs|, i => 0.0));
      arms := built;
      Repr := {this} + Objects(built);
    }

    /** `Bandit(n, q, incr_dev)`: a ValueError exactly when an explicit list does not have n entries. */
    static method Create(n: nat := 2, value: Option<seq<Option<real>>> := None, incrDev: real := 0.0, draws: seq<real>) returns (r: Result<Bandit, string>)
      requires |draws| == n
      ensures r.Failure? <==> value.Some? && |value.value| != n
      ensures r.Success? ==> && fresh(r.value.Repr) && r.value.Valid()
                             && r.value.n == n && r.value.incrDev == incrDev
                             && r.value.q == ValidateQ(n, value).value
                             && r.value.Qs() == ArmValues(r.value.q, draws)
    {
      var q := ValidateQ(n, value);
      if q.Failure? {
        return Failure(q.error);
      }
      var b := new Bandit(n, q.value, incrDev, draws);
      return Success(b);
    }

    /** The `q` setter on an existing bandit: the stored list changes (the arms do not, until `Reset`),
        or a ValueError leaves it as it was. */
    method SetQ(value: Option<seq<Option<real>>>) returns (r: Result<seq<Option<real>>, string>)
      requires Valid()
      modifies this`q
      ensures Valid()
      ensures r == ValidateQ(n, value)
      ensures q == if r.Success? then r.value else old(q)
    {
      r := ValidateQ(n, value);
      if r.Success? {
        q := r.value;
      }
    }

    /** `reset`: new arms from the stored list; explicit values come back, unknown ones are drawn afresh. */
    method Reset(draws: seq<real>)
      requires Valid() && |draws| == n
      modifies this
      ensures Valid() && fresh(Repr - {this})
      ensures q == old(q)
      ensures Qs() == ArmValues(q, draws)
    {
      var built := BuildArms(incrDev, q, draws);
      arms := built;
      Repr := {this} + Objects(built);
    }

    /** `action`: every arm drifts first, then arm `indx` pays N(q, 1) from its new value. */
    method Action(indx: nat, drifts: seq<real>, noise: real) returns (reward: real)
      requires Valid() && indx < n && |drifts| == n
      modifies arms
      ensures Valid() && arms == old(arms)
      ensures Qs() == DriftAll(old(Qs()), incrDev, drifts)
      ensures reward == Qs()[indx] + noise
    {
      ghost var before := Qs();
      var i := 0;
      while i < |arms|
        invariant 0 <= i <= |arms|
        invariant forall j :: 0 <= j < i ==> arms[j].q == Drifted(before[j], incrDev, drifts[j])
        invariant forall j :: i <= j < |arms| ==> arms[j].q == before[j]
      {
        arms[i].ResetQ(drifts[i]);
        i := i + 1;
      }
      reward := arms[indx].Action(noise);
    }
  }

  // ---------------------------------------------------------------- the player's policy

  /** numpy's `argmax`: the lowest index holding the maximum. */
  function ArgMax(s: seq<real>): (k: nat)
    requires |s| > 0
    ensures k < |s|
    ensures forall j :: 0 <= j < |s| ==> s[j] <= s[k]
    ensures forall j :: 0 <= j < k ==> s[j] < s[k]
    decreases |s|
  {
    if |s| == 1 then 0 else
      var k := ArgMax(s[..|s| - 1]);
      if s[k] < s[|s| - 1] then |s| - 1 else k
  }

  /** `randint(0, n)` from a uniform draw on [0, 1): floor(pick * n), an index in [0, n). */
  function RandInt(pick: Unit, n: nat): (k: nat)
    requires n > 0
    ensures k < n
  {
    var x := pick * (n as real);
    ScaleBelow(pick, n as real);
    x.Floor
  }

  /** A fraction in [0, 1) of a positive m lies in [0, m). */
  lemma {:induction false} ScaleBelow(p: real, m: real)
    requires 0.0 <= p < 1.0 && 0.0 < m
    ensures 0.0 <= p * m < m
  {
    assert m - p * m == (1.0 - p) * m;
  }

  /** `get_arms_id`: the coin shows `binomial(1, eps) == 1` when it falls below eps; the player then explores
      with a uniform index, and otherwise exploits its preferences with the lowest-index argmax. */
  function ChooseArm(eps: real, coin: Unit, pick: Unit, preferences: seq<real>): (k: nat)
    requires |preferences| > 0
    ensures k < |preferences|
    ensures coin < eps ==> k == RandInt(pick, |preferences|)
    ensures eps <= coin ==> && (forall j :: 0 <= j < |preferences| ==> preferences[j] <= preferences[k])
                            && (forall j :: 0 <= j < k ==> preferences[j] < preferences[k])
  {
    if coin < eps then RandInt(pick, |preferences|) else ArgMax(preferences)
  }

  /** The starting preferences: all `baseline` for an optimist, all 0 otherwise. */
  function InitialPreferences(optimist: bool, baseline: real, n: nat): (p: seq<real>)
    ensures |p| == n && forall i :: 0 <= i < n ==> p[i] == if optimist then baseline else 0.0
  {
    seq(n, i => if optimist then baseline else 0.0)
  }

  function NoCounts(n: nat): (c: seq<nat>)
    ensures |c| == n && forall i :: 0 <= i < n ==> c[i] == 0
  {
    seq(n, i => 0)
  }

  // ---------------------------------------------------------------- the player, as values

  /** The draws one step of a player consumes: the explore coin, the uniform pick, one drift per arm and the
      reward noise. */
  datatype StepDraw = StepDraw(coin: Unit, pick: Unit, drifts: seq<real>, noise: real)

  /** What a player's behaviour depends on: the arms' true values, its preferences and counts, and its
      strategy's state. */
  datatype PlayerValue = PlayerValue(qs: seq<real>, preferences: seq<real>, counts: seq<nat>, rule: State)

  predicate Shaped(v: PlayerValue, n: nat)
  {
    |v.qs| == n && |v.preferences| == n && |v.counts| == n && Fits(v.rule, n)
  }

  predicate DrawsFit(draws: seq<StepDraw>, n: nat)
  {
    forall k :: 0 <= k < |draws| ==> |draws[k].drifts| == n
  }

  /** `use_arm(indx)`: count the pull, let the bandit drift and pay, and let the strategy rewrite the
      preferences with the new count. */
  function UseArmValue(v: PlayerValue, incrDev: real, indx: nat, drifts: seq<real>, noise: real): (r: (PlayerValue, real))
    requires Shaped(v, |v.qs|) && indx < |v.qs| && |drifts| == |v.qs|
    ensures Shaped(r.0, |v.qs|)
    ensures r.0.counts[indx] == v.counts[indx] + 1
    ensures forall j :: 0 <= j < |v.counts| && j != indx ==> r.0.counts[j] == v.counts[j]
    ensures r.0.qs == DriftAll(v.qs, incrDev, drifts) && r.1 == r.0.qs[indx] + noise
    ensures (r.0.rule, r.0.preferences) == Estimate(v.rule, v.preferences, r.0.counts, indx, r.1)
  {
    var counts := v.counts[indx := v.counts[indx] + 1];
    var qs := DriftAll(v.qs, incrDev, drifts);
    var reward := qs[indx] + noise;
    var e := Estimate(v.rule, v.preferences, counts, indx, reward);
    (PlayerValue(qs, e.1, counts, e.0), reward)
  }

  /** The settings of a player that stay fixed while it plays: the number of arms, its exploration
      probability, the drift of the arms, the bandit's stored values, and its optimism. */
  datatype Setup = Setup(n: nat, eps: real, incrDev: real, q: seq<Option<real>>, optimist: bool, baseline: real)

  /** The outcome of a run: the player's final value, the reward of every step and the arm pulled at every step. */
  datatype Trace = Trace(last: PlayerValue, rewards: seq<real>, picks: seq<nat>)

  /** `run()`: one `get_arms_id` and one `use_arm` per draw, in order. */
  function Play(v: PlayerValue, n: nat, eps: real, incrDev: real, draws: seq<StepDraw>): (t: Trace)
    requires n > 0 && Shaped(v, n) && DrawsFit(draws, n)
    ensures Shaped(t.last, n) && |t.rewards| == |draws| && |t.picks| == |draws|
    ensures forall k :: 0 <= k < |t.picks| ==> t.picks[k] < n
    decreases |draws|
  {
    if draws == [] then Trace(v, [], []) else
      var k := |draws| - 1;
      assert DrawsFit(draws[..k], n);
      var t := Play(v, n, eps, incrDev, draws[..k]);
      var indx := ChooseArm(eps, draws[k].coin, draws[k].pick, t.last.preferences);
      var r := UseArmValue(t.last, incrDev, indx, draws[k].drifts, draws[k].noise);
      Trace(r.0, t.rewards + [r.1], t.picks + [indx])
  }

  /** How often `a` occurs in `picks`. */
  function Occurrences(picks: seq<nat>, a: nat): nat
    decreases |picks|
  {
    if picks == [] then 0
    else Occurrences(picks[..|picks| - 1], a) + (if picks[|picks| - 1] == a then 1 else 0)
  }

  /** The rewards of the steps that pulled arm `a`, in order. */
  function ArmRewards(rewards: seq<real>, picks: seq<nat>, a: nat): (rs: seq<real>)
    requires |rewards| == |picks|
    ensures |rs| == Occurrences(picks, a)
    decreases |picks|
  {
    if picks == [] then []
    else
      var k := |picks| - 1;
      ArmRewards(rewards[..k], picks[..k], a) + (if picks[k] == a then [rewards[k]] else [])
  }

  /** Over a run, each arm's count grows by the number of steps that pulled it. */
  lemma {:induction false} CountsArePicks(v: PlayerValue, n: nat, eps: real, incrDev: real, draws: seq<StepDraw>, a: nat)
    requires n > 0 && Shaped(v, n) && DrawsFit(draws, n) && a < n
    ensures var t := Play(v, n, eps, incrDev, draws);
            t.last.counts[a] == v.counts[a] + Occurrences(t.picks, a)
    decreases |draws|
  {
    if draws != [] {
      var k := |draws| - 1;
      assert DrawsFit(draws[..k], n);
      CountsArePicks(v, n, eps, incrDev, draws[..k], a);
      var t := Play(v, n, eps, incrDev, draws[..k]);
      var u := Play(v, n, eps, incrDev, draws);
      assert u.picks[..k] == t.picks;
    }
  }

  /** A sample-averages player that has not pulled arm `a` yet ends a run with, for arm `a`, the count of its
      pulls and the arithmetic mean of the rewards those pulls paid. */
  lemma {:induction false} SampleAveragesPlayerTracksMean(v: PlayerValue, n: nat, eps: real, incrDev: real, draws: seq<StepDraw>, a: nat)
    requires n > 0 && Shaped(v, n) && DrawsFit(draws, n) && a < n
    requires v.rule == SampleAveragesState && v.counts[a] == 0
    ensures var t := Play(v, n, eps, incrDev, draws);
            TracksMean(t.last, ArmRewards(t.rewards, t.picks, a), a)
    decreases |draws|
  {
    if draws != [] {
      var k := |draws| - 1;
      assert DrawsFit(draws[..k], n);
      SampleAveragesPlayerTracksMean(v, n, eps, incrDev, draws[..k], a);
      var t := Play(v, n, eps, incrDev, draws[..k]);
      var indx := ChooseArm(eps, draws[k].coin, draws[k].pick, t.last.preferences);
      var r := UseArmValue(t.last, incrDev, indx, draws[k].drifts, draws[k].noise);
      var u := Play(v, n, eps, incrDev, draws);
      assert u == Trace(r.0, t.rewards + [r.1], t.picks + [indx]);
      assert u.rewards[..k] == t.rewards && u.picks[..k] == t.picks;
      var prior := ArmRewards(t.rewards, t.picks, a);
      assert ArmRewards(u.rewards, u.picks, a) == prior + (if indx == a then [r.1] else []);
      SampleAveragesStep(t.last, prior, a, incrDev, indx, draws[k].drifts, draws[k].noise);
    }
  }

  /** Arm `a` of a sample-averages player has been pulled once per reward in `mine`, and its preference is their mean. */
  predicate TracksMean(v: PlayerValue, mine: seq<real>, a: nat)
  {
    && v.rule == SampleAveragesState
    && a < |v.counts| && a < |v.preferences|
    && v.counts[a] == |mine|
    && (|mine| > 0 ==> v.preferences[a] == Mean(mine))
  }

  /** One step of SampleAveragesPlayerTracksMean. */
  lemma {:induction false} SampleAveragesStep(v: PlayerValue, mine: seq<real>, a: nat, incrDev: real, indx: nat, drifts: seq<real>, noise: real)
    requires Shaped(v, |v.qs|) && indx < |v.qs| && |drifts| == |v.qs|
    requires TracksMean(v, mine, a)
    ensures var r := UseArmValue(v, incrDev, indx, drifts, noise);
            TracksMean(r.0, mine + (if indx == a then [r.1] else []), a)
  {
    var r := UseArmValue(v, incrDev, indx, drifts, noise);
    assert r.0.preferences == EstimateSampleAverages(v.preferences, r.0.counts, indx, r.1);
    if indx == a {
      assert r.0.counts[a] == |mine| + 1;
      assert r.0.preferences[a] == SampleAverage(v.preferences[a], |mine| + 1, r.1);
      IncrementalMean(v.preferences[a], mine, r.1);
    } else {
      assert mine + [] == mine;
    }
  }

  /** Over a run, a gradient-bandit player's strategy keeps GradientInvariant: its mean reward is the mean of
      every reward it has been paid, including those of earlier runs, since `reset` leaves the strategy alone. */
  lemma {:induction false} PlayKeepsGradientInvariant(v: PlayerValue, n: nat, eps: real, incrDev: real, draws: seq<StepDraw>, past: seq<real>)
    requires n > 0 && Shaped(v, n) && DrawsFit(draws, n)
    requires GradientInvariant(v.rule, past)
    ensures var t := Play(v, n, eps, incrDev, draws);
            GradientInvariant(t.last.rule, past + t.rewards) && t.last.rule.alpha == v.rule.alpha && t.last.rule.exp == v.rule.exp
    decreases |draws|
  {
    if draws == [] {
      var u := Play(v, n, eps, incrDev, draws);
      assert u == Trace(v, [], []) && past + [] == past;
      assert GradientInvariant(u.last.rule, past + u.rewards);
    } else {
      var k := |draws| - 1;
      assert DrawsFit(draws[..k], n);
      PlayKeepsGradientInvariant(v, n, eps, incrDev, draws[..k], past);
      var t := Play(v, n, eps, incrDev, draws[..k]);
      var indx := ChooseArm(eps, draws[k].coin, draws[k].pick, t.last.preferences);
      var r := UseArmValue(t.last, incrDev, indx, draws[k].drifts, draws[k].noise);
      var u := Play(v, n, eps, incrDev, draws);
      assert u == Trace(r.0, t.rewards + [r.1], t.picks + [indx]);
      var before := past + t.rewards;
      GradientPlayerStep(t.last, before, incrDev, indx, draws[k].drifts, draws[k].noise);
      AppendAssociates(past, t.rewards, r.1);
      assert GradientInvariant(u.last.rule, past + u.rewards);
    }
  }

  lemma {:induction false} AppendAssociates(a: seq<real>, b: seq<real>, x: real)
    ensures a + (b + [x]) == (a + b) + [x]
  {
  }

  /** One step of PlayKeepsGradientInvariant. */
  lemma {:induction false} GradientPlayerStep(v: PlayerValue, rewards: seq<real>, incrDev: real, indx: nat, drifts: seq<real>, noise: real)
    requires Shaped(v, |v.qs|) && indx < |v.qs| && |drifts| == |v.qs|
    requires GradientInvariant(v.rule, rewards)
    ensures var r := UseArmValue(v, incrDev, indx, drifts, noise);
            GradientInvariant(r.0.rule, rewards + [r.1]) && r.0.rule.alpha == v.rule.alpha && r.0.rule.exp == v.rule.exp
  {
    var r := UseArmValue(v, incrDev, indx, drifts, noise);
    GradientStepKeepsInvariant(v.rule, rewards, Call(v.preferences, r.0.counts, indx, r.1), |v.qs|);
  }

  /** Over a run, a UCB player's clock advances once per step, and its value table exists from the first step on. */
  lemma {:induction false} PlayAdvancesUCBClock(v: PlayerValue, n: nat, eps: real, incrDev: real, draws: seq<StepDraw>)
    requires n > 0 && Shaped(v, n) && DrawsFit(draws, n) && v.rule.UCBState?
    ensures var r := Play(v, n, eps, incrDev, draws).last.rule;
            && r.UCBState? && r.c == v.rule.c && r.bonus == v.rule.bonus
            && r.time == v.rule.time + |draws|
            && (|draws| > 0 ==> r.values.Some?)
    decreases |draws|
  {
    if draws != [] {
      var k := |draws| - 1;
      assert DrawsFit(draws[..k], n);
      PlayAdvancesUCBClock(v, n, eps, incrDev, draws[..k]);
    }
  }

  /** `reset()`, as values: the arms rebuilt from the stored list `q` with the draws `draws`, zero counts and
      the starting preferences; the strategy state is kept. */
  function ResetValue(v: PlayerValue, q: seq<Option<real>>, draws: seq<real>, optimist: bool, baseline: real): (w: PlayerValue)
    requires |draws| == |q|
    ensures Fits(v.rule, |q|) ==> Shaped(w, |q|)
  {
    PlayerValue(ArmValues(q, draws), InitialPreferences(optimist, baseline, |q|), NoCounts(|q|), v.rule)
  }

  /** A run one draw longer is the shorter run followed by one `get_arms_id` and one `use_arm`. */
  lemma {:induction false} PlayOneMore(v: PlayerValue, n: nat, eps: real, incrDev: real, draws: seq<StepDraw>, k: nat)
    requires n > 0 && Shaped(v, n) && DrawsFit(draws, n) && k < |draws|
    ensures DrawsFit(draws[..k], n) && DrawsFit(draws[..k + 1], n)
    ensures var t := Play(v, n, eps, incrDev, draws[..k]);
            var indx := ChooseArm(eps, draws[k].coin, draws[k].pick, t.last.preferences);
            var r := UseArmValue(t.last, incrDev, indx, draws[k].drifts, draws[k].noise);
            Play(v, n, eps, incrDev, draws[..k + 1]) == Trace(r.0, t.rewards + [r.1], t.picks + [indx])
  {
    assert DrawsFit(draws[..k], n) && DrawsFit(draws[..k + 1], n);
    assert draws[..k + 1][..k] == draws[..k];
  }

  // ---------------------------------------------------------------- the player

  /** `np.zeros(n)`. */
  method NewZeros(n: nat) returns (a: array<real>)
    ensures fresh(a) && a[..] == Zeros(n)
  {
    a := new real[n](i => 0.0);
  }

  /** The zero action counts. */
  method NewCounts(n: nat) returns (a: array<nat>)
    ensures fresh(a) && a[..] == NoCounts(n)
  {
    a := new nat[n](i => 0);
  }

  /** `np.zeros(n)`, plus `baseline` for an optimist. */
  method NewPreferences(optimist: bool, baseline: real, n: nat) returns (a: array<real>)
    ensures fresh(a) && a[..] == InitialPreferences(optimist, baseline, n)
  {
    a := new real[n](i => if optimist then baseline else 0.0);
  }

  /** A player of the bandit: an epsilon-greedy policy over its preferences, rewritten after every pull by its
      strategy. It owns a copy of the bandit it is given, but shares the strategy object it is given. */
  class BanditPlayer {
    const eps: real
    const nSteps: nat
    const strategy: Rule
    const optimist: bool
    const baseline: real
    const name: string
    const bandit: Bandit
    var rewards: array<real>
    var numberOfActions: array<nat>
    var preferences: array<real>
    ghost var Repr: set<object>

    ghost predicate Valid()
      reads this, Repr
    {
      && this in Repr
      && rewards in Repr && numberOfActions in Repr && preferences in Repr
      && bandit in Repr && bandit.Repr <= Repr && bandit.Valid()
      && strategy.Holder() in Repr && strategy.Footprint() <= Repr
      && this !in bandit.Repr && this !in strategy.Footprint()
      && bandit.Repr !! strategy.Footprint()
      && rewards !in bandit.Repr && rewards !in strategy.Footprint()
      && numberOfActions !in bandit.Repr && numberOfActions !in strategy.Footprint()
      && preferences !in bandit.Repr && preferences !in strategy.Footprint()
      && rewards != preferences
      && rewards.Length == nSteps && numberOfActions.Length == bandit.n && preferences.Length == bandit.n
      && Fits(strategy.Model(), bandit.n)
    }

    /** What, besides its value, the player's runs and resets depend on. */
    function Settings(): Setup
      reads this, bandit
    {
      Setup(bandit.n, eps, bandit.incrDev, bandit.q, optimist, baseline)
    }

    /** What the player's next steps depend on. */
    function Value(): (v: PlayerValue)
      requires Valid()
      reads this, Repr
      ensures Shaped(v, bandit.n)
    {
      PlayerValue(bandit.Qs(), preferences[..], numberOfActions[..], strategy.Model())
    }

    /** `__init__`: a deep copy of the bandit, zero rewards and counts, and the starting preferences. */
    constructor (bandit: Bandit, eps: real, nSteps: nat, strategy: Rule, optimist: bool := false, baseline: real := 5.0, name: string := "")
      requires bandit.Valid() && Fits(strategy.Model(), bandit.n)
      ensures Valid() && fresh(Repr - strategy.Footprint())
      ensures this.eps == eps && this.nSteps == nSteps && this.strategy == strategy
      ensures this.optimist == optimist && this.baseline == baseline && this.name == name
      ensures this.bandit.n == bandit.n && this.bandit.q == bandit.q && this.bandit.incrDev == bandit.incrDev
      ensures Value() == PlayerValue(bandit.Qs(), InitialPreferences(optimist, baseline, bandit.n), NoCounts(bandit.n), strategy.Model())
      ensures rewards[..] == Zeros(nSteps)
    {
      this.eps, this.nSteps, this.strategy := eps, nSteps, strategy;
      this.optimist, this.baseline, this.name := optimist, baseline, name;
      var copy := new Bandit.Copy(bandit);
      var zeros := NewZeros(nSteps);
      var counts := NewCounts(bandit.n);
      var initial := NewPreferences(optimist, baseline, bandit.n);
      ghost var mine := {zeros, initial} + {counts} + copy.Repr;
      assert fresh(mine);
      this.bandit, rewards, numberOfActions, preferences := copy, zeros, counts, initial;
      Repr := {this} + mine + strategy.Footprint();
      new;
      assert Repr - strategy.Footprint() <= {this} + mine;
      assert copy.Qs() == bandit.Qs();
    }

    /** `get_arms_id`, with the explore coin and the uniform pick as arguments. */
    method GetArmsId(coin: Unit, pick: Unit) returns (indx: nat)
      requires Valid() && bandit.n > 0
      ensures indx == ChooseArm(eps, coin, pick, preferences[..])
    {
      indx := ChooseArm(eps, coin, pick, preferences[..]);
    }

    /** `use_arm(indx)`: count the pull, let the bandit pay, and take the strategy's new preferences. */
    method UseArm(indx: nat, drifts: seq<real>, noise: real) returns (reward: real)
      requires Valid() && indx < bandit.n && |drifts| == bandit.n
      modifies Repr
      ensures Valid() && fresh(Repr - old(Repr))
      ensures rewards == old(rewards) && rewards[..] == old(rewards[..]) && bandit.q == old(bandit.q)
      ensures (Value(), reward) == UseArmValue(old(Value()), bandit.incrDev, indx, drifts, noise)
    {
      reward := Pull(indx, drifts, noise);
      Reestimate(indx, reward);
    }

    /** The first half of `use_arm`: the count of arm `indx` goes up by one, then the bandit pays. */
    method Pull(indx: nat, drifts: seq<real>, noise: real) returns (reward: real)
      requires Valid() && indx < bandit.n && |drifts| == bandit.n
      modifies numberOfActions, bandit.arms
      ensures Valid()
      ensures numberOfActions[..] == old(numberOfActions[..])[indx := old(numberOfActions[indx]) + 1]
      ensures bandit.Qs() == DriftAll(old(bandit.Qs()), bandit.incrDev, drifts) && reward == bandit.Qs()[indx] + noise
      ensures preferences[..] == old(preferences[..]) && rewards[..] == old(rewards[..])
      ensures strategy.Model() == old(strategy.Model())
    {
      numberOfActions[indx] := numberOfActions[indx] + 1;
      reward := bandit.Action(indx, drifts, noise);
    }

    /** The second half of `use_arm`: the strategy rewrites the preferences. */
    method Reestimate(indx: nat, reward: real)
      requires Valid() && indx < bandit.n && numberOfActions[indx] > 0
      modifies this, strategy.Footprint(), preferences
      ensures Valid() && fresh(Repr - old(Repr))
      ensures numberOfActions == old(numberOfActions) && rewards == old(rewards)
      ensures (strategy.Model(), preferences[..]) == Estimate(old(strategy.Model()), old(preferences[..]), old(numberOfActions[..]), indx, reward)
    {
      var r := strategy.EstimateValues(preferences, numberOfActions, indx, reward);
      Adopt(r);
      StrategyStepKeepsValid();
    }

    /** `self.preferences = ...`: the player takes `r` as its preferences; the strategy, outside the player, stays as it is. */
    method Adopt(r: array<real>)
      requires this !in strategy.Footprint()
      modifies this
      ensures preferences == r && Repr == old(Repr) + old(strategy.Footprint()) + {r}
      ensures rewards == old(rewards) && numberOfActions == old(numberOfActions)
      ensures strategy.Footprint() == old(strategy.Footprint()) && strategy.Model() == old(strategy.Model())
    {
      preferences, Repr := r, Repr + strategy.Footprint() + {r};
    }

    /** Valid is kept when only the strategy's objects and the preference array have changed. */
    twostate lemma StrategyStepKeepsValid()
      requires old(Valid())
      requires unchanged(old(bandit.Repr))
      requires rewards == old(rewards) && numberOfActions == old(numberOfActions)
      requires fresh(strategy.Footprint() - old(strategy.Footprint()))
      requires preferences == old(preferences) || fresh(preferences)
      requires preferences !in strategy.Footprint()
      requires preferences.Length == bandit.n && Fits(strategy.Model(), bandit.n)
      requires Repr == old(Repr) + strategy.Footprint() + {preferences}
      ensures Valid() && fresh(Repr - old(Repr))
    {
    }

    /** `rewards[step] = reward`. */
    method Record(step: nat, reward: real)
      requires Valid() && step < rewards.Length
      modifies rewards
      ensures Valid() && Value() == old(Value())
      ensures rewards[..] == old(rewards[..])[step := reward]
      ensures rewards[..step + 1] == old(rewards[..step]) + [reward]
    {
      rewards[step] := reward;
    }

    /** The body of `run()`'s loop: pick an arm, pull it, and store the reward at `rewards[step]`. */
    method PlayStep(step: nat, draw: StepDraw)
      requires Valid() && bandit.n > 0 && step < rewards.Length && |draw.drifts| == bandit.n
      modifies Repr
      ensures Valid() && fresh(Repr - old(Repr))
      ensures rewards == old(rewards) && bandit.q == old(bandit.q)
      ensures var indx := ChooseArm(eps, draw.coin, draw.pick, old(preferences[..]));
              var r := UseArmValue(old(Value()), bandit.incrDev, indx, draw.drifts, draw.noise);
              && Value() == r.0 && rewards[..] == old(rewards[..])[step := r.1]
              && rewards[..step + 1] == old(rewards[..step]) + [r.1]
    {
      var indx := GetArmsId(draw.coin, draw.pick);
      var reward := UseArm(indx, draw.drifts, draw.noise);
      Record(step, reward);
    }

    /** `run()`: one `get_arms_id` and one `use_arm` per step, the reward of step k stored at `rewards[k]`. */
    method Run(draws: seq<StepDraw>)
      requires Valid() && bandit.n > 0 && |draws| == nSteps && DrawsFit(draws, bandit.n)
      modifies Repr
      ensures Valid() && fresh(Repr - old(Repr))
      ensures rewards == old(rewards) && bandit.q == old(bandit.q)
      ensures var t := Play(old(Value()), bandit.n, eps, bandit.incrDev, draws);
              Value() == t.last && rewards[..] == t.rewards
    {
      ghost var v0 := Value();
      var step := 0;
      while step < nSteps
        invariant 0 <= step <= nSteps && DrawsFit(draws[..step], bandit.n)
        invariant Valid() && fresh(Repr - old(Repr))
        invariant rewards == old(rewards) && bandit.q == old(bandit.q)
        invariant Value() == Play(v0, bandit.n, eps, bandit.incrDev, draws[..step]).last
        invariant rewards[..step] == Play(v0, bandit.n, eps, bandit.incrDev, draws[..step]).rewards
      {
        PlayOneMore(v0, bandit.n, eps, bandit.incrDev, draws, step);
        PlayStep(step, draws[step]);
        step := step + 1;
      }
      assert draws[..nSteps] == draws;
    }

    /** `reset()`: the bandit rebuilds its arms from its stored values, rewards and counts go back to zero
        and the preferences to their starting values. The strategy keeps whatever state it has. */
    method Reset(draws: seq<real>)
      requires Valid() && |draws| == bandit.n
      modifies Repr
      ensures Valid() && fresh(Repr - old(Repr))
      ensures bandit.q == old(bandit.q) && rewards[..] == Zeros(nSteps)
      ensures Value() == ResetValue(old(Value()), bandit.q, draws, optimist, baseline)
    {
      ghost var rule := strategy.Model();
      bandit.Reset(draws);
      Repr := Repr + bandit.Repr;
      assert strategy.Model() == rule;
      Restart();
    }

    /** The second half of `reset()`: new zero rewards and counts, and the starting preferences. */
    method Restart()
      requires Valid()
      modifies this
      ensures Valid() && fresh(Repr - old(Repr))
      ensures fresh(rewards) && fresh(numberOfActions) && fresh(preferences)
      ensures rewards[..] == Zeros(nSteps) && numberOfActions[..] == NoCounts(bandit.n)
      ensures preferences[..] == InitialPreferences(optimist, baseline, bandit.n)
      ensures bandit.Qs() == old(bandit.Qs()) && strategy.Model() == old(strategy.Model())
    {
      var zeros := NewZeros(nSteps);
      var counts := NewCounts(bandit.n);
      var initial := NewPreferences(optimist, baseline, bandit.n);
      rewards, numberOfActions, preferences := zeros, counts, initial;
      Repr := Repr + {zeros as object, counts, initial};
    }
  }

  // ---------------------------------------------------------------- the benchmark, as values

  /** `avg += 1 / epoch * (rewards - avg)`: every entry takes one sample-average step. */
  function Fold(avg: seq<real>, epoch: nat, rewards: seq<real>): (r: seq<real>)
    requires |rewards| == |avg| && epoch > 0
    ensures |r| == |avg|
  {
    seq(|avg|, t requires 0 <= t < |avg| => SampleAverage(avg[t], epoch, rewards[t]))
  }

  /** Draws for a player's epochs: a run's worth of step draws and one draw per arm for the reset, per epoch. */
  predicate EpochDrawsFit(n: nat, nSteps: nat, draws: seq<seq<StepDraw>>, resets: seq<seq<real>>)
  {
    && |draws| == |resets|
    && forall e :: 0 <= e < |draws| ==> |draws[e]| == nSteps && DrawsFit(draws[e], n) && |resets[e]| == n
  }

  /** A player's standing in a benchmark: its value, its running average, and the rewards of every epoch so far. */
  datatype EpochsOutcome = EpochsOutcome(last: PlayerValue, avg: seq<real>, history: seq<seq<real>>)

  /** One player's part of `Benchmark.run()`: per epoch, `run()`, the average folded with the epoch's rewards,
      and `reset()`. */
  function Epochs(s: Setup, v: PlayerValue, avg: seq<real>, draws: seq<seq<StepDraw>>, resets: seq<seq<real>>): (r: EpochsOutcome)
    requires s.n > 0 && |s.q| == s.n && Shaped(v, s.n) && EpochDrawsFit(s.n, |avg|, draws, resets)
    ensures Shaped(r.last, s.n) && |r.avg| == |avg| && |r.history| == |draws|
    ensures forall e :: 0 <= e < |r.history| ==> |r.history[e]| == |avg|
    decreases |draws|
  {
    if draws == [] then EpochsOutcome(v, avg, []) else
      var k := |draws| - 1;
      assert EpochDrawsFit(s.n, |avg|, draws[..k], resets[..k]);
      var p := Epochs(s, v, avg, draws[..k], resets[..k]);
      var t := Play(p.last, s.n, s.eps, s.incrDev, draws[k]);
      EpochsOutcome(ResetValue(t.last, s.q, resets[k], s.optimist, s.baseline), Fold(p.avg, k + 1, t.rewards), p.history + [t.rewards])
  }

  /** The rewards of step `t` across the epochs. */
  function Column(history: seq<seq<real>>, t: nat): (c: seq<real>)
    requires forall e :: 0 <= e < |history| ==> t < |history[e]|
    ensures |c| == |history| && forall e :: 0 <= e < |history| ==> c[e] == history[e][t]
  {
    seq(|history|, e requires 0 <= e < |history| => history[e][t])
  }

  /** Every entry of `avg` is the mean of its step's rewards over the epochs of `history`. */
  predicate Averaged(avg: seq<real>, history: seq<seq<real>>)
    requires |history| > 0 && forall e :: 0 <= e < |history| ==> |history[e]| == |avg|
  {
    forall t :: 0 <= t < |avg| ==> avg[t] == Mean(Column(history, t))
  }

  /** After one epoch or more, each entry of a player's running average is the arithmetic mean of the rewards
      of that step over all epochs, whatever the average held before the first. */
  lemma {:induction false} EpochsAverage(s: Setup, v: PlayerValue, avg: seq<real>, draws: seq<seq<StepDraw>>, resets: seq<seq<real>>)
    requires s.n > 0 && |s.q| == s.n && Shaped(v, s.n) && EpochDrawsFit(s.n, |avg|, draws, resets)
    requires |draws| > 0
    ensures var r := Epochs(s, v, avg, draws, resets);
            Averaged(r.avg, r.history)
    decreases |draws|
  {
    var k := |draws| - 1;
    assert EpochDrawsFit(s.n, |avg|, draws[..k], resets[..k]);
    var p := Epochs(s, v, avg, draws[..k], resets[..k]);
    if k > 0 {
      EpochsAverage(s, v, avg, draws[..k], resets[..k]);
    }
    var t := Play(p.last, s.n, s.eps, s.incrDev, draws[k]);
    FoldAverages(p.avg, p.history, t.rewards);
  }

  /** Folding one more epoch's rewards into averages of the earlier epochs gives averages of all of them. */
  lemma {:induction false} FoldAverages(avg: seq<real>, history: seq<seq<real>>, rewards: seq<real>)
    requires |rewards| == |avg| && forall e :: 0 <= e < |history| ==> |history[e]| == |avg|
    requires |history| == 0 || Averaged(avg, history)
    ensures Averaged(Fold(avg, |history| + 1, rewards), history + [rewards])
  {
    var r := Fold(avg, |history| + 1, rewards);
    forall j | 0 <= j < |avg|
      ensures r[j] == Mean(Column(history + [rewards], j))
    {
      var before := Column(history, j);
      assert Column(history + [rewards], j) == before + [rewards[j]];
      assert |history| == 0 || avg[j] == Mean(before);
      IncrementalMean(avg[j], before, rewards[j]);
      assert r[j] == avg[j] + 1.0 / ((|before| + 1) as real) * (rewards[j] - avg[j]);
    }
  }

  /** Writing entry `i` twice leaves only the second write. */
  lemma {:induction false} Overwrite<T>(s: seq<T>, i: nat, a: T, b: T)
    requires i < |s|
    ensures s[i := a][i := b] == s[i := b]
  {
  }

  /** A player's settings, value and running average in a benchmark. */
  datatype Standing = Standing(setup: Setup, value: PlayerValue, avg: seq<real>)

  /** One player's turn in an epoch, as values: `run()`, the average folded with the run's rewards, `reset()`. */
  function NextStanding(s: Standing, epoch: nat, draws: seq<StepDraw>, reset: seq<real>): (r: Standing)
    requires s.setup.n > 0 && |s.setup.q| == s.setup.n && Shaped(s.value, s.setup.n) && epoch > 0
    requires |draws| == |s.avg| && DrawsFit(draws, s.setup.n) && |reset| == s.setup.n
    ensures r.setup == s.setup && |r.avg| == |s.avg| && Shaped(r.value, s.setup.n)
    ensures r.value.counts == NoCounts(s.setup.n)
    ensures r.value.preferences == InitialPreferences(s.setup.optimist, s.setup.baseline, s.setup.n)
  {
    var t := Play(s.value, s.setup.n, s.setup.eps, s.setup.incrDev, draws);
    Standing(s.setup, ResetValue(t.last, s.setup.q, reset, s.setup.optimist, s.setup.baseline), Fold(s.avg, epoch, t.rewards))
  }

  /** `now` is where a player that stood at `start` is after the epochs of `draws` and `resets`. */
  ghost predicate Follows(start: Standing, draws: seq<seq<StepDraw>>, resets: seq<seq<real>>, now: Standing)
  {
    && start.setup.n > 0 && |start.setup.q| == start.setup.n && Shaped(start.value, start.setup.n)
    && EpochDrawsFit(start.setup.n, |start.avg|, draws, resets)
    && var r := Epochs(start.setup, start.value, start.avg, draws, resets);
       now == Standing(start.setup, r.last, r.avg)
  }

  /** Epochs, one at a time: the standing after k + 1 epochs is one turn on from the standing after k. */
  lemma {:induction false} FollowsOneMore(start: Standing, draws: seq<seq<StepDraw>>, resets: seq<seq<real>>, k: nat, now: Standing)
    requires start.setup.n > 0 && |start.setup.q| == start.setup.n && Shaped(start.value, start.setup.n)
    requires EpochDrawsFit(start.setup.n, |start.avg|, draws, resets) && k < |draws|
    requires Follows(start, draws[..k], resets[..k], now)
    ensures Shaped(now.value, now.setup.n) && |now.avg| == |draws[k]| && DrawsFit(draws[k], now.setup.n)
    ensures now.setup == start.setup && |resets[k]| == now.setup.n
    ensures Follows(start, draws[..k + 1], resets[..k + 1], NextStanding(now, k + 1, draws[k], resets[k]))
  {
    assert EpochDrawsFit(start.setup.n, |start.avg|, draws[..k + 1], resets[..k + 1]);
    assert draws[..k + 1][..k] == draws[..k] && resets[..k + 1][..k] == resets[..k];
  }

  /** What `Benchmark.run()` promises each player: once it has followed one epoch or more, its running average
      holds, step by step, the mean reward of that step over those epochs. */
  lemma {:induction false} FollowsAveraged(start: Standing, draws: seq<seq<StepDraw>>, resets: seq<seq<real>>, now: Standing)
    requires Follows(start, draws, resets, now) && |draws| > 0
    ensures var r := Epochs(start.setup, start.value, start.avg, draws, resets);
            Averaged(now.avg, r.history)
  {
    EpochsAverage(start.setup, start.value, start.avg, draws, resets);
  }

  // ---------------------------------------------------------------- the benchmark

  /** `avg += 1 / epoch * (rewards - avg)`, numpy's in-place update of a whole vector. */
  method FoldInto(avg: array<real>, epoch: nat, rewards: array<real>)
    requires epoch > 0 && avg.Length == rewards.Length && avg != rewards
    modifies avg
    ensures avg[..] == Fold(old(avg[..]), epoch, rewards[..])
  {
    forall t | 0 <= t < avg.Length {
      avg[t] := SampleAverage(avg[t], epoch, rewards[t]);
    }
  }

  /** Every player `i` has moved from `start[i]` to `now[i]` by playing its first `e` epochs; those of
      players `j` and later one epoch fewer. */
  ghost predicate Midway(start: seq<Standing>, draws: seq<seq<seq<StepDraw>>>, resets: seq<seq<seq<real>>>, e: nat, j: nat, now: seq<Standing>)
  {
    && |now| == |start| && |draws| == |start| && |resets| == |start| && e > 0
    && (forall i :: 0 <= i < j && i < |start| ==>
          e <= |draws[i]| && e <= |resets[i]| && Follows(start[i], draws[i][..e], resets[i][..e], now[i]))
    && (forall i :: j <= i < |start| ==>
          e - 1 <= |draws[i]| && e - 1 <= |resets[i]| && Follows(start[i], draws[i][..e - 1], resets[i][..e - 1], now[i]))
  }

  /** Player `j` moving on by its epoch `e` takes the benchmark from before `j`'s turn to after it. */
  lemma {:induction false} MidwayOneMore(start: seq<Standing>, draws: seq<seq<seq<StepDraw>>>, resets: seq<seq<seq<real>>>, e: nat, j: nat,
                      now: seq<Standing>, next: Standing)
    requires Midway(start, draws, resets, e, j, now) && j < |start|
    requires e <= |draws[j]| && e <= |resets[j]| && Follows(start[j], draws[j][..e], resets[j][..e], next)
    ensures Midway(start, draws, resets, e, j + 1, now[j := next])
  {
  }

  /** Several players, each run for the same number of epochs, with one running average of rewards per player. */
  class Benchmark {
    const nEpochs: nat
    const players: seq<BanditPlayer>
    const avgRewards: seq<array<real>>
    const name: string
    ghost var Repr: set<object>

    ghost predicate Valid()
      reads this, Repr
    {
      && this in Repr && |avgRewards| == |players|
      && (forall i :: 0 <= i < |players| ==> players[i] in Repr && avgRewards[i] in Repr)
      && (forall i :: 0 <= i < |players| ==> players[i].Repr <= Repr)
      && (forall i :: 0 <= i < |players| ==> players[i].Valid() && this !in players[i].Repr)
      && (forall i :: 0 <= i < |players| ==> avgRewards[i].Length == players[i].nSteps)
      && (forall i, j :: 0 <= i < j < |players| ==> players[i].Repr !! players[j].Repr && avgRewards[i] != avgRewards[j])
      && (forall i, j :: 0 <= i < |players| && 0 <= j < |players| ==> avgRewards[i] !in players[j].Repr)
    }

    /** Draws for every player's epochs, the shape `run()` needs: a non-empty bandit, and per epoch a run's
        worth of step draws and one draw per arm for the reset. */
    predicate Ready(draws: seq<seq<seq<StepDraw>>>, resets: seq<seq<seq<real>>>)
    {
      && |draws| == |players| && |resets| == |players|
      && forall i :: 0 <= i < |players| ==>
           && players[i].bandit.n > 0 && |draws[i]| == nEpochs
           && EpochDrawsFit(players[i].bandit.n, players[i].nSteps, draws[i], resets[i])
    }

    /** Every player's standing. */
    ghost function Standings(): (r: seq<Standing>)
      requires Valid()
      reads this, Repr
      ensures |r| == |players|
    {
      seq(|players|, i requires 0 <= i < |players| && Valid() reads this, Repr =>
        Standing(players[i].Settings(), players[i].Value(), avgRewards[i][..]))
    }

    lemma {:induction false} StandingsAre()
      requires Valid()
      ensures forall i :: 0 <= i < |players| ==> Standings()[i] == Standing(players[i].Settings(), players[i].Value(), avgRewards[i][..])
    {
    }

    /** `__init__`: one zero average per player, as long as its run. Every object the benchmark holds is new
        or belongs to `owned`, a set the caller names that holds the players' footprints. */
    constructor (players: seq<BanditPlayer>, nEpochs: nat, name: string := "", ghost owned: set<object>)
      requires forall i :: 0 <= i < |players| ==> players[i].Valid() && players[i].Repr <= owned
      requires forall i, j :: 0 <= i < j < |players| ==> players[i].Repr !! players[j].Repr
      ensures Valid() && this.players == players && this.nEpochs == nEpochs && this.name == name
      ensures forall i :: 0 <= i < |players| ==> avgRewards[i][..] == Zeros(players[i].nSteps)
      ensures fresh(Repr - owned)
    {
      var avgs;
      ghost var parts;
      avgs, parts := NewAverages(players, owned);
      this.players, this.nEpochs, this.name, avgRewards := players, nEpochs, name, avgs;
      new;
      Repr := {this} + parts;
    }

    /** One fresh zero array per player, as long as its run, and a set holding them and the players' footprints. */
    static method NewAverages(players: seq<BanditPlayer>, ghost owned: set<object>) returns (avgs: seq<array<real>>, ghost parts: set<object>)
      requires forall i :: 0 <= i < |players| ==> players[i].Repr <= owned
      ensures |avgs| == |players|
      ensures forall i :: 0 <= i < |players| ==> fresh(avgs[i]) && avgs[i][..] == Zeros(players[i].nSteps)
      ensures forall i, j :: 0 <= i < j < |players| ==> avgs[i] != avgs[j]
      ensures forall i :: 0 <= i < |players| ==> avgs[i] in parts && players[i].Repr <= parts
      ensures fresh(parts - owned)
    {
      avgs, parts := [], {};
      var k := 0;
      while k < |players|
        invariant 0 <= k <= |players| && |avgs| == k
        invariant forall i :: 0 <= i < k ==> fresh(avgs[i]) && avgs[i][..] == Zeros(players[i].nSteps)
        invariant forall i, j :: 0 <= i < j < k ==> avgs[i] != avgs[j]
        invariant forall i :: 0 <= i < k ==> avgs[i] in parts && players[i].Repr <= parts
        invariant fresh(parts - owned)
      {
        var z := NewZeros(players[k].nSteps);
        avgs := avgs + [z];
        parts := parts + {z} + players[k].Repr;
        k := k + 1;
      }
    }

    /** `run()`: for every epoch, every player in turn runs, has its rewards folded into its average, and resets.
        After one epoch or more each average holds, step by step, the mean reward over the epochs. */
    method Run(draws: seq<seq<seq<StepDraw>>>, resets: seq<seq<seq<real>>>)
      requires Valid() && Ready(draws, resets)
      modifies Repr
      ensures Valid() && fresh(Repr - old(Repr))
      ensures forall i :: 0 <= i < |players| ==> Follows(old(Standings())[i], draws[i], resets[i], Standings()[i])
    {
      ghost var start := Standings();
      Begin(draws, resets);
      RunEpochs(draws, resets, start);
      Finish(start, draws, resets, Standings());
    }

    /** `run()`'s epoch loop. */
    method RunEpochs(draws: seq<seq<seq<StepDraw>>>, resets: seq<seq<seq<real>>>, ghost start: seq<Standing>)
      requires Valid() && Ready(draws, resets) && |start| == |players|
      requires Midway(start, draws, resets, 1, 0, Standings())
      modifies Repr
      ensures Valid() && fresh(Repr - old(Repr))
      ensures Midway(start, draws, resets, nEpochs + 1, 0, Standings())
    {
      var epoch := 1;
      while epoch <= nEpochs
        invariant 1 <= epoch <= nEpochs + 1
        invariant Valid() && fresh(Repr - old(Repr))
        invariant Midway(start, draws, resets, epoch, 0, Standings())
      {
        RunEpoch(epoch, draws, resets, start);
        epoch := epoch + 1;
      }
    }

    /** Before the first epoch every player stands where it started. */
    lemma {:induction false} Begin(draws: seq<seq<seq<StepDraw>>>, resets: seq<seq<seq<real>>>)
      requires Valid() && Ready(draws, resets)
      ensures Midway(Standings(), draws, resets, 1, 0, Standings())
    {
      StandingsAre();
      forall i | 0 <= i < |players|
        ensures Follows(Standings()[i], draws[i][..0], resets[i][..0], Standings()[i])
      {
        assert draws[i][..0] == [] && resets[i][..0] == [];
      }
    }

    /** After the last epoch every player has played all of its epochs. */
    lemma {:induction false} Finish(start: seq<Standing>, draws: seq<seq<seq<StepDraw>>>, resets: seq<seq<seq<real>>>, now: seq<Standing>)
      requires Ready(draws, resets) && Midway(start, draws, resets, nEpochs + 1, 0, now)
      ensures forall i :: 0 <= i < |players| ==> Follows(start[i], draws[i], resets[i], now[i])
    {
      assert forall i :: 0 <= i < |players| ==> draws[i][..nEpochs] == draws[i] && resets[i][..nEpochs] == resets[i];
    }

    /** The body of `run()`'s epoch loop: every player takes its turn in epoch `epoch`. */
    method RunEpoch(epoch: nat, draws: seq<seq<seq<StepDraw>>>, resets: seq<seq<seq<real>>>, ghost start: seq<Standing>)
      requires Valid() && Ready(draws, resets) && 1 <= epoch <= nEpochs && |start| == |players|
      requires Midway(start, draws, resets, epoch, 0, Standings())
      modifies Repr
      ensures Valid() && fresh(Repr - old(Repr))
      ensures Midway(start, draws, resets, epoch + 1, 0, Standings())
    {
      var j := 0;
      while j < |players|
        invariant 0 <= j <= |players|
        invariant Valid() && fresh(Repr - old(Repr))
        invariant Midway(start, draws, resets, epoch, j, Standings())
      {
        Turn(j, epoch, draws, resets, start);
        j := j + 1;
      }
      NextEpoch(start, draws, resets, epoch, Standings());
    }

    /** Once every player has taken its turn in epoch `e`, the next epoch can begin. */
    lemma {:induction false} NextEpoch(start: seq<Standing>, draws: seq<seq<seq<StepDraw>>>, resets: seq<seq<seq<real>>>, e: nat, now: seq<Standing>)
      requires Midway(start, draws, resets, e, |start|, now)
      ensures Midway(start, draws, resets, e + 1, 0, now)
    {
    }

    /** Player `j`'s turn in epoch `epoch`: the players before it have played this epoch, and now it has too. */
    method Turn(j: nat, epoch: nat, draws: seq<seq<seq<StepDraw>>>, resets: seq<seq<seq<real>>>, ghost start: seq<Standing>)
      requires Valid() && Ready(draws, resets) && 1 <= epoch <= nEpochs && |start| == |players| && j < |players|
      requires Midway(start, draws, resets, epoch, j, Standings())
      modifies Repr
      ensures Valid() && fresh(Repr - old(Repr))
      ensures Midway(start, draws, resets, epoch, j + 1, Standings())
    {
      ghost var now := Standings();
      StandingsAre();
      FollowsOneMore(start[j], draws[j], resets[j], epoch - 1, now[j]);
      ghost var next := NextStanding(now[j], epoch, draws[j][epoch - 1], resets[j][epoch - 1]);
      PlayEpoch(j, epoch, draws[j][epoch - 1], resets[j][epoch - 1]);
      assert Standings() == now[j := next];
      MidwayOneMore(start, draws, resets, epoch, j, now, next);
    }

    /** Player `i`'s turn in epoch `epoch`: `player.run()`, its rewards folded into its average, `player.reset()`.
        No other player and no other average changes. */
    method PlayEpoch(i: nat, epoch: nat, draws: seq<StepDraw>, reset: seq<real>)
      requires Valid() && i < |players| && epoch > 0
      requires players[i].bandit.n > 0 && |draws| == players[i].nSteps && DrawsFit(draws, players[i].bandit.n)
      requires |reset| == players[i].bandit.n
      modifies this, players[i].Repr, avgRewards[i]
      ensures Valid() && fresh(Repr - old(Repr))
      ensures Standings() == old(Standings())[i := Standing(players[i].Settings(), players[i].Value(), avgRewards[i][..])]
      ensures players[i].Settings() == old(players[i].Settings())
      ensures var p := players[i];
              var t := Play(old(p.Value()), p.bandit.n, p.eps, p.bandit.incrDev, draws);
              && p.Value() == ResetValue(t.last, p.bandit.q, reset, p.optimist, p.baseline)
              && avgRewards[i][..] == Fold(old(avgRewards[i][..]), epoch, t.rewards)
    {
      ghost var s0 := Standings();
      RunPlayer(i, draws);
      ghost var s1 := Standings();
      FoldPlayer(i, epoch);
      ghost var s2 := Standings();
      ResetPlayer(i, reset);
      Overwrite(s0, i, s1[i], s2[i]);
      Overwrite(s0, i, s2[i], Standings()[i]);
    }

    /** `player.run()` for player `i`. */
    method RunPlayer(i: nat, draws: seq<StepDraw>)
      requires Valid() && i < |players|
      requires players[i].bandit.n > 0 && |draws| == players[i].nSteps && DrawsFit(draws, players[i].bandit.n)
      modifies this, players[i].Repr
      ensures Valid() && fresh(Repr - old(Repr)) && fresh(players[i].Repr - old(players[i].Repr))
      ensures Standings() == old(Standings())[i := Standing(players[i].Settings(), players[i].Value(), avgRewards[i][..])]
      ensures players[i].Settings() == old(players[i].Settings()) && avgRewards[i][..] == old(avgRewards[i][..])
      ensures var p := players[i];
              var t := Play(old(p.Value()), p.bandit.n, p.eps, p.bandit.incrDev, draws);
              p.Value() == t.last && p.rewards[..] == t.rewards
    {
      players[i].Run(draws);
      Repr := Repr + players[i].Repr;
      OnlyOneMoved(i);
    }

    /** Folds player i's latest rewards into its running average, with weight 1/epoch. */
    method FoldPlayer(i: nat, epoch: nat)
      requires Valid() && i < |players| && epoch > 0
      modifies avgRewards[i]
      ensures Valid()
      ensures Standings() == old(Standings())[i := Standing(players[i].Settings(), players[i].Value(), avgRewards[i][..])]
      ensures players[i].Settings() == old(players[i].Settings()) && players[i].Value() == old(players[i].Value())
      ensures avgRewards[i][..] == Fold(old(avgRewards[i][..]), epoch, players[i].rewards[..])
    {
      FoldInto(avgRewards[i], epoch, players[i].rewards);
      OnlyOneMoved(i);
    }

    /** `player.reset()` for player `i`. */
    method ResetPlayer(i: nat, reset: seq<real>)
      requires Valid() && i < |players| && |reset| == players[i].bandit.n
      modifies this, players[i].Repr
      ensures Valid() && fresh(Repr - old(Repr))
      ensures Standings() == old(Standings())[i := Standing(players[i].Settings(), players[i].Value(), avgRewards[i][..])]
      ensures players[i].Settings() == old(players[i].Settings()) && avgRewards[i][..] == old(avgRewards[i][..])
      ensures var p := players[i];
              p.Value() == ResetValue(old(p.Value()), p.bandit.q, reset, p.optimist, p.baseline)
    {
      players[i].Reset(reset);
      Repr := Repr + players[i].Repr;
      OnlyOneMoved(i);
    }

    /** Valid is kept, and every other player and average stands still, when only player `i` and its average
        have changed, and player `i` has only gained new objects. */
    twostate lemma OnlyOneMoved(i: nat)
      requires old(Valid()) && i < |players|
      requires forall j :: 0 <= j < |players| && j != i ==> unchanged(old(players[j].Repr)) && unchanged(avgRewards[j])
      requires players[i].Valid() && fresh(players[i].Repr - old(players[i].Repr))
      requires Repr == old(Repr) + players[i].Repr
      ensures Valid() && fresh(Repr - old(Repr))
      ensures Standings() == old(Standings())[i := Standing(players[i].Settings(), players[i].Value(), avgRewards[i][..])]
    {
      OnlyOneMovedValid(i);
      assert forall j :: 0 <= j < |players| && j != i ==>
        && players[j].Settings() == old(players[j].Settings()) && players[j].Value() == old(players[j].Value())
        && avgRewards[j][..] == old(avgRewards[j][..]);
    }

    /** The frame half of OnlyOneMoved: the benchmark stays valid. */
    twostate lemma OnlyOneMovedValid(i: nat)
      requires old(Valid()) && i < |players|
      requires forall j :: 0 <= j < |players| && j != i ==> unchanged(old(players[j].Repr)) && unchanged(avgRewards[j])
      requires players[i].Valid() && fresh(players[i].Repr - old(players[i].Repr))
      requires Repr == old(Repr) + players[i].Repr
      ensures Valid() && fresh(Repr - old(Repr))
    {
    }
  }
}
