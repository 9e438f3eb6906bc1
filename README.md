# A verified model of a k-armed bandit simulator

This project models the core of a k-armed bandit simulator in Dafny:

- **Arms** have a true value and a drift deviation.
- A **bandit** owns its arms, validates the list of explicit arm values it is given, and rebuilds the arms from that list on `reset`.
- A **player** keeps its own copy of a bandit. It picks arms ε-greedily, with numpy's lowest-index `argmax` when it exploits. It counts its pulls, records one reward per step, and lets a **strategy** rewrite its preference vector after every pull.
- There are four strategies:
  - sample averages;
  - constant step size;
  - UCB, with a clock and a table of values;
  - the gradient bandit, with a clock, a running mean reward and softmax probabilities.
- A **benchmark** runs every player for a number of epochs. After each epoch it folds the player's reward trajectory into a running per-step average, then resets the player.

The model has four modules:

- `Wrappers` (in `common.dfy`): `Option` and `Result`.
- `Averages` (in `common.dfy`): sums, means and the incremental-mean identity.
- `Strategies` (in `strategies.dfy`), for `src/strategies.py`.
- `BanditUtils` (in `bandit_utils.dfy`), for `src/bandit_utils.py`.

Both source files change state in place, and so does the model:

- Each Python class is a Dafny class with its fields and `modifies` frames: `Arm`, `Bandit`, `BanditPlayer`, `Benchmark`, `SampleAverages`, `ConstantStepSize`, `UCB` and `GradientBandit`.
- Only `Bandit`, `BanditPlayer` and `Benchmark` own other objects, so only they carry a `Valid()` invariant and a `Repr` footprint. `UCB` and `GradientBandit` expose their state as a value through `Model()`.
- numpy vectors that are shared between objects, or that outlive the call that makes them, are `array`s: the player's rewards, counts and preferences, UCB's value table and the benchmark's averages. The gradient bandit's `probs`, which no other object sees, is a value (see "## Left out").
- Every method is proved against a pure function of the old state, for example `Estimate`, `UseArmValue`, `Play`, `ResetValue`, `Fold` and `Epochs`.
- The properties of the simulator are lemmas about those functions.

Randomness is passed in as explicit arguments:

- A standard-normal draw is a real `z`, so N(μ, σ) is μ + σ·z.
- `binomial(1, eps) == 1` is a uniform `coin` in [0, 1) that falls below `eps`.
- `randint(0, n)` is floor(`pick` · n) for a uniform `pick` in [0, 1).
- UCB's `(log(t) / n) ** 0.5` is an uninterpreted function `bonus(t, n)`.
- `exp` is an uninterpreted function that is known only to be positive.

Some behaviour of the code is easy to miss, and the model keeps it:

- The docstring of `BanditPlayer.reset` (src/bandit_utils.py:181) says it resets "all additional fields", but lines 183-188 leave `self.strategy` as it is. So UCB's clock and value table, and the gradient bandit's mean reward, clock and probabilities, all carry over from one epoch to the next. `PlayKeepsGradientInvariant` states the consequence: the gradient bandit's mean reward is the mean of every reward of every epoch so far.
- The code accepts a bandit with zero arms. It checks neither that the drift deviation is non-negative nor that ε lies in [0, 1].

## Model

| member | source | states |
|---|---|---|
| Averages.IncrementalMean | src/strategies.py:19 | folding x into the mean a of s with weight 1/(\|s\|+1) gives the mean of s + [x]; every averaging update of the simulator is this step |
| Strategies.SampleAverageBounds | src/strategies.py:19 | the sample-average step `q + (reward − q)/count`, used at lines 19, 46 and 69: with count 1 the estimate becomes the reward, and no step passes beyond the reward |
| Strategies.SampleAverages.constructor | src/strategies.py:15-16 | the object keeps no state, so it fits a bandit with any number of arms |
| Strategies.EstimateSampleAverages | src/strategies.py:18-20 | only `preferences[indx]` changes, to old + (reward − old)/count[indx]; the length is kept |
| Strategies.SampleAveragesTrackMean | src/strategies.py:18-20 | after k sample-average updates with counts 1..k, the estimate is the arithmetic mean of the k rewards, whatever it started from |
| Strategies.SampleAverages.EstimateValues | src/strategies.py:18-20 | writes the caller's array in place, so that it equals EstimateSampleAverages of the old contents, and returns that same array |
| Strategies.ConstantStepBounds | src/strategies.py:28 | the constant step `q + α(reward − q)`: α = 0 keeps the estimate, α = 1 takes the reward, and α in [0, 1] lands between the two |
| Strategies.EstimateConstantStepSize | src/strategies.py:27-29 | only `preferences[indx]` changes, to old + alpha·(reward − old) |
| Strategies.ConstantStepIsRecencyWeighted | src/strategies.py:27-29 | after k constant-step updates the estimate is (1−α)^k·q plus the sum of the rewards, reward i weighted α(1−α)^(k−1−i) |
| Strategies.ConstantStepSize.constructor | src/strategies.py:24-25 | stores alpha |
| Strategies.ConstantStepSize.EstimateValues | src/strategies.py:27-29 | writes the caller's array in place, so that it equals EstimateConstantStepSize of the old contents, and returns it |
| Strategies.InitialValues | src/strategies.py:38-40 | with no table yet, a table of zeros of the given length; otherwise the existing table, untouched |
| Strategies.EstimateUCB | src/strategies.py:42-47 | the clock goes up by exactly one; the table is created only if absent and only entry indx changes, by the sample-average rule; entry i of the result is values[i] + c·bonus(time, count[i]) |
| Strategies.WithBonus | src/strategies.py:47 | entry i is values[i] + c·bonus(time, counts[i]), at the table's length |
| Strategies.UCB.constructor | src/strategies.py:33-36 | c as given, time 1, no value table |
| Strategies.UCB.InitValues | src/strategies.py:38-40 | allocates a zero table only when there is none; an existing table is kept, same array |
| Strategies.UCB.EstimateValues | src/strategies.py:42-47 | the new state and the returned fresh array are EstimateUCB of the old state; the table is allocated once and is the same array afterwards |
| Strategies.UCB.AddBonus | src/strategies.py:47 | a new array equal to WithBonus of the table |
| Strategies.UCBClock | src/strategies.py:33-47 | over k calls the clock advances by exactly k, c and the bonus never change, and from the first call on there is a table with one entry per arm |
| Strategies.InitialProbs | src/strategies.py:57-59 | with no probabilities yet, the uniform vector 1/length; otherwise the existing ones |
| Strategies.UniformIsDistribution | src/strategies.py:57-59 | the uniform starting vector is positive and sums to 1 |
| Strategies.Softmax | src/strategies.py:61-63 | exp(pref)/sum(exp(pref)) has the preference length, every entry is positive, and a non-empty vector sums to 1 |
| Strategies.EstimateGradient | src/strategies.py:65-73 | the clock goes up by one; the mean reward takes the sample-average step with the new clock; the preferences are GradientStep taken with the updated mean; the probabilities become Softmax of the new preferences |
| Strategies.GradientStep | src/strategies.py:70-71 | the preference step with d = α(reward − mean): lower every entry by d·π[j], then raise entry indx by d; the length is kept. GradientStepIsPolicyGradient gives each entry and GradientStepKeepsTotal the total |
| Strategies.GradientStepIsPolicyGradient | src/strategies.py:70-71 | the chosen preference gains d·(1 − π[indx]) and every other preference loses d·π[j], where d = α(reward − mean) |
| Strategies.GradientStepKeepsTotal | src/strategies.py:70-71 | when π sums to 1, the step leaves the total of the preferences unchanged |
| Strategies.LoweredTotal | src/strategies.py:71 | lowering each entry by d·π[j] lowers the total by exactly d when π sums to 1 |
| Strategies.ShiftKeepsTotal | src/strategies.py:70-71 | lowering each entry by d·π[j] and raising one entry by d keeps the total when π sums to 1 |
| Strategies.GradientBandit.constructor | src/strategies.py:51-55 | alpha as given, mean reward 0, time 0, no probabilities |
| Strategies.GradientBandit.InitProbs | src/strategies.py:57-59 | sets the uniform vector only when there are no probabilities yet |
| Strategies.GradientBandit.DeriveProbs | src/strategies.py:61-63 | the probabilities become Softmax of the preferences |
| Strategies.GradientBandit.EstimateValues | src/strategies.py:65-73 | rewrites the caller's array in place and returns it; the new state and contents are EstimateGradient of the old ones |
| Strategies.GradientBandit.Step | src/strategies.py:70-71 | the array becomes GradientStep of its old contents: first every entry is lowered, then entry indx is raised |
| Strategies.GradientBandit.Lower | src/strategies.py:70 | entry j becomes old[j] − step·π[j], for every j |
| Strategies.GradientStepKeepsInvariant | src/strategies.py:65-72 | one call keeps GradientInvariant with the reward appended: the clock counts the rewards, the mean reward is their mean, and the probabilities are a distribution |
| Strategies.GradientMeanIsMean | src/strategies.py:51-72 | after any sequence of calls, the mean reward is the arithmetic mean of every reward passed, the clock counts them, and the probabilities are positive and sum to 1 |
| Strategies.StatelessRulesStayPut | src/strategies.py:14-29 | sample averages and constant step size keep no state across calls |
| Strategies.Estimate | src/bandit_utils.py:174-176 | whichever rule is called, the returned vector has the preference length and any internal vector the rule keeps fits the arm count |
| Strategies.Rule.EstimateValues | src/bandit_utils.py:174-176 | `strategy.estimate_values`, dispatched on the rule: the returned array and the new rule state are Estimate of the old ones; the result is the caller's array or a new one |
| BanditUtils.InitialQ | src/bandit_utils.py:29-34 | an explicit value is kept; `None` becomes the standard-normal draw |
| BanditUtils.Arm.constructor | src/bandit_utils.py:21-23 | the true value is set through the setter; the deviation is as given |
| BanditUtils.Arm.SetQ | src/bandit_utils.py:29-34 | the true value becomes InitialQ of the value given |
| BanditUtils.Arm.Action | src/bandit_utils.py:36-38 | the reward is q plus the standard-normal noise, so it is drawn from N(q, 1) |
| BanditUtils.Drifted | src/bandit_utils.py:42-43 | the drifted value is q + incrDev·z, so skipping a zero deviation changes nothing |
| BanditUtils.Arm.ResetQ | src/bandit_utils.py:40-43 | q drifts by incrDev·z, and is unchanged when the deviation is 0 |
| BanditUtils.ValidateQ | src/bandit_utils.py:72-80 | fails exactly when an explicit list's length differs from n; otherwise n entries: the list itself, or all `None` when it is omitted |
| BanditUtils.ArmValues | src/bandit_utils.py:66 | one value per entry; every explicit value comes back exactly, and every `None` is its draw |
| BanditUtils.DriftAll | src/bandit_utils.py:101-102 | every arm drifts once; with deviation 0 nothing changes |
| BanditUtils.BuildArms | src/bandit_utils.py:66 | one new, distinct Arm per entry, holding InitialQ of that entry |
| BanditUtils.Bandit.constructor | src/bandit_utils.py:62-66 | keeps n, the list and the deviation; the arms' true values are ArmValues of the list |
| BanditUtils.Bandit.Copy | src/bandit_utils.py:137 | the deep copy: the same n, list and deviation, new arms with the same current true values |
| BanditUtils.Bandit.Create | src/bandit_utils.py:62-80 | a ValueError exactly when an explicit list's length differs from n; otherwise a bandit with one arm per entry and the list copied |
| BanditUtils.Bandit.SetQ | src/bandit_utils.py:72-80 | the stored list is replaced on success, and left as it was after a ValueError |
| BanditUtils.Bandit.Reset | src/bandit_utils.py:86-90 | the stored list is kept; the new arms' values are ArmValues of it, so explicit values come back exactly |
| BanditUtils.Bandit.Action | src/bandit_utils.py:92-103 | every arm drifts first; then the reward is the new value of arm indx plus its noise |
| BanditUtils.ArgMax | src/bandit_utils.py:165 | an index holding the maximum, with every earlier entry strictly smaller, so it is the lowest such index |
| BanditUtils.RandInt | src/bandit_utils.py:163 | an index in [0, n) |
| BanditUtils.ChooseArm | src/bandit_utils.py:157-166 | the explore branch gives randint's index in [0, n); the exploit branch gives the lowest index of the maximum preference |
| BanditUtils.InitialPreferences | src/bandit_utils.py:140-142 | n entries, all `baseline` for an optimist, all 0 otherwise |
| BanditUtils.NoCounts | src/bandit_utils.py:139 | n zero counts |
| BanditUtils.UseArmValue | src/bandit_utils.py:168-177 | the count of indx goes up by exactly one and no other count changes; the bandit drifts and pays; the preferences and the strategy state become Estimate with the new counts |
| BanditUtils.Play | src/bandit_utils.py:149-155 | a run yields one reward and one pick per draw, and every pick is an arm index |
| BanditUtils.PlayOneMore | src/bandit_utils.py:153-155 | a run one step longer is the shorter run followed by one `get_arms_id` and one `use_arm` |
| BanditUtils.CountsArePicks | src/bandit_utils.py:153-155 | over a run, each arm's count grows by the number of steps that pulled it |
| BanditUtils.SampleAveragesPlayerTracksMean | src/bandit_utils.py:149-177 | a sample-averages player ends a run with each arm it had not pulled before having the count of its pulls, and a preference equal to the mean of the rewards those pulls paid |
| BanditUtils.SampleAveragesStep | src/bandit_utils.py:168-177 | one `use_arm` keeps TracksMean, with the reward appended when the arm is the one pulled |
| BanditUtils.PlayKeepsGradientInvariant | src/bandit_utils.py:149-155 | over a run, the gradient bandit's mean reward stays the mean of every reward paid so far, including earlier runs |
| BanditUtils.GradientPlayerStep | src/bandit_utils.py:168-177 | one `use_arm` keeps GradientInvariant, with the reward appended |
| BanditUtils.PlayAdvancesUCBClock | src/bandit_utils.py:149-155 | over a run of k steps a UCB player's clock advances by exactly k |
| BanditUtils.ResetValue | src/bandit_utils.py:179-188 | for a strategy state that fits the arm count, the value after `reset` has every vector at the arm count |
| BanditUtils.NewZeros | src/bandit_utils.py:138 | a new array of zeros |
| BanditUtils.NewCounts | src/bandit_utils.py:139 | a new array of zero counts |
| BanditUtils.NewPreferences | src/bandit_utils.py:140-142 | a new array holding InitialPreferences |
| BanditUtils.BanditPlayer.constructor | src/bandit_utils.py:130-143 | owns a deep copy of the bandit; rewards are nSteps zeros; counts are zero; preferences are all baseline (optimist) or all 0 |
| BanditUtils.BanditPlayer.GetArmsId | src/bandit_utils.py:157-166 | returns ChooseArm of the current preferences |
| BanditUtils.BanditPlayer.UseArm | src/bandit_utils.py:168-177 | the new state and the reward are UseArmValue of the old state; the rewards array is untouched |
| BanditUtils.BanditPlayer.Pull | src/bandit_utils.py:172-173 | exactly `numberOfActions[indx]` goes up by one, before the bandit's action pays; preferences, rewards and strategy are untouched |
| BanditUtils.BanditPlayer.Reestimate | src/bandit_utils.py:174-176 | the preferences become the strategy's return value, and the strategy state and that value are Estimate of the old ones with the incremented counts |
| BanditUtils.BanditPlayer.Adopt | src/bandit_utils.py:174 | the player's preferences become the array the strategy returned; the strategy's state and footprint stay as they are |
| BanditUtils.BanditPlayer.Record | src/bandit_utils.py:155 | only `rewards[step]` changes, to the reward |
| BanditUtils.BanditPlayer.PlayStep | src/bandit_utils.py:153-155 | one loop step: ChooseArm, then UseArmValue; the reward lands at `rewards[step]` and nothing else of `rewards` changes |
| BanditUtils.BanditPlayer.Run | src/bandit_utils.py:149-155 | the final state is Play's, and `rewards[k]` is the reward of step k, for every k < nSteps; the rewards array keeps its identity and length |
| BanditUtils.BanditPlayer.Reset | src/bandit_utils.py:179-188 | the bandit is rebuilt from its stored list; rewards and counts are zero; preferences are the starting ones; the strategy state is kept |
| BanditUtils.BanditPlayer.Restart | src/bandit_utils.py:184-188 | new arrays: zero rewards and counts and the starting preferences; arms and strategy are untouched |
| BanditUtils.Fold | src/bandit_utils.py:249 | `avg += 1/epoch · (rewards − avg)`, entry by entry, at the average's length |
| BanditUtils.FoldInto | src/bandit_utils.py:249 | the in-place numpy update equals Fold of the old average |
| BanditUtils.Epochs | src/bandit_utils.py:244-250 | one player's epochs: the history holds one reward vector of the average's length per epoch |
| BanditUtils.FoldAverages | src/bandit_utils.py:249 | folding epoch e's rewards with weight 1/e into the averages of epochs 1..e−1 gives the averages of epochs 1..e |
| BanditUtils.EpochsAverage | src/bandit_utils.py:244-250 | after epoch e ≥ 1, entry t of the average is the arithmetic mean of `rewards[t]` over epochs 1..e, whatever the average held before |
| BanditUtils.FollowsAveraged | src/bandit_utils.py:244-250 | a player that has followed one epoch or more holds, in its average, the per-step mean reward of those epochs |
| BanditUtils.FollowsOneMore | src/bandit_utils.py:247-250 | a standing after k+1 epochs is one turn on from the standing after k |
| BanditUtils.NextStanding | src/bandit_utils.py:248-250 | one player's turn in an epoch: the settings and the average's length are kept, and after the reset the counts are zero and the preferences are the starting ones, with every vector at the arm count |
| BanditUtils.MidwayOneMore | src/bandit_utils.py:247-250 | when player j moves on by one epoch, the players up to and including j have played that epoch and the rest have not |
| BanditUtils.Benchmark.constructor | src/bandit_utils.py:208-211 | one zero average per player, as long as that player's run; every object the benchmark holds is new or in `owned`, the set the caller names for the players' footprints, so a caller that owns its players can run the benchmark |
| BanditUtils.Benchmark.NewAverages | src/bandit_utils.py:211 | one new, distinct zero array per player, of length nSteps; the ghost set it returns holds those arrays and the players' footprints, and everything in it outside `owned` is new |
| BanditUtils.Benchmark.Run | src/bandit_utils.py:240-250 | every player ends where Epochs puts it after all the epochs: its value after the last run and reset, and its average as Epochs's fold |
| BanditUtils.Benchmark.RunEpochs | src/bandit_utils.py:244-250 | after the epoch loop, every player has played every epoch |
| BanditUtils.Benchmark.RunEpoch | src/bandit_utils.py:247-250 | in epoch e every player takes its turn, in order |
| BanditUtils.Benchmark.Turn | src/bandit_utils.py:247-250 | player j's turn moves only player j's standing one epoch on |
| BanditUtils.Benchmark.PlayEpoch | src/bandit_utils.py:248-250 | `run()`, the fold of its rewards into its average, then `reset()`; no other player or average changes |
| BanditUtils.Benchmark.RunPlayer | src/bandit_utils.py:248 | player i's run is Play; no other standing changes |
| BanditUtils.Benchmark.FoldPlayer | src/bandit_utils.py:249 | the average of player i becomes Fold with its rewards; no other standing changes |
| BanditUtils.Benchmark.ResetPlayer | src/bandit_utils.py:250 | player i's value becomes ResetValue; no other standing changes |

## Left out

- Random draws: `np.random.normal`, `binomial` and `randint` are arguments. Distributions and convergence are not modelled.
- Floating point: arithmetic is exact over `real`, with no rounding, overflow or NaN.
- `log`, `sqrt` and `exp` are uninterpreted. UCB's bonus with a count of 0 is numpy's `inf`; `bonus(t, 0)` is left unconstrained.
- Strategies.SampleAverages.EstimateValues: requires a positive count for the chosen arm. That is what a player passes, since `use_arm` counts the pull first. With a count of 0, numpy would divide by zero and yield `inf` or `nan`; that is not modelled.
- Strategies.UCB.EstimateValues: requires a positive count for the chosen arm, for the same reason, and count and preference vectors of equal length. Without equal lengths, numpy would refuse to combine the vectors.
- Action counts are `nat`. The code keeps them as a float vector from `np.zeros`, and the two agree on every value a player reaches.
- BanditUtils.ChooseArm: requires at least one arm. With none, numpy's `argmax` and `randint` raise; that error path is not modelled, and neither is `binomial`'s ValueError for ε outside [0, 1].
- BanditUtils.Arm.ResetQ: numpy's ValueError for a negative deviation is not modelled; a negative deviation drifts like a positive one.
- Plotting and logging: `Benchmark.plot_graphs`, the `print_log` and `log_time` parameters and their branches are UI. This includes the ZeroDivisionError of `epoch % log_time` when `log_time` is 0.
- BanditUtils.Benchmark.constructor: requires players with disjoint footprints, so that no two players share a strategy object or arrays. The demo scripts build their players that way. A strategy shared by two players would carry its state from one to the other, and that is not modelled.
- BanditUtils.Benchmark.constructor: takes a ghost set `owned` that holds every player's footprint. It exists only for the proof: every object of the benchmark's footprint is new or in `owned`.
- Strategies.GradientBandit.EstimateValues: requires the held probabilities to have one entry per arm (`Fits`). A gradient-bandit object reused with a bandit of another size would make numpy raise a broadcasting error; that error path is not modelled.
- BanditUtils.BanditPlayer.constructor: requires the strategy's state to fit the bandit's arm count (`Fits`), for the same reason: a strategy object carried over from a bandit of another size would make numpy raise later, and that is not modelled.
- BanditUtils.Play: requires at least one arm even for a run of zero steps. The code's `run()` returns normally for zero arms and zero steps; that degenerate case is not modelled. The same holds for BanditUtils.BanditPlayer.Run and BanditUtils.Benchmark.Ready.
- Default arguments are Dafny default parameters: `incr_dev=0` and `q=None` for an arm; `n=2`, `q=None` and `incr_dev=0` for `Bandit.Create`; `alpha=0.1` and `c=2` for the strategies; `optimist=False`, `baseline=5` and `name=''` for a player; `name=''` for a benchmark. The normal draw that stands for a missing value stays an explicit parameter.
- BanditUtils.Bandit.Copy: builds new arms holding the current true values, rather than copying the objects field by field. The stored list and the deviation are copied.
- Strategies.GradientBandit: `probs` is an `Option<seq<real>>` that `_derive_probs` replaces, not a numpy array divided in place (src/strategies.py:62-63). No other object holds the vector, so only its value is observable.
- Arm and bandit properties (`q`, `arms`) are plain fields, not Python properties.
- The abstract `Strategy` base class is the `Rule` datatype over the four concrete classes.
- Demo scripts are not part of this model.
