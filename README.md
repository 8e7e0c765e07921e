# torchRL PPO bookkeeping, modelled in Dafny

This project models the bookkeeping layer of the torchRL C++ PPO trainer and
proves properties of that model. The neural network, the environment physics
and the libtorch plumbing are left abstract. What is modelled:

- **Episodes.** An `AbstractEnv` counts the length and reward of its running
  episode. It resets itself when a step ends in `Terminal` or `Timeout`, and
  that step reports the episode's totals (module `Env`).
- **Running statistics.** `RunningMeanStd` merges each batch into a running
  mean and variance by the parallel algorithm of Chan et al., starting from
  the pseudo-count ε (module `Statistics`).
- **Normalisation.** Observations are standardised and rewards scaled, and
  both are clipped to their bounds (module `Normalization`).
- **Vectorised environments**, in two generations:
  - the newer `VectorizedEnv` under `torchrl/`, which normalises and zeroes
    the return accumulator of ended episodes (module `VecEnv`);
  - the older plain `VectorizedEnv` with its `NormalizedVectorizedEnv`
    decorator (module `LegacyVecEnv`).

  `Vectorized` holds what the two generations share: stacking the results,
  the rows fed to the normaliser, the accumulator, and creating and seeding
  the environments.
- **Rollouts.** `RolloutBuffer` keeps, per environment, three parallel lists:
  samples, rewards and episode-end flags. Its backward pass computes
  Generalized Advantage Estimation (GAE, Schulman et al.) in place, and
  `apply_batch` stacks samples (module `Rollout`). Module `Gae` gives two
  pure references for that pass: the recursion, and the explicit weighted
  sum of TD errors.
- **The PPO trainer.** One collection window works as follows:
  - each step's `Timeout` rewards get a bootstrap bump;
  - the next observation is spliced from `new_episode_obs` for envs whose
    episode ended;
  - completed-episode totals are summed;
  - the final bootstrap is masked for envs whose last step ended an episode.

  The `Learn` loop adds to `timestep` and keeps the averages it reports.
  `Play` runs the deterministic policy, and there is the clipped surrogate
  loss (module `Ppo`). The older trainer has the same collection loop but
  reports its averages unguarded (module `LegacyPpo`).
- **The logger's file side.** A `std::map` from key to a column of entries;
  `Log` appends entries and either rewrites the file or appends a row, and
  `Dump` is a k-way merge of the columns by `play_steps` (module `Logger`).

Modelling conventions:

- **Numbers.** Floats are `real` and tensors are `seq<real>` (rows are
  `seq<seq<real>>`). Unsigned counters are `nat`, except two cases written
  out explicitly: the seeds, which wrap modulo 2^32, and the logger's
  `uint64_t` step counts.
- **Collaborators.** The concrete environment is a `Dynamics` value holding
  `StepImpl`, `ResetImpl` and `GetObs`, acting on an opaque physical state.
  The policy network is a `Policy` value holding `act`, `values` and
  `predict`. The square root in the normalisation is an abstract function
  `Root` that is positive on positive arguments.
- **Objects.** Objects whose fields the source updates in place are classes:
  - `AbstractEnv`
  - `RunningMeanStd`
  - both `VectorizedEnv`s, and `NormalizedVectorizedEnv`
  - `RolloutBuffer`
  - both `PPO`s
  - `Logger`

  Their methods are proved against pure specification functions, and the
  lemmas state the source's properties about those functions.
- **Composition.** `NormalizedVectorizedEnv` derives from the older
  `VectorizedEnv` in the source. Here it holds a `base` object instead.

## Model

| member | source | states |
|---|---|---|
| Env.MakeStepResult | include/torchrl/envs/AbstractEnv.hpp:14-29 | a result built from obs, reward and state carries an empty `new_episode_obs` and totals 0, the declared defaults |
| Env.ResetEnv | src/envs/AbstractEnv.cpp:23-30 | both counters are 0 afterwards, the physics is `ResetImpl` of the old one, and the observation returned is `GetObs` of the new state with `GetObservationSize()` entries |
| Env.StepEnv | src/envs/AbstractEnv.cpp:32-45 | `StepImpl` sees the length plus one; obs, reward and state are `StepImpl`'s own; an ending step reports the totals including itself, its `new_episode_obs` is the reset observation and the counters are reset; otherwise the counters are kept with the reward added and the documented defaults hold |
| Env.EpisodeTotals | src/envs/AbstractEnv.cpp:32-45 | along a run with no earlier end, a step that ends the episode reports exactly the number of steps and the sum of rewards since the episode start, and leaves both counters 0; a run that has not ended has counters equal to those sums |
| Env.Run | src/envs/AbstractEnv.cpp:32-45 | a run of `Step`s on values: one result per action, each step taken from the state the previous one left |
| Env.AbstractEnv.constructor | src/envs/AbstractEnv.cpp:3-16 | both counters start at 0 |
| Env.AbstractEnv.GetObs | include/torchrl/envs/AbstractEnv.hpp:60-62 | the observation has `GetObservationSize()` entries |
| Env.AbstractEnv.Reset | src/envs/AbstractEnv.cpp:23-30 | the new state and the returned observation are those of `ResetEnv` |
| Env.AbstractEnv.Step | src/envs/AbstractEnv.cpp:32-45 | the new state and the result are those of `StepEnv`, including the nested `Reset` on an ending step |
| Statistics.Fresh | src/envs/RunningMeanStd.cpp:3-8 | a fresh state has mean 0, variance 1 and count ε in every coordinate, and is valid when ε > 0 |
| Statistics.UpdateState | src/envs/RunningMeanStd.cpp:25-36 | an update keeps the shape and adds the batch size N to the count |
| Statistics.Merge | src/envs/RunningMeanStd.cpp:29-35 | the merge of a batch's mean, population variance and size N into the running mean, variance and count: δ = batch mean − mean, mean + δ·N/(count+N), and the pooled second moment with the δ²·count·N/(count+N) correction, over count+N; its properties are `MergeMean`, `MergeVariance`, `MergeConcat` and `MergeNonNegative` |
| Statistics.UpdateCoord | src/envs/RunningMeanStd.cpp:25-35 | one coordinate of `Update`: the batch's column mean and population variance (`var(0, false)`), with N rows, merged in; `UpdateCoordConcat` proves that two updates compose to one |
| Statistics.MergeMean | src/envs/RunningMeanStd.cpp:29-33 | the new mean satisfies (count + N)·mean' = count·mean + N·batch_mean, that is mean' = mean + δ·N/(count+N) |
| Statistics.MergeVariance | src/envs/RunningMeanStd.cpp:34 | the new variance satisfies (count+N)²·var' = (count+N)·(var·count + bvar·N) + δ²·count·N |
| Statistics.PopulationVarianceMoment | src/envs/RunningMeanStd.cpp:34 | the batch variance is the population variance (divisor N): N·bvar = Σx² − N·mean² |
| Statistics.UpdateConcat | src/envs/RunningMeanStd.cpp:25-36 | updating with batch A and then batch B gives exactly the state of one update with A ++ B |
| Statistics.MergeConcat | src/envs/RunningMeanStd.cpp:29-35 | the per-coordinate merge is associative in the sense of Chan et al.'s parallel algorithm |
| Statistics.UpdateCoordConcat | src/envs/RunningMeanStd.cpp:29-35 | one coordinate updated with A then B equals one update with A ++ B |
| Statistics.MergeNonNegative | src/envs/RunningMeanStd.cpp:34 | a merge of non-negative variances with positive counts is non-negative |
| Statistics.PopulationVarianceNonNegative | src/envs/RunningMeanStd.cpp:34 | the batch's population variance is non-negative |
| Statistics.UpdateKeepsValid | src/envs/RunningMeanStd.cpp:31-35 | if count > 0 and every variance ≥ 0 before an update, both still hold after it |
| Statistics.FreshUpdateClosedForm | src/envs/RunningMeanStd.cpp:3-8 | a fresh estimator after one batch has count ε + N, and mean and variance in closed form from the batch's sum and sum of squares |
| Statistics.RunningMeanStd.constructor | src/envs/RunningMeanStd.cpp:3-8 | the new estimator is `Fresh(dim, ε)` |
| Statistics.RunningMeanStd.Update | src/envs/RunningMeanStd.cpp:25-36 | the new state is `UpdateState` of the old one and the estimator stays valid |
| Statistics.RunningMeanStd.Save | src/envs/RunningMeanStd.cpp:38-41 | the saved blob holds mean, variance and count |
| Statistics.RunningMeanStd.Load | src/envs/RunningMeanStd.cpp:43-50 | the state becomes exactly the blob, so loading a saved blob restores mean, variance and count |
| Normalization.Clip | torchrl/src/envs/VectorizedEnv.cpp:168 | the result lies in [lo, hi], is x itself inside it, and is the nearer bound outside it |
| Normalization.ClipMonotone | torchrl/src/envs/VectorizedEnv.cpp:168 | clipping preserves order |
| Normalization.Standardize | torchrl/src/envs/VectorizedEnv.cpp:168 | a standardised and clipped coordinate lies in [−bound, bound] |
| Normalization.StandardizeMonotone | torchrl/src/envs/VectorizedEnv.cpp:168 | standardisation preserves order |
| Normalization.NormalizeRow | torchrl/src/envs/VectorizedEnv.cpp:168 | a normalised row keeps its width and lies in [−max_obs, max_obs] |
| Normalization.NormalizeRowMonotone | torchrl/src/envs/VectorizedEnv.cpp:168 | normalisation preserves the order of each coordinate |
| Normalization.NormalizeObs | torchrl/src/envs/VectorizedEnv.cpp:164-174 | disabled it is the identity; enabled it normalises every row with the current statistics and every output lies within ±max_obs |
| Normalization.NormalizeReward | torchrl/src/envs/VectorizedEnv.cpp:176-186 | disabled it is the identity; enabled every reward is divided by the root of var + ε and clipped, so it lies within ±max_reward |
| Normalization.NormalizeRewardSign | torchrl/src/envs/VectorizedEnv.cpp:176-186 | reward normalisation preserves the sign of each reward |
| Vectorized.Stack | torchrl/include/torchrl/envs/VectorizedEnv.hpp:8-22 | every field has one row per env, and row i of each field is env i's result field |
| Vectorized.StackDocumented | torchrl/include/torchrl/envs/VectorizedEnv.hpp:16-21 | stacking results that keep the documented contract keeps it row by row |
| Vectorized.NormalizerRows | torchrl/src/envs/VectorizedEnv.cpp:87-97 | row i is what env i feeds to the normaliser, one row per env |
| Vectorized.NormalizerRowsShaped | torchrl/src/envs/VectorizedEnv.cpp:87-97 | the normaliser's row i is env i's post-step observation if its episode goes on and its reset observation if it ended, all of width obs_size |
| Vectorized.ScalarRows | torchrl/src/envs/VectorizedEnv.cpp:201 | a reward vector fed to the scalar estimator is a batch of one-entry rows in order |
| Vectorized.Accumulate | torchrl/src/envs/VectorizedEnv.cpp:200 | the reward accumulator update exactly as written, `returns + discount_factor·reward` per env, one entry per env; `AccumulatorIsScaledSum` relates it to a scaled sum |
| Vectorized.AccumulatorIsScaledSum | torchrl/src/envs/VectorizedEnv.cpp:200 | after any number of training steps without an end, the accumulator entry is its start plus discount times the plain sum of the rewards, not a discounted return |
| Vectorized.UpdateObsStats | torchrl/src/envs/VectorizedEnv.cpp:188-194 | the observation statistics move only when training and `norm_obs` are both on, and then take the batch; validity is kept |
| Vectorized.UpdateRewardStats | torchrl/src/envs/VectorizedEnv.cpp:196-202 | the accumulator and the reward statistics move only when training and `norm_reward` are both on; then the accumulator becomes `returns + discount·reward` and is fed to the statistics; validity is kept |
| Vectorized.ScalarBatchable | torchrl/src/envs/VectorizedEnv.cpp:200-201 | the accumulator fed to the reward statistics has as many rows as the rewards |
| Vectorized.StepResultsShaped | torchrl/src/envs/VectorizedEnv.cpp:77-86 | the results of one step of all envs have obs_size-wide observations and keep the documented contract |
| Vectorized.CurrentObsShaped | torchrl/src/envs/VectorizedEnv.cpp:130-138 | the current observations of all envs are rows of width obs_size |
| Vectorized.CurrentObsOf | src/envs/VectorizedEnv.cpp:73-81 | what the env objects' `GetObs` return is the observation of their states, on values |
| Vectorized.StepEach | torchrl/src/envs/VectorizedEnv.cpp:77-86 | env i is stepped with action row i; the results are `StepEnv` of each env's old state, each env moves to its `StepEnv` state, and together the new states and the results are `StepAll` of the old states |
| Vectorized.ResetEach | torchrl/src/envs/VectorizedEnv.cpp:51-55 | row i is env i's `Reset()` result, each env moves to its `ResetEnv` state, and together the new states and the rows are `ResetAll` of the old states |
| Vectorized.ObserveEach | torchrl/src/envs/VectorizedEnv.cpp:130-136 | row i is env i's `GetObs()`, and nothing is stepped |
| Vectorized.StepAll | torchrl/src/envs/VectorizedEnv.cpp:77-86 | one step of every env on values: new state i and result i are `StepEnv` of env i's dynamics, state and action row |
| Vectorized.ResetAll | torchrl/src/envs/VectorizedEnv.cpp:51-55 | a reset of every env on values: new state i and row i are `ResetEnv` of env i's dynamics and state |
| Vectorized.ResetRowsAll | torchrl/src/envs/VectorizedEnv.cpp:51-55 | the rows the objects' `Reset()` returns are the rows of `ResetAll` on their states |
| Vectorized.ObserveAfterReset | torchrl/src/envs/VectorizedEnv.cpp:130-136 | envs just reset observe exactly the rows their reset returned |
| Vectorized.StepAllShaped | torchrl/src/envs/VectorizedEnv.cpp:77-86 | every result of a step on values has obs_size-wide observations, a reset observation of that width when its episode ended, and keeps the documented contract |
| Vectorized.SeedOf | torchrl/include/torchrl/envs/VectorizedEnv.hpp:79-89 | env i gets `seed + i` when the seed is non-zero and no wrap-around occurs |
| Vectorized.SeedsDistinct | torchrl/include/torchrl/envs/VectorizedEnv.hpp:84-89 | fewer than 2^32 envs get pairwise distinct 32-bit seeds |
| Vectorized.MakeEnvs | torchrl/include/torchrl/envs/VectorizedEnv.hpp:84-89 | exactly N new envs are built, env i from seed `seed + i` modulo 2^32 with both counters at 0 |
| VecEnv.DefaultSettings | torchrl/include/torchrl/envs/VectorizedEnv.hpp:29-33 | the defaults are both normalisations on, bounds 10 and 10, discount 0.99 and ε 1e-8 |
| VecEnv.ResetSpec | torchrl/src/envs/VectorizedEnv.cpp:57-64 | the state after `Reset` fits the env's shapes and one row per env is returned; `ResetProperties` states what the state and the rows are |
| VecEnv.StepState | torchrl/src/envs/VectorizedEnv.cpp:87-116 | the state after `Step` fits the env's shapes and keeps the training flag; `StepStatistics` and `StepAccumulator` state how the statistics and the accumulator move |
| VecEnv.StepOutput | torchrl/src/envs/VectorizedEnv.cpp:103-118 | the result of `Step` has one row per env in every field; `StepPassesThrough`, `StepBounded` and `StepTransparent` state its rows |
| VecEnv.ZeroEnded | torchrl/src/envs/VectorizedEnv.cpp:103-116 | exactly the ended envs' accumulator entries become 0 |
| VecEnv.StepRows | torchrl/src/envs/VectorizedEnv.cpp:69-97 | with `norm_obs` the rows fed to the statistics are the normaliser rows; they are always obs_size wide |
| VecEnv.StepPassesThrough | torchrl/src/envs/VectorizedEnv.cpp:77-86 | after normalisation, row i of the terminal states and both totals is still env i's, and the documented contract holds |
| VecEnv.StepStatistics | torchrl/src/envs/VectorizedEnv.cpp:87-101 | the statistics move only in training; the observation statistics take the normaliser rows and the reward statistics take the accumulator `returns + discount·reward` |
| VecEnv.StepAccumulator | torchrl/src/envs/VectorizedEnv.cpp:100-116 | with `norm_reward`, an ended env's accumulator is 0 afterwards in training or not; any other entry takes the `Accumulate` update `returns + discount·reward` in training and is untouched otherwise |
| VecEnv.StepBounded | torchrl/src/envs/VectorizedEnv.cpp:109-118 | observations, the ended envs' reset observations and rewards lie within their bounds when their normalisation is on |
| VecEnv.StepSameStatistics | torchrl/src/envs/VectorizedEnv.cpp:100-118 | the observations and the ended envs' reset observations are normalised with the same post-update statistics |
| VecEnv.StepTransparent | torchrl/src/envs/VectorizedEnv.cpp:67-119 | with both normalisations off a step is the plain stacking and the state is unchanged |
| VecEnv.ResetProperties | torchrl/src/envs/VectorizedEnv.cpp:49-65 | `Reset` zeroes the accumulator exactly when `norm_reward` is on, moves the observation statistics only in training, and returns rows within ±max_obs |
| VecEnv.VectorizedEnv.constructor | torchrl/src/envs/VectorizedEnv.cpp:5-22 | no envs and sizes 0, training on, the six settings stored, both estimators fresh |
| VecEnv.VectorizedEnv.SetTraining | torchrl/src/envs/VectorizedEnv.cpp:29-32 | only the training switch changes |
| VecEnv.VectorizedEnv.GetNumEnvs | torchrl/src/envs/VectorizedEnv.cpp:34-37 | the number of envs is the number of owned envs |
| VecEnv.VectorizedEnv.CreateEnvs | torchrl/include/torchrl/envs/VectorizedEnv.hpp:71-104 | N = 0 fails and changes nothing; otherwise the envs are exactly N new envs seeded `seed + i`, the sizes come from env 0, and with each flag its estimator is fresh of the right shape and the accumulator is N zeros |
| VecEnv.VectorizedEnv.Reinitialize | torchrl/include/torchrl/envs/VectorizedEnv.hpp:95-103 | a fresh `obs_rms` of width obs_size with `norm_obs`, a fresh scalar `ret_rms` and N zeros with `norm_reward`, everything else kept |
| VecEnv.VectorizedEnv.UpdateObs | torchrl/src/envs/VectorizedEnv.cpp:188-194 | the observation statistics become `UpdateObsStats` of the old ones |
| VecEnv.VectorizedEnv.UpdateReward | torchrl/src/envs/VectorizedEnv.cpp:196-202 | accumulator and reward statistics become `UpdateRewardStats` of the old ones |
| VecEnv.VectorizedEnv.Reset | torchrl/src/envs/VectorizedEnv.cpp:49-65 | each env is reset, its new state is `ResetAll` of the old states, and the normalisation state and the result are `ResetSpec` of the old state and the envs' reset rows |
| VecEnv.VectorizedEnv.TakeReset | torchrl/src/envs/VectorizedEnv.cpp:57-64 | the statistics take the reset rows, the accumulator is zeroed with `norm_reward`, and the rows come back normalised: `ResetSpec` of the old state |
| VecEnv.VectorizedEnv.Step | torchrl/src/envs/VectorizedEnv.cpp:67-119 | each env steps once with its action row and the new states and results are `StepAll` of the old states; the normalisation state is `StepState` and the result `StepOutput` of those results |
| VecEnv.VectorizedEnv.Normalize | torchrl/src/envs/VectorizedEnv.cpp:87-118 | the update and the normalisation of one step's stacked results meet `StepState` and `StepOutput` |
| VecEnv.VectorizedEnv.FinishEnded | torchrl/src/envs/VectorizedEnv.cpp:103-116 | the ended envs' reset observations are normalised when `norm_obs`, and their accumulator entries are zeroed when `norm_reward` |
| VecEnv.VectorizedEnv.FinishEnv | torchrl/src/envs/VectorizedEnv.cpp:105-115 | one env of that loop: its reset observation becomes `NewEpisodeRow`, and its accumulator entry is zeroed exactly when its episode ended and `norm_reward` is on; nothing else changes |
| VecEnv.NewEpisodeRow | torchrl/src/envs/VectorizedEnv.cpp:103-110 | env i's `new_episode_obs` keeps its width, and it is normalised with the post-update statistics when its episode ended and `norm_obs` is on; otherwise it passes through unchanged |
| VecEnv.NewEpisodeRows | torchrl/src/envs/VectorizedEnv.cpp:103-116 | row i is env i's `new_episode_obs`, normalised exactly when its episode ended and `norm_obs` is on |
| VecEnv.VectorizedEnv.Observation | torchrl/src/envs/VectorizedEnv.cpp:130-138 | one row per env, of the statistics' width when normalised |
| VecEnv.VectorizedEnv.GetObs | torchrl/src/envs/VectorizedEnv.cpp:130-138 | the current observations normalised, nothing stepped |
| VecEnv.VectorizedEnv.Save | torchrl/src/envs/VectorizedEnv.cpp:140-150 | an estimator is saved exactly when its normalisation is on, and the blob is its state |
| VecEnv.VectorizedEnv.Load | torchrl/src/envs/VectorizedEnv.cpp:152-162 | an estimator is loaded exactly when its normalisation is on, and becomes the blob |
| LegacyVecEnv.LegacyStepAccumulator | src/envs/NormalizedVectorizedEnv.cpp:121-128 | with `norm_reward`, every accumulator entry gains discount·reward in training, the ended envs' included, and nothing moves outside training |
| LegacyVecEnv.LegacyResetSpec | src/envs/NormalizedVectorizedEnv.cpp:31-39 | the accumulator is zeroed whatever the settings, training and the reward statistics are kept, the observation statistics move only in training with `norm_obs`, and the rows pass through when `norm_obs` is off |
| LegacyVecEnv.LegacyStepState | src/envs/NormalizedVectorizedEnv.cpp:45-60 | the state after `Step` fits the env's shapes and keeps the training flag; `LegacyStepAccumulator` and `StepStatesAgree` state how it moves |
| LegacyVecEnv.NonEmptyNormalized | src/envs/NormalizedVectorizedEnv.cpp:64-70 | one row per env and every row keeps its width; with `norm_obs` off the rows pass through |
| LegacyVecEnv.LegacyStepOutput | src/envs/NormalizedVectorizedEnv.cpp:62-72 | the result of `Step` has one row per env in every field; `StepOutputsAgree` shows it equals the newer generation's |
| LegacyVecEnv.StepOutputsAgree | src/envs/NormalizedVectorizedEnv.cpp:41-73 | normalising only the non-empty `new_episode_obs` gives the same result as the newer generation's step |
| LegacyVecEnv.StepStatesAgree | src/envs/NormalizedVectorizedEnv.cpp:41-73 | both generations end a step with the same statistics; their accumulators differ only at ended envs with `norm_reward` on |
| LegacyVecEnv.ResetsAgree | src/envs/NormalizedVectorizedEnv.cpp:31-39 | the older `Reset` equals the newer one except that it always zeroes the accumulator |
| LegacyVecEnv.NonEmptyRowsShaped | src/envs/NormalizedVectorizedEnv.cpp:64-70 | a non-empty `new_episode_obs` has width obs_size, and exactly the ended envs have one |
| LegacyVecEnv.VectorizedEnv.constructor | src/envs/VectorizedEnv.cpp:5-9 | no envs and sizes 0 |
| LegacyVecEnv.VectorizedEnv.Reset | src/envs/VectorizedEnv.cpp:31-39 | row i is env i's `Reset()` and each env moves to its reset state |
| LegacyVecEnv.VectorizedEnv.Step | src/envs/VectorizedEnv.cpp:41-62 | the result is the plain stack of the envs' step results, keeping the documented contract, and each env moves to its `StepEnv` state |
| LegacyVecEnv.VectorizedEnv.GetObs | src/envs/VectorizedEnv.cpp:73-81 | the envs' current observations, stacked, nothing stepped |
| LegacyVecEnv.VectorizedEnv.CreateEnvs | include/torchrl/envs/VectorizedEnv.hpp:57-82 | N = 0 fails and changes nothing; otherwise exactly N new envs seeded `seed + i`, sizes from env 0 |
| LegacyVecEnv.NormalizedVectorizedEnv.constructor | src/envs/NormalizedVectorizedEnv.cpp:5-19 | the flags and constants stored, a fresh base with no envs, both estimators fresh |
| LegacyVecEnv.NormalizedVectorizedEnv.SetTraining | src/envs/NormalizedVectorizedEnv.cpp:26-29 | only the training switch changes |
| LegacyVecEnv.NormalizedVectorizedEnv.CreateEnvs | include/torchrl/envs/VectorizedEnv.hpp:57-82 | N = 0 fails and changes nothing; otherwise the base creates N envs and `PostCreateEnvs(N)` runs once after them |
| LegacyVecEnv.NormalizedVectorizedEnv.PostCreateEnvs | src/envs/NormalizedVectorizedEnv.cpp:81-87 | `returns` becomes N zeros, `obs_rms` fresh of width obs_size and `ret_rms` a fresh scalar, whatever the flags |
| LegacyVecEnv.NormalizedVectorizedEnv.UpdateObs | src/envs/NormalizedVectorizedEnv.cpp:113-119 | the observation statistics become `UpdateObsStats` of the old ones |
| LegacyVecEnv.NormalizedVectorizedEnv.UpdateReward | src/envs/NormalizedVectorizedEnv.cpp:121-128 | accumulator and reward statistics become `UpdateRewardStats` of the old ones |
| LegacyVecEnv.NormalizedVectorizedEnv.Reset | src/envs/NormalizedVectorizedEnv.cpp:31-39 | the base envs are reset and the state and result are `LegacyResetSpec` of the reset rows |
| LegacyVecEnv.NormalizedVectorizedEnv.Step | src/envs/NormalizedVectorizedEnv.cpp:41-73 | the base steps once, the state is `LegacyStepState` and the result `LegacyStepOutput` of the envs' results |
| LegacyVecEnv.NormalizedVectorizedEnv.Normalize | src/envs/NormalizedVectorizedEnv.cpp:45-70 | the update and normalisation of one stacked result meet `LegacyStepState` and `LegacyStepOutput` |
| LegacyVecEnv.NormalizedVectorizedEnv.NormalizeNonEmpty | src/envs/NormalizedVectorizedEnv.cpp:64-70 | only the non-empty rows are normalised |
| LegacyVecEnv.NormalizedVectorizedEnv.GetObs | src/envs/NormalizedVectorizedEnv.cpp:75-79 | the base's observations normalised |
| Rollout.NewSample | include/torchrl/rl/RolloutBuffer.hpp:33-45 | observation, action, value and log_prob are set, advantage and returns unset |
| Rollout.ApplyBatch | include/torchrl/rl/RolloutBuffer.hpp:55-86 | the batch stacks exactly when every sample has advantage and returns; then each of the six fields has one row per sample and row k comes from sample k |
| Rollout.Flatten | torchrl/src/rl/RolloutBuffer.cpp:42-61 | the samples of all envs, env after env: the dataset whose `size()` and `get(index)` the buffer exposes; `FlattenIndex`, `FlattenConcat` and `RolloutBuffer.Get` state its indexing |
| Rollout.FlattenIndex | torchrl/src/rl/RolloutBuffer.cpp:42-51 | a flat index inside env e's block is entry `index − Σ_{k<e} \|data[k]\|` of env e |
| Rollout.FlattenConcat | torchrl/src/rl/RolloutBuffer.cpp:53-61 | the flattened buffer of a concatenation is the concatenation of the flattened parts |
| Rollout.WithAdvantages | torchrl/src/rl/RolloutBuffer.cpp:63-90 | after the pass every sample keeps observation, action, value and log_prob, its advantage is the GAE advantage and its return is advantage + value |
| Rollout.WorkedReturns | torchrl/src/rl/RolloutBuffer.cpp:70-88 | on three zero-valued samples with unit rewards, γ = λ = 1 and only the last flagged, the pass gives advantages and returns [3,2,1] |
| Rollout.LoopBody | torchrl/src/rl/RolloutBuffer.cpp:70-87 | one iteration of the backward loop, with the next value from the bootstrap at the last index and from index i+1 elsewhere, computes exactly the GAE advantage at i |
| Rollout.RolloutBuffer.constructor | torchrl/src/rl/RolloutBuffer.cpp:3-18 | exactly `num_envs` empty sample, reward and flag lists; `reserve` changes no contents |
| Rollout.RolloutBuffer.Add | torchrl/src/rl/RolloutBuffer.cpp:20-30 | every env's three lists grow by exactly one entry, the stored flag is "state is not NotTerminal", and nothing stored before changes |
| Rollout.RolloutBuffer.Reset | torchrl/src/rl/RolloutBuffer.cpp:32-40 | every list is empty and the number of envs is kept |
| Rollout.RolloutBuffer.Size | torchrl/src/rl/RolloutBuffer.cpp:53-61 | the size is the sum of the per-env lengths |
| Rollout.RolloutBuffer.Get | torchrl/src/rl/RolloutBuffer.cpp:42-51 | for index < size, the linear scan returns element `index` of the env-by-env concatenation |
| Rollout.RolloutBuffer.ComputeReturnsAndAdvantage | torchrl/src/rl/RolloutBuffer.cpp:63-90 | every env's samples become `WithAdvantages` with that env's bootstrap; rewards and flags are unchanged |
| Rollout.RolloutBuffer.BackwardPass | torchrl/src/rl/RolloutBuffer.cpp:70-88 | one env's samples are rewritten from the last index down; the other envs are untouched |
| Gae.Deltas | torchrl/src/rl/RolloutBuffer.cpp:85 | entry i is the TD error `r[i] + γ·next_value·c − v[i]` |
| Gae.Backward | torchrl/src/rl/RolloutBuffer.cpp:70-88 | the backward recurrence `a_i = δ_i + γλ·c_i·a_(i+1)` with `a = 0` past the last sample; a zero discount (an episode end) cuts it to `δ_i`; `BackwardIsWeightedSum` proves its closed form |
| Gae.Discounts | torchrl/src/rl/RolloutBuffer.cpp:84-86 | entry i is γλ·c, with c = 0 exactly at flagged indices |
| Gae.Advantages | torchrl/src/rl/RolloutBuffer.cpp:70-88 | entry i is the advantage at index i |
| Gae.AdvantageStep | torchrl/src/rl/RolloutBuffer.cpp:73-86 | the advantage at i is the TD error plus γλ·c times the next advantage, which is 0 at the last index |
| Gae.AdvantageAtEnd | torchrl/src/rl/RolloutBuffer.cpp:84-86 | at a flagged index the advantage is reward − value |
| Gae.BackwardIsWeightedSum | torchrl/src/rl/RolloutBuffer.cpp:70-88 | the backward recursion equals the explicit sum of later TD errors weighted by the products of the discounts |
| Gae.AdvantageIsWeightedSum | torchrl/src/rl/RolloutBuffer.cpp:70-88 | the advantage computed by the pass equals the explicit GAE sum |
| Gae.BackwardLocal | torchrl/src/rl/RolloutBuffer.cpp:70-88 | the recursion from i depends only on the entries up to the first zero discount |
| Gae.AdvantageEpisodeLocal | torchrl/src/rl/RolloutBuffer.cpp:84-86 | the advantage at i depends only on the samples up to the episode's end, not on later samples or the bootstrap |
| Gae.BootstrapUnused | torchrl/src/rl/RolloutBuffer.cpp:73-78 | when the last sample ends an episode the bootstrap value does not matter |
| Gae.WorkedExample | torchrl/src/rl/RolloutBuffer.cpp:70-87 | with γ = λ = 1, values 0, rewards [1,1,1] and only index 2 flagged, the advantages are [3,2,1] |
| Ppo.HasTimeout | torchrl/src/algorithms/ppo/PPO.cpp:201-205 | the flag is true exactly when some env timed out |
| Ppo.TimeoutBump | torchrl/src/algorithms/ppo/PPO.cpp:201-219 | `reward + γ·terminal_value` for each env that timed out, every other reward as it was, one entry per env; `AddTimeoutValues` and `StepRewardsBump` are proved against it |
| Ppo.AddTimeoutValues | torchrl/src/algorithms/ppo/PPO.cpp:212-218 | the loop adds γ·terminal_value to exactly the Timeout rewards |
| Ppo.StepRewardsBump | torchrl/src/algorithms/ppo/PPO.cpp:201-219 | a Timeout env's stored reward is its reward + γ·V(post-step obs); other rewards are unchanged |
| Ppo.NextObs | torchrl/src/algorithms/ppo/PPO.cpp:224-229 | env i acts next on `new_episode_obs[i]` if its episode ended, on the post-step obs otherwise |
| Ppo.EndedTotals | torchrl/src/algorithms/ppo/PPO.cpp:225-234 | a step adds at most one ended episode per env |
| Ppo.EndedRewardIsSum | torchrl/src/algorithms/ppo/PPO.cpp:225-234 | the added reward is the sum of the ended envs' episode rewards |
| Ppo.EndedCountIsLength | torchrl/src/algorithms/ppo/PPO.cpp:225-234 | the added episode count is the number of Terminal or Timeout envs |
| Ppo.EndedRewardsDocumented | torchrl/src/algorithms/ppo/PPO.cpp:225-234 | with the documented contract, the added reward is the sum of the whole `episodes_tot_reward` column |
| Ppo.SpliceAndCount | torchrl/src/algorithms/ppo/PPO.cpp:224-234 | the loop splices the next observations and sums the ended episodes' totals |
| Ppo.Masked | torchrl/src/algorithms/ppo/PPO.cpp:241-252 | the bootstrap values with every env whose last step ended an episode set to 0, one entry per env; `MaskBootstrap` is proved against it and `MaskUnused` shows the masking does not change the advantages |
| Ppo.MaskBootstrap | torchrl/src/algorithms/ppo/PPO.cpp:241-252 | the loop zeroes the value of exactly the envs whose last step ended |
| Ppo.MaskUnused | torchrl/src/algorithms/ppo/PPO.cpp:245-251 | masking the bootstrap of an env whose last step ended does not change its advantages |
| Ppo.ChainedStep | torchrl/src/algorithms/ppo/PPO.cpp:189-236 | each step acts on the observation the previous step spliced |
| Ppo.CollectFrom | torchrl/src/algorithms/ppo/PPO.cpp:191-235 | one iteration of the collection loop on values: the record holds the observation acted on and the policy's sampled output on it, every env steps, the statistics take the step and the result is normalised with them, the next observation is the splice of the result, and every ended episode reports at least one step |
| Ppo.CollectTrace | torchrl/src/algorithms/ppo/PPO.cpp:189-236 | k iterations of the loop on values, iteration t with the draw of step t, give k records and a point the loop can step from again, with the training flag kept |
| Ppo.CollectFromSteps | torchrl/src/algorithms/ppo/PPO.cpp:195-199 | the step built from the policy's action, `StepAll`, `StepState` and `StepOutput` is the `CollectFrom` step |
| Ppo.SteppedSnoc | torchrl/src/algorithms/ppo/PPO.cpp:189-236 | steps through points stay so when the `CollectFrom` step from the last point is appended |
| Ppo.TraceSnoc | torchrl/src/algorithms/ppo/PPO.cpp:189-236 | a trace followed by the `CollectFrom` step from the point it reaches is the trace one step longer |
| Ppo.SteppedTraceUpTo | torchrl/src/algorithms/ppo/PPO.cpp:189-236 | the first j records of steps through points are the j-step `CollectTrace` from the first point, and reach point j |
| Ppo.SteppedTrace | torchrl/src/algorithms/ppo/PPO.cpp:189-236 | records stepped through points are exactly the `CollectTrace` from the first point, and the last point is where it ends |
| Ppo.TraceStepped | torchrl/src/algorithms/ppo/PPO.cpp:189-236 | conversely, every `CollectTrace` passes through points it steps between, from its start to where it ends |
| Ppo.SteppedChained | torchrl/src/algorithms/ppo/PPO.cpp:189-236 | stepped records act on the first point's observation and then each on the previous step's splice, with the draw of their step; every ended episode counts at least one step, and the last point holds the last splice |
| Ppo.CollectingStep | torchrl/src/algorithms/ppo/PPO.cpp:191-235 | one loop iteration keeps the loop's invariant: the records grow by the `CollectFrom` step, every env's lists by that step's sample, stored reward and end flag, and the totals by the step's ended episodes |
| Ppo.EndedTotalsCounted | torchrl/src/algorithms/ppo/PPO.cpp:225-234 | when every ended episode is at least one step long, a step that added an episode adds positive summed lengths |
| Ppo.WindowTotalsCounted | torchrl/src/algorithms/ppo/PPO.cpp:225-234 | a window in which an episode ended has positive summed lengths |
| Ppo.WindowTotals | torchrl/src/algorithms/ppo/PPO.cpp:224-234 | the totals `CollectRollouts` returns: the ended episodes' rewards, lengths and count summed over the window's steps; `WindowEpisodesBounded` bounds the count and `WindowTotalsCounted` makes the lengths positive once an episode ended |
| Ppo.RecordedStep | torchrl/src/algorithms/ppo/PPO.cpp:221 | each step's `Add` appends column entries of that step to every env |
| Ppo.WindowEpisodesBounded | torchrl/src/algorithms/ppo/PPO.cpp:225-234 | a window counts at most n_envs·n_steps ended episodes |
| Ppo.Bootstrap | torchrl/src/algorithms/ppo/PPO.cpp:241-252 | the bootstrap has one entry per env |
| Ppo.BootstrapEntries | torchrl/src/algorithms/ppo/PPO.cpp:241-252 | env e's bootstrap is 0 when its last step ended an episode and V of the observation the next window starts from otherwise |
| Ppo.BootstrapMaskUnused | torchrl/src/algorithms/ppo/PPO.cpp:241-254 | the masked bootstrap gives the same advantages as the unmasked one |
| Ppo.Store | torchrl/src/algorithms/ppo/PPO.cpp:221 | every env's lists grow by that step's sample, stored reward and flag |
| Ppo.FinishWindow | torchrl/src/algorithms/ppo/PPO.cpp:241-254 | every env's samples become `WithAdvantages` with the masked bootstrap, γ and λ |
| Ppo.ClippedSurrogate | torchrl/src/algorithms/ppo/PPO.cpp:71-73 | the surrogate is the smaller of `a·r` and `a·clamp(r, 1 − c, 1 + c)`: at most both and equal to one of them |
| Ppo.SurrogateExample | torchrl/src/algorithms/ppo/PPO.cpp:71-73 | r = 2, a = 1, c = 0.2 gives 1.2 |
| Ppo.SurrogateBounds | torchrl/src/algorithms/ppo/PPO.cpp:71-73 | the clipped surrogate is at most r·a, equals r·a inside the clip range, and is at most (1+c)·a or (1−c)·a by the sign of a |
| Ppo.CombinedLoss | torchrl/src/algorithms/ppo/PPO.cpp:84 | the loss is the policy loss when both weights are 0 or when the entropy and value losses are 0 |
| Ppo.CombinedLossMonotone | torchrl/src/algorithms/ppo/PPO.cpp:84 | the combined loss `policy + entropy_w·entropy + value_w·value` grows with the value loss for a non-negative weight and ignores entropy when its weight is 0 |
| Ppo.Div | torchrl/src/algorithms/ppo/PPO.cpp:38-44 | a quotient is finite exactly when the divisor is non-zero, and then it times the divisor is the dividend |
| Ppo.AveragesOf | torchrl/src/algorithms/ppo/PPO.cpp:41-43 | the reward per episode and the episode length are finite exactly when an episode ended, the reward per step exactly when a step was taken |
| Ppo.UpdateAverages | torchrl/src/algorithms/ppo/PPO.cpp:38-44 | the averages change only when the window ended an episode, and then they are that window's finite averages |
| Ppo.AveragesFinite | torchrl/src/algorithms/ppo/PPO.cpp:41-43 | with an ended episode and positive summed lengths the three averages are the finite quotients of the totals; every window of the trainer meets the second premise once it meets the first (`WindowTotalsCounted`) |
| Ppo.FlattenLength | torchrl/src/algorithms/ppo/PPO.cpp:46-47 | a buffer of n_envs lists of n_steps samples has n_envs·n_steps samples |
| Ppo.TimesIsProduct | torchrl/src/algorithms/ppo/PPO.cpp:34-47 | k windows of W samples add k·W to `timestep` |
| Ppo.ReportedLatest | torchrl/src/algorithms/ppo/PPO.cpp:32-44 | nothing is reported until a window ends an episode; afterwards the report shows the latest such window's averages |
| Ppo.ReportedStep | torchrl/src/algorithms/ppo/PPO.cpp:36-44 | a further window updates the report by the guard on its totals |
| Ppo.TrainedStep | torchrl/src/algorithms/ppo/PPO.cpp:34-95 | a window collected by the latest policy and trained on its samples extends the history, and its trained policy is the latest |
| Ppo.WindowTrace | torchrl/src/algorithms/ppo/PPO.cpp:175-256 | a collected window's records and end point are the `CollectTrace` of its iteration from its start, by the policy it was collected with |
| Ppo.CollectedStep | torchrl/src/algorithms/ppo/PPO.cpp:34-36 | a window collected from where the last one stopped extends the collected history, and the envs then stand where it stopped |
| Ppo.LearnedStep | torchrl/src/algorithms/ppo/PPO.cpp:34-95 | a window trained by the latest policy and collected from where the envs stand extends the invariant of `Learn`'s loop, and its trained policy is the latest |
| Ppo.PlayFrom | torchrl/src/algorithms/ppo/PPO.cpp:146-170 | one step of `Play` on values: the record holds the observation acted on and the deterministic action on it, the next observation is the spliced one, and the statistics do not move |
| Ppo.PlayTrace | torchrl/src/algorithms/ppo/PPO.cpp:144-172 | k steps of `Play` on values give k records, and the statistics do not move |
| Ppo.PlayTraceNext | torchrl/src/algorithms/ppo/PPO.cpp:146-171 | a step computed from the env's own results extends the trace by one record |
| Ppo.PlayTraceChained | torchrl/src/algorithms/ppo/PPO.cpp:144-172 | the trace acts deterministically on each step's spliced observation, starts from the start observation and ends at the splice of its last result |
| Ppo.Trainer.constructor | torchrl/src/algorithms/ppo/PPO.cpp:8-11 | the env, args and initial policy stored |
| Ppo.Trainer.StepEnvs | torchrl/src/algorithms/ppo/PPO.cpp:191-199 | the policy's sampled action on the current observation and one env step: the record and the point reached are the `CollectFrom` step from where the envs stand, and the buffer is untouched |
| Ppo.Trainer.Record | torchrl/src/algorithms/ppo/PPO.cpp:221 | `Add`: every env's lists grow by the record's sample, stored reward (Timeout bump included) and end flag |
| Ppo.Trainer.CollectStep | torchrl/src/algorithms/ppo/PPO.cpp:191-235 | one collection step: the record and the point reached are the `CollectFrom` step from where the envs stand, the next observation is its splice, the totals are the step's ended episodes, and every env's lists grow by that step's sample, stored reward and end flag |
| Ppo.Trainer.Advance | torchrl/src/algorithms/ppo/PPO.cpp:189-236 | one iteration of the `while` loop keeps the window invariant with one more step |
| Ppo.Trainer.Restart | torchrl/src/algorithms/ppo/PPO.cpp:177-187 | after the buffer reset, the start point is the envs' current observation, states and statistics, and the first observation is `GetObs` of those states and statistics |
| Ppo.Trainer.FillWindow | torchrl/src/algorithms/ppo/PPO.cpp:189-236 | exactly n_steps steps from the start point, stepped by `CollectFrom` through the envs' own steps, recorded in the buffer, with their totals summed |
| Ppo.Trainer.Conclude | torchrl/src/algorithms/ppo/PPO.cpp:238-254 | the masked bootstrap and `ComputeReturnsAndAdvantage`: rewards and end flags kept, and every env's samples get GAE with that bootstrap, γ and λ |
| Ppo.Trainer.CollectRollouts | torchrl/src/algorithms/ppo/PPO.cpp:175-256 | after a buffer reset, exactly n_steps steps stepped by `CollectFrom` (so the `CollectTrace` of the iteration, `SteppedTrace`) from the envs' current observation, states and statistics, each chained to the previous; every env's lists are the window's columns with GAE applied using the masked bootstrap; the totals are the window's, with positive summed lengths when an episode ended |
| Ppo.Trainer.LearnWindow | torchrl/src/algorithms/ppo/PPO.cpp:36-95 | one window: the `CollectTrace` of its iteration from where the envs stood (`WindowCollected`), by the current policy; its totals summed from its steps, the averages updated by the guard, n_envs·n_steps samples, and the policy is `train` of the old one on the window's samples |
| Ppo.Trainer.Train | torchrl/src/algorithms/ppo/PPO.cpp:46-95 | the policy becomes `train` of the old one on the flattened buffer, and the dataset holds n_envs·n_steps samples |
| Ppo.Trainer.BeginLearning | torchrl/src/algorithms/ppo/PPO.cpp:21-24 | a buffer for n_envs envs, training switched on, and the env reset: every env's state is its `ResetAll` state and the statistics are `ResetSpec` of the old ones in training |
| Ppo.Trainer.Learn | torchrl/src/algorithms/ppo/PPO.cpp:18-111 | the loop ends with total_timesteps ≤ timestep < total_timesteps + n_envs·n_steps and `timestep` is the number of windows times n_envs·n_steps; window k is the `CollectTrace` of iteration k by the policy the windows before it trained, the first from the states and statistics of the initial reset and each later one from where the one before it stopped; its totals are its steps' totals, the final policy is the last window's, and the averages are those of the latest window that ended an episode, all three finite |
| Ppo.Trainer.LearningBegins | torchrl/src/algorithms/ppo/PPO.cpp:26-33 | before the first window the loop's invariant holds from where the envs stand, with nothing reported |
| Ppo.Trainer.LearnNext | torchrl/src/algorithms/ppo/PPO.cpp:36-95 | one pass of the loop body keeps the loop's invariant with the new window appended |
| Ppo.Trainer.LearnLoop | torchrl/src/algorithms/ppo/PPO.cpp:34-111 | the `while` loop of `Learn` with its invariants: the timestep count, the trained and collected history linked window to window, and the reported averages |
| Ppo.Trainer.PlayStep | torchrl/src/algorithms/ppo/PPO.cpp:146-171 | the deterministic action on the current obs, one env step outside training with the statistics frozen, the result is `StepOutput` of the envs' results, and the trace grows by that step |
| Ppo.Trainer.PlayLoop | torchrl/src/algorithms/ppo/PPO.cpp:144-172 | exactly total_timesteps steps, and the records are `PlayTrace` from the observation and the env states the loop started on |
| Ppo.Trainer.PlayReset | torchrl/src/algorithms/ppo/PPO.cpp:137-142 | training off, every env reset to its `ResetAll` state, and the observation is the reset rows normalised with the unchanged statistics |
| Ppo.Trainer.Evaluate | torchrl/src/algorithms/ppo/PPO.cpp:136-172 | after the reset, the records are the `PlayTrace` of total_timesteps steps from the reset observation and states, each acting deterministically on the previous step's splice, with the statistics frozen |
| Ppo.Trainer.Play | torchrl/src/algorithms/ppo/PPO.cpp:122-172 | with no saved run nothing changes; otherwise the policy and the enabled estimators are loaded, training is off, the first step acts on the reset rows normalised with the loaded statistics, and the records are the `PlayTrace` of total_timesteps steps from there |
| LegacyPpo.PrintedAverages | src/algorithms/ppo/PPO.cpp:86-90 | the printed averages are non-finite when no episode ended in the window, and the guarded ones otherwise |
| LegacyPpo.UnguardedAveragesExample | src/algorithms/ppo/PPO.cpp:86-90 | a window with no ended episode prints non-finite averages where the guarded update keeps the previous ones |
| LegacyPpo.PrintedEachStep | src/algorithms/ppo/PPO.cpp:86-90 | a further window prints its own averages after those of the earlier windows |
| LegacyPpo.AllDocumentedStep | src/envs/VectorizedEnv.cpp:41-62 | every step of the plain env keeps the documented contract |
| LegacyPpo.PlainFrom | src/algorithms/ppo/PPO.cpp:114-158 | one iteration of the older loop on values: the record holds the observation acted on and the policy's sampled output on it, the stacked results keep the documented contract and count every ended episode as at least one step, and the next observation is the splice |
| LegacyPpo.PlainTrace | src/algorithms/ppo/PPO.cpp:112-160 | k iterations on values, iteration t with the draw of step t, give k records and a point the loop can step from again |
| LegacyPpo.PlainFromSteps | src/algorithms/ppo/PPO.cpp:118-122 | the step built from the policy's action and `StepAll`, stacked, is the `PlainFrom` step |
| LegacyPpo.PlainSteppedSnoc | src/algorithms/ppo/PPO.cpp:112-160 | steps through points stay so when the `PlainFrom` step from the last point is appended |
| LegacyPpo.PlainTraceSnoc | src/algorithms/ppo/PPO.cpp:112-160 | a trace followed by the `PlainFrom` step from the point it reaches is the trace one step longer |
| LegacyPpo.PlainSteppedTraceUpTo | src/algorithms/ppo/PPO.cpp:112-160 | the first j records of steps through points are the j-step `PlainTrace` from the first point, and reach point j |
| LegacyPpo.PlainSteppedTrace | src/algorithms/ppo/PPO.cpp:112-160 | records stepped through points are exactly the `PlainTrace` from the first point, and the last point is where it ends |
| LegacyPpo.PlainTraceStepped | src/algorithms/ppo/PPO.cpp:112-160 | conversely, every `PlainTrace` passes through points it steps between |
| LegacyPpo.PlainSteppedChained | src/algorithms/ppo/PPO.cpp:112-160 | stepped records act on the first observation and then on each splice, keep the documented contract, count every ended episode as at least one step, and end at the last splice |
| LegacyPpo.PlainCollectingStep | src/algorithms/ppo/PPO.cpp:114-158 | one loop iteration keeps the loop's invariant: records, lists and totals grow by the `PlainFrom` step |
| LegacyPpo.PlainWindowTrace | src/algorithms/ppo/PPO.cpp:98-180 | a collected window's records and end point are the `PlainTrace` of its iteration from its start |
| LegacyPpo.PlainCollectedStep | src/algorithms/ppo/PPO.cpp:26-30 | a window collected from where the last one stopped extends the collected history |
| LegacyPpo.PlainLearnedStep | src/algorithms/ppo/PPO.cpp:26-95 | a window trained by the latest policy and collected from where the envs stand extends the invariant of the older `Learn` loop, and its trained policy is the latest |
| LegacyPpo.Trainer.constructor | src/algorithms/ppo/PPO.cpp:6-9 | the env, args and initial policy stored |
| LegacyPpo.Trainer.StepEnvs | src/algorithms/ppo/PPO.cpp:114-122 | the sampled action on the current observation and one step of the plain env: the record and the point reached are the `PlainFrom` step, buffer untouched |
| LegacyPpo.Trainer.Record | src/algorithms/ppo/PPO.cpp:145 | `Add`: every env's lists grow by the record's sample, stored reward and end flag |
| LegacyPpo.Trainer.CollectStep | src/algorithms/ppo/PPO.cpp:112-160 | one collection step over the plain env: the `PlainFrom` step from where the envs stand, with the same bump, `Add`, splice and count |
| LegacyPpo.Trainer.Advance | src/algorithms/ppo/PPO.cpp:112-160 | one iteration of the `while` loop keeps the window invariant with one more step |
| LegacyPpo.Trainer.Restart | src/algorithms/ppo/PPO.cpp:100-110 | after the buffer reset, the start point is the envs' current observation and states, and the first observation is their `GetObs` |
| LegacyPpo.Trainer.FillWindow | src/algorithms/ppo/PPO.cpp:112-160 | exactly n_steps steps stepped by `PlainFrom` through the envs' own steps, recorded, with their totals summed |
| LegacyPpo.Trainer.Conclude | src/algorithms/ppo/PPO.cpp:162-178 | the masked bootstrap and `ComputeReturnsAndAdvantage`: rewards and end flags kept, samples get GAE |
| LegacyPpo.Trainer.CollectRollouts | src/algorithms/ppo/PPO.cpp:98-180 | as in the newer trainer, with `PlainTrace` in place of `CollectTrace`, and every step keeps the documented contract |
| LegacyPpo.Trainer.BeginLearning | src/algorithms/ppo/PPO.cpp:19-21 | a buffer for n_envs envs and every env reset to its `ResetAll` state |
| LegacyPpo.Trainer.LearnWindow | src/algorithms/ppo/PPO.cpp:30-90 | one window: the `PlainTrace` of its iteration from where the envs stood, by the current policy; its totals summed from its steps, that window's unguarded averages printed, n_envs·n_steps samples, and the policy is `train` of the old one on the window's samples |
| LegacyPpo.Trainer.Train | src/algorithms/ppo/PPO.cpp:34-84 | the policy becomes `train` of the old one on the flattened buffer, and the dataset holds n_envs·n_steps samples |
| LegacyPpo.Trainer.Learn | src/algorithms/ppo/PPO.cpp:16-96 | the loop ends with total_timesteps ≤ timestep < total_timesteps + n_envs·n_steps; window k is the `PlainTrace` of iteration k by the policy the windows before it trained, the first from the initial reset's states and each later one from where the one before it stopped; the averages printed after window k are its own unguarded ones |
| LegacyPpo.Trainer.LearningBegins | src/algorithms/ppo/PPO.cpp:21-25 | before the first window the loop's invariant holds from where the envs stand, with nothing printed |
| LegacyPpo.Trainer.LearnNext | src/algorithms/ppo/PPO.cpp:28-95 | one pass of the loop body keeps the loop's invariant, with the new window and its printed averages appended |
| LegacyPpo.Trainer.LearnLoop | src/algorithms/ppo/PPO.cpp:26-95 | the `while` loop of the older `Learn` with its invariants: the timestep count, the trained and collected history, and one printed set of averages per window |
| Logger.BelowTransitive | torchrl/src/utils/Logger.cpp:75-85 | the order of `std::string` keys is transitive |
| Logger.BelowTotal | torchrl/src/utils/Logger.cpp:75-85 | any two distinct keys are ordered |
| Logger.InsertColumnContents | torchrl/src/utils/Logger.cpp:77-81 | inserting a new key adds an empty column for it and changes no other column |
| Logger.InsertColumnSorted | torchrl/src/utils/Logger.cpp:77-81 | the columns stay in ascending key order |
| Logger.AppendEntryFacts | torchrl/src/utils/Logger.cpp:84 | appending to a key's column changes no key and no other column |
| Logger.LogKey | torchrl/src/utils/Logger.cpp:77-84 | one key of a `Log` call: its column is created when absent, then the four-number entry is appended; `LogKeyFacts` and `LogKeyColumn` state that it keeps the order and touches only that column |
| Logger.LogKeyColumn | torchrl/src/utils/Logger.cpp:77-84 | logging an entry appends it to that key's column only |
| Logger.Logged | torchrl/src/utils/Logger.cpp:75-85 | the store after the first k keys of a `Log` call, each key in turn by `LogKey`; `LoggedColumns`, `LoggedKeys` and `LoggedSorted` are proved about it |
| Logger.LoggedColumns | torchrl/src/utils/Logger.cpp:75-85 | after `Log` every key's column is its old column plus exactly one entry (play_steps, update_steps, train_time, value) if the key was logged |
| Logger.LoggedKeys | torchrl/src/utils/Logger.cpp:75-85 | the keys afterwards are the old keys plus the logged ones |
| Logger.LoggedSorted | torchrl/src/utils/Logger.cpp:75-85 | the columns stay in ascending key order |
| Logger.HasNewKeySnoc | torchrl/src/utils/Logger.cpp:77-81 | the "new column" flag is set exactly when some logged key was not there before |
| Logger.Header | torchrl/src/utils/Logger.cpp:120-126 | the header is "Play steps", "Update steps", "Train time" and then the keys in ascending order |
| Logger.LogRow | torchrl/src/utils/Logger.cpp:95-114 | the appended row starts with the three counters, then one cell per known column in key order: the value if that key was logged, blank otherwise |
| Logger.ScanColumns | torchrl/src/utils/Logger.cpp:135-154 | the scan for the next line over the first k columns: has_value, and the play-step minimum with its update steps and train time, taken from the first column whose pending entry is strictly lower; starts from the uint64 maximum, 0 and 0.0; `ScanHasValue`, `ScanBelow`, `ScanAttained`, `ScanFirst` and `ScanSentinel` are proved about it |
| Logger.ScanHasValue | torchrl/src/utils/Logger.cpp:137-154 | the scan finds a candidate exactly when some column has an unconsumed entry |
| Logger.ScanBelow | torchrl/src/utils/Logger.cpp:137-154 | the row's play_steps is at most every column's next entry |
| Logger.ScanAttained | torchrl/src/utils/Logger.cpp:137-154 | some column's next entry attains it |
| Logger.ScanFirst | torchrl/src/utils/Logger.cpp:137-154 | update_steps and train_time come from the first column in key order that attains the minimum (strict `<`) |
| Logger.ScanSentinel | torchrl/src/utils/Logger.cpp:139-140 | with every column exhausted the scan stays at its start: no value, the uint64 maximum, 0 and 0.0 |
| Logger.Advanced | torchrl/src/utils/Logger.cpp:166-177 | the positions stay within the columns |
| Logger.Cells | torchrl/src/utils/Logger.cpp:166-177 | one cell per column |
| Logger.MergeRows | torchrl/src/utils/Logger.cpp:134-179 | the rows `Dump` writes after the header: while some column has an entry pending, the minimum's counters, then per column its value or a blank, then the `Advanced` positions; `MergePrintsEachOnce`, `MergeNondecreasing` and `MergeRowCount` are proved about it |
| Logger.DumpRows | torchrl/src/utils/Logger.cpp:118-180 | the whole file `Dump` writes: the header, then the merged rows from position 0 of every column; `DumpPrintsEverything` is proved about it |
| Logger.AdvanceConsumes | torchrl/src/utils/Logger.cpp:156-177 | each printed row consumes at least one entry, so `Dump` terminates |
| Logger.MergePrintsEachOnce | torchrl/src/utils/Logger.cpp:135-177 | a column's cells in the merged rows are exactly its unconsumed entries' values, each once and in order |
| Logger.DumpPrintsEverything | torchrl/src/utils/Logger.cpp:118-180 | under each key's header `Dump` prints every entry ever logged under it, each once and in order |
| Logger.MergeNondecreasing | torchrl/src/utils/Logger.cpp:141-154 | if every column's play_steps are nondecreasing, so are the rows' |
| Logger.MergeRowCount | torchrl/src/utils/Logger.cpp:135-177 | the merge prints at most as many rows as there are unconsumed entries |
| Logger.Logger.constructor | torchrl/src/utils/Logger.cpp:20-30 | no columns and an empty file |
| Logger.Logger.Log | torchrl/src/utils/Logger.cpp:42-116 | with the file open, the columns become `Logged`; a new column replaces the file with a fresh `Dump` of all data, otherwise exactly one `LogRow` is appended |
| Logger.Logger.Store | torchrl/src/utils/Logger.cpp:75-85 | the loop over the values stores each and reports whether a column was new |
| Logger.Logger.StoreEntry | torchrl/src/utils/Logger.cpp:77-84 | one key handled: new exactly when absent, and the columns become `LogKey` |
| Logger.Logger.Dump | torchrl/src/utils/Logger.cpp:118-180 | the file grows by the header and the merged rows, `DumpRows` |
| Logger.Logger.FindMinimum | torchrl/src/utils/Logger.cpp:137-154 | the loop computes the scan over all columns |
| Logger.Logger.EmitRow | torchrl/src/utils/Logger.cpp:161-177 | the row is the three counters of the scan then the cells, and the positions advance as `Advanced` |

## Left out

- Rendering and sleeping: `Render` in every environment class only draws to the terminal and waits.
- Randomness: the `random_device` draw behind seed 0 is a parameter `randomSeed`, and each `mt19937` engine is part of the opaque physical state built from the env's seed. The policy's sampling is a parameter `Draw(iteration, t)`.
- The policy network is left out: `act`, `values` and `predict` are functions of a `Policy` value. So are the optimizer, `backward`, gradient clipping and `mse_loss`; `Learn` takes the training of one window as a parameter `train`.
- The minibatch loop of `Learn` is left out: the random sampler, advantage normalisation by mean and standard deviation, `exp` for the ratio, and the printed losses. The surrogate takes the ratio as an input.
- The console output of `Learn` and `Play` is left out; only the averages it prints are modelled.
- Files: saving and loading go through in-memory blobs. For `RunningMeanStd` and `VectorizedEnv` these are `Save`/`Load`. For `Play` it is an `Option<Saved>` whose `None` stands for a missing experiment directory. `Learn`'s final save is not modelled.
- Float and integer widths: floats are reals, so rounding and NaN propagation are not modelled. Counters are unbounded, except the 32-bit seed wrap-around and the logger's `uint64_t` step counts.
- Statistics.Batchable: an update needs a non-empty batch. The source divides by N and would produce NaN for an empty batch; the model requires N ≥ 1 instead. Every caller passes one row per env, and N = 0 is refused by `CreateEnvs`.
- Statistics.RunningMeanStd.Load: the blob must have count > 0 and non-negative variances, as any saved state has. A corrupt file is not modelled.
- Normalization.Standardize: the root of var + ε is an abstract positive function; the source's `sqrt` is not modelled.
- Normalization.NormalizeObs: ε > 0 is required so that var + ε is positive.
- LegacyVecEnv.NormalizedVectorizedEnv: the decorator holds its base `VectorizedEnv` as a field instead of deriving from it.
- LegacyPpo.Trainer: the older trainer is modelled over the plain `VectorizedEnv` that its driver passes. Over the decorator, its collection loop is the newer one's, as `LegacyVecEnv.StepOutputsAgree` and `LegacyVecEnv.StepStatesAgree` state.
- Ppo.Trainer.Learn, LegacyPpo.Trainer.Learn: both require n_steps ≥ 1, as do their `FillWindow`, `CollectRollouts`, `LearnWindow`, `LearnNext` and `LearnLoop`. The source parses `--n_steps` with `std::stoull` and does not check it. With n_steps = 0 the model does not capture two things. First, the masking after the empty loop reads `terminal_states[i]` of a default-constructed step result, an out-of-range read. Second, every window adds `dataset.size() = 0` to the timestep, so `while (timestep < total_timesteps)` never ends.
- Rollout.RolloutBuffer.constructor: `reserve` only pre-allocates, so it is ignored.
- Env.DynamicsFns: a concrete environment's `StepImpl` yields only the observation, the reward and the terminal state; the totals and `new_episode_obs` of a NotTerminal result are the declared defaults. An environment whose `StepImpl` also set those fields of a result that does not end its episode is not modelled.
- VecEnv.VectorizedEnv.CreateEnvs, LegacyVecEnv.VectorizedEnv.CreateEnvs: the count is a `nat`. The source takes an `int N`; a negative one is converted by `reserve` to a huge size and throws before any env is built, and that error path is not modelled.
- Ppo.Trainer.PlayStep: the splice of the next observation in `Play` is stated through `NextObs`, the function the `SpliceAndCount` loop of the collection step is proved against, instead of running that loop a second time; the episode lines printed there are console output.
- Logger:
  - The console branch of `Log` is left out. So are the plot window with its thread and mutex, and the number formatting of the stream; a cell is a counter, a decimal or a name.
  - The UI loop `Plot`/`InternalPlotLoop` is left out.
  - The constructor's opening of the file is a flag `fileOpen`.
  - The column positions of `Dump` are kept as a sequence indexed like the columns, not as a map.
  - The stored counters: the source stores them as `double`, so they are exact only below 2^53. The model stores them exactly.

## Findings

| source | as written | input that shows it | evidently intended | confidence | as-written member | corrected member |
|---|---|---|---|---|---|---|
| src/algorithms/ppo/PPO.cpp:88-90 | the averages are printed as `total_reward / total_episodes`, `total_reward / total_steps` and `total_steps / total_episodes`, with no zero guard | a window in which no episode ends: any env whose episodes last longer than n_steps steps (the newer tree's Pendulum example times out after 200 steps, examples/Pendulum/src/PendulumEnv.cpp:217), so total_episodes = total_steps = 0 and the prints are non-finite | update the averages only when an episode ended, as torchrl/src/algorithms/ppo/PPO.cpp:38-44 does | not executed | LegacyPpo.PrintedAverages, LegacyPpo.UnguardedAveragesExample | Ppo.UpdateAverages, used by Ppo.Trainer.LearnWindow and Ppo.Trainer.Learn |
