# Evolution strategies: a verified model of the coordinator, the worker and their helpers

This project models the sequential core of a distributed evolution-strategies
trainer. Workers perturb a shared parameter vector with noise that an integer
index identifies. They score each perturbation and report the pair
`(noiseIndex, reward)`. A coordinator batches the reports into blocks and
broadcasts every block it commits. Each worker then rebuilds the same gradient
from the indices and applies one optimizer step.

The model covers these modules:

- **`Master`** (`lib/master.js`):
  - the block-size policy;
  - the hyperparameter defaults;
  - the `'episode'` handler, which appends the episode, checks the threshold, commits the block and updates the smoothed score;
  - the `'connection'` handler, which sends the history slice.

  These form the class `Coordinator`, proved against the pure step function `EpisodeStep` and against runs (`RunEpisodes`).
- **`MasterServer`** (`examples/master-server.js`): the variant with a fixed block size of 25.
- **`Protocol`**: what the two sides exchange. This is the episode report, the block, and the history slice that a late joiner receives.
- **`Worker`** (`lib/worker.js`):
  - `addVeci` and `_applyUpdate`, as in-place methods on arrays;
  - the `initialize`/`block` handlers and the `ready` listener, as methods of the class `Worker`;
  - the pure specifications `ApplyBlock` and `Replay`, which the replay-equivalence lemmas are about.
- **`BlockGradient`** (`lib/worker.js`): `_getBlockGradient`, the sum of noise vectors weighted by normalised returns.
- **`Optimizer`** (`lib/worker.js`): `sgd` and the stateful `adam` closure, modelled as the class `Adam` and the step function `AdamStep`.
- **`CachedNoise`** (`lib/worker.js`): the cached sampler's `sample` and `getNoiseIndex`.
- **`LiveNoise`** (`index.js`): the live generator `noise(seed)`.
- **`Argmax`** (`lib/argmax.js`): `indexOfMax` and `argmax`.
- **`Parameters`** (`examples/cartpole/lib/parameters.js`): reads the parameters of a model's layers as one flat vector, and writes one back.
- **`JsArray`, `JsSparse`, `JsErrors`**: the JavaScript built-ins the code depends on, with their exact meaning:
  - `slice`, with negative and clamped bounds;
  - `reduce` without an initial value, which throws on `[]`;
  - sparse arrays with holes;
  - `x || 0`.

Numbers are modelled as `real`. The foreign numeric functions are not modelled; they are passed in as uninterpreted functions. These are the standard deviation, the inverse normal CDF composed with `seedrandom`, and `Math.sqrt`, of which only `sqrt(x) >= 0` is assumed. The values of `Math.random()` are parameters in `[0, 1)`.

## Behaviour as written

In the places below, the code does not do what its comments or the design suggest. In every case the model follows the code:

- **Sample length.** `sample(index)` returns `noiseCache.slice(index, numParams)` (`lib/worker.js:138`). The second argument is an end position, not a length. The noise vector therefore has `max(0, numParams - index)` entries, and it is a full-length window only at index 0. The length argument that `_getBlockGradient` passes is ignored.
- **Trial vector.** The trial vector is `noise + head`, with no `sigma` scaling (`lib/worker.js:73-76`). The noise slice is shorter than `head` whenever the index is not 0. In that case `addVeci` adds numbers to `undefined` and produces `NaN` entries. The model represents such a trial as `None`.
- **Adam bias correction.** The bias correction is commented out, so the step size is plain `alpha`. The counter `t` only grows when the written key is the last index of `m` and that moment is non-zero. During the first sweep this happens at every index, so `t` is not a count of sweeps. The returned update never depends on `t`.
- **Unused `alpha`.** The `alpha` hyperparameter is passed to `_applyUpdate` and never used. The optimizer keeps the `alpha` of 0.01 it was created with.
- **Block before `initialize`.** If a `block` message arrives before `initialize`, the gradient is still added into the update vector, and then the call to the undefined `applyUpdate` throws.
- **Empty block.** An empty block throws inside `_getBlockGradient`, because `reduce` has no initial value. When this happens during a replay, the rest of the replay is abandoned.
- **History slice.** `blocks.slice(0, blocks.length - 2)` withholds the open block and also the newest committed block (`lib/master.js:24`, `examples/master-server.js:10`).

## Model

| member | source | states |
|---|---|---|
| Argmax.IndexOfMax | lib/argmax.js:1-17 | -1 exactly when the array is empty; otherwise an index in range holding a maximum, strictly greater than every earlier entry (ties go to the first) |
| Argmax.ArgmaxOf | lib/argmax.js:19-21 | the same result for `nd.data`; nothing is modified |
| Argmax.FirstMaxUnique | lib/argmax.js:9-14 | at most one index is a first maximum, so the result is determined by the array |
| LiveNoise.Generator.Sample | index.js:8-14 | the loop builds exactly `max(0, length)` draws, element `i` being `draw(seed + i + index)` |
| LiveNoise.Generator.NoiseVectorLength | index.js:10-12 | the vector has `max(0, length)` elements |
| LiveNoise.Generator.NoiseVectorAt | index.js:11 | element `i` depends only on `seed + i + index` |
| LiveNoise.Generator.Shift | index.js:11 | `sample(index, n)[i] == sample(index + i, 1)[0]` |
| LiveNoise.Generator.Prefix | index.js:10-12 | `sample(index, n)` is a prefix of `sample(index, m)` for `n <= m` |
| LiveNoise.Generator.Overlap | index.js:10-12 | `sample(index + 1, n - 1)` is `sample(index, n)` without its first element |
| LiveNoise.Generator.GetNoiseIndex | index.js:16-18 | an integer in `[0, 100000000)` |
| LiveNoise.Determinism | index.js:4-14 | generators with the same seed give identical vectors for identical arguments |
| CachedNoise.Sampler.SampleWindow | lib/worker.js:136-140 | `sample(index)` is `cache[index .. numParams)` of length `max(0, numParams - index)`, empty past `numParams` |
| CachedNoise.Sampler.SampleShort | lib/worker.js:138 | a sample is never longer than the parameter vector |
| CachedNoise.Sampler.GetNoiseIndex | lib/worker.js:142-146 | an integer in `[0, noiseSize - numParams)` |
| Optimizer.SgdStateless | lib/worker.js:7-11 | the SGD update ignores parameter and key and is additive in the gradient |
| Optimizer.AdamMoments | lib/worker.js:21-22 | `m[key]` and `v[key]` become the exponential averages with the gradient and its square, absent entries read as 0; other keys read back unchanged |
| Optimizer.AdamCounter | lib/worker.js:23-27 | `t` grows by one exactly when `key` is the last index of `m` after the write and the new moment is non-zero |
| Optimizer.AdamIgnoresCounter | lib/worker.js:19-28 | the update and the moments do not depend on `t` (bias correction is off) |
| Optimizer.AdamFirstStep | lib/worker.js:13-29 | from the initial state, gradient 1 at index 0 gives `m = [0.1]`, `v = [0.001]`, `t = 1` and update `0.01 * 0.1 / (sqrt(0.001) + 1e-8)` |
| Optimizer.SweepIgnoresCounter | lib/worker.js:19-28 | a whole sweep's updates and moments do not depend on `t` |
| Optimizer.FirstSweepCounter | lib/worker.js:23-27 | a first sweep over `n` non-zero gradients ends with `t == n`: one tick per parameter, not per sweep |
| Optimizer.LaterSweepCounter | lib/worker.js:23-27 | once `m` covers every index, a sweep advances `t` by at most one, and not at all if it stops short of the last index |
| Optimizer.Adam.constructor | lib/worker.js:13-16 | the closure starts with `m = []`, `v = []`, `t = 0` |
| Optimizer.Adam.Step | lib/worker.js:18-29 | one call updates the fields and returns the update exactly as `AdamStep` |
| BlockGradient.StdFloor | lib/worker.js:107 | a zero standard deviation is replaced by the non-zero floor; others are kept |
| BlockGradient.AccumulateScaled | lib/worker.js:115-119 | every entry gains the weighted noise entry (0 past the end of the noise vector) |
| BlockGradient.GetBlockGradient | lib/worker.js:104-123 | a `numParams`-long vector whose entry `j` is the normalised-return-weighted sum of the noise entries `j`; throws exactly on an empty block |
| BlockGradient.ContributionIsSum | lib/worker.js:110-122 | entry `j` equals the plain sum over the block's episodes of `nr_k * noise_k[j]` |
| BlockGradient.NormalizedReturnsSumToZero | lib/worker.js:105-108 | the normalised returns of a block sum to zero |
| BlockGradient.EqualRewardsNormalizeToZero | lib/worker.js:106-108 | all-equal rewards give all-zero normalised returns |
| BlockGradient.ZeroWeightsContributeNothing | lib/worker.js:111-120 | zero weights give a zero gradient entry |
| BlockGradient.EqualRewardsGiveZeroGradient | lib/worker.js:104-123 | a block of all-equal rewards yields a zero gradient, with no division by zero |
| Worker.AddVeci | lib/worker.js:88-93 | `a[k]` gains `b[k]` for `k < |b|`; entries at or past `|b|` are unchanged |
| Worker.ApplyPrefixMeaning | lib/worker.js:97-101 | after `k` callbacks the optimizer is in the sweep state over the first `k` update entries, those parameters are stepped and those entries zeroed; the rest is untouched |
| Worker.ApplyUpdateMeaning | lib/worker.js:95-102 | parameter `k` gains sweep output `k` divided by `blockSize * sigma`; the update vector ends all zeros |
| Worker.UpdateParameter | lib/worker.js:97-101 | one callback: one optimizer call, one parameter stepped, one entry zeroed, nothing else changed |
| Worker.ApplyUpdate | lib/worker.js:95-102 | the parameters, update vector and optimizer end as `ApplyUpdateSpec` says; `alpha` plays no part |
| Worker.ApplyBlock | lib/worker.js:63-67 | applying a block fails exactly when the block is empty and keeps the vector lengths |
| Worker.ReplayAppend | lib/worker.js:55-59 | replaying `a + b` is replaying `a` and then, if it completed, `b` |
| Worker.ReplayThenLive | lib/worker.js:55-67 | replaying `n + 1` blocks ends where replaying `n` and then receiving the last one live ends |
| Worker.TrialFiniteOnlyAtZero | lib/worker.js:72-76 | with at least one parameter the trial vector is free of `NaN` exactly at noise index 0, where it is `cache[k] + head[k]` with no `sigma` |
| Worker.Worker.constructor | lib/worker.js:34-49 | head = initial parameters, update vector zero, `sigma = 0.1`, `alpha = 0.01`, optimizer `adam(0.01)`, no `applyUpdate` |
| Worker.Worker.OnBlock | lib/worker.js:63-67 | an empty block throws and changes nothing; before `initialize` the gradient is added and the call throws; afterwards the state is `ApplyBlock` of the old state |
| Worker.Worker.Initialize | lib/worker.js:51-61 | records the hyperparameters and ends exactly where `Replay` of the history from the old state ends |
| Worker.Worker.Ready | lib/worker.js:69-77 | the noise index is the sampler's, and the trial is the noise slice plus the head parameters |
| Protocol.HistoryWithholdsLastTwo | lib/master.js:24 | the history is all blocks but the last two (empty while fewer than three exist) |
| Master.BlockSizePolicyCases | lib/master.js:6-13 | a numeric option is a constant threshold, a function is used as given, otherwise the client count |
| Master.OrDefault | lib/master.js:15-16 | a falsy option (absent or 0) gives the default, any other value is kept |
| Master.AnnouncedSigmaNonZero | lib/master.js:15-16 | the announced `sigma` and `alpha` are never 0 |
| Master.RunEpisodes | lib/master.js:4-43 | the list of blocks is never empty |
| Master.EpisodeAppends | lib/master.js:33-35 | the episode ends the open block, committed blocks are unchanged, the counters move by one episode and its reward |
| Master.CommitRule | lib/master.js:36-43 | a commit happens iff the open block reaches the threshold; it broadcasts that block, pushes exactly one empty block and folds the block average into the smoothed score; otherwise nothing else changes |
| Master.BlocksAreBroadcasts | lib/master.js:35-42 | the blocks are the broadcast blocks in broadcast order plus the open block; no committed block is empty |
| Master.BroadcastsGrow | lib/master.js:35-42 | a later run's broadcasts extend an earlier run's: history is append-only |
| Master.ConstantThreshold | lib/master.js:36-42 | with a constant threshold `c >= 1` every committed block has exactly `c` episodes and the open block fewer |
| Master.HistoryIsAllButNewestBroadcast | lib/master.js:24 | a late joiner gets every broadcast block except the newest |
| Master.Coordinator.constructor | lib/master.js:3-19 | policy from the option, `sigma`/`alpha` defaults for falsy options, one empty block and zero counters |
| Master.Coordinator.Connect | lib/master.js:23-29 | sends the first `max(0, len - 2)` blocks and the hyperparameters, reading only |
| Master.Coordinator.OnEpisode | lib/master.js:32-44 | the new state and broadcast are those of `EpisodeStep` with the policy's threshold |
| MasterServer.EpisodeStepKeepsValid | examples/master-server.js:18-28 | the episode is appended, committed blocks are unchanged, both counters move, a commit happens iff the open block reaches 25, and the open block stays in `[0, 24]` with every committed block exactly 25 |
| MasterServer.RunEpisodes | examples/master-server.js:3-28 | between events the blocks are valid: never empty, committed blocks exactly 25, open block shorter |
| MasterServer.BlocksAreBroadcasts | examples/master-server.js:21-25 | the blocks are the broadcasts, in order, each of 25 episodes, plus the open block |
| MasterServer.BroadcastsGrow | examples/master-server.js:21-25 | history is append-only |
| MasterServer.BroadcastCount | examples/master-server.js:18-27 | after `n` reports, `n / 25` blocks were broadcast and the open block holds `n % 25` |
| MasterServer.HistoryIsAllButNewestBroadcast | examples/master-server.js:10 | a late joiner gets every broadcast block except the newest |
| MasterServer.Server.constructor | examples/master-server.js:3-6 | one empty block and zero counters |
| MasterServer.Server.Connect | examples/master-server.js:9-15 | the first `max(0, len - 2)` blocks, with `sigma = alpha = 0.2` always |
| MasterServer.Server.OnEpisode | examples/master-server.js:18-28 | the new state and broadcast are those of `EpisodeStep` |
| Parameters.FlattenLength | examples/cartpole/lib/parameters.js:15-25 | the getter's length is the sum of all weight and bias data lengths |
| Parameters.AssignTensorIsSlice | examples/cartpole/lib/parameters.js:6-7 | a tensor receives `newParams.slice(off, off + len)` and the offset advances by that slice's length |
| Parameters.AssignKeepsShape | examples/cartpole/lib/parameters.js:4-13 | the setter keeps the layer count and which tensors exist, and leaves absent and empty tensors untouched |
| Parameters.ReadAfterAssign | examples/cartpole/lib/parameters.js:3-13 | after writing from `offset`, the layers read back as the window of `p` at `offset`, as long as the parameter count, clamped |
| Parameters.ReadAfterSet | examples/cartpole/lib/parameters.js:2-25 | set then get returns `p` when `|p|` equals the count; extra entries are ignored |
| Parameters.ShortSet | examples/cartpole/lib/parameters.js:2-13 | a short `p` reads back as itself and truncates later data |
| Parameters.SetEmpty | examples/cartpole/lib/parameters.js:2-13 | setting `[]` empties every tensor's data and keeps which tensors exist |
| Parameters.AssignOwnData | examples/cartpole/lib/parameters.js:3-13 | writing the layers' own flat data back from its position leaves them as they were |
| Parameters.SetThenRead | examples/cartpole/lib/parameters.js:1-27 | `parameters(m, parameters(m))` changes no layer |
| Parameters.SetLayer | examples/cartpole/lib/parameters.js:4-13 | the callback for one layer gives its weight and then its bias the next slices, as `AssignLayer` |
| Parameters.Model.Get | examples/cartpole/lib/parameters.js:14-26 | the concatenation of each layer's weight and bias data, in order, of the total length; the model is not modified |
| Parameters.Model.Set | examples/cartpole/lib/parameters.js:2-13 | the layers become `Assign` of the old layers with `newParams` from offset 0 |
| Parameters.Model.Parameters | examples/cartpole/lib/parameters.js:1-27 | with `newParams` the setter runs and nothing is returned (even for `[]`); without it the flat vector is returned and nothing changes |

## Left out

- Socket I/O is not modelled. This covers `connect`, `io.on`, `emit`, `io.listen` and `process.exit` on disconnect. Each handler body is an atomic method, because JavaScript runs one event at a time; the number of connected clients is a parameter.
- The `console.log` output is not modelled. This includes the smoothed-score print and the server's average-reward print.
- The numeric libraries (`gaussian.ppf`, `seedrandom`, `standard-deviation`, `Math.sqrt`) are uninterpreted functions. Only `sqrt(x) >= 0` is assumed about them.
- Floating point is modelled as exact `real` arithmetic. Rounding, `Infinity` and bit-for-bit agreement between processes are not modelled.
- The warm-up of the 10^7-entry noise cache is not modelled. The cache is a parameter of length `noiseSize`.
- `Math.random()` draws are parameters in `[0, 1)`. The worker's unique seed enters only through the fixed draw `seedrandom(sharedSeed + uniqueSeed)()`.
- The `ready` listener is modelled only up to the fitness call. The fitness callback, the report it emits and the re-emitted `ready` belong to the environment. Their effect on the coordinator is `Coordinator.OnEpisode`.
- Worker.Ready: a trial vector containing `NaN` entries is modelled as `None` as a whole, not entry by entry.
- Worker.Worker.Initialize: requires `sigma != 0`. With `sigma = 0` the JavaScript would divide by zero, which the model does not represent. Both coordinators always announce a non-zero `sigma` (`Master.AnnouncedSigmaNonZero`, and `0.2` in the fixed server).
- Master.BlockSizePolicyCases: a policy function is assumed to return a number. A function returning anything else, or `NaN` from a non-numeric option, is not modelled.
- Master.OrDefault: only `undefined` and `0` are modelled as falsy numbers. `NaN`, `null`, `false` and `''` are not.
- Parameters.Model.Set: the layers are values held in a sequence field. Object identity, and aliasing of a layer's tensor objects by other references, are not modelled.
- The live generator's seed is numeric. With a string seed, `seed + i + index` would concatenate strings instead of adding numbers.
- `sgd` is modelled as a function, but the worker never uses it: `let optimizer = sgd(alpha)` is commented out.
- Optimizer.AdamFirstStep: the numeric value of the first update is stated with `sqrt` uninterpreted, not evaluated.
- BlockGradient.EqualRewardsGiveZeroGradient: the example block with rewards `[1..5]` is not covered. Its normalised returns depend on the value of the uninterpreted `stdev`.
- Checkpointing, warm-start parameters and the `request-parameters` message are not modelled, because the coordinator and worker code never sends or reads them.
- The scripts `examples/cartpole.js`, `examples/cartpole/worker.js`, `examples/breakout/worker.js`, `examples/breakout/lib/env.js` and `examples/cartpole/lib/weighted-toss.js` are not part of this model. They are glue around a simulator and a network, with random choices and decimal rounding. Their computational parts copy code that is modelled here.
