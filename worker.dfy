/** `lib/worker.js`: the per-worker update loop. The socket is left out; its `initialize`
    and `block` handlers and the `ready` listener are methods of `Worker`. */
module Worker {
  import opened JsErrors
  import opened JsSparse
  import opened Protocol
  import opened Optimizer
  import opened BlockGradient
  import CachedNoise

  /** `a` after `addVeci(a, b)` when `b` is no longer than `a`. */
  function AddVec(a: seq<real>, b: seq<real>): (r: seq<real>)
    requires |b| <= |a|
    ensures |r| == |a|
  {
    seq(|a|, k requires 0 <= k < |a| => if k < |b| then a[k] + b[k] else a[k])
  }

  /** `addVeci(a, b)`: adds `b` into `a` in place, index by index over `b`. `b` is only
      read, so its contents stand for it. */
  method AddVeci(a: array<real>, b: seq<real>)
    requires |b| <= a.Length
    modifies a
    ensures forall k :: 0 <= k < |b| ==> a[k] == old(a[k]) + b[k]
    ensures forall k :: |b| <= k < a.Length ==> a[k] == old(a[k])
    ensures a[..] == AddVec(old(a[..]), b)
  {
    var k := 0;
    while k < |b|
      invariant 0 <= k <= |b|
      invariant forall j :: 0 <= j < k ==> a[j] == old(a[j]) + b[j]
      invariant forall j :: k <= j < a.Length ==> a[j] == old(a[j])
    {
      a[k] := a[k] + b[k];
      k := k + 1;
    }
  }

  /** The optimizer's output for one parameter, divided by `blockSize * sigma`. */
  function ScaleDown(x: real, blockSize: nat, sigma: real): real
    requires blockSize as real * sigma != 0.0
  {
    x / (blockSize as real * sigma)
  }

  /** What a worker owns: the head parameters, the update vector and the optimizer's state. */
  datatype WorkerState = WorkerState(head: seq<real>, update: seq<real>, adam: AdamState)

  /** `_applyUpdate` after its `forEach` has visited indices `0 .. k-1`: at each index
      the optimizer is called on that index's update-vector entry, the parameter gains
      the output divided by `blockSize * sigma`, and the entry is zeroed. */
  function ApplyPrefix(cfg: AdamConfig, st: WorkerState, k: nat, blockSize: nat, sigma: real): (r: WorkerState)
    requires cfg.Valid() && |st.update| == |st.head| && k <= |st.head|
    requires blockSize as real * sigma != 0.0
    ensures |r.head| == |r.update| == |st.head|
  {
    if k == 0 then st
    else
      var prev := ApplyPrefix(cfg, st, k - 1, blockSize, sigma);
      var step := AdamStep(cfg, prev.adam, prev.update[k - 1], k - 1);
      WorkerState(
        prev.head[k - 1 := Stepped(prev.head[k - 1], step.update, blockSize, sigma)],
        prev.update[k - 1 := 0.0],
        step.state)
  }

  /** Parameter `p` after the optimizer produced `x` for it. */
  function Stepped(p: real, x: real, blockSize: nat, sigma: real): real
    requires blockSize as real * sigma != 0.0
  {
    p + ScaleDown(x, blockSize, sigma)
  }

  /** The whole of `_applyUpdate`. */
  function ApplyUpdateSpec(cfg: AdamConfig, st: WorkerState, blockSize: nat, sigma: real): (r: WorkerState)
    requires cfg.Valid() && |st.update| == |st.head|
    requires blockSize as real * sigma != 0.0
    ensures |r.head| == |r.update| == |st.head|
  {
    ApplyPrefix(cfg, st, |st.head|, blockSize, sigma)
  }

  /** What `_applyUpdate` does, stated on the whole vectors: parameter `k` gains output `k`
      of one optimizer sweep over the update vector, in index order, divided by
      `blockSize * sigma`; the update vector ends all zeros; the optimizer ends in the
      sweep's final state. */
  lemma {:induction false} ApplyPrefixMeaning(cfg: AdamConfig, st: WorkerState, k: nat, blockSize: nat, sigma: real)
    requires cfg.Valid() && |st.update| == |st.head| && k <= |st.head|
    requires blockSize as real * sigma != 0.0
    ensures var r := ApplyPrefix(cfg, st, k, blockSize, sigma);
      var sweep := Sweep(cfg, st.adam, st.update[..k]);
      && r.adam == sweep.state
      && (forall i :: 0 <= i < k ==> r.head[i] == Stepped(st.head[i], sweep.updates[i], blockSize, sigma))
      && (forall i :: k <= i < |st.head| ==> r.head[i] == st.head[i])
      && (forall i :: 0 <= i < k ==> r.update[i] == 0.0)
      && (forall i :: k <= i < |st.head| ==> r.update[i] == st.update[i])
  {
    if k > 0 {
      ApplyPrefixMeaning(cfg, st, k - 1, blockSize, sigma);
      assert st.update[..k][..k - 1] == st.update[..k - 1];
    }
  }

  lemma ApplyUpdateMeaning(cfg: AdamConfig, st: WorkerState, blockSize: nat, sigma: real)
    requires cfg.Valid() && |st.update| == |st.head|
    requires blockSize as real * sigma != 0.0
    ensures var r := ApplyUpdateSpec(cfg, st, blockSize, sigma);
      var sweep := Sweep(cfg, st.adam, st.update);
      && r.adam == sweep.state
      && (forall i :: 0 <= i < |st.head| ==> r.head[i] == st.head[i] + sweep.updates[i] / (blockSize as real * sigma))
      && (forall i :: 0 <= i < |st.head| ==> r.update[i] == 0.0)
  {
    ApplyPrefixMeaning(cfg, st, |st.head|, blockSize, sigma);
    assert st.update[..|st.head|] == st.update;
  }

  /** The `forEach` callback of `_applyUpdate` at index `k`: one optimizer call, one
      parameter stepped, one update-vector entry zeroed. */
  method UpdateParameter(sigma: real, optimizer: Adam, blockSize: nat, params: array<real>, updateVector: array<real>, k: nat)
    returns (out: real)
    requires optimizer.cfg.Valid()
    requires params != updateVector && k < params.Length == updateVector.Length
    requires blockSize as real * sigma != 0.0
    modifies params, updateVector, optimizer
    ensures StepResult(optimizer.State(), out) == AdamStep(optimizer.cfg, old(optimizer.State()), old(updateVector[k]), k)
    ensures params[..] == old(params[..])[k := Stepped(old(params[k]), out, blockSize, sigma)]
    ensures updateVector[..] == old(updateVector[..])[k := 0.0]
  {
    out := optimizer.Step(params[k], updateVector[k], k);
    params[k] := params[k] + ScaleDown(out, blockSize, sigma);
    updateVector[k] := 0.0;
  }

  /** `_applyUpdate(sigma, alpha, optimizer, blockSize, params, updateVector)`; `alpha` is
      accepted and never used. */
  method ApplyUpdate(sigma: real, alpha: real, optimizer: Adam, blockSize: nat, params: array<real>, updateVector: array<real>)
    requires optimizer.cfg.Valid()
    requires params != updateVector && params.Length == updateVector.Length
    requires blockSize as real * sigma != 0.0
    modifies params, updateVector, optimizer
    ensures WorkerState(params[..], updateVector[..], optimizer.State())
         == ApplyUpdateSpec(optimizer.cfg, WorkerState(old(params[..]), old(updateVector[..]), old(optimizer.State())), blockSize, sigma)
  {
    ghost var st0 := WorkerState(params[..], updateVector[..], optimizer.State());
    ghost var cfg := optimizer.cfg;
    var k := 0;
    while k < params.Length
      invariant 0 <= k <= params.Length
      invariant optimizer.cfg == cfg
      invariant WorkerState(params[..], updateVector[..], optimizer.State()) == ApplyPrefix(cfg, st0, k, blockSize, sigma)
    {
      var out := UpdateParameter(sigma, optimizer, blockSize, params, updateVector, k);
      k := k + 1;
    }
  }

  /** The gradient→`addVeci`→`applyUpdate` steps that the `block` handler and every
      iteration of the `initialize` replay perform; an empty block throws in
      `_getBlockGradient` before anything changes. */
  function ApplyBlock(cfg: AdamConfig, sampler: CachedNoise.Sampler, stdev: seq<real> -> real,
                      st: WorkerState, block: Block, sigma: real): (r: Result<WorkerState>)
    requires cfg.Valid() && sampler.Valid() && sigma != 0.0
    requires |st.head| == |st.update| == sampler.numParams
    ensures r.Ok? ==> |r.value.head| == |r.value.update| == sampler.numParams
    ensures r.Throw? <==> block == []
  {
    match Gradient(sampler, stdev, block)
    case Throw(e) => Throw(e)
    case Ok(g) =>
      Ok(ApplyUpdateSpec(cfg, st.(update := AddVec(st.update, g)), |block|, sigma))
  }

  /** Where a replay ended: the state reached and whether every block was applied. */
  datatype Replayed = Replayed(state: WorkerState, completed: bool)

  /** The `initialize` handler's `blocks.forEach(...)`: the blocks applied in order,
      stopping at the first that throws. */
  function Replay(cfg: AdamConfig, sampler: CachedNoise.Sampler, stdev: seq<real> -> real,
                  st: WorkerState, blocks: seq<Block>, sigma: real): (r: Replayed)
    requires cfg.Valid() && sampler.Valid() && sigma != 0.0
    requires |st.head| == |st.update| == sampler.numParams
    ensures |r.state.head| == |r.state.update| == sampler.numParams
    decreases |blocks|
  {
    if blocks == [] then Replayed(st, true)
    else
      match ApplyBlock(cfg, sampler, stdev, st, blocks[0], sigma)
      case Throw(_) => Replayed(st, false)
      case Ok(next) => Replay(cfg, sampler, stdev, next, blocks[1..], sigma)
  }

  /** Replay equivalence: replaying `a + b` is replaying `a`, then (if `a` completed)
      replaying `b` from where it ended. */
  lemma {:induction false} ReplayAppend(cfg: AdamConfig, sampler: CachedNoise.Sampler, stdev: seq<real> -> real,
                                        st: WorkerState, a: seq<Block>, b: seq<Block>, sigma: real)
    requires cfg.Valid() && sampler.Valid() && sigma != 0.0
    requires |st.head| == |st.update| == sampler.numParams
    ensures var ra := Replay(cfg, sampler, stdev, st, a, sigma);
      Replay(cfg, sampler, stdev, st, a + b, sigma)
        == if ra.completed then Replay(cfg, sampler, stdev, ra.state, b, sigma) else ra
    decreases |a|
  {
    if a == [] {
      assert a + b == b;
    } else {
      assert (a + b)[0] == a[0] && (a + b)[1..] == a[1..] + b;
      match ApplyBlock(cfg, sampler, stdev, st, a[0], sigma)
      case Throw(_) =>
      case Ok(next) => ReplayAppend(cfg, sampler, stdev, next, a[1..], b, sigma);
    }
  }

  /** A late joiner that replays `n + 1` committed blocks is where a worker that replayed
      the first `n` and then received the last one live is. */
  lemma ReplayThenLive(cfg: AdamConfig, sampler: CachedNoise.Sampler, stdev: seq<real> -> real,
                       st: WorkerState, blocks: seq<Block>, block: Block, sigma: real)
    requires cfg.Valid() && sampler.Valid() && sigma != 0.0
    requires |st.head| == |st.update| == sampler.numParams
    requires Replay(cfg, sampler, stdev, st, blocks, sigma).completed
    requires block != []
    ensures Replay(cfg, sampler, stdev, st, blocks + [block], sigma)
         == Replayed(ApplyBlock(cfg, sampler, stdev, Replay(cfg, sampler, stdev, st, blocks, sigma).state, block, sigma).value, true)
  {
    ReplayAppend(cfg, sampler, stdev, st, blocks, [block], sigma);
    var mid := Replay(cfg, sampler, stdev, st, blocks, sigma).state;
    assert [block][1..] == [];
  }

  /** The trial vector the `ready` listener hands to the fitness function, for the noise
      index it drew: the noise slice plus the head parameters, with no `sigma` scaling.
      `None` when the slice is shorter than the head parameters, where `addVeci` adds
      numbers to `undefined` and the vector holds `NaN` entries. */
  function Trial(sampler: CachedNoise.Sampler, head: seq<real>, noiseIndex: int): Option<seq<real>>
  {
    var noise := sampler.Sample(noiseIndex);
    if |head| <= |noise| then Some(AddVec(noise, head)) else None
  }

  /** With at least one parameter, the trial vector is free of `NaN` only for noise index 0,
      since every other index yields a slice shorter than `numParams`; at index 0 it is the
      unscaled sum of the first `numParams` cached values and the head parameters. */
  lemma TrialFiniteOnlyAtZero(sampler: CachedNoise.Sampler, head: seq<real>, noiseIndex: nat)
    requires sampler.Valid() && |head| == sampler.numParams > 0
    ensures Trial(sampler, head, noiseIndex).Some? <==> noiseIndex == 0
    ensures noiseIndex == 0 ==>
      forall k :: 0 <= k < |head| ==> Trial(sampler, head, 0).value[k] == sampler.cache[k] + head[k]
  {
    sampler.SampleWindow(noiseIndex);
  }

  /** A worker process: its parameters, update vector and optimizer, plus the
      hyperparameters and bound `applyUpdate` that `initialize` supplies. */
  class Worker {
    const sampler: CachedNoise.Sampler
    const stdev: seq<real> -> real
    const optimizer: Adam
    const headParameters: array<real>
    const updateVector: array<real>
    var sigma: real
    var alpha: real
    /** Whether `applyUpdate` has been assigned, that is, whether `initialize` has run. */
    var initialized: bool

    ghost predicate Valid()
      reads this, optimizer
    {
      && sampler.Valid()
      && optimizer.cfg.Valid()
      && headParameters != updateVector
      && headParameters.Length == updateVector.Length == sampler.numParams
      && (initialized ==> sigma != 0.0)
    }

    function State(): WorkerState
      reads this, headParameters, updateVector, optimizer
    {
      WorkerState(headParameters[..], updateVector[..], optimizer.State())
    }

    /** The worker as `module.exports(opts)` sets it up: `headParameters` a copy of the
        initial parameters, a zero update vector, `sigma = 0.1`, `alpha = 0.01`, the
        optimizer `adam(0.01)`, and no `applyUpdate` yet. `cache` and `uniqueDraw` stand
        for the sampler's warmed-up cache and seeded draw. */
    constructor (initialParameters: seq<real>, cache: seq<real>, uniqueDraw: real,
                 stdev: seq<real> -> real, sqrt: real -> real)
      requires |cache| == CachedNoise.NoiseSize && |initialParameters| < CachedNoise.NoiseSize
      requires 0.0 <= uniqueDraw < 1.0
      requires forall x :: sqrt(x) >= 0.0
      ensures Valid() && fresh(headParameters) && fresh(updateVector) && fresh(optimizer)
      ensures State() == WorkerState(initialParameters, seq(|initialParameters|, _ => 0.0), Initial)
      ensures optimizer.cfg == DefaultAdam(0.01, sqrt)
      ensures sigma == 0.1 && alpha == 0.01 && !initialized
      ensures sampler == CachedNoise.Sampler(cache, |initialParameters|, uniqueDraw) && this.stdev == stdev
    {
      sampler := CachedNoise.Sampler(cache, |initialParameters|, uniqueDraw);
      this.stdev := stdev;
      sigma := 0.1;
      alpha := 0.01;
      optimizer := new Adam(DefaultAdam(0.01, sqrt));
      headParameters := new real[|initialParameters|](i requires 0 <= i < |initialParameters| => initialParameters[i]);
      updateVector := new real[|initialParameters|](_ => 0.0);
      initialized := false;
      new;
      assert headParameters[..] == initialParameters;
    }

    /** The `block` handler. Before `initialize`, `applyUpdate` is `undefined`: the
        gradient is still added into the update vector, then the call throws. */
    method OnBlock(block: Block) returns (outcome: Outcome)
      requires Valid()
      modifies headParameters, updateVector, optimizer
      ensures Valid()
      ensures block == [] ==> outcome == Threw(ReduceOfEmptyArray) && State() == old(State())
      ensures block != [] && initialized ==>
                outcome == Done
                && State() == ApplyBlock(optimizer.cfg, sampler, stdev, old(State()), block, sigma).value
      ensures block != [] && !initialized ==>
                outcome == Threw(NotAFunction)
                && State() == old(State()).(update := AddVec(old(updateVector[..]), Gradient(sampler, stdev, block).value))
    {
      var gradient := GetBlockGradient(sampler, stdev, block);
      if gradient.Throw? {
        return Threw(gradient.error);
      }
      AddVeci(updateVector, gradient.value);
      if !initialized {
        return Threw(NotAFunction);
      }
      ApplyUpdate(sigma, alpha, optimizer, |block|, headParameters, updateVector);
      outcome := Done;
    }

    /** The `initialize` handler: records the hyperparameters, binds `applyUpdate`, and
        replays the history block by block, exactly as the `block` handler would. */
    method Initialize(sigma: real, alpha: real, blocks: seq<Block>) returns (completed: bool)
      requires Valid()
      requires sigma != 0.0
      modifies this, headParameters, updateVector, optimizer
      ensures Valid() && initialized && this.sigma == sigma && this.alpha == alpha
      ensures Replay(optimizer.cfg, sampler, stdev, old(State()), blocks, sigma) == Replayed(State(), completed)
    {
      this.sigma := sigma;
      this.alpha := alpha;
      initialized := true;
      ghost var total := Replay(optimizer.cfg, sampler, stdev, State(), blocks, sigma);
      var i := 0;
      while i < |blocks|
        invariant 0 <= i <= |blocks|
        invariant Valid() && initialized && this.sigma == sigma && this.alpha == alpha
        invariant Replay(optimizer.cfg, sampler, stdev, State(), blocks[i..], sigma) == total
      {
        var outcome := OnBlock(blocks[i]);
        if outcome.Threw? {
          return false;
        }
        assert blocks[i..][1..] == blocks[i + 1..];
        i := i + 1;
      }
      completed := true;
    }

    /** The `ready` listener up to the fitness call: draws a noise index (with `u` the
        value of `Math.random()`), copies the noise slice and adds the head parameters to
        the copy in place. */
    method Ready(u: real) returns (noiseIndex: int, trial: Option<seq<real>>)
      requires Valid()
      requires 0.0 <= u < 1.0
      ensures noiseIndex == sampler.GetNoiseIndex(u)
      ensures trial == Trial(sampler, headParameters[..], noiseIndex)
    {
      noiseIndex := sampler.GetNoiseIndex(u);
      var noiseVector := sampler.Sample(noiseIndex);
      if headParameters.Length <= |noiseVector| {
        var trialParameters := new real[|noiseVector|](i requires 0 <= i < |noiseVector| => noiseVector[i]);
        assert trialParameters[..] == noiseVector;
        AddVeci(trialParameters, headParameters[..]);
        trial := Some(trialParameters[..]);
      } else {
        trial := None;
      }
    }
  }
}
