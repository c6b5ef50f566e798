/** The optimizers of `lib/worker.js`: `sgd(alpha)` and the stateful `adam(alpha)` closure. */
module Optimizer {
  import opened JsSparse

  /** `sgd(alpha)` applied to `(param, gradient, key)`: the gradient scaled by alpha. */
  function Sgd(alpha: real, param: real, gradient: real, key: nat): real
  {
    gradient * alpha
  }

  /** SGD keeps no state: its update ignores the parameter and the key, and is linear in the gradient. */
  lemma SgdStateless(alpha: real, p1: real, p2: real, g1: real, g2: real, k1: nat, k2: nat)
    ensures Sgd(alpha, p1, g1 + g2, k1) == Sgd(alpha, p2, g1, k2) + Sgd(alpha, p1, g2, k1)
  {
  }

  /** The constants captured by `adam(alpha, beta1, beta2, eps)`; `sqrt` stands for
      `Math.sqrt`, of which only non-negativity is assumed. */
  datatype AdamConfig = AdamConfig(alpha: real, beta1: real, beta2: real, eps: real, sqrt: real -> real)
  {
    ghost predicate Valid()
    {
      eps > 0.0 && forall x :: sqrt(x) >= 0.0
    }
  }

  /** `adam(alpha)` with its default `beta1 = 0.9`, `beta2 = 0.999`, `eps = 1e-8`. */
  function DefaultAdam(alpha: real, sqrt: real -> real): AdamConfig
  {
    AdamConfig(alpha, 0.9, 0.999, 0.00000001, sqrt)
  }

  /** The closure's mutable state: moment arrays `m`, `v` (JS arrays, possibly with holes)
      and the step counter `t`. */
  datatype AdamState = AdamState(m: Sparse, v: Sparse, t: nat)

  /** The state `adam(alpha)` starts in: `m = []`, `v = []`, `t = 0`. */
  const Initial: AdamState := AdamState([], [], 0)

  datatype StepResult = StepResult(state: AdamState, update: real)

  /** The exponential moving average `beta * previous + (1 - beta) * x`. */
  function Ema(beta: real, previous: real, x: real): real
  {
    beta * previous + (1.0 - beta) * x
  }

  /** One call of the closure for parameter index `key`. The step size is plain `alpha`:
      the bias correction `alpha * sqrt(1 - beta2^t) / (1 - beta1^t)` is commented out. */
  function AdamStep(cfg: AdamConfig, s: AdamState, gradient: real, key: nat): StepResult
    requires cfg.Valid()
  {
    var a := cfg.alpha;
    var mk := Ema(cfg.beta1, ReadOrZero(s.m, key), gradient);
    var m := Store(s.m, key, mk);
    var vk := Ema(cfg.beta2, ReadOrZero(s.v, key), gradient * gradient);
    var v := Store(s.v, key, vk);
    var t := if Truthy(m[|m| - 1]) && key == |m| - 1 then s.t + 1 else s.t;
    StepResult(AdamState(m, v, t), AdamUpdate(a, mk, cfg.sqrt(vk), cfg.eps))
  }

  /** `a * m[key] / (Math.sqrt(v[key]) + eps)`, given the square root. */
  function AdamUpdate(a: real, mk: real, sqrtVk: real, eps: real): real
    requires sqrtVk + eps != 0.0
  {
    a * mk / (sqrtVk + eps)
  }

  /** Moments: entry `key` of `m` and `v` becomes the exponential average with the new
      gradient (absent entries read as 0); every other entry reads back unchanged. */
  lemma AdamMoments(cfg: AdamConfig, s: AdamState, gradient: real, key: nat, j: nat)
    requires cfg.Valid()
    ensures var s' := AdamStep(cfg, s, gradient, key).state;
      && ReadOrZero(s'.m, key) == cfg.beta1 * ReadOrZero(s.m, key) + (1.0 - cfg.beta1) * gradient
      && ReadOrZero(s'.v, key) == cfg.beta2 * ReadOrZero(s.v, key) + (1.0 - cfg.beta2) * (gradient * gradient)
      && (j != key ==> ReadOrZero(s'.m, j) == ReadOrZero(s.m, j) && ReadOrZero(s'.v, j) == ReadOrZero(s.v, j))
  {
    var mk := cfg.beta1 * ReadOrZero(s.m, key) + (1.0 - cfg.beta1) * gradient;
    var vk := cfg.beta2 * ReadOrZero(s.v, key) + (1.0 - cfg.beta2) * (gradient * gradient);
    ReadAfterStore(s.m, key, mk, key);
    ReadAfterStore(s.m, key, mk, j);
    ReadAfterStore(s.v, key, vk, key);
    ReadAfterStore(s.v, key, vk, j);
  }

  /** Counter: `t` grows by one exactly when `key` is the last index of `m` after the
      write and the new moment there is non-zero; otherwise it is unchanged. */
  lemma AdamCounter(cfg: AdamConfig, s: AdamState, gradient: real, key: nat)
    requires cfg.Valid()
    ensures var r := AdamStep(cfg, s, gradient, key).state;
      var mk := cfg.beta1 * ReadOrZero(s.m, key) + (1.0 - cfg.beta1) * gradient;
      && (key + 1 >= |s.m| && mk != 0.0 ==> r.t == s.t + 1)
      && (key + 1 < |s.m| || mk == 0.0 ==> r.t == s.t)
  {
  }

  /** The update is `alpha * m[key] / (sqrt(v[key]) + eps)` and does not depend on `t`. */
  lemma AdamIgnoresCounter(cfg: AdamConfig, s: AdamState, t': nat, gradient: real, key: nat)
    requires cfg.Valid()
    ensures AdamStep(cfg, s.(t := t'), gradient, key).update == AdamStep(cfg, s, gradient, key).update
    ensures AdamStep(cfg, s.(t := t'), gradient, key).state.m == AdamStep(cfg, s, gradient, key).state.m
    ensures AdamStep(cfg, s.(t := t'), gradient, key).state.v == AdamStep(cfg, s, gradient, key).state.v
  {
  }

  /** The first step from the initial state with gradient 1 at index 0: m = 0.1, v = 0.001,
      t = 1, and the update uses plain alpha. */
  lemma AdamFirstStep(sqrt: real -> real)
    requires DefaultAdam(0.01, sqrt).Valid()
    ensures var r := AdamStep(DefaultAdam(0.01, sqrt), Initial, 1.0, 0);
      && r.state == AdamState([Some(0.1)], [Some(0.001)], 1)
      && r.update == 0.01 * 0.1 / (sqrt(0.001) + 0.00000001)
  {
  }

  datatype SweepResult = SweepResult(state: AdamState, updates: seq<real>)

  /** The optimizer called once per parameter index, in index order, on `gradients`. */
  function Sweep(cfg: AdamConfig, s: AdamState, gradients: seq<real>): (r: SweepResult)
    requires cfg.Valid()
    ensures |r.updates| == |gradients|
  {
    if gradients == [] then SweepResult(s, [])
    else
      var n := |gradients| - 1;
      var prev := Sweep(cfg, s, gradients[..n]);
      var step := AdamStep(cfg, prev.state, gradients[n], n);
      SweepResult(step.state, prev.updates + [step.update])
  }

  /** A whole sweep's updates and moments do not depend on the counter `t`. */
  lemma {:induction false} SweepIgnoresCounter(cfg: AdamConfig, s: AdamState, t': nat, gradients: seq<real>)
    requires cfg.Valid()
    ensures Sweep(cfg, s.(t := t'), gradients).updates == Sweep(cfg, s, gradients).updates
    ensures Sweep(cfg, s.(t := t'), gradients).state.m == Sweep(cfg, s, gradients).state.m
    ensures Sweep(cfg, s.(t := t'), gradients).state.v == Sweep(cfg, s, gradients).state.v
  {
    if gradients != [] {
      var n := |gradients| - 1;
      SweepIgnoresCounter(cfg, s, t', gradients[..n]);
      var p1, p2 := Sweep(cfg, s.(t := t'), gradients[..n]), Sweep(cfg, s, gradients[..n]);
      assert p1.state == p2.state.(t := p1.state.t);
      AdamIgnoresCounter(cfg, p2.state, p1.state.t, gradients[n], n);
    }
  }

  /** The first sweep from the initial state over non-zero gradients: every index extends
      `m`, so `t` counts one per parameter, not one per sweep. */
  lemma {:induction false} FirstSweepCounter(cfg: AdamConfig, gradients: seq<real>)
    requires cfg.Valid()
    requires cfg.beta1 != 1.0
    requires forall k :: 0 <= k < |gradients| ==> gradients[k] != 0.0
    ensures |Sweep(cfg, Initial, gradients).state.m| == |gradients|
    ensures Sweep(cfg, Initial, gradients).state.t == |gradients|
  {
    if gradients != [] {
      var n := |gradients| - 1;
      FirstSweepCounter(cfg, gradients[..n]);
      var prev := Sweep(cfg, Initial, gradients[..n]);
      assert ReadOrZero(prev.state.m, n) == 0.0;
      assert (1.0 - cfg.beta1) * gradients[n] != 0.0;
    }
  }

  /** Once `m` covers all `n` indices, a sweep over `n` gradients advances `t` by at most one. */
  lemma {:induction false} LaterSweepCounter(cfg: AdamConfig, s: AdamState, gradients: seq<real>)
    requires cfg.Valid()
    requires |gradients| <= |s.m|
    ensures |Sweep(cfg, s, gradients).state.m| == |s.m|
    ensures |gradients| < |s.m| ==> Sweep(cfg, s, gradients).state.t == s.t
    ensures Sweep(cfg, s, gradients).state.t <= s.t + 1
  {
    if gradients != [] {
      var n := |gradients| - 1;
      LaterSweepCounter(cfg, s, gradients[..n]);
    }
  }

  /** The `adam(alpha)` closure as an object: the moment arrays and the counter are its
      fields, updated in place by every call. */
  class Adam {
    const cfg: AdamConfig
    var m: Sparse
    var v: Sparse
    var t: nat

    function State(): AdamState
      reads this
    {
      AdamState(m, v, t)
    }

    constructor (cfg: AdamConfig)
      requires cfg.Valid()
      ensures this.cfg == cfg && State() == Initial
    {
      this.cfg := cfg;
      m, v, t := [], [], 0;
    }

    /** `optimizer(param, gradient, key)`. */
    method Step(param: real, gradient: real, key: nat) returns (update: real)
      requires cfg.Valid()
      modifies this
      ensures StepResult(State(), update) == AdamStep(cfg, old(State()), gradient, key)
    {
      var a := cfg.alpha;
      m := Store(m, key, Ema(cfg.beta1, ReadOrZero(m, key), gradient));
      v := Store(v, key, Ema(cfg.beta2, ReadOrZero(v, key), gradient * gradient));
      if Truthy(m[|m| - 1]) {
        if key == |m| - 1 {
          t := t + 1;
        }
      }
      update := AdamUpdate(a, m[key].value, cfg.sqrt(v[key].value), cfg.eps);
    }
  }
}
