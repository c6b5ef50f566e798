/** The coordinator of `lib/master.js`: collects the episodes workers report into
    blocks, commits and broadcasts a block once it is large enough, and hands newly
    connected workers the committed history. */
module Master {
  import opened JsArray
  import opened JsSparse
  import opened Protocol

  /** The kinds of value `opts.blockSize` can hold, as far as the coordinator looks. */
  datatype BlockSizeOption =
    | NumberOption(size: real)            // `typeof opts.blockSize === 'number'`
    | FunctionOption(policy: nat -> real) // `typeof opts.blockSize === 'function'`
    | OtherOption                         // absent, or anything else

  /** The block-size policy, from the number of connected clients to the threshold a
      block's length is compared with. */
  function BlockSizePolicy(opt: BlockSizeOption): nat -> real
  {
    match opt
    case NumberOption(size) => (clients: nat) => size
    case FunctionOption(policy) => policy
    case OtherOption => (clients: nat) => clients as real
  }

  /** A numeric option is a constant threshold, a function option is used as given,
      and otherwise the threshold is the number of connected clients. */
  lemma BlockSizePolicyCases(opt: BlockSizeOption, clients: nat)
    ensures opt.NumberOption? ==> BlockSizePolicy(opt)(clients) == opt.size
    ensures opt.FunctionOption? ==> BlockSizePolicy(opt)(clients) == opt.policy(clients)
    ensures opt.OtherOption? ==> BlockSizePolicy(opt)(clients) == clients as real
  {
  }

  /** `value || fallback` for an optional number: absent and 0 are both falsy. */
  function OrDefault(value: Option<real>, fallback: real): (r: real)
    ensures value.Some? && value.value != 0.0 ==> r == value.value
    ensures value.None? || value.value == 0.0 ==> r == fallback
  {
    if value.Some? && value.value != 0.0 then value.value else fallback
  }

  /** The `sigma` a coordinator announces is never 0, whatever was configured, so a
      worker never divides by `blockSize * sigma == 0` when applying an update. */
  lemma AnnouncedSigmaNonZero(sigma: Option<real>)
    ensures OrDefault(sigma, 0.1) != 0.0
    ensures OrDefault(sigma, 0.01) != 0.0
  {
  }

  /** What the coordinator keeps between events. */
  datatype CoordinatorState = CoordinatorState(
    blocks: seq<Block>,
    totalReward: real,
    totalEpisodes: nat,
    smoothAverage: real)

  /** The state when the coordinator starts: one open, empty block and zero counters. */
  const Start := CoordinatorState([[]], 0.0, 0, 0.0)

  /** The state after an event, and the block broadcast to every worker, if any. */
  datatype Step = Step(state: CoordinatorState, broadcast: Option<Block>)

  /** The `'episode'` handler, with `threshold` the value of `blockSize(clientsCount)`:
      the episode joins the open block; if the block has reached the threshold it is
      broadcast, the smoothed score moves 5% towards the block's average reward, and a
      new empty block is opened. */
  function EpisodeStep(s: CoordinatorState, episode: Episode, threshold: real): Step
    requires s.blocks != []
  {
    var last := |s.blocks| - 1;
    var open := s.blocks[last] + [episode];
    var state := s.(blocks := s.blocks[last := open],
                    totalReward := s.totalReward + episode.reward,
                    totalEpisodes := s.totalEpisodes + 1);
    if |open| as real >= threshold then
      var blockAverage := Mean(Rewards(open));
      Step(state.(blocks := state.blocks + [[]],
                  smoothAverage := 0.05 * blockAverage + 0.95 * s.smoothAverage),
           Some(open))
    else Step(state, None)
  }

  /** One report: the episode and the number of clients connected when it arrived. */
  datatype Arrival = Arrival(episode: Episode, clients: nat)

  /** The coordinator after a sequence of reports, with every block it broadcast, in
      order. */
  datatype Run = Run(state: CoordinatorState, broadcasts: seq<Block>)

  function RunEpisodes(policy: nat -> real, arrivals: seq<Arrival>): (r: Run)
    ensures r.state.blocks != []
  {
    if arrivals == [] then Run(Start, [])
    else
      var before := RunEpisodes(policy, arrivals[..|arrivals| - 1]);
      var a := arrivals[|arrivals| - 1];
      var step := EpisodeStep(before.state, a.episode, policy(a.clients));
      Run(step.state, before.broadcasts + if step.broadcast.Some? then [step.broadcast.value] else [])
  }

  /** Episode append: the episode lands at the end of the open block, the counters move
      by one episode and its reward, and no committed block changes. */
  lemma EpisodeAppends(s: CoordinatorState, episode: Episode, threshold: real)
    requires s.blocks != []
    ensures var r := EpisodeStep(s, episode, threshold).state;
      && r.blocks[|s.blocks| - 1] == s.blocks[|s.blocks| - 1] + [episode]
      && r.blocks[..|s.blocks| - 1] == s.blocks[..|s.blocks| - 1]
      && r.totalEpisodes == s.totalEpisodes + 1
      && r.totalReward == s.totalReward + episode.reward
  {
  }

  /** Commit rule: a block is broadcast exactly when, with the new episode, its length is
      at least the threshold; then exactly one empty block is opened and the smoothed
      score takes in the block's average; otherwise the number of blocks and the score
      stay as they were. */
  lemma CommitRule(s: CoordinatorState, episode: Episode, threshold: real)
    requires s.blocks != []
    ensures var step := EpisodeStep(s, episode, threshold);
      var open := s.blocks[|s.blocks| - 1] + [episode];
      && (step.broadcast.Some? <==> |open| as real >= threshold)
      && (step.broadcast.Some? ==>
            && step.broadcast.value == open
            && step.state.blocks == s.blocks[..|s.blocks| - 1] + [open, []]
            && step.state.smoothAverage == 0.05 * Mean(Rewards(open)) + 0.95 * s.smoothAverage)
      && (step.broadcast.None? ==>
            && step.state.blocks == s.blocks[..|s.blocks| - 1] + [open]
            && step.state.smoothAverage == s.smoothAverage)
  {
  }

  /** The blocks after any run are the blocks broadcast, in broadcast order, followed by
      the open block: history is append-only, and no committed block is empty. */
  lemma {:induction false} BlocksAreBroadcasts(policy: nat -> real, arrivals: seq<Arrival>)
    ensures var r := RunEpisodes(policy, arrivals);
      && r.state.blocks == r.broadcasts + [r.state.blocks[|r.state.blocks| - 1]]
      && forall i :: 0 <= i < |r.broadcasts| ==> r.broadcasts[i] != []
  {
    if arrivals != [] {
      var prefix := arrivals[..|arrivals| - 1];
      BlocksAreBroadcasts(policy, prefix);
      var before := RunEpisodes(policy, prefix);
      var a := arrivals[|arrivals| - 1];
      CommitRule(before.state, a.episode, policy(a.clients));
    }
  }

  /** Append-only history: a later run starts with everything an earlier run broadcast,
      in the same order. */
  lemma {:induction false} BroadcastsGrow(policy: nat -> real, arrivals: seq<Arrival>, n: nat)
    requires n <= |arrivals|
    ensures var earlier := RunEpisodes(policy, arrivals[..n]).broadcasts;
      var later := RunEpisodes(policy, arrivals).broadcasts;
      |earlier| <= |later| && later[..|earlier|] == earlier
    decreases |arrivals| - n
  {
    if n < |arrivals| {
      BroadcastsGrow(policy, arrivals[..|arrivals| - 1], n);
      assert arrivals[..|arrivals| - 1][..n] == arrivals[..n];
    } else {
      assert arrivals[..n] == arrivals;
    }
  }

  /** With a constant threshold of `c` episodes, every committed block holds exactly `c`
      episodes and the open block fewer than `c`. */
  lemma {:induction false} ConstantThreshold(c: nat, arrivals: seq<Arrival>)
    requires c >= 1
    ensures var r := RunEpisodes(BlockSizePolicy(NumberOption(c as real)), arrivals);
      && (forall i :: 0 <= i < |r.broadcasts| ==> |r.broadcasts[i]| == c)
      && |r.state.blocks[|r.state.blocks| - 1]| < c
  {
    var policy := BlockSizePolicy(NumberOption(c as real));
    if arrivals != [] {
      var prefix := arrivals[..|arrivals| - 1];
      ConstantThreshold(c, prefix);
      var before := RunEpisodes(policy, prefix);
      var a := arrivals[|arrivals| - 1];
      CommitRule(before.state, a.episode, policy(a.clients));
    }
  }

  /** Late-joiner history: a worker connecting after a run receives every broadcast block
      except the most recent one. */
  lemma HistoryIsAllButNewestBroadcast(policy: nat -> real, arrivals: seq<Arrival>)
    ensures var r := RunEpisodes(policy, arrivals);
      History(r.state.blocks) == if r.broadcasts == [] then [] else r.broadcasts[..|r.broadcasts| - 1]
  {
    BlocksAreBroadcasts(policy, arrivals);
    var r := RunEpisodes(policy, arrivals);
    HistoryWithholdsLastTwo(r.state.blocks);
  }

  /** The coordinator process: its configuration and the state the handlers update. */
  class Coordinator {
    const blockSize: nat -> real
    const sigma: real
    const alpha: real
    var blocks: seq<Block>
    var totalReward: real
    var totalEpisodes: nat
    var smoothAverage: real

    function State(): CoordinatorState
      reads this
    {
      CoordinatorState(blocks, totalReward, totalEpisodes, smoothAverage)
    }

    /** `module.exports(opts)`: the policy chosen from `opts.blockSize`, `sigma` and
        `alpha` defaulting to 0.1 and 0.01 when falsy, and the start state. */
    constructor (blockSizeOption: BlockSizeOption, sigmaOption: Option<real>, alphaOption: Option<real>)
      ensures blockSize == BlockSizePolicy(blockSizeOption)
      ensures sigma == OrDefault(sigmaOption, 0.1) && alpha == OrDefault(alphaOption, 0.01)
      ensures sigma != 0.0 && alpha != 0.0
      ensures State() == Start
    {
      blockSize := BlockSizePolicy(blockSizeOption);
      sigma := OrDefault(sigmaOption, 0.1);
      alpha := OrDefault(alphaOption, 0.01);
      blocks := [[]];
      totalReward := 0.0;
      smoothAverage := 0.0;
      totalEpisodes := 0;
    }

    /** The `'connection'` handler: the `initialize` message's history and hyperparameters.
        Only reads the state. */
    method Connect() returns (history: seq<Block>, sigma: real, alpha: real)
      ensures history == if |blocks| >= 2 then blocks[..|blocks| - 2] else []
      ensures sigma == this.sigma && alpha == this.alpha
    {
      history := Slice(blocks, 0, |blocks| - 2);
      HistoryWithholdsLastTwo(blocks);
      sigma, alpha := this.sigma, this.alpha;
    }

    /** The `'episode'` handler, with the number of connected clients as a parameter;
        returns the block broadcast to every worker, if any. */
    method OnEpisode(reward: real, noiseIndex: int, clientsCount: nat) returns (broadcast: Option<Block>)
      requires blocks != []
      modifies this
      ensures Step(State(), broadcast)
           == EpisodeStep(old(State()), Episode(reward, noiseIndex), blockSize(clientsCount))
    {
      totalReward := totalReward + reward;
      totalEpisodes := totalEpisodes + 1;
      var last := |blocks| - 1;
      blocks := blocks[last := blocks[last] + [Episode(reward, noiseIndex)]];
      if |blocks[last]| as real >= blockSize(clientsCount) {
        broadcast := Some(blocks[last]);
        var blockAverage := Sum(Rewards(blocks[last])) / |blocks[last]| as real;
        smoothAverage := 0.05 * blockAverage + 0.95 * smoothAverage;
        blocks := blocks + [[]];
      } else {
        broadcast := None;
      }
    }
  }
}
