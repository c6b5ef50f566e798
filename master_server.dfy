/** The stand-alone coordinator of `examples/master-server.js`: fixed blocks of 25
    episodes and fixed hyperparameters. */
module MasterServer {
  import opened JsArray
  import opened JsSparse
  import opened Protocol

  /** `const blockSize = 25`. */
  const BlockSize: nat := 25

  /** What the server keeps between events. */
  datatype ServerState = ServerState(blocks: seq<Block>, totalReward: real, totalEpisodes: nat)

  const Start := ServerState([[]], 0.0, 0)

  /** The state after an event, and the block broadcast to every worker, if any. */
  datatype Step = Step(state: ServerState, broadcast: Option<Block>)

  /** The `'episode'` handler: the episode joins the open block, and a block of exactly
      25 episodes is broadcast and followed by a new empty block. */
  function EpisodeStep(s: ServerState, episode: Episode): Step
    requires s.blocks != []
  {
    var last := |s.blocks| - 1;
    var open := s.blocks[last] + [episode];
    var state := ServerState(s.blocks[last := open], s.totalReward + episode.reward, s.totalEpisodes + 1);
    if |open| == BlockSize then Step(state.(blocks := state.blocks + [[]]), Some(open))
    else Step(state, None)
  }

  /** The blocks between events: never empty, every committed block exactly 25 long,
      and the open block shorter (0 to 24 episodes). */
  ghost predicate Valid(s: ServerState)
  {
    && s.blocks != []
    && (forall i :: 0 <= i < |s.blocks| - 1 ==> |s.blocks[i]| == BlockSize)
    && |s.blocks[|s.blocks| - 1]| < BlockSize
  }

  /** The `'episode'` handler keeps the blocks valid, appends the episode to the open
      block, leaves every committed block alone, moves both counters, and commits
      exactly when the open block reaches 25. */
  lemma EpisodeStepKeepsValid(s: ServerState, episode: Episode)
    requires Valid(s)
    ensures var step := EpisodeStep(s, episode);
      var open := s.blocks[|s.blocks| - 1] + [episode];
      && Valid(step.state)
      && step.state.blocks[..|s.blocks| - 1] == s.blocks[..|s.blocks| - 1]
      && step.state.blocks[|s.blocks| - 1] == open
      && step.state.totalEpisodes == s.totalEpisodes + 1
      && step.state.totalReward == s.totalReward + episode.reward
      && (step.broadcast.Some? <==> |open| == BlockSize)
      && (step.broadcast.Some? ==> step.broadcast.value == open && |step.state.blocks| == |s.blocks| + 1)
      && (step.broadcast.None? ==> |step.state.blocks| == |s.blocks|)
  {
    var step := EpisodeStep(s, episode);
    var n := |s.blocks|;
    if step.broadcast.Some? {
      assert step.state.blocks == s.blocks[..n - 1] + [s.blocks[n - 1] + [episode], []];
    }
  }

  /** The server after a sequence of reports, with every block it broadcast, in order. */
  datatype Run = Run(state: ServerState, broadcasts: seq<Block>)

  function RunEpisodes(episodes: seq<Episode>): (r: Run)
    ensures Valid(r.state)
  {
    if episodes == [] then Run(Start, [])
    else
      var before := RunEpisodes(episodes[..|episodes| - 1]);
      EpisodeStepKeepsValid(before.state, episodes[|episodes| - 1]);
      var step := EpisodeStep(before.state, episodes[|episodes| - 1]);
      Run(step.state, before.broadcasts + if step.broadcast.Some? then [step.broadcast.value] else [])
  }

  /** The blocks after any run are the blocks broadcast, in order, each of exactly 25
      episodes, followed by the open block. */
  lemma {:induction false} BlocksAreBroadcasts(episodes: seq<Episode>)
    ensures var r := RunEpisodes(episodes);
      && r.state.blocks == r.broadcasts + [r.state.blocks[|r.state.blocks| - 1]]
      && forall i :: 0 <= i < |r.broadcasts| ==> |r.broadcasts[i]| == BlockSize
  {
    if episodes != [] {
      var prefix := episodes[..|episodes| - 1];
      BlocksAreBroadcasts(prefix);
      EpisodeStepKeepsValid(RunEpisodes(prefix).state, episodes[|episodes| - 1]);
    }
  }

  /** Append-only history: a later run starts with everything an earlier run broadcast,
      in the same order. */
  lemma {:induction false} BroadcastsGrow(episodes: seq<Episode>, n: nat)
    requires n <= |episodes|
    ensures var earlier := RunEpisodes(episodes[..n]).broadcasts;
      var later := RunEpisodes(episodes).broadcasts;
      |earlier| <= |later| && later[..|earlier|] == earlier
    decreases |episodes| - n
  {
    if n < |episodes| {
      BroadcastsGrow(episodes[..|episodes| - 1], n);
      assert episodes[..|episodes| - 1][..n] == episodes[..n];
    } else {
      assert episodes[..n] == episodes;
    }
  }

  /** Every 25 reports commit one block: after `n` reports, `n / 25` blocks have been
      broadcast and the open block holds the remaining `n % 25`. */
  lemma {:induction false} BroadcastCount(episodes: seq<Episode>)
    ensures var r := RunEpisodes(episodes);
      && |r.broadcasts| == |episodes| / BlockSize
      && |r.state.blocks[|r.state.blocks| - 1]| == |episodes| % BlockSize
  {
    if episodes != [] {
      var prefix := episodes[..|episodes| - 1];
      BroadcastCount(prefix);
      EpisodeStepKeepsValid(RunEpisodes(prefix).state, episodes[|episodes| - 1]);
    }
  }

  /** Late-joiner history: every broadcast block except the most recent one. */
  lemma HistoryIsAllButNewestBroadcast(episodes: seq<Episode>)
    ensures var r := RunEpisodes(episodes);
      History(r.state.blocks) == if r.broadcasts == [] then [] else r.broadcasts[..|r.broadcasts| - 1]
  {
    BlocksAreBroadcasts(episodes);
    HistoryWithholdsLastTwo(RunEpisodes(episodes).state.blocks);
  }

  /** The server process. */
  class Server {
    var blocks: seq<Block>
    var totalReward: real
    var totalEpisodes: nat

    function State(): ServerState
      reads this
    {
      ServerState(blocks, totalReward, totalEpisodes)
    }

    constructor ()
      ensures State() == Start
    {
      blocks := [[]];
      totalReward := 0.0;
      totalEpisodes := 0;
    }

    /** The `'connection'` handler: the `initialize` message's history and its fixed
        hyperparameters `sigma = 0.2`, `alpha = 0.2`. Only reads the state. */
    method Connect() returns (history: seq<Block>, sigma: real, alpha: real)
      ensures history == if |blocks| >= 2 then blocks[..|blocks| - 2] else []
      ensures sigma == 0.2 && alpha == 0.2
    {
      history := Slice(blocks, 0, |blocks| - 2);
      HistoryWithholdsLastTwo(blocks);
      sigma, alpha := 0.2, 0.2;
    }

    /** The `'episode'` handler; returns the block broadcast to every worker, if any. */
    method OnEpisode(reward: real, noiseIndex: int) returns (broadcast: Option<Block>)
      requires blocks != []
      modifies this
      ensures Step(State(), broadcast) == EpisodeStep(old(State()), Episode(reward, noiseIndex))
    {
      totalReward := totalReward + reward;
      totalEpisodes := totalEpisodes + 1;
      var last := |blocks| - 1;
      blocks := blocks[last := blocks[last] + [Episode(reward, noiseIndex)]];
      if |blocks[last]| == BlockSize {
        broadcast := Some(blocks[last]);
        blocks := blocks + [[]];
      } else {
        broadcast := None;
      }
    }
  }
}
