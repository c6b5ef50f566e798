/** The vocabulary shared by the coordinator and its workers. */
module Protocol {
  import opened JsArray

  /** One reported evaluation: the handle of the perturbation and the reward it earned. */
  datatype Episode = Episode(reward: real, noiseIndex: int)

  /** A batch of episodes, committed and broadcast together. */
  type Block = seq<Episode>

  /** The rewards of a block, in order (`block.map(ep => ep.reward)`). */
  function Rewards(block: Block): (rs: seq<real>)
    ensures |rs| == |block|
    ensures forall k :: 0 <= k < |block| ==> rs[k] == block[k].reward
  {
    seq(|block|, k requires 0 <= k < |block| => block[k].reward)
  }

  /** The history a coordinator sends a newly connected worker in its `initialize`
      message: `blocks.slice(0, blocks.length - 2)`. */
  function History(blocks: seq<Block>): seq<Block>
  {
    Slice(blocks, 0, |blocks| - 2)
  }

  /** The history is every block but the last two: the open block and the most recently
      committed one are both withheld (nothing is sent while fewer than three blocks exist). */
  lemma HistoryWithholdsLastTwo(blocks: seq<Block>)
    ensures History(blocks) == if |blocks| >= 2 then blocks[..|blocks| - 2] else []
  {
  }
}
