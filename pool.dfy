/** The pack pool: the buffered recycle channel of `Run`, holding the packs no
    stage currently owns, in FIFO order. Blocking sends and receives are not
    modelled: an acquire on an empty pool reports that it would wait. */
module RecyclePools {
  import opened PipelineTypes
  import opened PipelinePacks

  class RecyclePool {
    const config: Config
    /** The channel's buffer size, PoolSize + 1. */
    const capacity: nat
    /** The packs buffered in the channel, oldest first. */
    var queue: seq<PipelinePack>
    /** The packs handed out and not yet sent back. */
    ghost var lent: set<PipelinePack>

    /** Queued + outstanding = PoolSize, no pack is queued twice or both queued
        and lent, and every queued pack is reset. */
    ghost predicate Valid()
      reads this, queue
    {
      && capacity == config.poolSize + 1
      && |queue| + |lent| == config.poolSize
      && (forall i, j :: 0 <= i < j < |queue| ==> queue[i] != queue[j])
      && (forall i :: 0 <= i < |queue| ==> queue[i] !in lent)
      && (forall i :: 0 <= i < |queue| ==>
            queue[i].Valid() && queue[i].config == config && IsZero(queue[i].State(), config))
    }

    /** Makes the channel with PoolSize + 1 slots and sends it PoolSize new packs. */
    constructor (config: Config)
      ensures Valid()
      ensures this.config == config && |queue| == config.poolSize && lent == {}
      ensures forall i :: 0 <= i < |queue| ==> fresh(queue[i])
    {
      var packs: seq<PipelinePack> := [];
      var i := 0;
      while i < config.poolSize
        invariant 0 <= i <= config.poolSize
        invariant |packs| == i
        invariant forall k :: 0 <= k < |packs| ==> fresh(packs[k])
        invariant forall k, l :: 0 <= k < l < |packs| ==> packs[k] != packs[l]
        invariant forall k :: 0 <= k < |packs| ==>
          packs[k].Valid() && packs[k].config == config && IsZero(packs[k].State(), config)
      {
        var pack := new PipelinePack(config);
        packs := packs + [pack];
        i := i + 1;
      }
      this.config := config;
      capacity := config.poolSize + 1;
      queue := packs;
      lent := {};
    }

    /** Receives the oldest queued pack, or returns null where the receive would
        wait because every pack is outstanding. */
    method Acquire() returns (pack: PipelinePack?)
      requires Valid()
      modifies this
      ensures Valid()
      ensures old(queue) == [] <==> pack == null
      ensures pack == null ==> queue == old(queue) && lent == old(lent)
      ensures pack != null ==>
        && pack == old(queue)[0] && queue == old(queue)[1..] && lent == old(lent) + {pack}
        && pack.Valid() && pack.config == config && IsZero(pack.State(), config)
    {
      if queue == [] {
        return null;
      }
      pack := queue[0];
      queue := queue[1..];
      lent := lent + {pack};
    }

    /** The deferred finaliser of the pipeline stage: reset the pack and send it
        back. The send never finds the channel full. */
    method Recycle(pack: PipelinePack)
      requires Valid() && pack in lent && pack.Valid() && pack.config == config
      modifies this, pack
      ensures Valid()
      ensures queue == old(queue) + [pack] && |queue| < capacity
      ensures lent == old(lent) - {pack}
      ensures pack.State() == Zeroed(old(pack.State()), config)
    {
      pack.Zero();
      assert |lent - {pack}| == |lent| - 1;
      queue := queue + [pack];
      lent := lent - {pack};
    }
  }

  /** A pool of one pack, as with two inputs sharing PoolSize = 1: the second
      acquire finds nothing until the first pack is recycled. */
  method SinglePackPool(config: Config) returns (first: PipelinePack?, second: PipelinePack?, again: PipelinePack?)
    requires config.poolSize == 1
    ensures first != null && second == null && again == first
  {
    var pool := new RecyclePool(config);
    first := pool.Acquire();
    second := pool.Acquire();
    pool.Recycle(first);
    again := pool.Acquire();
  }
}
