/** The pipeline stage executor: the per-message closure of `Run`. It decodes the
    pack if needed, routes and filters it, delivers it to every selected output
    that exists, and on every exit path resets the pack and sends it back to the
    pool. */
module Stage {
  import opened PipelineTypes
  import opened PipelinePacks
  import opened Router
  import opened RecyclePools

  /** Where a cycle left the closure. */
  datatype Exit = MissingDecoder | DecodeFailed | Blocked | Completed

  /** What one cycle did: how it ended, whether the decoder was called, the
      filters invoked in order, the outputs delivered to (unordered), and the
      pack's state just before the finaliser. */
  datatype Trace = Trace(
    exit: Exit,
    decoderCalled: bool,
    filtersRun: seq<string>,
    delivered: multiset<string>,
    after: PackState)

  /** Reference definition of the delivery loop: one delivery per name selected
      with `true` that names an output instance of the pack. */
  function Deliveries(outputNames: map<string, bool>, present: set<string>): (d: multiset<string>)
    ensures forall name :: d[name] == if name in outputNames && outputNames[name] && name in present then 1 else 0
  {
    multiset(set name | name in outputNames && outputNames[name] && name in present)
  }

  /** Whether a cycle gets past the decode step. */
  predicate ReachesRouting(s: PackState, ext: Externals) {
    s.decoded || (s.decoder in s.decoders && ext.decode.DecodeOk?)
  }

  /** The pack's state when routing starts: the decoded message in place. */
  function AtRouting(s: PackState, ext: Externals): (r: PackState)
    requires ReachesRouting(s, ext)
    ensures r.decoded
    ensures s.decoded ==> r == s
    ensures !s.decoded ==> r.message == ext.decode.msg
    ensures r.(message := s.message, decoded := s.decoded) == s
  {
    if s.decoded then s else s.(message := ext.decode.msg, decoded := true)
  }

  /** Every filter the selected chain names has an instance in the pack, for a
      cycle that reaches routing. */
  predicate FilterLookupsSafe(s: PackState, cfg: Config, ext: Externals) {
    ReachesRouting(s, ext) ==> ChainFiltersPresent(s.filters.Keys, cfg, ChainOf(AtRouting(s, ext), ext))
  }

  /** One message cycle, up to the finaliser. */
  function Cycle(s: PackState, cfg: Config, ext: Externals): (t: Trace)
    ensures t.decoderCalled <==> !s.decoded && s.decoder in s.decoders
    ensures t.exit.MissingDecoder? <==> !s.decoded && s.decoder !in s.decoders
    ensures t.exit.DecodeFailed? <==> t.decoderCalled && ext.decode.DecodeErr?
    ensures t.exit.MissingDecoder? || t.exit.DecodeFailed? ==>
      t.after == s && t.filtersRun == [] && t.delivered == multiset{}
    ensures t.exit.Blocked? || t.exit.Completed? ==>
      ReachesRouting(s, ext) && t.after.decoded && t.after == Routed(AtRouting(s, ext), cfg, ext)
    ensures t.exit.Blocked? || t.exit.Completed? ==> t.filtersRun == FiltersRun(AtRouting(s, ext), cfg, ext)
    ensures t.exit.Blocked? <==> ReachesRouting(s, ext) && t.after.blocked
    ensures !t.exit.Completed? ==> t.delivered == multiset{}
    ensures t.exit.Completed? ==> t.delivered == Deliveries(t.after.outputNames, s.outputs.Keys)
  {
    if !s.decoded && s.decoder !in s.decoders then
      Trace(MissingDecoder, false, [], multiset{}, s)
    else if !s.decoded && ext.decode.DecodeErr? then
      Trace(DecodeFailed, true, [], multiset{}, s)
    else
      var d := AtRouting(s, ext);
      var r := Routed(d, cfg, ext);
      var run := FiltersRun(d, cfg, ext);
      if r.blocked then Trace(Blocked, !s.decoded, run, multiset{}, r)
      else Trace(Completed, !s.decoded, run, Deliveries(r.outputNames, r.outputs.Keys), r)
  }

  /** A message routed to a chain that does not exist runs no filter and reaches
      no output. */
  lemma UnknownChainDeliversNothing(s: PackState, cfg: Config, ext: Externals)
    requires ReachesRouting(s, ext)
    requires ChainOf(AtRouting(s, ext), ext) !in cfg.filterChains
    ensures Cycle(s, cfg, ext).filtersRun == []
    ensures Cycle(s, cfg, ext).delivered == multiset{}
  {
    var t := Cycle(s, cfg, ext);
    if t.exit.Completed? {
      assert t.after.outputNames == map[];
    }
  }

  /** A completed cycle through a known chain delivers exactly once to each output
      the chain lists that the pack has an instance of, and to nothing else. */
  lemma DeliveredOncePerChainOutput(s: PackState, cfg: Config, ext: Externals)
    requires ReachesRouting(s, ext)
    requires ChainOf(AtRouting(s, ext), ext) in cfg.filterChains
    requires Cycle(s, cfg, ext).exit.Completed?
    ensures forall name :: Cycle(s, cfg, ext).delivered[name] ==
                           if name in cfg.filterChains[ChainOf(AtRouting(s, ext), ext)].outputs && name in s.outputs then 1 else 0
  {
    var t := Cycle(s, cfg, ext);
    var chain := cfg.filterChains[ChainOf(AtRouting(s, ext), ext)];
    assert t.after.filterChain == ChainOf(AtRouting(s, ext), ext);
    forall name
      ensures t.delivered[name] == if name in chain.outputs && name in s.outputs then 1 else 0
    {
      assert name in t.after.outputNames <==> name in chain.outputs;
    }
  }

  /** A filter that blocks stops the cycle: nothing after it in the chain runs and
      no output is delivered to. */
  lemma BlockingFilterStopsCycle(s: PackState, cfg: Config, ext: Externals, j: nat)
    requires ReachesRouting(s, ext)
    requires ChainOf(AtRouting(s, ext), ext) in cfg.filterChains
    requires j < |cfg.filterChains[ChainOf(AtRouting(s, ext), ext)].filters|
    requires ext.filterBlocks(cfg.filterChains[ChainOf(AtRouting(s, ext), ext)].filters[j])
    ensures Cycle(s, cfg, ext).exit.Blocked?
    ensures |Cycle(s, cfg, ext).filtersRun| <= j + 1
    ensures Cycle(s, cfg, ext).delivered == multiset{}
  {
    var filters := cfg.filterChains[ChainOf(AtRouting(s, ext), ext)].filters;
    assert BlockedAfter(filters, ext.filterBlocks, false);
  }

  /** The delivery loop over the unordered output selection: names mapped to false
      are skipped, and a name without an output instance is skipped without
      stopping the rest. */
  method DeliverAll(pack: PipelinePack) returns (delivered: multiset<string>)
    ensures delivered == Deliveries(pack.outputNames, pack.outputs.Keys)
  {
    delivered := multiset{};
    var pending := pack.outputNames.Keys;
    while pending != {}
      invariant pending <= pack.outputNames.Keys
      invariant forall name :: delivered[name] ==
                               if name in pack.outputNames && name !in pending && pack.outputNames[name] && name in pack.outputs then 1 else 0
      decreases pending
    {
      var name :| name in pending;
      pending := pending - {name};
      if !pack.outputNames[name] {
        continue;
      }
      if name !in pack.outputs {
        continue;
      }
      delivered := delivered + multiset{name};
    }
    assert forall name :: delivered[name] == Deliveries(pack.outputNames, pack.outputs.Keys)[name];
  }

  /** The body of the pipeline closure, with its early returns. */
  method RunStages(pack: PipelinePack, ext: Externals) returns (trace: Trace)
    requires pack.Valid()
    requires FilterLookupsSafe(pack.State(), pack.config, ext)
    modifies pack
    ensures pack.Valid()
    ensures trace == Cycle(old(pack.State()), pack.config, ext)
    ensures pack.State() == trace.after
  {
    ghost var s := pack.State();
    var decoderCalled := false;
    if !pack.decoded {
      if pack.decoder !in pack.decoders {
        trace := Trace(MissingDecoder, false, [], multiset{}, pack.State());
        return;
      }
      decoderCalled := true;
      match ext.decode
      case DecodeErr =>
        trace := Trace(DecodeFailed, true, [], multiset{}, pack.State());
        return;
      case DecodeOk(msg) =>
        pack.message := msg;
        pack.decoded := true;
    }
    assert pack.State() == AtRouting(s, ext);
    var run := FilterProcessor(pack, ext);
    if pack.blocked {
      trace := Trace(Blocked, decoderCalled, run, multiset{}, pack.State());
      return;
    }
    var delivered := DeliverAll(pack);
    trace := Trace(Completed, decoderCalled, run, delivered, pack.State());
  }

  /** The pipeline closure: the stages, then the deferred reset and send back to
      the pool, which runs once whichever way the stages ended. */
  method Pipeline(pack: PipelinePack, pool: RecyclePool, ext: Externals) returns (trace: Trace)
    requires pool.Valid() && pack in pool.lent
    requires pack.Valid() && pack.config == pool.config
    requires FilterLookupsSafe(pack.State(), pack.config, ext)
    modifies pack, pool
    ensures trace == Cycle(old(pack.State()), pool.config, ext)
    ensures pool.Valid()
    ensures pool.queue == old(pool.queue) + [pack] && pool.lent == old(pool.lent) - {pack}
    ensures pack.State() == Zeroed(trace.after, pool.config)
  {
    trace := RunStages(pack, ext);
    pool.Recycle(pack);
  }

  /** An unroutable message falls back to the default chain "default", which has
      no filters and the single output "out1": "out1" is delivered to once. */
  lemma DefaultChainScenario(s: PackState, cfg: Config, ext: Externals)
    requires IsZero(s, cfg) && cfg.defaultFilterChain == "default"
    requires "default" in cfg.filterChains && cfg.filterChains["default"] == Chain([], ["out1"])
    requires s.decoder in s.decoders && ext.decode.DecodeOk?
    requires ext.locateChain(ext.decode.msg).None?
    requires "out1" in s.outputs
    ensures Cycle(s, cfg, ext).exit.Completed?
    ensures Cycle(s, cfg, ext).after.filterChain == "default"
    ensures Cycle(s, cfg, ext).filtersRun == []
    ensures Cycle(s, cfg, ext).delivered == multiset{"out1"}
  {
    var t := Cycle(s, cfg, ext);
    assert t.after.outputNames == map["out1" := true];
    assert t.delivered["out1"] == 1;
  }

  /** A chain ["block-all", "noop"] whose first filter always blocks: "noop" never
      runs, "out1" is not delivered to, and the recycled pack is unblocked. */
  lemma BlockAllScenario(s: PackState, cfg: Config, ext: Externals)
    requires s.decoded && !s.blocked
    requires ext.locateChain(s.message) == Some("blocking")
    requires "blocking" in cfg.filterChains
    requires cfg.filterChains["blocking"] == Chain(["block-all", "noop"], ["out1"])
    requires ext.filterBlocks("block-all") && !ext.filterBlocks("noop")
    ensures Cycle(s, cfg, ext).exit.Blocked?
    ensures Cycle(s, cfg, ext).filtersRun == ["block-all"]
    ensures Cycle(s, cfg, ext).delivered == multiset{}
    ensures !Zeroed(Cycle(s, cfg, ext).after, cfg).blocked
  {
    var filters := cfg.filterChains["blocking"].filters;
    assert FirstBlocking(filters, ext.filterBlocks) == 0;
    assert filters[..1] == ["block-all"];
  }

  /** A decode error runs no filter and no output, and the recycled pack is not
      marked decoded. */
  lemma DecodeErrorScenario(s: PackState, cfg: Config, ext: Externals)
    requires !s.decoded && s.decoder in s.decoders && ext.decode.DecodeErr?
    ensures Cycle(s, cfg, ext).exit.DecodeFailed?
    ensures Cycle(s, cfg, ext).filtersRun == [] && Cycle(s, cfg, ext).delivered == multiset{}
    ensures !Zeroed(Cycle(s, cfg, ext).after, cfg).decoded
  {
  }
}
