/** The chain router and filter runner: picks the filter chain for a decoded
    message, marks the chain's outputs and runs its filters until one blocks. */
module Router {
  import opened PipelineTypes
  import opened PipelinePacks

  /** The chain a pack is routed through: the lookup's match, else the chain the
      pack already names. */
  function SelectChain(located: Option<string>, current: string): (chain: string)
    ensures located.Some? ==> chain == located.value
    ensures located.None? ==> chain == current
  {
    match located
    case Some(name) => name
    case None => current
  }

  /** The output selection a chain makes: each of its outputs mapped to true. */
  function SelectedOutputs(outputs: seq<string>): (m: map<string, bool>)
    ensures forall name :: name in m <==> name in outputs
    ensures forall name :: name in m ==> m[name]
  {
    map name | name in outputs :: true
  }

  /** Index of the first filter that blocks, or the number of filters when none does. */
  function FirstBlocking(filters: seq<string>, blocks: string -> bool): (k: nat)
    ensures k <= |filters|
    ensures forall j :: 0 <= j < k ==> !blocks(filters[j])
    ensures k < |filters| ==> blocks(filters[k])
    decreases |filters|
  {
    if filters == [] || blocks(filters[0]) then 0
    else 1 + FirstBlocking(filters[1..], blocks)
  }

  /** How many filters of a chain are invoked when the pack enters the filter loop
      with `Blocked` equal to `blockedIn`: the loop tests the flag only after a
      filter has run. */
  function RunCount(filters: seq<string>, blocks: string -> bool, blockedIn: bool): (k: nat)
    ensures k <= |filters|
    ensures filters != [] ==> 1 <= k
    ensures blockedIn && filters != [] ==> k == 1
    ensures !blockedIn ==> forall j :: 0 <= j < k - 1 ==> !blocks(filters[j])
    ensures !blockedIn ==> forall j :: 0 <= j < |filters| && blocks(filters[j]) ==> k <= j + 1
    ensures k < |filters| ==> blockedIn || blocks(filters[k - 1])
  {
    if filters == [] then 0
    else if blockedIn then 1
    else
      var first := FirstBlocking(filters, blocks);
      if first < |filters| then first + 1 else |filters|
  }

  /** Reference definition of the flag after the filter loop: set on entry, or set
      by some filter of the chain. */
  predicate BlockedAfter(filters: seq<string>, blocks: string -> bool, blockedIn: bool) {
    blockedIn || exists j :: 0 <= j < |filters| && blocks(filters[j])
  }

  /** The filter loop sets `Blocked` exactly when some invoked filter blocks, and it
      stops early only once the flag is set. */
  lemma RunCountBlocks(filters: seq<string>, blocks: string -> bool, blockedIn: bool)
    ensures BlockedAfter(filters, blocks, blockedIn)
        <==> blockedIn || exists j :: 0 <= j < RunCount(filters, blocks, blockedIn) && blocks(filters[j])
    ensures !BlockedAfter(filters, blocks, blockedIn) ==> RunCount(filters, blocks, blockedIn) == |filters|
  {
    var k := RunCount(filters, blocks, blockedIn);
    if !blockedIn && exists j :: 0 <= j < |filters| && blocks(filters[j]) {
      var j :| 0 <= j < |filters| && blocks(filters[j]);
      assert k <= j + 1;
      assert blocks(filters[k - 1]);
    }
  }

  /** Every filter name a chain lists is an instance the pack holds; the filter
      loop looks names up without a presence check. */
  predicate ChainFiltersPresent(present: set<string>, cfg: Config, name: string) {
    name in cfg.filterChains ==>
      forall j :: 0 <= j < |cfg.filterChains[name].filters| ==> cfg.filterChains[name].filters[j] in present
  }

  /** The chain `filterProcessor` selects for a pack in state `s`. */
  function ChainOf(s: PackState, ext: Externals): (chain: string)
  {
    SelectChain(ext.locateChain(s.message), s.filterChain)
  }

  /** The chain is the lookup's match when there is one, and otherwise the chain
      the pack already names. */
  lemma ChainOfSelects(s: PackState, ext: Externals)
    ensures ext.locateChain(s.message).Some? ==> ChainOf(s, ext) == ext.locateChain(s.message).value
    ensures ext.locateChain(s.message).None? ==> ChainOf(s, ext) == s.filterChain
  {
  }

  /** The pack's state after `filterProcessor`. */
  function Routed(s: PackState, cfg: Config, ext: Externals): (r: PackState)
    ensures ext.locateChain(s.message).None? ==> r.filterChain == s.filterChain
    ensures ext.locateChain(s.message).Some? ==> r.filterChain == ext.locateChain(s.message).value
    ensures r.filterChain !in cfg.filterChains ==> r.outputNames == map[] && r.blocked == s.blocked
    ensures r.filterChain in cfg.filterChains ==>
      && (forall name :: name in r.outputNames <==> name in cfg.filterChains[r.filterChain].outputs)
      && (forall name :: name in r.outputNames ==> r.outputNames[name])
      && (r.blocked <==> BlockedAfter(cfg.filterChains[r.filterChain].filters, ext.filterBlocks, s.blocked))
    ensures r.(outputNames := s.outputNames, blocked := s.blocked, filterChain := s.filterChain) == s
  {
    var name := ChainOf(s, ext);
    var selected := s.(outputNames := map[], filterChain := name);
    if name !in cfg.filterChains then selected
    else
      var chain := cfg.filterChains[name];
      selected.(outputNames := SelectedOutputs(chain.outputs),
                blocked := BlockedAfter(chain.filters, ext.filterBlocks, s.blocked))
  }

  /** The filters `filterProcessor` invokes, in order. */
  function FiltersRun(s: PackState, cfg: Config, ext: Externals): (run: seq<string>)
    ensures ChainOf(s, ext) !in cfg.filterChains ==> run == []
    ensures ChainOf(s, ext) in cfg.filterChains ==>
      var filters := cfg.filterChains[ChainOf(s, ext)].filters;
      && run <= filters
      && (forall j :: 0 <= j < |filters| && ext.filterBlocks(filters[j]) && !s.blocked ==> |run| <= j + 1)
      && |run| == RunCount(filters, ext.filterBlocks, s.blocked)
  {
    var name := ChainOf(s, ext);
    if name !in cfg.filterChains then []
    else
      var filters := cfg.filterChains[name].filters;
      filters[..RunCount(filters, ext.filterBlocks, s.blocked)]
  }

  /** Marks each of a chain's outputs as selected (pipeline_runner.go:134-136). */
  method MarkOutputs(pack: PipelinePack, outputs: seq<string>)
    modifies pack`outputNames
    ensures pack.outputNames == old(pack.outputNames) + SelectedOutputs(outputs)
  {
    var i := 0;
    while i < |outputs|
      invariant 0 <= i <= |outputs|
      invariant pack.outputNames == old(pack.outputNames) + SelectedOutputs(outputs[..i])
    {
      pack.outputNames := pack.outputNames[outputs[i] := true];
      assert outputs[..i + 1] == outputs[..i] + [outputs[i]];
      i := i + 1;
    }
    assert outputs[..i] == outputs;
  }

  /** Runs a chain's filters in declared order, returning as soon as `Blocked` is
      set (pipeline_runner.go:137-143); `run` logs the filters invoked. */
  method RunFilters(pack: PipelinePack, filters: seq<string>, blocks: string -> bool) returns (run: seq<string>)
    requires forall j :: 0 <= j < |filters| ==> filters[j] in pack.filters
    modifies pack`blocked
    ensures run == filters[..RunCount(filters, blocks, old(pack.blocked))]
    ensures pack.blocked == BlockedAfter(filters, blocks, old(pack.blocked))
  {
    ghost var blockedIn := pack.blocked;
    ghost var k := RunCount(filters, blocks, blockedIn);
    RunCountBlocks(filters, blocks, blockedIn);
    run := [];
    var i := 0;
    while i < |filters|
      invariant 0 <= i <= k
      invariant run == filters[..i]
      invariant i == 0 ==> pack.blocked == blockedIn
      invariant i > 0 ==> !pack.blocked && !blockedIn
      invariant forall j :: 0 <= j < i ==> !blocks(filters[j])
    {
      var name := filters[i];
      var filter := pack.filters[name];
      run := run + [name];
      if blocks(name) {
        pack.blocked := true;
      }
      if pack.blocked {
        return;
      }
      i := i + 1;
    }
  }

  /** filterProcessor: selects the chain, marks its outputs, then runs its filters;
      an unknown chain leaves no output selected and runs no filter. */
  method FilterProcessor(pack: PipelinePack, ext: Externals) returns (run: seq<string>)
    requires pack.Valid()
    requires ChainFiltersPresent(pack.filters.Keys, pack.config, ChainOf(pack.State(), ext))
    modifies pack
    ensures pack.Valid()
    ensures pack.State() == Routed(old(pack.State()), pack.config, ext)
    ensures run == FiltersRun(old(pack.State()), pack.config, ext)
  {
    ghost var s := pack.State();
    run := [];
    pack.outputNames := map[];
    var config := pack.config;
    var chainName: string;
    var located := ext.locateChain(pack.message);
    if located.Some? {
      chainName := located.value;
      pack.filterChain := chainName;
    } else {
      chainName := pack.filterChain;
    }
    assert chainName == ChainOf(s, ext);
    assert pack.State() == s.(outputNames := map[], filterChain := chainName);
    if chainName !in config.filterChains {
      return;
    }
    var chain := config.filterChains[chainName];
    MarkOutputs(pack, chain.outputs);
    assert pack.outputNames == SelectedOutputs(chain.outputs);
    run := RunFilters(pack, chain.filters, ext.filterBlocks);
    assert pack.State() == s.(outputNames := SelectedOutputs(chain.outputs), filterChain := chainName,
                              blocked := BlockedAfter(chain.filters, ext.filterBlocks, s.blocked));
  }
}
