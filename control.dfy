/** The control plane: broadcasting RELOAD and STOP to the global instances of the
    filter and output plugins, and the signal loop of `Run` that triggers it. */
module Control {
  import opened PipelineTypes

  /** One `Event` call per wrapper of the given kind that has a global instance. */
  function GlobalCalls(kind: PluginKind, wrappers: map<string, Wrapper>, eventType: string): set<EventCall> {
    set name | name in wrappers && wrappers[name].global.Some? :: EventCall(kind, name, eventType)
  }

  /** Whether a broadcast of `eventType` owes the call `c`: it names a filter or
      output wrapper of the configuration whose global instance is not nil. */
  predicate Owed(cfg: Config, eventType: string, c: EventCall) {
    && c.eventType == eventType
    && ((c.kind == FilterPlugin && c.name in cfg.filters && cfg.filters[c.name].global.Some?)
        || (c.kind == OutputPlugin && c.name in cfg.outputs && cfg.outputs[c.name].global.Some?))
  }

  /** Reference definition of a broadcast's `Event` calls. */
  function BroadcastCalls(cfg: Config, eventType: string): multiset<EventCall> {
    multiset(GlobalCalls(FilterPlugin, cfg.filters, eventType))
      + multiset(GlobalCalls(OutputPlugin, cfg.outputs, eventType))
  }

  /** A broadcast makes exactly one call per owed call and none other. */
  lemma BroadcastCallsOnce(cfg: Config, eventType: string, c: EventCall)
    ensures BroadcastCalls(cfg, eventType)[c] == if Owed(cfg, eventType, c) then 1 else 0
  {
  }

  /** One loop of BroadcastEvent: `Event` on the global instance of every wrapper
      of a map, in the map's (unspecified) order. */
  method NotifyGlobals(kind: PluginKind, wrappers: map<string, Wrapper>, eventType: string)
    returns (calls: multiset<EventCall>)
    ensures calls == multiset(GlobalCalls(kind, wrappers, eventType))
  {
    calls := multiset{};
    var pending := wrappers.Keys;
    while pending != {}
      invariant pending <= wrappers.Keys
      invariant forall c :: calls[c] ==
                              if c in GlobalCalls(kind, wrappers, eventType) && c.name !in pending then 1 else 0
      decreases pending
    {
      var name :| name in pending;
      pending := pending - {name};
      if wrappers[name].global.Some? {
        calls := calls + multiset{EventCall(kind, name, eventType)};
      }
    }
    assert forall c :: calls[c] == multiset(GlobalCalls(kind, wrappers, eventType))[c];
  }

  /** BroadcastEvent: posts the event (the outcome `posted` is only logged), then
      calls `Event` on every filter and output global instance. */
  method BroadcastEvent(config: Config, eventType: string, posted: bool) returns (calls: multiset<EventCall>)
    ensures calls == BroadcastCalls(config, eventType)
  {
    var filterCalls := NotifyGlobals(FilterPlugin, config.filters, eventType);
    var outputCalls := NotifyGlobals(OutputPlugin, config.outputs, eventType);
    calls := filterCalls + outputCalls;
  }

  /** The signals `Run` listens for. */
  datatype Signal = SigHup | SigInt

  /** The event type each signal is turned into. */
  function EventFor(sig: Signal): string {
    match sig
    case SigHup => RELOAD
    case SigInt => STOP
  }

  /** The signal loop: RELOAD for each hangup, then STOP and leave the loop at the
      first interrupt. Without an interrupt the loop is still waiting when the
      signals run out. */
  method ListenSignals(config: Config, signals: seq<Signal>)
    returns (broadcasts: seq<string>, calls: seq<multiset<EventCall>>, stopped: bool)
    ensures stopped <==> SigInt in signals
    ensures |broadcasts| <= |signals|
    ensures forall i :: 0 <= i < |broadcasts| ==> broadcasts[i] == EventFor(signals[i])
    ensures forall i :: 0 <= i < |broadcasts| - 1 ==> signals[i] == SigHup
    ensures stopped ==> |broadcasts| > 0 && signals[|broadcasts| - 1] == SigInt
    ensures !stopped ==> |broadcasts| == |signals|
    ensures |calls| == |broadcasts|
    ensures forall i :: 0 <= i < |calls| ==> calls[i] == BroadcastCalls(config, broadcasts[i])
  {
    broadcasts, calls, stopped := [], [], false;
    var i := 0;
    while i < |signals| && !stopped
      invariant 0 <= i <= |signals|
      invariant |broadcasts| == i
      invariant forall k :: 0 <= k < i ==> broadcasts[k] == EventFor(signals[k])
      invariant stopped ==> i > 0 && signals[i - 1] == SigInt
      invariant forall k :: 0 <= k < i - 1 ==> signals[k] == SigHup
      invariant !stopped ==> forall k :: 0 <= k < i ==> signals[k] == SigHup
      invariant |calls| == i
      invariant forall k :: 0 <= k < i ==> calls[k] == BroadcastCalls(config, broadcasts[k])
    {
      var sig := signals[i];
      var posted: bool := *;
      var sent := BroadcastEvent(config, EventFor(sig), posted);
      broadcasts := broadcasts + [EventFor(sig)];
      calls := calls + [sent];
      i := i + 1;
      if sig == SigInt {
        stopped := true;
      }
    }
  }
}
