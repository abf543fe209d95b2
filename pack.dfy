/** The pipeline pack: the reusable, mutable carrier of one in-flight message, its
    per-message routing state and its private plugin instances. */
module PipelinePacks {
  import opened PipelineTypes

  /** The instances `wrapper.Create()` makes for every wrapper of one kind. */
  function Instances(kind: PluginKind, wrappers: map<string, Wrapper>): (m: map<string, Instance>)
    ensures m.Keys == wrappers.Keys
    ensures forall name :: name in m ==> m[name].kind == kind && m[name].name == name
  {
    map name | name in wrappers :: Instance(kind, name)
  }

  /** Adds one fresh instance per wrapper to `into`, one wrapper at a time, as the
      `Init*` loops do; entries of `into` under other names are kept. */
  method AddInstances(kind: PluginKind, wrappers: map<string, Wrapper>, into: map<string, Instance>)
    returns (m: map<string, Instance>)
    ensures m.Keys == into.Keys + wrappers.Keys
    ensures forall name :: name in wrappers ==> m[name] == Instance(kind, name)
    ensures forall name :: name in into && name !in wrappers ==> m[name] == into[name]
  {
    m := into;
    var pending := wrappers.Keys;
    while pending != {}
      invariant pending <= wrappers.Keys
      invariant m.Keys == into.Keys + (wrappers.Keys - pending)
      invariant forall name :: name in wrappers && name !in pending ==> m[name] == Instance(kind, name)
      invariant forall name :: name in into && name !in wrappers ==> m[name] == into[name]
      decreases pending
    {
      var name :| name in pending;
      m := m[name := Instance(kind, name)];
      pending := pending - {name};
    }
  }

  /** The state `Zero` leaves a pack in: the whole buffer, the configured decoder
      and chain, both flags cleared and no output selected. */
  predicate IsZero(s: PackState, cfg: Config) {
    && s.msgLen == s.msgCap
    && s.decoder == cfg.defaultDecoder
    && s.filterChain == cfg.defaultFilterChain
    && !s.decoded
    && !s.blocked
    && s.outputNames == map[]
  }

  /** The effect of `Zero` on a pack's state. */
  function Zeroed(s: PackState, cfg: Config): (r: PackState)
    ensures IsZero(r, cfg)
    ensures r.msgCap == s.msgCap && r.message == s.message && r.chainCount == s.chainCount
    ensures r.decoders == s.decoders && r.filters == s.filters && r.outputs == s.outputs
  {
    s.(msgLen := s.msgCap, decoder := cfg.defaultDecoder, decoded := false, blocked := false,
       filterChain := cfg.defaultFilterChain, outputNames := map[])
  }

  /** Resetting a pack that is already reset changes nothing. */
  lemma ZeroedIdempotent(s: PackState, cfg: Config)
    ensures Zeroed(Zeroed(s, cfg), cfg) == Zeroed(s, cfg)
  {
  }

  /** What `Zero` leaves depends only on the parts of a pack it does not reset:
      nothing of a message cycle's routing state survives it. */
  lemma ZeroedForgetsCycle(s: PackState, t: PackState, cfg: Config)
    requires s.msgCap == t.msgCap && s.message == t.message && s.chainCount == t.chainCount
    requires s.decoders == t.decoders && s.filters == t.filters && s.outputs == t.outputs
    ensures Zeroed(s, cfg) == Zeroed(t, cfg)
  {
  }

  class PipelinePack {
    /** The raw message buffer; its length is the slice's capacity. */
    const msgBytes: array<bv8>
    /** Length of the current slice of `msgBytes`. */
    var msgLen: nat
    var message: Message
    const config: Config
    var decoder: string
    var decoders: map<string, Instance>
    var filters: map<string, Instance>
    var outputs: map<string, Instance>
    var decoded: bool
    var blocked: bool
    var filterChain: string
    var chainCount: int
    var outputNames: map<string, bool>

    /** The slice fits its buffer, and the pack holds one instance per configured
        decoder, filter and output. */
    ghost predicate Valid()
      reads this
    {
      && msgLen <= msgBytes.Length
      && decoders.Keys == config.decoders.Keys
      && filters.Keys == config.filters.Keys
      && outputs.Keys == config.outputs.Keys
    }

    function State(): PackState
      reads this
    {
      PackState(msgLen, msgBytes.Length, message, decoder, decoders, filters, outputs,
                decoded, blocked, filterChain, chainCount, outputNames)
    }

    /** NewPipelinePack: a full 64 KiB buffer, an empty message, the configured
        defaults and one private instance of every configured plugin. */
    constructor (config: Config)
      ensures Valid() && fresh(msgBytes)
      ensures IsZero(State(), config)
      ensures msgBytes.Length == MsgBufferSize && message == Message(map[]) && chainCount == 0
      ensures decoders == Instances(DecoderPlugin, config.decoders)
      ensures filters == Instances(FilterPlugin, config.filters)
      ensures outputs == Instances(OutputPlugin, config.outputs)
      ensures this.config == config
    {
      msgBytes := new bv8[MsgBufferSize];
      msgLen := MsgBufferSize;
      message := Message(map[]);
      this.config := config;
      decoder := config.defaultDecoder;
      decoders := map[];
      decoded := false;
      blocked := false;
      filters := map[];
      filterChain := config.defaultFilterChain;
      chainCount := 0;
      outputs := map[];
      outputNames := map[];
      new;
      InitDecoders(config);
      InitFilters(config);
      InitOutputs(config);
    }

    method InitDecoders(config: Config)
      modifies this
      ensures State() == old(State()).(decoders := old(decoders) + Instances(DecoderPlugin, config.decoders))
    {
      decoders := AddInstances(DecoderPlugin, config.decoders, decoders);
    }

    method InitFilters(config: Config)
      modifies this
      ensures State() == old(State()).(filters := old(filters) + Instances(FilterPlugin, config.filters))
    {
      filters := AddInstances(FilterPlugin, config.filters, filters);
    }

    method InitOutputs(config: Config)
      modifies this
      ensures State() == old(State()).(outputs := old(outputs) + Instances(OutputPlugin, config.outputs))
    {
      outputs := AddInstances(OutputPlugin, config.outputs, outputs);
    }

    /** Puts a used pack back into the state a new pack starts in; the message, the
        chain counter and the plugin instances are kept. */
    method Zero()
      requires Valid()
      modifies this
      ensures Valid()
      ensures State() == Zeroed(old(State()), config)
    {
      msgLen := msgBytes.Length;
      decoder := config.defaultDecoder;
      decoded := false;
      blocked := false;
      filterChain := config.defaultFilterChain;
      var pending := outputNames.Keys;
      while pending != {}
        modifies this`outputNames
        invariant outputNames.Keys == pending
        decreases pending
      {
        var name :| name in pending;
        outputNames := outputNames - {name};
        pending := pending - {name};
      }
      assert outputNames == map[];
    }
  }
}
