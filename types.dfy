/** Values shared by every part of the pipeline core: the read-only configuration,
    the per-pack plugin instances, the observable logs and the abstract state of a
    pipeline pack. */
module PipelineTypes {

  datatype Option<T> = None | Some(value: T)

  /** Control event types posted by the broadcaster. */
  const RELOAD: string := "reload"
  const STOP: string := "stop"

  /** Size of the raw message buffer a new pack is given. */
  const MsgBufferSize: nat := 65536

  /** The message schema is not modelled: a message is an opaque structured value. */
  datatype Message = Message(fields: map<string, string>)

  datatype PluginKind = DecoderPlugin | FilterPlugin | OutputPlugin

  /** A plugin wrapper as far as the core sees it: the identity of its shared
      global instance, or None when `global` is nil. */
  datatype Wrapper = Wrapper(global: Option<nat>)

  /** A plugin instance made by `wrapper.Create()` for one pack, identified by the
      kind and configured name of the wrapper that made it. */
  datatype Instance = Instance(kind: PluginKind, name: string)

  /** A named filter chain: filters in declared order and the outputs it targets. */
  datatype Chain = Chain(filters: seq<string>, outputs: seq<string>)

  /** The pipeline configuration, read-only for the whole run. */
  datatype Config = Config(
    defaultDecoder: string,
    defaultFilterChain: string,
    poolSize: nat,
    decoders: map<string, Wrapper>,
    filters: map<string, Wrapper>,
    outputs: map<string, Wrapper>,
    filterChains: map<string, Chain>)

  /** Outcome of one call of a decoder's `Decode`. */
  datatype DecodeResult = DecodeOk(msg: Message) | DecodeErr

  /** What the plugins the core calls do during one message cycle: the outcome of
      the decoder, the chain lookup, and whether each filter sets `Blocked`. */
  datatype Externals = Externals(
    decode: DecodeResult,
    locateChain: Message -> Option<string>,
    filterBlocks: string -> bool)

  /** One call of `Event` on a wrapper's global instance. */
  datatype EventCall = EventCall(kind: PluginKind, name: string, eventType: string)

  /** The value of every field of a pipeline pack; `msgCap` is the capacity of the
      raw buffer and `msgLen` the length of its current slice. */
  datatype PackState = PackState(
    msgLen: nat,
    msgCap: nat,
    message: Message,
    decoder: string,
    decoders: map<string, Instance>,
    filters: map<string, Instance>,
    outputs: map<string, Instance>,
    decoded: bool,
    blocked: bool,
    filterChain: string,
    chainCount: int,
    outputNames: map<string, bool>)
}
