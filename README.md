# heka pipeline core in Dafny

This project models the per-message core of heka's pipeline runner
(`pipeline/pipeline_runner.go`).

- **Pipeline pack.** `PipelinePack` is a class whose fields are those of the Go struct. The raw buffer is an `array<bv8>` whose length is the slice's capacity; `msgLen` is the current slice length. The constructor is `NewPipelinePack` together with the three `Init*` loops. `Zero` resets the pack: it assigns the fields and deletes the `OutputNames` entries one by one.
- **Router and filter runner.** `FilterProcessor` follows `filterProcessor`:
  - it picks the chain the lookup matches, or else the pack's current `FilterChain`;
  - it returns at once if that chain is unknown;
  - it marks the chain's outputs;
  - it runs the chain's filters in order and stops as soon as `Blocked` is set.
- **Stage executor.** `RunStages` is the body of the `pipeline` closure, with its early returns. `Pipeline` runs it and then the deferred finaliser, `RecyclePool.Recycle`, exactly once.
- **Pack pool.** `RecyclePool` models the buffered `recycleChan` as a FIFO `seq` of packs with capacity `PoolSize + 1`. A ghost set holds the packs handed out. The class invariant states:
  - queued + outstanding = `PoolSize`;
  - no pack is both queued and lent, or queued twice;
  - every queued pack is reset.
- **Control plane.** `BroadcastEvent` calls `Event` on every filter and output wrapper that has a global instance. `ListenSignals` is the SIGHUP/SIGINT loop of `Run`.

The plugins the core calls are modelled by their outcomes only, collected per cycle in `Externals`:

- a decoder's `Decode` is `DecodeOk(message)` or `DecodeErr`;
- `LocateChain` is a function from message to an optional chain name;
- a filter either sets `Blocked` or leaves the pack alone.

Deliveries and `Event` calls are returned as logs. Go map iteration order is unspecified, so the delivery and event logs are multisets. The log of filters invoked is a sequence, because filters run in declared order. Every loop over a Go map picks its next key nondeterministically (`:|`), so the proofs hold for every iteration order.

The specification functions (`Zeroed`, `Routed`, `FiltersRun`, `Cycle`, `Deliveries`, `BroadcastCalls`) give each operation's effect on a pack-state value (`PackState`). Each imperative method is proved equal to its specification function. The properties are proved about those functions.

Two details of `pipeline_runner.go` that the model keeps:
- When the lookup finds no chain, the router falls back to the pack's current `FilterChain` (pipeline_runner.go:127). That is the configured default only because `Zero` restores it. It is not the process default in general.
- A filter name that a chain lists but the pack lacks is not skipped: the Go code would call a method on a nil interface. The model therefore requires the selected chain's filters to be present.

## Model

| member | source | states |
|---|---|---|
| `PipelinePacks.Instances` | pipeline/pipeline_runner.go:91-107 | a pack gets exactly one instance per configured wrapper name, of the right kind |
| `PipelinePacks.AddInstances` | pipeline/pipeline_runner.go:92-94 | the `Init*` loop adds one instance per wrapper and keeps entries under other names, whatever the map's iteration order |
| `PipelinePacks.PipelinePack.constructor` | pipeline/pipeline_runner.go:64-89 | a new pack has a 65536-byte buffer at full length, an empty message, the default decoder and chain, both flags false, no selected outputs, and plugin maps keyed exactly by the config's names |
| `PipelinePacks.PipelinePack.InitDecoders` | pipeline/pipeline_runner.go:91-95 | adds one decoder instance per configured decoder and changes nothing else |
| `PipelinePacks.PipelinePack.InitFilters` | pipeline/pipeline_runner.go:97-101 | adds one filter instance per configured filter and changes nothing else |
| `PipelinePacks.PipelinePack.InitOutputs` | pipeline/pipeline_runner.go:103-107 | adds one output instance per configured output and changes nothing else |
| `PipelinePacks.Zeroed` | pipeline/pipeline_runner.go:109-118 | after a reset the buffer length equals its capacity, the decoder and chain are the config defaults, `Decoded` and `Blocked` are false and no output is selected; message, chain count and plugin maps are kept |
| `PipelinePacks.ZeroedIdempotent` | pipeline/pipeline_runner.go:109-118 | resetting twice gives the same state as resetting once |
| `PipelinePacks.ZeroedForgetsCycle` | pipeline/pipeline_runner.go:109-118 | the state after a reset depends only on what the reset keeps, so no routing state of the previous cycle survives |
| `PipelinePacks.PipelinePack.Zero` | pipeline/pipeline_runner.go:109-118 | the pack's new state is `Zeroed` of its old state; the key-deleting loop empties `OutputNames` |
| `Router.SelectChain` | pipeline/pipeline_runner.go:123-128 | the chain is the lookup's match when there is one, and otherwise the pack's current `FilterChain` |
| `Router.ChainOfSelects` | pipeline/pipeline_runner.go:123-128 | the chain `filterProcessor` uses for a pack is the lookup's match on its message, else the chain the pack already names |
| `Router.SelectedOutputs` | pipeline/pipeline_runner.go:134-136 | the selection holds exactly the chain's output names, each mapped to true |
| `Router.FirstBlocking` | pipeline/pipeline_runner.go:137-143 | the index of the first filter that blocks: every filter before it passes, and the one at it blocks |
| `Router.RunCount` | pipeline/pipeline_runner.go:137-143 | the filter loop runs at least the first filter; every invoked filter except the last passed; nothing after the first blocking filter runs; the loop stops early only when `Blocked` is set |
| `Router.RunCountBlocks` | pipeline/pipeline_runner.go:137-143 | `Blocked` is set after the loop iff it was set on entry or some invoked filter blocks; if no filter blocks, all of them run |
| `Router.Routed` | pipeline/pipeline_runner.go:120-144 | a lookup match becomes `FilterChain`, otherwise `FilterChain` is kept; an unknown chain leaves no output selected and `Blocked` as it was; a known chain selects exactly its outputs, all true, and sets `Blocked` iff a filter of it blocks; nothing else changes |
| `Router.FiltersRun` | pipeline/pipeline_runner.go:120-144 | the filters invoked are none for an unknown chain; for a known chain they are a prefix of it whose length is exactly `RunCount`, so the run reaches the first blocking filter, or the whole chain when none blocks, and nothing after it |
| `Router.MarkOutputs` | pipeline/pipeline_runner.go:134-136 | the loop adds each chain output to `OutputNames` as true |
| `Router.RunFilters` | pipeline/pipeline_runner.go:137-143 | the loop invokes exactly the prefix `RunCount` gives, in declared order, and leaves `Blocked` as `BlockedAfter` defines |
| `Router.FilterProcessor` | pipeline/pipeline_runner.go:120-144 | the pack's new state is `Routed` of its old state, and the filters invoked are `FiltersRun` |
| `Stage.Deliveries` | pipeline/pipeline_runner.go:205-215 | one delivery per name selected with true that has an output instance, and none for any other name |
| `Stage.AtRouting` | pipeline/pipeline_runner.go:182-196 | routing always starts from a decoded pack; an undecoded pack gets the decoded message; every field other than the message and `Decoded` is kept, and a pack that was already decoded is not touched |
| `Stage.Cycle` | pipeline/pipeline_runner.go:173-216 | the decoder is called iff the pack is undecoded and its decoder exists; a missing decoder or a decode error runs no filter and delivers nothing; a routed cycle is decoded first and then ends in `Routed` of that state, having invoked exactly `FiltersRun`; a blocked cycle delivers nothing; a completed cycle delivers `Deliveries` of the selection |
| `Stage.UnknownChainDeliversNothing` | pipeline/pipeline_runner.go:129-133 | a cycle routed to a chain that does not exist invokes no filter and delivers nothing |
| `Stage.DeliveredOncePerChainOutput` | pipeline/pipeline_runner.go:205-215 | a completed cycle delivers exactly once to each chain output the pack has, and to nothing else; missing outputs are skipped without stopping the others |
| `Stage.BlockingFilterStopsCycle` | pipeline/pipeline_runner.go:199-202 | if a filter of the chain blocks, the cycle ends blocked whether or not the pack entered routing blocked, no filter after it runs and nothing is delivered |
| `Stage.DeliverAll` | pipeline/pipeline_runner.go:205-215 | the delivery loop yields exactly `Deliveries` for every iteration order: false entries and missing outputs are skipped and the rest are delivered to once |
| `Stage.RunStages` | pipeline/pipeline_runner.go:181-215 | the closure body's trace is `Cycle` of the pack's old state, and the pack is left in the trace's final state |
| `Stage.Pipeline` | pipeline/pipeline_runner.go:173-216 | on every exit path the pack is reset and appended to the pool exactly once, the pool invariant is kept, and the trace is `Cycle` |
| `Stage.DefaultChainScenario` | pipeline/pipeline_runner.go:123-136 | an unroutable message on the default chain "default" with the single output "out1" is delivered to "out1" exactly once |
| `Stage.BlockAllScenario` | pipeline/pipeline_runner.go:137-143 | with chain ["block-all", "noop"], only "block-all" runs, "out1" is not delivered to, and the recycled pack is unblocked |
| `Stage.DecodeErrorScenario` | pipeline/pipeline_runner.go:189-193 | a decode error runs no filter and no output, and the recycled pack is not decoded |
| `RecyclePools.RecyclePool.constructor` | pipeline/pipeline_runner.go:219-221 | the channel of capacity PoolSize + 1 starts with PoolSize distinct new reset packs and none outstanding |
| `RecyclePools.RecyclePool.Acquire` | pipeline/pipeline_runner.go:169 | a receive takes the oldest queued pack, which is reset, and moves it to the outstanding set; on an empty channel it reports that it would wait |
| `RecyclePools.RecyclePool.Recycle` | pipeline/pipeline_runner.go:176-179 | the deferred finaliser resets the pack and appends it to the queue; queued + outstanding stays PoolSize, and the queue never reaches capacity |
| `RecyclePools.SinglePackPool` | pipeline/pipeline_runner.go:169 | with PoolSize = 1 the first receive gets a pack, a second finds the channel empty, and after the recycle the same pack is received again |
| `Control.BroadcastCallsOnce` | pipeline/pipeline_runner.go:152-162 | exactly one `Event` call per filter or output wrapper with a non-nil global, and none for any other wrapper |
| `Control.NotifyGlobals` | pipeline/pipeline_runner.go:153-157 | the loop over a wrapper map calls `Event` once on each wrapper with a global, for every iteration order |
| `Control.BroadcastEvent` | pipeline/pipeline_runner.go:146-163 | the `Event` calls are exactly `BroadcastCalls`, whatever `notify.Post` returned |
| `Control.ListenSignals` | pipeline/pipeline_runner.go:237-250 | each SIGHUP broadcasts RELOAD; the first SIGINT broadcasts STOP and ends the loop; no signal after it is handled; each broadcast makes exactly the calls of `BroadcastCalls` |

## Left out

- Goroutines, `InputRunner.Start`, the `sync.WaitGroup` drain and the shutdown log (pipeline_runner.go:223-235, 252-253). They are concurrency plumbing. `Run` is modelled only through its pool pre-fill, its closure and its signal loop.
- Blocking of the recycle channel: an acquire on an empty pool returns null instead of waiting. A send never finds the channel full, because the pool invariant proves it.
- The receive from `recycleChan` happens in the input runners, which are not part of this model. `RecyclePool.Acquire` stands for it.
- `notify.Post` is foreign code. Its outcome is a parameter that only a log line depends on.
- The plugins' internals (`Decode`, `FilterMsg`, `Deliver`, `Event`, `wrapper.Create`, and `Init`/`InitOnce`) are modelled by outcome only. A filter is modelled as setting `Blocked` or not; its effects on the message or the routing state are not modelled. A failed decode leaves the message unchanged.
- The `Message` schema and how `LocateChain` matches are not modelled. Chain lookup is an arbitrary function from message to an optional chain name.
- Logging, the input timeout value, and the byte contents of `MsgBytes` are not modelled. Only the buffer's length and capacity are.
- `PoolSize` is a `nat`. A Go `PoolSize` of -1 gives an unbuffered channel and one of -2 or less makes `make` panic; neither is modelled.
- `filterBlocks` fixes one outcome per filter name for the whole cycle, so a chain that lists the same stateful filter twice with different outcomes cannot be expressed.
- `RunFilters`, `FilterProcessor` and `FilterLookupsSafe` require every filter of the selected chain to be present, whereas Go fails only on a missing filter the loop actually reaches (a chain `["block-all", "missing"]` returns before looking up "missing"); such chains are not modelled.
