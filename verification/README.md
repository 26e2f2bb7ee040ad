# wasmd in Dafny

A model of the parts of wasmd and wasmvm that carry the hardest promises, with proofs that
they keep them: the transactional message dispatcher of `x/wasm`, the contract registry on
its flat key-value store with genesis export and import, authz grants for contracts, the
iterator tables between Go and Rust, asynchronous packet acknowledgements, sub-queries,
authorization policies and contract addresses.

`dafny verify dfyconfig.toml` verifies all files.

## How it is built

Contracts, the VM, native message handlers and query plugins are arbitrary functions or
arbitrary finite scripts, so every result holds for every behaviour of theirs.

| files | part |
|---|---|
| `Bytes`, `Gas`, `Kv`, `Events`, `Scans` | byte strings and their order, the SDK gas meter, stacked store caches, events, ordered scans |
| `Dispatch` | big-step semantics of calls, sub-messages and replies on flat stores, without caches; recursion ends because gas does |
| `Dispatcher` | the same on objects: contexts sharing meters, event managers and stacked caches, proved to compute the flat semantics |
| `DispatchOutcomes` | what one sub-message and one contract entry come to: events, replies, gas |
| `DispatchLaws`, `DispatchRelations` | what holds of every run: stores, events, data, gas, replies, depth; independence of error texts; transfer of invariants and of logs |
| `Registry`, `RegistryLaws`, `RegistryOutcomes` | codes, contracts, histories and sequences as plain data, all operations, the invariant of every run, what each operation needs and leaves |
| `Keys`, `KeeperStore`, `ContractIndexes`, `Keeper` | the byte layout of the store, history and index scans, and the keeper as a class over the flat store that refines the registry |
| `RegistryDispatch`, `KeeperWorlds` | the registry under the dispatcher: calls that execute, instantiate and migrate at any depth, and worlds this applies to |
| `Addresses` | address keys and why addresses never clash |
| `Genesis`, `GenesisKeeper` | export and import, and exactly when they undo each other |
| `GenesisAcceptance`, `GenesisRuns` | which genesis files are accepted, what an import guarantees, and runs from there |
| `Authz`, `AuthzOutcomes` | grant limits, the in-place edit of the grant slice, budgets over runs, which grant decides and what it becomes |
| `Iterators`, `IteratorReads`, `IteratorTables` | concurrent iterator tables as a state machine over all interleavings, what contracts read through them, and the tables as classes |
| `Queries`, `QueryOutcomes` | trees of sub-queries, gas settlement, the query stack, when queries are answered and what is shown of errors |
| `PacketKeys`, `AsyncAck`, `PacketOutcomes`, `PacketHandlers` | keys of pending packets, and packet acknowledgements (ICS-004, "Packet flow & handling") run through the dispatcher with its rollbacks |
| `Policy` | authorization policies along paths of nested messages |

## What is taken for granted

- The Cosmos SDK: `CacheContext` is an overlay that commits or is dropped; a gas meter adds
  first and panics after; a message routed to a contract emits into an event manager of its
  own; coins are positive amounts per denom.
- A positive cost for each contract entry, and a finite gas limit on every meter that drives
  the dispatcher. Discounts, prices and event costs are parameters.
- The store codec is lossless. Where addresses must differ, the hash is asked not to collide
  on the finitely many keys in question, and `RegistryLaws.PaddedChainMeetsAll` gives a chain
  that meets this; most results about runs ask nothing of the hash.
- Registry runs short enough, and fewer than 2^64 contract calls, that 64-bit counters do not
  wrap; where wrapping is the point it is stated.
- Addresses are those the SDK's own format check accepts, 1 to 255 bytes; a chain may narrow
  this by a verifier of its own, and the addresses in the examples below have 20 or 32 bytes.
- JSON validity, bank transfers, account checks and port binding are outcomes given by the
  environment.
- Instantiating and migrating entries of the dispatcher do to its store what the keeper's
  methods are proved to do to theirs (`RegistryDispatch.KeeperWorld`).
- Core IBC delivers each sequence of an existing channel once, and identifiers of existing
  channels contain no zero byte.

## What does not hold, and exactly when it does

- Genesis import of an export fails if one registered address is a proper prefix of another
  that has state, because `IterateContractState` does not look at the length of the address,
  or if the probed address is registered; otherwise it gives the registry back
  (`Genesis.RoundTripIff`). A hand-written genesis with a 20-byte and a 32-byte address gets a
  chain into the first case (`Genesis.NestedArises`). Addresses that the two generators
  produce are of one length, so no run from an empty chain gets there.
- `InitGenesis` does not compare a contract's record with its history or with its code: the
  registry it builds is consistent if and only if the genesis was in agreement
  (`GenesisRuns.ImportConsistentIff`); a contract is listed under the code its record names if
  and only if record and history agree (`WasmKeeper.ByCodeMatchesRecord`).
- `InitGenesis` writes a sequence to whatever key the genesis names: the store represents the
  imported registry if and only if all these keys are the two sequence keys or outside the
  registry's prefixes (`GenesisRuns.ImportRepresentsIff`). Otherwise an accepted genesis can,
  for example, make `IterateContractsByCode` return an address that is no contract
  (`GenesisRuns.StrayEntryIsListed`).
- The comment in `InitGenesis` says that the next classic address is checked to be unused.
  The code passes the sequence value as the code id too, so the check covers one code only
  (`Genesis.ProbeCoversOneCode`).
- The call depth and query stack maxima bound nesting unless they are 2^32 - 1, where the
  32-bit counters wrap (`DispatchLaws.DepthBoundedIff`, `Queries.StackBoundedIff`). For
  queries there is one more exception: a gas multiplier of 2^63 or more leaves no sub-query
  enough gas to run.
- `ToWasmVMGas` panics when the wrapped product is smaller than its argument; this catches
  every overflow only for multipliers up to 2 (`Gas.OverflowTestSoundIff`).
- The two conversions between iterator ids and indexes disagree at index 2^31 - 1
  (`Iterators.IdRoundTrip`); the frame limit of 32768 keeps that index out of reach. An
  iterator that the limit turns away is never closed (`Iterators.ClosedExactlyOnce`).
- The key of a pending packet has no length prefix for the port. Two different ports can give
  one key if and only if one extends the other by bytes that can be read as a length
  (`PacketKeys.PortsShareKeyIff`). For ports without zero bytes that takes a channel name of
  2^24 bytes or more, which no existing channel has (`PacketKeys.SuffixInjective`).
- A packet with an explicit timeout block of height zero does not survive the conversion to
  an IBC packet and back (`AsyncAck.ConversionsInverse`). Received packets never have one.
- `AcceptGrantedMessage` overwrites the list it was given: after a removal that list ends in
  two copies of its last grant (`Authz.AcceptGrantedMessage`).
- Sorting the attributes of a Wasm message's events for a reply also sorts them in the events the
  parent has emitted already, and the table of loaded contracts is not rolled back with a
  failed sub-message. The semantics contains both.

## Model

| member | source | states |
|---|---|---|
| Dispatch.Enter | x/wasm/keeper/keeper.go:401-451 | Whatever contracts do, a call that returns keeps its meter: the limit is unchanged and consumption only grows, up to the limit. Its definition terminates with gas left as the measure, although replies run at the depth of the parent. |
| Dispatch.DispatchMsg | x/wasm/keeper/handler_plugin.go:133-140 | A message behind the call depth check keeps the meter it runs on within its limit, and ends, for every world of handlers and contracts. |
| Dispatch.DispatchLimited | x/wasm/keeper/msg_dispatcher.go:64-88 | A sub-message on a meter of its own leaves the meter of the parent within its limit, and ends because the private limit is below the gas the parent has left. |
| Dispatch.Step | x/wasm/keeper/msg_dispatcher.go:94-201 | One sub-message with its reply keeps the meter within its limit; the reply may dispatch again, and this recursion ends by gas. |
| Dispatch.DispatchSubs | x/wasm/keeper/msg_dispatcher.go:92-202 | A list of sub-messages keeps the meter within its limit; the recursion through replies ends by gas and the number of messages left. |
| Dispatch.Begin | x/wasm/keeper/keeper.go:401-439 | An entry that comes as far as its response, or fails after its setup was paid, has consumed gas: this strict increase is what makes reply chains end. The gas of lookups, funds transfer and record writes is included. |
| DispatchOutcomes.StepWithoutReply | x/wasm/keeper/msg_dispatcher.go:106-142 | A sub-message without a reply: success commits store and gas of the sandbox and adds to the log no "message" event and, of all other types, exactly the events of the sub-context and then those returned, in order, with attributes as they were or, for Wasm messages, sorted by key and stable; failure leaves store and log alone and is returned. |
| DispatchOutcomes.StepWithReply | x/wasm/keeper/msg_dispatcher.go:144-199 | With a reply the sender is entered, in the state after that decision and at its own depth, with id, payload and either the events the log gained (for Wasm messages, else none), the first data item and all responses in order, or the error as far as it is visible; its data replaces earlier data, its error keeps its code. |
| DispatchOutcomes.RepliedWhen | x/wasm/keeper/msg_dispatcher.go:137-142 | Always: on success and failure; success: on success; error: on failure; never: not at all; any other mode is refused before the message runs. |
| DispatchOutcomes.SandboxSucceedsIff | x/wasm/keeper/msg_dispatcher.go:100-118 | A sub-message succeeds if and only if it is not too deep and the contract call or handler succeeds, on a meter of its own exactly if its limit is below what the parent has left. |
| DispatchOutcomes.SubsInOrder | x/wasm/keeper/msg_dispatcher.go:92-202 | The messages taken are those of the list, in order, up to the first failure. |
| DispatchOutcomes.EntryDispatches | x/wasm/keeper/keeper.go:441-451 | They are the messages of the contract's own response. |
| DispatchOutcomes.EntrySucceedsIff | x/wasm/keeper/keeper.go:401-439 | An entry comes to its response if and only if contract and code are found, nothing is refused, the gas conversion does not panic, the VM returns a response with well-formed events, and the gas suffices: strictly below the limit at the VM call, up to the limit otherwise. |
| DispatchOutcomes.EntryPays | x/wasm/keeper/keeper.go:405-439 | It has then paid exactly lookup, setup (discounted for replies, pinned codes and codes loaded before), preparation, host calls, VM gas divided by the multiplier, records and events, and written exactly what preparation, VM and records wrote. |
| DispatchOutcomes.EntryLogs | x/wasm/keeper/keeper.go:440-447 | It has emitted the events of preparation and records, one event of the entry's type that names the contract, then attributes and custom events of the response. |
| DispatchOutcomes.LoadedIsDiscounted | x/wasm/keeper/keeper.go:1184-1199 | After a paid setup the code counts as loaded, and nothing is forgotten. |
| DispatchOutcomes.ContractErrorsAreShown | x/wasm/keeper/keeper.go:429-437 | A contract's own error carries the code of its entry point and its text may be read in a reply; a crash shows only that it was one. |
| DispatchOutcomes.DispatchErrors | x/wasm/keeper/keeper.go:441-451 | An unanswered error of a sub-message fails the call with the same code: unchanged for executions, without its kind for other entries. |
| DispatchLaws.EnterLaw | x/wasm/keeper/keeper.go:401-451 | For every contract call, by one induction over the whole recursion: store, events and data after it are read off the tree of what happened; gas spent is the sum over the tree; paid contract entries, failed ones included, number at most the gas spent; replies and depths are as specified. |
| DispatchLaws.CommittedWritesOnly | x/wasm/keeper/msg_dispatcher.go:92-202 | The store after a successful call is the starting store with exactly the writes of succeeded sub-messages and replies applied, in order, at every depth. A failed sub-message contributes nothing. |
| DispatchLaws.LastReplyDataWins | x/wasm/keeper/keeper.go:1520-1529 | The data of a call is the last non-nil reply data in dispatch order, else the contract's own, recursively through replies. |
| DispatchLaws.EventsInOrder | x/wasm/keeper/msg_dispatcher.go:120-201 | The event log grows by the events of the funds transfer and of the records, the entry event, the response events, then, per sub-message in order, by its events that are not of type "message" if it succeeded, with sorted attributes if it came as a Wasm message, and by the events of its reply. |
| DispatchLaws.RepliesAsRequested | x/wasm/keeper/msg_dispatcher.go:137-193 | At every depth the contract is entered with a reply exactly on the outcomes the mode asks for, and with exactly the reply owed: id, payload, and the events (of any Wasm message, also one that enters no contract), first data item and flattened responses of the sub-message or its redacted error, also when that entry then fails. Nothing is dispatched after an unanswered failure. |
| DispatchLaws.ChargeParentLaw | x/wasm/keeper/msg_dispatcher.go:64-88 | The parent pays exactly what the limited meter consumed, or exactly the limit after an out-of-gas panic; the payment is at most the limit, stays below the parent's remaining gas, and so never makes the parent run out. Other panics pass through. |
| DispatchLaws.GasConserved | x/wasm/keeper/msg_dispatcher.go:106-117 | A call that returns has moved its meter by exactly the gas its tree spent through all nested meters; an exhausted run counts as its limit, a failed one as what it used. |
| DispatchLaws.EntriesPaidFor | x/wasm/keeper/keeper.go:660-699 | A run, even one that panics, never pays for more contract entries than it had units of gas; entries that fail later count. |
| DispatchLaws.DepthBounded | x/wasm/keeper/keeper.go:896-912 | Every handler, also one that fails, runs at a counter value equal to its true nesting level and not above the maximum, if the maximum is below 2^32 - 1. |
| DispatchLaws.DepthBoundedIff | x/wasm/keeper/keeper.go:896-912 | The maximum bounds the nesting of every handler, in every world and for every call, if and only if it is not 2^32 - 1: then a contract that calls itself gets deeper, because the counter wraps. |
| DispatchLaws.SandboxLaw | x/wasm/keeper/msg_dispatcher.go:100-118 | The laws above for one sub-message run in its cached context, with or without a meter of its own. |
| DispatchLaws.StepLaw | x/wasm/keeper/msg_dispatcher.go:94-201 | The laws above for one sub-message together with the decision to commit or revert and its reply. |
| DispatchLaws.DispatchSubsLaw | x/wasm/keeper/msg_dispatcher.go:92-202 | The laws above for any list of sub-messages, by composing the effects of its elements in order. |
| DispatchRelations.ErrorTextsNeverMatter | x/wasm/keeper/msg_dispatcher.go:205-226 | Two worlds that differ only in the texts of errors without a deterministic kind give the same stores, gas, events and data in every call: no contract can observe such a text through replies. |
| DispatchRelations.EnterKeeps | x/wasm/keeper/msg_dispatcher.go:92-202 | Any store invariant that each single effect keeps is kept by every call, however its sub-messages are committed, reverted and answered. |
| DispatchRelations.EnterTracks | x/wasm/keeper/msg_dispatcher.go:92-202 | Any relation between the store and a log of steps that each entry and each handled native message extends by its own steps holds, after a successful call, of the store and the log of exactly the committed steps, in order, at every depth. |
| RegistryDispatch.RegistryFollowsRun | x/wasm/keeper/msg_dispatcher.go:92-202 | A successful call, with sub-messages that execute, instantiate and migrate, with rollbacks and replies at any depth, takes a store that represents a registry to one that represents the registry after a run of exactly the committed operations; the registry invariant holds again, and the operations number at most twice the gas spent. |
| RegistryDispatch.OwnWrites | x/wasm/types/keys.go:61-64 | Writes under a contract's own prefix change the represented registry by exactly these state writes; writes outside the registry's prefixes change nothing of it. |
| KeeperWorlds.PlainWorldIsKeeperWorld | x/wasm/keeper/keeper.go:246-451 | The assumptions about the world can be met, for every lossless encoding of the records and whatever contracts answer: registered contracts store something when called, and instantiation writes its four records. |
| KeeperWorlds.InstanceWritten | x/wasm/keeper/keeper.go:369-383 | The four writes of instantiate, as byte strings, register the contract: the store represents the registry with record, history and both index entries. |
| DispatchRelations.DispatchSubsKeeps | x/wasm/keeper/msg_dispatcher.go:92-202 | Any such invariant is kept by every list of sub-messages with their replies. |
| Dispatcher.DispatchSubmessages | x/wasm/keeper/msg_dispatcher.go:92-202 | The loop over stacked store caches, shared meters and event managers computes the outcome of the flat semantics: result, store, gas, events and loaded contracts. |
| Dispatcher.DispatchOne | x/wasm/keeper/msg_dispatcher.go:94-201 | One iteration of that loop, including the commit of the cache and the reply, has the outcome of one step of the flat semantics. |
| Dispatcher.RunSandbox | x/wasm/keeper/msg_dispatcher.go:100-118 | Running a sub-message in a fresh cache and event manager leaves the parent's store and events alone and computes the sandbox outcome. |
| Dispatcher.CommitSandbox | x/wasm/keeper/msg_dispatcher.go:120-135 | Committing pushes the cached writes to the parent and appends the filtered events; for Wasm messages, also those that enter no contract, their attributes are sorted, also in the parent's log, because the sort works in place. |
| Dispatcher.DispatchMsgWithGasLimit | x/wasm/keeper/msg_dispatcher.go:64-88 | A private meter, its panics recovered, and the charge to the parent together have the outcome of the flat rule. |
| Dispatcher.DispatchMessage | x/wasm/keeper/handler_plugin.go:133-140 | Depth check and message handling on objects match the flat rule. |
| Dispatcher.RouteToContract | x/wasm/keeper/handler_plugin.go:71-93 | A message to a contract runs on an event manager of its own, and its events are returned to the sender. |
| Dispatcher.EnterContract | x/wasm/keeper/keeper.go:401-451 | Loading, VM call, response handling and dispatch on objects match the flat rule, with reply data overriding the response data. |
| Dispatcher.LoadContract | x/wasm/keeper/keeper.go:405-420 | Lookup, discount, setup cost and funds transfer on objects match the flat rule, with gas, writes and events of the transfer. |
| Dispatcher.CallReply | x/wasm/keeper/keeper.go:660-699 | A reply runs in the context of the parent, at the depth of the parent. |
| Dispatcher.CheckDiscountEligibility | x/wasm/keeper/keeper.go:1184-1199 | The table of loaded contracts is shared by all contexts of a transaction and survives rollbacks. |
| Dispatcher.RuntimeGasForContract | x/wasm/keeper/keeper.go:1290-1299 | Gas handed to the VM, including the panic of the overflow check. |
| Dispatcher.EmitResponse | x/wasm/keeper/keeper.go:1261-1288 | Events are emitted in the order entry event, attributes, custom events; an invalid one stops there. |
| Events.FilterEvents | x/wasm/keeper/msg_dispatcher.go:228-237 | The loop keeps exactly the events whose type is not "message", in order. |
| Events.StableSortCorrect | x/wasm/keeper/msg_dispatcher.go:128-134 | Sorting attributes by key is stable: the result is sorted and, for every key, holds the same attributes in their old order. |
| Events.StableSortUnique | x/wasm/keeper/msg_dispatcher.go:128-134 | There is only one such order, so the result does not depend on the sorting algorithm. |
| Gas.GasMeter.ConsumeGas | x/wasm/keeper/keeper.go:1301-1308 | The meter adds first and panics after: on 64-bit overflow the counter saturates. |
| Gas.GasMeter.ConsumeRuntimeGas | x/wasm/keeper/keeper.go:1301-1308 | Unlike a plain charge it panics already when the meter lands exactly on its limit. |
| Gas.RuntimeRaises | x/wasm/keeper/keeper.go:1301-1308 | No panic if and only if consumption stays strictly below the limit. |
| Gas.OverflowTestSoundIff | x/wasm/types/gas_register.go:252-258 | The overflow test of the conversion to VM gas catches every overflow if and only if the multiplier is at most 2; the default is 140000. |
| Gas.VmGasExactIff | x/wasm/types/gas_register.go:252-258 | The conversion returns the exact product if and only if it fits 64 bits, as it does for amounts up to the largest one divided by the multiplier. |
| Gas.UndetectedPasses | x/wasm/types/gas_register.go:252-258 | For every multiplier from 3 on, an amount whose wrapped product passes the test. |
| Kv.Layer.Commit | x/wasm/keeper/msg_dispatcher.go:121-122 | Committing a cache makes the parent's view equal to the cache's view. |
| Keys.ParseEnc | x/wasm/types/keys.go:45-146 | Every key of the store can be read back: no two records, index entries or history entries share a key, even when one address is a prefix of another. |
| Keys.EncParse | x/wasm/types/keys.go:45-146 | Every byte string that parses is the key its record builds. |
| Keys.HistoryPrefixExact | x/wasm/keeper/keeper.go:788-797 | Among keys under the history prefix of an address, those with eight more bytes are exactly the entries of that address. |
| Keys.ByCreatorPrefixExact | x/wasm/types/keys.go:108-118 | A scan by creator sees exactly the index entries of that creator, also when one creator's address begins like another's. |
| Keys.ByCodePrefixExact | x/wasm/types/keys.go:97-104 | A scan by code sees exactly the index entries of that code, and the rest of the key is the address. |
| Keys.HistoryKeyOrder | x/wasm/types/keys.go:120-127 | History keys of one contract sort by position. |
| Scans.Iterate | x/wasm/keeper/keeper.go:788-797 | A prefix scan visits exactly the keys with the prefix, in ascending order. |
| KeeperStore.LastPosition | x/wasm/keeper/keeper.go:784-797 | The reverse scan stops at the contract's own last entry, or at none if it has no history, whatever other addresses share the prefix. |
| KeeperStore.GetContractHistory | x/wasm/keeper/keeper.go:809-825 | The forward scan returns exactly the contract's history as one sequence, in order. |
| KeeperStore.ScanIsHistory | x/wasm/keeper/keeper.go:809-825 | The scanned keys of the right length are the keys of positions 1 to n, in that order. |
| WasmKeeper.Keeper.AppendToContractHistory | x/wasm/keeper/keeper.go:784-807 | A new entry gets the position after the last one of its own contract and changes no other key. |
| WasmKeeper.Keeper.LastHistoryEntry | x/wasm/keeper/keeper.go:828-842 | The last entry of the contract's own history; the panic happens if and only if that history is empty. |
| WasmKeeper.MigrateNeverPanics | x/wasm/keeper/keeper.go:518-533 | In every run from a registry in order a registered contract has a history and its old code is stored, so migrate never panics on them. |
| WasmKeeper.Keeper.Create | x/wasm/keeper/keeper.go:153-206 | From a store that represents a registry to one that represents the registry with the new code, or an error exactly when the registry rule says so. |
| WasmKeeper.Keeper.Instantiate | x/wasm/keeper/keeper.go:246-398 | A store that represents a registry comes to represent the registry after instantiate, or an error is returned exactly when the registry rule says so: creator, code lookup, permission, address, duplicate check, VM writes, port, both indexes, history and record. |
| WasmKeeper.Keeper.StoreInstance | x/wasm/keeper/keeper.go:369-383 | The four writes leave exactly one by-code and one by-creator entry, a history of one entry and the record. |
| WasmKeeper.Keeper.Migrate | x/wasm/keeper/keeper.go:453-562 | A store that represents a registry comes to represent the registry after migrate, or an error is returned exactly when the registry rule says so, including the versions that decide whether the entry point is called. |
| WasmKeeper.Keeper.MoveInstance | x/wasm/keeper/keeper.go:518-533 | The index entry of the old last position is gone, the one of the new last position is there, history has one entry more. |
| RegistryOutcomes.MigrateSucceedsIff | x/wasm/keeper/keeper.go:453-515 | A migration succeeds if and only if contract, codes and their reports are there, the policy permits changing the contract and using the code, an IBC port is not lost and a new one can be bound, and the VM answers unless both codes have the same migrate version. |
| RegistryOutcomes.MigrateLeaves | x/wasm/keeper/keeper.go:498-533 | If a version is unset or they differ the entry point has run: each key of the contract holds its last write, else its old value. If both are set and equal the state is unchanged. Record and history name the new code, admin, label, creator and creation stay, and no other contract changes. |
| RegistryOutcomes.SameVersionIgnoresVm | x/wasm/keeper/keeper.go:498-505 | With equal versions the answer of the VM makes no difference. |
| RegistryOutcomes.InstantiateSucceedsIff | x/wasm/keeper/keeper.go:246-383 | An instantiation succeeds if and only if there is a creator, the code is stored, analyzed and usable, the address can be built and is free, and VM, account checks and port binding agree. |
| RegistryOutcomes.InstantiateLeaves | x/wasm/keeper/keeper.go:350-383 | The whole record of the new contract (code, creator, admin, label, position, port), one history entry, the state the VM wrote key by key, and the counter one further exactly for counter-based addresses. |
| RegistryOutcomes.ExecuteLeaves | x/wasm/keeper/keeper.go:401-439 | Executing succeeds exactly for registered contracts with a stored code and changes their state alone, key by key to the last write. |
| RegistryOutcomes.CreateLeaves | x/wasm/keeper/keeper.go:153-206 | An upload succeeds exactly if permitted and the VM takes the code, and stores hash, creator and access under the next id. |
| RegistryOutcomes.UpdatesSucceedIff | x/wasm/keeper/keeper.go:743-782 | When changes of admin, label, code access, pins and parameters succeed. |
| RegistryOutcomes.OrdinaryNeedsConsent | x/wasm/keeper/keeper.go:743-782 | Under the default policy uploads and instantiations take an actor who is let in, changes of a contract its admin, changes of code access the creator of the code. |
| RegistryOutcomes.OnlyTheirOperations | x/wasm/keeper/keeper.go:743-782 | Code, admin, label, access, pins and parameters change by their own operations only and to what those say; creator, creation and code hash never change. |
| RegistryOutcomes.AdminOfRun | x/wasm/keeper/keeper.go:743-762 | After any run the admin of a contract is the one the last successful update set, or the one it had. |
| WasmKeeper.Keeper.UpdateContractInfo | x/wasm/keeper/keeper.go:743-782 | Changing admin or label changes the record alone; no index moves. |
| WasmKeeper.Keeper.SetAccessConfig | x/wasm/keeper/keeper.go:1235-1258 | Changing a code's access changes that record alone. |
| WasmKeeper.Keeper.SetPinned | x/wasm/keeper/keeper.go:1128-1172 | Pinning and unpinning change the pinned index alone, and only for stored codes. |
| WasmKeeper.Keeper.AutoIncrement | x/wasm/keeper/keeper.go:1310-1326 | The id handed out is the stored value or 1; the stored value becomes one more, modulo 2^64. |
| WasmKeeper.Keeper.Perform | x/wasm/keeper/keeper.go:246-562 | Any operation: the store represents the registry after the step, or is the very same store after an error; other prefixes are not touched. |
| WasmKeeper.Keeper.PerformAll | x/wasm/keeper/keeper.go:246-562 | Any run from a store in order, the empty one or an imported one, ends in a store that represents the registry of the run; nothing outside the registry's prefixes, pending packets for example, is touched. |
| ContractIndexes.List | x/wasm/keeper/keeper.go:718-741 | On any store, a scan of an index returns exactly the addresses of its entries, in ascending order of position and then of address. |
| WasmKeeper.Keeper.ContractsByCode | x/wasm/keeper/keeper.go:729-741 | Iterating by code returns exactly the indexed contracts of that code, each once, in ascending order of their last code update. |
| WasmKeeper.Keeper.ContractsByCreator | x/wasm/keeper/keeper.go:718-727 | Iterating by creator returns exactly the indexed contracts of that creator, each once, in ascending order of creation; an address of more than 255 bytes panics. |
| WasmKeeper.Keeper.ContractsByCodeOfRun | x/wasm/keeper/keeper.go:729-741 | After any run, iterating by code returns exactly the contracts whose record names the code, each once, in ascending order of their last code update. |
| WasmKeeper.Keeper.ContractsByCreatorOfRun | x/wasm/keeper/keeper.go:718-727 | After any run, iterating by creator returns exactly the contracts whose record names the creator, each once, in ascending order of the creation their records name. |
| WasmKeeper.IndexesAgree | x/wasm/keeper/keeper.go:702-716 | For every well-formed key of any represented registry: a by-code entry exists if and only if it names a contract and code and position of its last history entry, a by-creator entry if and only if it names a contract, its creator and its first position; for a consistent contract these are current code and creation. |
| WasmKeeper.ByCodeMatchesRecord | x/wasm/keeper/keeper.go:730-741 | A contract is indexed under the code of its last history entry and no other; so it is found under the code its record names if and only if the two agree. |
| RegistryLaws.StepKeepsInv | x/wasm/keeper/keeper.go:473-533 | Every operation keeps the invariant: record, history, code, port and address of each contract agree, state paths have owners, sequences are ahead of all ids. |
| RegistryLaws.RunKeepsInv | x/wasm/keeper/keeper.go:354-383 | It holds after every run from any registry it holds of, while the 64-bit counters suffice. |
| RegistryLaws.ReachableInv | x/wasm/keeper/keeper.go:354-383 | That invariant holds after every run of fewer than 2^64 - 2 operations from the empty registry. |
| RegistryLaws.PortsFollowCode | x/wasm/keeper/keeper.go:473-505 | In every run from a registry in order a contract has an IBC port if and only if its current code has IBC entry points, the port is the one derived from its address, and its current code is stored. |
| RegistryLaws.ClassicNeverFailsOnAddress | x/wasm/keeper/keeper.go:276-282 | On a chain that started empty no counter-based instantiation, of any code, meets an existing address, if the keys the run hashed and the next one do not collide. |
| RegistryLaws.ClassicMeetsOnlyInitial | x/wasm/keeper/keeper.go:276-282 | After any run from any registry such an instantiation can meet the address of an initial contract only. |
| RegistryLaws.RunDerived | x/wasm/keeper/addresses.go:18-72 | Every contract a run adds has an address hashed from a used instance id or a valid origin of that run. |
| RegistryLaws.PaddedChainMeetsAll | x/wasm/keeper/addresses.go:36-41 | The assumption on the hash can be met: a chain on which no run of counter-based instantiations has a collision. |
| RegistryLaws.NoAddressPrefixes | x/wasm/keeper/addresses.go:36-72 | A generated address is never a proper prefix of another. |
| RegistryLaws.AdminlessContractsStay | x/wasm/keeper/keeper.go:743-782 | A contract without admin keeps record and history through any run of operations under the default policy. |
| RegistryLaws.CodesStayWithinDefault | x/wasm/keeper/keeper.go:1235-1258 | While the parameters stay, no run under the default policy opens a code to more access types than the chain's default. |
| Addresses.BuildPredictableKey | x/wasm/keeper/addresses.go:49-72 | The buffer filled by four copies at offsets is the concatenation of the four length-prefixed fields. |
| Addresses.PredictableKeyInjective | x/wasm/keeper/addresses.go:49-77 | The key determines checksum, creator, salt and message. |
| Addresses.ClassicKeyInjective | x/wasm/keeper/addresses.go:36-41 | The classic key determines code id and instance id. |
| Addresses.AddressInjective | x/wasm/keeper/addresses.go:36-77 | Two derivations whose keys do not collide give one address only if they are the same; in particular a predictable address is never a classic one. |
| GenesisKeeper.ExportGenesis | x/wasm/keeper/genesis.go:86-135 | From a store that represents a registry, the produced state is its export: params, all codes with pins, all contracts with state and full history, both sequences, each list in order and complete. |
| GenesisKeeper.ExportCodes | x/wasm/keeper/genesis.go:91-103 | Every stored code once, by ascending id, with its pin. |
| GenesisKeeper.ExportContracts | x/wasm/keeper/genesis.go:105-121 | Every contract once, by ascending address, with its record, history and state. |
| GenesisKeeper.ExportState | x/wasm/keeper/keeper.go:1047-1058 | Every path that starts with the address, once and in order: also paths of a contract whose address is longer. |
| GenesisKeeper.InitGenesis | x/wasm/keeper/genesis.go:23-83 | On an empty store it succeeds exactly when the import function does, and the store then holds exactly the imported registry and the values of sequences with other keys. |
| GenesisKeeper.InitContract | x/wasm/keeper/keeper.go:1355-1385 | importContract: history at positions 1 to n, record, both index entries and state, or an error exactly as specified, an empty contract or creator address among them. |
| GenesisKeeper.AppendEntries | x/wasm/keeper/keeper.go:784-807 | Several entries are appended at consecutive positions after the last one. |
| GenesisKeeper.InitCode | x/wasm/keeper/keeper.go:217-244 | importCode and the pin: an error on a wrong checksum or a taken id. |
| GenesisKeeper.InitState | x/wasm/keeper/keeper.go:1060-1073 | A state key that is there already is an error; otherwise all keys are added. |
| GenesisKeeper.InitSequence | x/wasm/keeper/keeper.go:1342-1353 | The value is written to whatever key the genesis names; a key that is taken, by a record or an earlier sequence, is an error. |
| GenesisKeeper.CheckSequences | x/wasm/keeper/genesis.go:64-81 | The code sequence is ahead of all ids and nothing is stored under the key of the probed address, also counting values of sequences with other keys. |
| GenesisKeeper.ExportImport | x/wasm/keeper/genesis.go:23-135 | Export from the store of any run and import into an empty store succeed, and the second store represents the same registry, unless the key of the probed address collides. |
| Genesis.RoundTripIff | x/wasm/keeper/genesis.go:23-135 | For a registry in order the import of its export gives the registry back if and only if no registered address is a proper prefix of another one that has state and the probed address is not registered; otherwise it fails. |
| Genesis.ReachableRoundTrip | x/wasm/keeper/genesis.go:23-135 | For the registry of every run from the empty one the import of its export succeeds, with both sequence checks passing, and gives it back; unused sequences are written out as 1. The keys the run hashed and the probed one must not collide. |
| Genesis.NestedAddressesBreakTheRoundTrip | x/wasm/keeper/keeper.go:1047-1073 | A concrete registry in order, with a 20-byte address that begins a 32-byte one, whose own export cannot be imported. |
| Genesis.NestedArises | x/wasm/keeper/genesis.go:23-83 | That registry arises: InitGenesis builds it from a hand-written genesis. |
| Genesis.ImportUndoesExport | x/wasm/keeper/genesis.go:23-135 | Without shared state codes, pins, contracts, state, history with its positions, sequences and params are all rebuilt, and the import fails only if the probed address is registered. |
| Genesis.SharedStateBlocksImport | x/wasm/keeper/keeper.go:1060-1073 | The failing direction: the longer address finds its path imported already. |
| Genesis.ProbeCoversOneCode | x/wasm/keeper/genesis.go:72-81 | The check of the instance sequence excludes a clash of the next classic address of code c, over all importable states, if and only if that address is the probed one: c equals the sequence value, or the hash collides. |
| GenesisAcceptance.AcceptedIff | x/wasm/keeper/genesis.go:23-83 | InitGenesis accepts a file if and only if every code has its checksum, ids are distinct, contracts have accepted addresses, stored codes and histories, their addresses are distinct and so are all their state paths, sequence keys are new and distinct, the code sequence is ahead of all ids and the probed address is free. |
| GenesisAcceptance.ContractsAcceptedIff | x/wasm/keeper/keeper.go:1355-1385 | The contracts of a file are accepted exactly if each is fine by itself, addresses are distinct and no two keys share a store path. |
| GenesisAcceptance.SequencesAcceptedIff | x/wasm/keeper/keeper.go:1342-1353 | The sequences of a file are accepted exactly if their keys are not empty, hold no record and differ. |
| GenesisRuns.ImportStores | x/wasm/keeper/genesis.go:23-83 | The registry InitGenesis builds holds exactly the codes and contracts of the genesis with their histories; state keys have owners and the code sequence is ahead of all ids. |
| GenesisRuns.ImportConsistentIff | x/wasm/keeper/keeper.go:1355-1385 | importContract compares record, history and code report of a contract in no way: the imported registry is consistent if and only if code, creation position and port of every genesis contract agree with its history and code report. |
| GenesisRuns.ImportRepresentsIff | x/wasm/keeper/genesis.go:57-62 | The store an accepted genesis leaves represents the imported registry if and only if every sequence key is one of the two sequence keys or outside the registry's prefixes. |
| GenesisRuns.StrayEntryIsListed | x/wasm/keeper/keeper.go:729-741 | From any accepted genesis with such keys one more sequence, with the key of a by-code entry of an address that is not registered, gives an accepted genesis that agrees as much as before, and iterating by code then returns that address. |
| GenesisRuns.RunsFromGenesis | x/wasm/keeper/genesis.go:23-83 | Every run of a chain that started from a genesis in agreement keeps the registry invariant. |
| GenesisRuns.RunChain | x/wasm/keeper/genesis.go:23-83 | From the empty store through a genesis in agreement with such keys and any run: the store represents the registry of the run, which is in order. |
| Authz.AcceptGrantedMessage | x/wasm/types/authz.go:245-312 | The loop over the grant array answers as the first grant that does not skip the message decides; the array it edits in place holds afterwards exactly the old list with one grant replaced, or removed with the last one left twice. |
| Authz.First | x/wasm/types/authz.go:258-283 | The index of the first grant that does not skip: all earlier ones do. |
| Authz.CopyDown | x/wasm/types/authz.go:288 | Appending a tail of a slice to its own head on one backing array moves the tail down unharmed. |
| Authz.DropGrant | x/wasm/types/authz.go:287-296 | Despite overwriting its input the result is the old list without grant i. |
| Authz.RenewGrant | x/wasm/types/authz.go:297-306 | Despite overwriting its input the result is the old list with grant i replaced. |
| Authz.ValidateGrants | x/wasm/types/authz.go:224-236 | Accepts exactly non-empty lists of valid grants. |
| Authz.SubExact | x/wasm/types/authz.go:593 | Coin subtraction panics if and only if some denom would become negative; otherwise it is exact for every denom. |
| Authz.LimitAccounts | x/wasm/types/authz.go:557-652 | A valid limit never errs; it renews to a valid limit that has paid exactly the funds and one call, drops only what could afford them, and is kept as it is only by a budget limit without funds. |
| Authz.UpdatedValid | x/wasm/types/authz.go:292-305 | From a valid list the updated list is valid, and the only errors are malformed messages and filter errors: the checks of the new grant state cannot fail. |
| AuthzOutcomes.LimitMeans | x/wasm/types/authz.go:557-652 | A valid limit takes part exactly if calls are left and the budget suffices per denom (a limit on calls pays no funds); it is dropped exactly on its last call or when the whole budget is spent, kept exactly by a budget that pays nothing, else charged one call and exactly the funds. |
| AuthzOutcomes.DeclinedIff | x/wasm/types/authz.go:258-312 | From a valid list a message is declined if and only if it is well-formed and every grant of its contract cannot cover it or denies it. |
| AuthzOutcomes.ErrorIff | x/wasm/types/authz.go:245-283 | It is an error if and only if the message is malformed or the filter of the first grant that covers it and does not deny it fails. |
| AuthzOutcomes.AcceptedBy | x/wasm/types/authz.go:258-310 | An accepted message has a grant of its contract that covers it and whose filter allows it, the first one that decides; that grant alone is removed on its last use, left alone or charged. |
| AuthzOutcomes.AcceptedIff | x/wasm/types/authz.go:258-310 | And a message is accepted whenever such a grant decides. |
| Authz.RunLedger | x/wasm/types/authz.go:245-312 | Over any run through successively updated lists every live grant holds exactly its initial budget and calls less what it paid. |
| Authz.GrantsNeverOverspend | x/wasm/types/authz.go:245-312 | Over any run no grant pays more than its budget in any denom nor accepts more messages than its counter, and what is left in the list is exactly the difference. |
| Authz.AcceptedIsBilled | x/wasm/types/authz.go:245-312 | The funds accepted for a contract are exactly the sum of what its grants paid. |
| Authz.FundsNeverExceedBudgets | x/wasm/types/authz.go:245-312 | The funds a run accepts for a contract never exceed the sum of the budgets granted for it, per denom. |
| Iterators.IdRoundTrip | wasmvm/internal/api/iterator.go:105-124 | An id leads back to its index except for the one index 2^31 - 1, which gets an id that is refused; a valid id always survives the way to its index and back. |
| Iterators.StepOk | wasmvm/internal/api/iterator.go:28-101 | Every step of every call keeps all tables in order. |
| Iterators.ReachableOk | wasmvm/internal/api/iterator.go:28-101 | So does every interleaving of the steps of fewer than 2^64 calls. |
| Iterators.CallIdsFresh | wasmvm/internal/api/iterator.go:28-33 | The next call gets an id that is not zero and that no call had before if and only if it is not the 2^64-th. |
| Iterators.Retrievable | wasmvm/internal/api/iterator.go:84-101 | While a call runs, id k finds the iterator it stored as its k-th, and exactly the ids below their number are known. |
| Iterators.OthersUntouched | wasmvm/internal/api/iterator.go:38-55 | Steps of other calls, also their ending, leave a call's phase, frame and iterators alone. |
| Iterators.ClosedExactlyOnce | wasmvm/internal/api/iterator.go:48-81 | In any interleaving frames stay within the limit, nothing a running call stored is closed, everything an ended call stored was closed exactly once; an iterator refused by the limit is never closed. |
| Iterators.TablesRefineOneList | wasmvm/libwasmvm/src/storage.rs:66-146 | For every interleaving and every call the id map over the shared frames shows exactly the list the call would have on its own, and answers its next step as that list would: ids are 0 to n-1 in the order of successful scans, id k advances the k-th iterator, a failed scan adds nothing. |
| Iterators.ScanRefines | wasmvm/internal/api/callbacks.go:227-271 | One scan appends to that list or changes nothing. |
| Iterators.NextRefines | wasmvm/internal/api/callbacks.go:274-363 | One advance moves the k-th element of that list and no other. |
| IteratorReads.ReadsInOrder | wasmvm/internal/api/callbacks.go:274-363 | In any interleaving the n-th advance of the iterator that a scan gave id k answers with the n-th item of that scan, its key or its value as asked, and with the end from the last item on; a panicking advance does not move it. |
| IteratorReads.ScansInOrder | wasmvm/internal/api/callbacks.go:227-271 | A scan of a running call is answered with the number of iterators it has stored, unless 32768 are stored or the store refuses. |
| IteratorReads.ReadsAll | wasmvm/internal/api/callbacks.go:274-363 | Reading a scan one item at a time gives exactly its items and then the end. |
| IteratorTables.Host.StartCall | wasmvm/internal/api/iterator.go:28-33 | The counter step. |
| IteratorTables.Host.TakeFrame | wasmvm/internal/api/iterator.go:38-45 | Removing a frame hands over exactly what the call stored. |
| IteratorTables.Host.EndCall | wasmvm/internal/api/iterator.go:48-55 | The closing loop run to its end is the sequence of closing steps: the state of the host is the one after them. |
| IteratorTables.Host.StoreIterator | wasmvm/internal/api/iterator.go:62-81 | The iterator goes to the end of the call's frame unless the limit is reached; the id is its place plus one. |
| IteratorTables.Host.RetrieveIterator | wasmvm/internal/api/iterator.go:84-101 | The frame entry of the id, or nothing. |
| IteratorTables.GoStorage.Scan | wasmvm/libwasmvm/src/storage.rs:66-114 | Host table and own table change together as one scan step, or neither does. |
| IteratorTables.Host.Move | wasmvm/internal/api/callbacks.go:274-363 | Reads the iterator and moves it on, and no other one. |
| IteratorTables.GoStorage.Next | wasmvm/libwasmvm/src/storage.rs:116-146 | Advances exactly the iterator of the step; unknown ids are refused. |
| Queries.CallerPaysForSubtree | x/wasm/keeper/query_plugins.go:53-65 | For every tree of queries, answered, failed or panicked, the caller's meter moves by exactly the sum of what was charged anywhere in the tree, each charge once. |
| Queries.StackBoundedIff | x/wasm/keeper/keeper.go:878-894 | Smart queries nest at most as deeply as the maximum, for every query and meter, if it is below 2^32 - 1; among queries whose lookups are charged, if and only if it is, or the multiplier is so large that no sub-query can pay for its contract. |
| Queries.LongChainNotBounded | x/wasm/keeper/keeper.go:878-894 | With the maximum 2^32 - 1 a chain of 2^32 smart queries gets through, each paying for lookup and setup from its own meter, at every price that buys one query at all, because the counter wraps. |
| Queries.LongChainAnswered | x/wasm/keeper/keeper.go:878-894 | At every price and multiplier for which VM gas for all of its queries fits 64 bits that chain is answered. |
| Queries.RunQuery | x/wasm/keeper/query_plugins.go:53-79 | On objects: the caller's store is unchanged, its meter is charged in all cases and nothing else is modified; the contract sees data, the text of a translated system error, or a redacted error. |
| Queries.RunHandle | x/wasm/keeper/query_plugins.go:164-191 | Stack check, lookup and the other query plugins on the cached context match the value semantics. |
| Queries.QuerySmart | x/wasm/keeper/keeper.go:845-876 | Setup cost, VM run, runtime gas and error mapping of a smart query on objects match the value semantics. |
| Queries.RunVm | wasmvm/internal/api/callbacks.go:475-503 | A panic inside a host call is caught at the boundary and stops the VM; gas charged until then stays charged. |
| QueryOutcomes.SmartAnsweredIff | x/wasm/keeper/keeper.go:845-894 | A smart query is answered with data if and only if the stack is not full, lookup and setup are paid, the VM ends with that data and its gas stays below the limit. |
| QueryOutcomes.NativeOutcome | x/wasm/keeper/query_plugins.go:164-191 | Any other query answers, fails or panics as its plugin does if its gas fits the meter. |
| QueryOutcomes.WithinLimit | x/wasm/keeper/query_plugins.go:53-65 | A query that does not panic has used at most the gas its caller allowed, and the caller has paid exactly that. |
| QueryOutcomes.StackFull | x/wasm/keeper/keeper.go:878-894 | Past the maximum a smart query is refused for free. |
| QueryOutcomes.ContractSees | x/wasm/keeper/query_plugins.go:66-79 | The asking contract sees data as it is; of an error the text of the system error it stands for or of a contract's own error, else codespace and code only. |
| QueryOutcomes.HiddenTexts | x/wasm/keeper/query_plugins.go:66-79 | Errors that differ in a hidden text alone look the same. |
| QueryOutcomes.PanicStopsVm | wasmvm/internal/api/callbacks.go:475-503 | A panic in a host call or sub-query stops the VM; otherwise the run goes on with the meter as it is. |
| QueryOutcomes.SmartErrors | x/wasm/keeper/keeper.go:860-876 | A contract's own error shows its text, a VM error only that it was one. |
| AsyncAck.ConversionsInverse | x/wasm/ibc.go:459-478 | Converting a received packet for the contract and back gives it back; the other way round this holds if and only if the timeout block is not one of height zero. |
| PacketKeys.SuffixInjective | x/wasm/types/keys.go:67-81 | Two packets share a key only if they are the same, given ports without zero bytes and channels shorter than 2^24. |
| PacketKeys.PortsShareKeyIff | x/wasm/types/keys.go:67-81 | Two different ports can give one key, over all channels and sequences, if and only if one extends the other by fewer than four bytes that are not all zero, or by bytes whose first four are a length of at least all of them. |
| AsyncAck.AtMostOneAck | x/wasm/keeper/relay.go:134-186 | In every run of packet deliveries and contract calls, whatever is committed, reverted, replied to or panics: each packet gets at most one acknowledgement, and a packet that waits for one is stored as it was received. |
| AsyncAck.ReloadedAsReceived | x/wasm/keeper/handler_plugin.go:245-248 | The packet an acknowledgement message loads is one that was delivered, unchanged, for that port, channel and sequence, and not acknowledged. |
| AsyncAck.DeliverKeeps | x/wasm/ibc.go:273-297 | One delivery keeps that invariant: a panic reverts all, an error acknowledgement all but the receipt, no acknowledgement stores the packet. |
| PacketOutcomes.SuccessIff | x/wasm/keeper/relay.go:134-186 | A packet gets a success acknowledgement with some data if and only if the contract ran, returned a response whose events and sub-messages went through, and the last reply data, else its own, is that data. |
| PacketOutcomes.StoredIff | x/wasm/keeper/relay.go:169-183 | It is stored for later if and only if all went through the same way, there is no data, and storing is paid for. |
| PacketOutcomes.ErrorIff | x/wasm/keeper/relay.go:139-174 | It gets an error acknowledgement if and only if the contract is missing, its run ends in an error or without result, or response or sub-messages fail without a panic. |
| PacketOutcomes.CrashUndoes | x/wasm/keeper/relay.go:151-157 | A crash of the VM leaves the store as it was. |
| PacketOutcomes.FailureLeaves | x/wasm/ibc.go:273-297 | A contract that ends in an error leaves the old store with the receipt and one acknowledgement. |
| PacketOutcomes.DispatchFailureLeaves | x/wasm/ibc.go:273-297 | So does one whose response or sub-message fails. |
| PacketOutcomes.SuccessLeaves | x/wasm/ibc.go:273-297 | A success leaves the store of the run with one acknowledgement more. |
| PacketOutcomes.StoredCanBeAcknowledged | x/wasm/keeper/handler_plugin.go:231-258 | A stored packet is found by the acknowledgement message of its own contract, which writes one acknowledgement and removes it. |
| PacketOutcomes.OnlyPendingAcknowledged | x/wasm/keeper/handler_plugin.go:231-258 | A contract can acknowledge only packets pending for a channel of its own port. |
| PacketOutcomes.ContractSeesPacket | x/wasm/ibc.go:459-470 | The contract sees both ends, sequence, data and timeouts of the packet itself. |
| AsyncAck.AckGood | x/wasm/keeper/handler_plugin.go:245-258 | Writing an acknowledgement answers its packet once and concerns no other packet. |
| AsyncAck.TameKeeps | x/wasm/keeper/handler_plugin.go:231-258 | The invariant survives every single effect of contracts and messages, hence every run of the dispatcher. |
| AsyncAck.AssumptionsMet | x/wasm/keeper/handler_plugin.go:231-258 | The assumptions of these results can be met: a codec, a channel and a world that handles acknowledgement messages. |
| PacketHandlers.ReceivePacket | x/wasm/keeper/relay.go:134-186 | On cached contexts: answer, store, gas, events and loaded contracts are those of the value semantics, with the packet stored exactly when there is no acknowledgement data. |
| PacketHandlers.RunCallback | x/wasm/ibc.go:273-297 | The receiving contract runs on an event manager and a cache of its own; a missing or successful acknowledgement passes both on, an error neither. |
| PacketHandlers.DeliverPacket | x/wasm/ibc.go:273-297 | On stacked caches: the store after a delivery is that of the value semantics. |
| PacketHandlers.WriteAcknowledgement | x/wasm/keeper/handler_plugin.go:231-258 | Acknowledgement written and stored packet deleted together, or nothing changed. |
| Policy.RightsOnlyShrink | x/wasm/keeper/authz_policy.go:11-124 | Along every path of nested messages whose later senders are not the authority, no message may do what an earlier one may not. |
| Policy.CodeRightsStayDefault | x/wasm/keeper/authz_policy.go:95-119 | No message below the first has more than default rights to create code or change code access. |
| Policy.PartialReachesEveryDepth | x/wasm/keeper/authz_policy.go:122-124 | A partial policy reaches every depth of such a path unchanged. |
| Policy.AuthorityRegainsRights | x/wasm/keeper/msg_server.go:420-428 | The condition on senders is needed: a message of the authority has all rights at any depth. |
| Policy.SubPolicyNoMore | x/wasm/keeper/authz_policy.go:75-83 | The policy for sub-messages permits nothing its parent forbids, for every policy and action. |
| Policy.AccessIsNeeded | x/wasm/keeper/authz_policy.go:13-20 | Under the default policy exactly those a configuration lets in may instantiate, and only those may upload: everybody, or the listed addresses. |
| Policy.AuthorityPropagates | x/wasm/keeper/authz_policy.go:75-124 | Below a message of the authority every message has the propagated right and otherwise default rights, and only these. |
| Policy.SubsetIff | x/wasm/types/types.go:404-414 | A specified configuration that does not list nobody is taken for a subset if and only if it lets in nobody the other keeps out. |
| Policy.SubsetAllowsNoMore | x/wasm/types/types.go:404-414 | An access configuration that is a subset lets in nobody its superset keeps out. |

## Left out

- `MessageHandlerChain`, message encoders, the signer check of `handleSdkMessage`, the burn handler and IBC sends: native messages are arbitrary handlers here.
- Wasm messages that enter no contract (admin updates, a migration that skips its entry point): for the dispatcher they are native messages marked as Wasm messages, which dispatch nothing.
- `Sudo`, channel handshake callbacks, packet acknowledgement and timeout callbacks, source and destination callbacks: they end in the same response handling as the entries modelled.
- A contract that delivers IBC packets to itself through a raw SDK message: native messages other than `WriteAcknowledgement` are taken not to touch receipts, acknowledgements and pending packets.
- Pending packets are not part of the genesis state, in the code as in this model.
- The contents of contract record extensions, and params validation in `SetParams`.
- Pinning inside the VM: the store's pinned index and the VM's pins are not related by the code, and only the index is modelled.
- `StoreCodeAuthorization` and the filters of contract grants: filters are arbitrary decisions on the payload.
- Gas prices, uncompression costs and the free tier of event costs: parameters.
- Writes to a store while an iterator over it is open: an iterator yields a fixed list of items.
- The event about an acknowledgement that `IBCHandler.OnRecvPacket` emits last, and the texts of acknowledgements.
- How answers of sub-queries influence a contract: a script is one finite run, and the results hold for all scripts.
- The snapshot extension, gRPC queries and pagination, legacy proposals, CLI, app wiring and migrations of the module: easier members without a hard property.
- Memory ownership across the cgo boundary, and the VM itself.
- DispatchLaws.DepthBounded: contracts that a native message enters (authz exec, for example) leave no node in the tree, so nothing is said about their depth.
- DispatchLaws.EntriesPaidFor: contracts that a native message enters are not counted as entries; their gas is part of the message's gas.
- GenesisRuns.RunsFromGenesis: speaks of the imported registry, which the store represents exactly when the sequence keys are harmless; runs on a store with stray values are not modelled.
- Dispatch.Enter: does not cover a meter without limit, because the recursion ends only by gas.
- KeeperStore.GetContractHistory: for histories shorter than 2^64 entries, the range of the position counter.
- GenesisKeeper.ExportGenesis: for a store with params set, as every chain has after its own genesis; the error of an unset value is not modelled.
