# Parseon: a verified model of the finalized-block indexer

Parseon indexes finalized EVM blocks. Users register chains and, per chain, *monitors*: a contract address
with a function selector or an event signature, a block range, and optionally a filter. One worker per chain
polls the finalized head, plans the blocks its monitors still need, prepares them (fetch, decode, filter) and
commits them in block order, advancing each monitor's cursor together with its results. Committed results are
also handed to an optional sink.

This project models that pipeline and proves what it is for. Files, bottom up:

- `Domain`, `Text`, `Results`: widths, ABI types and values, monitors, decimal and hex text, result multisets.
- `FilterCompiler`, `FilterProofs`, `FilterEncoding`: the filter compiler, what it accepts, its meaning, its
  canonical form, and the encoding its byte limit measures.
- `Findings`: what a monitor is meant to find, told from raw transactions and logs and from the expression its
  filter was compiled from.
- `Abi`, `Indexer`, `BlockDecoder`: layouts, the grouped monitor index, decoding through it.
- `Preparer`: one block source contract, the block cache, call and event preparation, window log requests.
- `Scheduler`: the poll plan and its windows. `CatchUp`: lag, progress per poll, eviction.
- `Storage`: the abstract commit. `Postgres`, `Mongo`: the two adapters. `ResultColumns`, `StoredParams`,
  `StoredRecords`: how results are laid out and read back.
- `Protocol`: the step machine over stored monitors and results, polls in progress and the sink.
  `ProtocolProofs`, `CommitProgress`, `SinkProofs`, `SinkWitness`, `SinkRepeats`: what every run of it keeps.
  `StoredFindings`: what the stored rows show of the chain. `LateCommits`: the same machine when the database
  decides a failed commit only later.
- `Sinks`: what is handed to the sink. `Workers`: the worker as it runs, an imperative class whose every action
  is a step of the machine.
- `LogRequests`, `ExactFilters`, `Receipts`: the JSON-RPC block source.
- `Supervision`, `Registry`: worker tasks behind the control lock, chain services behind the mutation lock.

How the world outside is modelled:

- The chain behind a node is a fixed function from block number to transactions, outcomes and logs
  (`Preparer.Source`). A node request either fails or answers with that chain's data. The byte-level ABI decoder
  is a fixed function of layout and bytes that yields values of the types it is asked for (`Abi.WellTyped`).
- Concurrency is interleaving: `Protocol.Next` lets monitors be created, paused, resumed and deleted between any
  two steps, preparations finish in any order, commits be refused or be applied and still reported as errors, and
  polls stop anywhere. `Workers.Worker.Others` is the same for the imperative worker: its contract, which the
  proofs rely on, allows any reachable world in which this worker's own poll is as it was.
- Cancellation is a flag that is set at some moment and never taken back. Failures of the node and of storage
  raise flags, so that contracts can say what an error implies.

Three statements that one might expect turn out too strong; each has a concrete counterexample and the exact
condition under which the code meets it:

- A block can be handed to the sink twice, in two polls, for monitors that reach it at different times
  (`SinkWitness.BlockDeliveredTwice`). A poll that commits its whole plan hands over some block of its chain again
  if and only if, when it starts, a delivered block of the chain lies in the share of a monitor that finds
  something in it (`SinkRepeats.RepeatsExactly`); if no delivered block lies in any share, which can be seen without
  looking at the chain, no block repeats however far the poll gets (`SinkRepeats.NoOverlapNoRepeat`). The repeated
  batches name disjoint monitors (`SinkProofs.SameBlockTwice`): once per monitor and block always holds
  (`SinkProofs.SinkInOrder`).
- The lag formula undercounts by one for a monitor without progress that has all 2^64 block numbers ahead of it,
  and only then (`CatchUp.LagCountsRemaining`, `CatchUp.LagUndercountsOnce`). A completed poll never reports such a
  lag (`CatchUp.CompletedPollReportsExactly`).
- A chain update that storage applied but reported as an error can leave a worker running for a chain that is
  disabled or has another URL (`Registry.LostUpdateWitness`). Agreement between workers and registry survives an
  update if and only if that does not happen to a live worker's chain (`Registry.ChainService.UpdateLocked`); every
  other service call keeps it.

Where the code and its comments differ the code is followed: addresses in canonical parameters are plain lower-case
hex, although the comment at `parseon-core/src/ports/storage.rs:244` also calls them checksummed.

## Model

| member | source | states |
|---|---|---|
| Text.ParsePrintNat | parseon-core/src/filter.rs:587-666 | parsing a printed unsigned number gives the number back |
| Text.PrintParseShorter | parseon-core/src/filter.rs:587-666 | printing a parsed literal never makes it longer: only leading zeros go |
| Text.ParsePrintInt | parseon-core/src/filter.rs:587-666 | the same round trip for signed numbers |
| Text.DigitTable | parseon-core/src/filter.rs:587-666 | exactly ten characters are digits, each worth its place in `0123456789` |
| Text.ParsePositional | parseon-core/src/filter.rs:587-666 | digits put behind others shift them by as many powers of ten: one text behind another is worth the first times ten to the length of the second, plus the second |
| Text.HexPositional | parseon-core/src/filter.rs:587-666 | the `i`-th byte of a hex text is sixteen times the place of its `2i`-th digit in the table, in either case, plus that of the next |
| Text.HexPrints | parseon-core/src/ports/storage.rs:249-275 | bytes are printed as two digits each, from the lower-case table, the high half first |
| Text.DecodeEncode | parseon-core/src/filter.rs:587-666 | decoding encoded hex gives the bytes back |
| FilterCompiler.Visit | parseon-core/src/filter.rs:426-459 | the recursive visitor with its running counter accepts exactly when node count, depth and arities are within limits, and counts exactly the nodes |
| FilterCompiler.VisitChildren | parseon-core/src/filter.rs:426-459 | the same for a list of children, stopping at the first that breaks a limit |
| FilterCompiler.ValidateLimits | parseon-core/src/filter.rs:416-461 | an expression is accepted exactly when bytes, nodes, depth and arities are all within the limits |
| FilterEncoding.EncodedIsLength | parseon-core/src/filter.rs:416-425 | the length the byte limit looks at is that of the compact JSON encoding, written out byte by byte with its escapes |
| FilterCompiler.FindParam | parseon-core/src/filter.rs:529-566 | the first parameter of that name, or none if no parameter has it |
| FilterProofs.FieldMeans | parseon-core/src/filter.rs:698-738 | resolving a compiled field never fails on a fitting result, yields the value the name denotes, and of the field's type |
| FilterProofs.LookupDenotes | parseon-core/src/filter.rs:698-738 | a field name means the block, the hash, the sender, the receiver, the emitter, the log index, or the value of the first parameter of that name, and nothing else |
| FilterProofs.LiteralMeans | parseon-core/src/filter.rs:740-772 | comparing with a parsed literal never fails; for numbers each of the six operators is the arithmetic comparison of the value with the literal, for everything else equality or its negation |
| FilterProofs.CompileAccepts | parseon-core/src/filter.rs:463-527 | an expression compiles exactly if every comparison names a field of the target, its literal is one of that field's type, and it is ordered only on numbers |
| FilterProofs.CompileMeans | parseon-core/src/filter.rs:463-527 | a compiled expression evaluates without error to what the source expression denotes, on every result with the schema's decoded types |
| FilterProofs.FilterNeverFails | parseon-core/src/filter.rs:331-356 | a stored filter never fails on a decoded result of its target |
| FilterProofs.FitsSameLayout | parseon-core/src/indexer.rs:166-253 | values decoded through another monitor of the same kind and layout fit as well: names play no part |
| FilterProofs.CanonicalLiteral | parseon-core/src/filter.rs:587-666 | a canonical literal parses to the same value, is its own canonical form, and is no longer |
| FilterProofs.CanonicalFixedPoint | parseon-core/src/filter.rs:463-527 | compiling the canonical expression returns it unchanged with the same compiled tree; it is no longer and has the same shape |
| FilterProofs.PersistedFilterReloads | parseon-core/src/filter.rs:143-163 | whatever was accepted once is accepted again from its persisted form, within the limits, with the same compiled filter |
| FilterProofs.CanonicalKeepsMeaning | parseon-core/src/filter.rs:143-163 | the canonical expression means what the submitted one meant |
| Abi.InterleaveValues | parseon-core/src/abi.rs:163-180 | the two advancing iterators compute the interleaving, failing exactly when one side runs out |
| Abi.InterleaveInvertsSplit | parseon-core/src/abi.rs:146-180 | splitting event values by indexed flag and re-interleaving restores ABI order |
| Abi.InterleaveTyped | parseon-core/src/abi.rs:163-180 | interleaving well-typed parts never fails and gives every parameter a value of its type, hashed where indexed |
| Indexer.NewIndex | parseon-core/src/indexer.rs:51-107 | the index lists exactly the active monitors, each key and layout with exactly its monitors ascending; it fails exactly for an active event layout with more than three indexed parameters |
| Indexer.BinarySearchFinds | parseon-core/src/indexer.rs:117-128 | on ascending plan indices, binary search is membership |
| Indexer.MatchesMeans | parseon-core/src/indexer.rs:229-249 | on a fitting context a monitor alone gives exactly one result, showing all of the context, if the expression behind its filter holds of it, and none otherwise |
| Indexer.FanOut | parseon-core/src/indexer.rs:166-253 | every planned monitor of the group gets exactly one result if the expression behind its filter holds of the decoded context, and none otherwise; nobody else gets anything |
| Indexer.DecodeLayout | parseon-core/src/indexer.rs:166-253 | decoding a layout once serves exactly the planned monitors of that key and layout; a layout that does not decode gives nothing and fails nothing |
| Indexer.MatchKey | parseon-core/src/indexer.rs:166-253 | over all layouts of a key, in any order, every planned monitor gets exactly what decoding with its own schema and filter gives, and nobody else anything |
| BlockDecoder.DecodeCandidate | parseon-core/src/indexer.rs:166-253 | one candidate gives every planned monitor its own hits if it succeeded, nothing otherwise |
| BlockDecoder.CallHitsMean | parseon-core/src/indexer.rs:166-253 | a transaction gives a monitor a result exactly if it succeeded, goes to the watched address with the watched selector, its arguments decode and the expression holds; the result shows its sender, receiver, hash and arguments |
| BlockDecoder.EventHitsMean | parseon-core/src/indexer.rs:255-341 | a log gives a monitor a result exactly if it is of the watched address and signature, its parameters decode and the expression holds; the result shows its hash, index and parameters |
| BlockDecoder.ScanCallsMean | parseon-core/src/indexer.rs:166-253 | a block's calls for one monitor are, in order, what each transaction is meant to give it |
| BlockDecoder.ScanEventsMean | parseon-core/src/indexer.rs:255-341 | a block's events for one monitor are, in order, what each log is meant to give it |
| BlockDecoder.DecodeCalls | parseon-core/src/indexer.rs:166-253 | per planned monitor, call decoding gives exactly, in order, the succeeded watched calls whose arguments decode and satisfy the monitor's expression, and nobody else anything; misaligned outcomes are refused, nothing else is |
| BlockDecoder.DecodeLogEntry | parseon-core/src/indexer.rs:255-341 | one log gives every planned monitor its own hits; a log no planned monitor watches passes with nothing, however badly reported; a watched one is refused exactly if it is marked removed, is of another block, or lacks its transaction hash or index |
| BlockDecoder.DecodeEvents | parseon-core/src/indexer.rs:255-341 | per planned monitor, event decoding gives exactly, in order, the watched logs whose parameters decode and satisfy the monitor's expression, and nobody else anything; refused exactly if a watched log is badly reported |
| Preparer.BlockCache.Get | parseon-core/src/ports/cache.rs:11-24 | a hit is a stored entry; any lookup may miss |
| Preparer.BlockCache.Put | parseon-core/src/ports/cache.rs:11-24 | no entry but the new one appears or changes; any other may vanish |
| Preparer.LoadBlock | parseon-core/src/worker/prepare.rs:126-137 | from cache or node, the block is the chain's, and the cache stays consistent with the chain |
| Preparer.FindCandidates | parseon-core/src/worker/prepare.rs:138-149 | dropping transactions the index does not know loses nothing for any planned monitor |
| Preparer.AnswerCandidates | parseon-core/src/worker/prepare.rs:150-155 | outcomes answer exactly the candidates, in order, with one request; without candidates nothing is requested |
| Preparer.PrepareCalls | parseon-core/src/worker/prepare.rs:109-167 | a block's calls are, per planned monitor, the scan of that block for it alone; only the node can fail it; at most two requests, none when no call monitor is planned |
| Preparer.BuildLogQuery | parseon-core/src/worker/prepare.rs:80-102 | no request without a planned event monitor; otherwise the window's whole range with exactly the targets of its planned event monitors |
| Preparer.PlanTargets | parseon-core/src/worker/prepare.rs:80-102 | one plan's targets are exactly those of its event monitors; an unknown index is refused |
| Preparer.BucketLogs | parseon-core/src/worker/prepare.rs:205-219 | buckets hold exactly each block's logs in order; refused exactly for a removed log, one without a block, or one outside the range |
| Preparer.WindowLosesNothing | parseon-core/src/worker/prepare.rs:205-232 | a block's bucket of a ranged answer gives a monitor the same events as asking for that block and that monitor's target alone |
| Preparer.FinishPrepared | parseon-core/src/worker/prepare.rs:237-269 | calls plus events are, per planned monitor, a permutation of its own scan of the block, and nothing else |
| Preparer.NoEventsPlanned | parseon-core/src/worker/mod.rs:230-264 | in a window without event targets, decoding no logs loses no planned monitor anything |
| Preparer.FinishBlock | parseon-core/src/worker/prepare.rs:221-232 | one block of a window fails only if its own calls failed |
| Preparer.PrepareEventWindow | parseon-core/src/worker/prepare.rs:174-233 | one ranged request prepares every block of the window exactly; a failed request fails the window, a failed block only itself, and only the node can fail either |
| Scheduler.PlanBlocks | parseon-core/src/scheduler.rs:23-41 | the plan names, ascending and once each, exactly the blocks in some monitor's next share, each with the ascending indices of exactly those monitors |
| Scheduler.PlanWindows | parseon-core/src/worker/prepare.rs:57-76 | windows concatenate to the plan, are consecutive and at most the limit long, and no other such split has fewer |
| Scheduler.GreedyIsOptimal | parseon-core/src/worker/prepare.rs:57-76 | a greedy split of any suffix never needs more windows than any split of the whole |
| CatchUp.LagCountsRemaining | parseon-core/src/worker/mod.rs:275-287 | the saturating lag formula counts the remaining blocks, except exactly for a fresh monitor with all 2^64 numbers ahead |
| CatchUp.LagUndercountsOnce | parseon-core/src/worker/mod.rs:275-287 | at its one failing input, a fresh monitor from block 0 under the greatest head, the formula gives 2^64 - 1 for 2^64 blocks |
| CatchUp.ReportLag | parseon-core/src/worker/mod.rs:275-290 | the reported lag is the greatest per-monitor lag, zero without monitors |
| CatchUp.CompletedPollReaches | parseon-core/src/scheduler.rs:28-36 | with the whole plan committed each monitor stands exactly at the end of its share |
| CatchUp.PollLowersRemaining | parseon-core/src/scheduler.rs:28-36 | a completed poll lowers each monitor's count by exactly min(batch, count) |
| CatchUp.CompletedPollReportsExactly | parseon-core/src/worker/mod.rs:275-290 | after a completed poll the lag is the true count, and a monitor still without a cursor had no block to index |
| CatchUp.HeadReached | parseon-core/src/worker/mod.rs:180-292 | a fixed head that storage can hold is reached by all monitors exactly from ceil(max count / batch) completed polls on |
| CatchUp.EvictionBound | parseon-core/src/worker/mod.rs:267-274 | the bound is the least next block of the active monitors |
| ProtocolProofs.NextPlanFollows | parseon-core/src/scheduler.rs:28-36 | the next plan naming a monitor is the very next block after its progress, without gap, overlap or saturation |
| ProtocolProofs.PlannedNeedsBlock | parseon-core/src/monitor.rs:47-64 | with a sound cursor, being planned and needing the block are the same |
| ProtocolProofs.ScanOfDefinition | parseon-core/src/indexer.rs:117-128 | what a block yields for a monitor does not depend on its progress |
| ProtocolProofs.ExtendScan | parseon-postgres/src/storage.rs:122-213 | committing the block right behind the cursor extends a table that scans start..=cursor by exactly that block |
| ProtocolProofs.CommitKeepsStore | parseon-core/src/worker/commit.rs:32-87 | an applied commit keeps every monitor's table equal to the scan of its committed range |
| ProtocolProofs.CommitKeepsInStep | parseon-core/src/worker/commit.rs:74-79 | the in-memory progress vector stays equal to the stored cursors |
| ProtocolProofs.CommitKeepsOther | parseon-postgres/src/storage.rs:122-213 | a commit of one chain never touches a cursor another chain's poll relies on |
| ProtocolProofs.MonitorStepKeepsWorld | parseon-core/src/services.rs:176-248 | creating, pausing, resuming or deleting a monitor at any moment breaks no table and no running poll |
| ProtocolProofs.StepKeepsWorld | parseon-core/src/worker/mod.rs:180-292 | every step of the protocol keeps the whole invariant |
| ProtocolProofs.ExactlyOnceAlways | parseon-core/src/worker/mod.rs:180-292 | in every reachable world: no cursor, no results; cursor c has start <= c <= end, results are exactly the direct scan of start..=c, each once, and completed holds iff c is the end block |
| ProtocolProofs.NoCursorSaturates | parseon-core/src/model.rs:75-80 | no reachable cursor is near the width at which the next-block addition would saturate |
| ProtocolProofs.PollCommitsPrefix | parseon-core/src/worker/mod.rs:209-265 | of a monitor's share of a running poll's plan, precisely the blocks of the committed prefix are behind its stored cursor |
| ProtocolProofs.CommitTargetsAgree | parseon-mongodb/src/storage.rs:270-302 | a poll's copy of a monitor never disagrees with storage about target or chain |
| CommitProgress.ScanUnique | parseon-postgres/src/dyn_table.rs:16-25 | on a chain with unique transactions and logs, a direct scan never yields one identity twice |
| CommitProgress.CommitRowsUnique | parseon-postgres/src/dyn_table.rs:16-25 | a commit's rows never collide with stored rows or with each other |
| CommitProgress.PreparedFits | parseon-postgres/src/storage.rs:168-197 | every prepared result is of a listed monitor, of its kind, with one value per parameter |
| CommitProgress.OnlyDeletionRefuses | parseon-postgres/src/storage.rs:122-213 | on a chain with unique identities and numbers storage can hold, a prepared block is acceptable exactly if all its monitors still exist |
| CommitProgress.PreparedIsStorable | parseon-postgres/src/dyn_table.rs:186-257 | every prepared block whose monitors still exist can be stored in MongoDB, and in PostgreSQL exactly if two columns for a call or three for an event, and one per parameter, are at most 65535 |
| StoredFindings.ScanBlockMeans | parseon-core/src/worker/prepare.rs:237-269 | the scan of a block is exactly what the monitor is meant to find in it, calls then events, and its rows carry hash, index, block and values in ABI order |
| StoredFindings.StoredIsFound | parseon-core/src/worker/mod.rs:180-292 | in every reachable world a monitor's table is, each once, the rows of what it is meant to find from its start up to its cursor |
| StoredFindings.StoredRowShows | parseon-core/src/worker/mod.rs:180-292 | in every reachable world a row is in a monitor's table if and only if it shows a transaction or log of the chain in a block from start to cursor that the monitor watches, with the values its schema decodes and its expression holds of |
| StoredFindings.StoredValuesTyped | parseon-core/src/abi.rs:163-180 | every stored value has the type of its parameter in the monitor's schema |
| SinkProofs.AppliedEncodes | parseon-core/src/ports/sink.rs:72-126 | encoding the sink batch of an applied commit never fails |
| SinkProofs.SinkInOrder | parseon-core/src/worker/commit.rs:58-73 | batches of one poll, and batches naming a common monitor over all polls, have strictly ascending blocks |
| SinkProofs.SameBlockTwice | parseon-core/src/worker/commit.rs:58-73 | two batches of one block come from different polls and name disjoint monitors |
| SinkProofs.DeliveredOnce | parseon-core/src/worker/commit.rs:58-73 | what was delivered for a stored monitor is a sub-multiset of its table, whose identities are unique |
| SinkProofs.FaithfulRunDelivers | parseon-core/src/worker/commit.rs:58-73 | unless an applied commit was reported as an error, the sink got every stored monitor's whole table in stored order |
| SinkWitness.BlockDeliveredTwice | parseon-core/src/worker/commit.rs:58-73 | a concrete reachable world in which one block was delivered twice |
| SinkRepeats.CommitSubmitsExactly | parseon-core/src/worker/commit.rs:58-73 | an acknowledged commit hands over its batch exactly if the block yields something for a planned monitor, and otherwise nothing |
| SinkRepeats.PollDelivers | parseon-core/src/worker/mod.rs:209-265 | however far a poll is, the blocks of its chain handed over since it started are exactly the committed ones that yield something |
| SinkRepeats.RepeatIsYielded | parseon-core/src/worker/mod.rs:209-265 | at any point of a poll, a block has been handed over again exactly if a committed block that yields something was delivered before the poll |
| SinkRepeats.RepeatsExactly | parseon-core/src/worker/mod.rs:180-292 | a poll that commits its whole plan hands over a block again if and only if at its start a delivered block lies in the share of a monitor that finds something in it |
| SinkRepeats.NoOverlapNoRepeat | parseon-core/src/scheduler.rs:23-41 | if at the start of a poll no delivered block of the chain lies in any monitor's share, no block repeats, however far the poll gets |
| SinkRepeats.TwiceWasForeseen | parseon-core/src/worker/commit.rs:58-73 | the poll behind the concrete repetition fails that check when it starts |
| LateCommits.StoredAlready | parseon-postgres/src/dyn_table.rs:16-25 | a commit of a block that has been stored meanwhile is acceptable only if it has nothing for the monitor |
| LateCommits.CommitLands | parseon-postgres/src/storage.rs:122-213 | whether or not an earlier commit of the same block has landed meanwhile, an acceptable commit leaves a monitor's table exact whenever it takes effect |
| LateCommits.LateStepKeeps | parseon-core/src/worker/mod.rs:180-292 | every step, with commits postponed, landing or dropped at any time under their row locks, keeps the whole invariant |
| LateCommits.ExactlyOnceWhenLate | parseon-core/src/worker/mod.rs:180-292 | exactly once, as above, in every world reachable when commits reported as errors may still land later |
| LateCommits.TimelyReachable | parseon-core/src/worker/mod.rs:180-292 | every world reachable without late commits is among them |
| Workers.AdvanceProgress | parseon-core/src/worker/commit.rs:74-79 | exactly the planned monitors' entries become the committed block |
| Sinks.EncodeResult | parseon-core/src/ports/sink.rs:72-126 | an error exactly when no listed monitor of the result's kind and shape has its id; otherwise the result with that monitor's canonical parameters and, for an event, its watched address |
| Sinks.EncodeBatch | parseon-core/src/ports/sink.rs:72-126 | no batch for no results; an error exactly when some result does not encode; otherwise every result, encoded, in order |
| Workers.Worker.CommitReady | parseon-core/src/worker/commit.rs:53-86 | an acknowledged commit is in the store and exactly its batch, if it has results, is handed to the sink; any other answer ends the poll, hands over nothing, and leaves all of the commit or nothing in the store |
| Workers.Worker.CommitPrepared | parseon-core/src/worker/commit.rs:32-87 | cancellation is seen only before the commit and then nothing changes; a commit adds exactly one block of the plan to store, sink and progress; a failed one hands over nothing |
| Workers.Worker.CommitWindow | parseon-core/src/worker/mod.rs:222-229 | prepared blocks are committed in order up to the first that failed |
| Workers.Worker.RunEventWindow | parseon-core/src/worker/mod.rs:210-229 | an event window goes through completely or ends the poll |
| Workers.Worker.RunCallWindow | parseon-core/src/worker/mod.rs:230-264 | a window without event monitors is prepared and committed block by block |
| Workers.Worker.LoadIndex | parseon-core/src/worker/mod.rs:190-196 | a poll works on exactly the chain's enabled, unfinished monitors, once each, indexed; only storage can fail it |
| Workers.Worker.Evict | parseon-core/src/worker/mod.rs:267-274 | eviction drops no block an active monitor has still to read and keeps none that all have passed |
| Workers.PollStarts | parseon-core/src/worker/mod.rs:185-205 | a poll that ran began on the monitors stored then that are enabled and unfinished, with the plan for its head |
| Workers.Worker.RunOnce | parseon-core/src/worker/mod.rs:180-292 | either no poll began, and then it was cancelled or the node or storage failed; or exactly one began, with the head the node answered and no block of its plan above it, and it completes with its whole plan committed, the true lag and the right count, or it was cancelled, or, on a sound chain, the node or storage failed a request or a loaded monitor was deleted |
| Workers.Worker.StoredExactlyOnce | parseon-core/src/worker/mod.rs:180-292 | whatever was polled, each stored monitor has exactly the direct scan of its committed range |
| Postgres.InsertChunk | parseon-postgres/src/dyn_table.rs:200-218 | a statement with 1 row to 65535 binds appends its rows, refusing a number too wide or a repeated key |
| Postgres.InsertResults | parseon-postgres/src/dyn_table.rs:186-257 | chunked inserts write what one bulk insert would, every statement with at least one row and at most 65535 binds; unless the database fails they fail only for rows that do not fit, repeat a key, or exceed the bind limit |
| Postgres.GroupResults | parseon-postgres/src/storage.rs:168-197 | results are grouped per monitor in order; refused exactly for a monitor not locked or of the other kind |
| Postgres.WriteGroups | parseon-postgres/src/storage.rs:199-208 | writing the groups in any order appends exactly each group to its table |
| Postgres.CommitComplete | parseon-postgres/src/storage.rs:163-208 | grouping and chunking amount to appending each monitor's results to its table |
| Postgres.StorableIsInsertable | parseon-postgres/src/dyn_table.rs:186-257 | no group of a commit that can be stored is ever refused |
| Postgres.PostgresStorage.CommitBlock | parseon-postgres/src/storage.rs:122-213 | success is the whole abstract commit; an error is nothing, or all of it when the acknowledgement was lost, and comes from the database or from a commit that cannot be stored |
| Mongo.BuildDocuments | parseon-mongodb/src/storage.rs:607-648 | one document per result, in order; refused exactly for a result without a listed monitor of its kind and shape or with a number too wide |
| Mongo.UniquePerMonitor | parseon-mongodb/src/storage.rs:718-735 | the collection's two unique indexes keep each monitor's rows unique |
| Mongo.RunAgain | parseon-mongodb/src/storage.rs:140-171 | running an already applied transaction again changes no cursor and can only succeed if it inserts nothing |
| Mongo.CommitRefines | parseon-mongodb/src/storage.rs:270-329 | one applied transaction is the abstract commit |
| Mongo.MongoStorage.Transaction | parseon-mongodb/src/storage.rs:140-171 | however often commit and transaction are retried, the effect is all or nothing, once, and success means all |
| Mongo.StorableIsUnique | parseon-mongodb/src/storage.rs:718-735 | no commit that can be stored repeats a key of the collection |
| Mongo.MongoStorage.CommitBlock | parseon-mongodb/src/storage.rs:270-329 | the same abstract commit contract as the other adapter, error cases included |
| ResultColumns.NeverReserved | parseon-postgres/src/dyn_table.rs:66-90 | no name the search tries is a fixed column |
| ResultColumns.FreeColumn | parseon-postgres/src/dyn_table.rs:81-86 | the search for a free column ends, with the first free candidate |
| ResultColumns.PostgresParams | parseon-postgres/src/dyn_table.rs:66-90 | for every parameter list the columns are pairwise distinct and none is a fixed one; a name that is free and not fixed is kept |
| ResultColumns.RowWidth | parseon-postgres/src/dyn_table.rs:186-257 | the columns a row really binds, fixed ones and one per parameter, are as many as the bind limit counts |
| StoredParams.CanonicalParams | parseon-core/src/ports/storage.rs:249-275 | fails exactly on a count mismatch; otherwise the canonical object |
| StoredParams.CanonicalAt | parseon-core/src/ports/storage.rs:249-275 | the canonical object shows under each name the value of the last parameter of that name |
| StoredParams.PostgresRoundTrip | parseon-postgres/src/dyn_table.rs:282-304 | typed values written to a PostgreSQL row read back as the canonical object |
| StoredParams.WriteRow | parseon-postgres/src/dyn_table.rs:161-178 | each value goes to its own parameter's column, numbers as numbers, text as text, addresses and bytes as bytes, and to no other column |
| StoredParams.BsonAt | parseon-mongodb/src/storage.rs:650-671 | a document shows under each name the value of the last parameter of that name, numbers as decimal text, addresses as hex text, bytes as bytes |
| StoredParams.MongoRoundTrip | parseon-mongodb/src/storage.rs:650-689 | values written to a MongoDB document read back as the canonical object |
| StoredRecords.WriteRecord | parseon-postgres/src/dyn_table.rs:161-257 | a row is written to exactly its own columns, hash, log index, block and each value under its parameter's column; refused exactly for a number too wide |
| StoredRecords.PostgresRecord | parseon-postgres/src/dyn_table.rs:282-350 | a row written and read back is the record with its hash, log index, block and canonical parameters |
| StoredRecords.DocumentReadsBack | parseon-mongodb/src/storage.rs:607-689 | the same for a result document |
| StoredRecords.CommittedReadsBackFromPostgres | parseon-postgres/src/dyn_table.rs:161-350 | whatever is committed of a monitor reads back as it was decoded: block, hash, index, and each value under its parameter's name |
| StoredRecords.CommittedReadsBackFromMongo | parseon-mongodb/src/storage.rs:607-689 | the same from a result document |
| StoredRecords.StoredNarrow | parseon-postgres/src/pg_types.rs:3-9 | in every reachable world every stored number fits 64 signed bits |
| StoredRecords.StoredReadsBack | parseon-postgres/src/dyn_table.rs:305-350 | in every reachable world every stored row can be read back, and both adapters show the same record |
| StoredParams.DecodeSample | parseon-core/src/filter.rs:668-696 | a sample decodes exactly when it has each parameter once, nothing else, and every value parses |
| StoredParams.SampleInvertsCanonical | parseon-core/src/filter.rs:668-696 | a stored result's canonical parameters, used as a preview sample, decode to the original values |
| StoredParams.Preview | parseon-core/src/filter.rs:281-316 | a preview fails only on an unacceptable expression or a sample that does not fit, and otherwise answers what the expression means |
| LogRequests.Halve | parseon-rpc/src/provider.rs:293-301 | the midpoint never overflows and both halves are ordered ranges that tile the range |
| LogRequests.RequestTop | parseon-rpc/src/provider.rs:283-310 | one request keeps pending ranges tiling the rest, ascending from the stack top, within the request budget; it gives up exactly on another error or a single block found too large |
| LogRequests.AdaptiveFilterLogs | parseon-rpc/src/provider.rs:276-312 | terminates within 2n-1 requests for n blocks; a success has every matching log once, in block order if each reply is; it fails exactly when the last reply was another error or refused a single block |
| ExactFilters.GroupTargets | parseon-rpc/src/provider.rs:315-321 | both maps list exactly the wanted pairs by one side |
| ExactFilters.ExactLogFilters | parseon-rpc/src/provider.rs:315-333 | the filters' products are pairwise disjoint, together exactly the targets, and min(addresses, signatures) many |
| ExactFilters.MatchingUnion | parseon-rpc/src/provider.rs:257-274 | disjoint target sets ask for disjoint logs, and their union for both |
| ExactFilters.AdaptiveLogs | parseon-rpc/src/provider.rs:257-274 | a success is a permutation of exactly the wanted logs, sorted by block and log index, whatever order the filters finish in; every log has a block and an index, and they ascend |
| Receipts.BatchRanges | parseon-rpc/src/provider.rs:182-185 | the batch ranges partition the input and their bounds never overflow |
| Receipts.FetchReceipt | parseon-rpc/src/fetch.rs:79-92 | a success is the requested transaction's status |
| Receipts.FetchReceiptBatch | parseon-rpc/src/fetch.rs:94-123 | a success is one outcome per hash in order |
| Receipts.BatchedReceipts | parseon-rpc/src/provider.rs:178-199 | joined batches are one outcome per hash in order |
| Receipts.FetchBlockReceipts | parseon-rpc/src/fetch.rs:125-148 | whatever order the block's receipts come in, a success is one outcome per hash in requested order |
| Receipts.JsonRpcSource.OptimizedReceipts | parseon-rpc/src/provider.rs:201-255 | from any capability state, under any refusals and concurrent changes, a success is one outcome per hash in order with the chain's status, and only a node failure no fallback covers can fail it; what is asked first follows from the number of hashes and the capabilities |
| Supervision.ControlPlane.OneLivePerChain | parseon-core/src/supervisor.rs:136-198 | whatever was called on the control plane, at every moment of its history at most one task per chain was live |
| Supervision.ControlPlane.ReplacementWaits | parseon-core/src/supervisor.rs:136-176 | a chain's next task starts only after the previous one was cancelled and then awaited |
| Supervision.ControlPlane.NothingStartsAfterClose | parseon-core/src/supervisor.rs:191-198 | whatever was called on the control plane, after it was closed no task has started and no worker is left in it |
| Supervision.ControlPlane.StopWorker | parseon-core/src/supervisor.rs:51-56 | the chain's task is cancelled, then awaited, and is live no more |
| Supervision.ControlPlane.StartWorker | parseon-core/src/supervisor.rs:218-258 | a successful start spawns exactly one new task with the registered URL; a failed one changes nothing |
| Supervision.ControlPlane.Readdress | parseon-core/src/supervisor.rs:144-167 | a live worker with another URL keeps its task when the source rotates; otherwise its task is cancelled, awaited and, if it starts, a new one spawned; a matching one is left alone; other chains are untouched |
| Supervision.ControlPlane.Apply | parseon-core/src/supervisor.rs:136-176 | on an open plane an enabled chain that starts has a worker at the registered URL and a disabled one has none; the history grows by exactly the cancellation, the awaiting and the start that takes; other chains are untouched, and nothing changes once closed |
| Supervision.ControlPlane.Retire | parseon-core/src/supervisor.rs:181-187 | the chain has no worker and, until shutdown begins, no live task |
| Supervision.ControlPlane.Shutdown | parseon-core/src/supervisor.rs:191-198 | when shutdown returns every task ever started has been awaited |
| Registry.LostUpdate | parseon-core/src/services.rs:110-132 | an update applied but reported as an error keeps agreement exactly if no worker is live or it neither disables the chain nor changes its URL |
| Registry.LostUpdateWitness | parseon-core/src/services.rs:110-132 | a chain is created and then disabled by an update that storage loses: its worker goes on, and agreement is gone |
| Registry.ChainService.Reconcile | parseon-core/src/supervisor.rs:304-313 | applying the startup snapshot, in full or up to a cancellation, leaves workers and registry in agreement, with a worker for exactly the enabled chains that start |
| Registry.ChainService.CreateLocked | parseon-core/src/services.rs:82-92 | under the mutation lock, with shutdown possibly between persisting and applying: succeeds exactly for an unregistered chain that storage accepts; then an enabled chain that starts has a live worker at its URL unless shutdown began; registry and workers afterwards, and any outcome keeps agreement |
| Registry.ChainService.Create | parseon-core/src/services.rs:82-92 | a failed probe changes nothing; otherwise, whatever other services did before the lock was taken, the outcome is that of the critical section at that moment, live worker included |
| Registry.ChainService.UpdateLocked | parseon-core/src/services.rs:110-132 | under the mutation lock: succeeds exactly if the chain is still registered and storage accepts; a success gives an enabled chain that starts a live worker at the merged URL unless shutdown began, and agreement overall survives if and only if no applied change of a live worker's chain is reported as an error |
| Registry.ChainService.Update | parseon-core/src/services.rs:110-132 | a refused check or probe changes nothing; otherwise, whatever other services did before the lock was taken, the outcome is that of the critical section at that moment, live worker included |
| Registry.ChainService.Delete | parseon-core/src/services.rs:134-141 | unless shutdown began earlier no task of the chain is live while its data is deleted; registry and workers afterwards, and any outcome keeps agreement |

## Left out

- HTTP API, DTOs, OpenAPI, configuration, metrics, tracing, status messages and their scrubbing, `parseon-server/src/main.rs` beyond the order of its startup calls: plumbing and presentation.
- Byte-level ABI decoding, signature parsing, keccak and big-integer internals: decoding is a fixed function of layout and bytes with typed results.
- JSON-RPC transport, URL rotation mechanics, and the text matching that classifies node errors: replies are ok, range-limited, method unavailable, batching unsupported, or another error.
- SQL and BSON text, drivers and migrations: a transactional store with unique keys, row counts, commit and rollback. PostgreSQL's truncation of identifiers to 63 bytes is not modelled.
- The sorted, deduplicated list of monitor ids a commit locks is a set; lock order between concurrent commits is not modelled.
- A commit that the database applies only after it was reported as an error is modelled in `LateCommits` alone; the sink, worker and progress results take it to be applied at that moment or never. Another writer between two attempts of one MongoDB transaction is not modelled.
- Mongo.MongoStorage.Transaction: the server asks for finitely many retries (`patience`), because the retry loop has no bound of its own.
- The in-memory cache's size policy: the cache may lose any entry at any time.
- Tasks, locks and `buffered` of the async runtime: arbitrary interleaving at the points where the source awaits, results in input order. Request futures dropped halfway by the HTTP server are not modelled.
- Workers.Worker.RunOnce: the preparations of one window run one after the other; their order is free in `Protocol.Next`, and they interact only through the cache.
- The sink is always enabled, and its delivery after submission is not modelled.
- JSON text: a literal other than a string or a boolean only has an encoded length, and object field order is not modelled. Error messages and their paths are not modelled.
- Deleting a chain deletes its monitors one by one in `Protocol.Next`; the databases do it in one transaction.
- The endless `run` loop with its delay between polls: any number of polls, one after the other, is any sequence of `RunOnce` calls.
- Receipts.JsonRpcSource.OptimizedReceipts: nothing is claimed about the capability flags staying set, since concurrent requests overwrite them.
- Filter previews and monitor creation share the compiler; the HTTP-level checks around them are left out.
