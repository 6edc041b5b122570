# A verified model of mod-alloc

mod-alloc is an allocation profiler: a global allocator that counts what passes through it, and, for every tracked
allocation, walks the stack and adds the event to a lock-free table of call sites, from which a DHAT document is
written. This project models that machinery and proves what it is for.

**The call-site table** (`src/backtrace/table.rs`). `TableMachine` is a step machine over the statics, the mapped pages
and one program counter per thread: every load, store, compare-and-swap, `fetch_add` and page-allocator call of
`record`, `ensure_init`, `ensure_init_slow` and `call_sites_report` is a step, any number of threads interleave in any
order, each thread with its own configured size. An access outside a live region, or a second release, would set a fault
flag. `TableInvariant` states an inductive invariant; `TableStable`, `TablePreserve`, `TableWrites`, `TableRecordSteps`,
`TableScanSteps` and `TableInitSteps` prove that every step keeps it. What follows for all runs is in `TableTheorems`
(memory safety, uniqueness, drops, conservation), `TableReports` (reports racing with recorders), `TableProgress`
(wait-freedom) and `TableWindow`. `TableCodeSteps` and `TableCode` give the program's own code as methods over mutable
fields, with the other threads free to take any number of steps before each atomic operation; each operation is shown to
be one step of the machine, and the methods' contracts are read off it. A thread number stands for one activation: a
call that a call makes itself, as when the rows of a report outgrow their vector and the allocator's hook records the
event, has its steps interleaved under a number of its own, so it is among what may happen before every atomic
operation.

The history in the machine's state (events with their fates, claims, owners, finished reports) is read by no step. It is
what the theorems speak about: an event is one call of `record` with a nonempty trace, and ends as landed on a bucket,
dropped, or unplaced because no table could be mapped.

*The publication window.* `ensure_init_slow` publishes `TABLE_BASE` before `TABLE_BUCKETS` and `TABLE_MASK`, so a thread
may run with mask 0, although the comments in `record` describe an array of length `mask + 1`. Accesses stay in bounds
all the same. But uniqueness of a hash and "a drop means the table is full" fail: `UniquenessFails` and
`DropsAreNotAlwaysFinal` are runs in which they do, `DuplicatesExactlyWhen` and `DropIsFinalExactlyWhen` say exactly
when, and the theorems that need the published mask say so (`NoStaleMask`, or `mask != Some(0)` for one event).
`TwoBucketsHoldAll` is what holds in every run.

**The counters** (`src/lib.rs`). `CounterMachine` is a second step machine: each atomic update of `record_alloc`,
`record_dealloc` and `record_realloc` is a step, with a history of the blocks handed out. `CounterInvariant` and
`CounterSteps` prove that the counters always are the sums of what calls have added; `CounterTheorems` draws the
conclusions, `CounterLedger` compares the counters with books kept one call at a time, `CounterUnderflow` says when a subtraction underflows, `Profiler` those about `Profiler::stop`, and
`CounterCode` has the code itself over six mutable fields, with the reentrancy guard and nested calls (`alloc_zeroed`
does to the counters what `alloc` does). The documentation of `Profiler::stop` promises the high-water mark of the
profiling window; the code returns that of the whole run, and `PeakIsWindowedExactlyWhen` says at which starts the
promise can be relied on.

**The walk and the hash** (`src/backtrace/walk.rs`, `src/backtrace/hash.rs`). `StackWalk` and `FrameHash`, over
arbitrary memory and exact 64-bit arithmetic (`Words`). `TableSize` has the configured size and the order of probing.
The module documentation says the size is rounded and then clamped; the code clamps and then rounds, which gives the
same.

**The report** (`src/dhat_json`). `JsonText` is a reader for the whole grammar of RFC 8259, `JsonPrint` a compact
printer that the reader undoes, `DhatFrames` the frame table, `DhatDocument` the writer, `DhatLossless` the proof that
the document determines the report, and `DhatReport` joins it to the table.

**The Windows symbol index** (`src/symbolicate/windows.rs`). `SymbolIndex`: sort, deduplicate, bisect, against a plain
scan.

Atomic operations are taken as interleaved steps in program order, and 64-bit words for `usize`.

## Model

| member | source | states |
|---|---|---|
| TableInitSteps.NextOk | src/backtrace/table.rs:100-272 | every step of every thread keeps the invariant, and changes shared state only in ways that are never undone |
| TableTheorems.MemorySafe | src/backtrace/table.rs:100-151 | in every run no access is out of bounds or to a freed region and nothing is freed twice, also for threads that obtained mask 0; the mask is 0 or the size minus 1 |
| TableTheorems.OneRegionAtRest | src/backtrace/table.rs:124-151 | however many threads race with whatever sizes, once no call is in progress exactly one region is mapped, the installed one, and it stays installed and mapped in every continuation |
| TableTheorems.ProbePathHeld | src/backtrace/table.rs:171-234 | a claimed bucket keeps its hash for good and every bucket between home slot and itself permanently holds another hash, unless it is bucket 0 claimed in the window |
| TableTheorems.AtMostOneBucket | src/backtrace/table.rs:171-234 | two buckets hold the same hash only if one is bucket 0, claimed with a stale mask; never with published masks |
| TableTheorems.DropsAreFinal | src/backtrace/table.rs:180-233 | an event using the published mask is dropped only when all buckets hold other hashes, and then no event with its hash was or ever will be tallied |
| TableTheorems.NothingLost | src/backtrace/table.rs:186-226 | at rest each bucket's count and bytes are, modulo 2^64, the number and byte sum of exactly the events that landed on it; landed, dropped and unplaced events are all events |
| TableTheorems.TalliesHeld | src/backtrace/table.rs:186-226 | at every moment each bucket's words are, modulo 2^64, the number and byte sum of the additions made so far, at least one if it is published |
| TableTheorems.ExactAggregate | src/backtrace/table.rs:161-234 | with published masks the bucket of a hash counts all events with that hash that obtained the table; a hash without a bucket had all of them dropped, by a full table |
| TableTheorems.TwoBucketsHoldAll | src/backtrace/table.rs:161-234 | in every run, stale masks or not, the events of a hash landed on at most two buckets, one of them bucket 0, and at rest the two add up to all of them and all their bytes modulo 2^64 |
| TableReports.RowIsCoherent | src/backtrace/table.rs:247-271 | each row returned while recorders race has 1 to 8 frames, exactly the claimer's trace with a zero tail, that rehash to the bucket's hash, and a count of at least 1 short of 2^64 events |
| TableReports.RowsAreFew | src/backtrace/table.rs:240-272 | a report has at most 2^20 rows, for different buckets, in bucket order |
| TableReports.RowsAreDistinct | src/backtrace/table.rs:240-272 | with published masks no two rows have frames with the same hash |
| TableReports.LaterReportContains | src/backtrace/table.rs:247-271 | a report begun after another finished has every row of it, same frames, count and bytes no smaller absent wrap-around |
| TableReports.ReportsBegin | src/backtrace/table.rs:240-246 | what a report measures itself against is the state of the run in which it began |
| TableProgress.StepShortens | src/backtrace/table.rs:171-234 | every effective step of a thread brings its call nearer to its end, whatever the others have done |
| TableProgress.CallsAreWaitFree | src/backtrace/table.rs:172-233 | the steps a thread takes in a call are bounded by a constant in every interleaving, except for waiting loads |
| TableProgress.WaitEnds | src/backtrace/table.rs:142-149 | while a loser waits for the bucket count the winner is about to store it, and its next step ends the wait |
| TableWindow.SoloLands | src/backtrace/table.rs:171-226 | an undisturbed call with the published mask lands on the first bucket of its probe path that is empty or has its hash |
| TableWindow.DuplicatesExactlyWhen | src/backtrace/table.rs:101-135 | after a claim of bucket 0 in the window, open or closed by now, some continuation duplicates the hash iff its home slot is not 0 and a bucket from there on is empty |
| TableWindow.DropIsFinalExactlyWhen | src/backtrace/table.rs:229-233 | the hash of a dropped event is never tallied iff the table is full of other hashes, whether the window is still open or not |
| TableWindow.UniquenessFails | src/backtrace/table.rs:101-135 | a run in which two buckets hold the same hash |
| TableWindow.DropsAreNotAlwaysFinal | src/backtrace/table.rs:101-135 | a run in which an event is dropped with 63 buckets empty and its hash can still be tallied |
| TableCode.CallSiteTable.EnsureInit | src/backtrace/table.rs:100-108 | the accessor's loads are steps of the machine and end where the caller goes on with the handle returned; a handle of the installed table whenever one is installed or memory is available; an installed table is never replaced |
| TableCode.CallSiteTable.EnsureInitSlow | src/backtrace/table.rs:115-153 | map, compare-and-swap, publish or free and wait, under any interference: maps one region of exactly the configured size, and ends with a handle of the installed table, if and only if memory is available; the wait ends because the spin hint is taken to give the installing thread a turn |
| TableCode.CallSiteTable.Record | src/backtrace/table.rs:161-235 | under any interference one call records exactly one event, which by the return has landed on the bucket of its hash with count and bytes added, or was dropped, or, only if none was installed and there was no memory for one, found no table; nothing for an empty trace |
| TableCode.CallSiteTable.CallSitesReport | src/backtrace/table.rs:240-273 | the rows returned are sound, in bucket order, and complete for what was published at the call; a table is installed if memory is available |
| TableSize.BucketCountIsGood | src/backtrace/table.rs:84-92 | every setting gives a power of two in [64, 2^20], and clamp-then-round equals the documented round-then-clamp |
| TableSize.BucketCountIs | src/backtrace/table.rs:36-92 | 4096 if the variable is absent or not a number, 64 up to 64, 2^20 from 2^20 up, and in between the least power of two not below the number |
| TableSize.ProbeVisitsAllOnce | src/backtrace/table.rs:168-233 | from any home slot the masked increment visits each bucket exactly once before it is home again |
| FrameHash.HashFrames | src/backtrace/hash.rs:18-31 | the loop computes the recursive hash of the first min(count, 8) frames, never 0 |
| FrameHash.HashFigures | src/backtrace/hash.rs:18-31 | hash values in figures: no frames, eight zero frames, any one frame, two frames |
| FrameHash.RotateBit | src/backtrace/hash.rs:23 | the rotation moves every bit five places up, around the end of the word |
| Words.XorBit | src/backtrace/hash.rs:23 | every bit of the exclusive or is the sum of the two bits without carry |
| FrameHash.MixIsBijective | src/backtrace/hash.rs:22-25 | each round is a bijection in the accumulator and in the frame |
| FrameHash.OneFrameChangesRawHash | src/backtrace/hash.rs:18-25 | traces that differ in exactly one frame have different raw hashes |
| FrameHash.EveryFrameDecidesRawHash | src/backtrace/hash.rs:18-25 | with the other frames fixed, exactly one value of a frame gives a wanted raw hash |
| FrameHash.HashCollisions | src/backtrace/hash.rs:18-31 | frames past count do not matter, and the reserved zero merges only raw 0 with raw 1 |
| StackWalk.Walk | src/backtrace/walk.rs:44-108 | for any memory, frame pointer and bounds: the first min(n, 8) return addresses of the reference chain, then zeros, all nonzero up to the count; at most (high - low) / 16 frames; reading only where the reference does |
| StackWalk.ChainIsMaximal | src/backtrace/walk.rs:50-105 | the reference chain goes from each readable frame pointer to the word saved there, higher up, collects the nonzero return addresses, and stops only at a zero return address or a saved word that is not above or not readable |
| StackWalk.PlacedChain | src/backtrace/walk.rs:44-108 | a call chain laid out at increasing aligned in-bounds slots is the reference chain read back from them, at any length |
| StackWalk.WalkPlaced | src/backtrace/walk.rs:44-108 | a walk over such a layout returns exactly its first min(n, 8) return addresses, then zeros |
| StackWalk.MayRead | src/backtrace/walk.rs:52-63 | the checks accept exactly the frame pointers that are not zero, are divisible by 16 and have 16 bytes between low and high |
| CounterSteps.NextOk | src/lib.rs:264-292 | every atomic update of every thread keeps each counter equal to the sum of what calls have added |
| CounterTheorems.NoUnderflow | src/lib.rs:274-291 | in every interleaving in which no addition overflows and each block's calls are all tracked or all skipped, nothing ever wraps and no subtraction, at any moment, takes more than the counter holds |
| CounterUnderflow.MixedUnderflows | src/lib.rs:500-510 | releasing a block, tracked, whose allocation was skipped can wrap current_bytes |
| CounterUnderflow.UnderflowsExactlyWhen | src/lib.rs:464-531 | from rest, some continuation of tracked calls without overflow underflows iff a live block's allocation was skipped |
| CounterTheorems.ExactAtRest | src/lib.rs:264-292 | at rest alloc_count, total_bytes, current_bytes and live_count are the number of allocations and reallocations, their growth, the size of the live blocks and their number |
| CounterLedger.RestIsLedger | src/lib.rs:264-292 | at rest, whatever the interleaving and however blocks were treated, the four counters are those of a ledger that enters each call as one action |
| CounterTheorems.PeakIsHighWater | src/lib.rs:265-288 | in every interleaving without wrap-around the greatest of the peak and all pending values is the highest level ever held, so at rest the peak is exact; for bytes and for blocks |
| Profiler.StopIsDelta | src/lib.rs:643-655 | between moments at rest the deltas are the calls the ledger entered and their bytes; live deltas are exact iff they are not negative, and 0 if they are |
| Profiler.StopIsDifference | src/lib.rs:643-655 | between any two moments the deltas are the additions made; those of live bytes and blocks are exact iff not negative, and 0 if they are |
| Profiler.StopPeakIsWindowed | src/lib.rs:628-655 | for one stop, the reported peak is the window's high-water mark iff the peak at the start was no higher than that |
| Profiler.PeakIsWindowedExactlyWhen | src/lib.rs:628-655 | every stop reports its window's high-water mark iff at the start the level equals the peak; for bytes and for blocks |
| Profiler.PeakIsNotWindowed | src/lib.rs:628-655 | a run in which the reported peak belongs to a block freed before the window |
| CounterCode.ModAlloc.RecordAlloc | src/lib.rs:265-272 | the six updates are the machine's steps in order, whatever other threads do in between |
| CounterCode.ModAlloc.RecordDealloc | src/lib.rs:275-278 | likewise for a release |
| CounterCode.ModAlloc.RecordRealloc | src/lib.rs:281-292 | likewise for growth, shrinking and equal sizes |
| CounterCode.ModAlloc.Enter | src/lib.rs:131-144 | the guard is granted iff the flag is available and clear, and sets this thread's flag only |
| CounterCode.ModAlloc.Drop | src/lib.rs:147-151 | dropping the guard clears this thread's flag only |
| CounterCode.ModAlloc.Call | src/lib.rs:464-531 | one call with all its nested calls: exactly what the guard grants is tracked, and the flag, as long as it can be read, ends as it was, also for denied inner calls; thread-local storage may go away at any of the calls |
| CounterCode.ExactlyOutermost | src/lib.rs:464-531 | for every finite tree of nested calls: a served allocation, a served reallocation and every release update the counters exactly once, for the outermost call; an allocation or reallocation that gave null does not, and neither does a call that the guard denies |
| JsonPrint.QuoteRead | src/dhat_json/writer.rs:13-29 | for every string and following text, reading the escaped literal gives the string and stops at the closing quote |
| JsonPrint.EscapeIs | src/dhat_json/writer.rs:13-29 | the escapes as they are spelled, for every character |
| JsonPrint.QuoteIsPrintable | src/dhat_json/writer.rs:13-29 | the literal holds no raw character below 0x20 |
| JsonPrint.ValueRead | src/dhat_json/mod.rs:55-168 | for every JSON value and following text, the RFC 8259 reader undoes the compact printer |
| DhatDocument.JsonWriter.WriteJsonString | src/dhat_json/writer.rs:13-29 | the loop appends exactly the quoted and escaped string |
| DhatDocument.JsonWriter.WriteKey | src/dhat_json/writer.rs:34-37 | appends the quoted key and a colon |
| DhatDocument.JsonWriter.WritePp | src/dhat_json/mod.rs:142-168 | appends the printed object of a program point |
| DhatDocument.JsonWriter.Render | src/dhat_json/mod.rs:55-140 | appends the printed document, all seventeen members in order |
| DhatFrames.AddressOfFrame | src/dhat_json/frames.rs:100-103 | a raw frame description determines its address |
| DhatFrames.FrameTextIs | src/dhat_json/frames.rs:100-103 | the text is 0x, the lower-case hexadecimal digits of the address without leading zeros, and ": <unresolved>" |
| DhatFrames.FrameTable.constructor | src/dhat_json/frames.rs:32-39 | the table starts with the root entry |
| DhatFrames.FrameTable.Intern | src/dhat_json/frames.rs:41-49 | entries never move, the index leads to the frame, and a known frame is not stored again; the cast to 32 bits is modelled |
| DhatFrames.FirstUsesAre | src/dhat_json/frames.rs:41-49 | entries after the root are distinct, in first-use order, and stable as more frames come |
| DhatFrames.Build | src/dhat_json/frames.rs:58-98 | the entries are the report's frames in first-use order, with one program point for each row, leading to its frames |
| DhatFrames.IndicesAreExact | src/dhat_json/frames.rs:45 | for a report the cast to 32 bits never truncates |
| DhatLossless.DocumentIsLossless | src/dhat_json/mod.rs:55-168 | reading the document and following every index gives exactly the rows' addresses, counts and byte totals, in order |
| DhatLossless.HeaderIsRead | src/dhat_json/mod.rs:60-134 | a reader finds seventeen members in order, with the fixed header values, the command line and the process number given, and the frame table |
| DhatLossless.PointIsRead | src/dhat_json/mod.rs:142-168 | and five members in every program point, two of them always zero |
| DhatLossless.DhatJsonString | src/dhat_json/mod.rs:44-47 | build and render: the text decodes to the rows |
| DhatReport.DhatJsonString | src/dhat_json/mod.rs:44-47 | with recorders racing, the text decodes to the rows of a report begun with the call |
| DhatReport.ReportWhileRacing | src/backtrace/table.rs:240-272 | a report begun at rest, racing with recorders, its own allocations among them: each row counts all earlier events with its hash, beyond them only events with its hash recorded meanwhile, and likewise bytes |
| DhatReport.ReportIsAggregate | src/backtrace/table.rs:240-272 | in particular the exact aggregate if nothing is recorded meanwhile |
| DhatReport.ReportIsComplete | src/backtrace/table.rs:240-272 | and every event that landed is behind a row with its hash |
| SymbolIndex.Build | src/symbolicate/windows.rs:45-60 | sorting and deduplicating gives strictly ascending addresses that name what the list named first |
| SymbolIndex.BinarySearch | src/symbolicate/windows.rs:83 | bisection finds the address or its insertion point |
| SymbolIndex.LookUp | src/symbolicate/windows.rs:64-96 | the lookup agrees with a linear scan: the first-listed symbol at the greatest address not above the low 32 bits; none iff all symbols are above |

## Left out

- Hardware memory order: atomic operations interleave in program order; acquire, release and relaxed are not told apart.
- Page mapping, register reads and stack bounds (`src/backtrace/raw_mem.rs`, `capture.rs`, `stack_bounds.rs`): mapping either fails or yields a fresh zeroed region; the initial frame pointer, the bounds and the memory are parameters.
- TableCode.CallSiteTable.EnsureInitSlow: the source guarantees no such turn at the spin hint; without any scheduling assumption only `WaitEnds` holds.
- TableCode.CallSiteTable.Record: the trace and its hash are values here; the loops that produce them are `StackWalk.Walk` and `FrameHash.HashFrames`.
- Reading the environment variable, its trimming and parsing: a setting is absent, unparsable, or a number.
- Distinct traces with equal hashes: they share a bucket by design, so the aggregate is keyed by hash.
- `_reset_for_test`, and `ModAlloc::reset` with live blocks, which the documentation says can wrap `current_bytes`.
- `snapshot` racing with updates: its six loads belong to different moments; what it returns is stated at rest.
- The handle that `register_self` publishes, and `Profiler::start` without an installed allocator.
- CounterCode.ModAlloc.Call: a block counts as usable from the last counter update of its call on, slightly before the call returns.
- TableCode.CallSiteTable.CallSitesReport: that no event is recorded under the caller's number says nothing of the allocations its own rows make; the model has them, like all nested calls, under numbers of their own.
- Arguments, process number and file writing: command line and process number are parameters of the document.
- The symbolicated frame formatter, whose names are arbitrary text and not meant to be decoded, `src/symbolicate/unix.rs`, and PDB parsing and demangling: the symbol list is given.
- `src/dhat_compat`, `src/symbolicate/report.rs`, `self_binary.rs`, `build.rs`: forwarding, memoisation and configuration.
