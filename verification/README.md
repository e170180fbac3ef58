# StrataDB: a verified model of the vector index and its crash harness

This project models the parts of StrataDB that are hard to get right and proves, for every
input or every interleaving, what their documentation and tests promise.

**The lock-free HNSW build** (`Build*.dfy`, `Shrink.dfy`, `EntryPoint.dfy`, `Heuristic.dfy`).
`Graph::insert` and everything below it is a transition system in which any number of inserts of
distinct rows run at once and every transition is one atomic load, store or compare-exchange.
`BuildInvariants` states what every reachable state keeps, `BuildCore`, `BuildClaims` and
`BuildProgress` prove that every step keeps it, and `BuildTheorems`, `BuildLinks` and
`BuildSequential` draw the conclusions over whole runs. `Shrink` and `EntryPoint` model the in-place
operations themselves: `claim_and_prune` on an array of slots, and the packed entry-point word,
which refines the pair the protocol speaks of; `BuildRefines` shows that the atomic steps of a claim
amount to the operation in `Shrink`. `Heuristic` has the neighbour selection with its reused
buffers.

**Search** (`Search.dfy`, `BruteForce.dfy`, `SearchInBuild.dfy`). The bounded best-first layer search
with its result and candidate heaps, filter, tombstones and saturation stop, the descent and the
top-k query above it, and the exact scan they are compared with. `SearchInBuild` shows that the
layer search is one the build protocol allows for.

**Segments** (`Bytes.dfy`, `Segment*.dfy`). `SegmentFormat` says which bytes a content denotes,
`SegmentWriter` is the imperative encoder that fills one zeroed buffer with moving cursors,
`SegmentReader` the validating reader, and `SegmentLayout` and `SegmentRoundTrip` prove that the
reader gives back what the writer was given. `SegmentAccept` says exactly which bytes the reader
accepts, and that it refuses all others.

**The node table** (`NodeTable.dfy`, `NodeTableProof.dfy`). Concurrent inserts into the chunked
write-once table and its drop, with everything freed or reclaimed counted.

**The chaos worker** (`Chaos*.dfy`). Pool set-up, agents, registry, retries and the printed
start/completion lines as a protocol over a dataset with atomic commits, crashing at any step.
`ChaosInvariants` and `ChaosProof` have what every step keeps, `ChaosTheorems` and `ChaosCrash` what
that means for the printed lines at a clean exit and at a crash, and `ChaosOps` what becomes of a
single op.

**Node memory, batches and the live set** (`NodeLayout.dfy`, `Batch.dfy`, `LiveSet.dfy`). A node's
block of bytes with the offset arithmetic behind it, proved against the node it stands for; the
round-robin split of a batch over worker threads and the verdict drawn from their outcomes; and the
bitset behind filtered search.

Notes on the reading of the source:

- Distances are real numbers and a missing vector is infinitely far. Levels are inputs between 0 and
  255. The checksum is an arbitrary function of the bytes it covers, so nothing depends on which one.
- Vector components, the level multiplier and all stored integers are the natural numbers of their
  bit patterns, with the width written out wherever it matters.
- The retry bounds and the published-entry wait of `insert` are modelled as written: a concurrent
  insert may give up with `NeighborShrinkDidNotConverge`, so theorems about finished builds say
  "when every insert returned Ok". `BuildSequential.SequentialNeverFails` shows when that is certain.
- A comment in `graph.rs` argues that the nearest row ever recorded in a list cannot be removed. It
  argues with the strictly nearest row. With ties the row that survives is the one in the earliest
  slot, which is what `BuildTheorems.NeverEmptyAgain` needs.
- The reader takes the entry point's level from the level section, the writer does not store it;
  `SegmentRoundTrip.EncodedReadsBack` states when the two agree.

## Model

| member | source | states |
|---|---|---|
| `BuildTheorems.EdgesAreSound` | crates/index/src/graph.rs:598-783 | in every state of every run no layer list holds a duplicate or its owner, and every edge at a layer joins stored rows whose levels reach it |
| `BuildTheorems.ClaimedAtMostOnce` | crates/index/src/graph.rs:361-421 | over a whole run each ordered pair at a layer is claimed at most once, and never a row into its own list |
| `BuildTheorems.CapacityRespected` | crates/index/src/graph.rs:321-421 | a list never holds more than its capacity plus one, and no more than its capacity once all inserts have returned Ok, the capacity being `mmax0` in the base layer and `mmax` above |
| `BuildTheorems.NeverStuck` | crates/index/src/graph.rs:321-354 | the shrink step never finds a list over capacity with nothing to remove |
| `BuildTheorems.NearestNeverRemoved` | crates/index/src/graph.rs:2916-2932 | the row strictly nearest to a list's owner among all rows ever in the list is in it, whatever stale snapshots others prune from |
| `BuildTheorems.NeverEmptyAgain` | crates/index/src/graph.rs:2916-2932 | a list that has once been non-empty is never empty again, ties included |
| `BuildTheorems.NobodyStranded` | crates/index/src/graph.rs:647-783 | without deletions, once all inserts have returned Ok every row has a base-layer edge as soon as there are two rows |
| `BuildTheorems.EntryLevelNeverDecreases` | crates/index/src/graph.rs:147-168 | once set, the entry point stays set and its level never decreases |
| `BuildTheorems.EntryIsStoredRow` | crates/index/src/graph.rs:92-169 | the entry point always names a stored row with exactly that row's level |
| `BuildTheorems.OneClaimer` | crates/index/src/graph.rs:131-137 | at most one claim of the empty graph succeeds in a run |
| `BuildTheorems.EntryIsHighest` | crates/index/src/graph.rs:780-783 | once all inserts have returned Ok the entry point has the highest level inserted |
| `BuildTheorems.TraversalEntryPublished` | crates/index/src/graph.rs:683-746 | every row an insert searches from is stored, published and reaches the layer it is searched at |
| `BuildTheorems.OnlyTheClaimerIsWaitedFor` | crates/index/src/graph.rs:677-685 | a waiting insert waits for the claimer of the empty graph, which can step and thereby ends the wait |
| `BuildTheorems.NoDeadlock` | crates/index/src/graph.rs:655-783 | every unfinished insert has an enabled step of its own that moves it on, or waits for the claimer of the empty graph, which has one |
| `BuildLinks.LinksItsSelection` | crates/index/src/graph.rs:655-783 | an insert that has linked its last layer was the first of all or has, in every layer from the entry point it found and its own level down to the base, searched it, selected among what it found by the diversity rule, and been claimed into every selected row's list and claimed that row into its own |
| `BuildLinks.LinksNothingElse` | crates/index/src/graph.rs:746-774 | every claim of an insert joins it and a row it selected in that layer, in one of the two directions |
| `BuildLinks.SearchesStartRight` | crates/index/src/graph.rs:703-746 | a layer is searched from the entry point found or from the nearest row of the search above that was seen published, every nearer one having been unpublished, or, if there was none, from where that search started |
| `BuildLinks.PrunesToTheSelection` | crates/index/src/graph.rs:334-352 | whatever a prune removes in any run is its over-long snapshot without the selection of exactly the layer's capacity among it |
| `BuildRefines.UndisturbedClaim` | crates/index/src/graph.rs:361-421 | a claim-and-prune, atomic step by atomic step, that nobody disturbs never fails, ends with the list that claiming and pruning mean, and changes no other list |
| `BuildSequential.SequentialNeverFails` | crates/index/src/graph.rs:361-421 | in runs whose inserts do not overlap no insert fails, every claim is at most at its second attempt and every shrink loop at most in its second round |
| `Shrink.ClaimSlot` | crates/index/src/slot_array.rs:38-48 | fills the first free slot, or reports that there is none and changes nothing |
| `Shrink.ClearMatching` | crates/index/src/slot_array.rs:56-63 | empties exactly the slots whose id is to be removed |
| `Shrink.OccupiedInto` | crates/index/src/slot_array.rs:89-97 | the occupied ids in slot order |
| `Shrink.ShrinkLoop` | crates/index/src/graph.rs:321-359 | alone on a list: one round, or two exactly when every slot is taken; over capacity the slots left are exactly the selection of that capacity among the ids, each in its place, otherwise nothing changes |
| `Shrink.ClaimAndPrune` | crates/index/src/graph.rs:361-421 | alone on a list it always succeeds, at the second attempt exactly when every slot was taken; the id enters the first free slot, of the pruned list if there was none, and of a list then over capacity exactly the selection among its ids is left |
| `EntryPoint.PackRoundTrips` | crates/index/src/graph.rs:82-89 | unpacking a packed pair gives it back if and only if row and level are in range, and exactly which pairs collide with the empty marker |
| `EntryPoint.StoredExactly` | crates/index/src/graph.rs:82-110 | what the packed word keeps of any row and level, and that it keeps the pair itself if and only if the row fits 56 bits, the level 8, and they are not both all ones |
| `EntryPoint.ClaimRefines` | crates/index/src/graph.rs:131-137 | the compare-exchange on the word is the protocol's claim on the pair |
| `EntryPoint.AdvanceRefines` | crates/index/src/graph.rs:147-168 | the compare-exchange on the word is the protocol's advance on the pair |
| `EntryPoint.Cell.ClaimIfEmpty` | crates/index/src/graph.rs:131-137 | for any row and level: fills an empty entry point with what the word keeps of them, otherwise reports the present one and changes nothing |
| `EntryPoint.Cell.AdvanceIfHigher` | crates/index/src/graph.rs:147-168 | for any row and level: replaces the entry point exactly when it is empty or of a lower level |
| `Heuristic.SelectMeaning` | crates/index/src/graph.rs:1340-1373 | the greedy pass picks the one and only position list that is a selection: at most m, nearest first, no pick dominated, everything passed over dominated by a pick no farther |
| `Heuristic.SelectKeepsNearest` | crates/index/src/graph.rs:1340-1373 | the picks are distinct candidates and include the nearest, the earliest among equals |
| `Heuristic.Buffers.SelectInto` | crates/index/src/graph.rs:1340-1373 | the in-place form leaves the selection in its output buffer whatever both buffers held before |
| `Search.SearchLayer` | crates/index/src/graph.rs:953-1111 | terminates with the width nearest of the passing rows visited, sorted, without repeats and all reachable from the entry, and with everything eligible when wide enough; it expands in turn a nearest row visited and not yet expanded that a full result does not outrank, and after each expansion holds the nearest of exactly the rows visited by then; saturation stops it at the first of these results that completes a streak of steady ones as long as the patience, and never otherwise |
| `Search.ReturnsAsManyAsItCan` | crates/index/src/graph.rs:953-1111 | exactly as many hits as the smaller of the width and the number of passing rows visited |
| `Search.NeighborsOfHitsConsidered` | crates/index/src/graph.rs:953-1111 | without saturation no passing neighbour of a hit is left out while nearer than any hit |
| `Search.WideSearchIsExact` | crates/index/src/graph.rs:953-1111 | a search at least as wide as what is eligible and reachable, not stopped by saturation, returns all of it, so rows the filter rejects never block the way |
| `Search.SparseSearchIsExact` | crates/index/src/graph.rs:1075-1111 | below the saturation threshold saturation cannot trigger and the search is exact |
| `Search.Descend` | crates/index/src/graph.rs:1172-1178 | one complete width-one search per upper layer, on to a row it returns or, if it returns none, staying |
| `Search.KnnSearch` | crates/index/src/graph.rs:1154-1182 | fails exactly on a dimension mismatch; otherwise the k best, sorted and distinct, of what a complete search of the base layer from the descended entry returns, which is everything eligible when that is below the threshold |
| `Search.BestDistancesAgree` | crates/index/src/graph.rs:1154-1182 | the k best distances are determined, whichever rows carry them |
| `BruteForce.BruteForceSearch` | crates/index/src/brute_force.rs:28-62 | fails exactly on a dimension mismatch, otherwise returns the k best rows of the column |
| `BruteForce.SearchAgreesWithBruteForce` | crates/index/src/brute_force.rs:28-62 | an exact graph search and a scan of exactly the eligible rows return the same distances, position by position |
| `SearchInBuild.LayerSearchIsRun` | crates/index/src/graph.rs:703-746 | a layer search over the graph as it stands is a run of the build protocol: enabled loads of single slots gather every row it visited, and then its hits are an enabled end of the search |
| `SegmentWriter.CollectLevels` | crates/index/src/segment_writer.rs:81-107 | the levels, exactly when every ordinal has a level below 256 and a vector of the right length; otherwise an error that names a node with that fault |
| `SegmentWriter.CollectLayer` | crates/index/src/segment_writer.rs:123-150 | a layer in compressed rows, exactly when all its neighbours are in range and their number fits 32 bits |
| `SegmentWriter.AdjacencyLength` | crates/index/src/segment_writer.rs:158-168 | the length of the adjacency bytes, or nothing exactly when it does not fit a machine word |
| `SegmentWriter.WriteAt` | crates/index/src/segment_writer.rs:303-316 | copies exactly when the range lies inside the buffer, and changes nothing otherwise |
| `SegmentWriter.WriteBody` | crates/index/src/segment_writer.rs:194-222 | the four sections at their offsets with zeros in every gap; no write can fail |
| `SegmentWriter.WriteTable` | crates/index/src/segment_writer.rs:273-285 | offsets and lengths written behind two cursors, or an error exactly when a section length does not fit 32 bits |
| `SegmentWriter.Seal` | crates/index/src/segment_writer.rs:287-293 | both checksums over the final bytes they cover, the first inside the range of the second |
| `SegmentWriter.EncodeSegment` | crates/index/src/segment_writer.rs:57-296 | succeeds exactly when the graph has a content the format can hold, returns that content's image, and otherwise reports a defect the arguments have |
| `SegmentFormat.SectionsInOrder` | crates/index/src/segment_writer.rs:152-194 | the sections are in order, disjoint, aligned, less than one alignment unit apart and inside the address range |
| `SegmentFormat.RowOfFlat` | crates/index/src/segment_reader.rs:496-516 | cutting the flat neighbour array at two consecutive offsets gives back one node's list |
| `SegmentLayout.ChecksumsMatch` | crates/index/src/segment_writer.rs:287-293 | both checksum fields of an image hold the checksum of the bytes they cover |
| `SegmentLayout.BodyLength` | crates/index/src/segment_writer.rs:174-194 | the last section ends exactly at the end of the file |
| `SegmentRoundTrip.WalkParses` | crates/index/src/segment_reader.rs:256-332 | the reader's walk over the adjacency section meets every layer and stops at its exact end |
| `SegmentRoundTrip.RoundTrip` | crates/index/src/segment_reader.rs:113-543 | for every content the format can hold, reading its image succeeds and every accessor answers what was encoded, each layer's neighbours in order |
| `SegmentAccept.AcceptsExactly` | crates/index/src/segment_reader.rs:113-372 | of all byte sequences the reader accepts exactly those with a right magic, version, flag, metric and both checksums, ordered, aligned and rightly sized sections, and sections that show ascending row ids, bounded levels, adjacency that ends where its section does with every neighbour inside, and an entry point inside or none |
| `SegmentAccept.AcceptedAnswers` | crates/index/src/segment_reader.rs:113-548 | whoever wrote the file, all answers of an accepted reader are those of one such graph, and nothing is answered outside of it |
| `SegmentAccept.DamageIsFound` | crates/index/src/segment_reader.rs:230-236 | a written segment altered behind its header is refused whenever the checksum tells the difference |
| `SegmentRoundTrip.ImagesDiffer` | crates/index/src/segment_writer.rs:57-296 | different contents have different images |
| `SegmentRoundTrip.EncodedReadsBack` | crates/index/src/segment_reader.rs:113-543 | for every graph the encoder accepts, a reader of its bytes answers as the graph did, and when the entry point's level agrees |
| `NodeTableProof.WriteOnceMap` | crates/index/src/node_table.rs:280-329 | every step of every run leaves the map alone or binds one unbound row to the value of the call that then reports success |
| `NodeTableProof.PublishedForever` | crates/index/src/node_table.rs:398-421 | a value once found at a row is found there ever after |
| `NodeTableProof.OneSuccessPerRow` | crates/index/src/node_table.rs:280-329 | of all inserts of one row at most one succeeds |
| `NodeTableProof.OutcomesAreTrue` | crates/index/src/node_table.rs:280-329 | a success is visible, an occupied row holds the value of another successful insert of that row, and a call is refused for range exactly at or above the addressable capacity |
| `NodeTableProof.OneChunkPerSlot` | crates/index/src/node_table.rs:209-255 | racing allocations publish one chunk, and a directory slot never changes once set |
| `NodeTableProof.NoUseAfterFree` | crates/index/src/node_table.rs:209-329 | no chunk a call holds is freed, no value the live table answers with is reclaimed, and nothing is reclaimed twice |
| `NodeTableProof.EverythingReclaimedOnce` | crates/index/src/node_table.rs:102-155 | after the drop every value of every call has been reclaimed exactly once and every chunk ever allocated freed exactly once |
| `Chaos.Registry.RecordOutcome` | crates/chaos-worker/src/main.rs:344-366 | the object's removals and appends for an outcome are together the protocol's one registration |
| `ChaosProof.RegisterRegisters` | crates/chaos-worker/src/main.rs:344-360 | a registration takes out the target, adds the new rows to the process's own list, touches no other entry and keeps all lists disjoint and duplicate-free |
| `Chaos.Registry.RemoveRow` | crates/chaos-worker/src/commit_ops.rs:81-87 | the object performs the protocol's removal |
| `ChaosProof.RemoveKeeps` | crates/chaos-worker/src/commit_ops.rs:81-87 | removal takes out exactly that row and keeps the lists disjoint and duplicate-free |
| `ChaosProof.BusinessIdsDiffer` | crates/chaos-worker/src/main.rs:91-108 | business ids of different slots differ, across agents and pool |
| `ChaosProof.LookupHits` | crates/chaos-worker/src/commit_ops.rs:19-36 | a scan for a just committed id finds the row that commit made and no other |
| `ChaosTheorems.LookupFindsOneRow` | crates/chaos-worker/src/commit_ops.rs:19-36 | in every interleaving the one-row assertion holds at every lookup |
| `ChaosTheorems.SlotsUsedOnce` | crates/chaos-worker/src/main.rs:255-370 | every op slot is in bounds and used at most once |
| `ChaosOps.EverySlotUsed` | crates/chaos-worker/src/main.rs:255-370 | at a clean exit every op slot of every process was announced |
| `ChaosOps.ChosenAction` | crates/chaos-worker/src/ops.rs:56-94 | what a drawn verb announces: two rows only with two slots left, a delete or an update exactly if there is a row to target, otherwise a single insert, with the business ids of its own slots |
| `ChaosOps.RetriedOnce` | crates/chaos-worker/src/commit_ops.rs:166-183 | a conflict is retried if it is the op's first and drops the op if it is its second; nothing else drops an op but its target being gone |
| `ChaosOps.AcknowledgedIsTrue` | crates/chaos-worker/src/main.rs:344-367 | a completion line names the op that is open, and if it says committed every row it names is there, with the announced id, and the target is not |
| `ChaosTheorems.AtMostOneOpen` | crates/chaos-worker/src/main.rs:214-240 | at every crash point start and completion lines alternate per process, so at most one op is open |
| `ChaosCrash.CrashPointExact` | crates/chaos-worker/src/main.rs:255-370 | at every crash point the live rows are exactly the acknowledged ones changed by all effects of some of the open ops: their targets are gone, every row they announce is there once, new, and with its announced business id, and nothing of the other open ops has happened |
| `ChaosTheorems.LostAreTargets` | tests/sim/tests/chaos.rs:112-129 | an acknowledged row that is missing is the target of an op that was in flight |
| `ChaosTheorems.PhantomsAreBounded` | tests/sim/tests/chaos.rs:112-129 | there are at most as many unacknowledged live rows as the open start lines allow for |
| `ChaosTheorems.NoResurrection` | tests/sim/tests/chaos.rs:558-570 | a row acknowledged as tombstoned is never live again |
| `ChaosTheorems.CleanExitAgrees` | crates/chaos-worker/src/main.rs:344-371 | at a clean exit nothing is open, the live rows are the acknowledged ones, and the registry's lists are disjoint, duplicate-free and together exactly the live rows |
| `NodeLayout.HeaderFields` | crates/index/src/node_layout.rs:38-61 | the offsets and size C's layout rules give the header |
| `NodeLayout.ComputeNodeLayout` | crates/index/src/node_layout.rs:87-120 | the walk over header, vector and layers yields the closed-form offsets and block size |
| `NodeLayout.LayerByteOffset` | crates/index/src/node_layout.rs:146-174 | the same offset without building the list, refused exactly above the node's level |
| `NodeLayout.RegionsApart` | crates/index/src/node_layout.rs:78-120 | header, vector and layers are in order, disjoint and inside the block, the layers without gaps up to its end |
| `NodeLayout.RegionsAligned` | crates/index/src/node_layout.rs:78-120 | every region is aligned for its elements |
| `NodeLayout.NeverOverflows` | crates/index/src/node_layout.rs:82-86 | whatever the header's field widths admit stays below `isize::MAX` bytes |
| `NodeLayout.OneContent` | crates/index/src/node.rs:108-177 | a block determines the node it holds: every read is unambiguous |
| `NodeLayout.Node.constructor` | crates/index/src/node_layout.rs:202-270 | from uninitialised memory, a block that holds the row, the vector, both flags down and every slot of every layer empty |
| `NodeLayout.Node.StoreSlot` | crates/index/src/node.rs:135-162 | a store into a slot changes that slot of that layer and nothing else of the node |
| `NodeLayout.Node.MarkDeleted` | crates/index/src/node.rs:189-191 | raises the flag and changes nothing else of the node |
| `NodeLayout.Node.MarkPublished` | crates/index/src/node.rs:218-220 | raises the flag and changes nothing else of the node |
| `NodeLayout.Node.Vector` | crates/index/src/node.rs:108-125 | gives back the vector |
| `NodeLayout.Node.Layer` | crates/index/src/node.rs:135-162 | gives back exactly that layer's slots, refused exactly above the node's level |
| `LiveSet.Bitset.constructor` | crates/index/src/live_set.rs:23-41 | for every id, membership in the bitset is membership in the list it was built from |
| `Batch.Deal` | crates/index/src/hnsw.rs:441-450 | round robin in order, every chunk of exactly its reserved length |
| `Batch.DealtOnce` | crates/index/src/hnsw.rs:441-450 | every row is dealt to one place and to no other |
| `Batch.ChunkCount` | crates/index/src/hnsw.rs:412-442 | a batch that is split is split into at least two chunks and at most as many as there are threads |
| `Batch.Fold` | crates/index/src/hnsw.rs:463-494 | Ok exactly when every chunk succeeded, otherwise the first error, and a panic only if there is no error |
| `Batch.InsertBatchParallel` | crates/index/src/hnsw.rs:391-495 | no row is inserted twice, all are when Ok is returned, the first alone before any other, and every error or panic has a row or a refused thread that caused it |

## Left out

- Floating-point effects: NaN, rounding of distances and of the relaxed threshold, and the logarithm that draws a level.
- The checksum polynomial itself.
- Memory orderings weaker than sequential consistency, raw pointer provenance, and the thread-local scratch buffers beyond the heuristic's two.
- The vector dimension check at the start of `insert`, and its refusal of duplicate or out-of-range row ids: the build protocol starts where `NodeTable` has accepted the row, which `NodeTableProof` covers.
- Global reachability and recall of the built graph, which pruning does not promise.
- Search.SearchLayer: the heaps are sets from which any nearest or furthest member may be popped, so the order among equal distances is left open.
- BruteForce.SelectNth: the partial selection is modelled by a full sort, which is one of its admissible results.
- `SegmentSet`, `SegmentReader`'s aligned byte storage, and the storage, transaction and query crates; the chaos worker runs over an abstract dataset with atomic commits.
- Batch.InsertBatchParallel: how inserts of different workers interleave is left open; what concurrent inserts do to the graph is the build protocol's subject.
- The chaos worker's random draws, its reader thread, its 64-bit overflow checks on business ids and the text of its lines.
- CLI, bindings, benchmarks, fuzz targets and tooling.
