# A verified model of the vertex-centric BSP engine

The engine runs vertex programs in supersteps. In each superstep every vertex is computed once, with
the messages that were sent to it in the superstep before, and may replace its value and send messages
along its edges. The repository has four engines for this: an in-memory graph, a partitioned graph with
two loops, and a distributed engine of one driver and several workers, whose runs can be checkpointed and
recovered. Its claim is that they all compute the same thing, and that a crash does not change the answer.

## How the model is built

* **The reference** (`Bsp`, `Runs`) is one unpartitioned graph whose messages in flight form a bag. It
  mentions no worker, channel, batch or order. What an engine may assume of a vertex function is the
  predicate `Admissible`: on well-formed data it does not fail, its hidden state cannot be observed, and
  neither the order of messages nor that of edges matters. Labelling, shortest paths and, from a uniform
  positive start, PageRank are shown to be admissible; nothing else is assumed of them by any engine.
* **The distributed engine** is modelled at three levels. `WorkerCore` and `Rounds` are functions of what
  is left when all channels are empty. `Protocol` is the step system: one driver, n workers, a FIFO channel
  each way, every interleaving; `ProtocolInvariant` and `ProtocolTheorems` show that every execution agrees
  with `Rounds`, keeps the barrier, never gets stuck and ends. `Refinement` shows that `Rounds` computes
  the reference semantics. `Driver` and `Worker` are the imperative code of the driver's loops and of the
  worker, proved against those functions; the worker owns the byte-level store of `GraphStore`.
* **Loading** (`Loading`, `Launch`): the messages of a load, and the byte-level workers that take them and
  end up as a freshly loaded cluster.
* **Checkpoints** (`Disk`, `Attempts`, `Scheduler`, `Recovery`, `LabelReplay`). A disk keeps a history with one entry per
  durable write, so that a crash leaves one of its entries behind. An attempt is one run of the scheduler
  together with the disk it found. Workers take snapshots, and in a recovered run write into the opened
  checkpoint, in an order that is not determined.
* **The local engines** (`LocalEngine`, `MemGraph`, `PartitionedGraph`) update vertices in place and are
  shown to have the outcome of the worker, which defers its writes.
* **The algorithms**: labelling and shortest paths (`Wcc`, `LocalWcc`, `Sssp`) rest on a theory of walks
  (`Walks`) and of minimum propagation (`MinPropagation`). PageRank (`PageRank`, `PageRankMass`) has a hidden
  variable for each worker; `PageRankTerms` and `PageRankWorkers` are its semantics when these differ, used
  in `PageRankOrder` and `PageRankZeros` (does the cluster matter?) and `PageRankRecovery` (do crashes?).
* **The store** (`ByteTable`, `GraphStore`) is an ordered table of byte strings under the fixed-width and
  length-prefixed encodings actually used.
* `EndToEnd` and `Undirected` put the parts together into statements about whole jobs.
* `Selection` says which part of a list is kept, and in which order; loads, message routing and adjacency
  lists are stated by it, and by the hash modulo the number of workers.

The hash of a vertex id is an arbitrary function from ids to numbers. Hash maps are listed in an order of
no importance: every statement holds for all orders. Values the source obtains from outside (the graph, the
cap, batch sizes, the checkpoint interval) are parameters.

## Where the code falls short of its promise

For each of these there is the exact condition, as an if-and-only-if, and an input at which it happens.

* A batch of edges is stored entirely if and only if no two of its edges have the same source and
  positions that agree modulo 2^32 (`GraphStore.BatchIsStoredExactlyWhen`), given a batch number that was
  never used. One edge repeated 2^32 + 1 times is such a batch (`GraphStore.LongBatchLosesEdges`).
* PageRank's hidden variable is taken from the first positive value a worker lists. All orders of a list of
  values leave the same one if and only if alpha is 1 or all positive values are equal
  (`PageRank.TeleportForgetsOrderExactlyWhen`). For whole runs from positive values, all clusters agree if
  and only if alpha is 1, or no vertex has an out-edge, or the start is uniform
  (`PageRankOrder.AgreeAlwaysExactlyWhen`). Values of 0 can hide the difference for two supersteps
  (`PageRankZeros.ZeroIsDecidedLate`), and may make it vanish: `PageRankZeros.AgreeFromZerosExactlyWhen` is
  the condition for values that are not negative and 0 <= alpha <= 1, and
  `PageRankOrder.AgreeAfterTwoExactlyWhen` the one for any values and two supersteps.
  `PageRankOrder.ListingOrderMatters` is a graph on which two listing orders end differently.
* Shortest paths offer a distance plus a weight in 32 bits, which wrap around. The distances are exact, as
  far as they can be represented, if and only if no distance that a vertex holds at some time overflows on
  an edge to another vertex (`Sssp.SsspExactlyWhen`); `Sssp.HeavyPathOverflows` is a graph on which it does.
* Recovery opens the checkpoint as the live store, and the supersteps that follow write into it while the
  saved inboxes stay. A run can be taken over from every disk on which it has moved `latest`
  (`Scheduler.Run`, `Recovery.DueCheckpointSurvives`), any number of times
  (`Recovery.ChainPreservesAnswer`). From a disk on which a recovered run has not moved `latest`, the next
  run begins in the state of the checkpoint if and only if no value on it was changed
  (`Recovery.UnmovedSurvivesExactlyWhen`); `SecondRecovery.SecondRecoveryLosesMessages` is a labelling
  job on which the next run returns a wrong label. Labels that were changed do no harm as long as every edge
  will be accounted for (`LabelReplay.UnmovedFindsComponents`).
* PageRank's hidden variable is not saved, and a job without out-edges, which ends with superstep 1, is
  continued by its recovery. From a uniform start and for 0 <= alpha < 1, a recovered run ends with the
  ranks of the job if and only if every worker finds the starting value in the first entry it lists, and
  alpha is 0 or some vertex has an out-edge or there is no vertex
  (`PageRankRecovery.RankRecoversExactlyWhen`). For alpha = 1, if and only if some vertex has an out-edge or
  all values are 0 (`PageRankRecovery.UndampedRecoversExactlyWhen`).
  `PageRankRecovery.RankRecoveryGoesWrong` and `PageRankRecovery.RecoveryOutlivesJob` are jobs on which it
  does not, for either reason.
* A checkpoint fails when one of its directories exists, so a run returns if and only if no checkpoint that
  falls due up to its last superstep has a directory on the disk it found (`Scheduler.Run`). After a crash
  that moved `latest` this means that no snapshot is numbered above the latest checkpoint
  (`Recovery.RecoveryReturnsExactlyWhen`). A crash between the first snapshot of a checkpoint and its naming
  leaves a disk from which no recovery returns (`SecondRecovery.BegunCheckpointBlocks`).

## Model

| member | source | states |
|---|---|---|
| `EndToEnd.EveryScheduleComputes` | geaflow-rust/geaflow-runtime/src/distributed/driver.rs:565-581 | for every worker count, hash, load and interleaving of driver and worker steps, a job on admissible vertex functions never fails, and when it is over the stores together are the final state of the reference run on the unpartitioned graph, after as many supersteps |
| `EndToEnd.IndependentOfWorkers` | geaflow-rust/geaflow-runtime/src/distributed/driver.rs:155-231 | two clusters that differ in worker count, hash and listing orders end after the same number of supersteps with the same value for every vertex |
| `EndToEnd.EnginesAgree` | geaflow-rust/geaflow-runtime/src/graph/partitioned_graph.rs:189-302 | in-memory engine, partitioned engine (any partition count, any parallelism) and cluster end with the same value for every vertex, the same edge list, and as many supersteps |
| `EndToEnd.WccEverySchedule` | geaflow-rust/geaflow-runtime/src/distributed/algorithm.rs:51-90 | distributed labelling under any schedule: every owner holds the least id that reaches the vertex, within &#124;V&#124; + 1 supersteps |
| `EndToEnd.LaunchLabelling` | geaflow-rust/geaflow-runtime/src/distributed/driver.rs:52-66 | from the graph to the first superstep: workers with their own byte tables that take the load and the algorithm are a launched cluster of encoded ids, each is what the protocol takes a worker to be, and every label fits its store |
| `Undirected.UndirectedComponents` | geaflow-rust/geaflow-runtime/src/distributed/algorithm.rs:51-90 | labelling after an undirected load, under any schedule and on any number of workers: when the job is over two vertices have one label if and only if a path of given edges, each taken in either direction, joins them |
| `Undirected.LaunchUndirected` | geaflow-rust/geaflow-runtime/src/distributed/driver.rs:296-406 | workers with empty byte tables that take an undirected streaming load and the algorithm are such a job |
| `Undirected.LoadedSymmetric` | geaflow-rust/geaflow-runtime/src/distributed/driver.rs:372-391 | the edges of an undirected load contain the reverse of each of them |
| `Undirected.ReachesIsConnected` | geaflow-rust/geaflow-runtime/src/distributed/driver.rs:372-391 | a directed path in an undirected load exists exactly when a path of given edges, in either direction, does |
| `EndToEnd.WccSurvivesCrashes` | geaflow-rust/geaflow-runtime/src/scheduler/cycle_scheduler.rs:35-119 | labelling that crashes any number of times, each time taken over from a complete latest checkpoint by as many workers, ends with the components and, store by store, with the labels of the run that never crashed |
| `EndToEnd.RecoverLabels` | geaflow-rust/geaflow-runtime/src/scheduler/cycle_scheduler.rs:22-121 | the scheduler on a disk that a crash of a run, fresh or recovered, left behind after moving `latest` returns if and only if no snapshot is numbered above the latest checkpoint, and then every owner holds the least reaching id |
| `EndToEnd.LabelComponents` | geaflow-rust/geaflow-runtime/src/graph/partitioned_graph.rs:134-176 | the uncapped loop ends by itself within &#124;V&#124; + 1 supersteps for labelling, with the least reaching id on every vertex |
| `EndToEnd.ShortestPaths` | geaflow-rust/geaflow-runtime/src/graph/mem_graph.rs:116-190 | with the largest possible cap the in-memory engine leaves the exact distances, as far as 32 bits can represent them, if and only if no distance that a vertex holds at some time overflows on an edge to another vertex (the only-if for fewer than 2^64 - 1 vertices); and then it stops within &#124;V&#124; + 1 supersteps |
| `EndToEnd.PageRankOnAnyCluster` | geaflow-rust/geaflow-runtime/src/distributed/algorithm.rs:137-171 | from a uniform positive start the hidden teleport variable is invisible: any two clusters end with the same values |
| `EndToEnd.LaunchedExecutes` | geaflow-rust/geaflow-runtime/src/distributed/driver.rs:565-581 | the driver's loop on a freshly loaded cluster executes as many supersteps as the reference loop and ends in a representation of its final state |
| `Bsp.AnyOrder` | geaflow-rust/geaflow-runtime/src/distributed/worker.rs:238-250 | whatever order an engine presents a vertex's edges and messages in, the outcome is the reference one up to the order of sends |
| `Bsp.ComputesAsReference` | geaflow-rust/geaflow-runtime/src/distributed/worker.rs:238-256 | a stateful, possibly failing vertex function that is ready for the superstep does not fail and is observed as the stateless program |
| `Bsp.InFlight` | geaflow-rust/geaflow-runtime/src/distributed/worker.rs:256-257 | after a superstep a message is in flight exactly when some vertex sent it |
| `Bsp.SuperstepKeepsTyping` | geaflow-rust/geaflow-runtime/src/distributed/worker.rs:223-265 | well-formed values and messages stay well formed |
| `Bsp.SilentIsFinal` | geaflow-rust/geaflow-runtime/src/distributed/driver.rs:575-577 | a superstep without incoming messages changes nothing from the second superstep on |
| `Runs.RunStops` | geaflow-rust/geaflow-runtime/src/distributed/driver.rs:569-580 | a run is a prefix of the superstep sequence, cut by the cap or just after the first silent superstep |
| `Runs.StopsAtIsUnique` | geaflow-rust/geaflow-runtime/src/distributed/driver.rs:569-580 | the loop stops nowhere else than at the cap or the first silence |
| `Runs.EarlyStopIsHarmless` | geaflow-rust/geaflow-runtime/src/distributed/driver.rs:576-578 | stopping at the first silence leaves the state that all the remaining supersteps would leave |
| `Runs.CapIsHarmless` | geaflow-rust/geaflow-runtime/src/distributed/driver.rs:565-581 | any cap beyond the superstep that falls silent gives the same result |
| `Runs.ResumeIsHarmless` | geaflow-rust/geaflow-runtime/src/scheduler/cycle_scheduler.rs:35-48 | resuming after superstep k, even a silent one, ends where the uninterrupted run ends |
| `Batching.ChunksRoundTrip` | geaflow-rust/geaflow-runtime/src/distributed/driver.rs:161-191 | reassembling the 256-entry batches gives the original list; at least one batch travels, exactly the final one is marked last, none is oversized, and only an empty list travels in an empty batch |
| `Batching.ChunksAreFull` | geaflow-rust/geaflow-runtime/src/distributed/driver.rs:161-191 | every batch but the last has exactly 256 entries, batch i those from 256 * i on, and a non-empty list takes (length + 255) / 256 batches |
| `Batching.Split` | geaflow-rust/geaflow-runtime/src/distributed/worker.rs:272-301 | an empty list travels as one batch, any other as (length + 255) / 256; batch i carries the entries from 256 * i on, exactly 256 of them unless it is the last, and the last batch is the one so marked |
| `Shuffle.RouteExact` | geaflow-rust/geaflow-runtime/src/shuffle/mod.rs:15-21 | after routing, an inbox holds a key if and only if the key's hash is the number of the inbox modulo the number of workers and something was sent to it, and then exactly the messages sent to it, in worker-then-send order |
| `Shuffle.MessagesConserved` | geaflow-rust/geaflow-runtime/src/distributed/driver.rs:193-228 | a (target, message) pair is in inbox p as often as in the outboxes if the target's hash is p modulo the number of workers, and not at all otherwise |
| `Shuffle.RouteConcat` | geaflow-rust/geaflow-runtime/src/distributed/driver.rs:193-228 | routing chunk by chunk is routing the concatenation: chunk boundaries do not matter |
| `Shuffle.RouteOutbox` | geaflow-rust/geaflow-runtime/src/shuffle/mod.rs:15-21 | the in-place loop appends, for every key, what was sent to it to the inbox whose number the key's hash leaves modulo the number of inboxes, and changes no other |
| `Selection.KeptIsUnique` | geaflow-rust/geaflow-runtime/src/shuffle/mod.rs:15-21 | only one list is the kept part of a stream in its order, so the statements about what is loaded and routed leave no choice |
| `Shuffle.OwnerIsResidue` | geaflow-rust/geaflow-runtime/src/shuffle/partitioner.rs:1-7 | the driver's and the shuffle's partitioner find one owner, below the number of workers, which differs from the hash by a multiple of that number: a message goes where its vertex was loaded |
| `Shuffle.SentToInOrder` | geaflow-rust/geaflow-runtime/src/shuffle/mod.rs:15-21 | the messages to a key are the part of the stream addressed to it: all of it, in its order |
| `WorkerCore.ProcessKeepsShape` | geaflow-rust/geaflow-runtime/src/distributed/worker.rs:223-265 | a superstep of a worker changes values only: vertices, their order and edges stay |
| `WorkerCore.MergeDrained` | geaflow-rust/geaflow-runtime/src/distributed/worker.rs:137-139 | an inbox drained in any order is reassembled to itself |
| `WorkerCore.StaleBatchesForgotten` | geaflow-rust/geaflow-runtime/src/distributed/worker.rs:133-136 | a batch of another superstep than the pending one is treated as if nothing had been pending |
| `WorkerCore.BatchesAddUp` | geaflow-rust/geaflow-runtime/src/distributed/worker.rs:137-139 | two batches of one superstep have the effect of one with the entries of both |
| `WorkerCore.MergeAppends` | geaflow-rust/geaflow-runtime/src/distributed/worker.rs:137-139 | an absorbed entry appends its messages to what was waiting for its key, and leaves other keys alone |
| `WorkerCore.LastWriteWins` | geaflow-rust/geaflow-runtime/src/state/rocksdb_graph_state.rs:126-136 | after writes in order a key has the value of its last write, or keeps what it had when it is not written |
| `ProtocolInvariant.StepKeepsMechanics` | geaflow-rust/geaflow-runtime/src/distributed/driver.rs:155-231 | every step of every interleaving keeps the invariant on channels, pending inboxes, worker stores and the driver's partial results |
| `ProtocolTheorems.EveryScheduleAgrees` | geaflow-rust/geaflow-runtime/src/distributed/driver.rs:565-581 | every finished execution leaves the stores, algorithm states, inboxes and count that the deterministic loop computes, with all channels empty; an execution fails only if that loop does |
| `ProtocolTheorems.Barrier` | geaflow-rust/geaflow-runtime/src/distributed/driver.rs:160-230 | at the head of the loop all workers are idle and all channels empty; during a round every message belongs to it, and every worker is either before or after its single computation of it, starting from the cut of the job after the previous superstep |
| `ProtocolTheorems.LinkDiscipline` | geaflow-rust/geaflow-runtime/src/distributed/worker.rs:128-148 | a worker's channels carry only the current superstep, and its store is the one before the round or the one after exactly one computation |
| `ProtocolTheorems.NeverStuck` | geaflow-rust/geaflow-runtime/src/distributed/driver.rs:196-228 | until the job is over some step is enabled: no message is waited for that cannot come |
| `ProtocolTheorems.EveryStepCounts` | geaflow-rust/geaflow-runtime/src/distributed/driver.rs:155-231 | every step lowers a well-founded rank, so no execution is infinite |
| `ProtocolTheorems.JobsEnd` | geaflow-rust/geaflow-runtime/src/distributed/driver.rs:565-581 | from every reachable state the job can be brought to its end |
| `Refinement.ScanCorrect` | geaflow-rust/geaflow-runtime/src/distributed/worker.rs:232-259 | after j vertices the accumulated updates and outbox are those of the first j vertices of the reference superstep |
| `Refinement.WorkCorrect` | geaflow-rust/geaflow-runtime/src/distributed/worker.rs:223-265 | a worker that sees its part of the graph never fails, leaves exactly the new values of its vertices and sends exactly what they send |
| `Refinement.RoundRefines` | geaflow-rust/geaflow-runtime/src/distributed/driver.rs:155-231 | one superstep of the cluster takes a representation of a state to a representation of the next, and reports a message exactly when there is one |
| `Refinement.ExecuteRefines` | geaflow-rust/geaflow-runtime/src/distributed/driver.rs:565-581 | the same for whole runs from any superstep, with the same count |
| `Driver.Drain` | geaflow-rust/geaflow-runtime/src/distributed/driver.rs:162-163 | draining an inbox yields each entry once, in any order |
| `Driver.ChunkHandled` | geaflow-rust/geaflow-runtime/src/distributed/worker.rs:128-148 | a worker that has absorbed all batches before reacts to the next one with nothing, or, if it is the last, with its superstep on the whole inbox |
| `Driver.DistributedDriver.SendInbox` | geaflow-rust/geaflow-runtime/src/distributed/driver.rs:162-191 | sending one inbox in batches makes the worker compute its superstep on exactly that inbox, once |
| `Driver.DistributedDriver.ReceiveOutbox` | geaflow-rust/geaflow-runtime/src/distributed/driver.rs:196-228 | receiving up to the batch marked last empties the channel and routes exactly the worker's outbox |
| `Driver.DistributedDriver.SuperstepRound` | geaflow-rust/geaflow-runtime/src/distributed/driver.rs:155-231 | the whole round, on one schedule, is the deterministic round; it leaves all channels empty and fails exactly when a worker does |
| `Driver.DistributedDriver.Execute` | geaflow-rust/geaflow-runtime/src/distributed/driver.rs:565-581 | the loop ends with the cluster and the count of the deterministic loop |
| `Driver.DistributedDriver.FetchVertices` | geaflow-rust/geaflow-runtime/src/distributed/driver.rs:647-670 | the replies are concatenated in worker order, each as its store lists it |
| `Driver.FetchedIsResult` | geaflow-rust/geaflow-runtime/src/distributed/driver.rs:647-670 | what is fetched from a cluster that represents a state holds every vertex exactly once, with its value |
| `Loading.LoadAtOnce` | geaflow-rust/geaflow-runtime/src/distributed/driver.rs:233-262 | one message goes to every worker p, with exactly the vertices whose hash is p modulo the number of workers and exactly the edges whose source's hash is, all in input order |
| `Loading.ShareIsPart` | geaflow-rust/geaflow-runtime/src/distributed/driver.rs:233-262 | a worker's share is, by hash modulo the number of workers, its vertices with the value given last and its edges with multiplicity, counting with `undirected` the reverse of every edge too |
| `Loading.ExpandedCounts` | geaflow-rust/geaflow-runtime/src/distributed/driver.rs:372-391 | with `undirected` an edge is loaded as often as it and its reverse are given together, otherwise as often as it is given |
| `Loading.StreamVertices` | geaflow-rust/geaflow-runtime/src/distributed/driver.rs:308-344 | nothing is lost between the batches sent and the buffers; no batch exceeds `vertex_batch_size` (a single vertex where that is 0), only the last one to a worker may be smaller, and all buffers are empty at the end |
| `Loading.PushEdge` | geaflow-rust/geaflow-runtime/src/distributed/driver.rs:372-391 | one edge goes to the buffer that its source's hash leaves modulo the number of workers; while the buffer has fewer than `edge_batch_size` edges nothing is sent, otherwise it is sent as one message and emptied |
| `Loading.LoadStreaming` | geaflow-rust/geaflow-runtime/src/distributed/driver.rs:296-406 | for every batch size, zero included: worker p ends up with the vertices whose hash is p modulo the number of workers, the last value given for each, and with each edge from them as often as it is given, plus, with `undirected`, as often as its reverse is; data batches are bounded by the batch sizes, only the last of a kind to a worker is smaller, none is marked last, and each worker gets one closing message after all its data |
| `Loading.LoadedRepresents` | geaflow-rust/geaflow-runtime/src/distributed/driver.rs:233-262 | stores that hold their shares represent the whole graph at the start of a run |
| `Launch.TakeAll` | geaflow-rust/geaflow-runtime/src/distributed/worker.rs:43-100 | workers that take all messages of a load in the order of sending, whether or not they share the counter of batch numbers, hold what the messages for them say |
| `Launch.LaunchAtOnce` | geaflow-rust/geaflow-runtime/src/distributed/driver.rs:233-262 | after a load at once every worker's byte tables hold its part of the graph, by hash modulo the number of workers, and form a freshly loaded cluster, as long as no worker owns more than 2^32 edges |
| `Launch.LaunchStreaming` | geaflow-rust/geaflow-runtime/src/distributed/driver.rs:296-406 | the same after a streaming load with batches of at most 2^32 edges, with the reverse of every edge when it is undirected |
| `Launch.SetAlgorithms` | geaflow-rust/geaflow-runtime/src/distributed/driver.rs:545-563 | every worker then is its site of the cluster, with a new instance of the algorithm and nothing received yet; the stores stay |
| `Worker.Worker.ProcessSuperstep` | geaflow-rust/geaflow-runtime/src/distributed/worker.rs:223-302 | computing all vertices on the store and writing the updates once is the worker's superstep, batched; a vertex that fails fails it and writes nothing |
| `Worker.Worker.HandleSuperstepBatch` | geaflow-rust/geaflow-runtime/src/distributed/worker.rs:128-148 | the reaction to a batch, pending inbox and replies included, is the protocol's; without an algorithm the last batch is an error and any other is added to the pending inbox |
| `Worker.Worker.Absorb` | geaflow-rust/geaflow-runtime/src/distributed/worker.rs:137-139 | entries are appended to what is already waiting for the same vertex |
| `Worker.Worker.LoadGraph` | geaflow-rust/geaflow-runtime/src/distributed/worker.rs:49-69 | the store gains the vertices (last write wins) and, with unused batch numbers and at most 2^32 edges, the edge multiset of the message; with unused numbers the edges are all stored if and only if no two share a key |
| `Worker.Worker.LoadGraphBatch` | geaflow-rust/geaflow-runtime/src/distributed/worker.rs:70-100 | the same for a batch, empty parts skipped, with `last` echoed |
| `Worker.TablesHold` | geaflow-rust/geaflow-runtime/src/distributed/worker.rs:232-249 | the tables, listed and scanned, hold their vertices and out-edges in the sense of the load protocol |
| `Worker.UpdatesKeepOrder` | geaflow-rust/geaflow-runtime/src/distributed/worker.rs:261-265 | writing updates moves no vertex in the listing |
| `ByteTable.PrefixRangeIsContiguous` | geaflow-rust/geaflow-runtime/src/state/rocksdb_graph_state.rs:171-179 | a key between a prefix and a key that has it, has it too |
| `ByteTable.LessExactlyWhen` | geaflow-rust/geaflow-runtime/src/state/rocksdb_graph_state.rs:171-179 | one key is before another exactly when it is a proper prefix of it or has the smaller byte where they first differ |
| `ByteTable.PutIsSorted` | geaflow-rust/geaflow-runtime/src/state/rocksdb_graph_state.rs:126-136 | a write keeps the key order, replaces the entry of its key or adds one, and touches no other |
| `ByteTable.SeekSkips` | geaflow-rust/geaflow-runtime/src/state/rocksdb_graph_state.rs:172-174 | an iterator started at a key skips exactly the smaller keys |
| `GraphStore.BytesRoundTrip` | geaflow-rust/geaflow-runtime/src/state/rocksdb_graph_state.rs:49-56 | decoding a length-prefixed string gives it back together with whatever follows |
| `GraphStore.EdgeRoundTrip` | geaflow-rust/geaflow-runtime/src/state/rocksdb_graph_state.rs:49-56 | decoding an encoded edge gives it back |
| `GraphStore.BytesLayout` | geaflow-rust/geaflow-runtime/src/state/rocksdb_graph_state.rs:49-51 | a string is stored after its length in eight bytes, least significant first |
| `GraphStore.EdgeLayout` | geaflow-rust/geaflow-runtime/src/state/rocksdb_graph_state.rs:151-161 | an edge is stored as source, target and value, under its source, the batch number in eight bytes and its position modulo 2^32 in four, least significant byte first |
| `GraphStore.PrefixMeansSource` | geaflow-rust/geaflow-runtime/src/state/rocksdb_graph_state.rs:168-178 | a key starts with the encoding of s exactly when its source is s |
| `GraphStore.KeysClashExactlyWhen` | geaflow-rust/geaflow-runtime/src/state/rocksdb_graph_state.rs:155-160 | two edges share a key if and only if source and batch number agree and their positions agree modulo 2^32 |
| `GraphStore.BatchIsStoredExactlyWhen` | geaflow-rust/geaflow-runtime/src/state/rocksdb_graph_state.rs:151-166 | with an unused batch number a batch is stored entirely if and only if no two of its edges share a key; then the table gains exactly the batch |
| `GraphStore.LongBatchLosesEdges` | geaflow-rust/geaflow-runtime/src/state/rocksdb_graph_state.rs:151-166 | an edge repeated 2^32 + 1 times in one batch is such a clash: fewer edges are stored than were written |
| `GraphStore.StoreThenRead` | geaflow-rust/geaflow-runtime/src/state/rocksdb_graph_state.rs:151-184 | after any sequence of edge batches on a new store, reading one source returns exactly the multiset of edges stored with it |
| `GraphStore.OnlyFromAsOutEdges` | geaflow-rust/geaflow-runtime/src/distributed/worker.rs:240-249 | the edges read back for a vertex are its out-edges in the reference semantics |
| `GraphStore.PutVerticesUpdates` | geaflow-rust/geaflow-runtime/src/state/rocksdb_graph_state.rs:126-136 | a batch of vertex writes updates the vertex map in order: the last write wins |
| `GraphStore.RocksDbGraphState.Open` | geaflow-rust/geaflow-runtime/src/state/rocksdb_graph_state.rs:20-33 | a store opens with the tables of its directory; all batch numbers of the new counter are unused if and only if the number in the key of every stored edge is below it, as in an empty directory |
| `GraphStore.RocksDbGraphState.PutVertexBatch` | geaflow-rust/geaflow-runtime/src/state/rocksdb_graph_state.rs:126-136 | the vertex map becomes the old one with all writes applied in order |
| `GraphStore.RocksDbGraphState.GetVertex` | geaflow-rust/geaflow-runtime/src/state/rocksdb_graph_state.rs:113-124 | the value last written for the id, or none |
| `GraphStore.RocksDbGraphState.ListVertices` | geaflow-rust/geaflow-runtime/src/state/rocksdb_graph_state.rs:138-149 | every vertex once, with its value |
| `GraphStore.RocksDbGraphState.PutEdgeBatch` | geaflow-rust/geaflow-runtime/src/state/rocksdb_graph_state.rs:151-166 | the edge multiset gains exactly the batch, given an unused number and at most 2^32 edges; entirely stored if and only if no keys clash |
| `GraphStore.RocksDbGraphState.GetOutEdges` | geaflow-rust/geaflow-runtime/src/state/rocksdb_graph_state.rs:168-184 | exactly the stored edges with that source: the scan's early stop loses none |
| `Attempts.DueExactlyWhen` | geaflow-rust/geaflow-runtime/src/scheduler/cycle_scheduler.rs:64-66 | a checkpoint is due after superstep k if and only if checkpoints are enabled, the interval is not 0 and k is a multiple of it |
| `Scheduler.CreateCheckpointAll` | geaflow-rust/geaflow-runtime/src/distributed/driver.rs:583-613 | in whatever order the workers take their snapshots: it succeeds if and only if no worker's directory exists, and then every snapshot is its worker's store; no other checkpoint is disturbed |
| `Scheduler.LoadCheckpointAll` | geaflow-rust/geaflow-runtime/src/distributed/driver.rs:615-645 | every worker's store becomes its snapshot, an empty one where it is missing, and every disk on the way differs only by snapshots opened so far; algorithm states stay |
| `Scheduler.LiveWrites` | geaflow-rust/geaflow-runtime/src/distributed/worker.rs:166-182 | after a superstep of a recovered run each worker's store is written over the opened snapshot, in any order: every disk on the way has some of them written, the last one all, and nothing else changed |
| `Scheduler.Checkpoint` | geaflow-rust/geaflow-runtime/src/scheduler/cycle_scheduler.rs:61-102 | it succeeds if and only if none of its directories exists; between any two durable writes `latest` names what it named before or the complete new cut, whose description is already on disk, and the history has a disk on which it is begun but not named |
| `Scheduler.Advance` | geaflow-rust/geaflow-runtime/src/scheduler/cycle_scheduler.rs:58-112 | one pass through the running state is one round plus, when due, one checkpoint of the cut after it; it fails if and only if a worker fails or a due checkpoint's directory exists |
| `Scheduler.Run` | geaflow-rust/geaflow-runtime/src/scheduler/cycle_scheduler.rs:22-121 | it returns if and only if no superstep fails, the saved inboxes can be read, and no checkpoint due up to the last superstep has a directory on the disk it found; then it ends where the driver's loop from its beginning ends, count included; on every disk of its history `latest` names what it named at the start or a complete consistent cut; with an interval, every multiple of it that is executed has its checkpoint begun and named in the history, and new snapshots are numbered by such multiples or belong to the opened checkpoint; disabled, or with interval 0, nothing is read from disk or written to it |
| `Recovery.CutRepresents` | geaflow-rust/geaflow-runtime/src/scheduler/cycle_scheduler.rs:58-66 | every cut of a run, fresh or recovered, represents the graph after as many supersteps of the job, and is ready for the next |
| `Recovery.BeginsAtCut` | geaflow-rust/geaflow-runtime/src/scheduler/cycle_scheduler.rs:35-48 | a run that takes over begins with the graph as it was after the superstep of the latest checkpoint |
| `Recovery.DueCheckpointSurvives` | geaflow-rust/geaflow-runtime/src/scheduler/cycle_scheduler.rs:61-106 | the history of a run, fresh or recovered, has for every checkpoint that was due a disk on which `latest` names it and from which fresh workers can take over |
| `Recovery.RecoveryGoesOn` | geaflow-rust/geaflow-runtime/src/scheduler/cycle_scheduler.rs:35-48 | a recovery from a complete latest checkpoint k of any run, fresh or recovered, of any admissible function without hidden state continues from the state after superstep k: it executes as many supersteps as the reference loop continued from there, silent or not, to the same state |
| `Recovery.RecoveryEndsAsJob` | geaflow-rust/geaflow-runtime/src/scheduler/cycle_scheduler.rs:35-48 | if the crashed run would have got past k, this is where it would have ended, after as many supersteps |
| `Recovery.RecoveryPreservesAnswer` | geaflow-rust/geaflow-runtime/src/scheduler/cycle_scheduler.rs:35-119 | for quiescent functions without hidden state: a recovery from a complete latest checkpoint of any run, fresh or recovered, never fails in a superstep, ends in the final state of the uninterrupted job, and can itself be recovered from in the same way |
| `Recovery.ChainPreservesAnswer` | geaflow-rust/geaflow-runtime/src/scheduler/cycle_scheduler.rs:35-119 | after any number of such crashes and recoveries the last run ends in the final state of the uninterrupted job |
| `Recovery.UnmovedSurvivesExactlyWhen` | geaflow-rust/geaflow-runtime/src/distributed/worker.rs:166-182 | a recovered run that crashed before it moved `latest` left a complete cut, and the next run begins in the state of the checkpoint, if and only if none of its live writes has changed a value on disk |
| `Recovery.LiveBeginning` | geaflow-rust/geaflow-runtime/src/distributed/worker.rs:166-182 | in any case the next run begins with the messages of the checkpoint, and for every vertex with a value it had after some superstep from then on |
| `LabelReplay.UnmovedFindsComponents` | geaflow-rust/geaflow-runtime/src/scheduler/cycle_scheduler.rs:35-48 | labelling: if along every edge the target gets to the source's label with the saved messages, or the source gets a lower one, the next run succeeds and finds the components, whatever had been written |
| `LabelReplay.CutIsPending` | geaflow-rust/geaflow-runtime/src/scheduler/cycle_scheduler.rs:58-66 | that is so when nothing on disk was changed |
| `LabelReplay.FinalIsPending` | geaflow-rust/geaflow-runtime/src/scheduler/cycle_scheduler.rs:58-66 | and when all labels on disk are final |
| `Recovery.RecoveryReturnsExactlyWhen` | geaflow-rust/geaflow-runtime/src/scheduler/cycle_scheduler.rs:66-75 | a recovery from a disk that a run left behind after moving `latest` meets no existing directory if and only if no snapshot on it is numbered above the latest checkpoint |
| `Recovery.SameValues` | geaflow-rust/geaflow-runtime/src/scheduler/cycle_scheduler.rs:35-119 | clusters of as many workers that represent one state hold the same values store by store |
| `SecondRecovery.SecondRecoveryLosesMessages` | geaflow-rust/geaflow-runtime/src/distributed/worker.rs:166-170 | on a path of three vertices on one worker, labelled by the distributed algorithm on bytes: from every disk of a fresh run's history with checkpoint 1 complete the first recovery returns the right labels, and the history of every such recovery has a disk with `latest` unmoved from which the next run returns a wrong label |
| `SecondRecovery.FirstCheckpointIsTaken` | geaflow-rust/geaflow-runtime/src/scheduler/cycle_scheduler.rs:61-102 | the history of a run on that path has such a disk when a checkpoint is due after superstep 1 |
| `SecondRecovery.BegunCheckpointBlocks` | geaflow-rust/geaflow-runtime/src/scheduler/cycle_scheduler.rs:66-75 | at the disk of that path that a crash between the snapshot of checkpoint 2 and its naming leaves behind, a recovery has no failing superstep and yet does not return |
| `LocalEngine.EdgesFromAsBag` | geaflow-rust/geaflow-runtime/src/graph/partitioned_graph.rs:39-46 | adjacency lists are the out-edges of the edge list |
| `LocalEngine.EdgesFromInOrder` | geaflow-rust/geaflow-runtime/src/graph/partitioned_graph.rs:39-46 | the adjacency list of a vertex is the part of the edge list that starts at it, in its order |
| `LocalEngine.ComputePartition` | geaflow-rust/geaflow-runtime/src/graph/partitioned_graph.rs:229-255 | replacing values while the scan is under way has the outcome of the worker's deferred writes |
| `MemGraph.InMemoryGraph.constructor` | geaflow-rust/geaflow-runtime/src/graph/mem_graph.rs:20-37 | vertices last write wins, adjacency lists those of the edge list |
| `MemGraph.InMemoryGraph.Superstep` | geaflow-rust/geaflow-runtime/src/graph/mem_graph.rs:138-169 | one in-place pass has the outcome of the worker's deferred writes, and posts exactly what was sent |
| `MemGraph.InMemoryGraph.RunWithFunction` | geaflow-rust/geaflow-runtime/src/graph/mem_graph.rs:116-190 | the graph ends with the vertex map and the count of the reference run |
| `PartitionedGraph.Graph.constructor` | geaflow-rust/geaflow-runtime/src/graph/partitioned_graph.rs:25-52 | every vertex in its owner's partition only, every out-edge listed there in order |
| `PartitionedGraph.PlacedByHash` | geaflow-rust/geaflow-runtime/src/graph/partitioned_graph.rs:25-65 | partition i holds exactly the vertices whose hash is i modulo the number of partitions, each with its value and its out-edges |
| `PartitionedGraph.Graph.Vertices` | geaflow-rust/geaflow-runtime/src/graph/partitioned_graph.rs:304-314 | the listed entries rebuild the vertex map |
| `PartitionedGraph.Exchange` | geaflow-rust/geaflow-runtime/src/graph/partitioned_graph.rs:255-269 | all outboxes are drained into the inboxes of their owners, and silence is noticed exactly |
| `PartitionedGraph.LocalRound` | geaflow-rust/geaflow-runtime/src/graph/partitioned_graph.rs:228-275 | one superstep of all partitions and the exchange is one superstep of the reference semantics |
| `PartitionedGraph.RunWorkers` | geaflow-rust/geaflow-runtime/src/graph/partitioned_graph.rs:228-275 | the partitions end up holding the final state of the reference run |
| `PartitionedGraph.Graph.ComputeAlgorithm` | geaflow-rust/geaflow-runtime/src/graph/partitioned_graph.rs:189-302 | the result has the vertex map of the reference run, the same edge list, and max(parallelism, partitions) partitions |
| `PartitionedGraph.ScanPartition` | geaflow-rust/geaflow-runtime/src/graph/partitioned_graph.rs:138-163 | fetching messages by the hash of the id can only reach the partition's own inbox; the pass has the outcome of deferred writes |
| `PartitionedGraph.SharedOutcome` | geaflow-rust/geaflow-runtime/src/graph/partitioned_graph.rs:134-176 | one function threaded through all partitions acts as one function per partition |
| `PartitionedGraph.Graph.Compute` | geaflow-rust/geaflow-runtime/src/graph/partitioned_graph.rs:116-187 | the uncapped loop ends for every function whose run falls silent, with the vertex map and count of the reference run |
| `Codec.U64Canonical` | geaflow-rust/geaflow-runtime/src/distributed/algorithm.rs:23-29 | eight bytes encode exactly one number |
| `Codec.DecodesLittleEndian` | geaflow-rust/geaflow-runtime/src/distributed/algorithm.rs:27-29 | a decoded number is the sum of byte i times 256^i over the first eight bytes |
| `Codec.EncodesLittleEndian` | geaflow-rust/geaflow-runtime/src/distributed/algorithm.rs:23-25 | byte i of an encoded number is x / 256^i modulo 256, at eight bytes and at four |
| `Wcc.WccAlgorithm.ComputeVertex` | geaflow-rust/geaflow-runtime/src/distributed/algorithm.rs:51-90 | in terms of the numbers the bytes stand for, least significant byte first: it fails exactly when the id, the value or, from superstep 2 on, a message is shorter than eight bytes; it adopts its id in superstep 1, and later the least message if that is less than its label; what it adopts is sent along every edge |
| `Wcc.WccAnswers` | geaflow-rust/geaflow-runtime/src/distributed/algorithm.rs:51-90 | the same of the labelling function |
| `Wcc.WccAdmissible` | geaflow-rust/geaflow-runtime/src/distributed/algorithm.rs:51-90 | labelling needs no order of edges or messages, has no state, and never fails on encoded numbers |
| `Wcc.WccQuiescent` | geaflow-rust/geaflow-runtime/src/distributed/algorithm.rs:79-89 | a vertex without messages neither changes nor sends after superstep 1 |
| `Wcc.WccSuperstepInvariant` | geaflow-rust/geaflow-runtime/src/distributed/algorithm.rs:62-89 | after superstep k the label is exactly the least id that reaches the vertex by at most k - 1 edges, although a vertex re-sends only when its label dropped |
| `Wcc.WccReachesFixpoint` | geaflow-rust/geaflow-runtime/src/distributed/algorithm.rs:51-90 | with room for &#124;V&#124; supersteps the final label is the least id that reaches the vertex by any path |
| `Wcc.WccStops` | geaflow-rust/geaflow-runtime/src/distributed/driver.rs:565-581 | at most min(cap, &#124;V&#124; + 1) supersteps, the early stop never changes the result, and the run is silent after &#124;V&#124; + 1 supersteps |
| `Wcc.SharedLabelMeansConnected` | geaflow-rust/geaflow-runtime/src/distributed/algorithm.rs:51-90 | on symmetric edges two vertices share their least reaching id if and only if they are connected |
| `Wcc.WccFindsComponents` | geaflow-rust/geaflow-runtime/src/distributed/algorithm.rs:51-90 | on symmetric edges two vertices end with one label if and only if they are connected |
| `MinPropagation.LabelsAfter` | geaflow-rust/geaflow-runtime/src/distributed/algorithm.rs:62-89 | for every minimum-propagating function, labels after superstep k are the least values carried by walks of at most k - 1 edges |
| `MinPropagation.SilentAfterAllVertices` | geaflow-rust/geaflow-runtime/src/distributed/driver.rs:575-578 | such a run is silent after &#124;V&#124; + 1 supersteps |
| `MinPropagation.FinalLabels` | geaflow-rust/geaflow-runtime/src/distributed/algorithm.rs:62-89 | its final labels are least over all walks |
| `MinPropagation.FirstOverflow` | geaflow-rust/geaflow-runtime/tests/sssp_test.rs:12-43 | if some label that a vertex may hold cannot be offered along an edge to another vertex without overflow, there is a first superstep, at most the &#124;V&#124;-th, in which that happens |
| `MinPropagation.OvertakenRun` | geaflow-rust/geaflow-runtime/src/distributed/algorithm.rs:62-89 | a run that begins with the messages of a superstep and with labels already ahead of them ends with the least labels, if every edge will be accounted for |
| `LocalWcc.WccFunction.Compute` | geaflow-rust/geaflow-runtime/src/algorithms/wcc.rs:20-52 | the local loop computes the local labelling function through its context |
| `LocalWcc.FormsAgree` | geaflow-rust/geaflow-runtime/src/algorithms/wcc.rs:26-51 | on encodings of the same data the distributed form does, encoded, what the local form does |
| `LocalWcc.LocalWccAdmissible` | geaflow-rust/geaflow-runtime/src/algorithms/wcc.rs:20-52 | the local form is admissible for every engine |
| `LocalWcc.LocalWccFallsSilent` | geaflow-rust/geaflow-runtime/src/graph/partitioned_graph.rs:166-168 | local labelling falls silent after at most &#124;V&#124; + 1 supersteps, the decreasing measure of the uncapped loop |
| `VertexContext.SendToAll` | geaflow-rust/geaflow-runtime/src/algorithms/wcc.rs:31-34 | one message to the target of every edge, in order |
| `Walks.RemoveCycle` | geaflow-rust/geaflow-runtime/tests/sssp_test.rs:12-43 | a walk that visits a vertex twice has a shorter one between the same vertices that costs no more |
| `Walks.ShortWalk` | geaflow-rust/geaflow-runtime/tests/sssp_test.rs:12-43 | every walk can be replaced by one that visits no vertex twice and costs no more |
| `Sssp.SsspAlgorithm.Compute` | geaflow-rust/geaflow-runtime/tests/sssp_test.rs:12-43 | the loops compute the relaxation function: a vertex starts from its value, 2^31 - 1 without one, the source from 0 in superstep 1, adopts the least message below that, and offers the new distance plus the edge value, modulo 2^32 and signed, along every edge |
| `Sssp.SsspRelaxes` | geaflow-rust/geaflow-runtime/tests/sssp_test.rs:12-43 | the same of the relaxation function |
| `Sssp.AddI32Wraps` | geaflow-rust/geaflow-runtime/tests/sssp_test.rs:39-39 | the sum is a signed 32-bit number congruent to the true sum modulo 2^32 |
| `Sssp.SsspAdmissible` | geaflow-rust/geaflow-runtime/tests/sssp_test.rs:12-43 | relaxation needs no order and no hypothesis on the data |
| `Sssp.SsspComputesDistances` | geaflow-rust/geaflow-runtime/tests/sssp_test.rs:12-43 | without overflow the run stops within &#124;V&#124; + 1 supersteps with the exact distances, where i32::MAX stands for everything from there on |
| `Sssp.SsspExactlyWhen` | geaflow-rust/geaflow-runtime/tests/sssp_test.rs:12-43 | for weights that are not negative and &#124;V&#124; + 1 supersteps: all distances are exact if and only if no least cost within any number of edges, plus the weight of an edge to another vertex, exceeds i32::MAX |
| `Sssp.OverflowGoesWrong` | geaflow-rust/geaflow-runtime/tests/sssp_test.rs:12-43 | otherwise some vertex ends with a negative distance |
| `Sssp.HeavyCycleFits` | geaflow-rust/geaflow-runtime/tests/sssp_test.rs:12-43 | a cycle of two edges of weight 10^9 does not overflow, though walking round it would |
| `Sssp.HeavyPathFits` | geaflow-rust/geaflow-runtime/tests/sssp_test.rs:12-43 | nor does a path whose cost exceeds i32::MAX when a shorter one is found first |
| `Sssp.HeavyPathOverflows` | geaflow-rust/geaflow-runtime/tests/sssp_test.rs:12-43 | two edges of weight 2 * 10^9 in a row do: a vertex ends with a negative distance |
| `PageRank.PageRankAlgorithm.ComputeVertex` | geaflow-rust/geaflow-runtime/src/distributed/algorithm.rs:129-172 | the distributed form computes the PageRank function and its new hidden variable |
| `PageRank.PageRankFunction.Compute` | geaflow-rust/geaflow-runtime/src/algorithms/pagerank.rs:24-60 | the local form computes the same function |
| `PageRank.PageRankAdmissible` | geaflow-rust/geaflow-runtime/src/distributed/algorithm.rs:139-160 | from a uniform start v0 > 0 every instance fixes its hidden variable to (1 - alpha) * v0 at its first vertex and is from then on observed as one stateless program |
| `PageRank.TeleportForgetsOrderExactlyWhen` | geaflow-rust/geaflow-runtime/src/distributed/algorithm.rs:137-141 | for every list of values: all orders of it leave the same hidden variable if and only if alpha is 1 or all its positive values are equal |
| `PageRankOrder.RankAfterTwo` | geaflow-rust/geaflow-runtime/src/distributed/algorithm.rs:137-171 | after two supersteps a vertex's rank is alpha times its inflow plus the term that its own worker took from the values it lists |
| `PageRankOrder.AgreeAfterTwoExactlyWhen` | geaflow-rust/geaflow-runtime/src/distributed/algorithm.rs:137-171 | for every graph and every starting values: all clusters, whatever their worker counts, hashes and listing orders, agree after two supersteps if and only if alpha is 1, or no vertex has an out-edge, or all values are equal when those that are not positive count as 1 |
| `PageRankOrder.AgreeAlwaysExactlyWhen` | geaflow-rust/geaflow-runtime/src/distributed/algorithm.rs:137-171 | from positive starting values all clusters agree on every run if and only if alpha is 1, or no vertex has an out-edge, or all values are equal |
| `PageRankZeros.AgreeFromZerosExactlyWhen` | geaflow-rust/geaflow-runtime/src/distributed/algorithm.rs:137-171 | from values that are not negative, for 0 <= alpha <= 1: all clusters agree on every run if and only if alpha is 1, or no vertex has an out-edge, or all values are equal, or they are 0 and 1 and alpha times what flows to each vertex of value 0 in superstep 2 is alpha |
| `PageRankZeros.ZeroIsDecidedLate` | geaflow-rust/geaflow-runtime/src/distributed/algorithm.rs:137-141 | at two vertices of values 0 and 1 and one edge, damped by 1/2, all clusters agree after two supersteps and not after three |
| `PageRankWorkers.WokenRefine` | geaflow-rust/geaflow-runtime/src/distributed/algorithm.rs:137-171 | a cluster whose workers hold their terms, or will take them from the first value they list, does what the stateless program does in which each vertex has its owner's term |
| `PageRankTerms.SameRanksExactlyWhen` | geaflow-rust/geaflow-runtime/src/distributed/algorithm.rs:155-169 | for 0 <= alpha < 1, two assignments of terms to vertices lead from the same ranks to the same ranks, after any number m >= 1 of supersteps, if and only if they are the same |
| `PageRankOrder.ListingOrderMatters` | geaflow-rust/geaflow-runtime/src/distributed/algorithm.rs:137-141 | at two vertices with values 1 and 2 and one edge, two listing orders of a single worker end with different ranks |
| `PageRankRecovery.RankRecoversExactlyWhen` | geaflow-rust/geaflow-runtime/src/scheduler/cycle_scheduler.rs:35-119 | PageRank from a uniform start, 0 <= alpha < 1, recovered from checkpoint k below the cap: every worker's values at the end are those of the uninterrupted job if and only if every worker with vertices finds the starting value in the first entry it lists, and alpha is 0 or some vertex has an out-edge or there is no vertex; with an out-edge both runs use up their supersteps |
| `PageRankRecovery.LastCheckpointRecovers` | geaflow-rust/geaflow-runtime/src/scheduler/cycle_scheduler.rs:35-48 | a recovery from a checkpoint at the cap returns what the job ended with |
| `PageRankRecovery.RecoveryOutlivesJob` | geaflow-rust/geaflow-runtime/src/scheduler/cycle_scheduler.rs:61-106 | a job without out-edges ends after superstep 1 with its starting values v0; the history has a disk with checkpoint 1, from which the recovered run ends after superstep 2 with (1 - alpha) * v0 |
| `PageRankRecovery.UndampedRecoversExactlyWhen` | geaflow-rust/geaflow-runtime/src/scheduler/cycle_scheduler.rs:35-119 | with alpha = 1, from any starting values: the recovered run ends with the values of the job if and only if some vertex has an out-edge or all starting values are 0 |
| `PageRankRecovery.PairJobExists` | geaflow-rust/geaflow-runtime/src/distributed/driver.rs:52-66 | two vertices of value 1 and an edge from 1 to 2 can be loaded on one worker that lists 1 first |
| `PageRankRecovery.RankRecoveryGoesWrong` | geaflow-rust/geaflow-runtime/src/scheduler/cycle_scheduler.rs:35-119 | damped by 1/2, that job ends with vertex 1 ranked 1/2; every history of it has a disk with checkpoint 2 from which a new worker takes over and ends with vertex 1 ranked 1/4 |
| `PageRankMass.PoolInflow` | geaflow-rust/geaflow-runtime/src/distributed/algorithm.rs:155-169 | what a vertex receives is the sum of the even shares of its in-neighbours' new values |
| `PageRankMass.ValuesStep` | geaflow-rust/geaflow-runtime/src/distributed/algorithm.rs:137-171 | from superstep 1 on each superstep is the linear map alpha * inflow + t |
| `PageRankMass.LinksBounded` | geaflow-rust/geaflow-runtime/src/distributed/algorithm.rs:137-171 | edges lead to at most one of several distinct vertices each, and to exactly one when none leads outside |
| `PageRankMass.InflowIsOutflow` | geaflow-rust/geaflow-runtime/src/distributed/algorithm.rs:155-169 | summing what vertices receive is summing what they send along existing targets |
| `PageRankMass.MassConserved` | geaflow-rust/geaflow-runtime/src/distributed/algorithm.rs:137-171 | when every vertex has an out-edge and every target exists, the total of all values is &#124;V&#124; * v0 after every superstep |
| `PageRankMass.MassBounded` | geaflow-rust/geaflow-runtime/src/distributed/algorithm.rs:137-171 | otherwise, for 0 <= alpha <= 1, the total never exceeds &#124;V&#124; * v0, and from superstep 2 on no value is below (1 - alpha) * v0 |
| `PageRankMass.Contracts` | geaflow-rust/geaflow-runtime/src/distributed/algorithm.rs:129-172 | the L1 distance of successive value vectors shrinks by a factor alpha, with dangling vertices and absent targets too |
| `PageRankMass.ContractsGeometrically` | geaflow-rust/geaflow-runtime/src/distributed/algorithm.rs:129-172 | after n supersteps the step size is at most alpha^n times the first one |

## Left out

- TCP, the framing of messages, connection retries, the HTTP server, the command line, metrics and tracing: the channels of the model are reliable and unbounded.
- The internals of RocksDB and bincode: a write batch and a snapshot are atomic, iteration is in key order, and only the encodings actually used are modelled. `dump_vertices_csv` is not part of this model.
- PageRank.PageRankAlgorithm.ComputeVertex: works on real numbers; the encoding of values and messages, its error paths, floating point and the order of summation are not part of this model.
- SipHash: any function from ids to numbers will do, and nothing is said about balance.
- PageRankRecovery.RankRecoversExactlyWhen: is about 0 <= alpha < 1; alpha = 1 is PageRankRecovery.UndampedRecoversExactlyWhen, and other factors, for which ranks need not be positive, are not covered. The crashed run is a fresh one.
- Recovering with another number of workers, and edge writes after a process restart on an old store, when the batch counter starts again at 1: the code does not support them; the same number of workers and unused batch numbers are hypotheses.
- Launch.LaunchAtOnce: a job is loaded into empty stores; what a load adds to an existing directory is said per message by Worker.Worker.LoadGraph.
- Live writes of a superstep in which some worker failed: they are not in the history, since with the functions of this repository on well-formed data no superstep fails.
- LabelReplay.UnmovedFindsComponents: a sufficient condition on the disk; whether labels come out right when some edge is not pending depends on what other edges bring later, and is not characterised.
- The parsing of vertex and edge files and of checkpoint descriptions: loads get lists of vertices and edges, and a description is the number of its superstep.
- `load_graph500_streaming_generated_vertices`: the same loop as the file version.
- The unbatched `Superstep` and `SuperstepResult` messages: the driver never sends the first.
- The init and finish hooks of the local engines: the repository's functions leave them empty.
- The heartbeat table, the driver's job table, stream windows and the Graph500 comparison: they would only add easy members.
- Driver.DistributedDriver.SuperstepRound: follows one schedule, in which a worker reacts as soon as it is sent a message; the other schedules are covered by ProtocolTheorems.EveryScheduleAgrees on the step system, not on this class.
- Worker.Worker.LoadGraph: says which edges the store gains only while batch numbers are unused and batches hold at most 2^32 edges; beyond, it says when they are all stored.
- Worker.Worker.LoadGraphBatch: the same.
- Sssp.SsspComputesDistances: negative weights are excluded, and addition wraps around as in a release build; a debug build would stop instead.
- Worker.Worker.SetAlgorithm: a worker of the model has one algorithm; choosing it by name, where an unknown name is an error, is not part of this model.
