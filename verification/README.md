# A verified model of the sharded model store

The repository is a small distributed store. Each of `n` nodes loads a contiguous shard of a model's
slices, answers batches of byte-range reads by scatter and gather over all nodes, and moves to a new
model through a barrier in etcd while old models are unloaded later. This project models that code in
Dafny and proves what its answers, its shared memory and its switches guarantee.

`dafny verify dfyconfig.toml` checks everything.

## How the model is laid out

- `Cluster` is the whole system as a state machine: any number of calls of `Get` on any node, the
  calls they cause on other nodes, worker threads copying one entry at a time, remote calls that may be
  lost at any point, pools of blocks with the memory limit and the unlocked stretch in which `allocate`
  calls `new`, installation of models (rollback included), delayed unloading and destruction of handlers. A
  step that would block is not enabled. Queue order, the number of workers and the sleeps are left open, so
  the results hold for every choice of them.
- `ClusterSafety`, `ClusterCalls` and `ClusterPools` prove what holds with no premise on timing: block
  ownership, counters, handlers, what a call waits for, and the exact count of blocks. `ClusterWork`
  bounds the steps, `ClusterProgress` says exactly when a call can come to its end, and `ClusterDrain`
  reaches the state in which one cannot.
- `ClusterFlow` follows bytes from the worker's copy to the answer, for any expectation on what workers
  copy. `ClusterRoutes` says where requests go and when one goes to a node without its slice, and
  `ClusterReads` when one goes to a node that has unloaded it. `ClusterTheorems` states the results over
  whole runs, `ClusterExposure` proves that the two premises are exact, `ClusterSwitches` gives the switches
  that break them, and `ClusterRefines` says exactly when `Get` is a plain loop of reads.
- `Barrier` is the version switch across nodes, `ClusterBarrier` the cluster with its switches behind that
  barrier, and `ClusterForward` proves which switches cost no reader anything.
- `ReadPath`, `Services` and `ModelManager` hold the same code in its own form: classes with fields,
  blocks written in place, loops. They use the functions of `Requests`, `Bytes` and `Sharding` that the
  cluster steps use. `BlockPool` has the allocator as a class and, for overlapping calls, as a state
  machine with the window in which `allocate` does not hold its lock.
- `Text` and `ModelMeta` are the `model.meta` writer and reader, `TokenBucket` the load generator's
  rate limiter, `ResidueShards` the earlier placement of slices.

## What the code relies on

- `Admissible`: every length is at most 128 (the worker's stack buffer, code/src/model_hander.cpp:80),
  the lengths of a batch add up to at most 65536 (one block, whatever size is asked for,
  code/src/memory_allocator.cpp:5), and slice numbers are below 2^31 (a larger one makes the node index
  negative, code/src/model_manger.cpp:142).
- `Servable`: a model has at least as many slices as there are nodes; with fewer the routing divides by
  zero (code/src/model_manger.cpp:142).
- `IntSized`: a slice has fewer than 2^31 bytes, as its size passes through an `int` when model.meta is
  read (code/src/hdfs_hander.cpp:257). A request may ask for any 64-bit offset; the offset is narrowed to
  32 bits in the model as in the code, and with `IntSized` an offset inside its slice comes through
  unchanged. The exactness results need no such bound: `Inside` and `FileBytes` take each offset as the
  readers do.
- Reads that fail are not noticed (code/src/model_hander.cpp:83), so in the model they yield arbitrary
  bytes.
- `Sheltered`, for the clients of one node: no request of a running call, and none a new call would make,
  is on its way to a node whose copy of the model is unloaded, though that node should have bytes for it.
- `Straight`, likewise: none is on its way to a node that lists the model but does not load the slice.
- These two are the only premises on timing, needed for the bytes and for nothing else. Calls alone never
  break them (`ShelterKept`, `StraightKept`); a cleanup, an installation or a new route may. The code leaves
  it to sleeps of 10 and 30 seconds. They are exact: `RightIsExact`, and `ShelterIsExact` for the first alone.
- `PoolReach`, in the results on progress: the requests of the running clients that take their blocks from
  the same pool go to nodes that list their models. `CallsEndThroughBarrier` does without it, and calls made
  for other nodes do not need it (`MoveChild`).
- `SameSliceCount`, where it appears: all models have the same number of slices, because the routing
  value and the handler are published separately (code/src/model_manger.cpp:117-123). The number itself is
  an `int` (code/src/hdfs_hander.h:36).
- etcd starts empty and nodes do not restart. Agreement of all nodes on the model of each switch is a
  premise of `BarrierOpensForAll` (`AgreedRun`), of `CallsEndThroughBarrier` and of the results in
  `ClusterForward` on the barrier (`PlannedRun`) alone; the barrier does not compare names.

## Findings

- Loading and routing disagree exactly when `slices % nodes >= slices / nodes`: the slices from
  `nodes * (slices / nodes)` on are then sent to the last node and loaded by none.
- The memory limit of 2^30 bytes is exceeded by up to one block for each further thread that is inside
  `allocate` at the same time, and this bound is reached.
- A client can get status 0 with bytes that are not the file's exactly where one of its node's requests
  goes to a node that lists the model but has not the bytes: because it has unloaded its copy, or because it
  never loads that slice. A cleanup does the first when another node still serves the model. So does a
  rollback: tables keep every name, so the first node to install again a model that another one has unloaded
  exposes its clients' requests for the other one's slices, however long after the cleanup. With a single
  node neither happens. The second is the case of every stranded slice, for good, and of a route stored for a
  model with another number of slices, until that model is installed.
- With models of equal slice count and no empty slice, `Get` refines the plain loop of reads in all calm runs
  if and only if `slices % nodes < slices / nodes`.
- Forward switches behind the barrier never install a model of which another node lists an unloaded copy.
  What is left to the sleeps is that a cleanup comes neither before the last node has installed the next
  model nor while a client's call on the old one runs.
- A call made for another node's task never reports failure, and its reply is never too short; the
  branches for both are not taken.
- A failed call keeps its block for good. Once a pool has made all it makes, which is 16384 blocks or, when
  several calls were making one at the same time, up to one more for each of them but one, and failed calls
  hold all of these, the next client of that node waits for ever, although nothing of its call was lost; and
  as long as requests go to nodes that list their models, only then.

## Model

| member | source | states |
|---|---|---|
| ClusterTheorems.AnswersAreFileBytes | code/src/model_service.cpp:101-164 | over every schedule that keeps the readers of its node sheltered, status 0 gives one answer per request in request order and of the length asked, and the captured model's file bytes wherever the node asked loads the slice |
| ClusterTheorems.StraightAnswers | code/src/model_service.cpp:101-164 | when no request of its node went astray either, every answer to a range inside a slice holds the file's bytes, with no bound on offsets or sizes |
| ClusterTheorems.AnswersUnlessStranded | code/src/model_service.cpp:105-117 | with equal slice counts, the only in-range requests a status-0 response may answer wrongly are those for stranded slices |
| ClusterTheorems.GetRefinesPlainLoop | code/src/model_service.cpp:148-156 | with no stranded slices, status 0 means exactly the answer of a sequential loop of reads on the captured model |
| ClusterRefines.GetRefinesExactly | code/src/model_service.cpp:148-156 | with equal slice counts, that refinement holds for all calm runs and clients if and only if every stranded slice is empty |
| ClusterRefines.RemainderDecides | code/src/model_manger.cpp:141-147 | with no empty slice and slice numbers that fit an int, it holds if and only if the remainder is below the quotient |
| ClusterRefines.StrandedGoesWrong | code/src/model_manger.cpp:141-147 | for every cluster with a non-empty stranded slice, a client that asks for its first byte gets status 0 and another byte in some calm run |
| ClusterTheorems.OneModelPerCall | code/src/model_service.cpp:102-124 | a call keeps for good the model its node served when it started; a call for a task has the model of the task's own call |
| ClusterReads.RunsAreTrue | code/src/model_internal_server.cpp:27-46 | in every run whose readers were sheltered, every copied entry, every reply under way and every finished answer for a node's clients holds the right bytes |
| ClusterReads.ChildHandler | code/src/model_manger.cpp:154-160 | a lookup by name for a task whose client still waits finds a loaded handler, or one from which the task has nothing to read |
| ClusterReads.ShelterKept | code/src/model_manger.cpp:115-136 | no step of a call, nor the destruction of a handler, exposes a reader: only storing a route, installing and unloading can |
| ClusterRoutes.StraightKept | code/src/model_manger.cpp:115-124 | no step of a call, no cleanup and no destruction of a handler leads a request astray: only storing a route and installing can |
| ClusterRoutes.RunsAreAimed | code/src/model_service.cpp:114-116 | in a run with no request astray, every request handed out is with a node that loads its slice, or still waits for a node that does not list the model |
| ClusterExposure.RightIsExact | code/src/model_manger.cpp:115-136 | after a run that was calm and straight so far, in which a node's running requests go to nodes that list their models, all its in-range answers hold the file's bytes until the next switch if and only if its readers are sheltered and its requests go straight |
| ClusterExposure.ShelterIsExact | code/src/model_manger.cpp:127-136 | after a run that was calm so far, with the same premise on listing, a node's readers are sheltered if and only if its answers stay right until the next switch wherever the node asked loads the slice |
| ClusterExposure.LostNodeGoesWrong | code/src/model_manger.cpp:154-160 | from any reachable state where its node's running requests go to nodes that list their models, a new client whose request goes to a node with the model unloaded, or without the slice, can get status 0 and wrong bytes |
| ClusterExposure.LostCallGoesWrong | code/src/model_internal_server.cpp:28-46 | likewise a running call with such a request not yet delivered |
| ClusterSwitches.EarlyCleanupGoesWrong | code/src/model_manger.cpp:127-136 | for every cluster, two models, two nodes and a non-empty slice: after a calm run, a cleanup on the node that holds the slice while the other still serves the model leads to a wrong answer |
| ClusterSwitches.RollbackGoesWrong | code/src/model_manger.cpp:119-123 | for every cluster likewise: after all nodes have moved on and one has cleaned up, the first other node to install the old model again leads to a wrong answer |
| ClusterSwitches.RouteAheadGoesWrong | code/src/model_manger.cpp:115-122 | for every cluster likewise: between storing the route of a model whose quotient sends a slice elsewhere and installing that model, a client can get a wrong answer |
| ClusterSwitches.SingleNodeSheltered | code/src/model_manger.cpp:115-136 | in a cluster of one node the readers are sheltered in every reachable state, whatever is installed, rolled back or unloaded |
| ClusterForward.DisciplinedIsCalm | code/src/model_manger.cpp:115-136 | a run that installs no model of which a node lists an unloaded copy, and unloads none that is served or asked for, keeps all readers sheltered |
| ClusterForward.ForwardSwitchesAreCalm | code/src/model_manger.cpp:97-136 | behind the barrier, with a different model for each switch, a discipline on the cleanups alone keeps all readers sheltered |
| ClusterForward.ForwardGetRefines | code/src/model_manger.cpp:97-136 | on such a path, with equal slice counts and no stranded slice, every status-0 answer is that of a plain loop of reads on the captured model, whatever is installed meanwhile |
| ClusterForward.CleanupLagsOne | code/src/model_manger.cpp:127-136 | behind the barrier, a copy being unloaded can still be served elsewhere only if it is the last model but one and that node has not installed the last one |
| ClusterFlow.StepFlow | code/src/model_hander.cpp:81-85 | every step keeps each followed call's block, replies and answer equal to what was copied for the requests, whatever workers are expected to copy |
| ClusterSafety.RunsAreSafe | code/src/model_hander.cpp:54-68 | every reachable state has well-formed calls, exact counters, single ownership of blocks and live handlers under every running call |
| ClusterTheorems.WritesStayInside | code/src/model_hander.cpp:81-85 | a copy lands in a block its own call holds, never one given back, and changes no byte outside the slot of its request |
| ClusterTheorems.BlocksHaveOneOwner | code/src/memory_allocator.cpp:34-42 | calls holding blocks hold different ones, none of them is in a pool, and no block is in the pools twice |
| ClusterTheorems.FailedBlockStaysOut | code/src/model_service.cpp:144-147 | the block of a failed call never enters a pool again |
| ClusterPools.RunsAreExact | code/src/memory_allocator.cpp:17-46 | over every schedule of all calls, each pool's blocks made are its free blocks plus those its calls hold |
| ClusterPools.StepDrained | code/src/memory_allocator.cpp:17-25 | no step, a call about to make a block included, gives a block to a pool whose blocks failed calls hold |
| ClusterTheorems.CountsAreExact | code/src/model_hander.cpp:87-95 | the finished count is the number of requests in finished tasks and at most the total; finish means all copied; finish and faild exclude each other; calls for other nodes never fail |
| ClusterSafety.FinishMeansAllDone | code/src/model_async_client.cpp:95-100 | the count reaches the number of requests exactly when every non-empty task is done |
| ClusterCalls.WaitingHasPendingTask | code/src/model_service.cpp:136-143 | a call waiting with neither flag set has a task still under way, also for an empty batch, and none of its tasks was dropped with a destroyed handler |
| ClusterCalls.NoShortReply | code/src/model_async_client.cpp:81-88 | no reply has fewer answers than the task has entries, so the branch that rejects one is never taken |
| ClusterTheorems.HandlersStayLoaded | code/src/model_manger.cpp:115-124 | the current handler is always loaded and listed under its own name; a client's running call holds a loaded handler of its model |
| ClusterTheorems.HeldHandlersSurvive | code/src/model_manger.cpp:127-136 | no cleanup, rollback or destruction touches a handler that is current or held by a running call |
| ClusterWork.RunsDoBoundedWork | code/src/model_service.cpp:101-164 | over every schedule all nodes together take at most 4 * requests + 11 * nodes + 4 steps per call of a client |
| ClusterProgress.EndsUnlessStarved | code/src/memory_allocator.cpp:17-32 | from any reachable state where the requests of its pool's running clients go to nodes that list their models, a call can come to its end if and only if it is not a client's call waiting for a block while failed calls hold all its pool has made, at or past the limit, and none is being made |
| ClusterProgress.CanFinish | code/src/model_service.cpp:119-164 | such a call can be brought to its end by steps for calls alone, and to status 0 unless something of it was lost |
| ClusterProgress.MoveChild | code/src/model_internal_server.cpp:43-59 | in every reachable state a call made for another node can be moved on, by itself or by another call of its pool |
| ClusterDrain.LossesDrainPool | code/src/model_service.cpp:119-147 | in every cluster with a slice sent elsewhere, a calm run of lost tasks leaves a node's next client waiting for ever, with every node serving the model |
| ClusterTheorems.CallsCanBeAnswered | code/src/model_service.cpp:101-164 | a client's sheltered call of which nothing was lost can be brought to the answer of the plain loop unless it is starved |
| ClusterBarrier.CallsEndThroughBarrier | code/src/model_manger.cpp:162-170 | with switches behind the barrier and one plan for all nodes, a call that is not starved can be brought to its end even if some node does not list its model yet, and no node needs to load a further model |
| ClusterSafety.OnlyClientsFail | code/src/model_internal_server.cpp:56-59 | the failure branch of a call made for another node is never taken |
| ClusterSafety.SubAdmissible | code/src/model_async_client.cpp:34-40 | one task's requests sent on by themselves are an admissible batch again |
| Sharding.ShardsAgree | code/src/model_manger.cpp:68-75 | every slice is loaded by exactly the node it is routed to, for all slices and nodes, if and only if the remainder is below the quotient |
| Sharding.StrandedSlices | code/src/model_manger.cpp:141-147 | the slices no node loads are exactly the stranded ones, and they are routed to the last node |
| Sharding.RouteAgrees | code/src/model_manger.cpp:141-147 | a node loads a slice exactly when the slice is routed to it and is not stranded |
| Requests.IntervalsTile | code/src/model_service.cpp:108-112 | the requests' intervals of the block are disjoint and cover exactly the total length |
| Requests.IndicesMember | code/src/model_service.cpp:114-116 | a request is in a node's bucket exactly when it is routed to that node |
| Requests.IndicesIncrease | code/src/model_service.cpp:114-116 | buckets keep request order and hold no request twice |
| Requests.RoutedAll | code/src/model_service.cpp:114-116 | the bucket sizes add up to the number of requests |
| Requests.NarrowFixed | code/src/model_hander.h:77-78 | a 64-bit field passed through int is unchanged exactly below 2^31 and in the range of sign extensions; narrowing twice is narrowing once |
| Services.Scatter | code/src/model_service.cpp:106-117 | the loop leaves in bucket n exactly the entries routed to node n, in order, counted, with their offsets |
| Services.Gather | code/src/model_service.cpp:149-156 | the loop cuts the block into one answer per request at its own offset |
| Services.BuildTask | code/src/model_internal_server.cpp:33-41 | one list of all requests with offsets from zero |
| Services.GatherWritten | code/src/model_internal_server.cpp:61-68 | what was copied slot by slot comes back answer by answer |
| Services.InternalGet | code/src/model_internal_server.cpp:27-76 | the call waits, with nothing changed, exactly when there is neither a free block nor room for one; otherwise, after the tasks queued before it, the answers are what the worker's slices hold, one per request, and the block is back in the pool |
| Services.ClientPush | code/src/model_async_client.cpp:27-48 | an empty task sends nothing; any other sends its entries without their offsets |
| Services.HandleResponse | code/src/model_async_client.cpp:69-102 | a failed call or a reply with too few answers only marks the failure; otherwise each answer, read on past its end if too short, lands at its entry's offset and the task is counted |
| Services.RemoteHop | code/src/model_async_client.cpp:27-102 | sending a task to another node has the contract of working it off locally with that node's slices, unless the other node waits for a block; then nothing has happened |
| Services.RebuiltReads | code/src/model_internal_server.cpp:35-41 | entries sent on and rebuilt name the same bytes, so the replies fit the original entries |
| ReadPath.RequestResult.Count | code/src/model_hander.cpp:87-95 | the locked section adds to the count and sets finish once the count reaches the number of requests |
| ReadPath.ModelHander.Init | code/src/model_hander.cpp:32-40 | the loop loads exactly the shard, each slice with its file's contents |
| ReadPath.ModelHander.LoadAll | code/src/model_hander.h:145-151 | loading again after init changes nothing, for any count passed |
| ReadPath.ModelHander.ProcessTask | code/src/model_hander.cpp:78-96 | the worker's loop leaves the block as a batch of copies of what could be read, counts the task and touches nothing else |
| ReadPath.WrittenSlots | code/src/model_hander.cpp:81-85 | after a batch of copies each slot has its own value and every other byte is as before |
| ReadPath.ReadsUnique | code/src/model_hander.cpp:83-84 | when every entry can be read the copied values are determined |
| ModelManager.ModelManger.CollectShard | code/src/model_manger.cpp:67-82 | the shard loop succeeds exactly when every slice of the load range can be had, and collects that range once and in order |
| ModelManager.ModelManger.LoadNewModel | code/src/model_manger.cpp:66-124 | success installs a new current handler holding exactly the node's shard and counts the version up; failure changes nothing |
| ModelManager.ModelManger.Cleanup | code/src/model_manger.cpp:127-136 | exactly the handlers that no running call refers to and the node does not serve lose their slices; the node stays valid |
| ModelManager.CallAcrossSwitch | code/src/model_manger.cpp:115-171 | whatever other calls hold, a call that has looked up its handler keeps the handler's slices through a switch and the cleanup after it, and a task sent under the old name finds that handler |
| ModelManager.LastCallReturns | code/src/model_manger.cpp:127-136 | when a call returns, the next cleanup unloads its handler, no longer served, exactly if no other call refers to it |
| ModelManager.ModelManger.GetNodeForSlice | code/src/model_manger.cpp:141-147 | the node returned is the only one that can have the slice; it is this node exactly when the slice is among its readers, but for stranded slices; past the last slice it is the last node |
| ModelManager.RoutedIsLoaded | code/src/model_manger.cpp:68-76 | after a switch a slice is among a node's readers exactly when it is routed there and not stranded |
| BlockPool.MemoryAllocator.Allocate | code/src/memory_allocator.cpp:17-38 | no block, and nothing changed, exactly when the list is empty at the limit; otherwise a block nobody holds, from the back of the list or new, with the count exact and within the limit |
| BlockPool.MemoryAllocator.Deallocate | code/src/memory_allocator.cpp:40-46 | the block goes to the back of the list and is no longer lent |
| BlockPool.PoolBound | code/src/memory_allocator.cpp:17-46 | with n threads inside, memory counted plus memory about to be counted is at most the limit plus n - 1 blocks; the count is 65536 times the blocks free or lent |
| BlockPool.BoundIsReached | code/src/memory_allocator.cpp:26-31 | that bound is reached for every number of threads |
| Barrier.DirMatches | code/src/model_manger.cpp:98-99 | the directory of version v is a prefix of a key of version w only if v = w |
| Barrier.KeysDiffer | code/src/model_manger.cpp:98-99 | keys of different versions or nodes are different texts |
| Barrier.GuardMeansAll | code/src/model_manger.cpp:108-113 | at most one key per node is listed however often set is repeated, and the guard holds exactly when every node has registered |
| Barrier.BarrierSafe | code/src/model_manger.cpp:97-116 | two nodes' versions differ by at most one, and a node past version v means every node has loaded and registered its model for v |
| Barrier.BarrierOpensForAll | code/src/model_manger.cpp:97-124 | once one node serves the model of a switch, every node has it in its table or has it loaded, finds the guard true and can move on |
| ModelMeta.WriteMeta | testbench/gen_data.cpp:56-63 | the generator's loop writes the header and one line per slice |
| ModelMeta.NamesInOrder | testbench/gen_data.cpp:58-61 | all slice names have one length and string order is slice order, so all are distinct |
| ModelMeta.ReadAll | code/src/hdfs_hander.cpp:225-241 | reading pieces of any size up to 256 bytes and appending C strings gives back a text without zero bytes |
| ModelMeta.LoadModelMeta | code/src/hdfs_hander.cpp:245-265 | the line loop computes the parse of the text, with the slice count and the last size |
| ModelMeta.MetaRoundTrip | code/src/hdfs_hander.cpp:245-265 | the printed text reads back to the same names and sizes, numbered from zero, exactly when every size fits an int; otherwise reading throws |
| ModelMeta.GeneratedReadsBack | testbench/gen_data.cpp:56-63 | a generated file reads back with its slice count, names and size |
| Text.StoiOfDec | code/src/hdfs_hander.cpp:257 | printing then reading a number gives it back exactly when it fits an int |
| Text.DecInjective | code/src/model_manger.cpp:98-99 | different numbers print differently |
| TokenBucket.Bucket.Consume | testbench/token_bucket.h:13-25 | the stored time becomes the later of now and the old time plus the tokens' cost: the burst term never changes it; the call returns at the stored time |
| TokenBucket.TimeCoversTokens | testbench/token_bucket.h:13-25 | over any sequence of calls the stored time advances by at least the cost of all tokens |
| TokenBucket.RateBound | testbench/token_bucket.h:13-25 | tokens granted by any return time fit the time since the start divided by the time per token |
| ResidueShards.ExpectedIsLoaded | code/demo_hdfs/hdfs_client.h:300 | the expected count of a node is the number of slices its filter loop loads |
| ResidueShards.CountsAddUp | code/demo_hdfs/hdfs_client.h:300 | the nodes' expected counts add up to the number of slices |
| ResidueShards.ModelMeta.LoadData | code/demo_hdfs/hdfs_client.h:158-166 | the count ends at the expected one exactly when every download of the node's own slices succeeds, and never passes it |

## Left out

- Threads, locks and condition variables as such: each critical section is one atomic step, blocking is
  a disabled step, and wake-ups are not modelled.
- gRPC, etcd, HDFS and local files: the network delivers or loses, etcd is a set of keys, files are a
  fixed map from model and slice to bytes.
- `ModelSliceReader`: its implementation is not part of this model; `Read` on a loaded slice returns the
  bytes asked for.
- A read of a slice the handler does not have inserts an empty reader into the shared map without a lock
  (code/src/model_hander.cpp:83), while other workers may be reading the map. The model confines the
  damage to that entry's bytes.
- `ModelServiceImpl::Get` as a single method: its loops are `Services.Scatter` and `Services.Gather`, and
  everything between them is steps of `Cluster`.
- The moved-from state of a `RequestTask`: tasks are values, so a moved task is not modelled as emptied.
- The lookup without the lock at code/src/model_manger.cpp:170 is treated as an atomic one.
- `ModelMeta.ReadAll`: does not model a read that reports an error, after which the code writes in front of
  its buffer.
- `TokenBucket.Bucket.Consume`: does not model wrap-around of 64-bit nanoseconds or unsynchronised
  callers; times are integers and calls follow one another.
- `ModelManager.ModelManger.LoadNewModel`: does not wait at the barrier; `Barrier` and `ClusterBarrier`
  model that part.
- The choice of the model to load, and the downloads of slices, are inputs.
- The slice cache of the earlier version, benchmark drivers, service registration, environment and
  address helpers, printing and container files.
