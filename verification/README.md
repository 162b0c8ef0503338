# ModelBox engine: verified model

ModelBox runs graphs of nodes over streams of indexed buffers. This project models how its engine keeps
those streams consistent and proves it, for every input and every interleaving. It also covers three index
structures beside the engine: the statistics tree, the HTTP path tree and the control-message codec.

| module | models |
|---|---|
| `Basics` | facts about sets, sequences and strings used in several places |
| `Buffers` | index info of a buffer: index, end flag, placeholder mark, the buffer it descends from |
| `StreamMatch` | matching the buffers of several ports by index, and releasing them |
| `MatchRuns` | every run of arrivals and pops of one matched stream |
| `ConditionJoin` | if/else split and the port that joins the branches |
| `ExternalInput` | buffers sent by the user from outside the graph |
| `FlowControl` | the counters that bound how much an input caches |
| `FlowRuns` | every run of an input that matches many streams at once, stream by stream |
| `Batching` | reshaping contexts into batches and scattering results back |
| `StreamExpand`, `StreamCollapse` | the event-driven contexts of stream expand and collapse nodes |
| `NormalContext` | partition and merge around a one-to-one process call |
| `ConditionMerge` | the merge of an if/else node, whose lists hold nulls |
| `OutputStreams` | numbering outputs and ending the streams of all ports together |
| `Lineage` | index info and stream order through nested expands and collapses |
| `GraphBuild` | topological order, port and node connection checks |
| `StatsTree` | registration of notifications in a growing tree |
| `PathTrie`, `PathNodes` | the HTTP path tree, as a value and as objects updated in place |
| `ControlMsg` | framing and decoding of control messages |

How the source is rendered:

- Objects whose methods update their fields are classes with those fields. Their methods are proved against
  functions on the value of the state, and the theorems are about runs of those functions.
- User code is an arbitrary outcome: results, a status, events it sends. One run of a node is one atomic step.
- What a component demands of its input is stated as a predicate on runs (`Legal` and the like). Each index is
  delivered once per port and stream, and none lies beyond the end flag.
- A payload is an opaque token. A match key and a node name are identities.

Where the code does not do what one would expect, the code is modelled as it is:

- Closing a session while a stream-expand unit continues can leave a cached row without an event
  (`StreamExpand.StrandedIff` says exactly when).
- The sub-stream of a row in a stream-expand node can go without its end flag, or get one that descends from an
  earlier row (`StreamExpand.EndFlagIff` says exactly when).
- The merge of an if/else node can put a placeholder before an output with a smaller index
  (`ConditionMerge.PortInOrderIff` and `ConditionMerge.BlockInOrderIff` say exactly when). The port that joins the
  branches puts the rows back in order all the same (`ConditionJoin.JoinIsIdentity`).
- A stream-collapse node can miss the start of a sub-stream (`StreamCollapse.StartSeenIff` says exactly when).
- Taking back a notification can take away one registered elsewhere (`StatsTree.TakingBackIsSafeIff` says exactly when).
- A node that passes on an error from outside gives it the depth of the stream, so the next node looks at it
  (`NormalContext.ErrorsComeOutLocal`).
- A control message whose payload has not all arrived passes for complete when it is flipped
  (`ControlMsg.ControlMsgCmd.Flip`).
- A control command too long for its buffer is reported as serialized, because the length is compared
  unsigned (`ControlMsg.ControlMsgCmd.Serialize`). One that fills its buffer to the last byte serializes but is
  not accepted back (`ControlMsg.FrameAccepted`).
- A CONTINUE status is not a success for the write-back of a normal unit, so its rows are lost
  (`Batching.CheckedKeepsPositions`).

## Model

| member | source | states |
|---|---|---|
| `StreamMatch.IsMatched` | src/libmodelbox/engine/match_stream.cc:116-142 | an entry is complete when it has every port and, at the end flag of a rejoined port, one end flag per branch |
| `StreamMatch.TakeReady` | src/libmodelbox/engine/match_stream.cc:239-252 | the erase-while-iterating loop takes entries by ascending index and, in order, stops at the first gap; what it takes and what it leaves |
| `StreamMatch.GatherRows` | src/libmodelbox/engine/match_stream.cc:254-269 | the popped entries become one list per port, row by row |
| `StreamMatch.MatchStreamCache.CacheBuffer` | src/libmodelbox/engine/match_stream.cc:178-229 | the whole new cache: entry found or made, end/data mismatch refused, a complete entry moved to the ready map, end flag fixing the total; `MatchRuns.ArrivalPlace` says which entry, and `MatchRuns` what it keeps |
| `StreamMatch.MatchStreamCache.PopReadyMatchBuffers` | src/libmodelbox/engine/match_stream.cc:231-270 | what is released and what stays, for in-order, unordered and gather-all input |
| `MatchRuns.ArrivalPlace` | src/libmodelbox/engine/match_stream.cc:184-229 | on a port with at most one feed a buffer goes, as it is, to the entry of its own index; on a port with more, to the entry of the index before the split, with the index info from there; no other entry changes |
| `MatchRuns.FaultIffMixed` | src/libmodelbox/engine/match_stream.cc:84-97 | after any arrivals, planned or not, a buffer is refused exactly when its entry holds data and it comes as an end flag, or the other way round, and the cache then stays as it was |
| `MatchRuns.MatchedIffComplete` | src/libmodelbox/engine/match_stream.cc:116-142 | for an entry that holds what was delivered so far, the counting test is true exactly when everything due for that index was delivered |
| `MatchRuns.StepKeepsInv` | src/libmodelbox/engine/match_stream.cc:178-270 | one arrival or pop keeps the invariant that ties pending, ready and released rows to the deliveries |
| `MatchRuns.RunInv` | src/libmodelbox/engine/match_stream.cc:178-270 | the invariant holds after every interleaving of arrivals and pops |
| `MatchRuns.InOrderReleasesPrefix` | src/libmodelbox/engine/match_stream.cc:231-270 | in order, every run releases on every port a prefix of that port's stream: indices 0, 1, 2, ..., and never faults |
| `MatchRuns.InOrderIsConfluent` | src/libmodelbox/engine/match_stream.cc:178-270 | in order, once all is delivered the released streams are the same whatever the interleaving |
| `MatchRuns.ReleasesAligned` | src/libmodelbox/engine/match_stream.cc:231-270 | ordered or not, all ports release the same indices in the same order with the same flags, each at most once |
| `MatchRuns.ReleasedIsComplete` | src/libmodelbox/engine/match_stream.cc:195-229 | no row is released before all its buffers, and all end flags of a rejoined port, arrived |
| `MatchRuns.StreamEndIsLossless` | src/libmodelbox/engine/match_stream.cc:375-408 | after a pop, the test that erases a stream cache is true exactly when everything was delivered, and then nothing matched or half matched is left in it, in all three modes |
| `MatchRuns.PopDrains` | src/libmodelbox/engine/match_stream.cc:239-252 | a pop over a complete remainder leaves nothing |
| `MatchRuns.GatherPopsAll` | src/libmodelbox/engine/match_stream.cc:234-238 | a gather-all node releases its stream whole, in one pop |
| `ConditionJoin.CountCarried` | src/libmodelbox/engine/match_stream.cc:822-830 | conservation: across all branches of a split each row occurs once and the end flag once per branch |
| `ConditionJoin.MadeIsDeeper` | src/libmodelbox/engine/buffer_index_info.cc:31-40 | a split buffer is one level deeper than the buffer it came from |
| `ConditionJoin.BranchIsStream` | src/libmodelbox/engine/data_context.cc:1177-1187 | each branch is renumbered from 0 without a gap and ends with its only end flag, whatever order the merge left |
| `ConditionJoin.BranchInOrderIff` | src/libmodelbox/engine/data_context.cc:861-898 | the rows of a branch keep their order exactly when it is not the first branch or no block has a row out of turn |
| `ConditionJoin.CarriedIsJoinRun` | src/libmodelbox/engine/match_stream.cc:184-194 | any interleaving of part of what the branches carry is a run of the joining port, overtaken rows included |
| `ConditionJoin.JoinRunIsLegal` | src/libmodelbox/engine/match_stream.cc:184-194 | arrivals that are, by the index info from before the split, rows of the original, none more often than it came out of the split, are an admissible run; everything is delivered exactly when all arrived |
| `ConditionJoin.JoinIsIdentity` | src/libmodelbox/engine/match_stream.cc:178-270 | if/else split then join is the identity: any assignment to any number of branches, any order within and between them; always a prefix of the original stream, and all of it, with the stream over, exactly when all arrived |
| `ConditionJoin.JoinEndWaits` | src/libmodelbox/engine/match_stream.cc:116-142 | the end flag is released only after the end flag of every branch arrived |
| `ExternalInput.FindShortest` | src/libmodelbox/engine/external_data_map.cc:108-122 | the number of buffers every port can spare |
| `ExternalInput.PopMatched` | src/libmodelbox/engine/external_data_map.cc:108-133 | the heads of all port caches are taken, the tails stay |
| `ExternalInput.SendMatched` | src/libmodelbox/engine/external_data_map.cc:135-168 | each port continues its own numbering |
| `ExternalInput.ExternalDataMap.Send` | src/libmodelbox/engine/external_data_map.cc:73-106 | the whole new state after a send: refused when closed or for an unknown port, else cached and the matched part emitted |
| `ExternalInput.ExternalDataMap.Close` | src/libmodelbox/engine/external_data_map.cc:225-261 | end flags on all ports, once |
| `ExternalInput.PortsStayAligned` | src/libmodelbox/engine/external_data_map.cc:73-168 | after any sends and closes each port has emitted the first n buffers it was sent with indices 0..n-1, n being the shortest port, the rest is cached, and after a close one end flag follows at index n on every port |
| `ExternalInput.FifoDelivers` | src/libmodelbox/engine/external_data_map.cc:135-168 | with one feed per port, reading the queues in order delivers each index of a port at most once |
| `ExternalInput.MismatchUnreachable` | src/libmodelbox/engine/match_stream.cc:84-97 | the end/data mismatch fault cannot fire downstream of the external input |
| `ExternalInput.InputReleasesPrefix` | src/libmodelbox/engine/external_data_map.cc:73-168 | what the first node releases is a prefix of what the user sent, with the end flag in its place |
| `ExternalInput.InputReleasedWhole` | src/libmodelbox/engine/external_data_map.cc:225-261 | after a close and with the queues read, it is all of it |
| `FlowControl.CacheOneAccounts` | src/libmodelbox/engine/match_stream.cc:410-446 | a cached buffer raises its port's counter exactly as it raises the number of held entries, unless it overwrites a ready entry |
| `FlowControl.LegalNeverOverwrites` | src/libmodelbox/engine/match_stream.cc:195-229 | with each index delivered once, no ready entry is overwritten |
| `FlowControl.ReadKeepsBounds` | src/libmodelbox/engine/match_stream.cc:547-586 | reading the allowed number of buffers keeps every bound |
| `FlowControl.LoadPortsKeeps` | src/libmodelbox/engine/match_stream.cc:328-373 | a load over all ports, faults included, keeps counters covering the held entries and within bounds |
| `FlowControl.PopTakesHeld` | src/libmodelbox/engine/match_stream.cc:541-545 | a pop releases exactly the entries it uncounts |
| `FlowControl.PopAccounts` | src/libmodelbox/engine/match_stream.cc:375-408 | a pop and its decrement keep the counters covering and within bounds |
| `FlowControl.AlwaysBounded` | src/libmodelbox/engine/match_stream.cc:547-586 | in every reachable state no counter exceeds the cache limit, no port leads the shortest by more than twice the queue size, and each counter is at least the held entries of its port |
| `FlowControl.NeverUnderflows` | src/libmodelbox/engine/match_stream.cc:541-545 | in every reachable state the decrement is an exact subtraction |
| `FlowControl.InputMatchStreamManager.GetReadCount` | src/libmodelbox/engine/match_stream.cc:547-586 | the number the source computes, with the port entered in the counter map; `FlowControl.ReadCountIs` says what it is |
| `FlowControl.ReadCountIs` | src/libmodelbox/engine/match_stream.cc:547-586 | a port reads its share or nothing: the smaller of a queue and the room below the limit, and nothing exactly when that is 0 or would take it more than two queues ahead of some port |
| `FlowControl.ShortestReads` | src/libmodelbox/engine/match_stream.cc:547-586 | a port with the smallest counter always reads its share |
| `FlowControl.StuckIff` | src/libmodelbox/engine/match_stream.cc:547-586 | no port may read exactly when the queue size is 0 or all counters have reached the limit |
| `FlowControl.InputMatchStreamManager.CacheBuffer` | src/libmodelbox/engine/match_stream.cc:410-446 | the whole new state: stream cache found or made, buffer cached, counter raised; fault and abort paths |
| `FlowControl.InputMatchStreamManager.LoadData` | src/libmodelbox/engine/match_stream.cc:328-373 | the whole new state: nothing is read until every port has had data; then every port in turn, stopping at a fault |
| `FlowControl.InitInheritBackwardLevel` | src/libmodelbox/engine/match_stream.cc:487-534 | true exactly when every port has data |
| `FlowControl.InputMatchStreamManager.GenMatchStreamData` | src/libmodelbox/engine/match_stream.cc:375-408 | the lists handed to the node, stream by stream, and the whole new state after popping every stream and erasing those that ended |
| `FlowRuns.RunIsReplay` | src/libmodelbox/engine/match_stream.cc:328-446 | a run of the input is the replay of its events, one buffer, one stream or one clean at a time |
| `FlowRuns.CounterIsHeldPlusLost` | src/libmodelbox/engine/match_stream.cc:536-545 | in every run, legal or not, a port's counter is what it has in the caches plus what was taken out of them uncounted |
| `FlowRuns.KeyProjects` | src/libmodelbox/engine/match_stream.cc:410-446 | whatever the other streams do, a legal stream fares as it would alone: its cache is the one of its own run |
| `FlowRuns.ManagerProjects` | src/libmodelbox/engine/match_stream.cc:328-446 | with legal streams no run faults and every open cache is the one of a single-stream run that satisfies its invariant; a missing one has not begun, is over and empty, or was aborted |
| `FlowRuns.LegalCounters` | src/libmodelbox/engine/match_stream.cc:588-602 | with legal streams a counter exceeds what is held exactly by what cleaning aborted sessions took |
| `FlowRuns.CountersEqualHeld` | src/libmodelbox/engine/match_stream.cc:536-545 | while no session aborts, every counter equals the entries its port has in the caches, in every run |
| `FlowRuns.ErasesOnlyDrained` | src/libmodelbox/engine/match_stream.cc:391-404 | in every run a stream is erased only when nothing, matched or half matched, is left of it |
| `FlowRuns.ErasedIffDelivered` | src/libmodelbox/engine/match_stream.cc:391-404 | popping a stream erases it exactly when everything of it has been delivered |
| `FlowRuns.CompleteStreamsGo` | src/libmodelbox/engine/match_stream.cc:375-408 | in every run a pass over the streams erases each one that is complete |
| `FlowRuns.ShortestPortIsRead` | src/libmodelbox/engine/match_stream.cc:328-373 | in every reachable state a load reads, from the port with the smallest counter, the front of its queue: a full share or all there is, so flow control never holds up the whole node |
| `FlowRuns.FirstLoadReadsAll` | src/libmodelbox/engine/match_stream.cc:328-373 | as long as every load finds some port without data nothing is read; the first that finds data on every port reads the front of every queue |
| `FlowRuns.NodeGetsStreams` | src/libmodelbox/engine/match_stream.cc:375-408 | an in-order node gets, of every stream it is matching at once, a prefix of the stream, as much on every port, and the whole once the cache is erased |
| `Batching.ChunkShape` | src/libmodelbox/engine/flowunit_data_executor.cc:849-914 | batches: exactly ceil(total/batch) of them, all full but the last, in order and without loss |
| `Batching.BuildMappedDataNormal` | src/libmodelbox/engine/flowunit_data_executor.cc:849-860 | the number of batches made ready is the number filled |
| `Batching.FillMappedDataNormal` | src/libmodelbox/engine/flowunit_data_executor.cc:862-914 | the filling loop produces the batches of the concatenated contexts and their sizes |
| `Batching.WriteBackNormal` | src/libmodelbox/engine/flowunit_data_executor.cc:733-783 | the two-cursor loop stays in range, ends, and gives each context its own slots |
| `Batching.BatchingIsTransparent` | src/libmodelbox/engine/flowunit_data_executor.cc:733-783 | for all contexts, batch sizes and count-preserving outputs, reshape, process and write back give each context its outputs in its order |
| `Batching.BatchingInvisible` | src/libmodelbox/engine/flowunit_data_executor.cc:733-783 | with a unit that works row by row, the result does not depend on the batch size |
| `Batching.ScatterByContext` | src/libmodelbox/engine/flowunit_data_executor.cc:733-783 | each context gets the rows of its kept slots and the status of its last lost one |
| `Batching.CompleteIffKept` | src/libmodelbox/engine/flowunit_data_executor.cc:764-779 | a context is complete, and its status success, exactly when no slot was lost |
| `Batching.CheckedKeepsPositions` | src/libmodelbox/engine/flowunit_data_executor.cc:279-324 | an error status becomes one error buffer per input, and loses no position; a continue, stop or shutdown does |
| `Batching.ErrorsKeepEveryPosition` | src/libmodelbox/engine/flowunit_data_executor.cc:633-645 | with failing batches turned into errors every context still has one output per input |
| `Batching.FillMappedDataStream` | src/libmodelbox/engine/flowunit_data_executor.cc:935-964 | stream reshape cuts each context on its own |
| `Batching.WriteBackStream` | src/libmodelbox/engine/flowunit_data_executor.cc:705-731 | the nested loops give every context, in order, the outputs of its batches one after the other, whatever their number, and the folded status |
| `Batching.StreamRoundTrip` | src/libmodelbox/engine/flowunit_data_executor.cc:705-731 | cut into batches, treated row by row and written back, a stream context is row for row what it was, for every batch size |
| `Batching.StreamErrorsStayInPlace` | src/libmodelbox/engine/flowunit_data_executor.cc:279-299 | a failing batch of a stream unit leaves one error row in its place among the outputs; the context is fatal exactly when some batch stopped or shut down |
| `Batching.FirstFatalStays` | src/libmodelbox/engine/flowunit_data_executor.cc:718-726 | the first fatal status of a context is kept |
| `Batching.NoFatal` | src/libmodelbox/engine/flowunit_data_executor.cc:718-726 | without one, the status of the last batch |
| `Batching.FatalIff` | src/libmodelbox/engine/flowunit_data_executor.cc:718-726 | the status of a context is fatal exactly when that of some batch is |
| `StreamExpand.StreamExpandContext.ReadFirstInCache` | src/libmodelbox/engine/data_context.cc:1388-1418 | the first unread row, a block read over being dropped |
| `StreamExpand.StreamExpandContext.ExpandNextBuffer` | src/libmodelbox/engine/data_context.cc:1428-1448 | the whole new state: hands over the first unread row if its index is due, else skips; `StreamExpand.UnitRunsOnData` says what the unit then runs on |
| `StreamExpand.StreamExpandContext.WriteInputData` | src/libmodelbox/engine/data_context.cc:1359-1380 | the whole new state: empty blocks are skipped, others cached, and expanded unless an event will |
| `StreamExpand.StreamExpandContext.AppendEndFlag` | src/libmodelbox/engine/data_context.cc:653-705 | the parent of the end flag of the row that is finished: the row, the row of the last event, or none and then no end flag |
| `StreamExpand.UpdatedKeeps` | src/libmodelbox/engine/data_context.cc:1493-1502 | after the end flag and the index update the accounts still hold, a row still counts as received only while something continues, and a context is finished only after the end flag was received |
| `StreamExpand.StreamExpandContext.GenerateSendEvent` | src/libmodelbox/engine/data_context.cc:1458-1491 | one event when a due row is cached, nothing continues and none is outstanding |
| `StreamExpand.DueIffIdle` | src/libmodelbox/engine/data_context.cc:1420-1426 | in every reachable state the index test lets a cached row through exactly when no row is being expanded |
| `StreamExpand.StepKeeps` | src/libmodelbox/engine/flowunit_group.cc:136-200 | a whole run, on data or on events, or a user event or a close between runs, keeps the invariant |
| `StreamExpand.UnitRunsOnData` | src/libmodelbox/engine/data_context.cc:223-264 | over every run the process call was made, in order, exactly for the rows with data among those handed over, and for none if the stream start failed |
| `StreamExpand.CallMade` | src/libmodelbox/engine/flowunit_group.cc:107-134 | a run makes the call for the row it hands over, and takes over the status and the events of the unit, exactly where it should; otherwise the last status stands |
| `StreamExpand.HandedInOrder` | src/libmodelbox/engine/data_context.cc:1359-1506 | over every run the rows handed over are the arrived rows in index order, each once, row n+1 only after the expansion of row n is over |
| `StreamExpand.OneAtATime` | src/libmodelbox/engine/data_context.cc:1428-1448 | a run hands over at most one row, and none while one is being expanded |
| `StreamExpand.OneEventOutstanding` | src/libmodelbox/engine/data_context.cc:1458-1491 | at most one EXPAND_NEXT_STREAM event is outstanding, and a row waits for it |
| `StreamExpand.StrandedIff` | src/libmodelbox/engine/data_context.cc:1458-1491 | between runs a cached row has neither its event nor something that continues exactly when the session is closed, a row is received and no event of the unit is waited for |
| `StreamExpand.CloseCanStrand` | src/libmodelbox/engine/data_context.cc:845-848 | a run in which closing the session leaves a cached row without an event |
| `StreamExpand.EndFlagIff` | src/libmodelbox/engine/data_context.cc:653-705 | the run that ends the expansion of a row gives it its own end flag, none, or one with an earlier row as parent, each exactly under a condition on the state and the action |
| `StreamExpand.EveryEndFlagOwnIff` | src/libmodelbox/engine/data_context.cc:653-705 | over every run, all rows finished got an end flag of their own exactly when each run that finished one met that condition |
| `StreamExpand.ClosedWithoutEndFlag` | src/libmodelbox/engine/data_context.cc:684-687 | a row whose session was closed while the unit continued without an event gets no end flag |
| `StreamExpand.FailedStartWithoutEndFlag` | src/libmodelbox/engine/data_context.cc:240-244 | after a failed data-pre, later rows get no end flag |
| `StreamExpand.EndFlagOfAnEarlierRow` | src/libmodelbox/engine/data_context.cc:672-683 | a row can get an end flag that descends from the row of an earlier event |
| `StreamExpand.EventHandsNext` | src/libmodelbox/engine/node.cc:491-503 | the event hands over exactly the next row |
| `StreamExpand.EventsDrain` | src/libmodelbox/engine/node.cc:491-503 | queued events alone hand over all that arrived |
| `StreamExpand.FinishedIsComplete` | src/libmodelbox/engine/data_context.cc:1493-1502 | a context is disposed of only after the end flag and everything before it was handed over |
| `StreamExpand.FinishedIff` | src/libmodelbox/engine/data_context.cc:1493-1502 | and it is by the run after which the end flag was handed over and the unit neither continues nor waits for an event |
| `StreamCollapse.StreamCollapseContext.CollapseNextStream` | src/libmodelbox/engine/data_context.cc:1659-1671 | the whole new state: the cached chunk of the current sub-stream becomes input |
| `StreamCollapse.StreamCollapseContext.WriteInputData` | src/libmodelbox/engine/data_context.cc:1620-1646 | the whole new state: the chunk joins its sub-stream's cache, then the current one is taken |
| `StreamCollapse.StepKeeps` | src/libmodelbox/engine/data_context.cc:1620-1711 | every data or event run keeps the invariant, with a cached chunk of the current sub-stream always having an event pending |
| `StreamCollapse.FinishKeeps` | src/libmodelbox/engine/data_context.cc:1693-1711 | the update after a run keeps the invariant: the order moves on after the end flag of the current sub-stream and only then, and the sub-stream of the parent's end flag finishes the context |
| `StreamCollapse.ConsumesInOrder` | src/libmodelbox/engine/data_context.cc:1620-1711 | for every interleaving the rows consumed are a prefix of sub-stream 0, then 1, and so on, and the order passes a sub-stream only after its end flag |
| `StreamCollapse.QuietIsComplete` | src/libmodelbox/engine/data_context.cc:1681-1691 | when all has arrived and no event is pending, all was consumed |
| `StreamCollapse.CollapseIsConfluent` | src/libmodelbox/engine/data_context.cc:1620-1711 | what is consumed does not depend on the order of arrival |
| `StreamCollapse.EventsDrain` | src/libmodelbox/engine/data_context.cc:1681-1691 | handling events comes to an end with all consumed |
| `StreamCollapse.FinishedIsComplete` | src/libmodelbox/engine/data_context.cc:1706-1710 | a context is disposed of only with every sub-stream consumed and nothing cached |
| `StreamCollapse.StartSeenIff` | src/libmodelbox/engine/data_context.cc:1034-1066 | a data run reports the start of a sub-stream correctly exactly unless its cached start was set by another sub-stream's chunk and its own next chunk followed in the same run |
| `StreamCollapse.StartCanBeLost` | src/libmodelbox/engine/data_context.cc:1659-1671 | a reachable state and data run in which that happens |
| `NormalContext.SetCurrentInputData` | src/libmodelbox/engine/data_context.cc:180-265 | the two passes pick the same positions on every port for valid, error, placeholder and end rows, one erroneous port making an erroneous row; no valid list holds an error the node does not look at |
| `NormalContext.ErrorRowIff` | src/libmodelbox/engine/data_context.cc:207-223 | a data row is an error row exactly when some port has an error, or, for a node that wants errors, an error from outside the stream |
| `NormalContext.NoErrorsNoPart` | src/libmodelbox/engine/data_context.cc:226-239 | without errors in the input there is no error row |
| `NormalContext.ReleasedIsMatched` | src/libmodelbox/engine/match_stream.cc:254-269 | what the matching of the ports releases has the shape this context assumes |
| `NormalContext.MergeParts` | src/libmodelbox/engine/data_context.cc:861-898 | std::merge by parent index puts two parts of an ascending list back in place |
| `NormalContext.MergeIsStable` | src/libmodelbox/engine/data_context.cc:861-898 | on equal indices the first list goes first |
| `NormalContext.MergedBack` | src/libmodelbox/engine/data_context.cc:861-898 | the two merges give one output per row that is no end flag, in order |
| `NormalContext.FillPlaceholderOutput` | src/libmodelbox/engine/data_context.cc:709-761 | one placeholder output per placeholder row |
| `NormalContext.FillErrorOutput` | src/libmodelbox/engine/data_context.cc:763-834 | one error output per error row, with the error of the first port that has one |
| `NormalContext.FirstErrorIs` | src/libmodelbox/engine/data_context.cc:801-816 | the error passed on is that of the first port that has one |
| `NormalContext.SaveProcessOneToOne` | src/libmodelbox/engine/flowunit_data_executor.cc:369-409 | the k-th output descends from the k-th valid row |
| `NormalContext.PostProcess` | src/libmodelbox/engine/data_context.cc:608-640 | the outputs are, position by position, the inputs: same index, flags and ancestry, each valid row with its own result (or error), errors at the depth of the stream, the end flag last |
| `NormalContext.ErrorsComeOutLocal` | src/libmodelbox/engine/data_context.cc:917-924 | an error passed on goes out at the depth of the stream, so a node further on that wants errors looks at it |
| `ConditionMerge.MergeKeepsAll` | src/libmodelbox/engine/data_context.cc:861-898 | the merge of an if/else node loses and invents nothing |
| `ConditionMerge.NullsChangeNothing` | src/libmodelbox/engine/data_context.cc:743-748 | a port that gets only nulls for the placeholders keeps the order of its outputs |
| `ConditionMerge.InOrderIffNotOvertaken` | src/libmodelbox/engine/data_context.cc:874-889 | the port that gets the placeholders (or errors) keeps its outputs in index order exactly when none that follows a null is less than one of them |
| `ConditionMerge.PortInOrderIff` | src/libmodelbox/engine/data_context.cc:884-895 | after both merges, with placeholders and then with errors, a port's outputs are in index order exactly when none that follows a null is less than a placeholder or an error |
| `ConditionMerge.BlockInOrderIff` | src/libmodelbox/engine/data_context.cc:861-898 | in terms of the rows of a block: exactly when the port is not the first, or no row of the first branch has a row of another before it and a placeholder or error after it |
| `ConditionMerge.EmittedInOrderIff` | src/libmodelbox/engine/data_context.cc:861-898 | and over all the blocks of a stream |
| `ConditionMerge.EachRowOnce` | src/libmodelbox/engine/data_context.cc:861-898 | over all blocks every row leaves once, by its own port |
| `ConditionMerge.SomePortStarts` | src/libmodelbox/engine/match_stream.cc:718-733 | the list of some port starts with an output that is not null, so the match key of the block is found |
| `ConditionMerge.PlaceholderOvertakes` | src/libmodelbox/engine/data_context.cc:874-889 | a block in which a placeholder overtakes an earlier output |
| `OutputStreams.OutputMatchStreamManager.UpdateStreamInfo` | src/libmodelbox/engine/match_stream.cc:643-716 | the whole new state and the numbered outputs of a batch: match key found or at fault, entry made, kept, erased or at fault |
| `OutputStreams.GetOutputStreamMatchKey` | src/libmodelbox/engine/match_stream.cc:718-746 | the key of the first front that is not null |
| `OutputStreams.FrontKeyIs` | src/libmodelbox/engine/match_stream.cc:718-746 | there is no key exactly when every front is null |
| `OutputStreams.UpdateCases` | src/libmodelbox/engine/match_stream.cc:649-660 | an empty first list changes nothing, only null fronts are a fault, any other batch goes to the entry of the first front that is not null |
| `OutputStreams.SentIs` | src/libmodelbox/engine/match_stream.cc:681-687 | what is sent is the list without its nulls, in order: as it is with indices kept, else numbered on from the buffers sent before |
| `OutputStreams.FaultIffApart` | src/libmodelbox/engine/match_stream.cc:697-709 | a batch is at fault exactly when it ends the stream of some port and not of another; the entry goes when all are at their end and stays when none is |
| `OutputStreams.KeyFound` | src/libmodelbox/engine/match_stream.cc:718-746 | a batch of one stream with a front that is not null has that stream's key, in whatever order the ports are met |
| `OutputStreams.FullIffReached` | src/libmodelbox/engine/stream.cc:95-105 | count and announced end meet exactly when every index up to the end flag was sent |
| `OutputStreams.KeepStep` | src/libmodelbox/engine/match_stream.cc:671-709 | with indices kept, all ports end in the same batch, the one with the last missing index |
| `OutputStreams.FinishTogether` | src/libmodelbox/engine/match_stream.cc:643-716 | batches in any order, streams interleaved at will: neither the "finish together" fault nor the missing key was reached or can be next, and an entry exists exactly while its stream has begun and misses an index |
| `OutputStreams.RenewFed` | src/libmodelbox/engine/match_stream.cc:822-830 | nulls dropped, a port is numbered without a gap and its end flag is counted last |
| `OutputStreams.RenewFinishTogether` | src/libmodelbox/engine/match_stream.cc:643-716 | with new indices every port sends 0, 1, ... without a gap, all end flags go out in one batch, no batch was a fault and none can be next |
| `OutputStreams.RenewSendsAll` | src/libmodelbox/engine/match_stream.cc:822-830 | over every run each port of a stream sends all its outputs and nothing else, in order, numbered from 0 |
| `Lineage.BracketsRestore` | src/libmodelbox/engine/data_context.cc:1337-1350 | a buffer that passes any well-bracketed sequence of expands, one-to-one, stream and collapse nodes has its index, inherit info, depth and stream order back and is an end flag exactly if it was one |
| `Lineage.EndFlagPasses` | src/libmodelbox/engine/data_context.cc:1547-1559 | an end flag survives every such sequence as an end flag |
| `Lineage.DataPasses` | src/libmodelbox/engine/data_context.cc:1547-1559 | so does a data buffer, as data |
| `Lineage.SubEndAbsorbed` | src/libmodelbox/engine/data_context.cc:1718-1730 | the end flag of the sub-stream of a data buffer goes no further than the collapse |
| `Lineage.DepthsStayRight` | src/libmodelbox/engine/buffer_index_info.cc:31-40 | whatever a buffer passes, bracketed or not, its recorded depth stays the number of its ancestors less one |
| `Lineage.RunKeepsStream` | src/libmodelbox/engine/buffer_index_info.cc:31-40 | every chain of nodes turns a stream into a stream, numbered from 0 and ended once, of the same ancestry and of the size its last n-to-m node gives it |
| `Buffers.DepthCountsAncestors` | src/libmodelbox/engine/buffer_index_info.cc:31-40 | the depth given to a descendant is the number of its parent's ancestors |
| `Lineage.CollapseUndoes` | src/libmodelbox/engine/data_context.cc:1597-1605 | a collapse restores the buffer its sub-stream was expanded from |
| `Lineage.NestingIsIdentity` | src/libmodelbox/engine/buffer_index_info.cc:31-40 | expand and collapse nested to any depth, with sub-streams of any size, leave the stream row for row as it was |
| `Lineage.Less` | src/libmodelbox/engine/stream.cc:48-74 | the comparison loop decides the order of streams |
| `Lineage.PrecedesIsTotal` | src/libmodelbox/engine/stream.cc:48-74 | that order is total and asymmetric |
| `Lineage.PrecedesIsTransitive` | src/libmodelbox/engine/stream.cc:48-74 | and transitive |
| `Lineage.SiblingsInOrder` | src/libmodelbox/engine/stream.cc:82-84 | sub-streams come after their stream, in the order of the buffers expanded |
| `GraphBuild.IsReady` | src/libmodelbox/engine/graph.cc:1049-1065 | all sources placed, back links of declared loops aside |
| `GraphBuild.Visit` | src/libmodelbox/engine/graph.cc:1040-1079 | one node off the worklist keeps: placed nodes are ordered, and a node left out is queued again when its last predecessor is placed |
| `GraphBuild.GenerateTopology` | src/libmodelbox/engine/graph.cc:1032-1096 | terminates; succeeds exactly on graphs whose nodes are all fed or start nodes and which have no cycle (a back link counting only for a node fed by nothing else); the order is a permutation with predecessors first |
| `GraphBuild.PlainSchedulable` | src/libmodelbox/engine/graph.cc:1032-1096 | with all ports connected and no loop that condition is: no directed cycle |
| `GraphBuild.IsAllPortConnect` | src/libmodelbox/engine/graph.cc:817-841 | every input and output port has a link |
| `GraphBuild.OnTheWay` | src/libmodelbox/engine/graph.cc:796-841 | in a graph that passes both checks every node is on a path from a node without inputs to a node without outputs |
| `GraphBuild.FollowLink` | src/libmodelbox/engine/graph.cc:851-875 | following a link merges the labels of its ends, and every label stays the least of those its holders started with |
| `GraphBuild.SameGroupIffJoined` | src/libmodelbox/engine/graph.cc:843-891 | after any links, two nodes share a label exactly when those links join them by an undirected path |
| `GraphBuild.IsAllNodeConnect` | src/libmodelbox/engine/graph.cc:843-891 | OK exactly when no proper part of the nodes can be cut out |
| `StatsTree.RegisterNotify` | src/libmodelbox/profiling/statistics.cc:467-478 | the registration of a whole subtree, by loops over children |
| `StatsTree.UnRegisterNotify` | src/libmodelbox/profiling/statistics.cc:480-492 | its removal by configuration id |
| `StatsTree.AddItemInner` | src/libmodelbox/profiling/statistics.cc:300-347 | a new child is handed the kept registrations for any name, then for its own; empty names, `*` and leaf parents refused |
| `StatsTree.RegisterReaches` | src/libmodelbox/profiling/statistics.cc:566-593 | registering marks exactly the items the pattern selects or leads through |
| `StatsTree.RegisterKeepsLaw` | src/libmodelbox/profiling/statistics.cc:566-593 | registering keeps the law: consumers are the active registrations that end at each path, and kept lists what leads on from it, as far as there can be items |
| `StatsTree.AddKeepsLaw` | src/libmodelbox/profiling/statistics.cc:300-347 | so does adding or replacing an item |
| `StatsTree.DelKeepsLaw` | src/libmodelbox/profiling/statistics.cc:377-393 | so does deleting one, with the registrations made on it or below |
| `StatsTree.DelLocal` | src/libmodelbox/profiling/statistics.cc:377-393 | an item not at or below the deleted one exists afterwards exactly if it did before, with the same lists |
| `StatsTree.TreeIsTable` | src/libmodelbox/profiling/statistics.cc:300-393 | after any run the tree has exactly the items of a flat table of paths: adding replaces what was at the path and below, deleting takes all below along, no other item comes, goes or turns into a leaf |
| `StatsTree.UnregisterKeepsLawIff` | src/libmodelbox/profiling/statistics.cc:595-617 | taking back keeps it exactly when no item that can have children keeps, in a list that gets cleared, an entry of the same configuration registered elsewhere that may yet lead to an item |
| `StatsTree.TakingBackTooMuch` | src/libmodelbox/profiling/statistics.cc:595-617 | a run after which an item selected by one registration has no consumer |
| `StatsTree.StaysRightIffLaw` | src/libmodelbox/profiling/statistics.cc:300-347 | after any run, careful or not, the consumers of all items are right and stay so however the tree grows exactly when the law holds |
| `StatsTree.TakingBackIsSafeIff` | src/libmodelbox/profiling/statistics.cc:595-617 | after a careful run, taking back makes no consumers wrong, now or in any growth, exactly when there is no such clash |
| `StatsTree.UnregisterLeavesNoMore` | src/libmodelbox/profiling/statistics.cc:595-617 | it never leaves an entry too many |
| `StatsTree.ConsumersAreMatches` | src/libmodelbox/profiling/statistics.cc:300-347 | after every run an item's consumers are exactly the active registrations whose pattern matches its path, as often as made |
| `StatsTree.OrderDoesNotMatter` | src/libmodelbox/profiling/statistics.cc:566-593 | whether items or registrations came first |
| `StatsTree.SegmentsOfDotted` | src/libmodelbox/profiling/statistics.cc:164-180 | taking root and sub path in turn walks a pattern as the segments it was written with, exactly unless the last is empty |
| `PathTrie.AddInserts` | src/modelbox/server/http_helper.cc:172-194 | adding is set insertion; it reports EXIST exactly for a registered path |
| `PathTrie.DelRemoves` | src/modelbox/server/http_helper.cc:196-220 | deleting is set removal; NOTFOUND exactly where there is no node, and then nothing changes |
| `PathTrie.ReachesIffPrefix` | src/modelbox/server/http_helper.cc:196-220 | the nodes are exactly the prefixes of registered paths |
| `PathTrie.TidyIsCanonical` | src/modelbox/server/http_helper.cc:215-217 | pruning is exact: a tree is determined by the paths registered in it |
| `PathTrie.DelUndoesAdd` | src/modelbox/server/http_helper.cc:172-220 | deleting what was just added gives back the same tree |
| `PathTrie.MatchIsLongest` | src/modelbox/server/http_helper.cc:222-249 | a match is the longest registered prefix, and fails only if there is none |
| `PathTrie.SplitHttpPath` | src/modelbox/server/http_helper.cc:284-308 | the scanning loop yields the names after the first slash |
| `PathTrie.SplitUndoesJoin` | src/modelbox/server/http_helper.cc:276-308 | splitting a joined path gives the names back exactly when the last one is not empty |
| `PathTrie.JoinUndoesSplit` | src/modelbox/server/http_helper.cc:261-308 | for any string the names, written out again, are the string from its first slash on less one slash at the end |
| `PathNodes.HttpPathMatchNode.AddChild` | src/modelbox/server/http_helper.cc:172-194 | the in-place insertion does to the tree of nodes what insertion does to its value; new nodes are fresh |
| `PathNodes.HttpPathMatchNode.DelChild` | src/modelbox/server/http_helper.cc:196-220 | the in-place removal, with pruning, does what removal does |
| `PathNodes.HttpPathMatchNode.MatchChild` | src/modelbox/server/http_helper.cc:222-249 | walking the nodes with a pushed and popped path finds the match |
| `PathNodes.HttpPathMatchTree.AddNode` | src/modelbox/server/http_helper.cc:251-254 | insertion by path string, keeping every node needed |
| `PathNodes.HttpPathMatchTree.DelNode` | src/modelbox/server/http_helper.cc:256-259 | removal by path string, keeping every node needed |
| `PathNodes.HttpPathMatchTree.MatchPath` | src/modelbox/server/http_helper.cc:261-282 | the string of the longest registered prefix |
| `ControlMsg.CommandRoundTrip` | src/modelbox/common/control_msg.cc:321-407 | a serialized command is read back exactly; only an empty one is refused |
| `ControlMsg.ReadIffWritten` | src/modelbox/common/control_msg.cc:358-407 | bytes are read as a command exactly when they are what is written for it |
| `ControlMsg.CutShort` | src/modelbox/common/control_msg.cc:358-407 | a command cut short is never taken for another: INVALID when cut after an argument, NOBUFS when cut within one |
| `ControlMsg.ReadingResumes` | src/modelbox/common/control_msg.cc:370-398 | after any arguments reading goes on as from the start, error returns included |
| `ControlMsg.SerializeMsg` | src/modelbox/common/control_msg.cc:321-356 | writes exactly the encoding and succeeds exactly when it fits |
| `ControlMsg.UnSerializeMsg` | src/modelbox/common/control_msg.cc:358-407 | the reading loop decodes, with its error returns |
| `ControlMsg.FrameAccepted` | src/modelbox/common/control_msg.cc:134-161 | a frame is accepted exactly when its payload is shorter than the buffer less a head |
| `ControlMsg.HeadPassesIff` | src/modelbox/common/control_msg.cc:134-161 | a head passes exactly if a frame of a known type, short enough for the buffer, has it; AGAIN exactly for too few bytes |
| `ControlMsg.CommandThroughFrame` | src/modelbox/common/control_msg.cc:185-223 | a framed command followed by any bytes is complete, decodes to the command and leaves those bytes |
| `ControlMsg.CommandsTakenInOrder` | src/modelbox/common/control_msg.cc:185-223 | commands back to back are taken off in order, each as written, up to bytes that are no complete message, which stay as they are |
| `ControlMsg.TakeAll` | src/modelbox/common/control_msg.cc:461-498 | building message after message from a received buffer yields those commands, the bytes left and the status that stopped it |
| `ControlMsg.ControlMsgCmd.Serialize` | src/modelbox/common/control_msg.cc:168-183 | the buffer holds the frame if it fits; a command too long is reported as OK with a length that wrapped around |
| `ControlMsg.ControlMsgCmd.Unserialize` | src/modelbox/common/control_msg.cc:134-161 | the status of a head and when the message becomes ready |
| `ControlMsg.ControlMsgCmd.Flip` | src/modelbox/common/control_msg.cc:87-106 | drops the first message and looks at the next; with a payload not all arrived the length goes below zero and the same head passes again |
| `ControlMsg.ControlMsgCmd.BuildFromOtherMsg` | src/modelbox/common/control_msg.cc:185-223 | takes the first message out of another buffer: the two buffers change places, the rest moves to the front, the payload is decoded; with a payload not all arrived NOBUFS, the other left as it was and this one marked ready |

## Left out

- Loop nodes (`LoopNormalFlowUnitDataContext`, `FindLoopSeq`): declared loops occur only as the back links the topological sort skips.
- Index info of an if/else node's outputs in the merge: `NormalContext` covers nodes without a condition, and `ConditionMerge` knows an output only by its parent's index.
- The placeholder a collapse node fills in when the unit emits nothing: `Lineage` assumes one output per collapsed sub-stream that holds data.
- Aliasing and sharing of buffers: a buffer is a value, so marking one as placeholder or renumbering it does not show elsewhere.
- MatchBufferCache objects are values inside the maps of `MatchStreamCache`, and the stream caches are values inside `InputMatchStreamManager`.
- In `Batching`, `StreamExpand` and `StreamCollapse` a row stands for one buffer per port; ports of equal length are what `NormalContext` and `MatchRuns` prove.
- In `StatsTree` items are values, so a handle to an item that was replaced or deleted cannot be used further.
- Notification kinds, timers, the throttling of change notifications and the callbacks themselves: a consumer is an entry in one list.
- ControlMsg.UnSerializeMsg: an argument head cut short by the end of the payload is reported as NOBUFS, where the code subtracts unsigned and reads on.
- ControlMsg.ControlMsgCmd.Flip: requires that the head of a ready message passes the checks, which only a command too long for its buffer breaks.
- ControlMsg.TakeAll: builds every message as a command; the result, string, help and error message bodies are not modelled.
- FlowControl.InitInheritBackwardLevel: the levels it sets are left out; a match key is an identity given with the buffer.
- FlowControl.InputMatchStreamManager.LoadData: the active state of the ports, which only decides when the node runs again, is left out.
- Events a stream-expand unit sends from its data-pre or data-post calls: only those sent from the process call are modelled.
- Outputs a unit adds in its data-post call (`MergeDataPostOutput`).
- StreamExpand.StrandedIff: between runs only; within a run the event is about to be generated.
- Skipping of the process call for a stream-collapse run that brings nothing for the current sub-stream.
- Device memory, buffer contiguity, thread pools, the scheduler, sessions' lifetimes, task manager, buffer types, bindings, command-line tools and servers.
