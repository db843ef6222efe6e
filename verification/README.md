# Verified model of the agent framework's concurrent and stateful cores

This project models, in Dafny, the parts of the framework whose correctness is hard
to see from the code, and proves what they promise over every input and every
interleaving:

- the **DAG scheduler** (`schedule/`): its graph builder, and the run-time protocol between
  the workers, the control loop and the caller of `Run`;
- the **streaming message bus** (`schedule/context.go`);
- the **id ring** and the **short-term memory** kept beside a backing store (`memory/type_/`);
- the session's **token-budget buffer** and its dump and reload (`session/`);
- the **tool stream** (`tools/stream.go`) and the **fixed-size chunker** (`rag/chunker.go`).

## How the scheduler is modelled

`Graphs` holds the graph; a handle (an index into the scheduler's list of nodes) plays the part
of a node pointer. `Protocol` is a transition system in which every read of one predecessor's
state, every compare-and-swap, every store and every channel operation is a step of its own;
`done` has the source's 100 places and a send waits for room. What a node function answers is
left to the run (`canFail` says which may fail), and the tags of each conditional are
fixed per run. `Outcomes` defines the recursive evaluator that every interleaving must
agree with; `Safety`, `Wakeups` and `Reports` are the three layers of the invariant, each
proved step by step; `Bounds` holds the measure that every step lowers, `Messages` the count of
the messages a run can send; `Theorems` states the results for every reachable state, `Choices`
which nodes a run gets to, read off graph and tags alone, `Failures` what a failed node does to it.
`Builder` gives the exact condition under which each builder call keeps the graph runnable;
`Reruns` treats runs of a scheduler that has run before, by way of a fresh run that follows
the same schedule; `Scheduling` is the scheduler object itself, whose methods take the protocol's
steps in place; `FullChannel` says which graphs can hang; `FanGraphs`, `RoutedGraphs` and
`SubGraphReruns` hold the examples of what goes wrong.

Three things the code does that a reader might not expect, each proved:

- The control loop is the only reader of `done` and also sends on it, so `Run` can hang
  although no function fails. `Theorems.ReturnsIff` shows that every complete run
  returns exactly when each node the end waits for has an edge leading to it and no run
  without failures blocks the loop on the full channel. `Theorems.RoomyNeverJams` shows that none does
  when there is nothing but branches to skip (so never without conditionals), or when
  `Messages.MessageCount`, computed from the graph and the tags, is at most 100;
  `FullChannel.ClogHangs` that some run does when a conditional, anywhere in the graph, has 100 more
  branches after those that decide a skip, with the end still undecided: so always
  (`FullChannel.EntryClogs`) when an entry conditional has an unchosen branch, the only way to its
  target, with 100 branches after it.
  `FanGraphs.FanHangs` is an example.
- Conditional and sub-graph nodes are not entered in the scheduler's map, so `resetForRun` misses
  them, and what a run finds in an old state it never starts (`Reruns.MissedNeverStarted`).
  For conditionals the effect is exactly known. `Reruns.SecondRunsSucceedIff`: after a successful run,
  the complete second runs of a scheduler that misses only conditionals succeed exactly when each
  conditional the end waits for has to be skipped this time. `RoutedGraphs.RoutedRunsOnce` shows it for
  the graph of `TestScheduler_ConditionalGraph` (schedule/graph_test.go:77-161), as the scheduler's own
  calls build it: it runs successfully once and never again. A sub-graph node in an old state is taken
  for settled instead: `SubGraphReruns.SuccessWithoutSubGraph` gives a second run that reports success
  without having run the sub-graph.
- `Subscribe` replays the history into a channel that nobody can read yet, holding the lock, while
  the dispatcher closes the channels without it. `Bus.SubscribeHangsIff`: a replay under way may
  last for ever exactly when it has more than 100 messages to send, or some left to send on a channel
  that is closed or that the dispatcher may close: because it has nothing to broadcast, so that the
  producer may close and the dispatcher with it, or because it is closing the channels, this one
  among them. (On the closed channel the source panics, schedule/context.go:89-92; the model stays
  where it is.) So any history but the empty one can leave a subscription hanging
  (`Bus.AnyHistoryFound`, `Bus.OneMessageHangs`), and one of more than 100 messages always does. The
  comment at schedule/context.go:20-21 promises late subscribers all messages without these limits; a
  message may also reach a late subscriber twice (`Bus.Delivered`).

## Model

| member | source | states |
|---|---|---|
| Graphs.AcyclicIffRanked | schedule/subgraph.go:9 | A graph has no path from a node to itself exactly when its nodes can be numbered along all edges |
| Builder.WithEdgeWellFormed | schedule/graph.go:142-152 | An ordinary edge keeps a runnable graph runnable if and only if it closes no path, does not enter the start or another's branch and does not leave a conditional; next and prev stay in agreement with multiplicity |
| Builder.WithEntryWellFormed | schedule/graph.go:177-179 | The one-sided entry edge keeps the graph runnable if and only if its node is neither the start nor a branch |
| Builder.WithBranchWellFormed | schedule/graph.go:154-175 | A tagged branch through a fresh virtual node keeps the graph runnable if and only if it closes no path and does not enter the start or another's branch |
| Builder.AcyclicWithEdge | schedule/graph.go:149-150 | One more edge keeps a graph acyclic if and only if it closes no path |
| Builder.CallKeepsIffLegal | schedule/graph.go:142-185 | Each builder call, exits and error answers included, keeps the graph runnable exactly when a condition on its arguments holds beforehand; exit nodes must not be conditional |
| Builder.BuiltWellFormed | schedule/graph.go:84-185 | A graph built from nothing by any calls on existing nodes can be run if and only if every single call was legal when it was made; prev and next agree with multiplicity in any case |
| Builder.BuiltBranches | schedule/graph.go:142-185 | In a graph built from nothing each branch leads to exactly one node if and only if no edge or exit call led on from a branch |
| Outcomes.Eval | schedule/graph.go:233-259 | Every node has a definite outcome, skipped or finished, on every runnable graph; the recursion over predecessors is well founded |
| Outcomes.EvalFromStates | schedule/graph.go:234-259 | With all predecessors settled, the node is to be skipped exactly when it has predecessors and all of them are skipped |
| Choices.EvalIffChosen | schedule/node.go:80-87 | A node is finished, and not skipped, exactly when a path of predecessor links leads to it from a node without predecessors, on which the tag of every branch was answered |
| Safety.ScanComplete | schedule/graph.go:236-259 | A scan that read its predecessors one by one ends only with all of them still settled, its count says whether all are skipped, and a virtual node is scheduled only to be skipped |
| Safety.StepSafe | schedule/graph.go:199-270 | Every step of every goroutine keeps the safety invariant and leaves settled and failed nodes as they are |
| Safety.SettleBranchSafe | schedule/node.go:80-87 | A conditional's worker settles its branches from pending, one by one: finished if the branch's name is among the tags it has answered, otherwise skipped |
| Theorems.EndedForever | schedule/node.go:52-61 | Once finished, skipped or failed, a node keeps that state for the rest of the run, in every interleaving |
| Theorems.StartedOnceInOrder | schedule/graph.go:236-267 | In every reachable state each function has been started at most once, a virtual node's never, and the starting step finds the node pending and all its predecessors settled |
| Theorems.Confluence | schedule/graph.go:233-270 | In every interleaving, whichever functions fail, a node that settles has the evaluator's outcome |
| Choices.BranchesFollowTags | schedule/node.go:79-87 | In every reachable state a settled branch of a finished conditional is finished exactly when its name is among the conditional's tags |
| Choices.OnlyChosenStart | schedule/graph.go:233-270 | In every reachable state a settled node is finished exactly when a path of answered branches leads to it; only such a node's function is ever started, and once |
| Choices.ChosenAreStarted | schedule/graph.go:233-270 | After a success each function the end waits for was started exactly once if a path of answered branches leads to its node, and otherwise never |
| Bounds.RunFuel | schedule/graph.go:202-268 | Every step of every goroutine uses fuel, so a schedule is never longer than the fuel it starts with, repeated skip messages included |
| Theorems.RunsAreBounded | schedule/graph.go:192-231 | No schedule of a run is longer than a number computed from the graph |
| Theorems.RunsEnd | schedule/graph.go:192-231 | From any state the goroutines reach, by some schedule, a state in which none can move |
| Messages.RunBudget | schedule/graph.go:254-257 | Messages sent plus messages still possible stay within a count made beforehand from graph and tags: one for each node that finishes, and one for each message that finds a node to be skipped |
| Messages.CountWithinPaths | schedule/graph.go:208-213 | That count is never more than the number of paths leaving the start |
| Theorems.MessagesBounded | schedule/graph.go:52 | The messages of a whole run are at most the count, and so at most the paths leaving the start; if the count is at most 100, no send ever waits |
| Wakeups.StepAwake | schedule/graph.go:202-214 | Every step keeps this: a pending node whose predecessors have all settled still has the settling of one of them unpublished, queued or being processed |
| Wakeups.SettleBranchCarried | schedule/node.go:80-87 | The same across a conditional's settling of one branch |
| Wakeups.StartNodeAwake | schedule/graph.go:261-269 | The same across a launch or a failed compare-and-swap |
| Reports.StepLive | schedule/graph.go:223-230 | Every step keeps what the caller is told in agreement with the nodes: success only with the end settled, an error only with a failed node, and neither is ever overlooked |
| Theorems.FailureContained | schedule/graph.go:241-244 | In every reachable state all descendants of a failed node are pending |
| Failures.FailureEndsLoop | schedule/graph.go:241-244 | Once the control loop reads a failed predecessor, in every continuation no function is started, the loop sends no message and changes no state, the run does not succeed, and completed it has returned the error |
| Theorems.ReturnsAreRight | schedule/graph.go:223-230 | If Run reports success, the end and every ancestor of it are settled as the evaluator says; if it reports an error, some function failed |
| Theorems.NoDeadlock | schedule/graph.go:202-214 | On a wired graph, with nothing queued and no needed function running, a waiting or stopped control loop has processed the end with everything needed settled as the evaluator says, unless a node has failed |
| Theorems.NeverIdle | schedule/graph.go:202-214 | So the loop is never left waiting without a failed node: the state in which it would be cannot be reached |
| Theorems.HangMeansFull | schedule/graph.go:254-257 | A caller left waiting for ever on a wired graph means the control loop is blocked sending on the full channel |
| Theorems.HangMeansNoFailure | schedule/node.go:52-56 | A caller left waiting for ever waits in a run in which no function failed |
| Theorems.SucceedsIff | schedule/graph.go:192-231 | With no failing function, all complete runs succeed if and only if every node the end waits for has an edge leading to it and no run blocks the control loop on the full channel |
| Theorems.ReturnsIff | schedule/graph.go:192-231 | Whatever functions may fail, all complete runs return if and only if all runs without failures succeed |
| Theorems.RoomyNeverJams | schedule/graph.go:254-257 | With nothing but branches to skip, or with a message count of at most 100, no run blocks the control loop |
| Theorems.PlainIsRoomy | schedule/graph.go:256-257 | A graph without conditionals is such a graph, however many paths it has |
| Theorems.RunAlwaysReturns | schedule/graph.go:192-231 | On a wired graph with nothing but branches to skip, or whose messages fit the channel, every complete run returns, with success unless a function failed |
| Theorems.SucceedsIffWired | schedule/graph.go:177-185 | On such graphs, with no failing function, all complete runs succeed if and only if every node the end waits for has an edge leading to it |
| FullChannel.ClogJams | schedule/graph.go:254-257 | On any runnable graph, if a conditional that runs once a closed set of nodes has settled has 100 more branches after those that decide that some node behind it is skipped, and the end still waits for a node outside that set, some schedule blocks the control loop on the full channel |
| FullChannel.ClogHangs | schedule/graph.go:254-257 | On such a graph some complete run leaves the caller waiting for ever with no node failed, whatever functions may fail |
| FullChannel.EntryClogs | schedule/graph.go:254-257 | Any runnable graph is such a one if an entry conditional has an unchosen branch that is the only way to its target and that at least 100 branches follow |
| FanGraphs.FanHangs | schedule/graph.go:254-257 | A concrete runnable, wired graph and a schedule after which no goroutine can move and the caller still waits |
| Reruns.ResetFreshIff | schedule/graph.go:71-82 | The reset yields all-pending states exactly when the nodes it misses were pending |
| Reruns.MissedNeverStarted | schedule/graph.go:262-264 | A node of any kind that the reset misses and that is not pending is started in no schedule of the next run |
| Reruns.RerunShadows | schedule/graph.go:262-264 | A run that finds conditionals in old states takes the same steps as a fresh run in which these never return; the two differ in nothing else |
| Reruns.RerunOutcomes | schedule/graph.go:233-270 | Whatever was left in the conditionals, every node pending at the launch settles as the evaluator says |
| Reruns.RegisteredRunsAgree | schedule/graph.go:71-82 | Two runs of a scheduler with all nodes registered settle no node differently, whatever was left before each; completed on a wired graph with room they both succeed |
| Reruns.RerunSuccess | schedule/graph.go:262-264 | Success of a rerun needs every conditional the end waits for to be pending at the launch or to be skipped, and then means that all needed nodes have the evaluator's outcome |
| Reruns.RerunsSucceedIff | schedule/graph.go:192-193 | Without failures and jams, on a wired graph, all complete reruns succeed if and only if every conditional the end waits for is pending at the launch or has to be skipped |
| Reruns.SecondRunsSucceedIff | schedule/graph.go:108-119 | After a successful first run all complete second runs, on tags that may differ, succeed if and only if each unregistered conditional the end waits for has to be skipped this time |
| Reruns.SucceedsOnce | schedule/graph.go:71-82 | With an unregistered conditional that the end waits for and that is not skipped, a first run can be completed successfully and no schedule of a second run succeeds |
| RoutedGraphs.Build | schedule/graph_test.go:77-123 | The calls of the test give exactly this graph, with all nodes but the start and the conditional registered |
| RoutedGraphs.RoutedRunsOnce | schedule/graph_test.go:77-161 | The conditional graph of the tests: every complete first run succeeds with the right-hand node started once and the left-hand node never; no second run succeeds |
| SubGraphReruns.SuccessWithoutSubGraph | schedule/graph.go:121-140 | A runnable, wired graph whose first run is complete and successful and whose second run reports success with a needed sub-graph never started |
| Scheduling.Scheduler.constructor | schedule/graph.go:58-69 | A new scheduler has a blank graph and, since both flag names take id 0, only the end node in its map; every node but the start is registered |
| Scheduling.Scheduler.AddNode | schedule/graph.go:84-106 | The error cases, the added node, and the exact map, in which a flag name replaces what has id 0; under an ordinary name all nodes stay registered |
| Scheduling.Scheduler.AddUnregistered | schedule/graph.go:108-140 | Conditional and sub-graph nodes are added without registration; after conditionals, only conditionals are missing |
| Scheduling.Scheduler.AddEdge | schedule/graph.go:142-152 | Errors leave the graph alone; success adds the edge at both ends; registrations are kept |
| Scheduling.Scheduler.AddConditionalEdge | schedule/graph.go:154-175 | Errors leave graph and map alone; success inserts the virtual node and enters it in the map, keeping all earlier registrations |
| Scheduling.Scheduler.SetEntry | schedule/graph.go:177-179 | Adds the one-sided entry edge |
| Scheduling.Scheduler.SetExit | schedule/graph.go:181-185 | Adds the edge to the end node found in the map |
| Scheduling.Scheduler.ResetForRun | schedule/graph.go:71-82 | Exactly the start and the registered nodes become pending |
| Scheduling.Scheduler.WorkerStep | schedule/node.go:44-90 | Performs in place the worker's step of the protocol, stated on the fields: what is stored, what is sent, and that a branch is stored finished or skipped by its name among the tags |
| Scheduling.Scheduler.ReadStep | schedule/graph.go:236-253 | Performs in place the read of one predecessor: an unsettled one sends the loop on to the next successor, a failed one ends it, a skipped one is counted |
| Scheduling.Scheduler.DecideStep | schedule/graph.go:254-269 | Performs in place the skip, when the predecessors are some and all skipped, or the compare-and-swap and launch |
| Scheduling.Scheduler.ControlStep | schedule/graph.go:201-215 | Performs in place the control loop's step |
| Scheduling.Scheduler.Run | schedule/graph.go:192-231 | After any schedule the object is in the protocol's state; with all nodes registered the run is a fresh one; in a fresh run settled nodes are finished exactly when a path of answered branches leads to them, after a success exactly these needed functions have been started, and, completed on a wired graph with room, it has returned, with success if nothing can fail; with only conditionals unregistered, it then succeeds exactly when all needed ones are usable |
| Bus.StepInv | schedule/context.go:78-118 | Every step of dispatcher, subscriber, producer and consumers keeps each subscriber's stream the replayed history followed by the later broadcasts, overlapping in at most one message |
| Bus.Delivered | schedule/context.go:78-118 | In every interleaving, with the dispatcher between messages, a subscriber was sent the whole history in order, with at most one message repeated on the spot at the end of its replay |
| Bus.NeverAGap | schedule/context.go:78-93 | At any moment a subscriber's stream lacks at most the message in progress |
| Bus.ClosedAfterAll | schedule/context.go:89-92 | A subscriber's channel is closed only after it carried everything the producer sent |
| Bus.ReplayMovesIff | schedule/context.go:105-118 | In every interleaving a replay can go on as long as it lasts, if and only if it has at most 100 messages and is finished or has a channel that is open and that the dispatcher cannot come to close |
| Bus.SubscribeHangsIff | schedule/context.go:89-118 | In exactly the other cases some interleaving leaves the subscription holding the lock for ever |
| Bus.SubscribeCanReturnIff | schedule/context.go:105-118 | Some interleaving lets a replay on an open channel return if and only if its history has at most 100 messages |
| Bus.AnyHistoryFound | schedule/context.go:78-118 | Every history can be what a subscriber finds after a run from the start; then it may hang if and only if the history is not empty, and can return if and only if it has at most 100 messages |
| Bus.OneMessageHangs | schedule/context.go:89-92 | A run from the start in which the channel is closed before the one message is replayed on it; the replay then never goes on, where the source panics |
| Bus.BusyDispatcherWaits | schedule/context.go:82-88 | A run from the start in which the dispatcher waits for the lock with a message just received, and a subscriber is sure to replay everything |
| BusProgress.SendsIff | schedule/context.go:83-85 | The dispatcher's send to a subscriber goes through exactly when that channel is open and fewer than 100 of its messages are untaken, and appends the message there alone |
| BusProgress.AllCanBeDelivered | schedule/context.go:78-93 | From every reachable state with no subscription under way, steps of the dispatcher and of subscribers taking messages lead to one in which everything produced has been delivered and taken, by everyone |
| Bus.MessageQueue.Dispatch | schedule/context.go:78-93 | Performs the dispatcher's next step in place, or changes nothing exactly when it must wait: for a message, for the lock, or for room among 100 places |
| Bus.MessageQueue.Step | schedule/context.go:78-118 | Every step of the bus is what one of the methods does in place |
| Bus.MessageQueue.Join | schedule/context.go:105-111 | Adds the new channel under the lock |
| Bus.MessageQueue.ReplayAll | schedule/context.go:113-118 | An undisturbed subscription sends the whole history and releases the lock |
| IdRings.PushOk | memory/type_/util.go:33-42 | Writing one place behind the last id appends it to the sequence and keeps the index exact |
| IdRings.PopOk | memory/type_/util.go:44-58 | Moving the head on drops the oldest id of the sequence and keeps the index exact |
| IdRings.GrowOk | memory/type_/util.go:104-128 | Copied to the front of a larger buffer the ids keep their order and the index is rebuilt exactly |
| IdRings.IdRing.EnsureCapacity | memory/type_/util.go:104-128 | Growth to any need leaves the sequence of ids unchanged |
| IdRings.IdRing.PushBack | memory/type_/util.go:33-42 | Appends unless empty or present |
| IdRings.IdRing.PopFront | memory/type_/util.go:44-58 | Removes and returns the oldest id, or reports an empty ring |
| IdRings.IdRing.Remove | memory/type_/util.go:60-76 | Filters one id out, keeping the order of the others |
| IdRings.IdRing.Values | memory/type_/util.go:78-90 | Returns the ids, oldest first |
| IdRings.IdRing.Reset | memory/type_/util.go:92-102 | Empties the ring |
| ShortTermMemories.CleanupRestores | memory/type_/short_term.go:196-212 | If the ring knows every stored id, a cleanup makes ring and store hold the same ids and leaves nothing expired |
| ShortTermMemories.CleanupIdempotent | memory/type_/short_term.go:196-212 | A second cleanup at the same time changes nothing |
| ShortTermMemories.AddInStep | memory/type_/short_term.go:54-90 | After a successful Add of the memory's own items ring and store hold exactly the same ids |
| ShortTermMemories.AddCovered | memory/type_/short_term.go:61-90 | Whoever the items belong to, the ring goes on knowing every stored id |
| ShortTermMemories.FailedAddCovered | memory/type_/short_term.go:81-86 | An Add that fails in the middle of a batch leaves every stored id known to the ring |
| ShortTermMemories.AddedCovered | memory/type_/short_term.go:54-90 | However an Add ends, cleanup, batch and trim together leave every stored id known to the ring; ended well with the memory's own items, ring and store hold the same ids |
| ShortTermMemories.TrimInStep | memory/type_/short_term.go:214-225 | Trimming drops the same ids from ring and store |
| ShortTermMemories.ListedInOrder | memory/type_/short_term.go:136-152 | A listing holds exactly the matching stored items, in insertion order |
| ShortTermMemories.ListIgnoresExpiredOption | memory/type_/short_term.go:134-145 | Since cleanup runs first, a listing is the same with and without expired items asked for |
| ShortTermMemories.ShortTermMemory.CleanupExpired | memory/type_/short_term.go:196-212 | Drops from ring and store exactly the ids that are missing or expired; ring and store in step afterwards, if the ring knew every stored id |
| ShortTermMemories.ShortTermMemory.Trim | memory/type_/short_term.go:214-225 | Keeps the last capacity ids and deletes the others from the store, other users' items untouched |
| ShortTermMemories.ShortTermMemory.Add | memory/type_/short_term.go:54-90 | The exact new order and store, for success and for failure at any item; ring and store in step afterwards; a failure trims nothing and leaves the failing item's id in the ring |
| ShortTermMemories.NewShortTermMemory | memory/type_/short_term.go:26-40 | Refuses an empty session id and a missing store; otherwise an empty ring and the settings given |
| ShortTermMemories.Recall | memory/type_/short_term.go:54-125 | An item of the memory's user, added at `now` and not trimmed away, is found at `t` if and only if `t` is not after its own expiry or, without one and with a ttl, after now + ttl; and is found as given, with the session's tag and the two times; without a capacity, with room for all, or added last under a new id it is not trimmed away |
| ShortTermMemories.ShortTermMemory.Get | memory/type_/short_term.go:109-125 | Finds an item exactly when its id is in the ring and not expired; ring and store in step afterwards |
| ShortTermMemories.ShortTermMemory.List | memory/type_/short_term.go:127-157 | The last Limit of the items created neither before Since nor after Until, in insertion order after a cleanup; ring and store in step afterwards, other users' items untouched |
| ShortTermMemories.ShortTermMemory.Delete | memory/type_/short_term.go:159-173 | Removes the id from both, or reports why not and changes nothing |
| ShortTermMemories.ShortTermMemory.Clear | memory/type_/short_term.go:175-186 | Empties the ring and leaves in the store exactly the other users' items |
| Sessions.OnlineWindow | session/buffer.go:27-32 | Trimming at every append yields the longest suffix of everything appended that fits the budget, or the last message alone |
| Sessions.OnlineIsOfflineIff | session/buffer.go:62-74 | That holds for all histories and budgets if and only if the tokenizer counts nothing negatively |
| Sessions.WindowUnique | session/buffer.go:61-66 | There is only one such suffix |
| Sessions.ReplayKeepsIff | session/session.go:143-146 | Appending messages to an empty buffer gives them back if and only if they fit it or are at most one |
| Sessions.ReloadKeepsHistory | session/session.go:129-146 | Any history held under the default tokenizer survives dump and reload, also when the default budget replaces a non-positive one |
| Sessions.DefaultCounts | session/buffer.go:76-82 | The default tokenizer counts the places where a word starts, and one more for every four characters |
| Sessions.WordsAddUp | session/buffer.go:82 | Texts joined by a space have the words of both |
| Sessions.OneWord | session/buffer.go:82 | A text without spaces counts as one word |
| Sessions.Buffer.TokenCount | session/buffer.go:68-74 | Returns the sum over all messages |
| Sessions.Buffer.Append | session/buffer.go:27-32 | The buffer is the window of everything appended since the last clear; under the default tokenizer no two messages stay that cost more than the budget |
| Sessions.BlankIff | session/session.go:120-125 | An id is refused as blank exactly when no word starts in it |
| Sessions.Session.Dump | session/session.go:68-108 | The id, user, metadata and messages, and the buffer's budget or 4096 |
| Sessions.Session.Load | session/session.go:111-155 | The error cases in order, of which only the scheduler's refusal comes after the change; the id, user, metadata, and a fresh buffer of the substituted size with the dumped messages appended |
| Sessions.Session.AddMessage | session/session.go:290-303 | Appends, creating a buffer of 4096 under the default tokenizer where there is none; under that tokenizer no two messages stay that cost more than the budget |
| Sessions.Session.NewConversation | session/session.go:274-288 | Empties the buffer there is, keeping its budget, or makes a default one |
| Sessions.Reload | session/session.go:68-146 | Dump then Load gives the history back exactly when it fits under the default tokenizer or is one message |
| Streams.Conservation | tools/stream.go:198-223 | In every interleaving items accepted are items received followed by items buffered, and the buffer keeps to its size |
| Streams.EofIsFinal | tools/stream.go:217-227 | The end is reported only when every accepted item was received, and nothing is accepted or received after it |
| Streams.LateSendRefused | tools/stream.go:198-214 | A send begun after the receiving side closed is never accepted |
| StreamProgress.AllCanBeReceived | tools/stream.go:198-223 | From every reachable state with both sides open, all sends under way can be accepted and everything accepted received, for any size |
| Streams.Stream.Finish | tools/stream.go:208-214 | A waiting send is refused, accepted or left waiting, each only when its case is ready |
| Streams.Stream.Receive | tools/stream.go:217-223 | Takes the oldest item, reports the end only with everything received, or is left under way |
| Streams.Stream.FinishReceive | tools/stream.go:217-223 | A receive under way takes an item or the end only when that is ready, and otherwise goes on waiting |
| Chunking.FixedSizeChunker.New | rag/chunker.go:16-24 | Whatever the arguments, 0 <= overlap < size; a size that is not positive becomes 512, an overlap out of range 0 |
| Chunking.FixedSizeChunker.Chunk | rag/chunker.go:26-47 | The loop computes the recursive chunking, for any positive size |
| Chunking.FixedSizeChunker.Reconstruct | rag/chunker.go:26-47 | The first chunk followed by the later ones without their overlap is the text; chunks are non-empty and at most the chunk size |
| Chunking.FixedSizeChunker.CountChunks | rag/chunker.go:35-45 | One chunk for a text that fits, otherwise one plus the rounded-up quotient of the excess by the step |
| Chunking.FixedSizeChunker.StepIs | rag/chunker.go:32-35 | Consecutive chunks start size - overlap apart, or size when the overlap is no shorter |
| Chunking.FixedSizeChunker.ChunkAt | rag/chunker.go:35-41 | Chunk k is what the text holds from k steps on, cut to the chunk size |

## Left out

- Theorems.SucceedsIff: names the blocking of the control loop by the state in which it happens; beforehand it is excluded by `RoomyNeverJams` and shown to happen by `ClogHangs`, between which the order of sends and receives decides.
- Reruns.RerunsSucceedIff: does not speak of a sub-graph node left in an old state, which its successors read as settled before the new run gets to it; `MissedNeverStarted` and the example in `SubGraphReruns` do.
- Reruns.SecondRunsSucceedIff: speaks of schedulers without sub-graph nodes for the same reason.
- Streams.Stream.FinishReceive: an item handed to a waiting receive by a sender is recorded as received, without saying by which of several receivers.
- Graph nodes are indexes into one list, not objects, so handing a node to a second scheduler is not modelled; nor is the wrap-around of the 32-bit id counter.
- Starting a run while goroutines of an earlier one are still at work, and concurrent runs of one scheduler.
- What node functions, conditions and sub-graphs compute: a sub-graph node is a node function that may fail.
- Data races at the level of the Go memory model: each read and write is one atomic step.
- The maps of the graph context (`Get`, `Set`, one queue per key) and a subscription to an unregistered key.
- A send on a subscriber channel closed during its replay: the source panics, the model takes no step.
- `Scheduler.Snapshot` and `Restore`, which are not part of this model, the form of the JSON encoding, session tools and time stamps.
- Hashing and the canonical string of `GenerateMemoryID`: ids come from an unspecified function that never returns the empty string.
- Stores that fail on reads or deletes for reasons other than a missing item, cancelled contexts, and `ShortTermMemory.Update`.
- Bytes and Unicode: texts are sequences of characters, and white space is the ASCII one.
- Chunkers built by hand with a size that is not positive, on which the source loops for ever or panics.
- The agent loops, prompts, models, embeddings, registries and database back ends: the project is about the scheduler, the message bus, the short-term memory, the session buffer, the stream and the chunker only.
