# Tinsel's graph compiler and distributed runtime, modelled in Dafny

Tinsel is a many-threaded machine built from a mesh of FPGA boards. POLite, its
software side, takes an application graph, whose vertices are *devices* with
event handlers, maps the devices to hardware threads, compiles the edges to
routing tables, writes everything into the memories of the boards, and runs a
small event loop (the *softswitch*) on each thread. This project models that
path from the graph to the final answer, and proves what it is for. Check it with
`dafny verify dfyconfig.toml`.

## The layers

**Placement** (`NodeGraphs`, `Searches`, `Placers`, `Placings`, `Mappers`). Arrays and
loops as in the source: partitioners, subgraphs, connection counts, local search, and
the three-level mapping. METIS and the random numbers are arbitrary choices. The
result is a bijection between devices and pairs of thread and local id, and that
is just what the routing compiler asks for (`Mappers.Mapper.MappingOf`). `Searches`
says which nodes a breadth-first search takes, and `Placings` where the devices of a
mapped graph are: on the boards and mailboxes of a placement that is the cheapest of
eight searches (`Mappers.Mapper.Map`, `Placings.BoardsNear`).

**The routing compiler** (`RoutingRecords`, `ProgRouters`, `Mesh`, `Bitmaps`,
`InTables`, `PGraphs`, `RoutingTables`). `RoutingRecords` is the documented
meaning of the bytes of a routing table, written independently of the code that
produces them. `ProgRouters` is that code: it appends bytes, opens and closes
beats, and links chains of 31 beats. `Mesh` says what the network of boards does
with a key, and proves the recursive construction against it. `InTables` holds
the tables of the receivers, and `RoutingTables` puts everything together: for
every device and pin, following the real bytes through mailboxes, routers and
in-tables invokes exactly the receivers that the graph names
(`RoutingTables.PGraph.ComputeRoutingTables`).

**Upload** (`Partitions`, `Uploads`, `OutMemory`). Where the regions of all threads lie, the
out-edge arrays, the interleaved writing of all memories, and the boot loaders
that receive it, in any relative order, for all kinds of regions together. What
senders then read from memory are the out-edges that the compiler made
(`OutMemory.SendersRead`).

**The runtime** (`Vertices`, `Softswitch`, `Refinement`, `Rounds`, `Simulation`,
`Endings`, `Liveness`, `PThreads`, `Linking`, `Builds`). `Vertices` is the meaning of a vertex program: one handler call at a
time, messages in a multiset, a global step when nothing is left to do.
`Softswitch` is the machine: many threads with sender stacks, half-sent
multicasts and messages in flight, interleaved arbitrarily. Hardware idle
detection enters as a rule of that step relation, with the documented contract:
the calls return when all threads wait and no message is undelivered, and
nobody can send until all of them have returned. `Simulation.RunsRefine`
proves that each run of the machine is a run of the vertex program, and
`Liveness.AlwaysFinishes` that it comes to its end on all threads if the vertex program
cannot run for ever;
`Linking.CompiledRuns` that the tables of the compiler make such a machine;
`PThreads` is the event loop on its arrays. `Builds` is the interface of an
application: devices and edges are added one by one, then the graph is mapped, and
unless a limit is exceeded the result is such a machine.

**Protocols** (`Gals`, `HeatGals`, `AspGals`, `Fronts`, `BitVectors`, `AspSync`,
`HashMin`, `Sssp`, `Pressure`, `PressureShares`, `PressureTotals`, `ClockTree`, `Stops`,
`Answers`, `Reports`). Each application has a class whose
methods are its handlers, updating fields and word arrays in place, proved equal
to specification functions; and a theorem over every reachable world, whatever
the order of deliveries. `Stops` proves that no run of them but of the clock tree goes on
for ever, and `Answers` and `Reports` what the host is told: one answer of each device and
nothing else.
`Deployments` carries these results over to the threads of the machine, for heat all the
way from the edges that an application adds. `Outcomes` joins everything: a run of the
machine that goes on as long as it can finishes, and the host has then been told
the right answers.
`Instances` shows on the smallest graphs that what the theorems ask can be met, and
holds the concrete inputs for which the source falls short; `PairRun` follows one
run of the machine to its end.

## What the proofs bring to light

- `genKey` moves to a new beat and then chooses the smaller RAM for the next key.
  When the number of beats is 30 modulo 31, opening that beat has counted an
  indirection in it, and the counters still say one record when the next key is
  begun (`ProgRouters.ProgRouter.GenKey`). With 30 beats the returned key is right.
  With 61 and more it takes in the beat behind it, and is right exactly if that beat
  holds nothing but an indirection to no records, which depends on what the memory
  contained before: with 300 records the key is wrong whenever the size of the new
  beat does not happen to read as 1 (`Instances.SixtyOneBeats`). If the other RAM is
  smaller, the next key starts in a beat that counts a record nobody wrote
  (`Instances.ThirtyBeats`); such a record leaves the next key right only if it
  happens to be an indirection to no records (`ProgRouters.StrayRecord`). The compiler
  never gets there, because it sends at most sixteen multicasts to a board in one
  key (`Mesh.AlwaysClosable`).
- `numReceivers` is 16 bits wide, and nothing checks it: a longer list is read back
  only in part, and whole exactly if it is shorter than 65536 (`InTables.WholeIff`).
- `HostLink::store` does not advance its data pointer. It stores what it was given
  exactly if the data repeat every 15 words (`Uploads.StoresData`), so not 16
  different words (`Instances.SixteenWords`). The upload loop never passes more than 15.
- The shortest-path program stays correct in 32 bits exactly if no simple path,
  made longer by one edge, leaves the range (`Sssp.FitsExactly`). Two vertices with
  a road there and a road back can be enough to leave it (`Instances.RoadsFit`).
- In the pressure benchmark, the label returned by `opposite` is that of the
  opposite neighbour for 2 of the 26 directions only (`Pressure.OppositeOffsets`).
  Beads move to another neighbour than intended, and none is lost.
- In that benchmark an odd number of steps leaves out the beads that are given
  away in the last step. The reported total is that of the start in all runs
  exactly if the number of steps is even or no edge joins different initial
  pressures (`PressureTotals.ReportsExactly`); one bead next to an empty vertex is
  lost after one step (`Instances.OneStepLoses`).

## Model

| member | source | states |
|---|---|---|
| `RoutingRecords.StoredAppend` | include/POLite/ProgRouters.h:152-199 | a record written behind those of a beat extends what the beat decodes to by that record alone |
| `RoutingRecords.LookupExtend` | README.md:675-850 | a lookup that succeeds, with indirections that lead forward, keeps its answer when more beats are added behind it |
| `RoutingRecords.ResolveStep` | README.md:675-850 | the records of a key, with indirections to any beat of any RAM: those of its beats, then those of the key of its indirection; a key without beats has none |
| `RoutingRecords.LookupResolves` | README.md:675-850 | a lookup whose indirections lead forward in one RAM finds the records of the key |
| `RoutingRecords.KeyFields` | README.md:675-850 | RAM, beat pointer and length can be read back from the key made of them |
| `ProgRouters.ChainLookup` | include/POLite/ProgRouters.h:49-60 | looking up a chain of linked 31-beat blocks yields all its records in order, without the indirections |
| `ProgRouters.BlockInds` | include/POLite/ProgRouters.h:49-60 | a lookup of 31 beats meets exactly one indirection, which leads to the beats behind them; a shorter one meets none |
| `ProgRouters.StrayRecord` | include/POLite/ProgRouters.h:119-126 | a record in front of those of a key, which belongs to no key, leaves the key right if and only if it is an indirection to no records |
| `ProgRouters.ProgRouter.constructor` | include/POLite/ProgRouters.h:81-96 | a new router is between two keys |
| `ProgRouters.ProgRouter.NextBeat` | include/POLite/ProgRouters.h:35-61 | closing a beat and opening the next keeps the records added and all keys handed out, and links the chain at every 31st beat; it exits if and only if the table has no room for a beat |
| `ProgRouters.ProgRouter.AddIND` | include/POLite/ProgRouters.h:135-142 | the next chunk of a beat that has room becomes an indirection, whose key field is at the returned offset; nothing else changes |
| `ProgRouters.ProgRouter.SetIND` | include/POLite/ProgRouters.h:145-150 | exactly the four bytes of the key field change, and spell the key |
| `ProgRouters.ProgRouter.AddRR` | include/POLite/ProgRouters.h:174-184 | the records of the open key grow by exactly this record, read back by the documented layout; all closed keys stay |
| `ProgRouters.ProgRouter.AddURM1` | include/POLite/ProgRouters.h:187-199 | the same for a unicast record |
| `ProgRouters.ProgRouter.AddMRM` | include/POLite/ProgRouters.h:153-171 | the same for a multicast record, which takes two chunks of a beat |
| `ProgRouters.ProgRouter.GenKey` | include/POLite/ProgRouters.h:105-130 | if the beats are not 30 modulo 31: a fresh key that stands for exactly the records added since the last one, and a router ready for the next. If they are: a record is left behind in the counters, the next RAM and its open beat are as stated, older keys still decode, and the returned key is right if and only if there are 30 beats or the beat behind the key holds nothing but an indirection to no records. It exits if and only if the table has no room |
| `ProgRouters.ProgRouter.KeyDecodes` | README.md:675-850 | decoding any key handed out, from the bytes, following indirections, gives back its record sequence |
| `Mesh.TurnsAcyclic` | README.md:852-854 | along every turn that routes may take the rank of links grows, so link dependencies have no cycle |
| `Mesh.GroupNearer` | include/POLite/ProgRouters.h:306-322 | one hop brings all destinations of a group nearer, never leads back to the board, and only allows turns in dimension order |
| `Mesh.TreeDelivers` | include/POLite/ProgRouters.h:285-343 | the tree of routes delivers each destination exactly as often as it is given |
| `Mesh.TreeVisits` | include/POLite/ProgRouters.h:285-343 | it visits the boards on the routes to the destinations once each, and no other board |
| `Mesh.ProgRouterMesh.AddDestsFromBoardXY` | include/POLite/ProgRouters.h:285-343 | terminates; the network does for the returned key what the tree of routes says, at every board and mailbox; earlier keys still stand; only boards on the routes have changed, and no board is entered while its key is being built |
| `Mesh.ProgRouterMesh.BytesDeliver` | README.md:675-850 | the same holds when all routers read the bytes of their tables |
| `Mesh.AlwaysClosable` | include/POLite/PGraph.h:692-694 | no multicast made by the compiler closes a key with 30 beats modulo 31 |
| `Mesh.ProgRouterMesh.constructor` | include/POLite/ProgRouters.h:275-281 | a router for each board, all different, all between two keys |
| `Bitmaps.Bitmap.NextFreeWordFrom` | include/POLite/Bitmap.h:32-36 | the first word from the given one on that is not full |
| `Bitmaps.Bitmap.SetBit` | include/POLite/Bitmap.h:39-46 | exactly one more index is set, and the first free word is still known |
| `Bitmaps.Bitmap.GrabNextBit` | include/POLite/Bitmap.h:49-56 | the least index that was free, which is then set |
| `InTables.ReceiversWritten` | include/POLite/PDevice.h:382-399 | the softswitch reads back from header and overflow table the list that was written, for every header size including 0, up to the 16-bit count |
| `InTables.ReceiversFrame` | include/POLite/PDevice.h:382-399 | later additions do not disturb the lists already there |
| `InTables.WholeIff` | include/POLite/PGraph.h:542 | as long as the tables hold what was stored for the key, a list is read back whole if and only if its length fits in 16 bits |
| `InTables.ReceiverTables.FindKey` | include/POLite/PGraph.h:484-518 | terminates with the least key free on all receiving threads, which is then taken on exactly those threads |
| `InTables.ReceiverTables.StoreGroup` | include/POLite/PGraph.h:529-561 | the list of one group is stored under its key and readable up to the 16-bit count, all other lists are as before |
| `InTables.ReceiverTables.AddInTableEntries` | include/POLite/PGraph.h:522-563 | the least free key; it is meant for each group's receivers on that group's thread, the tables hold as many of them as a 16-bit count says, nothing known before has changed, so no two groups on a thread share a key |
| `PGraphs.DeviceAddrFields` | include/POLite/PDevice.h:51-59 | thread and local id can be read back from a valid device address |
| `PGraphs.MailboxGroups` | include/POLite/PGraph.h:646-654 | a multicast to a mailbox with this mask and key invokes exactly the receivers of the groups |
| `PGraphs.Gather` | include/POLite/PGraph.h:602-644 | the edges to one mailbox become groups, one for each thread, with the mask of exactly these threads |
| `PGraphs.ComputeTables` | include/POLite/PGraph.h:598-658 | the list of multicasts invokes exactly the wanted receivers, one mailbox each |
| `RoutingTables.SplitDests` | include/POLite/PGraph.h:568-594 | the edges of a pin, each once, sorted by thread: those on the board of the sender, and those on other boards |
| `RoutingTables.PGraph.AddReceivers` | include/POLite/PGraph.h:679-691 | keys for the receivers of a list, which is then understood by the receiving threads |
| `RoutingTables.PGraph.AddRoute` | include/POLite/PGraph.h:692-694 | a routing key for which the network delivers exactly the given multicasts |
| `RoutingTables.PGraph.AddPin` | include/POLite/PGraph.h:676-705 | the out-edge list of the pin does what the graph says, and earlier lists still do |
| `RoutingTables.PGraph.ComputeRoutingTables` | include/POLite/PGraph.h:662-707 | unless a thread has 65536 receivers or more for one pin: for every device and pin, following the out-edge list through mailboxes, routing bytes and in-tables invokes recv on exactly the multiset of destination and label of the graph's edges; compilation exits only when a key or table index does not fit in 16 bits or a routing table is full |
| `NodeGraphs.AddEdgeEdges` | include/POLite/Graph.h:65-69 | both kinds of adjacency lists have exactly one edge more |
| `NodeGraphs.NewNodeEdges` | include/POLite/Graph.h:49-56 | a new node brings no edges |
| `Placers.CostIsDistance` | include/POLite/Placer.h:351-366 | the cost, computed from connection counts of pairs of parts, is the sum over all edges of the Manhattan distance between the positions of their ends |
| `Placers.FewEdgesFit` | include/POLite/Placer.h:353-366 | the cost of every placement fits in 64 bits, given a bound on the number of edges |
| `Placers.SubgraphsSplit` | include/POLite/Placer.h:254-283 | every node of a graph is in exactly one of its subgraphs |
| `Placers.Placer.constructor` | include/POLite/Placer.h:428-463 | parts in range, subgraphs with the nodes and inner edges of each part, and counts that agree with the edges; for the direct and the breadth-first partitioner, parts within the size limit and full but for the last; for the direct one also in the order of the nodes; for the breadth-first one also by searches along the edges; for METIS, a part for each node if there are enough |
| `Placers.Placer.PartitionDirect` | include/POLite/Placer.h:175-184 | consecutive parts, all in range, none over the size limit, and all but the last full |
| `Placers.Placer.SearchFrom` | include/POLite/Placer.h:208-224 | a bounded search terminates and takes, of the nodes that can be reached from its root past unseen nodes, all within some number of hops and some of those one hop further, and only these; it stops before the part is full only if it has taken all that can be reached; taken nodes are in the current part |
| `Searches.TakenThrough` | include/POLite/Placer.h:212-221 | every node that a search takes, except its root, has an edge from a node that the same search takes, and had not been seen before |
| `Placers.Placer.PartitionBFS` | include/POLite/Placer.h:187-232 | terminates with every node in a part below width*height, no part over the size limit and all parts but the last full; the parts are made of such searches, each from the least node that is in no part yet, and each part is filled before the next is begun |
| `Placers.Placer.ComputeSubgraphs` | include/POLite/Placer.h:254-283 | subgraph p has the nodes of part p in order with their labels, and exactly the edges between them |
| `Placers.Placer.ComputeInterPartitionCounts` | include/POLite/Placer.h:286-303 | the matrix counts, for each pair of parts, the edges between them in either direction |
| `Placers.Placer.ComputeCost` | include/POLite/Placer.h:353-366 | the loop computes the cost function |
| `Placers.Placer.Swap` | include/POLite/Placer.h:369-378 | mapping and coordinates stay inverse to each other; two parts have changed places |
| `Placers.Placer.TrySwap` | include/POLite/Placer.h:381-394 | swaps exactly when that lowers the cost, which is then strictly lower; otherwise mapping, coordinates and cost are as they were |
| `Placers.Placer.RandomPlacement` | include/POLite/Placer.h:306-325 | a permutation of the parts over the mesh, with inverse coordinates, whatever the random numbers |
| `Placers.Placer.TrySwaps` | include/POLite/Placer.h:412-415 | of the swaps to the right, up and both, the first that lowers the cost is made, and no other; if none does, this position is settled |
| `Placers.Placer.Pass` | include/POLite/Placer.h:408-418 | a pass without change means that no swap that is tried lowers the cost |
| `Placers.Placer.Search` | include/POLite/Placer.h:403-418 | terminates in a permutation that no tried swap improves |
| `Placers.Placer.Place` | include/POLite/Placer.h:398-425 | ends with a permutation that no tried swap improves, which is one of the attempts just made and has the least cost of them; every attempt is a permutation that no tried swap improves |
| `Mappers.Mapper.MapThread` | include/POLite/PGraph.h:830-844 | the devices of one thread get its addresses, in both directions; fails exactly with 8192 devices or more |
| `Mappers.Mapper.MapBox` | include/POLite/PGraph.h:811-845 | the devices of a mailbox and its 64 threads are mapped one to one, every device on the thread of its part, and the parts are those of the partitioner; no other device or thread is touched, which is why boards may be mapped in parallel |
| `Mappers.Mapper.MapBoard` | include/POLite/PGraph.h:803-846 | the same for the mailboxes of a board: every device is on the mailbox where its part stands in a placement of the parts that no tried swap improves and that is the cheapest of eight; the parts are those of the partitioner |
| `Mappers.Mapper.Map` | include/POLite/PGraph.h:776-848 | the same for all boards: the devices are mapped one to one, every device on the board where its part stands in such a placement and there on such a mailbox and thread, for any partitioner at each of the three levels; fails only if a thread gets 8192 devices or more |
| `Placings.BoardsNear` | include/POLite/PGraph.h:792-801 | for a graph so mapped, the distances between the boards of the ends of all edges add up to the cost of the placement, which no tried swap lowers and no attempt undercuts |
| `Placings.BoxesNear` | include/POLite/PGraph.h:803-809 | the same for the mailboxes of one board and the edges inside it |
| `Mappers.Mapper.MappingOf` | include/POLite/PGraph.h:799-848 | device addresses and thread tables are inverse bijections onto the boards in use, as the routing compiler and the runtime demand |
| `Partitions.WordAlign` | include/POLite/PGraph.h:55-61 | the least multiple of a word that is not less |
| `Partitions.CacheAlign` | include/POLite/PGraph.h:64-66 | the least multiple of a cache line that is not less |
| `Partitions.AllocatePartition` | include/POLite/PGraph.h:222-365 | succeeds if and only if the sizes allow it; five disjoint, word-aligned regions, large enough, inside the thread's share of SRAM and DRAM and below its stack |
| `Partitions.ThreadsApart` | include/POLite/PGraph.h:322-328 | regions of different threads of one memory are disjoint |
| `Partitions.TablesApart` | include/POLite/PGraph.h:325-328 | no region reaches into the board's routing tables |
| `Partitions.InitialiseOut` | include/POLite/PGraph.h:396-409 | the array of a thread is the lists of its pins one after the other, and each pin base is the start of its list in 16 bits |
| `Partitions.ArrayMeans` | include/POLite/PDevice.h:342-348 | a pin means the same when its list is read from that array, as long as its start fits in 16 bits |
| `Uploads.BootLoader.Handle` | apps/boot/boot.c:50-78 | a request sets the address register, or stores all its words from there and moves the register behind them |
| `Uploads.HostLink.SetAddr` | hostlink/HostLink.cpp:614-624 | one request more for this core, with the address |
| `Uploads.HostLink.Store` | hostlink/HostLink.cpp:627-642 | requests of at most 15 words each, every one from the beginning of the data |
| `Uploads.StoresData` | hostlink/HostLink.cpp:627-642 | the words stored are the words given if and only if these repeat every 15 words |
| `Uploads.Uploader.Feed` | include/POLite/PGraph.h:942-957 | one turn of a core sends its next chunk or moves to its next thread, and leaves less to do |
| `Uploads.Uploader.WriteRAM` | include/POLite/PGraph.h:911-962 | terminates, having sent each core of the mesh its sixteen heaps in order, in chunks, behind what it was sent before |
| `Uploads.ChunksHold` | apps/boot/boot.c:50-59 | the chunks of a heap, stored with the moving address register, leave exactly its bytes at its base |
| `Uploads.UploadCorrect` | include/POLite/PGraph.h:977-985 | however the boot loaders of all cores interleave, and whatever kind each has come to: a core that has handled its requests has written the heaps of all kinds of all its threads, and no byte outside the heaps has changed |
| `Uploads.Write` | include/POLite/PGraph.h:977-985 | the heaps of all five kinds are sent to each core of the mesh, one kind after the other |
| `Uploads.LayoutsFit` | include/POLite/PGraph.h:979-985 | heaps of all kinds at the places that the allocation gives them meet the assumptions of the upload: no two of them meet |
| `Uploads.KindsApart` | include/POLite/PGraph.h:979-985 | regions of different kinds or different threads of one memory are disjoint |
| `OutMemory.SendersRead` | include/POLite/PDevice.h:301-349 | for every compiled graph: from the bytes that the boot loaders have written, the list that a device finds from the start of a pin on means the edges of that pin, wherever it starts below 65536 |
| `Refinement.ThreadsUpdate` | include/POLite/PDevice.h:299-406 | what all threads have still to deliver changes by exactly what one thread gains and loses |
| `Simulation.DetectSteps` | README.md:554-573 | idle detection is a global step of the application if some thread is active, and the end of the run if none is |
| `Rounds.RoundBefore` | include/POLite/PDevice.h:361-376 | before the detection that ends the run there is an earlier one, with no other between them, after which each step handler was called once more, in the state the device had at that detection, and returned false |
| `Simulation.MoveSimulated` | include/POLite/PDevice.h:299-419 | every move of a thread keeps the invariant, and is one step of the application or invisible to it |
| `Simulation.RunsRefine` | include/POLite/PDevice.h:265-423 | under every interleaving of the threads, each state of a run of the machine stands for a reachable world of the vertex program |
| `Simulation.SendersSafe` | include/POLite/PDevice.h:202-219 | the sender stack has no duplicates, is the set of marked devices, contains all devices ready to send, and fits its array |
| `Simulation.StepsSafe` | include/POLite/PDevice.h:361-376 | a device whose step handler is still to be called does not want to send |
| `Simulation.DetectsSafe` | README.md:1195-1211 | step handlers start only when no device wants to send, no multicast is half sent and no message is undelivered |
| `Simulation.ReceivedOnTime` | include/POLite/PDevice.h:380-394 | every message is received in the time step in which it was sent |
| `Endings.CanProceed` | include/POLite/PDevice.h:300-419 | a run of a vertex program that has not asked every device for its reply can go on |
| `Simulation.FinishSafe` | include/POLite/PDevice.h:414-419 | finish handlers run only after a round, from one detection of idleness to the next, in which the step handler of every device on every thread was called and returned false; to the application the run ends right after such a time step |
| `Simulation.NeverStuck` | doc/PIP-0013-idle-detection.md:133-141 | until all threads have finished, some thread can move or idleness is detected |
| `Liveness.StepFalls` | include/POLite/PDevice.h:265-423 | every step of the machine but falling asleep and waking up lowers the rank of the vertex program or, where the program does not move, the load of the threads and the network |
| `Liveness.ComesToRest` | include/POLite/PDevice.h:265-423 | under every interleaving, if the vertex program cannot run for ever, the time comes when threads do nothing but fall asleep and wake up |
| `Liveness.NoEndlessRun` | include/POLite/PDevice.h:300-406 | and if a thread that a message has woken takes one before it sleeps again, as the event loop does, no run goes on for ever |
| `Liveness.AlwaysFinishes` | include/POLite/PDevice.h:265-423 | hence every such run that goes on as long as it can comes to a state in which all threads have finished |
| `PThreads.PThread.SendersQueuePop` | include/POLite/PDevice.h:206-211 | the top of the stack, no longer marked |
| `PThreads.PThread.SendersQueueAdd` | include/POLite/PDevice.h:213-219 | the device is on the stack once, and there was room for it |
| `PThreads.PThread.Initialise` | include/POLite/PDevice.h:284-294 | the loop over the init handlers |
| `PThreads.PThread.TrySend` | include/POLite/PDevice.h:301-358 | the send half of the event loop does one of the moves of the machine |
| `PThreads.PThread.StepDevices` | include/POLite/PDevice.h:365-375 | the loop over the step handlers |
| `PThreads.PThread.Receive` | include/POLite/PDevice.h:379-405 | the loop over the receivers of a message |
| `PThreads.PThread.FinishDevices` | include/POLite/PDevice.h:412-419 | the loop over the finish handlers is the specification function, states and messages to the host alike |
| `PThreads.InitAllMoves` | include/POLite/PDevice.h:284-294 | that loop is a run of single moves of the machine |
| `PThreads.StepAllMoves` | include/POLite/PDevice.h:365-375 | that loop is a run of single moves of the machine |
| `PThreads.ReceiveAllMoves` | include/POLite/PDevice.h:387-404 | that loop is a run of single moves of the machine |
| `PThreads.FinishAllMoves` | include/POLite/PDevice.h:412-419 | the loop over the finish handlers, with its messages to the host, is a run of single steps of the machine |
| `Linking.CompiledLegs` | include/POLite/PDevice.h:301-349 | sending along a compiled out-edge list puts exactly one message for each edge of the pin into the network, all with the payload of the one send handler call |
| `Linking.CompiledRuns` | include/POLite/PGraph.h:776-871 | compiled tables and mapping make a machine that meets the assumptions of the refinement |
| `Builds.Builder.NewDevice` | include/POLite/PGraph.h:198-202 | the graph has one device more, without edges |
| `Builds.Builder.AddLabelledEdge` | include/POLite/PGraph.h:216-219 | the out-edges of one device get exactly one edge more |
| `Builds.Builder.Map` | include/POLite/PGraph.h:776-871 | mapping and compiling the graph as added: the devices are placed one to one, on the boards and mailboxes of their placements, and, unless a thread has 65536 receivers or more for one pin, the tables mean the edges; exits only if a thread gets too many devices or a limit of the tables is exceeded |
| `Builds.LinkedRuns` | include/POLite/PGraph.h:776-871 | such tables make a machine that runs any application with that graph |
| `Gals.AfterSend` | apps/POLite/heat-gals/Heat.h:60-67 | what has been said and not been taken in stays equal to what is in the air when a vertex speaks |
| `Gals.AfterReceive` | apps/POLite/heat-gals/Heat.h:70-82 | and when a message is taken in |
| `Gals.Full` | apps/POLite/heat-gals/Heat.h:48 | a vertex that has as many messages as in-edges has heard from every neighbour, and no message for that step is in flight |
| `HeatGals.HeatDevice.CallChange` | apps/POLite/heat-gals/Heat.h:43-57 | the handler in place is the specification function of the whole-run theorems |
| `HeatGals.HeatDevice.CallSend` | apps/POLite/heat-gals/Heat.h:60-67 | the handler in place is the specification function |
| `HeatGals.HeatDevice.CallRecv` | apps/POLite/heat-gals/Heat.h:70-82 | the handler in place is the specification function |
| `HeatGals.StampNear` | apps/POLite/heat-gals/Heat.h:70-82 | every message in flight is for its receiver's current or next step |
| `HeatGals.HeatCorrect` | apps/POLite/heat-gals/Heat.h:42-92 | under every delivery order: neighbouring clocks differ by at most 1; when nothing is left to do all devices are at time 0 with the values of the synchronous iteration, and no message to the host says anything else |
| `HeatGals.HeatAverages` | apps/POLite/heat-gals/Heat.h:43-57 | after any number of steps of a vertex that is not constant, its fan-in times its temperature is the sum of the temperatures of its neighbours one step before; a constant vertex keeps its own |
| `HeatGals.HeatBounded` | apps/POLite/heat-gals/Heat.h:42-92 | in every reachable world every temperature lies between any bounds of the initial ones |
| `Fronts.FrontWalk` | apps/POLite/asp-sync/ASP.h:53-77 | a source in the front of k hops has a walk of at most k hops |
| `Fronts.WalkFront` | apps/POLite/asp-sync/ASP.h:53-77 | a walk puts its source in the front of its length |
| `Fronts.DistShortest` | apps/POLite/asp-sync/ASP.h:1-3 | the distance is the length of a walk, and none is shorter |
| `BitVectors.CountBits` | apps/POLite/asp-gals/ASP.h:78-82 | the loop over the bits of a word adds the time once for each bit and counts as many down, with the wrap-around of 32 bits |
| `BitVectors.OrInto` | apps/POLite/asp-gals/ASP.h:108-109 | the words become the union, and other words stay |
| `AspGals.ASPDevice.Proceed` | apps/POLite/asp-gals/ASP.h:70-91 | moving on in place over the three word arrays is the specification function on sets |
| `AspGals.ASPDevice.CallChange` | apps/POLite/asp-gals/ASP.h:57-94 | the handler in place is the specification function |
| `AspGals.ASPDevice.CallRecv` | apps/POLite/asp-gals/ASP.h:106-118 | the handler in place is the specification function |
| `AspGals.DoneEnough` | apps/POLite/asp-gals/ASP.h:59-68 | a vertex that stopped early has told its neighbours all they need |
| `AspGals.AspCorrect` | apps/POLite/asp-gals/ASP.h:57-118 | on a symmetric graph in which every source reaches every vertex (within 65535 hops, the range of the 16-bit time): what a vertex knows is the front of its step; when nothing is left to do every vertex is done and its sum is that of its distances from all sources |
| `AspSync.ASPDevice.CallStep` | apps/POLite/asp-sync/ASP.h:53-77 | the step handler in place is the specification function |
| `AspSync.AspCorrect` | apps/POLite/asp-sync/ASP.h:35-83 | although vertices send only on change: after k steps each knows exactly the sources within k hops; in the end, all sources that reach it, and the sum of their distances |
| `HashMin.HashMinDevice.CallRecv` | apps/POLite/hashmin-sync/HashMin.h:27-32 | the handler in place is the specification function |
| `HashMin.HashMinDevice.CallStep` | apps/POLite/hashmin-sync/HashMin.h:33-41 | the handler in place is the specification function |
| `HashMin.MinCorrect` | apps/POLite/hashmin-sync/HashMin.h:20-41 | a vertex always holds the number of some vertex that reaches it, and in the end the least one |
| `Sssp.SSSPDevice.CallRecv` | apps/POLite/sssp-async/SSSP.h:27-33 | the handler in place is the specification function, with the wrap-around of 32 bits |
| `Sssp.SsspCorrect` | apps/POLite/sssp-async/SSSP.h:18-39 | with non-negative weights: every finite distance is the length of a real path, no unreached vertex sends, and when nothing is left to do no path is shorter |
| `Sssp.StepLowers` | apps/POLite/sssp-async/SSSP.h:20-34 | every step lowers, lexicographically: sum of distances, stage of the run, devices ready to send, messages in flight |
| `Sssp.NoInfiniteRun` | apps/POLite/sssp-async/SSSP.h:20-34 | no sequence of worlds that begins in one that meets the invariant goes on for ever |
| `Sssp.FitsExactly` | apps/POLite/sssp-async/SSSP.h:28-30 | no run ever makes a distance negative by overflow if and only if no simple path with one more edge exceeds the 32-bit range |
| `Pressure.PressureDevice.CallRecv` | apps/POLite/pressure-sync/Pressure.h:74-86 | the handler in place is the specification function, for any coin |
| `Pressure.PressureDevice.CallStep` | apps/POLite/pressure-sync/Pressure.h:88-101 | the handler in place is the specification function |
| `Pressure.OppositeOffsets` | apps/POLite/pressure-sync/Pressure.h:45-49 | opposite is its own inverse, and names the opposite neighbour if and only if the direction is 6 or 19 |
| `Pressure.PressCorrect` | apps/POLite/pressure-sync/Pressure.h:59-106 | whatever the coins and the delivery order: pressures are never negative; beads held and beads in move vectors are conserved in every reachable world; the final pressures add up to the initial total for an even number of steps, and are short of the beads in the last move vectors for an odd one |
| `PressureShares.SharesDecided` | apps/POLite/pressure-sync/Pressure.h:74-82 | for any limit, under every delivery order, whenever nothing is left to do in a phase of sharing: if the coin says yes from that difference on, a vertex has given a bead back along every in-edge whose sender showed less by the limit and 25 more; if it says no below, along none whose sender showed less by less than the limit. With a limit of 26 these are 51 and 26 beads; the coin of the source says yes from 27 on |
| `PressureTotals.OddLoses` | apps/POLite/pressure-sync/Pressure.h:59-106 | for every setup with an odd number of steps and an edge between different pressures there is a run, for some coins, that ends with fewer beads reported than there were |
| `PressureTotals.ReportsExactly` | apps/POLite/pressure-sync/Pressure.h:59-106 | all runs for all coins report the initial total if and only if the number of steps is even or no edge joins different initial pressures |
| `ClockTree.ClockTreeDevice.CallSend` | apps/POLite/clocktree-async/ClockTree.h:41-48 | the handler in place is the specification function |
| `ClockTree.ClockTreeDevice.CallRecv` | apps/POLite/clocktree-async/ClockTree.h:51-65 | the handler in place is the specification function |
| `ClockTree.PhasesGrow` | apps/POLite/clocktree-async/ClockTree.h:41-65 | in the first wave no vertex goes back to an earlier phase, and each send on a pin passes the phase that allows it |
| `ClockTree.SendsOnce` | apps/POLite/clocktree-async/ClockTree.h:41-65 | in any run of the first wave, a vertex that has sent on a pin never sends on it again |
| `ClockTree.AllAcked` | apps/POLite/clocktree-async/ClockTree.h:55-60 | when the root has told the host, every vertex is past its tick and its acknowledgement |
| `ClockTree.EdgesOnce` | apps/POLite/clocktree-async/ClockTree.h:35-76 | in any run of the first wave up to the message to the host: every vertex with children has ticked exactly once and the others never, every vertex but the root has acknowledged exactly once, so each edge of the tree has carried exactly one tick and one acknowledgement |
| `ClockTree.ClockCorrect` | apps/POLite/clocktree-async/ClockTree.h:35-76 | idleness cannot come back before the root has sent to the host, and the host is told the number of vertices of the tree |
| `Stops.HeatStops` | apps/POLite/heat-gals/Heat.h:42-92 | no run of heat goes on for ever, under any order of deliveries |
| `Stops.AspStops` | apps/POLite/asp-gals/ASP.h:57-118 | no run of the search in neighbourhoods goes on for ever, under any order of deliveries |
| `Stops.SyncStops` | apps/POLite/asp-sync/ASP.h:35-83 | no run of the search in global steps goes on for ever, under any order of deliveries |
| `Stops.MinStops` | apps/POLite/hashmin-sync/HashMin.h:20-41 | no run of least numbers goes on for ever, under any order of deliveries |
| `Stops.PressStops` | apps/POLite/pressure-sync/Pressure.h:59-106 | no run of pressure goes on for ever, whatever the coins and the order of deliveries |
| `Answers.AllTold` | include/POLite/PDevice.h:412-419 | for every application whose handlers never choose the host pin: in every reachable world the messages to the host are exactly the replies of the devices that have been asked, each once |
| `Answers.ReportedSum` | apps/POLite/sssp-async/Run.cpp:73-85 | once all have been asked, any number summed over the messages to the host is that number summed over the answers of all devices |
| `Reports.SsspReports` | apps/POLite/sssp-async/SSSP.h:35-38 | the host is told the shortest distance of each device that has been asked, once, and nothing else; in the end its sum is that of all distances |
| `Reports.MinReports` | apps/POLite/hashmin-sync/HashMin.h:42-45 | the host is told the least number that reaches each device that has been asked, once, and nothing else; in the end its sum is that of all of them |
| `Reports.SyncReports` | apps/POLite/asp-sync/ASP.h:79-83 | the host is told, of each device that has been asked, once, the sum of the distances of the sources that reach it, in 32 bits, and nothing else |
| `Reports.AspReports` | apps/POLite/asp-gals/ASP.h:126-130 | the host is told, of each device that has been asked, once, the sum of its distances from all sources, in 32 bits, and nothing else |
| `Reports.HeatReports` | apps/POLite/heat-gals/Heat.h:87-92 | the host is told number and final temperature of each device that has been asked, once, and nothing else |
| `Reports.PressureReports` | apps/POLite/pressure-sync/Run.cpp:75-81 | the host is told the pressure of each device that has been asked, once, and nothing else; once all have been asked, after an even number of steps, what the host is told adds up to the initial total |
| `Reports.SsspToHost` | apps/POLite/sssp-async/Run.cpp:73-85 | when all threads of the machine have finished, what it has sent the host is one distance for each device |
| `Reports.PressureToHost` | apps/POLite/pressure-sync/Run.cpp:75-81 | when all threads of the machine have finished, it has sent the host one message for each device, and after an even number of steps they add up to the initial total |
| `Instances.AspPair` | apps/POLite/asp-gals/ASP.h:28-47 | two vertices that are each other's neighbours, with a source each, meet what the theorem asks for |
| `Instances.ThirtyBeats` | include/POLite/ProgRouters.h:105-130 | 150 records make a key of 30 beats, which is right; the next key will be built in the other RAM, in a beat that counts a record never written |
| `Instances.SixtyOneBeats` | include/POLite/ProgRouters.h:105-130 | 300 records make a key of 61 beats, which is wrong unless the size of the beat behind it reads as 1, and right if it does and the indirection there has a key without beats |
| `Instances.OneStepLoses` | apps/POLite/pressure-sync/Pressure.h:59-106 | two vertices that are neighbours in all directions, with one bead: a run of one step ends with no bead reported |
| `Instances.RoadsFit` | apps/POLite/sssp-async/SSSP.h:28-30 | two roads stay within 32 bits if and only if the way there and back does or the way there has no end |
| `Instances.PairRuns` | include/POLite/PGraph.h:776-871 | two devices on one thread, with a list of out-edges each: a machine that runs any application on the pair |
| `PairRun.PairEnds` | include/POLite/PDevice.h:265-423 | a run of such a machine from the start until its thread has been told that it is over |
| `Deployments.OverIsDone` | include/POLite/PDevice.h:408-419 | once a thread leaves the event loop, the devices of all threads are those of a finished run of the vertex program, which ends after a time step in which all step handlers return false |
| `Deployments.HeatOnThreads` | apps/POLite/heat-gals/Heat.h:42-92 | heat on the machine, under every interleaving of its threads, ends with the synchronous iteration |
| `Deployments.SsspOnThreads` | apps/POLite/sssp-async/SSSP.h:18-39 | shortest paths on the machine end with shortest distances |
| `Deployments.AspOnThreads` | apps/POLite/asp-gals/ASP.h:57-118 | breadth-first search on the machine ends with the sums of the distances |
| `Deployments.AspSyncOnThreads` | apps/POLite/asp-sync/ASP.h:35-83 | so does its synchronous form, on every graph, with all the sources that reach a device |
| `Deployments.MinOnThreads` | apps/POLite/hashmin-sync/HashMin.h:20-41 | connected components on the machine end with the least number that reaches a device |
| `Deployments.PressureOnThreads` | apps/POLite/pressure-sync/Pressure.h:59-106 | discrete pressure on the machine reports all beads after an even number of steps |
| `Deployments.ClockOnThreads` | apps/POLite/clocktree-async/ClockTree.h:35-76 | in the first wave, when the machine detects idleness the root has sent to the host, and any message to the host is the number of vertices |
| `Deployments.Deploy` | include/POLite/PGraph.h:776-871 | a graph added edge by edge, mapped and compiled, is a machine for every application and all initial states, unless a thread has 65536 receivers or more for one pin; exits only if a thread gets too many devices or a limit of the tables is exceeded |
| `Deployments.DeployHeat` | apps/POLite/heat-gals/Heat.h:42-92 | for a heat graph that is so deployed, every run of the machine that is over has the temperatures of the synchronous iteration |
| `Outcomes.HeatOutcome` | apps/POLite/heat-gals/Heat.h:42-92 | a run of heat on the machine that goes on as long as it can finishes on all threads, and the host has then been sent number and temperature of each device, as the synchronous iteration has them, and nothing else |
| `Outcomes.SsspOutcome` | apps/POLite/sssp-async/Run.cpp:73-85 | so does one of shortest paths, with the shortest distances |
| `Outcomes.AspOutcome` | apps/POLite/asp-gals/ASP.h:57-130 | one of the search in neighbourhoods, with the sums of the distances |
| `Outcomes.SyncOutcome` | apps/POLite/asp-sync/ASP.h:35-83 | one of the search in global steps, with the sums of the distances of the sources that reach each device |
| `Outcomes.MinOutcome` | apps/POLite/hashmin-sync/HashMin.h:20-45 | one of least numbers, with the least number that reaches each device |
| `Outcomes.PressureOutcome` | apps/POLite/pressure-sync/Run.cpp:75-81 | one of pressure with an even number of steps, with as many messages as devices, which add up to all beads |

## Left out

- ProgRouters.ProgRouter.NextBeat: the previous indirection is an offset into the table; the raw pointer of the source agrees with it only as long as the table is not reallocated.
- ProgRouters.ProgRouter.AddIND: the branch for a beat without a free chunk is not modelled; its only caller has just opened an empty beat.
- Builds.Builder.AddLabelledEdge: the pin is not checked, as in the source; `Deployments.Deploy` asks for pins below the number of pins.
- InTables.ReceiverTables.AddInTableEntries: lists of 65536 receivers or more are cut to what the 16-bit count says; the meaning of the tables is stated for graphs and mappings in which no thread has as many receivers for one pin.
- PGraphs.Gather: the array of receiver groups that the source reuses is a sequence made anew for each mailbox.
- RoutingTables.PGraph.ComputeRoutingTables: edge labels are values of any type; the special case of labels without content is not separate.
- RoutingTables.SplitDests: the library sort is any sort into descending threads; the order that the source's comparison function defines is not one that the C standard supports, and no other consequence of it is used.
- Placers.Placer.PartitionMetis: METIS is an arbitrary function into the range of the parts, and random numbers are arbitrary choices.
- Mappers.Mapper.Map: boards are mapped one after the other, not in parallel; that mapping one board touches nothing else is proved.
- Partitions.AllocatePartition: sizes are unbounded integers; the source's 32-bit sums agree with them below 4 GB.
- Uploads.Uploader.WriteRAM: heap sizes are multiples of four, as the source asserts when it allocates them; the requests to one core arrive in order.
- Uploads.Write: the routing tables, which are written next by the same commands, and the flush of the send buffer.
- Uploads.UploadCorrect: caches and the partition-interleaving translation are outside the model; addresses name bytes of a memory shared by 512 threads.
- Simulation.RunsRefine: idle detection, message delivery and the two memories of a mailbox are rules of the step relation, not derived from the hardware.
- Liveness.AlwaysFinishes: that a thread woken by a message takes one before it sleeps again is asked of the run; it holds as long as tinselIdle returns without idleness only when a message can be received, which the event loop then receives.
- PressureShares.SharesDecided: between the two bounds what is given depends on the order of deliveries, since every bead given lowers the next difference.
- PThreads.PThread.TrySend: whether the mailbox can send is an input of the method; the endless loop around it is a run of the machine.
- HeatGals.HeatCorrect: temperatures are real numbers, without rounding; every vertex has between 1 and 255 in-edges, because the counters have 8 bits and the source divides by the fan-in.
- AspGals.AspCorrect: sources are within 65535 hops of every vertex; beyond that the 16-bit time that is added to the sums wraps around.
- AspSync.AspCorrect: no vertex learns anything after 65536 steps; beyond that the 16-bit time that is added to the sums wraps around.
- Pressure.PressCorrect: pressures are unbounded; the random generator and its floating-point comparison are an arbitrary coin: any function of the seed and the difference. That a run loses beads after odd steps is shown for one such coin, which depends on the setup.
- ClockTree.ClockCorrect: the first wave only; the acknowledgement counts are not reset, so later waves do not count the vertices again.
- Deployments.Deploy: there are few enough edges for their costs to fit in 64 bits; the partition sizes and the upload of what is compiled are separate results.
- OutMemory.SendersRead: pin bases in the vertex memory, and the bytes of in-edge tables, depend on the types of states and labels and are not laid out.
- Seq growth other than appending: `Seq::ensureSpaceFor` copies one element too few and is not modelled.
- URM2 records, which the compiler never makes, and messages of a routing key written by hand.
- Two hardware features: mailbox buffers with their reference counts, and back-pressure of the network.
- The host program: what it does with the messages it is sent, timing, statistics, performance counters, memory release, environment variables.
- Boot loader commands for instruction memory, loading and starting.
- Sockets, daemons, JTAG, DMA, power control, the software simulator and the remaining example applications.
