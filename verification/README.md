# Verified model of udp-server

`udp-server` relays UDP messages between the clients of a game room. Around that relay it has a JSON-RPC
server with parallel batches, a generated JSON-RPC client with a circuit breaker, a batch dispatcher, a
request logger that prints curl commands and a structural hasher, and a value printer for its logs. This
project models the parts of it whose behaviour cannot be read off one function, and proves what they keep
over every run, every interleaving or every value.

Verify everything with `dafny verify dfyconfig.toml`.

| file | models | main results |
|---|---|---|
| `Breaker.dfy`, `BreakerRuns.dfy` | the circuit breaker as a mutable object and as a machine with any number of overlapping requests | conservation of requests, exact recovery rule, trip window, default trip rule, stale reports invisible if and only if there is no rolling interval |
| `Batch.dfy`, `BatchRace.dfy` | the parallel batch as feeder, channel and workers, once with atomic appends and once with the append split into its three memory accesses | termination, deadlock if and only if no worker, permutation of the sequential answers; what the race keeps, and lossless if and only if one worker or at most one id |
| `Store.dfy`, `Rooms.dfy`, `Session.dfy`, `Service.dfy` | the TTL store, room keys, rooms, and the handlers on the heap | presence characterised over all histories, one key per room, exactly when a message is relayed and to whom, talking clients stay and silent ones go, removals exact and in order |
| `Heaps.dfy`, `Printer.dfy` | values and heaps in which pointers, slices and maps are references to objects, and objects can share a machine address; the printer as a machine with a stack of tasks | |
| `Trace.dfy`, `Coverage.dfy`, `Nesting.dfy`, `Balance.dfy`, `Brackets.dfy`, `Halting.dfy`, `Ending.dfy` | one invariant of the machine each, and what follows for whole runs | only what is reached is shown; all that is reached is shown, as long as different pointers have different addresses and no list is cut short under a depth limit; no object inside its own expansion; brackets; divergence; termination |
| `Rendering.dfy` | what a reader sees: the text of a value, by recursion over what it is made of | the print-out of a value without shared addresses is its text; in every print-out each value stands as it should |
| `Printing.dfy`, `PrintingExamples.dfy`, `Viewer.dfy` | the theorems about print-outs, values at which their conditions are not necessary, and the mutable printer that refines the machine | printing ends if no loop of pointers and nothing that contains itself is reached, and brackets are properly nested if no list of more than 16 elements is reached; as long as different pointers have different addresses, only then |
| `Curl.dfy` | the curl printer and a POSIX word splitter | the printed command reads back to exactly its words |
| `Hasher.dfy`, `HasherLaws.dfy` | the walker with its shared hash object, and the hash as a function | refinement; independence of map order (and slice order with sets) at any depth; with a digest that has no collisions, dependence on every element, key, value and field |
| `Dispatch.dfy` | the client batch call and its handlers | every handler exactly once on failure, last reply on success |
| `HexPointer.dfy` | the printer of pointer values | the digits read back to the number |
| `Wrappers.dfy` | options, set sizes, sums, permutations | |

Conventions. Clock readings are parameters. Each method of a class that the source guards with a mutex, and
each handler call of the service, is one atomic step. Specification functions describe a step on values
(`Breaker.MachineStep`, `Session.Step`, `Hashing.Visit`, `Printer.Do`); the methods of the classes are proved equal to
them, and the theorems about runs are proved about them.

Points where the code differs from what one would expect, and the model follows the code:

* An unlocked append in the parallel batch can lose answers: `BatchRace.LosingRun` is a complete run with any
  number of ids and two or more workers that delivers one answer.
* A parallel limit of zero blocks a non-empty batch forever (`Batch.BlocksIffNoWorker`).
* A batch that is too large gets an empty list: its error response has no id and is dropped
  (`Batch.DoBatch`).
* With a rolling interval a stale report can move the next roll-over (`BreakerRuns.RollingCounterexample`).
* A read replaces the deadline of a row even if it lay in the future (`Store.MemoryDb.GetData`).
* The printer does not end on a slice or a map that contains itself, unless a depth limit is set: only pointers
  are kept in its table (`Printing.SelfContainingNeverEnds`). Nor does it end on a pointer that leads to itself
  through pointers and interfaces alone (`Halting.FollowsForEver`).
* The printer leaves a bracket open and its depth raised after a list of more than 16 elements
  (`Printing.BracketsNestIffNothingCut`). With a depth limit the raised depth can hide later parts, even a
  loop of pointers on which the printer would otherwise not end (`PrintingExamples.RaisedDepthHidesLoop`).
* The table of the printer is keyed by machine addresses, and a struct and its first field have one address. After
  a pointer to the first field, a pointer to the struct one level deeper is taken for one already shown, and
  whatever else is in the struct is not shown (`PrintingExamples.SharedAddressHides`).
* On a failed client batch, a request whose identifier is repeated later in the list is not served
  (`Dispatch.FailureReachesTheLast`).

## Model

| member | source | states |
|---|---|---|
| Counters.Counter.OnRequest | pkg/clients/udpGameServer/cb/count.go:11-13 | one more request, modulo 2^32, the other four fields unchanged |
| Counters.Counter.OnSuccess | pkg/clients/udpGameServer/cb/count.go:15-20 | one more success and consecutive success, consecutive failures reset |
| Counters.Counter.OnFailure | pkg/clients/udpGameServer/cb/count.go:22-27 | one more failure and consecutive failure, consecutive successes reset |
| Counters.Counter.Clear | pkg/clients/udpGameServer/cb/count.go:29-36 | all five fields zero |
| Breaker.Configure | pkg/clients/udpGameServer/cb/breaker.go:29-48 | usable settings are kept, others replaced by the defaults, and the outcome is always a valid configuration |
| Breaker.CircuitBreaker.constructor | pkg/clients/udpGameServer/cb/breaker.go:24-56 | a new breaker is closed, in generation 1, with the configured settings and cleared counters |
| Breaker.CircuitBreaker.ToNewGeneration | pkg/clients/udpGameServer/cb/breaker.go:197-214 | whole new state: next generation, cleared counters, the deadline of the current state |
| Breaker.CircuitBreaker.ChangeState | pkg/clients/udpGameServer/cb/breaker.go:184-195 | whole new state: nothing when the state is the same, otherwise a new generation in the new state |
| Breaker.CircuitBreaker.CurrentState | pkg/clients/udpGameServer/cb/breaker.go:169-182 | takes exactly the transition that the clock makes due, and returns the state and generation after it |
| Breaker.CircuitBreaker.BeforeRequest | pkg/clients/udpGameServer/cb/breaker.go:112-125 | the object takes the machine's admission step and gives its verdict |
| Breaker.CircuitBreaker.AfterRequest | pkg/clients/udpGameServer/cb/breaker.go:127-167 | the object takes the machine's report step, in whatever state and generation it arrives |
| Breaker.CircuitBreaker.Interleave | pkg/clients/udpGameServer/cb/tscb.go:25-35 | any sequence of admissions, reports and reads by other callers is a run of the machine |
| Breaker.CircuitBreaker.Execute | pkg/clients/udpGameServer/cb/breaker.go:80-110 | an admitted call reports exactly once, with its own generation, whether request, success check or fallback return or panic; a rejected one never reports; what the caller gets in each case |
| BreakerRuns.RunFollowsMachine | pkg/clients/udpGameServer/cb/breaker.go:112-214 | the bookkeeping of tokens and logs never influences the machine |
| BreakerRuns.CallIsValidRun | pkg/clients/udpGameServer/cb/breaker.go:80-110 | an admission, any valid run of others that leaves the token, and the report are a valid run that takes one token of the generation and returns one |
| BreakerRuns.StepKeepsInv | pkg/clients/udpGameServer/cb/breaker.go:112-214 | every enabled step keeps the invariant on history, tokens, deadlines and counters, and moves along an allowed edge |
| BreakerRuns.RunKeepsInv | pkg/clients/udpGameServer/cb/breaker.go:112-214 | so does every interleaved run |
| BreakerRuns.ReachableInv | pkg/clients/udpGameServer/cb/breaker.go:24-56 | every state reachable from a new breaker satisfies it |
| BreakerRuns.Conservation | pkg/clients/udpGameServer/cb/breaker.go:112-167 | in every reachable state requests = successes + failures + admissions in flight, modulo 2^32; exactly, and at most maxRequests, when half-open |
| BreakerRuns.ClosesExactlyWhenAllProbesSucceeded | pkg/clients/udpGameServer/cb/breaker.go:143-154 | a half-open breaker closes if and only if the report completes maxRequests admitted probes, all successful, none left outstanding |
| BreakerRuns.HalfOpenAdmission | pkg/clients/udpGameServer/cb/breaker.go:112-125 | a half-open generation admits at most maxRequests, rejects exactly when that many are in, and admits whenever none is outstanding |
| BreakerRuns.AdmissionVerdict | pkg/clients/udpGameServer/cb/breaker.go:112-125 | in every reachable state: a closed breaker always admits, in its generation or, once the interval has passed, the next; an open one rejects exactly up to the timeout after it opened and then admits in the next generation; a half-open one rejects exactly when maxRequests are in |
| BreakerRuns.AdmissionAddsOneRequest | pkg/clients/udpGameServer/cb/breaker.go:112-125 | an admission adds one request and one token and changes nothing else, or finds a fresh page if it opens a generation; a rejection changes nothing |
| BreakerRuns.Generations | pkg/clients/udpGameServer/cb/breaker.go:184-214 | generations follow each other along Closed, Open, HalfOpen, then Open or Closed; a step opens at most one; no token carries an open generation |
| BreakerRuns.TripWindow | pkg/clients/udpGameServer/cb/breaker.go:112-214 | after a trip everything up to the timeout is rejected whatever reports arrive, and the first request after it is admitted as a probe of the next generation |
| BreakerRuns.ClosedTrips | pkg/clients/udpGameServer/cb/breaker.go:156-163 | in the closed state the counters are those of the accepted reports, and a report trips exactly when it is a failure and the rule accepts the counters after it |
| BreakerRuns.DefaultTrip | pkg/clients/udpGameServer/cb/default.go:10-12 | with the default rule every reachable closed state has at most four trailing failures, and the fifth trips |
| BreakerRuns.ErasureLags | pkg/clients/udpGameServer/cb/breaker.go:127-141 | without an interval, a run and the run without its stale reports give the same verdicts and differ at most by a pending Open to HalfOpen step |
| BreakerRuns.StaleReportsInvisibleIffNoInterval | pkg/clients/udpGameServer/cb/breaker.go:169-214 | deleting stale reports is unobservable in all runs if and only if the interval is zero |
| BreakerRuns.RollingCounterexample | pkg/clients/udpGameServer/cb/breaker.go:169-175 | for every positive interval, a run in which deleting one stale report changes the counters |
| Batch.Outcome | pkg/transport/serversettings-jsonrpc.go:16-69 | a result exactly if the method is known, the parameters decode, the version is right, the method returns and the result encodes; then it is that result |
| Batch.DoSingle | pkg/transport/jsonrpc.go:135-160 | on every exit of every handler a request with an id is answered under that id with its outcome, and an answer to a notification has no id |
| Batch.ErrorExits | pkg/transport/serversettings-jsonrpc.go:16-69 | each of the five ways to fail with its code and message, under the id of the request |
| Batch.AnswerGivesDue | pkg/transport/jsonrpc.go:56-63 | serving one request adds exactly what is owed for it: one response if it has an id, none for a notification |
| Batch.DoBatchSync | pkg/transport/jsonrpc.go:100-108 | the sequential mode returns exactly the responses owed, in the order of the requests |
| Batch.ResponseOf | pkg/transport/jsonrpc.go:100-108 | the answer to a request with an id stands right behind the answers to those with ids before it |
| Batch.StepKeepsInv | pkg/transport/jsonrpc.go:109-132 | every step of feeder or worker conserves the responses owed: given, with a worker, or in the channel |
| Batch.StepBurnsFuel | pkg/transport/jsonrpc.go:109-132 | every step uses up a bounded amount of work |
| Batch.NoDeadlock | pkg/transport/jsonrpc.go:109-132 | with a worker, or nothing to do, an unfinished pool can always take a step |
| Batch.RunFacts | pkg/transport/jsonrpc.go:109-132 | every run keeps the invariant and is no longer than the work it started with |
| Batch.ParallelBatch | pkg/transport/jsonrpc.go:109-134 | with atomic appends, and as many workers as requests up to the limit, every interleaving is bounded, never stuck, and ends with a permutation of the sequential responses |
| Batch.BlocksIffNoWorker | pkg/transport/jsonrpc.go:110-132 | some interleaving gets stuck if and only if the parallel limit is zero and the batch is not empty |
| Batch.OneWorkerKeepsOrder | pkg/transport/jsonrpc.go:109-132 | with a parallel limit of one, every finished run has answered in the order of the requests |
| Batch.RunPool | pkg/transport/serversettings-jsonrpc.go:349-372 | with atomic appends, under any scheduler, the pool terminates with exactly the responses owed |
| Batch.DoBatch | pkg/transport/jsonrpc.go:94-134 | an oversized batch gives an empty list; any other gives exactly the responses owed, in order in the sequential mode, and in the parallel mode with atomic appends in any order |
| BatchRace.StepKeepsInv | pkg/transport/jsonrpc.go:56-63 | every step, with the append split in three, keeps ownership, lengths and slots consistent |
| BatchRace.RunKeepsInv | pkg/transport/jsonrpc.go:109-132 | so does every interleaving |
| BatchRace.NoReallocation | pkg/transport/jsonrpc.go:115 | no worker ever reads a length at or beyond the preallocated capacity |
| BatchRace.RacyBatch | pkg/transport/jsonrpc.go:114-132 | at every moment of every interleaving the length is at most the number of ids, the channel holds no more than its capacity, no slot below the length is empty, and slots answer different requests that have ids; a finished batch with an id delivers something |
| BatchRace.NoDeadlock | pkg/transport/jsonrpc.go:109-132 | with a worker, a pool that is not finished can take a step, also in the middle of appends |
| BatchRace.RacyBatchEnds | pkg/transport/jsonrpc.go:109-134 | every interleaving of the split appends is bounded, and can go on until it is finished |
| BatchRace.LosingRun | pkg/transport/jsonrpc.go:60-62 | with two workers and an id there is a complete run that delivers a single response |
| BatchRace.LosslessIff | pkg/transport/jsonrpc.go:109-132 | no run loses a response if and only if there is one worker or at most one id |
| Store.MemoryDb.GetData | internal/storage/memory_db.go:42-51 | the value of a present key, whose time becomes now; nothing else changes |
| Store.MemoryDb.SetData | internal/storage/memory_db.go:53-56 | the key holds the value with the current time, and the count goes up |
| Store.MemoryDb.SetDataWithTTL | internal/storage/memory_db.go:58-61 | the key holds the value with a time that lies ttl ahead, and the count goes up |
| Store.MemoryDb.Delete | internal/storage/memory_db.go:88-90 | exactly that key goes, and the count stays |
| Store.MemoryDb.RemoveOldData | internal/storage/memory_db.go:104-114 | a row stays if and only if its time is zero or not more than dataTTL seconds before now, in whatever order rows are visited; the count goes down by as many as go |
| StoreHistory.PresentIffLives | internal/storage/memory_db.go:42-114 | after any history a key is present if and only if no removal and no sweep more than dataTTL seconds past its deadline in force followed its last store; it then holds that value and deadline |
| Keys.HexInjective | internal/utils/room_generator.go:12-14 | hexadecimal text determines the bytes |
| Keys.TextInjective | internal/utils/room_generator.go:12-14 | the text of an identifier determines it |
| Keys.RoomKeyInjective | internal/utils/room_generator.go:12-14 | a room key determines game and room |
| Keys.AddressStart | internal/connection/udp.go:10-13 | the text of a UDP address starts with a digit, a bracket, a colon or a question mark |
| Keys.AddrIsNoRoomKey | internal/connection/udp.go:10-13 | the text of an address is never a room key |
| Keys.HexDigits | internal/utils/room_generator.go:12-14 | the two digits of each byte |
| Keys.TextIs | internal/utils/room_generator.go:12-14 | the text of an identifier is its digits with dashes at the four places |
| Keys.RoomKeyIs | internal/utils/room_generator.go:12-14 | what stands where in a room key |
| Rooms.Room.Collect | pkg/api/types/room.go:44-47 | the table of users by id, a later entry winning |
| Rooms.Room.List | pkg/api/types/room.go:50-54 | a list without repeated ids that holds exactly the table, in any order |
| Rooms.Room.SetUser | pkg/api/types/room.go:26-55 | the room has the old users with this one added or replaced, ids still distinct |
| Rooms.Room.RemoveUser | pkg/api/types/room.go:57-63 | editing the slice while ranging over it stays in range and removes exactly the named user, the others in order |
| Rooms.WithoutOneMore | pkg/api/types/room.go:57-63 | removing users one after another is removing them all from the list |
| Rooms.ByIdWithout | pkg/api/types/room.go:57-63 | removal from the list is removal from the table |
| Session.StepKeepsInv | internal/service/service.go:42-189 | every join, relay, create, removal, lookup and sweep keeps rooms under their own keys and members among those who joined |
| Session.RunKeepsInv | internal/service/service.go:42-189 | so does every run |
| Session.OneKeyPerRoom | internal/service/service.go:129-189 | after every run a stored room sits under exactly one key, its own, and a game and room have at most one |
| Session.RelayGoesToTheRoom | internal/service/service.go:63-89 | after every run a message is relayed if and only if its sender is a client whose room is stored and it has neither 454 nor 343 bytes; it goes to exactly the users of that room but the sender's own entry, all of whom joined with the same game and room |
| Session.RegisteredIsServed | internal/service/service.go:63-89 | a message of a registered client is acknowledged if it has 454 or 343 bytes, and relayed to exactly the other users of the room otherwise |
| Session.LookupsUseRows | internal/service/service.go:165-189 | the lookups give both rows the present time, also if the second finds nothing, and change no other row |
| Session.FoundIff | internal/service/service.go:165-189 | the lookups find exactly the room of a client whose room is stored |
| Session.JoinRegisters | internal/service/service.go:129-163 | an acknowledged join registers client and room and seats the user |
| Session.ValidTokenJoins | internal/service/service.go:129-163 | a valid token of a client without a row is always acknowledged and seats the user in the stored room or in a new one, every other room and user unchanged; without one the message fails |
| Session.JoinIsExact | internal/service/service.go:129-163 | the whole new state after a join, under a stored key and under a missing one |
| Session.CreatedRoomLives | internal/service/service.go:42-61 | a created room is empty and its row survives a first sweep if and only if that comes no later than dataTTL seconds after the given time to live; under a stored key or without a token nothing is created |
| Session.SayKeepsRegistered | internal/service/service.go:63-76 | a message of anyone keeps a registered client registered, and its own message is served and refreshes both rows |
| Session.StepKeepsRegistered | internal/service/service.go:42-189 | any event keeps a registered client registered, if a sweep comes within the time to live |
| Session.TalkingClientsStay | internal/service/service.go:42-189 | a client that never pauses longer than the time to live before a sweep is never evicted, its room object neither evicted nor replaced, and all its messages are served |
| Session.SilentClientLeaves | internal/storage/memory_db.go:104-114 | the converse: a client that takes no part in a run is gone after a sweep more than dataTTL seconds after its row was last used, whatever anyone else did |
| Session.RemovalIsExact | internal/service/service.go:91-100 | a removal takes exactly the named user out of the room of a client whose room is stored, and nobody out of any other |
| Session.FailedWritesRemoved | internal/service/service.go:91-100 | the removals of one message take exactly those users out of the sender's room |
| Session.RelayRegistered | internal/service/service.go:63-89 | a relay finds the sender's client and room and leaves both rows freshly used |
| Session.RelayThenRemovals | internal/handler/udp/udp.go:101-119 | after a relay the sender's room is the old one minus those whose write failed, every other room unchanged |
| Service.Service.constructor | internal/service/service.go:216-224 | a new service is the empty world, with an empty history |
| Service.Service.Record | internal/service/service.go:42-189 | the state is always where the history of calls leads, so that what holds after every run holds of the object |
| Service.Service.OneKey | internal/service/service.go:129-189 | in the store of a service every room sits under its own key only, one room for a game and room |
| Service.Service.RelayedToJoined | internal/service/service.go:63-89 | whoever a service relays to has joined with the sender's game and room |
| Service.Service.TalkingClientIsHere | internal/service/service.go:42-189 | a client whose join is in the history of a service, and which never paused longer than the time to live before a sweep since, is registered with the room it joined |
| Service.Service.Ask | internal/service/service.go:115-120 | one lookup of a room key, as an event of the session |
| Service.Service.GetDeletedRooms | internal/service/service.go:102-127 | of the rooms asked for, exactly those still stored; no row goes and no room changes |
| Service.Service.Lookup | internal/service/service.go:165-189 | both lookups, with the rows they touch, and the room found |
| Service.Service.GetRoom | internal/service/service.go:165-189 | as Lookup, keeping the object invariant, and the room found is a known one |
| Service.Service.FindOrMake | internal/service/service.go:136-153 | registers the client and finds the room or allocates a fresh one |
| Service.Service.SetNewUser | internal/service/service.go:129-163 | the object takes the specified join step |
| Service.Service.SetRoom | internal/service/service.go:207-214 | the room is stored with a time that lies the given time to live ahead |
| Service.Service.CreateRoom | internal/service/service.go:42-61 | the object takes the specified create step; it succeeds exactly for a valid token and a missing key |
| Service.Service.Sweep | internal/storage/memory_db.go:104-114 | the object takes the specified sweep step |
| Service.Service.RemoveUser | internal/service/service.go:91-100 | the object takes the specified removal step; the list keeps its order and no other room is touched |
| Service.Service.OthersOf | internal/service/service.go:77-84 | exactly the room's users but the sender's own entry, without repetition |
| Service.Service.GetUsersAndMessage | internal/service/service.go:63-89 | the object takes the specified message step; what is answered, and to whom it goes, written out; a relay changes no list of users |
| Service.Service.RemoveFailed | internal/handler/udp/udp.go:113-118 | one removal takes exactly that user out of the sender's list, and the sender stays registered |
| Service.Service.WriteTo | internal/handler/udp/udp.go:110-119 | the failed writes, in order, are removed one by one; for a registered sender its list loses exactly those, every other list is unchanged |
| Service.FailedIdsAre | internal/handler/udp/udp.go:110-119 | the ids to be removed are exactly those of recipients whose write failed |
| Service.Service.Serve | internal/handler/udp/udp.go:101-120 | one round of a worker is the message step followed by the removals; after a relay every list keeps its order and only the sender's room loses the failed ones |
| Heaps.StopsAreNew | pkg/transport/viewer/format.go:88-110 | with no loop of pointers ahead the stops of a chain are all different |
| Heaps.ChainEnds | pkg/transport/viewer/format.go:88-110 | with no loop of pointers ahead a chain ends within the size of the heap |
| Printer.PartTasksShow | pkg/transport/viewer/format.go:200-301 | the tasks for a composite value show exactly its parts, of a long list only the ends, and announce the length of a long list |
| Printer.RunFrame | pkg/transport/viewer/format.go:132-317 | what is printed later does not influence what is printed first |
| Trace.StepKeepsSound | pkg/transport/viewer/format.go:70-317 | the printer only turns to values reached from the root, on the nesting level where they are reached, which is at most the depth |
| Coverage.StepKeepsComplete | pkg/transport/viewer/format.go:70-317 | as long as different pointers met have different addresses: whatever the printer turned to, all shown parts of it were or will be turned to; an address in the table is that of a pointer that was followed |
| Nesting.StepKeepsNested | pkg/transport/viewer/format.go:70-130 | unless a chain has come back to itself, the objects open in the output are those being expanded, their addresses all in the table below the depth of whatever may come to a pointer inside them, also if objects share addresses |
| Nesting.FollowedIsNew | pkg/transport/viewer/format.go:96-102 | an object about to be followed for the first time on a chain is not being expanded |
| Balance.StepKeepsBooked | pkg/transport/viewer/format.go:200-301 | every open bracket and every unit of depth is owed by a task, as a bracket to close or a list to cut short |
| Brackets.StepKeepsPaired | pkg/transport/viewer/format.go:200-301 | as long as no list is cut short, the brackets open in the output are those that the tasks are going to close, in that order |
| Halting.EverythingShown | pkg/transport/viewer/format.go:70-317 | as long as different pointers reached have different addresses, a run that ends and, if there is a depth limit, cuts no list short has turned to everything that is reached, followed every pointer reached and cut every long list reached |
| Halting.FollowsForEver | pkg/transport/viewer/format.go:88-110 | on a loop of pointers none of which is recorded at a smaller depth, the loop with its table goes on for ever |
| Halting.NoPointerLoopReached | pkg/transport/viewer/format.go:88-110 | as long as different pointers reached have different addresses, a run that ends and, if there is a depth limit, cuts no list short has reached no loop of pointers |
| Halting.NoContentLoopReached | pkg/transport/viewer/format.go:200-301 | as long as different pointers reached have different addresses, a run that ends without a depth limit has reached nothing that contains itself without a pointer in between |
| Ending.ChainMakesRoom | pkg/transport/viewer/format.go:121-129 | without a depth limit, expanding a chain leaves strictly fewer objects that are not open; with one, it leads from a pointer to something that is none |
| Ending.RepeatingLoops | pkg/transport/viewer/format.go:88-110 | a chain that has come back to an object on it is followed for ever, since what it recorded is not below the present depth |
| Ending.PrintableHalts | pkg/transport/viewer/format.go:70-317 | with any depth limit and any addresses, if no loop of pointers is reached within the limit and, without one, nothing that contains itself, the printer ends |
| Printing.HaltsIffPrintable | pkg/transport/viewer/format.go:70-317 | as long as different pointers reached have different addresses: without a depth limit the printer ends if and only if no loop of pointers and nothing that contains itself without a pointer is reached; with a limit the loops of pointers within it decide, if no long list is within it |
| Printing.SelfContainingNeverEnds | pkg/transport/viewer/format.go:193-272 | a slice whose element is itself and a map whose value is itself are never printed to the end |
| PrintingExamples.RaisedDepthHidesLoop | pkg/transport/viewer/format.go:203-225 | with a depth limit a long list can hide a loop of pointers within the limit, so that the printer ends all the same |
| PrintingExamples.SharedAddressHides | pkg/transport/viewer/format.go:94-102 | a pointer to the first field of a struct hides the struct: the printer ends although a loop of pointers is reached, and cuts nothing although a long list is reached |
| Printing.CutIffLong | pkg/transport/viewer/format.go:208-225 | only lists of more than 16 elements reached within the depth limit are cut short; as long as different pointers reached have different addresses, some list is if and only if there is one, and without a limit all of them are |
| Printing.BracketsNestIffNothingCut | pkg/transport/viewer/format.go:200-301 | brackets of maps and structs balance, one bracket of a list stays open for each list cut short, and all are properly nested if and only if none is cut |
| Printing.BracketsNestIffNothingLong | pkg/transport/viewer/format.go:200-301 | brackets are properly nested if no list of more than 16 elements is reached within the depth limit, and, as long as different pointers reached have different addresses, only then |
| Printing.NoExpansionInsideItself | pkg/transport/viewer/format.go:70-130 | read over any print-out, no object is followed inside its own expansion and every expansion is left, also if objects share addresses |
| Printing.AncestorsRecorded | pkg/transport/viewer/format.go:77-102 | at every moment of a run that ends, when the printer comes to a pointer, the addresses of all objects being expanded are in the table below the current depth |
| Printing.TableIsHistory | pkg/transport/viewer/format.go:77-103 | the table as a matter of history: it holds an address at a depth if and only if a pointer to it was followed at that depth, and since then neither followed again nor has the printer turned to a pointer at that depth or less |
| Printing.ShownIffRemembered | pkg/transport/viewer/format.go:94-102 | a pointer is taken for one already shown if and only if a pointer to its address was followed at a smaller depth and is not forgotten in that sense |
| Printing.EveryPointerFollowed | pkg/transport/viewer/format.go:88-110 | as long as different pointers reached have different addresses, and there is no depth limit or no list of more than 16 elements within it, every pointer that is reached is followed at least once |
| Rendering.Draw | pkg/transport/viewer/format.go:132-317 | from any state, showing a value leads to the state in which its rendering is written, its depth and type flag are as rendered, and only its own addresses are added to the table |
| Rendering.DrawTarget | pkg/transport/viewer/format.go:82-130 | the same for chains of pointers, with a star for each pointer |
| Rendering.DrawContents | pkg/transport/viewer/format.go:200-301 | the same for what stands between brackets, with the depth limit, long lists, blanks, colons and names |
| Rendering.PrintedIsRendered | pkg/transport/viewer/format.go:132-317 | a value whose pointers hold different addresses is printed to the end, and the text printed is its rendering, defined by recursion over what the value is made of |
| Rendering.TreeOf | pkg/transport/viewer/format.go:132-317 | every finite value is made of something that can be rendered |
| Rendering.EveryValueStarts | pkg/transport/viewer/format.go:152-193 | in every print-out, of any value, wherever the printer turns to a leaf, a nil value or a composite value other than on the way along a chain, its text, the nil text or its bracket follows, after at most its type |
| Rendering.EveryPointerStarts | pkg/transport/viewer/format.go:70-130 | in every print-out, of any value, a pointer is followed at once or stands as shown, and a nil pointer as nil, after at most a type with stars |
| Rendering.LeafTexts | pkg/transport/viewer/format.go:112-172 | the text of a leaf and of pointers to it: with types, the type once, with one star for each pointer |
| Rendering.NilTexts | pkg/transport/viewer/format.go:70-92 | nil values, and a nil pointer at the end of a chain, read as nil |
| Rendering.ListText | pkg/transport/viewer/format.go:227-235 | a list of leaves reads as their texts in order with single blanks, in brackets |
| Rendering.LongListText | pkg/transport/viewer/format.go:208-225 | a long list of leaves reads as the first four, the number of elements and the last four, without a closing bracket |
| Rendering.MapText | pkg/transport/viewer/format.go:247-272 | an entry of a map reads as key, colon, value |
| Rendering.StructText | pkg/transport/viewer/format.go:274-301 | fields read in order, with their names and colons where asked for |
| Rendering.DeepText | pkg/transport/viewer/format.go:201-204 | contents below the depth limit are replaced by one mark, between brackets |
| Viewer.FormatState.Prune | pkg/transport/viewer/format.go:77-81 | exactly the entries below the current depth survive |
| Viewer.FormatState.UnpackValue | pkg/transport/viewer/format.go:59-68 | the content of a non-nil interface, anything else unchanged; the type of what was in an interface is shown |
| Viewer.FormatState.FormatPtr | pkg/transport/viewer/format.go:70-130 | ends in the state in which the machine ends for a pointer |
| Viewer.FormatState.FollowPtr | pkg/transport/viewer/format.go:82-130 | the same for the loop that follows pointers and what it leads to |
| Viewer.FormatState.Format | pkg/transport/viewer/format.go:132-317 | ends in the state in which the machine ends for the value, in every field |
| Viewer.FormatState.FormatPart | pkg/transport/viewer/format.go:213-214 | the same for a part of a composite value |
| Viewer.FormatState.FormatList | pkg/transport/viewer/format.go:193-235 | the same for slices and arrays, the long ones without closing their bracket |
| Viewer.FormatState.FormatEnds | pkg/transport/viewer/format.go:208-224 | the same for the ends of a long list and its length |
| Viewer.FormatState.FormatMap | pkg/transport/viewer/format.go:247-272 | the same for maps |
| Viewer.FormatState.FormatStruct | pkg/transport/viewer/format.go:274-301 | the same for structs |
| Viewer.Print | pkg/transport/viewer/format.go:132-317 | for every value on which the printer ends, which Ending.PrintableHalts and Printing.HaltsIffPrintable are about, printing gives the machine's output; a value whose pointers hold different addresses reads as its rendering, and every leaf as its text; no object inside its own expansion; only reached lists of more than 16 elements are cut; brackets properly nested if none is reached; with different addresses for different pointers only then, and, unless a depth limit and such a list come together, every pointer reached is followed |
| Curl.ReadEscaped | pkg/clients/udpGameServer/jsonrpc/http2curl.go:54-56 | inside quotes a shell reads escaped text as exactly the original text, whatever follows |
| Curl.ReadWord | pkg/clients/udpGameServer/jsonrpc/http2curl.go:54-56 | one printed word, also an empty one, is read as one word with its text |
| Curl.RoundTrip | pkg/clients/udpGameServer/jsonrpc/http2curl.go:50-56 | splitting a printed command gives back exactly the words |
| Curl.CurlArguments | pkg/clients/udpGameServer/jsonrpc/http2curl.go:20-44 | the words in their places: curl, -X, the verb; -d and the body, if any; -H, the name, a colon and the values for each header; the address |
| Curl.JoinConcat | pkg/clients/udpGameServer/jsonrpc/http2curl.go:50-52 | joining puts single blanks between words |
| Curl.LexLessMeans | pkg/clients/udpGameServer/jsonrpc/http2curl.go:38 | the order of names: a proper prefix first, otherwise the first difference decides |
| Curl.SortedListingUnique | pkg/clients/udpGameServer/jsonrpc/http2curl.go:34-38 | a set of names has only one sorted listing |
| Curl.SortKeys | pkg/clients/udpGameServer/jsonrpc/http2curl.go:34-38 | the names in strictly increasing order, none missing |
| Curl.AppendHeaders | pkg/clients/udpGameServer/jsonrpc/http2curl.go:39-41 | one -H flag and one escaped line for each name, in order |
| Curl.HttpRequest.ReadAll | pkg/clients/udpGameServer/jsonrpc/http2curl.go:27-29 | reading gives the text of the body and leaves nothing to be read, or fails |
| Curl.ToCurl | pkg/clients/udpGameServer/jsonrpc/http2curl.go:20-44 | the printed command reads back to curl, the method, the body if any, the sorted headers and the URL; the body, which reading has drained, can be read again as before; it fails exactly if the body cannot be read |
| Hashing.XorBelow | pkg/clients/udpGameServer/hasher/walker.go:249-251 | exclusive or of two numbers of n bits has n bits |
| Hashing.XorPermutation | pkg/clients/udpGameServer/hasher/walker.go:249-251 | combining without order depends only on the multiset of contributions, success included |
| Hashing.PermutedIsSame | pkg/clients/udpGameServer/hasher/walker.go:92-124 | any two orders of a map's entries, and with sets of a slice's elements, count as reorderings |
| Hashing.OrderDoesNotMatter | pkg/clients/udpGameServer/hasher/walker.go:32-233 | reordering map entries at any depth, and slice elements with sets, changes neither success nor the hash |
| HashLaws.DigestIs | pkg/clients/udpGameServer/hasher/walker.go:66-69 | the digest absorbs the bytes one after the other, from the start of the algorithm |
| HashLaws.LittleEndianIs | pkg/clients/udpGameServer/hasher/walker.go:235-261 | a word is written as eight bytes, the lowest first |
| HashLaws.XorBits | pkg/clients/udpGameServer/hasher/walker.go:249-251 | bit by bit the exclusive or is the sum without carry |
| HashLaws.XorCancel | pkg/clients/udpGameServer/hasher/walker.go:249-251 | an exclusive or with one number in common determines the other |
| HashLaws.PlainHashes | pkg/clients/udpGameServer/hasher/walker.go:53-80 | scalars, texts and times hash to the digest of exactly their bytes |
| HashLaws.NilHashes | pkg/clients/udpGameServer/hasher/walker.go:32-62 | nil hashes as eight zero bytes or, with zeroNil, as the zero value; pointers and interfaces are looked through |
| HashLaws.ArraySensitive | pkg/clients/udpGameServer/hasher/walker.go:81-91 | without collisions of the digest, arrays of one length with equal hashes have pairwise equal hashes of elements |
| HashLaws.SliceSensitive | pkg/clients/udpGameServer/hasher/walker.go:206-225 | so have slices, without sets |
| HashLaws.SetOfOne | pkg/clients/udpGameServer/hasher/walker.go:206-225 | with sets, a slice of one element hashes as the finished hash of the element |
| HashLaws.MapSensitive | pkg/clients/udpGameServer/hasher/walker.go:92-124 | without collisions, maps of one entry with equal hashes have equal hashes of keys and equal hashes of values |
| HashLaws.FieldsThatDoNotCount | pkg/clients/udpGameServer/hasher/walker.go:141-170 | unexported fields, ignored ones and, with ignoreZero, zero ones, unless blank, do not change the hash of a struct |
| HashLaws.StructSensitive | pkg/clients/udpGameServer/hasher/walker.go:125-205 | without collisions, structs that differ in one field that counts and have equal hashes have equal hashes of what is hashed for that field |
| HashLaws.ArrayHash | pkg/clients/udpGameServer/hasher/walker.go:81-91 | what an array with no, one or two elements hashes to, written out as digests: in order, from zero, and not finished |
| HashLaws.SliceHash | pkg/clients/udpGameServer/hasher/walker.go:206-225 | the same for slices, which are finished, and with sets combined without order |
| HashLaws.MapHash | pkg/clients/udpGameServer/hasher/walker.go:92-124 | the same for maps with no and with two entries, an entry being key and then value |
| HashLaws.StructHash | pkg/clients/udpGameServer/hasher/walker.go:125-205 | the same for a struct with a field, which starts from the digest of its name |
| HashLaws.BlankField | pkg/clients/udpGameServer/hasher/walker.go:151-203 | a blank field only finishes the hash once more |
| HashLaws.MapHashed | pkg/clients/udpGameServer/hasher/walker.go:112-119 | a map is hashed if and only if all its keys and values are |
| Walking.Hash64.Sum | pkg/clients/udpGameServer/hasher/walker.go:66-69 | reset, write, sum gives the digest of the bytes whatever was absorbed before |
| Walking.Walker.HashOrdered | pkg/clients/udpGameServer/hasher/walker.go:235-247 | the digest of the two words in order, whatever was absorbed before |
| Walking.Walker.HashFinish | pkg/clients/udpGameServer/hasher/walker.go:253-261 | the digest of the word, whatever was absorbed before |
| Walking.Walker.Visit | pkg/clients/udpGameServer/hasher/walker.go:32-233 | the walk with its shared object computes the pure hash of the value |
| Walking.Walker.VisitKind | pkg/clients/udpGameServer/hasher/walker.go:53-80 | the same once pointers and interfaces are looked through |
| Walking.Walker.VisitElems | pkg/clients/udpGameServer/hasher/walker.go:206-225 | the same for the elements of arrays and slices |
| Walking.Walker.VisitPair | pkg/clients/udpGameServer/hasher/walker.go:112-120 | the same for one entry of a map |
| Walking.Walker.VisitMap | pkg/clients/udpGameServer/hasher/walker.go:92-124 | the same for maps |
| Walking.Walker.VisitStruct | pkg/clients/udpGameServer/hasher/walker.go:125-205 | the same for structs, with skipped fields, tags and stringers |
| Dispatch.Exchanged | pkg/clients/udpGameServer/jsonrpc/internal.go:126-182 | on every exit, whether there is an error, which one, and which decoded replies are kept |
| Dispatch.CallBatch | pkg/clients/udpGameServer/jsonrpc/internal.go:108-182 | no error exactly if the batch is not empty and the answer decodes to replies under a status below 400; otherwise the first thing that went wrong, and one error reply per request with an id after what is kept |
| Dispatch.AsMap | pkg/clients/udpGameServer/jsonrpc/response.go:18-25 | the last reply under each id; panics exactly on a nil entry |
| Dispatch.Callbacks | pkg/clients/udpGameServer/batch.go:18-23 | the handler of the last request under each id |
| Dispatch.Invoke | pkg/clients/udpGameServer/batch.go:27-31 | exactly one call for each reply whose id has a handler, in any order |
| Dispatch.Batch | pkg/clients/udpGameServer/batch.go:16-32 | the calls made are exactly those due: the registered handler, the error, the last reply, once per id |
| Dispatch.FanOutIs | pkg/clients/udpGameServer/jsonrpc/internal.go:110-125 | on failure there is one error reply for each request with an id, and no other |
| Dispatch.FailureReachesEveryHandler | pkg/clients/udpGameServer/jsonrpc/internal.go:110-125 | on failure, for distinct non-nil ids, the calls are a permutation of one error call per request with a handler; each carries the error and a reply with the id and version of its request, code 0 and the message, real replies overridden |
| Dispatch.FailureReachesTheLast | pkg/clients/udpGameServer/jsonrpc/internal.go:110-125 | on failure, for any list, the last request under each non-nil id is served exactly once and alone |
| Dispatch.SuccessReachesTheAnswered | pkg/clients/udpGameServer/batch.go:27-31 | on success a handler runs if and only if there is a reply under its id, once, with the last such reply; nothing runs for ids that were not asked |
| HexPointer.ReadPrepend | pkg/transport/viewer/common.go:82-88 | what a digit put in front of others adds to the number they stand for |
| HexPointer.PrintHexPtr | pkg/transport/viewer/common.go:71-97 | never leaves the 18-byte buffer; prints 0x and digits that read back to the 64-bit value without a leading zero, or the nil text for zero |

## Left out

- Breaker.CircuitBreaker.constructor: the name, the default success check and the state-change callback are not part of the object.
- Breaker.CircuitBreaker.ToNewGeneration: the generation is an unbounded number; the wrap-around of uint64 after 2^64 generations is not modelled.
- Breaker.CircuitBreaker.ChangeState: the call of the state-change callback is not modelled.
- Breaker.CircuitBreaker.Execute: callbacks are given by their outcome, and the trip rule and state-change callback neither panic nor change anything. A request that leaves by runtime.Goexit, on which the deferred function sees no panic and nothing is reported, is not an outcome of the model; the token is then lost.
- Breaker.CircuitBreaker.Interleave: the done closure of the two-step breaker is a report event; that it is called at most once per admission is stated by the runs, as a token that must be outstanding.
- Batch.DoSingle: what the decoder, the service method and the encoder come to are parameters, and so is whether the lower-case name is that of a method; tracing is not modelled.
- Batch.ParallelBatch: the append is atomic here; BatchRace models it without a lock.
- Batch.RunPool: the append is atomic here. Of the Go memory model only the order of the three accesses of an append is modelled, in BatchRace, where slots hold the position of the answered request.
- Batch.DoBatch: the parallel mode has atomic appends. Requires a worker, the sequential mode, an empty or an oversized batch, since otherwise it does not return (Batch.BlocksIffNoWorker); a negative parallel limit, which panics, is not modelled.
- Store.MemoryDb.GetData: times are integers and the zero time is 0; the connection table (AddConnection, CountConnection, RemoveConnection) is not modelled.
- Store.MemoryDb.RemoveOldData: the sweep of the connection table is not modelled.
- Keys.AddressStart: the sixteen-byte form of an IP address is any text with a colon.
- Service.Service.SetNewUser: the call of AddConnection is not modelled.
- Service.Service.Sweep: the sweep of the connection table is not modelled.
- Service.Service.Serve: the clock is read once per message; calls of different workers are atomic, so unsynchronised edits of one room are not modelled; message bytes, which alias one read buffer, are represented by their length and what they parse to as a token.
- Service.Service.GetUsersAndMessage: message bytes are represented by their length; token parsing, its cryptography and expiry are a parameter.
- Service.Service.GetDeletedRooms: the token is valid, and the ids asked for are a set.
- Room server ids (SetServerID, RemoveServerID): a list with the same removal as the users; easy.
- Printing.HaltsIffPrintable: where pointers that are reached share an address, or a long list is within a depth limit, the condition is sufficient (Ending.PrintableHalts) but not necessary (PrintingExamples.SharedAddressHides, PrintingExamples.RaisedDepthHidesLoop): what is met then depends on what was printed before it.
- Printing.CutIffLong: that some list is cut if a long one is reached is promised for pointers that do not share addresses (PrintingExamples.SharedAddressHides).
- Viewer.FormatState.Format: String and Dump methods, which are foreign code, are not modelled, nor are invalid values, such as what a map gives for a key that is not equal to itself; numbers and other plain values are given by their text.
- Viewer.FormatState.FormatMap: a map that is printed twice shows its entries in the same order.
- Viewer.FormatState.FormatStruct: tag options and the time type are not modelled.
- Rendering.PrintedIsRendered: the whole text is given for values none of whose pointers hold the same address; for all others Rendering.EveryValueStarts and Rendering.EveryPointerStarts say what stands at each value. A value at the top is not an interface.
- Viewer.Print: values on which the printer does not end are excluded. That siblings can leave entries in the table, so that a pointer is taken for one already shown, is followed as in the source and not judged.
- Curl.RoundTrip: the splitter gives no words for text with unquoted special characters, which the printer never emits.
- Walking.Walker.Visit: values are finite trees, so that values that reach themselves, on which the walker does not end, cannot be written down; Hasher hooks are foreign code; the set tag has no effect in the source and none here; the hash algorithm is a parameter that absorbs bytes one at a time.
- Walking.Walker.VisitMap: the HashIncludeMap hook is foreign code.
- Walking.Walker.VisitStruct: the Hasher and HashInclude hooks are foreign code.
- Dispatch.Exchanged: building, sending and decoding are given by their outcome, and the texts of errors by a function.
- Rate limiter, UDP queues and round robin, HTTP routing, JSON encoding, logging, tracing, options, sockets, tickers and start-up: input and output or wrappers around foreign libraries.
