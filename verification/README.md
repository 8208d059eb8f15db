# Verified models of the AGH operating-systems projects

The repository holds small concurrent programs in C, each built around a protocol of its own:
locks, condition variables, semaphores, signals, pipes and message queues.  This project models
the protocols in Dafny and proves what they promise for every number of processes, every input
and every interleaving.

- **Ring of lines** (`Ring`, `RingInvariant`, `RingSystem`, `RingTheorems`, `RingReturn`,
  `RingWakeups`, `RingTermination`, `RingMemory`, `Fifo`; cw09): producers put the lines of a file
  into a ring of cells, consumers search them.  One model covers the version with condition
  variables and the one with semaphores.  It refines a plain bounded queue; every run is finite;
  stuck states, and when the consumers return, are described exactly.
- **Sleeping barber** (`Barber`, `BarberInvariant`, `BarberTheorems`, `BarberTermination`,
  `BarberRoom`, `BarberMemory`; cw07): untagged handshake tokens never cross between clients, signals never
  coalesce, seats are accounted for, and the shop ends only when everybody is shaved.
- **Record sort** (`Records`, `FileSort`; cw02): insertion sort inside a file through a cursor.
- **Pipeline** (`Splitter`, `Pipeline`, `PipelineProof`, `PipelineShell`; cw05): token splitting,
  and descriptor inheritance through fork with a table of two pipes.
- **Image filter** (`Convolution`, `FilterMeaning`, `FilterThreads`, `FilterGenerator`; cw08):
  clamped convolution by threads, and the generator of its coefficients, over the reals.
- **Registration** (`Registry`, `Registration`, `RegistrationProof`, `RegistrationRuns`,
  `RegistrationServer`, `RegistrationClient`; cw06): a server's table of clients and the request
  protocol.
- **Signal barrier** (`Barrier`, `BarrierProof`, `BarrierTheorems`, `BarrierEnd`, `BarrierMemory`;
  cw04): N children released by the K-th request, with one semaphore token that travels with signals.
- **Block arrays** (`Blocks`; cw01).

`Runs` says what a run is: a protocol is a function from a state and an action to the next state,
or to none when the one who should act is blocked, and a run is a sequence of actions.  One action
is one access to shared memory or one library call of one thread; critical sections are not
collapsed.  The modules named `...Memory`, and `PipelineShell`, `RegistrationServer` and
`RegistrationClient`, hold the same programs as classes that change arrays and fields in place;
their methods take exactly the steps of the step functions, and one method each runs the program
from its start.  `DivMod` holds facts on remainders, `Pigeonhole` on distinct
numbers, `CStrings` on texts that end at a zero.

Where the code departs from what it seems meant to do, the model follows the code:

- The end of the file is announced before `end_time` is set (cw09/zad1/zad1.c:101-108), so a
  consumer may sleep for good; `RingTheorems.ConsumerMaySleepForGood` is such a run,
  `RingReturn.ConsumersReturnIff` says exactly when it happens, and
  `RingTheorems.StuckMeansSearched` that no work is lost by it.
- The signal barrier calls `pause` after sending or after testing, so a signal may come too early
  (cw04/zad2/zad2.c:154-169); `BarrierTheorems.OneChildCanHang`, and for the exact condition
  `BarrierEnd.OverIff`.
- cw07/zad1 does not fit its message queue to the number of seats (cw07/zad1/client.c:144-158), so
  the clients of a large shop can jam; `BarberRoom.JamIff`.  In cw07/zad2 both are one argument.
- A client the registration server has no room for is not told (cw06/zad1/server.c:92-95);
  `RegistrationRuns.SomebodyIsRefused` and `RegistrationRuns.RefusedForGood`.
- A client stopped while it types sends that line as a request all the same, does not wait for
  the answer, and then sends STOP; END does not free the client's place.
- The search for the nearest block starts from the block's own sum
  (cw01/zad1/library.c:146); `Blocks.NearestIff` and `Blocks.MissesNearest`.
- A filter of side 1 is divided by 0 (cw08/zad1/filter.c:67); `FilterGenerator.WeightsIff` and
  `FilterGenerator.RangeKeptIff`.

In four places the model takes what is plainly meant: a semaphore that is never set is 0
(`someone_is_writing`, cw09/zad2/zad2.c:231-232; semaphore 2 of cw07/zad1); closing the slot not
yet filled does nothing (cw05/zad1/zad1.c:79-82 at j = 1); the thread handles are stored one a
thread (cw08/zad1/zad1.c:174 strides by two); flags shared between handlers, threads and processes
are read and written one after another, as if volatile.

To check everything: `dafny verify dfyconfig.toml`.

## Model

| member | source | states |
|---|---|---|
| RingInvariant.WriterStores | cw09/zad1/zad1.c:70-98 | Depositing the next line under the cell lock keeps the whole ring invariant: contents, cursors, counters, locks and wakeups, for the depositing producer against any point the reader may be at. |
| RingInvariant.ReaderClears | cw09/zad1/zad1.c:125-165 | The same for taking the oldest line out and setting its cell to NULL. |
| RingInvariant.WriterAdvances | cw09/zad1/zad1.c:93-98 | After the cell lock is gone, the two separate updates of writing_pos bring the lagging cursor back to the slot of the next line. |
| RingInvariant.ReaderAdvances | cw09/zad1/zad1.c:160-165 | The same for reading_pos. |
| RingSystem.StepKeepsInv | cw09/zad1/zad1.c:64-167 | Every action of every producer and consumer, and every spurious wakeup, keeps the system invariant, in both versions. |
| RingSystem.EveryRunKeepsInv | cw09/zad2/zad2.c:76-191 | The invariant holds in every state of every run, for any number of producers, consumers and cells and any file. |
| RingTheorems.RingShape | cw09/zad1/zad1.c:87-96 | With w lines stored and t taken: t <= w <= t + N, line k is in cell k mod N exactly for t <= k < w, all other cells are NULL, and each cursor is w (or t) mod N, except between a deposit (or take) and its increment, when it lags by one line, and between increment and remainder, when it is one slot beyond that. |
| RingTheorems.NoWakeupIsLost | cw09/zad2/zad2.c:87-115 | Each condition has at most one sleeper; a sleeper with no token left still faces a full (empty) cell, or a peer is between changing the cell and announcing it. |
| RingWakeups.ProducerWakes | cw09/zad1/zad1.c:89-101 | Each announcement of a producer, of a line or of the end, wakes every sleeping consumer with condition variables and adds one token with semaphores; no other step of a producer wakes anybody. |
| RingWakeups.ConsumerWakes | cw09/zad2/zad2.c:180-184 | The same of each cell a consumer empties, and the producers. |
| RingTheorems.Refines | cw09/zad2/zad2.c:83-189 | Every action of either version is a step of one bounded first-in first-out queue over the file: a deposit puts the next line, a take gets the oldest, and nothing else touches the queue. |
| RingTheorems.RunsAreQueueRuns | cw09/zad1/zad1.c:64-167 | Over whole runs: it starts as the queue with the whole file pending, each step is a step of the queue or leaves it alone, and taken, queued and pending lines always make up the file. |
| Fifo.StepConserves | cw09/zad1/zad1.c:81-87 | No step of that queue loses, duplicates or reorders a line, or exceeds its capacity. |
| RingTheorems.ReturnMeansSearched | cw09/zad1/zad1.c:127-156 | A consumer returns only after every line has been taken once and in file order, and then line_counter is the number of lines that satisfy the search. |
| RingTheorems.SearchesMean | cw09/zad1/zad1.c:143-154 | A line of exactly L characters satisfies search 1 alone, shorter ones search 0 alone, longer ones search 2 alone, and there is no other search. |
| RingTheorems.SearchesPartition | cw09/zad2/zad2.c:167-178 | The three searches count every line once between them, and counts add up over the parts of a file. |
| RingTheorems.NotBothAsleep | cw09/zad2/zad2.c:87-93 | A producer and a consumer are never both asleep with no token for either; with condition variables, never both asleep at all. |
| RingTheorems.Mover | cw09/zad1/zad1.c:64-167 | While a producer has not returned, or a consumer is not over, some thread can move. |
| RingWakeups.BlockedIff | cw09/zad2/zad2.c:83-161 | A thread is blocked if and only if a peer has the lock it wants, it sleeps with no token for it, or it has returned; a wakeup by chance is possible with condition variables alone. |
| RingTheorems.StuckIff | cw09/zad2/zad2.c:76-191 | Nobody can move exactly when every producer has returned and the consumers have returned or one sleeps for good holding read_lock with the rest behind it. |
| RingTheorems.StuckMeansSearched | cw09/zad2/zad2.c:143-189 | Even then every line has been taken in order and line_counter is the answer. |
| RingTheorems.ConsumerMaySleepForGood | cw09/zad1/zad1.c:101-110 | That consumers always return is false: a concrete run of either version in which the end is announced before end_time is set and the consumer then sleeps for good. |
| RingReturn.ConsumersReturnIff | cw09/zad1/zad1.c:101-137 | The exact condition: cut a run that ends with nobody able to move at any state with end_time set and all announcements made; all consumers return if and only if there the reader had not already found end_time unset with no announcement left for it, or is woken by chance later. |
| RingReturn.StuckIsSettled | cw09/zad1/zad1.c:99-110 | Such a cut is always there. |
| RingWakeups.LookInTimeReturns | cw09/zad1/zad1.c:127-136 | A consumer that finds its cell NULL and looks at end_time once it is set never sleeps again, and has returned when nobody can move. |
| RingWakeups.HeardInTimeMeansReturn | cw09/zad1/zad1.c:99-110 | Whoever sleeps when a producer meets the end of the file is woken: if from then on nobody looks at end_time before it is set and all announcements are made, every consumer returns. |
| RingWakeups.ReturnsAfterEnd | cw09/zad2/zad2.c:152-158 | No consumer leaves its loop before end_time is set. |
| RingTermination.StepLowersMeasure | cw09/zad2/zad2.c:76-191 | Every step lowers an explicit measure of lines, announcements and program points, up to the slack of a spurious wakeup. |
| RingTermination.RunLength | cw09/zad1/zad1.c:64-167 | A run has at most 33 steps a line, 15 a producer and 8 a consumer, and 5 more for each spurious wakeup. |
| RingMemory.Search | cw09/zad2/zad2.c:76-191 | In place, the whole program on any schedule: once a consumer has returned, or nobody can move, line_counter is the number of lines that satisfy the search, the file is read to its end and every cell is NULL; what it does is a run of the model. |
| BarberInvariant.StepKeepsInv | cw07/zad2/barber.c:170-240 | Every action of the barber, of any client, of a handler, and every signal delivery keeps the shop invariant. |
| BarberInvariant.EveryRunKeepsInv | cw07/zad1/barber.c:180-251 | The invariant holds in every state of every run, for any number of clients, seats and visits. |
| BarberTheorems.TokensNeverCross | cw07/zad2/barber.c:74-106 | recSem + sendSem <= 1, at most one client is in service, and at the top of the barber's loop both semaphores are 0 and nobody is in service. |
| BarberTheorems.SentTokensArrive | cw07/zad2/client.c:203-218 | A token the barber sent is taken by its customer, at the very wait it was meant for. |
| BarberTheorems.ReceivedTokensArrive | cw07/zad2/barber.c:187-219 | A token a client sent is taken by the barber while it waits for that client, and for that event. |
| BarberTheorems.OnlyCustomersPost | cw07/zad2/client.c:49-69 | Only the customer of the moment posts to the barber. |
| BarberTheorems.SignalsInterruptOnlySpins | cw07/zad1/barber.c:236-251 | SIGUSR2 is delivered and handled only on top of the barber's sleep spin, SIGUSR1 only on top of the client's spin on shaved, so no wait on a semaphore is ever interrupted. |
| BarberTheorems.SignalsNeverCoalesce | cw07/zad1/client.c:201-211 | A signal is sent only to a process with none pending and none in its handler. |
| BarberTheorems.SeatAccounting | cw07/zad2/client.c:143-175 | Whenever the mutex is free the seat counter is the length of the queue and within the seats; a sleeping barber has an empty queue; queued clients are distinct and called in joining order. |
| BarberTheorems.RefusedMeansFull | cw07/zad2/client.c:145-193 | A client is refused if and only if every seat is taken. |
| BarberTheorems.FreeSeatIsTaken | cw07/zad1/client.c:144-176 | A client that finds a seat free joins the queue: in every continuation it is on its way there or has joined. |
| BarberTheorems.QueueIsNeverFull | cw07/zad2/client.c:147-159 | A client that sends itself to the queue finds room in it, in every shop with no more seats or no more clients than the queue has room. |
| BarberRoom.JamIff | cw07/zad1/client.c:144-158 | The exact condition: a run in which a client blocks in front of a full queue, holding the mutex, exists if and only if seats and clients are both more than the queue has room and somebody enters. |
| BarberRoom.JamIsForGood | cw07/zad1/client.c:144-158 | In every continuation that client stays blocked. |
| BarberTheorems.ServiceGoesOn | cw07/zad2/barber.c:194-219 | In a service the barber or its customer can always move. |
| BarberTheorems.Mover | cw07/zad2/client.c:137-234 | Some process can move unless the shop is closed or jammed. |
| BarberTheorems.ClientBlockedIff | cw07/zad1/client.c:136-242 | A client cannot move if and only if somebody holds the mutex it wants, its token is not there, it is not shaved, the queue is full, its handler runs, or it has finished. |
| BarberTheorems.BarberBlockedIff | cw07/zad1/barber.c:180-251 | The same of the barber. |
| BarberTheorems.StuckIff | cw07/zad2/barber.c:223-240 | The only stuck state of a shop that cannot jam has the barber asleep, the queue empty and every client gone. |
| BarberTheorems.ClosedMeansShaved | cw07/zad2/client.c:137-234 | By then every client has had exactly the shaves it came for. |
| BarberTheorems.ShavesAreCounted | cw07/zad2/client.c:180-184 | At any time a client's shaves are those it has counted off, or one more that it is about to count. |
| BarberTermination.StepLowersMeasure | cw07/zad2/client.c:186-193 | Every step but being turned away for lack of a seat lowers an explicit measure. |
| BarberTermination.RunLength | cw07/zad1/client.c:136-242 | A run of n clients has at most n (24 visits + 23) + 4 steps, and 5 more for each refusal. |
| BarberMemory.Day | cw07/zad1/barber.c:180-251 | In place, both programs on any schedule: the handshake semaphores hold one token at most, the seat counter is right whenever the mutex is free, and when nobody can move in a shop that cannot jam every client has gone home with its shaves and queue, seats and semaphores are as in the beginning. |
| Records.StableSortUnique | cw02/zad1/zad1.c:83-115 | A sequence of records has only one stable sort by its first byte, read as a signed char. |
| Records.StableSortPermutes | cw02/zad1/zad1.c:83-115 | That sort is a permutation of the records. |
| Records.InsertedIsStable | cw02/zad1/zad1.c:92-114 | Putting a record behind all that are not greater extends a stable sort by it. |
| FileSort.File.Read | cw02/zad1/zad1.c:95-96 | read and fread give the bytes from the offset, as many as there are, and move the offset by as many; a stream must not have written since its last seek. |
| FileSort.File.Write | cw02/zad1/zad1.c:98-99 | write and fwrite replace the bytes at the offset and move it. |
| FileSort.SwapRecords | cw02/zad1/zad1.c:93-99 | Reading two neighbours and writing them back the other way round swaps exactly those two records and leaves the rest of the file alone. |
| FileSort.InsertRecord | cw02/zad1/zad1.c:84-114 | The loop and the final test, which splits off the first record, bring the record to its place among the sorted ones. |
| FileSort.Sort | cw02/zad1/zad1.c:83-115 | The first NoR SoR bytes become the stable sort of the original records, all later bytes stay, and no offset outside the record area is sought. |
| FileSort.SortedBytes | cw02/zad1/zad1.c:92-106 | In bytes: the first bytes of neighbouring records are in order, those from 128 up before the others and each kind ascending; the records are the original ones, whole and each as often; the rest of the file is unchanged. |
| FileSort.TwoRecords | cw02/zad1/zad1.c:83-115 | The file "b a " becomes "a b ". |
| FileSort.BranchesAgree | cw02/zad1/zad1.c:131-163 | What the sort promises determines the file, so the sys and the lib branch produce the same one. |
| Splitter.JoinSegments | cw05/zad1/zad1.c:41-53 | Joining the argument vectors with bars gives the token list back, but for a bar at its very end. |
| Splitter.RoundTripIff | cw05/zad1/zad1.c:49-51 | So the round trip holds exactly for the lists that do not end in a bar. |
| Splitter.JoinThenSplitIff | cw05/zad1/zad1.c:41-53 | Vectors joined with bars and split again are the same if and only if no word is a bar and the last vector is not empty. |
| Splitter.SegmentsHaveNoBar | cw05/zad1/zad1.c:43-47 | No argument vector contains a bar. |
| Splitter.Split | cw05/zad1/zad1.c:32-53 | The two loops fill the 10 by 10 table with exactly those vectors, NULL everywhere else. |
| PipelineProof.StepKeepsInv | cw05/zad1/zad1.c:76-117 | Every move of the shell and of any child keeps the wiring invariant: who has which end of which pipe on which descriptor. |
| PipelineProof.HoldersFormAChain | cw05/zad1/zad1.c:94-105 | When all is wired, in whatever order the processes moved, descriptor 1 of child k is the write end of pipe k and descriptor 0 of child k + 1 its read end, no other child has either, the last pipe is with the last child alone, every other descriptor is as inherited, and the shell has the table it began with. |
| PipelineProof.EveryEndClosedOnce | cw05/zad1/zad1.c:79-82 | The shell closes each end of each pipe exactly once, although a slot is reused for the pipe made two turns later. |
| PipelineProof.EveryCloseIsOfAnOpenPipe | cw05/zad1/zad1.c:79-82 | A slot turned to for closing still holds the open pipe made two turns before. |
| PipelineProof.WiringGoesOn | cw05/zad1/zad1.c:94-105 | No dup2 fails, and some process can move until all are done. |
| PipelineProof.NobodyWaits | cw05/zad1/zad1.c:94-105 | Each child can go on until it executes its program, and the shell until all is wired, with any two free descriptors a pipe is given. |
| PipelineProof.RunLength | cw05/zad1/zad1.c:76-117 | Wiring i programs takes at most 9 i + 5 steps in any interleaving. |
| PipelineShell.Shell.Wire | cw05/zad1/zad1.c:78-117 | In place: the loop over the two-slot table is a run of the pipeline. |
| PipelineShell.WirePipeline | cw05/zad1/zad1.c:76-117 | It leaves the shell with the descriptors it had and one child a program. |
| Convolution.IndexIsNearest | cw08/zad1/zad1.c:56-68 | The nested conditional gives the position inside the image that is nearest to the one the window asks for. |
| Convolution.RoundIsNearest | cw08/zad1/zad1.c:72 | Rounding is to the nearest integer, halves away from zero. |
| Convolution.StartRoutine | cw08/zad1/zad1.c:47-77 | One thread sets exactly the pixels of its rows, each to the rounded weighted sum. |
| Convolution.Window | cw08/zad1/zad1.c:53-71 | The two inner loops accumulate that sum. |
| FilterMeaning.ImpulsePicks | cw08/zad1/zad1.c:53-72 | A filter that is 1 at (p, q) and 0 elsewhere gives for pixel (x, y) the pixel at row x - ceil(c / 2) + p and column y - ceil(c / 2) + q, moved into the image. |
| FilterMeaning.SumIsLinear | cw08/zad1/zad1.c:69 | The sum before rounding is linear in the filter, so the filters with a single 1 determine it. |
| Convolution.RangesPartition | cw08/zad1/zad1.c:166-175 | For any height and number of threads each row belongs to exactly one thread, and nothing beyond the image to any. |
| Convolution.FilterAll | cw08/zad1/zad1.c:186-202 | The single double loop sets every pixel. |
| Convolution.FilterByRanges | cw08/zad1/zad1.c:166-178 | The ranges one after another give the same image. |
| FilterThreads.InterleavingDoesNotMatter | cw08/zad1/zad1.c:164-178 | Any interleaving of the threads, loop turn by loop turn, ends in the image of the single loop; until then some thread can move. |
| FilterThreads.WritesAreDisjoint | cw08/zad1/zad1.c:51-74 | Two threads that still have work are never at the same row. |
| FilterThreads.ThreadsDoNotWait | cw08/zad1/zad1.c:47-77 | A thread can go on until its rows are done, whatever the others do. |
| FilterGenerator.Shuffle | cw08/zad1/filter.c:56-61 | In place, whatever rand() returns, the loop gives the specified shuffle. |
| FilterGenerator.ShuffleTurn | cw08/zad1/filter.c:57-60 | Each turn exchanges its place with the chosen one and leaves the others alone. |
| FilterGenerator.EveryOrderArises | cw08/zad1/filter.c:54-61 | Every order can come out of the shuffle. |
| FilterGenerator.KernelIsLines | cw08/zad1/zad1.c:150-158 | Read row by row, the filter is the list of lines the generator wrote. |
| FilterGenerator.ShuffledPermutes | cw08/zad1/filter.c:54-61 | The shuffle is a permutation. |
| FilterGenerator.Generate | cw08/zad1/filter.c:47-71 | The file holds the shuffled numbers over c (c - 1) / 2; for side 1 it holds nothing usable. |
| FilterGenerator.CoefficientsAreWeights | cw08/zad1/filter.c:64-68 | No coefficient is negative and they sum to 1. |
| FilterGenerator.WeightsIff | cw08/zad1/filter.c:64-68 | The sum is 1 exactly when the side is at least 2. |
| FilterGenerator.WeightsKeepRange | cw08/zad1/zad1.c:51-74 | A filter of such weights keeps every image within any range lo .. hi of its values. |
| FilterGenerator.GeneratedFilterKeepsRange | cw08/zad1/filter.c:47-71 | Both programs together: whatever rand() returns, a generated filter of side 2 or more keeps every image within its range. |
| FilterGenerator.RangeKeptIff | cw08/zad1/zad1.c:51-74 | The exact condition: a generated filter keeps the range lo .. hi of an image if and only if its side is 2 or more, or there is no pixel, or lo <= 0 <= hi; for side 1 there is none. |
| Registry.Table.Lookup | cw06/zad1/server.c:70-74 | The first place that holds the pid, or the table's size. |
| Registry.Table.Admit | cw06/zad1/server.c:79-97 | The circular search ends, takes the first free place from client_no on, and refuses exactly if there is none. |
| Registry.FreePlaceIff | cw06/zad1/server.c:79-95 | A place is found exactly if one is free. |
| Registry.StringToInt | cw06/zad1/server.c:19-26 | The loop computes the decimal value; on the text of a number it gives that number back. |
| Registry.ValueOfDecimal | cw06/zad1/server.c:97-99 | Reading what sprintf wrote gives the number. |
| Registry.DecimalOfValue | cw06/zad1/server.c:19-26 | And writing what was read gives the text, for texts without leading zeros. |
| Registry.DigitsCount | cw06/zad1/server.c:21-24 | The digits count from 0 to 9, and one more digit multiplies by ten what stands before it. |
| Registry.Mirror | cw06/zad1/server.c:106-112 | The text in the buffer is reversed in place, although its length is looked up again in every turn. |
| RegistrationServer.Serve | cw06/zad1/server.c:67-180 | One turn of the loop on the table in memory is receiving and handling of the message in the whole system. |
| RegistrationClient.Process.StepInProtocol | cw06/zad2/client.c:70-160 | They keep the client in agreement with its place and its messages on their way. |
| RegistrationClient.Session | cw06/zad1/client.c:49-143 | In place, a client under any sequence of events: it sends START, then one message for each line typed, in order and with that line's own operation and text, nothing for a wrong word, and at its end STOP unless END was typed; it is stopped by an interrupt or END alone, reads at most one line more then, and until then never sends with a reply outstanding. |
| RegistrationProof.StepKeepsInv | cw06/zad1/server.c:67-184 | Every step of the server and of any client keeps the protocol invariant. |
| RegistrationProof.OnePlaceEach | cw06/zad1/server.c:96-97 | Each pid has at most one place, and a client that has its number has the place of that number, which leads to its queue, until it has said STOP. |
| RegistrationProof.SenderIsFound | cw06/zad1/server.c:70-74 | Every message but START finds its sender's place, in range; the START of a client finds none; so the server never looks beyond its table. |
| RegistrationProof.AdmittedIff | cw06/zad1/server.c:92-102 | START is admitted exactly if a place is free: then the client gets its place and number, otherwise nothing. |
| RegistrationRuns.SomebodyIsRefused | cw06/zad1/server.c:79-102 | With more clients than places there is a run in which the table fills up and one more client is refused. |
| RegistrationRuns.RefusedForGood | cw06/zad1/server.c:92-95 | In every continuation, also when places become free, a refused client gets no reply and makes no step. |
| RegistrationProof.ExactlyItsReply | cw06/zad1/client.c:110-122 | A waiting client has one request outstanding, and what its queue holds is the answer to that request and nothing else. |
| RegistrationProof.AtMostOneOutstanding | cw06/zad1/client.c:110-143 | No private queue holds more than one message, and of one client at most two are on their way, the second being its STOP. |
| RegistrationRuns.TurnsAfter | cw06/zad1/server.c:67-75 | Each step of the server brings the answer of a waiting client one step nearer, and no step of anybody else pushes it back. |
| RegistrationRuns.AnswerComesInTime | cw06/zad1/server.c:67-184 | So the answer is there after a number of server steps known beforehand, at most twice the length of the queue and one, whatever the other clients do. |
| RegistrationRuns.ServerGoesOn | cw06/zad1/server.c:67-75 | And until it is there the server can make a step. |
| RegistrationRuns.EndsIff | cw06/zad1/server.c:166-182 | The server ends if and only if it handles END or is interrupted between two messages. |
| RegistrationRuns.QueueWithinCapacity | cw06/zad2/server.c:46-50 | The public queue never holds more than it has room for, and only a full queue keeps a client from sending. |
| RegistrationRuns.RestMeansDone | cw06/zad1/server.c:67-184 | While the server runs, all comes to rest only with every client gone, at its input, or refused. |
| RegistrationRuns.WorldIsFree | cw06/zad1/client.c:61-66 | Lines, missing lines and interrupts can come at any time to a client in its input loop, and an interrupt to the server between two messages. |
| BarrierTheorems.OneToken | cw04/zad2/zad2.c:144-165 | The semaphore, the parent while it sets up, pending SIGUSR1 and SIGCHLD, running handlers and children in a critical section hold one token between them, always. |
| BarrierTheorems.NoSignalIsLost | cw04/zad2/zad2.c:151-159 | A child that sends SIGUSR1 or exits finds neither signal pending nor in a handler; SIGUSR2 is sent to a child at most once. |
| BarrierTheorems.PermittedChildren | cw04/zad2/zad2.c:35-53 | After k requests nobody is permitted if k < K, and exactly the k children that asked, once each, if k >= K. |
| BarrierTheorems.ReapedIsSender | cw04/zad2/zad2.c:71-78 | wait() in the SIGCHLD handler returns the child that sent the signal. |
| BarrierTheorems.WorkFollowsPermission | cw04/zad2/zad2.c:167-173 | Nobody works before K requests are handled; when the parent leaves its loop every child has been permitted and has worked. |
| BarrierTheorems.StuckIff | cw04/zad2/zad2.c:144-173 | Nothing can happen any more exactly when the program is over or hung. |
| BarrierTheorems.WhatHungMeans | cw04/zad2/zad2.c:156-169 | Hung means: K > N, all have asked and nobody works; or all have worked and been counted and the parent missed it. |
| BarrierTheorems.OneChildCanHang | cw04/zad2/zad2.c:156-169 | That the program always ends is false: a concrete run with one child and K = 1 that hangs, both pause calls coming after the signal they wait for. |
| BarrierEnd.OverIff | cw04/zad2/zad2.c:167-173 | The exact condition: cut a run that has stopped at any state in which all children have been counted and the parent is not between its test and its pause; the program is over if and only if the parent was not pausing there, or a child that will still exit is on its way to wake it. |
| BarrierEnd.SignalsWake | cw04/zad2/zad2.c:167-169 | Any signal delivered to the pausing parent ends its pause. |
| BarrierEnd.LastReportInTime | cw04/zad2/zad2.c:66-69 | If the last report finds the parent pausing the program gets over, however it goes on. |
| BarrierEnd.BlockedIff | cw04/zad2/zad2.c:144-169 | A child waits only for the token, its permission or to be reaped, the parent only for its handlers and in pause, and no signal is kept from it. |
| BarrierEnd.CheckedIsARace | cw04/zad2/zad2.c:167-169 | Between test and pause: with nobody on the way the program hangs; with somebody, a parent that pauses at once is still woken. |
| BarrierEnd.StuckIsCounted | cw04/zad2/zad2.c:66-69 | With K <= N every run that has stopped has such a cut: its end. |
| BarrierEnd.TooFewNeverEnd | cw04/zad2/zad2.c:35-53 | With K > N >= 1 no run gets over. |
| BarrierTheorems.RunLength | cw04/zad2/zad2.c:35-173 | Every run ends, over or hung, within 28 N + 4 steps. |
| BarrierMemory.Meet | cw04/zad2/zad2.c:35-173 | In place, the whole program on any schedule: one token in semaphore, signals, handlers and children; between handlers exactly the right children permitted; nobody works before K have asked; all have worked when it is over. |
| Blocks.AddBlockDynamic | cw01/zad1/library.c:59-87 | A bad index or a long text leaves the array alone; otherwise the new block, with the text, is inserted exactly at n by neighbour swaps. |
| Blocks.DeleteBlockDynamic | cw01/zad1/library.c:115-133 | Exactly the block at n is removed and given back; a bad index changes nothing. |
| Blocks.AddThenDelete | cw01/zad1/library.c:59-133 | Deleting at n after adding at n brings the original pointers back. |
| Blocks.InsertedRemoved | cw01/zad1/library.c:115-133 | The other way round: inserting a removed block at its index restores the array. |
| Blocks.NearestDynamicSum | cw01/zad1/library.c:135-160 | The first index other than n with the least distance of sums, if some distance is below block n's own sum; otherwise 0; -1 for a bad index. |
| Blocks.SumOfTwo | cw01/zad1/library.c:141-151 | Sums of characters add up over the parts of a text. |
| Blocks.NearestIff | cw01/zad1/library.c:145-157 | It is the nearest block exactly if some block is nearer than an empty text would be, or block 0 happens to be the first nearest. |
| Blocks.MissesNearest | cw01/zad1/library.c:145-157 | Three blocks for which the search misses the nearest one. |

## Left out

- Output, timing, option files and command-line dispatch: no invariant.
- Directory walkers, batch interpreters, clock and signal toys, FIFO master and slave, dlopen drivers (cw02/zad2a, cw02/zad2b, cw03, cw04/zad1a, cw04/zad1b, cw05/zad2, cw01/zad2, cw01/zad3a, cw01/zad3b): library plumbing.
- cw04/zad3: a two-party counter; cw06/zad1/zad1.c and cw10/zad1/client.c repeat programs modelled here; cw10/zad1/server.c is unfinished.
- Timeouts (NK) and thread cancellation of cw09; NK is 0 and L is not negative.
- Failing calls: malloc, fork, pipe, open, a queue that cannot be opened; a wait interrupted by a signal outside the handlers modelled.
- Integer widths: cursors, counters, sums of characters and decimal values are unbounded integers, so overflow of int is not modelled.
- Floating-point rounding and the six-digit text of the coefficients (cw08): coefficients are reals.
- cw06/zad2 opens a client's queue by the path made of its pid, cw06/zad1 takes its number from the message; the model does the latter, and distinct pids and distinct queues are assumed for both.
- Answers of ADD, MUL, SUB, DIV and TIME (cw06): the protocol carries which request is answered; the sums and products, one line each, the float quotient and the clock text are not computed. Trimming of the last character of a request and the empty input line, on which strtok gives NULL, are not modelled.
- strtok: the splitter starts from the token list, and the table's bounds of 10 by 10 are a precondition, as the source does not check them.
- n++ and the handlers' single accesses are atomic also against a nested handler of another real-time signal (cw04/zad2).
- insertBlockDynamic, the static arrays and nearestStaticSum (cw01): easy, and the last stores a signed difference.
- Closing of a child's descriptors at exec, and what the programs of a pipeline do afterwards.
- SIGINT of a registration client outside its input loop, and of the barber programs and the barrier's parent: they end the process.
- BarrierMemory.Meet: the children are a sequence field, as they are processes, not an array of the source.
- FileSort.Sort: the file holds at least NoR SoR bytes; on a shorter one the source goes on with what an earlier read left in its buffers.
