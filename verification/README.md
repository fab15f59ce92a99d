# Verified models of the operating systems labs

The repository is a set of C labs. This project models the ones whose correctness rests on an
interleaving, a protocol or a loop with a real invariant, and proves what they keep over all runs.

| modules | what they model |
|---|---|
| `HospitalModel`, `HospitalInvariant`, `HospitalTheorems`, `HospitalReach`, `HospitalShortage`, `HospitalDeadlock`, `HospitalFinish`, `HospitalLuck`, `HospitalHang`, `HospitalSkip`, `HospitalMonitor` | Lab 10: a doctor, any number of patients and pharmacists, one mutex, three condition variables |
| `BufferModel`, `BufferTheorems`, `StackOrders`, `BufferMonitor` | Test 2: producer and consumer around a last-in-first-out buffer |
| `SpoolerModel`, `SpoolerInvariant`, `SpoolerTheorems`, `SpoolerQueue` | Lab 8: users and printers around a ring guarded by semaphores |
| `Quadrature`, `QuadratureBounds`, `QuadratureThreads` | Labs 9 and 6: numerical integration in k pieces |
| `ChatTable`, `ChatClients`, `ChatServer`, `ChatLists`, `ChatRequests`, `Wire`, `Tokenizer`, `Eviction` | Lab 12: the datagram chat's server, its client table, its lists, what becomes of each request, its text protocol and its timeouts |
| `ClientThreads`, `ClientTheorems`, `ClientRuns` | Lab 12: the two threads of the client, which share one saved position of strtok |
| `StreamTable`, `StreamServer`, `StreamHandlers` | Lab 11: the table of the stream chat under its handlers, its alive checker and its admission |
| `BroadcastServer` | Lab 7: the message queue chat |
| `Flipper`, `Collatz` | Labs 3 and 2: two sequential loops |
| `Sequences`, `Separated` | counting and searching over sequences, texts cut at a separator; shared by the others |

How the concurrent programs are modelled. The shared variables, the program counter of every thread and a
history of the run form a state. One step is a region between taking a mutex (or waking on a
condition variable) and the next release (or wait); a read or write made without the mutex is a
step of its own. Blocked threads may wake at any time; a flag records whether a signal has reached them,
so that spurious wakeups are allowed and lost ones can be told. `Step` leaves everything open once an
index has left its array, and the invariants show that this never happens. Theorems speak about every
run (`IsRun`): every number of threads, every interleaving. Beside the transition systems, classes
carry the programs' own variables and arrays; their methods follow the critical sections statement by
statement and are proved against the functions that the steps are made of.

Histories (consulted groups, datagrams sent, jobs added) are fields of the state that no step reads.

Some promises turn out not to be kept by the code; each has a run or an input that shows it and a
statement of exactly when the code does meet it:

- Lab 10/README.md asks that the doctor never sleeps while three patients wait and that pharmacists can
  always restock. `ShortageHangs` is a run in which both fail for good, although patients still come and
  go. Three patients that sit are consulted without a spurious wakeup if and only if stock suffices or
  some pharmacist is not asleep in the loop that waits for a shortage (`FullRoomServedExactly`,
  `RestockedExactly`); a pharmacist misses a shortage at one kind of step only (`MissedExactly`).
- The program of Lab 10 is meant to end once everybody is treated. Some run does so if and only if there
  are no patients, or at least three of them and a pharmacist (`FinishesExactly`). Without spurious
  wakeups there must be seven patients, or nine or more (`FinishesAlertExactly`): with eight, say, no run
  ever ends. `StuckExactly` lists the four ways to hang at rest; for which numbers of patients and
  pharmacists each can happen, with spurious wakeups and without, is stated exactly.
- `patients_remaining` is meant to count the untreated patients. It can be too high as soon as there are
  three of them (`DriftsExactly`); `CounterDriftsExactly` names the one kind of step at which it drifts. It
  is never too low.
- The client of Lab 12 is meant to send what was typed and to show what arrives. Both of its threads call
  strtok, which keeps one saved position per process, so a message that arrives in between can take the
  place of the typed text, swallow it, or cut the next line (`TypedTextReplaced`, `TypedTextLost`,
  `NextLineCut`). Main sends what was typed if no call of the receiver fell between its two calls and none
  went on cutting in its buffer before (`TypedIsSent`), the receiver shows what arrived if no call of main
  fell between its calls (`ReceivedIsShown`); a thread goes on where it left off exactly then
  (`MainGoesOnExactly`, `ReceiverGoesOnExactly`). The statements about one parse (`Wire`, `Tokenizer`) are
  what such a lone parse gives.
- Lab 3/README.md asks for each line to be reversed in place; the code reverses the whole file.
  `TwoLinesDiffer` is a file where that matters, `PerLineExactly` says for which files the two agree.
- Identifiers of the Lab 12 server are meant to be unique. One of 32 characters or more is cut short and
  can be registered twice (`LongIdsCollide`); `RegistrationKeepsUnique` says when a registration is safe.
- `remove_client` of Lab 11 is meant to remove the handler's own client. After the alive checker has
  closed a descriptor that is then handed out again it removes another one (`LeaveFreesForeignSlot`,
  `LeaveFreesForeignSlotExactly`).

## Model

| member | source | states |
|---|---|---|
| HospitalTheorems.NobodyLeavesUntreated | Lab 10/zad1.c:105-171 | In every state of every run the counter is at least the number of untreated patients, a patient thread that has ended is treated, and a treated patient was in a group consulted after it last sat down |
| HospitalTheorems.TreatedPerConsultation | Lab 10/zad1.c:57-70 | At most three treated patients per finished consultation |
| HospitalTheorems.AllServedMeansAllTreated | Lab 10/zad1.c:268-287 | When main prints that everybody was served, all n patients are treated, all pharmacists have ended, the counter is 0 and no decrement was skipped |
| HospitalTheorems.CounterDriftsExactly | Lab 10/zad1.c:144-163 | The counter drifts from the number of untreated patients at a step if and only if a consulted patient wakes to find somebody else seated |
| HospitalSkip.DriftsExactly | Lab 10/zad1.c:160-163 | Some run makes the counter larger than the number of untreated patients if and only if n >= 3, with spurious wakeups or without |
| HospitalSkip.CounterDriftHappens | Lab 10/zad1.c:160-163 | For every n >= 3 a run without spurious wakeups after which the counter is n and n - 1 patients are untreated |
| HospitalTheorems.MedicineConserved | Lab 10/zad1.c:67-85 | Stock is 6 plus 3 per delivery minus 3 per consultation, always 0, 3 or 6; consultations lead deliveries by 0 to 2; no overdraft, and the clamp at the capacity never cuts |
| HospitalTheorems.ConsultationStable | Lab 10/zad1.c:57-70 | However the others move while the doctor consults without the mutex, the three announced distinct patients keep the slots, the stock stays sufficient, and they are the group recorded at the end |
| HospitalTheorems.DeliveryStable | Lab 10/zad1.c:73-88 | Throughout an unlocked delivery the offer stands, the stock stays short, and the pharmacist that made the offer is still waiting for it |
| HospitalTheorems.DoctorSleepsWithoutWork | Lab 10/zad1.c:38-46 | A blocked and unsignalled doctor has neither a group to consult nor a delivery to take, for all numbers of patients and pharmacists |
| HospitalTheorems.PatientSleepsSeated | Lab 10/zad1.c:139-158 | A waiting patient has been signalled if and only if it was consulted, and sits if and only if it was not |
| HospitalTheorems.PharmacistSleepsOffering | Lab 10/zad1.c:212-219 | While a pharmacist waits unsignalled for its delivery, an offer stands, stock is short and the doctor has been called |
| HospitalTheorems.OfferStandsUntilDelivery | Lab 10/zad1.c:212-222 | A pharmacist that has made an offer waits, and the offer stands, until medicine has been delivered since |
| HospitalTheorems.EveryRoundWorks | Lab 10/zad1.c:48-95 | Before main's shutdown signal the doctor's critical section ends in a consultation, a delivery, sleep, or the end with nobody untreated; never in an idle round |
| HospitalTheorems.TestsThatNeverDecide | Lab 10/zad1.c:34-201 | In every state of every run a counter of 0 means an empty room, so the second half of the loop tests of doctor and pharmacists never keeps them going; an untreated patient always finds somebody untreated; nobody waits at a position beyond the seats |
| HospitalShortage.RestockedExactly | Lab 10/zad1.c:197-219 | While stock is short and a patient is left to be consulted, a further delivery can be reached without a spurious wakeup if and only if some pharmacist is not asleep in the loop that waits for a shortage |
| HospitalShortage.FullRoomServedExactly | Lab 10/README.md:82 | Three patients that sit can be consulted without a spurious wakeup if and only if stock suffices or some pharmacist is not asleep in that loop |
| HospitalShortage.AbandonedIsFinal | Lab 10/zad1.c:39-46 | Once all pharmacists have missed a shortage, nothing but a spurious wakeup ever leads to a consultation, a delivery or the end, however many patients come and go |
| HospitalShortage.MissedExactly | Lab 10/zad1.c:67-70 | A pharmacist comes to miss a shortage if and only if it sleeps in that loop while the consultation that takes the last 3 units ends |
| HospitalFinish.FinishesExactly | Lab 10/zad1.c:233-287 | Some run reaches the closing line if and only if n = 0, or n >= 3 and m >= 1 |
| HospitalFinish.NoPharmacistsNeverFinish | Lab 10/zad1.c:131-145 | With patients and no pharmacists somebody is unconsulted in every state of every run |
| HospitalLuck.FinishesAlertExactly | Lab 10/zad1.c:131-163 | Some run without spurious wakeups reaches the closing line if and only if n = 0, or m >= 1 and n is 7 or at least 9 |
| HospitalLuck.ConsultationReleases | Lab 10/zad1.c:57-70 | Without spurious wakeups a consultation releases exactly three of the patients left if its third member waits, and exactly two if it does not |
| HospitalDeadlock.StuckExactly | Lab 10/zad1.c:34-287 | No thread can move without a spurious wakeup if and only if the program has finished, or fewer than three patients are left, or an empty cabinet went unnoticed by all pharmacists, or a skipped decrement keeps the doctor waiting, or the doctor left a standing offer |
| HospitalHang.TooFewExactly | Lab 10/zad1.c:139-144 | Some run hangs with one or two patients left if and only if n >= 1, and m >= 1 or n <= 6, with spurious wakeups or without |
| HospitalHang.ShortageHangs | Lab 10/README.md:82 | For every n >= 7 and every m a run without spurious wakeups after which three patients wait for a sleeping doctor, the cabinet is empty and all pharmacists have missed it |
| HospitalHang.ShortageUnnoticedHappens | Lab 10/zad1.c:197-200 | With seven patients and any number of pharmacists a run that then comes to rest |
| HospitalHang.ForgottenExactly | Lab 10/README.md:82 | Some run comes to that state if and only if n >= 3, and without spurious wakeups if and only if n >= 7 |
| HospitalSkip.DecrementLostExactly | Lab 10/zad1.c:160-163 | Some run hangs with all patients treated, because a decrement was skipped, if and only if n >= 4 and m >= 1; without spurious wakeups if and only if m >= 1 and n is 7 or at least 9 |
| HospitalSkip.OfferAbandonedExactly | Lab 10/zad1.c:217-219 | Some run hangs with a pharmacist's offer left behind by the doctor if and only if n >= 3 and m >= 1; without spurious wakeups if and only if m >= 1 and n is 7 or at least 9 |
| HospitalInvariant.RunInv | Lab 10/zad1.c:34-292 | The invariant (layout, stock, accounting, patients, doctor, pharmacists, main) holds in every state of every run |
| HospitalInvariant.WakeOutcome | Lab 10/zad1.c:144-163 | A woken patient is treated if and only if it has lost its seat; otherwise it waits on, or leaves its seat's loop only while three sit |
| HospitalModel.FindSeat | Lab 10/zad1.c:146-153 | The scan returns the first slot in use that holds the identifier, or -1 if and only if none does |
| HospitalMonitor.Hospital.constructor | Lab 10/zad1.c:242-247 | The initial values of the shared variables |
| HospitalMonitor.Hospital.DoctorEnters | Lab 10/zad1.c:36-77 | The doctor's section up to the next wait or release changes the shared variables as the specification says |
| HospitalMonitor.Hospital.EndConsultation | Lab 10/zad1.c:65-94 | The end of a consultation |
| HospitalMonitor.Hospital.EndDelivery | Lab 10/zad1.c:80-94 | The end of a delivery, with the clamp |
| HospitalMonitor.Hospital.PatientEnters | Lab 10/zad1.c:112-136 | A patient is turned away, retries or takes a seat, and calls the doctor if and only if it is the third and medicine suffices |
| HospitalMonitor.Hospital.PatientWaits | Lab 10/zad1.c:138-144 | The waiting loop's test and what follows it |
| HospitalMonitor.Hospital.PatientLeaves | Lab 10/zad1.c:160-165 | The decrement behind the waiting loop |
| HospitalMonitor.Hospital.PatientWakes | Lab 10/zad1.c:144-158 | The scan for one's own seat after a wakeup and what follows it |
| HospitalMonitor.Hospital.PharmacistEnters | Lab 10/zad1.c:187-215 | A pharmacist ends, waits for a shortage or offers a delivery |
| HospitalMonitor.Hospital.PharmacistSeesStock | Lab 10/zad1.c:197-215 | The shortage loop's test and what follows it |
| HospitalMonitor.Hospital.PharmacistOffers | Lab 10/zad1.c:208-219 | The offer and the call to the doctor |
| BufferTheorems.FinalResults | Test 2/main.c:119-124 | When both threads have ended, the processed values are a permutation of 0..n-1 without the pattern large, small, middle, every prefix fitted the buffer, and count and sum are n and n(n-1)/2 |
| BufferTheorems.ChecksPass | Test 2/checks.h:13-37 | With buffer size 10 and 20 values both final checks pass |
| BufferTheorems.NoLostWakeup | Test 2/main.c:55-57 | A blocked unsignalled producer means a full buffer, a blocked unsignalled consumer an empty one; never both |
| BufferTheorems.DeadlockFree | Test 2/main.c:49-98 | If nothing can move without a spurious wakeup, both threads have ended |
| BufferTheorems.StepUsesRank | Test 2/main.c:52-97 | A spurious wakeup changes nothing and every other step lowers the rank |
| BufferTheorems.RunsAreShort | Test 2/main.c:49-98 | Every run has at most 4n steps besides spurious wakeups |
| StackOrders.ProducibleExactly | Test 2/main.c:49-98 | An order of the values can be produced by some run if and only if it is a permutation without the pattern whose prefixes all fit into the buffer |
| BufferModel.RunInv | Test 2/main.c:33-98 | The invariant holds in every state of every run: the live part is increasing and disjoint from the output, together they are all values produced |
| BufferMonitor.BoundedBuffer.ProcessValue | Test 2/checks.h:7-11 | Sum and count of processed values |
| BufferMonitor.BoundedBuffer.ProducerSection | Test 2/main.c:52-65 | The producer's critical section on the array equals the producer's step |
| BufferMonitor.BoundedBuffer.ConsumerSection | Test 2/main.c:83-97 | The consumer's critical section on the array equals the consumer's step |
| BufferMonitor.BoundedBuffer.RunToEnd | Test 2/main.c:103-124 | Whatever the scheduler picks, both threads end, with the right totals and a permutation without the pattern |
| SpoolerTheorems.RunRefinesQueue | Lab 8/zad1.c:49-78 | Every step of every run adds the user's own job at the back of the queue, removes the oldest one, or leaves it alone |
| SpoolerTheorems.FirstInFirstOut | Lab 8/zad1.c:52-75 | The jobs added are the jobs retired followed by the jobs in the ring, in order |
| SpoolerTheorems.JobsInOrder | Lab 8/zad1.c:43-63 | In every run the jobs a user has generated are those its steps added to the queue, unchanged and in order, followed by the one at hand |
| SpoolerTheorems.EqualIndicesAmbiguous | Lab 8/zad1.c:16-19 | Equal indices if and only if the ring is empty or full; the tokens give the number of jobs |
| SpoolerTheorems.TokensConserved | Lab 8/zad1.c:103-105 | Empty tokens, mutual exclusion and the slot a user writes to, which is never one in use |
| SpoolerTheorems.SomeoneCanMove | Lab 8/zad1.c:43-87 | In every state some process can take a step towards retiring a job: no deadlock |
| SpoolerTheorems.EveryScheduleRetires | Lab 8/zad1.c:43-87 | Every run of any scheduler has at most (length + 6) capacity + users + 2 printers + (length + 11) retired steps |
| SpoolerTheorems.EveryJobRetired | Lab 8/zad1.c:43-87 | In every run longer than that bound for q retired jobs, the q-th job added has been retired as the q-th |
| SpoolerTheorems.AlwaysProgress | Lab 8/zad1.c:43-87 | From every state the next retirement can be reached in a number of steps that does not depend on the capacity |
| SpoolerInvariant.Exclusive | Lab 8/zad1.c:50-77 | At most one process is inside its critical section |
| SpoolerInvariant.AddKeepsInv | Lab 8/zad1.c:52-56 | Advancing tail appends the job the user generated, character for character |
| SpoolerInvariant.RetireKeepsInv | Lab 8/zad1.c:75 | Advancing head retires the oldest job exactly once |
| SpoolerQueue.SharedQueue.AddJob | Lab 8/zad1.c:52-56 | The copy loop and the index update write the job into the slot at tail and nothing else |
| SpoolerQueue.SharedQueue.CopyCharacter | Lab 8/zad1.c:53 | One character of the slot at tail changes |
| SpoolerQueue.SharedQueue.RetireJob | Lab 8/zad1.c:75 | Only head changes |
| Quadrature.FDecreasing | Lab 9/zad1.c:18-20 | The integrand falls on the non-negative reals and lies between 0 and 4 |
| Quadrature.FInverts | Lab 9/zad1.c:18-20 | The integrand times x x + 1 is 4 |
| Quadrature.CalculateIntegral | Lab 9/zad1.c:22-31 | The loop ends and returns the sum of the rectangles from a up to b |
| QuadratureBounds.PieceBounds | Lab 9/zad1.c:22-31 | One piece lies between the upper sum over the points visited and the lower sum plus one rectangle |
| QuadratureBounds.TotalBetweenSums | Lab 9/zad1.c:66-98 | For every k, dx and partition of [0,1]: lower sum <= total <= upper sum + 4 k dx |
| QuadratureBounds.TwoRunsAgree | Lab 6/zad1.c:38-92 | Two runs with any k and dx differ by at most 4 k dx of the larger one |
| QuadratureBounds.TotalNearIntegral | Lab 9/zad1.c:95-98 | The total is at least the integral and exceeds it by at most 4 k dx |
| QuadratureBounds.TotalInNumbers | Lab 9/zad1.c:66-98 | For every k and dx the total lies above 3.03 and below 3.25 + 4 k dx |
| QuadratureBounds.TwoRectangles | Lab 9/zad1.c:22-31 | One thread with steps of one half computes 3.6 |
| QuadratureBounds.IntegralUnique | Lab 9/zad1.c:18-31 | Only one number lies between all lower and all upper sums |
| QuadratureBounds.EdgeIsQuotient | Lab 6/zad1.c:67-68 | The pieces of Lab 6 are those of Lab 9 |
| QuadratureThreads.PrintedIsTotal | Lab 9/zad1.c:33-98 | In every interleaving the printed number is the sum of all k finished pieces, within the error bound of every partition, and between 3.03 and 3.25 + 4 k dx |
| QuadratureThreads.CanPrint | Lab 9/zad1.c:66-98 | From every state of every run main can come to print the total within 6 k + 3 steps |
| QuadratureThreads.Board.ThreadFunction | Lab 9/zad1.c:33-38 | The result is stored, then the flag is raised |
| QuadratureThreads.Board.Poll | Lab 9/zad1.c:82-88 | A pass reports readiness if and only if all flags are up |
| QuadratureThreads.Board.AddUp | Lab 9/zad1.c:95-98 | The final loop adds up all pieces |
| ChatServer.RunRefinesRegistry | Lab 12/server.c:86-181 | For identifiers that fit, in every interleaving of main and ping thread active identifiers stay unique and every step acts on the table as insertion, removal, dropping of silent entries, or not at all, acts on a map |
| ChatServer.ForwardsCarryRegisteredId | Lab 12/server.c:108-170 | Every message passed on carries an identifier registered from the sender's address |
| ChatServer.PrivateMessageArrives | Lab 12/server.c:69-84 | In every run a private message goes to the address registered under the recipient's identifier, as a datagram that reads, when parsed alone, as the identifier its author registered and the text that fits; without such a recipient nothing is sent |
| ChatServer.SlotStable | Lab 12/server.c:109-176 | While a request is pending its slot keeps identifier and address although the mutex is released in between |
| ChatServer.LongIdsCollide | Lab 12/server.c:119-131 | An identifier of 32 characters can be registered twice |
| ChatRequests.RegistrationHandled | Lab 12/server.c:116-142 | For identifiers that fit, in every run a received REGI request inserts its identifier with the sender's address unless it is in use or ten clients are registered, and is answered by one datagram that says which |
| ChatRequests.RegistrationStored | Lab 12/server.c:116-142 | The same for identifiers of any length, slot by slot: the first free slot takes the identifier cut to 31 characters |
| ChatRequests.StrangerAnswered | Lab 12/server.c:143-144 | In every run any other datagram from an address that is in no active slot is answered with the error for strangers and changes nothing |
| ChatRequests.RequestRefreshes | Lab 12/server.c:109-148 | In every run a datagram from a registered address refreshes the time of its first active slot and nothing else |
| ChatRequests.StopRemoves | Lab 12/server.c:172-176 | In every run a received "STOP" takes its sender's identifier, and only that, out of the map if the slot is still active when it is handled |
| ChatRequests.PongKeeps | Lab 12/server.c:171 | In every run a received "PONG" is dispatched without any effect on table and datagrams |
| ChatRequests.ListAnswered | Lab 12/server.c:150-162 | In every run a received "LIST" is answered to its sender with the tag and the names of the table at that moment, which `ChatLists.NamesListed` says in terms of the map |
| ChatRequests.UnknownAnswered | Lab 12/server.c:177-178 | In every run a datagram that is no command is answered as such and changes nothing |
| ChatRequests.BroadcastDelivered | Lab 12/server.c:51-67 | In every run a received 2ALL request with a text leads to one copy of the text, with the identifier of its sender's slot, for every active slot with another identifier, in slot order, and nothing else |
| ChatRequests.PrivateDelivered | Lab 12/server.c:69-84 | In every run a received 2ONE request with a recipient and a text leads to one datagram to the address registered for the recipient when it is passed on, with the identifier of its sender's slot and the text that fits; to none if nobody is |
| ChatRequests.SweepPings | Lab 12/server.c:86-103 | In every run a sweep gives up the slots silent for more than 60 seconds and sends one ping to every other active slot |
| ChatLists.RecipientsExactly | Lab 12/server.c:59-66 | The recipients are the active slots with another identifier, once each, in slot order |
| ChatLists.CopiesExactly | Lab 12/server.c:60-63 | One datagram with the same text for every address |
| ChatLists.PingedExactly | Lab 12/server.c:92-101 | The pings go to the active slots heard of within 60 seconds, once each, in slot order |
| ChatLists.NamesListed | Lab 12/server.c:150-161 | The names, cut at their commas, are the identifiers of the active slots in slot order; each registered identifier is there exactly once and nothing else is |
| ChatTable.RegistrationKeepsUnique | Lab 12/server.c:118-141 | Registration keeps identifiers unique if and only if the identifier is in use, or the table is full, or the identifier as it will be stored is not in use |
| ChatTable.RegistrationRefines | Lab 12/server.c:118-141 | Registration is insertion into a map of at most ten entries; in use and full are reported exactly then |
| ChatTable.RegistryAt | Lab 12/server.c:31-38 | Every active slot is found under its identifier and is its entry in the map |
| ChatTable.DeactivateRefines | Lab 12/server.c:172-176 | Leaving removes the entry unless the slot was given up before |
| ChatTable.SweepDropsSilent | Lab 12/server.c:91-103 | The sweep removes exactly the silent entries |
| ChatTable.TouchKeepsRegistry | Lab 12/server.c:146-148 | Refreshing the time changes no entry |
| ChatTable.BroadcastReachesOthers | Lab 12/server.c:59-66 | A broadcast goes to everybody registered but the sender, once each |
| ChatClients.Server.FindClientById | Lab 12/server.c:31-38 | The loop finds the map's entry, or -1 if and only if there is none |
| ChatClients.Server.FindClientByAddr | Lab 12/server.c:40-49 | The first active slot with the address |
| ChatClients.Server.Register | Lab 12/server.c:117-142 | The REGI branch writes the table and sends the answer, of which 19 bytes go out when the server is full |
| ChatClients.Server.Touch | Lab 12/server.c:146-148 | Only the time of the slot changes |
| ChatClients.Server.Leave | Lab 12/server.c:172-176 | The STOP branch |
| ChatClients.Server.PingSweep | Lab 12/server.c:91-103 | The sweep and its pings |
| ChatClients.Server.ListClients | Lab 12/server.c:150-162 | The loop makes the tag followed by the names, whose meaning is `ChatLists.NamesListed` |
| ChatClients.Server.BroadcastMessage | Lab 12/server.c:51-67 | One copy of the formatted message to every recipient in slot order |
| ChatClients.Server.SendPrivateMessage | Lab 12/server.c:69-84 | One datagram to the recipient's entry in the map, none if there is no entry |
| Wire.PrivateRoundTrip | Lab 12/client.c:166-174 | Each parse taken alone: a typed private message reads at the recipient as its sender and a non-empty beginning of its text, all of it if and only if sender and text fit |
| Wire.PrivateShown | Lab 12/client.c:57-63 | A datagram parsed alone gives the sender it was formatted with if and only if that identifier is non-empty and free of separators |
| Wire.ToAllShown | Lab 12/client.c:50-56 | The same for broadcasts, whose text may be empty: the message is null if and only if it is |
| Wire.PrivateReadBack | Lab 12/server.c:165-170 | The server reads back recipient and text if and only if the recipient is free of separators |
| Wire.TypedPrivate | Lab 12/client.c:166-174 | A typed line parsed alone gives the message with recipient and text as typed |
| Wire.AllReadBack | Lab 12/client.c:160-165 | A broadcast reaches the server as typed |
| Wire.ParsedExactly | Lab 12/server.c:116-178 | Each command is told exactly by its tag or its whole text, and REGI and 2ALL keep what follows |
| Wire.TypedCommands | Lab 12/client.c:154-185 | What lines starting with LIST and STOP send, read by the server, are List and Stop; which lines are errors |
| Wire.AnswersShown | Lab 12/client.c:43-75 | Pings, lists and errors are told by their tags and what follows is shown |
| Wire.UntaggedShown | Lab 12/client.c:43-75 | Anything without a tag is shown as it is |
| Wire.TokensAreClean | Lab 12/client.c:58-60 | Every token of strtok is non-empty and free of delimiters |
| Wire.FittingTextIsPrefix | Lab 12/server.c:74-75 | What snprintf keeps of the text is a non-empty prefix, the whole text if and only if it fits |
| Tokenizer.Process.Strtok | Lab 12/client.c:51 | strtok in place: the token, the buffer and the saved position of the process are those of the definition on buffers |
| Tokenizer.Process.StrtokNext | Lab 12/client.c:52-53 | With NULL it goes on in whatever buffer the process cut last |
| Tokenizer.StrtokOnMeans | Lab 12/client.c:58-60 | On a buffer, a call returns the token and leaves the rest of the protocol's definition, writing behind the token at most |
| Tokenizer.Process.ParseForward | Lab 12/client.c:51-60 | Three calls with nobody in between yield the three fields, which stay intact |
| ClientTheorems.TypedIsSent | Lab 12/client.c:166-174 | In every run main sends what was typed if no call of the receiver fell between its two calls and the receiver did not go on cutting in its line before |
| ClientTheorems.CommandIsSent | Lab 12/client.c:156-185 | The other commands are sent as typed if the receiver has not cut the line, and main ends on STOP alone |
| ClientTheorems.MainGoesOnExactly | Lab 12/client.c:167-168 | While something is left of the line, strtok stands where main left it if and only if the receiver has not called it since |
| ClientTheorems.MessageOwnExactly | Lab 12/client.c:168 | The text main finds is the one of its own line if and only if the receiver has not called strtok since main's first call |
| ClientTheorems.ReceivedIsShown | Lab 12/client.c:50-63 | In every run the receiver shows a message as it arrived if no call of main fell between its calls |
| ClientTheorems.ReceiverGoesOnExactly | Lab 12/client.c:51-60 | While something is left, strtok stands where the receiver left it if and only if main has not called it since |
| ClientTheorems.SenderIsShown | Lab 12/client.c:50-61 | The sender is shown as it arrived in every run |
| ClientTheorems.AnswerIsShown | Lab 12/client.c:43-75 | In every run a ping is answered with PONG, and any other datagram that is no message is shown as the parser reads it |
| ClientTheorems.MainAloneExactly | Lab 12/client.c:167-168 | The count that says so is unchanged if and only if no step between main's calls is a call of the receiver |
| ClientTheorems.ReceiverAloneExactly | Lab 12/client.c:51-60 | The same for two successive calls of the receiver |
| ClientTheorems.LineKeptExactly | Lab 12/client.c:52-59 | The count of intrusions is unchanged if and only if no call of the receiver went on in main's buffer |
| ClientTheorems.RunInv | Lab 12/client.c:28-184 | What each thread has in its hands at each of its calls, in every state of every run |
| ClientRuns.TypedTextReplaced | Lab 12/client.c:166-174 | For every line and every message a run in which main sends the text that arrives to the recipient that was typed, and the receiver shows none |
| ClientRuns.TypedTextLost | Lab 12/client.c:169-177 | For every line and every message a run in which main sends nothing |
| ClientRuns.ReplacedDiffers | Lab 12/client.c:171 | What is sent in the first of these runs is not what was typed |
| ClientRuns.NextLineCut | Lab 12/client.c:160-163 | A run in which the receiver cuts main's next line and only its beginning is sent |
| Eviction.EvictedExactly | Lab 12/server.c:91-103 | In every run the slot of a client that does not leave is given up if and only if some sweep comes more than 60 s after the last request from that slot before it |
| Eviction.SilentClientEvicted | Lab 12/server.c:87-103 | In every run with sweeps at most g seconds apart a silent client is given up by a sweep no later than 60 + g seconds after its last request (90 for g = 30) |
| Eviction.OnePingForgiven | Lab 12/server.c:93-99 | In every run a client heard of after the sweep two rounds back survives, if two rounds take at most 60 s |
| Eviction.SecondSlotStarves | Lab 12/server.c:109-148 | Of two slots registered from one address only the first is refreshed: the second is given up by the first late sweep however much the client talks |
| StreamServer.CounterCounts | Lab 11/server.c:69-131 | In every state of every run client_count is the number of slots in use, between 0 and 10, and slots in use hold distinct identifiers and distinct open descriptors |
| StreamServer.AdmissionExactly | Lab 11/server.c:298-319 | A newcomer is turned away for lack of room if and only if all slots are in use |
| StreamServer.LeaveFreesOwnSlot | Lab 11/server.c:69-82 | A handler that still owns a slot frees and closes that one and nothing else |
| StreamServer.LeaveFreesForeignSlotExactly | Lab 11/server.c:69-82 | A leaving handler frees another handler's slot if and only if both hold the same descriptor number, and then it owns no slot itself |
| StreamServer.LeaveFreesForeignSlot | Lab 11/server.c:218-223 | A run in which a timed-out client's handler removes the client that was given its descriptor next |
| StreamHandlers.AdmittedExactly | Lab 11/server.c:298-319 | In every run a connection gets a handler if and only if a slot is free and the thread can be created; otherwise it is closed |
| StreamHandlers.FirstMessageExactly | Lab 11/server.c:91-101 | A first message that is a REGI request goes on with its identifier cut to 31 characters; any other ends the connection |
| StreamHandlers.RefusedExactly | Lab 11/server.c:103-111 | A taken identifier ends the connection, a full table leaves it without a slot |
| StreamHandlers.RegisteredExactly | Lab 11/server.c:113-131 | Otherwise a free slot takes socket, identifier and time, and the handler owns it, unless the answer cannot be sent |
| StreamHandlers.PongRefreshes | Lab 11/server.c:146-155 | PONG refreshes the slot of the handler that reads it and changes nothing else |
| StreamHandlers.LoopEndsExactly | Lab 11/server.c:138-203 | Other messages end the loop exactly if nothing more comes, on STOP, or when the answer to LIST cannot be sent, and change nothing else |
| StreamHandlers.CheckedExactly | Lab 11/server.c:214-236 | The checker frees exactly the slots silent for more than 60 seconds or not to be pinged, and closes exactly their descriptors |
| StreamTable.RegisterKeepsConsistent | Lab 11/server.c:103-131 | Registration of a socket not yet in the table keeps counter, sockets and identifiers right, whether or not the answer can be sent |
| StreamTable.CheckKeepsConsistent | Lab 11/server.c:214-236 | So does a pass of the alive checker, whatever it gives up |
| StreamTable.Server.RegisterClient | Lab 11/server.c:103-131 | The two loops find the identifier or the first free slot and update table and counter |
| StreamTable.Server.RemoveClient | Lab 11/server.c:69-82 | The loop frees the first slot with the socket |
| StreamTable.Server.CheckAlive | Lab 11/server.c:216-234 | The loop frees exactly the silent and unreachable slots and counts them off |
| BroadcastServer.Server.Serve | Lab 7/server.c:45-116 | After any sequence of received messages clients are numbered by slot and every queue holds its number and then the log since joining without the client's own posts |
| BroadcastServer.Server.Admit | Lab 7/server.c:74-90 | Admission of a client, up to ten |
| BroadcastServer.Server.Broadcast | Lab 7/server.c:105-111 | A post goes to every other client |
| BroadcastServer.Server.HandleMessage | Lab 7/server.c:57-115 | One received message appends its text to every queue but its sender's, or admits one client, or changes nothing |
| BroadcastServer.AtoiReads | Lab 7/server.c:99 | atoi reads a number from its decimal text behind white space and a sign, and 0 from what starts otherwise |
| BroadcastServer.PostDecoded | Lab 7/server.c:93-102 | A number, a bar and a text are read as a post of that client with that text |
| BroadcastServer.JoinDecoded | Lab 7/server.c:57-66 | INIT and a name are read as a request to join, INIT alone as malformed |
| BroadcastServer.MalformedDecoded | Lab 7/server.c:93-114 | An empty message and a number without a text are malformed |
| BroadcastServer.PostReaches | Lab 7/server.c:99-111 | After a post of client i every queue but client i's ends in text, and client i's is unchanged |
| BroadcastServer.JoinReaches | Lab 7/server.c:74-86 | After "INIT name" a new queue holds the next number |
| BroadcastServer.SameOrderForAll | Lab 7/server.c:105-111 | The queues of any two clients of a server: up to its own posts, the later one's is exactly the end of the earlier one's, in one order |
| Flipper.ReverseFile | Lab 3/flipper.c:17-37 | For every file and every positive chunk size the output is the reversed input |
| Flipper.ReverseBuffer | Lab 3/flipper.c:30-34 | The swap loop reverses the part of the buffer in use and leaves the rest |
| Flipper.ReverseTwice | Lab 3/flipper.c:23-37 | Flipping twice gives the file back |
| Flipper.ReverseLines | Lab 3/flipper.c:23-37 | The lines of the output are the reversed lines in reversed order |
| Flipper.PerLineExactly | Lab 3/README.md:6 | The output is the promised line-by-line reversal if and only if the list of lines is a palindrome |
| Flipper.TwoLinesDiffer | Lab 3/README.md:6 | A file of two lines for which they differ |
| Collatz.TestConvergence | Lab 2/collatz.c:11-27 | The recorder returns r > 0 if and only if the first 1 of the trajectory is at place r - 1 within the limit, 0 for inputs below 1, and records the trajectory so far |
| Collatz.NeverFromBelow | Lab 2/collatz.c:3-9 | From zero or below the trajectory never becomes positive |
| Collatz.GrowthBound | Lab 2/collatz.c:3-9 | 2^(i/2) (steps[i] + 1) <= 3^(i/2 + 1) (x + 1) for every x >= 1 and every i |
| Collatz.NoOverflow | Lab 2/collatz.c:17-20 | Starts and iteration counts for which all values stay below a given limit, such as 2^31 |
| Collatz.ConjectureCases | Lab 2/collatz.c:3-9 | Even values of either sign are halved, odd ones are tripled and increased to an even one |

## Left out

- Operating system calls, sockets, signals, process creation, file opening, clocks and printing: time is an input, a send is an entry of a log, and the joins of `main` are steps.
- Floating-point rounding and the memory ordering of unsynchronised reads and writes in Labs 6 and 9: exact reals and sequentially consistent steps.
- Liveness of Lab 10: the code does not give it. What is stated is which states can still lead to a delivery, a consultation or the end, not that a scheduler gets there.
- Lab 10 lets a second pharmacist arrive during a delivery and be released by the same one; only that the one that made the offer is waiting is stated.
- The creation loops of `main` in Lab 10: all threads stand at their first statement when a run begins, which is the same as not having been created yet.
- The self-checks of mutexes and condition variables in Test 2/checks.h: test scaffolding.
- The letters printed by Lab 8: `get_job` makes them up instead of reading the slot, so the queue statements are about the slot that head advances past. The segment is taken as fresh, with both indices 0.
- QuadratureBounds.TotalNearIntegral: speaks of a number between all lower and upper sums; that there is one is a fact about the reals that is not proved here.
- Eviction.OnePingForgiven: has the length of two rounds and the order of the times read as premises, because `sleep` may take longer than asked for and both threads read the clock on their own.
- Lab 12: null characters inside a datagram end the C string and are taken to end the datagram; `inet_ntoa` and console output; the registration handshake and the shutdown of the client. A call of strtok is one step, although the C standard lets two calls at once race; the client of Lab 11 shares its saved position in the same way and is not modelled.
- Integer overflow: `int` is unbounded here; `Collatz.NoOverflow` gives the range for Lab 2, and the counters of the other labs are bounded by their invariants.
- BroadcastServer.Server.Serve: sending to a queue is taken to succeed; the outcome of opening one is an input.
- Lab 11: the text protocol, which is that of Lab 12, the boundaries of messages in a stream, and the shutdown; a handler whose slot was given up may go on reading from a descriptor handed out again, and whose bytes it then reads is not modelled.
- The countdown, fork, FIFO and signal exercises and Test 1: no property worth a proof.
