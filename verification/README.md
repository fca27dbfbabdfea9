# Controlled execution, replay and evidence

This project models the parts of the repository that hold its hardest state and
its strongest promises, and proves those promises for every input and every
sequence of steps. Engine, operating system and disk are adversaries: any answer
the code accepts may come at every call, and so may a failure of every disk
operation, audit write, update, drawing and backend query that the model has.

- **Request journal** (`JournalFormat`, `JournalLog`, `JournalScan`,
  `RequestJournal`, `JournalAdoption`, `JournalQuota`). Two byte files written in
  place, an array of bucket heads, torn writes and failing reads. The reference
  meaning is a plain map from (branch, request ID) to payload and response; lookups
  through the chains answer what that map says. Adoption parses the files back.
- **Controller** (`EngineCall`, `ControllerLedger`, `ControllerState`,
  `Controller`). The single-threaded step machine with its RAM cache, the journal
  underneath, the pending advancement and the engine-call tracker. Its state is
  also one value (`Core`); each method is proved to perform one of a few
  transitions on it, every transition keeps the invariant `Sound`, and the theorems
  about whole runs follow from the invariant and from `Follows`.
- **Diff and incremental comparison** (`JsonPointer`, `JsonPatch`, `StateStream`,
  `WorldComparison`, `IncrementalComparison`). The diff writer against a patch
  interpreter (RFC 6902 sections 3 and 4, RFC 6901 sections 3 and 4), the state
  stream, and the difference table that is refreshed instead of computed again.
- **Animation identity** (`Reanimation`, `ReanimationBindings`). The renamer with
  lifetimes, and the relation between two runs with different raw handles.
- **Evidence capture** (`Measurement`, `SpawnHook`, `LifecycleProbes`,
  `LifecycleRecorder`, `LifecycleEvidence`, `PatchTable`). Both probes, their
  shared ledger, the merged drain, the recorder and the two-phase shutdown; and
  the code-patch table.
- **Two compact cores** (`MersenneTwister`, `ReadCache`).

Imperative code stays imperative: classes with the source's fields, loops with
invariants, arrays for the bucket heads, the generator state and the patched
code. Ghost fields hold what the source only implies: the append order of the
journal, the history of a run, the true call tree.

## Main results

- A lookup of the journal answers what the plain map of the epoch says, after any
  appends, torn writes, epochs and rebinds: `RequestJournals.RequestJournal.Find`.
- Adoption recovers a released parent exactly, and keeps all its answers if and
  only if no bucket was written to the ordinary file after the reserve:
  `JournalAdoption.AdoptedLookups`, `JournalAdoption.AdoptParent`.
- Over every run (`Controllers.Controller.Run`) no request is admitted and no action
  attempted twice, all callers get the one recorded result
  (`ControllerState.ExactlyOnce`), a finished request never works again
  (`ControllerState.NeverAgain`), no update is lost (`ControllerState.NoLostUpdate`,
  for the version the request itself stated, `Controllers.Controller.Handle`),
  and the returned engine calls are all reported, except at most one whose
  observation failed, after which nothing runs any more
  (`Controllers.Controller.EveryCallIsReported`).
- A repeated request gets its one recorded result from RAM, the journal or the
  terminal reply, or a conflict exactly for other content
  (`Controllers.Controller.Handle`), and the epoch moves exactly at an observed
  transition that interrupts no engine call (`Controllers.Controller.Boundary`).
- The first close with default limits and working devices ends recorded and sealed:
  `Controllers.Controller.Handle`.
- The diff of two documents turns the first into the second
  (`JsonPatches.ExactJsonDiff`), and a state stream survives writer and reader
  (`StateStreams.WriteThenRead`).
- The refreshed difference table is the full one if and only if every refreshed path
  is sound (`IncrementalComparisons.IncrementalEqualsBruteForce`); what is reported
  where is `IncrementalComparisons.ReportedExactly`.
- Names are lifetimes over every run (`ReanimationBindings.NamesAreLifetimes`), two
  runs that differ only in raw handles compare equal
  (`ReanimationBindings.RenamingInvariance`), and only such captures do
  (`ReanimationBindings.EqualOutputsMeanEqualAnimations`).
- The in-place generator computes the recurrence across reloads
  (`MersenneTwister.Draws`), and tempering is the linear map given by its values on
  single bits (`MersenneWords.TemperIsLinear`).
- A receipt certifies one line per captured event, in capture order:
  `LifecycleEvidences.LifecycleAudit.Shutdown`.
- Cached reads succeed exactly when plain ones would
  (`ReadCaches.ReadCache.TryRead`); code patches are all installed, or all undone
  unless a site that resists stays marked (`PatchTables.PatchTable.Install`).

## Where the code differs from what is said about it

- runtime/request_journal.hpp:305-308 and 342-344 and docs/runtime-protocol.md:264
  say that adoption rebuilds the index the parent held in RAM, so that inherited IDs
  stay visible. It does not always: the reserve file is scanned second and overwrites
  the heads, so a bucket whose last ordinary record is newer than its last reserve
  record loses that record. `JournalAdoption.AdoptedHead` and `JournalAdoption.AdoptedLookups` are the
  exact condition, `JournalQuota.AdoptionCanForgetARequest` a way to get there
  under the default limits.
- tools/compare_worlds.py:225-228 and 311-312 say that diffing only the touched
  subtrees, and the whole parent array where an array is touched, agrees with a
  brute-force diff. It does if and only if every refreshed path is sound: both
  states can be walked in step to its parent, or hold the same there
  (`IncrementalComparisons.IncrementalEqualsBruteForce`). A parent of the same kind
  in both states is not enough: `IncrementalComparisons.NestedArraysAreWrong`.
- runtime/controller.cpp:237 says that an unexpected update count is an error. That
  is so unless the fight ended: without engine calls a terminal update that moved
  the clock by several ticks is a success, with more ticks than requested exactly
  when it counted more than was left (`Controllers.Controller.Measure`).

## Model

| member | source | states |
|---|---|---|
| JournalFormat.ParserUndoesPrinter | runtime/request_journal.hpp:372-384 | a record stored anywhere in a file is parsed back exactly, whatever bytes follow it |
| JournalFormat.PrinterUndoesParser | runtime/request_journal.hpp:345-384 | whatever is accepted as a record is, byte for byte, the printed form of that record |
| JournalFormat.LittleEndianByte | runtime/request_journal.hpp:170-178 | byte k of a number is its k-th base-256 digit, the lowest first |
| JournalFormat.Layout | runtime/request_journal.hpp:170-178 | the twelve parts of a record stand at offsets 0, 8, 16, 24, 32, 40, 48, 52, 56, 60, 64 and 72, in this order |
| JournalLog.TwoRecordsPerEntry | runtime/request_journal.hpp:99-102 | an epoch holds exactly one record per admitted ID and one more per answered ID, so the visit bound is never reached |
| JournalLog.ChainedAppend | runtime/request_journal.hpp:265-274 | an append whose `next` is the old bucket head keeps every bucket chain threaded through exactly its own records, newest first, across both files |
| JournalLog.SeenIsMapLookup | runtime/request_journal.hpp:96-123 | a finished walk finds this branch's request exactly when the plain map of the epoch holds it, with that payload and response |
| JournalLog.SeenForeignIsMapEntry | runtime/request_journal.hpp:49-51 | a foreign report is a true entry of another branch, and is missing only when no other branch used the ID |
| RequestJournals.AppendKeepsIndexed | runtime/request_journal.hpp:261-275 | one complete append keeps files, heads, chains and the one-reservation-one-completion discipline together |
| RequestJournals.TornWriteKeepsIndexed | runtime/request_journal.hpp:270-274 | any prefix of a record left behind by a failed write keeps all of them |
| RequestJournals.SealedFile | runtime/request_journal.hpp:158-164 | setting the closed flag and cutting a file to its committed length keeps every record readable |
| RequestJournals.LookupIsMapLookup | runtime/request_journal.hpp:96-123 | both halves of a lookup mean what the plain map of (branch, ID) says |
| RequestJournals.DefaultQuotas | runtime/request_journal.hpp:18-21 | the default quotas, and what of the reserve is kept for a close |
| RequestJournals.RequestJournal.Append | runtime/request_journal.hpp:261-275 | an append is refused for space exactly when the record exceeds the limit of its file; only a complete write advances the committed end, the bucket head and the log, and any failure leaves all three as they were |
| RequestJournals.RequestJournal.Open | runtime/request_journal.hpp:276-304 | opening keeps the (empty) map; every failure leaves the journal faulted |
| RequestJournals.RequestJournal.Seal | runtime/request_journal.hpp:154-168 | sealed means both files carry the closed flag and end at their committed length; any failing step leaves it unsealed |
| RequestJournals.RequestJournal.ReserveOrdinary | runtime/request_journal.hpp:128-136 | an ordinary request is refused for capacity exactly when the ID quota or the file is full; a control is then passed on; only an admission changes the map |
| RequestJournals.RequestJournal.ReserveEmergency | runtime/request_journal.hpp:137-139 | the reserve refuses for capacity exactly when the last ID slot or the closing bytes would be taken by something that is not a close |
| RequestJournals.RequestJournal.Reserve | runtime/request_journal.hpp:124-140 | only an admission changes the map, by exactly one unanswered entry; the reserve is used by controls only and never past its limit; without a disk failure a control is refused only for room |
| RequestJournals.RequestJournal.Complete | runtime/request_journal.hpp:141-153 | a stored completion answers exactly its own entry; an ordinary reservation is answered in the ordinary file while that works, and falling back to the reserve is a fault; anything else leaves the map unchanged, and a refusal for room means the reserve really lacked it |
| RequestJournals.RequestJournal.Epoch | runtime/request_journal.hpp:72-74 | a new epoch is an empty map while all older records stay readable |
| RequestJournals.RequestJournal.Rebind | runtime/request_journal.hpp:85-88 | records keep the branch they were admitted under; only the scope moves |
| RequestJournals.RequestJournal.OpenAdopted | runtime/request_journal.hpp:325-369 | adoption succeeds only for unsealed files that are records up to their committed ends with a zero tail, a refusal means they are not and is a fault when their headers were good, and it yields the rebuilt heads, both ends and both record counts |
| RequestJournals.RequestJournal.ScanFile | runtime/request_journal.hpp:345-355 | the scan stops at the first byte that starts no record, counts the records of the epoch and leaves each bucket its last one |
| RequestJournals.RequestJournal.ZeroRange | runtime/request_journal.hpp:385-394 | true exactly when every byte of the range is zero, across chunk boundaries |
| RequestJournals.RequestJournal.Visit | runtime/request_journal.hpp:103-119 | a visited record of the ID reports its branch and what the map held for its key when it was written; the two corruption tests of a completion never fire |
| RequestJournals.RequestJournal.Walk | runtime/request_journal.hpp:96-123 | a walk from any head answers what the records from that head back say, ends before its visit bound, and fails only with the disk |
| RequestJournals.RequestJournal.Find | runtime/request_journal.hpp:96-123 | a lookup returns what the plain map of the epoch says, through acyclic chains whose tokens are unordered over two files, and the visit bound never trips; a failed read returns nothing |
| JournalAdoption.ReleasedParentIsRecovered | runtime/request_journal.hpp:325-394 | scanning a cleanly released parent yields exactly the appended records of each file in order and both committed ends, and the parent is adoptable |
| JournalAdoption.AdoptedHead | runtime/request_journal.hpp:342-353 | the rebuilt head of a bucket equals the parent's if and only if no ordinary record of the bucket follows a reserve one |
| JournalAdoption.AdoptedIndex | runtime/request_journal.hpp:342-353 | the adopted chains are again the index of the epoch if and only if that holds for every bucket |
| JournalAdoption.AdoptedLookups | runtime/request_journal.hpp:325-369 | every lookup of an adopting instance answers what the parent would have answered if and only if no bucket was written to the ordinary file after the reserve |
| JournalAdoption.AdoptParent | runtime/request_journal.hpp:309-369 | an instance that adopts a cleanly released parent can walk its chains safely; when no bucket was written to the ordinary file after the reserve it is a valid journal with exactly the parent's entries, so every contract of the journal applies to it |
| JournalAdoption.FindAdopted | runtime/request_journal.hpp:96-123 | a lookup of an adopting instance answers exactly what its rebuilt heads reach |
| JournalQuota.AdoptionCanForgetARequest | runtime/request_journal.hpp:124-153 | for any two IDs of one bucket there is a sequence of records the default limits admit - answered requests until 64 GiB are nearly full, a control of at most 4096 bytes that falls back to the reserve, a smaller ordinary request - after which the parent finds the ordinary request with its result and an adopting instance finds nothing, neither as its own nor as foreign evidence |
| EngineCalls.HealthCertifies | runtime/engine_call.hpp:60-67 | the health flag implies that nothing was aborted, reentered or left in flight, and a fault-free idle tracker misses it only for an unposted return or an unclassified clock change |
| EngineCalls.EngineCallTracker.GuardEntry | runtime/engine_call.hpp:32-36 | a nested or foreign entry is refused and counted without touching the outer call |
| EngineCalls.EngineCallTracker.Reserve | runtime/engine_call.hpp:37-41 | one call at a time gets the next ID; a refusal, also of another thread, only counts faults |
| EngineCalls.EngineCallTracker.Enter | runtime/engine_call.hpp:42 | only the prepared call enters, and only on the owning thread |
| EngineCalls.EngineCallTracker.Return | runtime/engine_call.hpp:43 | only the entered call returns, and only on the owning thread |
| EngineCalls.EngineCallTracker.Complete | runtime/engine_call.hpp:44-47 | only a measured return completes, with its four classifications |
| EngineCalls.EngineCallTracker.Abort | runtime/engine_call.hpp:48-54 | an entered call becomes aborted, a measured return stays measured; entered = returned + aborted + in flight throughout |
| ControllerLedger.RetryIsFound | runtime/controller.cpp:424-439 | a request is in the ledger exactly when RAM or the journal finds it, and what is found is what was recorded |
| ControllerLedger.RecordedKeeps | runtime/controller.cpp:242-272 | recording a first result keeps the history and adds exactly its calls to the total |
| ControllerState.AdmitSound | runtime/controller.cpp:523-524 | admission keeps all invariants, including the room a first close needs |
| ControllerState.SettleSound | runtime/controller.cpp:242-274 | recording a result, stored or RAM-only, keeps all invariants |
| ControllerState.NextEpochSound | runtime/controller.cpp:71-73 | nothing waits in RAM when a new epoch clears the cache, so nothing is lost and all invariants hold |
| ControllerState.MoveSound | runtime/controller.cpp:405-418 | a branch rebind with an empty cache loses nothing and keeps all invariants |
| ControllerState.FirstCloseFits | runtime/request_journal.hpp:81 | with the default limits the first close finds its ID slot, and room for its reservation, its result and every result still in RAM |
| ControllerState.CloseAnsweredSound | runtime/controller.cpp:242-272 | a close is recorded as closed only if everything was written and sealed, else as incomplete |
| ControllerState.JournalVerdict | runtime/controller.cpp:433-439 | what RAM no longer holds the journal answers, never without a result |
| ControllerState.RepliesTellAll | runtime/controller.cpp:270-273 | everyone who waits is told the result, in order |
| ControllerState.RepeatedExactly | runtime/controller.cpp:424-439 | read off the admission it repeats, a repeated request gets a conflict for other content, the one recorded result, or a place among those who wait for it |
| ControllerState.ForeignDecides | runtime/controller.cpp:440-451 | a same-ID use by another branch is recorded in the ledger with the content that was found |
| ControllerState.VerdictIsTruthful | runtime/controller.cpp:424-439 | every such reply is the recorded result of that very request or a conflict |
| ControllerState.ExactlyOnce | runtime/controller.cpp:424-466 | no (branch, epoch, ID) is admitted twice and no action is attempted twice; all callers that got more than a refusal sent the admitted content and received its one recorded result |
| ControllerState.NeverAgain | runtime/controller.cpp:424-439 | once a request has its result, no later state shows an attempt or a tick for it, and the result never changes |
| ControllerState.NoLostUpdate | runtime/controller.cpp:511-515 | of all requests expecting the same version at most one ever attempted an action or counted a tick, and that version is then in the past |
| ControllerState.CallsAddUp | runtime/controller.cpp:99-104 | between steps the returned calls equal those reported by all completions plus those of the pending request plus the lost ones; every success reports at most its requested ticks, and exactly those for a spent budget, except a fight that ended in a terminal update no engine call measured |
| ControllerState.LoseSound | runtime/controller.cpp:151-159 | a returned call whose first observation throws is never credited and keeps all invariants as a lost call |
| ControllerState.TwoInRam | runtime/controller.cpp:242-274 | before the first close at most two entries are in RAM, and none when nothing is pending and storage is healthy |
| Controllers.Controller.constructor | runtime/controller.hpp:65-69 | a fresh controller is healthy, at rest and quiet with nothing admitted |
| Controllers.Controller.Persist | runtime/controller.cpp:246-267 | exactly the stored case changes the map; every other case freezes advancement |
| Controllers.Controller.CompleteEntry | runtime/controller.cpp:242-272 | all waiters of the request receive the one recorded result |
| Controllers.Controller.EndPending | runtime/controller.cpp:275-287 | ending an advancement answers exactly the pending request |
| Controllers.Controller.Fail | runtime/controller.cpp:84-98 | a fault freezes for good and ends the pending request, except while a call is in flight, when the request stays untouched |
| Controllers.Controller.Audit | runtime/controller.cpp:40-46 | a failed audit write is a fault; a good one changes nothing |
| Controllers.Controller.Conclude | runtime/controller.cpp:268-287 | the pending request gets its reason with the work really done; the terminal reply is kept exactly for a stored scene_changed under engine calls, with the admitted content and that result |
| Controllers.Controller.Finish | runtime/controller.cpp:275-287 | either the pending request has its recorded result, kept as the terminal reply when it must be, or the failure propagated with the request unanswered or failed |
| Controllers.Controller.StorageFail | runtime/controller.cpp:79-83 | storage is faulted and the pending request ended |
| Controllers.Controller.Complete | runtime/controller.cpp:242-274 | the request has its result; with failed storage the pending one is ended too, else it stays as it was |
| Controllers.Controller.SaveOne | runtime/controller.cpp:251-255 | one RAM-only result leaves RAM only when written, and room for the others remains |
| Controllers.Controller.WriteClose | runtime/controller.cpp:257-258 | sealing happens only after the close result was written |
| Controllers.Controller.CompleteSeal | runtime/controller.cpp:248-267 | a close is either Closed with a sealed journal or CloseIncomplete with storage faulted, and never the latter while every cached request had room and no disk operation failed |
| Controllers.Controller.EnterEpoch | runtime/controller.cpp:72 | versions restart and the old epoch's requests leave the index |
| Controllers.Controller.LoseBoundary | runtime/controller.cpp:56-70 | with engine calls an unmeasured transition is a fault, never a finished advancement |
| Controllers.Controller.Notice | runtime/controller.cpp:52-76 | another board, another readiness or a clock that went back is a transition, nothing else is; it interrupts what is pending or starts an epoch with version zero and nothing admitted |
| Controllers.Controller.Boundary | runtime/controller.cpp:47-77 | for every answer of the backend: exactly a transition seen by a healthy controller moves the epoch, to a version of zero, an empty cache and an empty index; under engine calls with something pending it is a fault in the old epoch instead; losing or replacing a ready board freezes advancement; without a transition nothing changes; what was observed is remembered |
| Controllers.Controller.BeforeStep | runtime/controller.cpp:130-150 | a call is reserved before the update; what the update starts from is noted, and with engine calls a missing board or another screen than the fight stops it; a failing check or audit leaves a consistent fault |
| Controllers.Controller.Original | runtime/controller.cpp:105-117 | reentry and faults during the original update never complete the request of an entered call |
| Controllers.Controller.AddTicks | runtime/controller.cpp:183 | version and request advance by the same ticks |
| Controllers.Controller.LeaveFight | runtime/controller.cpp:225-236 | scene_changed is recorded under the measured version before the epoch moves, and survives the move, as the terminal reply with engine calls and working storage |
| Controllers.Controller.BoardLost | runtime/controller.cpp:168-180 | a replaced board counts no tick: with engine calls it is a fault, else the request ends as scene_changed |
| Controllers.Controller.Judge | runtime/controller.cpp:225-241 | after the measured update the request is finished for exactly the reason that clock change, scene, wave or budget gives, in this order, and else still pending within its budget |
| Controllers.Controller.Draw | runtime/controller.cpp:201-222 | a failed drawing or a fault of the guard during it ends the request as a fault |
| Controllers.Controller.Post | runtime/controller.cpp:223-241 | the closed call counts as posted, as a step exactly for a clock change of one, as terminal zero or terminal step exactly when it was one |
| Controllers.Controller.Measure | runtime/controller.cpp:181-241 | a request that stays pending had exactly one tick counted, and the version moved by that tick; a terminal update without engine calls is reported with all the ticks it counted, so beyond the budget exactly when it counted more than was left |
| Controllers.Controller.AfterStep | runtime/controller.cpp:151-241 | for all readings after the update, if no fault came up: a replaced board ends the request unmeasured; else its ticks and call are counted and it ends for the first reason that scene, clock, wave and budget give, or stays pending with exactly one more tick and, with engine calls, one more call; with engine calls a replaced board and a terminal update of no known kind are faults |
| Controllers.Controller.Interrupt | runtime/controller.cpp:122-128 | after any exception the controller is frozen, idle and has nothing pending |
| Controllers.Controller.Step | runtime/controller.cpp:112-121 | between entry and return of one controlled update only the tracker and faults change, whatever reenters or fails inside it; afterwards the request is what the readings before and after the update demand, or the exception propagates with its call credited or lost |
| Controllers.Controller.RunEngineFrame | runtime/controller.cpp:105-129 | every frame ends at rest with no call in flight; a call is lost only in a frame that did not run and froze the controller; another thread and a faulted controller get nothing, and a tracker fault freezes it |
| Controllers.Controller.AnswerFromJournal | runtime/controller.cpp:433-451 | a request in the journal gets its recorded result, or a conflict exactly for other content; a fresh one is refused only if another branch used the ID for other content, and passes only if none did or one used it for the same |
| Controllers.Controller.AnswerHit | runtime/controller.cpp:434-439 | a journal hit always has its result, so the missing-completion reply is never sent: the caller gets that result, or a conflict exactly for other content |
| Controllers.Controller.GateOrder | runtime/controller.cpp:456-522 | faults, storage, a closed recording, a stale version, the size of a control, a close while pending and an unsaved result refuse in this order, with a way left for controls |
| Controllers.Controller.Reserve | runtime/controller.cpp:523-524 | an admitted request is in the journal and unanswered before anything of it happens; the first close is never refused for capacity |
| Controllers.Controller.Control | runtime/controller.cpp:525-527 | pause and cancel end the pending advancement first, for that reason and with the work it had done |
| Controllers.Controller.Close | runtime/controller.cpp:530-535 | a close that does not throw is recorded closed and sealed, or incomplete with storage faulted |
| Controllers.Controller.Setup | runtime/controller.cpp:741-748 | the request is answered as configured after exactly one revision, or as failed, or left to the exception path |
| Controllers.Controller.UnfitOrder | runtime/controller.cpp:749-766 | outside a stable fight, without a prepared drawing and with bad parameters an advancement is refused, in this order |
| Controllers.Controller.Perform | runtime/controller.cpp:525-781 | pause and cancel, busy, close, setup and advancement each answer as their kind demands |
| Controllers.Controller.RunActions | runtime/controller.cpp:769-780 | the attempts are numbered from zero in order, and the first failure ends them |
| Controllers.Controller.Start | runtime/controller.cpp:749-781 | attempts recorded are exactly those made, at most once each; without an exception a remaining request made all of them, and expects the version and the wave condition it stated |
| Controllers.Controller.Recover | runtime/controller.cpp:786-789 | an exception after admission still answers an unanswered request, once, as invalid |
| Controllers.Controller.Dedup | runtime/controller.cpp:424-451 | a request seen before gets its one recorded result, a conflict exactly for other content, or joins those who wait, and nothing of it is attempted again |
| Controllers.Controller.Serve | runtime/controller.cpp:458-781 | admission and execution keep all invariants; with default limits, results within a record and no disk, audit or backend failure the first close is recorded closed and the journal is sealed |
| Controllers.Controller.Handle | runtime/controller.cpp:291-791 | any request, with any storage failures, keeps all invariants; a request already in the ledger attempts nothing and, if the journal can be read, gets its one recorded result, a conflict exactly for other content, or joins those who wait; a fresh one is refused when every other branch that used its ID did so for other content, and else for the first reason that applies; the first admissible close in fair weather ends recorded closed with a sealed journal; whatever a request did or left pending, it did for the version it stated, which was the current one |
| Controllers.Controller.Mismatch | runtime/controller.cpp:328-340 | a request for another branch is refused without effect |
| Controllers.Controller.Status | runtime/controller.cpp:360-385 | a status query about a request changes nothing and tells what the plain ledger says: never seen, in progress, recorded with this response, or seen of another branch only; if the journal cannot be read, storage is faulted as in any lost lookup |
| Controllers.Controller.Disconnect | runtime/controller.cpp:289 | a disconnect ends exactly the client's own advancement, with the work it had done |
| Controllers.Controller.Rebind | runtime/controller.cpp:386-420 | the branch moves exactly under the source's conditions, and only RAM state moves with it |
| Controllers.Controller.EveryCallIsReported | runtime/controller.cpp:99-128 | at rest the returned calls are those of all completions and of the pending request; at most one is missing, and then the controller is frozen for good |
| Controllers.Controller.Run | runtime/controller.cpp:291-791 | any sequence of requests, status queries, frames, boundaries, disconnects, rebinds, shutdowns and faults, with disk and backend failing and recovering in between, keeps all invariants and only grows the history |
| Controllers.Controller.Shutdown | runtime/runtime.cpp:451-453 | the pending advancement is answered as runtime_shutdown with the work it had done, unless the failure propagates |
| JsonPointers.EscapePointerToken | determinism/json_diff.hpp:8-16 | the loop computes the escaping of the whole token |
| JsonPointers.EscapedForms | determinism/json_diff.hpp:8-16 | a tilde is written ~0, a slash ~1, everything else as it is |
| JsonPointers.EscapeRoundTrip | determinism/json_diff.hpp:8-16 | reading an escaped token back gives the token (RFC 6901 section 4), and an escaped token holds no separator |
| JsonPointers.PointerRoundTrip | src/llm_vs_zombies/audit_compare.py:531-546 | parsing the printed path gives the tokens back, for every path |
| JsonPointers.PrinterUndoesReader | src/llm_vs_zombies/audit_compare.py:531-546 | whatever the strict reader accepts is the printed form of what it read |
| JsonPointers.KeysArePaths | tools/compare_worlds.py:121-124 | two keys are equal exactly for equal paths, and a key extends another by a slash exactly for a path below it |
| JsonPointers.DecimalForms | src/llm_vs_zombies/audit_compare.py:566-578 | indices are decimal, the highest digit first, without a leading zero |
| JsonPatches.Lift | src/llm_vs_zombies/audit_compare.py:581-619 | patching a child in place is patching the document with prefixed paths |
| JsonPatches.MemberEdits | src/llm_vs_zombies/audit_compare.py:581-619 | an operation on a member adds, removes or replaces exactly it; removing and replacing demand that it exists |
| JsonPatches.ItemEdits | src/llm_vs_zombies/audit_compare.py:566-619 | an operation on an item inserts, removes or replaces exactly it, within the bounds of the array; the dash appends |
| JsonPatches.ReadingPrintedOps | src/llm_vs_zombies/audit_compare.py:581-619 | the reader executes exactly the operations the writer meant |
| JsonPatches.PatchWriter.Append | determinism/json_diff.hpp:22-51 | the appended operations turn the source value into the target value, and none are appended for equal values |
| JsonPatches.PatchWriter.AppendMembers | determinism/json_diff.hpp:29-41 | the operations appended for two objects turn the first into the second |
| JsonPatches.PatchWriter.AppendItems | determinism/json_diff.hpp:42-51 | the operations appended for two arrays turn the first into the second |
| JsonPatches.PatchWriter.Resize | determinism/json_diff.hpp:46-50 | removals in descending order and additions at the end make the lengths equal |
| JsonPatches.ExactJsonDiff | determinism/json_diff.hpp:54-60 | applying the diff of two documents to the first, operation by operation (RFC 6902 sections 3 and 4), gives the second; equal documents have the empty diff |
| StateStreams.ApplyPatch | src/llm_vs_zombies/audit_compare.py:581-619 | operations are applied in order; one refusal refuses the patch |
| StateStreams.IterStates | tools/compare_worlds.py:83-95 | the reader yields the replay of the rows, or refuses a malformed stream |
| StateStreams.StateWriter.Write | determinism/audit.cpp:785-788 | after each boundary the file replays to every captured state so far, in order |
| StateStreams.WriteThenRead | determinism/audit.cpp:785-788 | every sequence of states survives writer and reader |
| WorldComparisons.EqualExactlyWhenClean | tools/compare_worlds.py:137-155 | two states have no difference anywhere exactly when they are equal |
| WorldComparisons.AllDifferences | tools/compare_worlds.py:137-155 | the generator yields every difference, nothing else, and no path twice; `ItemsShowTheStates` and `ReportedExactly` say which these are and what they show |
| IncrementalComparisons.FindValue | tools/compare_worlds.py:101-118 | the lookup follows the path |
| IncrementalComparisons.ReplacedIsFound | tools/compare_worlds.py:101-118 | a lookup finds what a patch put at the path |
| IncrementalComparisons.ItemsShowTheStates | tools/compare_worlds.py:137-155 | a value difference shows the two scalars there, a length difference the two lengths, a type or missing-member difference what each state has there, always the left state first, and each kind of item only where it belongs |
| IncrementalComparisons.ReportedExactly | tools/compare_worlds.py:137-155 | a difference is reported at a path exactly when both states can be walked in step to it and there only one has a value, or the two are of different kinds, arrays of different lengths or different scalars |
| IncrementalComparisons.RefreshShows | tools/compare_worlds.py:121-134 | a refresh of a path only one state has shows that state's value on its own side |
| IncrementalComparisons.RefreshExact | tools/compare_worlds.py:121-134 | one refresh records exactly the true differences below its path if and only if the path is sound, that is, both states can be walked in step to it or hold the same there |
| IncrementalComparisons.DifferenceSet.Refresh | tools/compare_worlds.py:121-134 | at or below the path the table holds what the refresh found, elsewhere what it held |
| IncrementalComparisons.ViewsDecide | tools/compare_worlds.py:137-155 | the difference at a path depends only on kinds, lengths and scalars on the way to it |
| IncrementalComparisons.EditViews | tools/compare_worlds.py:308-325 | one patch operation changes these only at or below its target, or below the array that holds it |
| IncrementalComparisons.ChangesAreTouched | tools/compare_worlds.py:308-325 | whatever a patch changed lies at or below a path that is refreshed, judged by the states after the whole patch |
| IncrementalComparisons.UntouchedIsSame | tools/compare_worlds.py:243-246 | away from the refreshed paths the difference of the two states did not change |
| IncrementalComparisons.RefreshPaths | tools/compare_worlds.py:308-325 | the loop collects the target, or the array that holds it, of every operation |
| IncrementalComparisons.IncrementalEqualsBruteForce | tools/compare_worlds.py:243-253 | after a boundary the maintained table equals the full difference if and only if every refreshed path is sound |
| IncrementalComparisons.Update | tools/compare_worlds.py:243-246 | all touched paths of both patches are refreshed, ancestors first |
| IncrementalComparisons.CompareStates | tools/compare_worlds.py:238-253 | over the whole walk each table is the full difference as long as every refreshed path was sound, and the first unsound boundary is the first wrong one |
| IncrementalComparisons.NestedArraysAreWrong | tools/compare_worlds.py:308-325 | after a patch inside nested arrays of different lengths the maintained table reports a missing element that the full difference does not have, although the parent of the refreshed path is an array in both states |
| Reanimations.ResolvedIsAllocated | determinism/reanimation_audit.cpp:214-216 | a handle resolves exactly when it is an allocated ID |
| Reanimations.PoolOkMeans | determinism/reanimation_audit.cpp:193-198 | a pool is well formed exactly when its sizes fit and every ID is allocated and names its own slot |
| Reanimations.NamesAreNumbered | determinism/reanimation_audit.cpp:248-252 | the names of one anchor are numbered from zero, one after another |
| Reanimations.BindAllKeeps | determinism/reanimation_audit.cpp:213-264 | over a frame, allocated handles keep their names, new names are fresh and every reference names its own handle's lifetime |
| Reanimations.ReportShows | determinism/reanimation_audit.cpp:213-266 | over a frame, every link gets the reference of its case, every node shows its animation's state and the anchors of all links to it in order, and the issues are the wrong definitions and the dangling live links in order |
| Reanimations.SameNodeSameHandle | determinism/reanimation_audit.cpp:253-257 | two valid links name the same node exactly when they hold the same handle |
| Reanimations.FramesAgree | determinism/reanimation_audit.cpp:213-264 | two frames with corresponding links report the same references, nodes and issues |
| Reanimations.RetireAgrees | determinism/reanimation_audit.cpp:207-209 | retirement keeps two runs in agreement under a lifetime-consistent renaming |
| Reanimations.ReanimationAuditor.Reset | determinism/reanimation_audit.cpp:192 | nothing is named after a reset |
| Reanimations.ReanimationAuditor.Begin | determinism/reanimation_audit.cpp:193-209 | a malformed pool changes nothing; otherwise exactly the vanished IDs are retired |
| Reanimations.ReanimationAuditor.NameLinks | determinism/reanimation_audit.cpp:213-264 | the loop reports every link as the specification does and keeps names distinct |
| ReanimationBindings.AnchorsAreUnique | determinism/reanimation_audit.cpp:33-80 | no two links of a state share an anchor |
| ReanimationBindings.OwnerBindings | determinism/reanimation_audit.cpp:33-64 | the links of a pool are collected once each, exactly when every owner is well formed |
| ReanimationBindings.Bindings | determinism/reanimation_audit.cpp:65-80 | all links in anchor order, or a refusal exactly for a malformed owner |
| ReanimationBindings.StateOkMeans | determinism/reanimation_audit.cpp:40-60 | a state is refused exactly for an owner whose ID is free, too large or names another slot, or a zombie head whose flag byte exceeds one |
| ReanimationBindings.HexDigits | determinism/model.hpp:34-44 | hexadecimal digits are written in lower case |
| ReanimationBindings.FillForgets | determinism/reanimation_audit.cpp:263 | the rewritten state shows nothing of the old handles |
| ReanimationBindings.Capture | determinism/reanimation_audit.cpp:193-268 | a capture succeeds exactly for a well-formed pool and owner state, and compares what the specification says; a malformed pool changes nothing, a malformed owner still retires the handles that vanished |
| ReanimationBindings.CaptureShows | determinism/reanimation_audit.cpp:213-266 | in every capture a link to an allocated animation is retiring exactly when that is dead and names a node with its state and all its owners; an unset link shows nothing, a link its owner gave up is expired, any other dangles with its handle, reason and slot ID; the rest of the state is unchanged |
| ReanimationBindings.IssuesShow | determinism/reanimation_audit.cpp:233-262 | the issues name exactly the links with a wrong definition and the live links that dangle, and the capture is valid exactly without any |
| ReanimationBindings.EqualOutputsMeanEqualAnimations | determinism/reanimation_audit.cpp:213-266 | two captures with equal outputs come from states that are equal but for their handles, and under one renaming every pair of links has the same state, dead flag and definition flag, or is unset, given up or the same dangling handle in both |
| ReanimationBindings.NamesAreLifetimes | determinism/reanimation_audit.cpp:193-263 | over a whole run and any two of its attempts to capture, refused ones included: a handle that never vanished keeps its written name even when unreferenced, a name given now was never written before for any handle, and a handle that vanished in between has a name never written up to the earlier attempt |
| ReanimationBindings.NodesAreHandles | determinism/reanimation_audit.cpp:248-257 | in every capture two live links show the same written node exactly when they hold the same handle |
| ReanimationBindings.FrameInvariance | determinism/reanimation_audit.cpp:193-268 | one pair of corresponding attempts is compared alike or refused alike, and leaves both memories in agreement |
| ReanimationBindings.EveryRunMatchesItself | determinism/reanimation_audit.cpp:193-268 | any run without dangling live links meets the condition of renaming invariance with itself |
| ReanimationBindings.RenamingInvariance | determinism/reanimation_audit.cpp:193-268 | two runs whose histories agree up to a lifetime-consistent renaming of handles, with no live link dangling, are refused together and produce equal comparable states at every other attempt |
| MersenneWords.MixBits | tools/giant_fork_diff.py:105-112 | a step takes the top bit of one word and the other 31 of the next, and the matrix exactly when the lowest bit of the next is set |
| MersenneWords.TemperIsLinear | tools/giant_fork_diff.py:124-127 | tempering is linear over exclusive or |
| MersenneWords.TemperedBits | tools/giant_fork_diff.py:124-127 | the tempered values of the 32 words with a single bit set |
| MersenneTwister.Recurrence | tools/giant_fork_diff.py:102-113 | the sequence starts with the given words, and every later term comes from those 624, 623 and 227 places before it |
| MersenneTwister.BlockContinues | tools/giant_fork_diff.py:102-113 | the sequence of a reloaded block is the old sequence 624 terms on |
| MersenneTwister.HalfwayStep | tools/giant_fork_diff.py:105-112 | one in-place replacement reads the right terms, whichever of them were already replaced |
| MersenneTwister.Twist | tools/giant_fork_diff.py:102-113 | the in-place three-part reload computes the next 624 terms of the recurrence of [rand.eng.mers] |
| MersenneTwister.NextWord | tools/giant_fork_diff.py:119-123 | the word at the cursor is the term at its position in the infinite sequence, across a reload |
| MersenneTwister.Draws | tools/giant_fork_diff.py:116-129 | the k-th draw from any cursor is the tempered, 31-bit-masked term of the infinite sequence, across any number of reloads |
| ReadCaches.Accessible | determinism/memory.hpp:20-40 | the loop decides the demanded walk over regions |
| ReadCaches.PagesAreConsistent | determinism/memory.hpp:20-40 | one stretch of pages, asked from any address in it, meets what the model demands of the memory map |
| ReadCaches.WalkIsBytewise | determinism/memory.hpp:20-40 | a range is accessible exactly when every single byte of it lies in committed, unguarded, readable and, for writing, writable memory that ends inside the address space |
| ReadCaches.ReadCache.EnterScope | determinism/memory.hpp:17 | the outermost scope starts with an empty cache |
| ReadCaches.ReadCache.LeaveScope | determinism/memory.hpp:18 | leaving the outermost scope drops the cache |
| ReadCaches.ReadCache.TryRead | determinism/memory.hpp:41-60 | in any nesting of scopes and after any reads, a read succeeds exactly when the plain check would, also across regions, unless the cache cannot grow; exactly a miss that one region covers is remembered |
| PatchTables.JumpLands | determinism/lifecycle_probes.cpp:674-683 | the written jump leads to the handler |
| PatchTables.AllClearIsOriginal | determinism/lifecycle_probes.cpp:1103-1116 | when every mark is clear all code bytes are the original ones |
| PatchTables.RealSitesAreDisjoint | determinism/lifecycle_probes.cpp:189-198 | the eight windows do not overlap |
| PatchTables.PatchTable.ApplyPatch | determinism/lifecycle_probes.cpp:664-706 | under any protection failure an owned site holds the jump and a clear one its original bytes; without one exactly a clear site that reads as expected is patched |
| PatchTables.PatchTable.RestorePatch | determinism/lifecycle_probes.cpp:708-734 | under any protection failure the marks stay truthful, and a site that could not be restored stays marked |
| PatchTables.PatchTable.RestoreDown | determinism/lifecycle_probes.cpp:1103-1106 | after success every site below is clear; one failure does not stop the rest |
| PatchTables.PatchTable.Install | determinism/lifecycle_probes.cpp:955-993 | success means all sites are patched and capture is active; a failure that is not stuck leaves every byte original; without protection failures it succeeds exactly when all sites read as expected; a second installation changes nothing |
| PatchTables.PatchTable.Remove | determinism/lifecycle_probes.cpp:1077-1117 | success means every byte is original, and is certain without protection failures; off the game thread, with an open recycle candidate, with a callback in flight or with an owned site that does not read as our jump it is refused and touches nothing |
| Measurements.MeasurementHost.OpenSession | determinism/measurement.cpp:29-49 | one session at a time; both sequences restart at one and the ledger at zero |
| Measurements.MeasurementHost.Close | determinism/measurement.cpp:51-69 | validates exactly a faultless session with captured = delivered = persisted |
| Measurements.MeasurementHost.Commit | determinism/measurement.cpp:71-78 | only a validated session closes |
| Measurements.MeasurementHost.Abort | determinism/measurement.cpp:80-89 | an active session ends failed |
| Measurements.MeasurementHost.NextSequence | determinism/measurement.cpp:91-98 | strictly increasing, zero when refused; outside a session only the refusal is counted |
| Measurements.MeasurementHost.NextInvocationId | determinism/measurement.cpp:100-107 | its own strictly increasing domain; outside a session only the refusal is counted |
| Measurements.MeasurementHost.OnCaptured | determinism/measurement.cpp:109 | counts only while the session is open, else only the refusal |
| Measurements.MeasurementHost.OnDelivered | determinism/measurement.cpp:110 | counts only while the session is open, else only the refusal |
| Measurements.MeasurementHost.OnPersisted | determinism/measurement.cpp:111 | counts only while the session is open, else only the refusal |
| SpawnHooks.IdsNameCalls | determinism/spawn_hook.cpp:224-236 | a record's invocation and parent IDs name its own call and the call that really encloses it |
| SpawnHooks.SpawnHook.Enter | determinism/spawn_hook.cpp:98-122 | depth stays the true nesting, also past the 32 saved frames, and every entry that cannot be observed is counted once |
| SpawnHooks.SpawnHook.Leave | determinism/spawn_hook.cpp:123-142 | each exit pops its own entry; exactly a complete observation of an open session on its thread, with room left, becomes a record, and every other exit on the game thread is counted once; a healthy hook lost nothing above the limit |
| SpawnHooks.SpawnHook.RecordExit | determinism/spawn_hook.cpp:129-141 | the record gets the next sequence and the ledger counts it |
| SpawnHooks.SpawnHook.Drain | determinism/spawn_hook.cpp:284-297 | all waiting records are handed out once, in capture order |
| LifecycleProbes.ProbeQueue.HealthyRunsAlternate | determinism/lifecycle_probes.cpp:846-933 | while a probe lost nothing and has no open candidate, its recycle records alternate between candidate and commit; each commit names the candidate directly before it and its values are a push of that slot on the free list with the count reduced by one |
| LifecycleProbes.ProbeQueue.Push | determinism/lifecycle_probes.cpp:335-344 | a full queue loses the record and counts it |
| LifecycleProbes.ProbeQueue.BeforePhase | determinism/lifecycle_probes.cpp:747-792 | the store and its old value are remembered exactly when they can be observed; every other case is counted once under its reason |
| LifecycleProbes.ProbeQueue.AfterPhase | determinism/lifecycle_probes.cpp:794-844 | exactly the same store, read again in an open session with room left, becomes a record with the value before and after it; every other outcome is counted once under its reason |
| LifecycleProbes.ProbeQueue.RecycleGuard | determinism/lifecycle_probes.cpp:846-883 | exactly a dead, classified, readable entry opens a candidate while the session hands out sequences; an overwritten one is a fault; every other outcome is counted once under its reason |
| LifecycleProbes.ProbeQueue.RecycleCommit | determinism/lifecycle_probes.cpp:885-933 | exactly the push of the pending candidate's slot becomes a commit; every mismatch is counted once under its reason, is a fault and clears the candidate |
| LifecycleProbes.ProbeQueue.Drain | determinism/lifecycle_probes.cpp:1165-1249 | the queue is handed out once to its owner and an open candidate becomes a fault |
| LifecycleRecorders.LifecycleRecorder.Open | determinism/lifecycle_record.cpp:17-35 | an unopened recorder with a complete identity starts a new empty file; a refusal leaves everything |
| LifecycleRecorders.LifecycleRecorder.Write | determinism/lifecycle_record.cpp:37-78 | a line is appended exactly when its sequence exceeds the last one's and the stream is sound |
| LifecycleRecorders.LifecycleRecorder.Finish | determinism/lifecycle_record.cpp:80-95 | a receipt appears only for a complete session after a clean close, and describes exactly the lines |
| LifecycleRecorders.LifecycleRecorder.Abandon | determinism/lifecycle_record.cpp:97-107 | what is on disk stays |
| LifecycleEvidences.SortBySequence | determinism/audit.cpp:232-238 | the merged batch holds exactly the drained events in strictly increasing order |
| LifecycleEvidences.Complete | determinism/audit.cpp:239-241 | as many different lines as events means every event has its line |
| LifecycleEvidences.LifecycleAudit.Capture | determinism/audit.cpp:210-258 | any probe callback keeps the shared ledger |
| LifecycleEvidences.LifecycleAudit.WriteAll | determinism/audit.cpp:239-240 | the order check never refuses a drained batch; only the stream can fail |
| LifecycleEvidences.LifecycleAudit.DrainBoth | determinism/audit.cpp:212-242 | each drained event is persisted and has its line, unless an output failed |
| LifecycleEvidences.LifecycleAudit.DrainAndCheck | determinism/audit.cpp:210-258 | success means that neither probe lost anything, and follows when neither did and no output fails |
| LifecycleEvidences.LifecycleAudit.Cleanup | determinism/audit.cpp:839-906 | a receipt only for a validated session without an earlier cleanup error |
| LifecycleEvidences.LifecycleAudit.Session | determinism/audit.cpp:817-909 | any captures and boundaries in any order, then the shutdown, end with the same certificate |
| LifecycleEvidences.LifecycleAudit.Shutdown | determinism/measurement.cpp:138-173 | the session ends Closed exactly when body, validation and cleanup all succeeded, and always when nothing was lost and no output fails; a receipt exists exactly for a recorded Closed session, and then the file holds exactly one line per captured event of both probes in strictly increasing capture sequence, with records = captured = delivered = persisted |

## Left out

Parts of the repository:

- Transport, threads, the pipe server, launcher, sandbox bootstrap and DirectDraw capture: foreign calls.
- Assembly shims, register frames, exception handlers, floating-point control, MinHook and memory layouts.
- `hello`, `observe`, `audit_snapshot`, `unsupported_method` and the `status` reply without a request ID: they change nothing.
- `capture_frame` with its own small cache and its own revision bump.
- Anchor, normalization and sound receipts, the hosted-fire and shovel helpers: single-branch validation.
- Text of JSON documents and number subtypes: numbers are one type with its own equality, so integer and float of the same value are equal here.
- The hash function: a parameter; no result needs it to be free of collisions.
- The `float32` velocity helpers and the replay report of `tools/giant_fork_diff.py`.
- The report that `compare_states` builds from the difference table.

Contracts that say less than the source:

- Controllers.Controller.Handle: the refusals of one kind carry no message text or details object, and an exception thrown out of the catch handler itself ends the step as a refused or failed request.
- Controllers.Controller.Setup: the nine setup methods are one, with an arbitrary outcome (thrown, refused, applied, failed after a write); their individual preconditions are not modelled.
- Controllers.Controller.Start: the refusals for a bad budget, condition or action list are one reply; whether drawing is prepared is arbitrary.
- Controllers.Controller.Draw: what is drawn is not modelled, only that it may fail or reenter the hook.
- Controllers.Controller.Boundary: requires an epoch below 2^64 - 1; the 64-bit counter of the source wraps there. `Run` stops before that.
- Controllers.Controller.Mismatch: the details about the foreign record are not modelled.
- Controllers.Controller.Rebind: a branch name is any name of 1 to 64 bytes; the character grammar and the reply are not modelled.
- Controllers.Controller.AddTicks: tick and revision are unbounded.
- ControllerState.CallsAddUp: without engine calls the tick bound excepts a fight that ended in a terminal update; `Measure` states what such an update reports.
- Controllers.Controller.Fail: the backend commands `InvalidateFrame` and `ResetRenderPreparation` cannot throw in the model; its queries can.
- RequestJournals.RequestJournal.Open: lock file, directory and the two handles are one outcome. Opening by adoption is `OpenAdopted`, and not every refusal there records a fault, although the caller in the source always does.
- RequestJournals.RequestJournal.OpenAdopted: adoption is lazy in the source, so a lookup before the first reservation of an adopting instance sees empty heads.
- JournalAdoption.AdoptParent: the live epoch is the adopted one; with another one every walk that meets an inherited record fails (`HeaderAt`).
- JournalAdoption.AdoptedLookups: for a parent that was released without a torn write.
- RequestJournals.RequestJournal.Read: a read fails or returns what was written; silent corruption of a committed record is not modelled.
- RequestJournals.RequestJournal.Append: a failed write leaves a prefix of the record; the four writes of a record are one.
- RequestJournals.RequestJournal.Seal: closing and deleting the lock are one outcome.
- WorldComparisons.AllDifferences: members are visited in any order, which covers the sorted order; a difference shows containers by their kind only.
- IncrementalComparisons.FindValue: only ASCII digits count as an index.
- IncrementalComparisons.DifferenceSet.Refresh: keys are token sequences; `KeysArePaths` relates them to the texts.
- Reanimations.ReanimationAuditor.NameLinks: issues carry the anchor instead of the path, and the raw evidence beside the comparable state is not modelled.
- ReanimationBindings.OwnerBindings: the fields that are read are present; a missing required field is not modelled.
- MersenneTwister.Draws: cursors are not negative.
- ReadCaches.ReadCache.TryRead: addresses are 32-bit words; the copied value itself is not modelled.
- PatchTables.PatchTable.ApplyPatch: a jump out of range cannot happen with 32-bit addresses; no other writer changes the windows.
- SpawnHooks.SpawnHook.RecordExit: of a record only identity, nesting, sequence and ordinal are kept.
- LifecycleProbes.ProbeQueue.AfterPhase: frames and boundary versions are not kept in the record.
- LifecycleRecorders.LifecycleRecorder.Open: the receipt file of the directory is missing or empty, as the audit demands before it opens the recorder.
- LifecycleRecorders.LifecycleRecorder.Write: the envelope, byte count and digest of a line are not modelled, and every event is a complete lifecycle event.
- LifecycleEvidences.LifecycleAudit.Cleanup: all other cleanup steps are one arbitrary outcome.
- LifecycleEvidences.LifecycleAudit.Shutdown: the other writes of the last drain are one arbitrary outcome; a receipt file exists exactly when its final rename reported success.
