# Rika, modelled and proved in Dafny

Rika lets an agent's tool calls run in a workspace that lives elsewhere: on a user's machine behind a Runner, or in a
hosted Box. This project models the parts of it whose correctness is about histories rather than single calls, and proves
what they keep over every history.

1. **Native operations.** A tool call is admitted by the Session component (`Admission.dfy`), dispatched by the coordinator
   (`Coordinator.dfy`), carried by the RPC multiplexer of the server (`RpcServer.dfy`, `ServerRuns.dfy`,
   `ServerProgress.dfy`) and the transport of the Runner (`RunnerTransport.dfy`), and executed by the Runner
   (`RunnerExecutor.dfy`; over whole runs `RunnerRuns.dfy`, its lock `RunnerFibers.dfy`, rejections `RunnerRejects.dfy`,
   repeated starts `RunnerStarts.dfy`, sizes `RunnerSizes.dfy`; left to run `RunnerProgress.dfy` and `RunnerEndings.dfy`).
   `WorkerExits.dfy` leads from the exit of a worker to the journal; `Protocol.dfy` composes coordinator, server and Runner
   over a network that loses, repeats and reorders answers, and `ProtocolProgress.dfy` follows a call through all of it.
   `Bindings.dfy`, `ExecutorContract.dfy` and `Flow.dfy` hold the shared vocabulary; `Json.dfy` and `Sizes.dfy` the texts
   that every byte bound measures.
2. **The client.** `Projection.dfy` is the reducer over committed events, snapshots and previews; `Delivery.dfy` and
   `LivePreviews.dfy` say what it shows of what it is given; `Convergence.dfy` says when a conversation agrees with the server's tree. `Thread.dfy` and the class in `ThreadClients.dfy` are the Thread client
   around it, with selections, history pages and child Sessions in flight; `ThreadAgreement.dfy` proves what it shows to be
   the server's conversation, `StaleCursor.dfy` reaches the case where it is not, `HistoryPaging.dfy` loads all of it,
   `ThreadSelection.dfy` keeps selections apart, and `ThreadProgress.dfy` says what each command shows.
3. **Resources.** `Gateway.dfy` (connections and their scopes), `WriteLocks.dfy` (bash and edit), `Enrollment.dfy` (tickets).
4. **Context.** `Materializer.dfy`: what a Session pins, and that it can always be restored. `ContextReads.dfy`: reading
   guidance and skills of a remote workspace.
5. **Boxes and encodings.** `Billable.dfy` (bounded idempotent requests), `Lifecycle.dfy` (forks from a pinned snapshot),
   `Shell.dfy` (quoting), `Aad.dfy` (authenticated data).

## How to read it

Concurrent parts are state machines: a `State`, a `Step` that runs one fiber from one suspension point to the next, and a
`Run` over a list of events in any order. What a lock protects is one function (`AdmitSection`, `SettleSection`,
`InstallSection`, ...); the class beside it holds the fields the program updates, and each of its methods is proved to do
to them what that function does. An invariant `Valid` is kept by every step; the safety theorems are read off it for every
run. Beside them stand theorems of progress: what a command, a call or an event that is let run achieves, and the guards
under which it is accepted, each as an equivalence (`AdmitExactly`, `CallIsSentExactly`, `CommittedExactly`, ...).

Some laws turned out to hold under a condition only. The code is modelled as it is, the condition is exact, and a concrete
run or input shows the other case:

- A Runner starts an operation at most once exactly when no dispatch finds `active` empty of an operation whose receipt was
  recorded while it was in flight (`AtMostOnceByGuards`; `AtMostOnceExactly` says the same of outdated receipt reads). No
  operation is ever started three times (`NeverThrice`). A run of nine events reaches the race (`RaceIsReachable`), and a
  dispatch with an outdated read can also start, for the first time, an operation that was rejected meanwhile
  (`StaleForkExactly`, `RejectedThenStarted`).
- `reject` answers with its own evidence. In every run that is the receipt exactly when the rejection did not find another
  one when it held the lock (`RejectAgreesExactly`; `RejectDisagrees` reaches the other case), and so is what the
  coordinator journals from it (`JournalIsTheReceiptExactly`). The receipt of a rejection can also come first, while the
  operation is still running (`RejectedWhileRunning`).
- The error kind `transport` of a dispatch is not by itself definite: it also stands for evidence above the receipt bound,
  whatever became of the operation. Dispatch and recovery journal evidence if and only if it was made for the intent and is
  within the bound (`DispatchExactly`, `ReconcileExactly`). What a worker made of its exit is above it exactly if it is a
  failure with too long a text (`WorkerEvidenceFits`), so a result always gets through (`AnswersAreJournalledExactly`). The
  Runner bounds the answer of the workspace context tool without its envelope: an `AGENTS.md` of 65504 line ends gives a
  completed result that is above the bound (`CompletedLooksLikeTransport`), which its reader then refuses
  (`ContextReadExactly`).
- A component bound to a binding that contradicts its own placement rejects every command for ever
  (`InconsistentBindingWedges`), and one `Bind` is enough to get there (`WedgeIsReachable`); a materialization can then not be
  rebound, nor a connection reached.
- What a Thread client shows is at every point the newest part of the server's conversation exactly when no history page is
  spliced in at a cursor that an earlier update has lost (`ConvergesExactly`; for one page `SpliceKeepsSuffixExactly`).
  Updates alone never break it (`UpdateKeepsSuffix`). A server whose updates append, or carry a cursor of their own, never
  lets a cursor be lost (`ReliableRunAgrees`, `ReliableNeverLoses`); a complete reset to another branch can lose it, and
  `loadOlder` then shows an entry of the abandoned branch (`LostCursorIsReachable`).
- `openChildSession` does not look at the selection again after it has waited for the earlier connection to stop. A child
  of the abandoned selection gets in exactly then (`IsolationExactly` for a step, `IsolatedExactly` for a run), and the case
  is reachable (`LateOpeningIsReachable`).
- The scopes of a gateway leak exactly when a `disconnected` is interrupted after it has taken its connection out of the
  tables and before it has closed the scope (`ScopesLeakExactly`); the caller's own closing of its scope can do that
  (`InterruptedReleaseLeaks`).
- A call of the multiplexer that is stopped between being registered and waiting for its answer keeps its slot
  (`OrphansAreAbandoned`) until an answer comes or the connection ends (`OrphanStays`).
- A provider makes one Box exactly when the last send it deals with falls in the window that the first one opened
  (`OneBoxExactly`); a send begun in time but dealt with late makes a second (`LateHandlingMakesTwo`).
- Observing a pin on both sides of a fork proves where the Box comes from if and only if the pin stays the latest snapshot
  between any two such observations (`PreparedExactly`, `ForkedExactly`). It is enough that snapshots never return
  (`NeverReturnsKeepsPins`), but more than is needed (`OthersMayReturn`); a snapshot that is gone for a moment deceives
  (`ReturningSnapshotDeceives`).

## Model

| member | source | states |
|---|---|---|
| Bindings.FencesAreIdentity | packages/execution/src/binding.ts:71-123 | the three fence comparisons are structural identity, except that `sameBinding` also refuses a binding that contradicts its placement, which no mismatch reason can then name |
| ExecutorContract.ValidEvidenceIsMadeForTheIntent | packages/execution/src/executor.ts:108-150 | evidence is accepted exactly when it is what the intent itself would have produced up to outcome and source; any refusal is a fence |
| ExecutorContract.OwnEvidenceIsValid | packages/execution/src/executor.ts:133-146 | the evidence an intent makes names it throughout, comes from a dispatch, and passes its own validation |
| Admission.IndexOf | packages/execution/src/component.ts:84-85 | the first entry with the operation identity, or the length if there is none |
| Admission.StepKeeps | packages/execution/src/component.ts:68-118 | every command keeps unique identities, at most 128 entries, all under the bound binding; the generation only rises, and only with an empty window |
| Admission.StepWindow | packages/execution/src/component.ts:78-109 | a command adds or removes the operation it names and nothing else |
| Admission.BindExactly | packages/execution/src/component.ts:68-76 | a binding is accepted if and only if it is the first, or repeats a consistent one, or renews it over an empty window under the same policy with a higher generation |
| Admission.AdmitExactly | packages/execution/src/component.ts:95-109 | an operation is accepted if and only if it names the bound, consistent binding and is in the window, or is new by its identity and finds fewer than 128 there; then it is in the window, once |
| Admission.CleanupExactly | packages/execution/src/component.ts:78-93 | a release is accepted if and only if it is settled under the bound, consistent binding for the operation it names, which is in the window; that operation alone leaves |
| Admission.AllAreAdmitted | packages/execution/src/component.ts:68-118 | once a consistent binding is bound, any 128 different operations under it are admitted, in order |
| Admission.RunValid | packages/execution/src/component.ts:111-118 | the bounds and fences of the window hold in every reachable state |
| Admission.AdmissionConservation | packages/execution/src/component.ts:68-118 | the window is exactly the operations admitted and not released since, over every run |
| Admission.GenerationFence | packages/execution/src/component.ts:68-76 | between any two points of a run the generation never falls, a consistent policy never changes, and a rebind passes through an empty window |
| Admission.InconsistentBindingWedges | packages/execution/src/component.ts:69-73 | every command is rejected if and only if the bound binding contradicts its placement |
| Admission.WedgeIsReachable | packages/execution/src/component.ts:68-73 | one accepted `Bind` to a binding that contradicts its placement wedges the component |
| RunnerExecutor.StepKeeps | packages/runner/src/executor.ts:205-366 | each step of each fiber keeps the tables, the lock, the write-once receipts and what every fiber knows |
| RunnerRuns.RunKeeps | packages/runner/src/executor.ts:192-369 | the invariant and the monotone history hold over every interleaving |
| RunnerRuns.Agreement | packages/runner/src/executor.ts:269-317 | a dispatch that returned evidence returned what `receipt` reports for ever after, and it validates for the caller's intent |
| RunnerRuns.ReceiptsAreWriteOnce | packages/runner/src/executor.ts:205-223 | a receipt never changes, in every interleaving |
| RunnerRuns.FailedCallsStartedNothing | packages/runner/src/executor.ts:274-291 | a call that ended in any failure has started nothing and never will |
| RunnerProgress.PreparedCallIsAnswered | packages/runner/src/workspace.ts:318-322 | a prepared call of an operation not known yet is registered, started exactly once, and answered with what its worker made of its exit, which is the receipt |
| RunnerEndings.FrontDoorExactly | packages/runner/src/workspace.ts:276-315 | a call that does not fit the Runner is fenced, one whose operation has a receipt gets it if it was made for the intent, and any other is prepared |
| RunnerEndings.RegistersExactly | packages/runner/src/executor.ts:241-267 | a request is registered if and only if its tool is the intent's and its identity is new or registered with this very request and digest |
| RunnerEndings.PayloadExactly | packages/runner/src/executor.ts:282-291 | without a registered request the outcome of a dispatch is uncertain; with one of another digest or tool nothing is started |
| RunnerEndings.SecondDispatchJoins | packages/runner/src/executor.ts:294-314 | an operation in flight is joined, not started again |
| RunnerEndings.ReceiptsAreHonoured | packages/runner/src/executor.ts:275-281 | dispatch and rejection answer with a receipt made for the intent and fail on another one |
| RunnerEndings.StaleLooksAreFenced | packages/runner/src/executor.ts:271-274 | a dispatch or rejection that does not fit the Runner's own, consistent binding is fenced |
| RunnerEndings.UnpreparedCallIsRejected | packages/runner/src/workspace.ts:313-317 | a call that cannot be prepared is rejected: its failure becomes receipt and answer, and nothing is started |
| RunnerEndings.CancelsInFlight | packages/runner/src/executor.ts:334-346 | cancelling waits for the worker to stop, settles the operation as uncertain for its own intent, and says so |
| RunnerEndings.CancelsNothing | packages/runner/src/executor.ts:347-366 | cancelling what is not in flight gives the outcome of its receipt under the intent registered, or that nothing is known |
| RunnerEndings.InterruptsExactly | packages/runner/src/executor.ts:205-223 | an interruption stops a fiber that has not ended and gives back the lock if it had it |
| RunnerRuns.StepAtMostOnce | packages/runner/src/executor.ts:278-311 | a step starts an operation again if and only if its fork acts on an outdated receipt read |
| RunnerRuns.AtMostOnceExactly | packages/runner/src/executor.ts:278-311 | a run starts every operation at most once if and only if no fork in it restarts on an outdated read |
| RunnerRuns.AtMostOnceWhenReadIsCurrent | packages/runner/src/executor.ts:278-298 | with the receipt read and the look at `active` as one step every operation starts at most once |
| RunnerRuns.StaleReadRestarts | packages/runner/src/executor.ts:278-311 | from every racing state the worker's completion followed by the waiting fork starts the operation a second time |
| RunnerRuns.RaceIsReachable | packages/runner/src/executor.ts:269-315 | a concrete run reaches such a racing state |
| RunnerFibers.SettleIsAtomic | packages/runner/src/executor.ts:205-223 | whatever other fibers do between its steps, `settle` either finds a receipt and changes nothing, or leaves exactly the one replacement of the tables it found when it took the lock |
| RunnerRejects.RejectAgreesExactly | packages/runner/src/executor.ts:319-332 | in every run and ever after, what `reject` returned is the receipt if and only if it did not find another receipt when it held the lock; only a rejection can differ |
| RunnerRejects.RejectDisagrees | packages/runner/src/executor.ts:319-332 | a concrete run in which the caller is told of a rejection while the receipt says that the operation completed |
| RunnerRejects.RejectedWhileRunning | packages/runner/src/executor.ts:319-332 | a concrete run in which a rejection becomes the receipt of an operation whose worker is still running |
| RunnerStarts.NeverThrice | packages/runner/src/executor.ts:278-311 | however dispatches race, no operation is started more than twice |
| RunnerStarts.StaleForkExactly | packages/runner/src/executor.ts:278-311 | a fork on an outdated receipt read starts the operation again if the receipt was recorded while it was in flight, and for the first time otherwise |
| RunnerStarts.AtMostOnceByGuards | packages/runner/src/executor.ts:294-311 | a run starts every operation at most once if and only if no dispatch finds `active` empty of an operation whose receipt was recorded while it was in flight |
| RunnerStarts.RejectedThenStarted | packages/runner/src/executor.ts:278-332 | a concrete run in which a rejected operation is started for the first time |
| RunnerRuns.RunnerService.constructor | packages/runner/src/executor.ts:198-203 | the service starts with empty tables |
| RunnerRuns.RunnerService.Settle | packages/runner/src/executor.ts:205-223 | the maps change as the locked section says: first receipt wins, the entry leaves `active`, waiters get the evidence |
| RunnerRuns.RunnerService.Register | packages/runner/src/executor.ts:252-266 | the first request of an identity is kept; only an identical one is accepted again |
| RunnerRuns.RunnerService.JoinOrFork | packages/runner/src/executor.ts:294-314 | forks exactly when nothing is in flight, and does to the machine's state what the locked step of dispatch does |
| Flow.WithoutKeepsDistinct | packages/execution/src/transport.ts:255-259 | removing an id removes just that id from a table without repeats |
| Flow.WithoutKeepsTheRest | packages/execution/src/transport.ts:255-259 | and keeps everything else, in its order |
| Flow.TotalBytes | packages/execution/src/transport.ts:298-299 | the admission loop adds up the bytes in flight |
| Flow.AddKeepsLimits | packages/execution/src/transport.ts:300-302 | an admitted request keeps the table within count and bytes and free of repeats |
| RpcServer.StepKeeps | packages/execution/src/transport.ts:220-446 | each step of each call and receiver keeps the books within limits, ids apart, and every result justified by a frame or by the loss of the connection |
| ServerRuns.RunKeeps | packages/execution/src/transport.ts:188-450 | the same over every interleaving; results and finished calls never change |
| ServerRuns.Multiplexing | packages/execution/src/transport.ts:252-316 | in flight calls stay within count and bytes, retired ids within twice the RPC limit, pending and retired ids are apart and were all allocated |
| ServerRuns.AnswersMatch | packages/execution/src/transport.ts:435-445 | an RPC succeeds only with a frame carrying its own id and the response kind it expects |
| ServerProgress.AnswerEndsCall | packages/execution/src/transport.ts:416-446 | the answer to a pending call ends it: with its response if that is of the kind asked for, with its error, and else with the protocol fence and the end of the connection; other calls stay pending |
| ServerProgress.CallIsSentExactly | packages/execution/src/transport.ts:273-314 | a call is refused before dispatch if its frame is too long, there is no room, or the peer does not take it, refused for the connection if that is not ready, and else pending with its frame handed over |
| ServerProgress.CallIsAnswered | packages/execution/src/transport.ts:273-446 | with room for it, a call whose frame the peer takes ends with the answer to it |
| ServerProgress.EnrolsExactly | packages/execution/src/transport.ts:388-416 | an awaiting connection becomes ready if and only if the Runner enrols with its very, consistent binding and can be told so; anything else closes it |
| ServerProgress.ShutdownTells | packages/execution/src/transport.ts:220-242 | the end of a connection tells each pending call the fence, or where it stood by its kind |
| ServerRuns.BeforeDispatchIsDefinite | packages/execution/src/transport.ts:278-314 | a dispatch ends in the before-dispatch failure only if its frame was never handed over or the peer itself said so |
| ServerRuns.ShutdownIsFinal | packages/execution/src/transport.ts:220-242 | shutdown fails each pending call in its own phase or with the fence, and leaves none pending ever after |
| ServerRuns.ClosedCallsAreAnswered | packages/execution/src/transport.ts:220-242 | after closing, every call on the wire has its result or a receiver about to complete it |
| ServerRuns.RetiredIsRemembered | packages/execution/src/transport.ts:252-270 | the id just retired is among those remembered |
| ServerRuns.RetiresExactly | packages/execution/src/transport.ts:252-270 | a retired id is the newest remembered, and only the oldest are forgotten, no more than needed |
| ServerRuns.UnmatchedAnswerExactly | packages/execution/src/transport.ts:420-433 | an answer to no pending call changes nothing but the list of retired ids if its id is one of them, and closes the connection if it is not |
| ServerRuns.InterruptedAnswerIsDropped | packages/execution/src/transport.ts:252-270 | after an interrupt on the wire the late answer leaves the connection ready, the other calls pending, and every result as it was |
| ServerRuns.OrphansAreAbandoned | packages/execution/src/transport.ts:293-314 | a slot without a caller comes only from a call stopped, at a moment when it held the slot, outside its wait for the answer |
| ServerRuns.OrphanStays | packages/execution/src/transport.ts:252-314 | such a slot stays taken along every run until an answer with its id is heard or the connection is closed |
| ServerRuns.Multiplexer.constructor | packages/execution/src/transport.ts:195-199 | starts awaiting enrolment, with nothing pending |
| ServerRuns.Multiplexer.Allocate | packages/execution/src/transport.ts:275-276 | hands out each number once, in order |
| ServerRuns.Multiplexer.Admit | packages/execution/src/transport.ts:293-304 | refuses when not ready or beyond the limits, else records the call as pending |
| ServerRuns.Multiplexer.Retire | packages/execution/src/transport.ts:252-270 | the eviction loop leaves the newest ids, at most twice the limit |
| ServerRuns.Multiplexer.Close | packages/execution/src/transport.ts:220-230 | closes once and gives back exactly the calls that were pending |
| Coordinator.JournalRequiresAdmission | packages/execution/src/operation.ts:155-184 | no result is journalled for an operation the component has not admitted under its present, consistent binding |
| Coordinator.ReconcileExactly | packages/execution/src/operation.ts:264-278 | recovery journals if and only if the operation is admitted and the Executor holds evidence made for it within the receipt bound, and then that outcome |
| Coordinator.DispatchExactly | packages/execution/src/operation.ts:230-262 | dispatch journals if and only if the operation is admitted and its receipt can be journalled, or it has none, the handshake is the binding's own, and the exchange gave evidence that can be journalled or was lost after the frame had left |
| Coordinator.ReconcileKinds | packages/execution/src/operation.ts:264-278 | the kind of every failure of a recovery, exactly |
| Coordinator.DispatchKinds | packages/execution/src/operation.ts:230-262 | the kind of every failure of a dispatch, exactly |
| Coordinator.TerminalResultsRelease | packages/execution/src/operation.ts:208-219 | exactly the Completed and DomainFailure results release an admitted operation, once, and no other one |
| Protocol.RunKeeps | packages/execution/src/operation.ts:230-262 | server and Runner keep their invariants together, and every answer heard is the final word of the fiber that served it |
| ProtocolProgress.DispatchCompletes | packages/execution/src/operation.ts:230-262 | end to end: with room on the connection and a Runner that knows nothing of the operation, a dispatch starts its worker once, and what that makes of its exit is journalled, is the receipt, and ends the call, unless it is a failure with too long a text |
| ProtocolProgress.EveryEndReturns | packages/runner/src/transport.ts:204-225 | every end of the fiber that serves a dispatch may come back and ends it: with its evidence, with its error, or uncertain if it was stopped |
| ProtocolProgress.EnrolledCanRun | packages/execution/src/transport.ts:388-416 | a new, enrolled connection to a new Runner has what such a call needs |
| Protocol.BeforeDispatchStartedNothing | packages/execution/src/operation.ts:247-253 | end to end: a dispatch reported as failed before dispatch has started nothing on the Runner and never will |
| Protocol.LostConnectionIsUnknown | packages/execution/src/operation.ts:249-253 | end to end: once the frame was handed over, a dispatch unanswered when the connection is lost ends as Unknown and in no other way |
| Protocol.CompletedIsTheReceipt | packages/execution/src/operation.ts:254-261 | end to end: a result journalled as Completed is the Runner's receipt for ever |
| Protocol.JournalIsTheReceiptExactly | packages/execution/src/operation.ts:254-261 | end to end, in every run: what is journalled from an answer is the Runner's receipt if and only if it is not a rejection that another receipt had overtaken |
| Protocol.AnswersAreJournalledExactly | packages/execution/src/operation.ts:247-261 | end to end, in every run: a dispatch that got an answer is journalled if and only if the evidence is within the receipt bound, and a result always is |
| Protocol.StartsEndToEnd | packages/runner/src/executor.ts:294-311 | end to end, in every run: no operation is started more than twice, and none more than once if and only if no dispatch that reaches the Runner finds `active` empty of an operation whose receipt was recorded while it was in flight |
| WorkerExits.ExitDecidesRelease | packages/runner/src/executor.ts:129-152 | unless a failure is too long to be taken, the coordinator journals what the worker made of its exit, as Completed exactly for a value within the output bound, and the admission can be released exactly unless the worker was interrupted; a failure that is too long stays admitted |
| WorkerExits.WorkerEvidenceFits | packages/runner/src/executor.ts:129-152 | the evidence of a worker is above the receipt bound if and only if it is a failure with too long a text |
| RunnerSizes.RunSmall | packages/runner/src/executor.ts:134-144 | in every run no receipt, completion or answer carries a result above the output bound, and every rejection is its intent's own |
| Sizes.PayloadBytes | packages/execution/src/executor.ts:22-34 | evidence is exactly its payload and an overhead that does not depend on it |
| Json.QuoteRoundTrip | packages/execution/src/operation.ts:130-136 | what is quoted for a size is read back as it was |
| Sizes.OverheadBounds | packages/execution/src/binding.ts:4-50 | under the schemas that overhead is less than half of the receipt bound |
| Sizes.IntentFits | packages/execution/src/operation.ts:21-30 | an intent of the schema always fits a dispatch |
| Sizes.HandshakeFits | packages/execution/src/binding.ts:38-47 | a binding of the schema always fits a handshake |
| RunnerTransport.FlowControl | packages/runner/src/transport.ts:194-264 | requests in flight never share an id and stay within count and bytes; each accepted request is answered at most once, with its own id and kind |
| RunnerTransport.EnrolmentIsFenced | packages/runner/src/transport.ts:226-252 | nothing is served before the server has enrolled this Runner's own binding |
| RunnerTransport.EnrolsExactly | packages/runner/src/transport.ts:226-240 | an awaiting connection becomes ready if and only if the evidence is its own binding's, and is closed by anything else |
| RunnerTransport.RequestIsTakenExactly | packages/runner/src/transport.ts:241-264 | a request within the frame bound is taken on at a ready connection if and only if its id is free and there is room, and closes it otherwise |
| RunnerTransport.RequestIsAnswered | packages/runner/src/transport.ts:194-225 | a request taken on is answered under its id with what its execution ended with, and its place alone is given back |
| RunnerTransport.ClosedIsFinal | packages/runner/src/transport.ts:167-182 | a closed connection stays closed; only requests already past the phase check can still be accepted |
| RunnerTransport.ActiveTable.constructor | packages/runner/src/transport.ts:144 | starts empty |
| RunnerTransport.ActiveTable.Admit | packages/runner/src/transport.ts:253-263 | accepts exactly a fresh id within the limits, and records it |
| RunnerTransport.ActiveTable.Complete | packages/runner/src/transport.ts:194-202 | removes just that id |
| Projection.CountThrough | packages/client/src/projection.ts:310-315 | `findIndex + 1`: one past the first entry with that id, zero only if there is none |
| Projection.ApplyChanges | packages/client/src/projection.ts:414-429 | the loop over the changes of a delivery computes their fold, and fails exactly when it does |
| LivePreviews.FoldExactly | packages/client/src/projection.ts:414-423 | of changes that quote the stream, each channel ends up as the stream up to the end of its last change; they are refused if and only if one begins beyond the end of its channel at that point |
| LivePreviews.DeliveryExactly | packages/client/src/projection.ts:379-456 | a delivery is applied if and only if it is for this Session and Run, follows what was shown, and leaves no gap; it then shows the changed text and touches no other Run |
| LivePreviews.ResetExactly | packages/client/src/projection.ts:457-468 | a reset removes the preview of its Run unless a later attempt or generation was shown |
| LivePreviews.StreamIsShown | packages/client/src/projection.ts:379-456 | of deliveries in sequence that leave no gap every one is applied, and the Run shows all that has been streamed so far |
| Delivery.CommittedExactly | packages/client/src/projection.ts:491-517 | a committed event is applied if and only if it is the next and its update, if any, names the leaf held, with the entries kept and added, leaf, cursor and previews that follow; an old one is ignored, any other asks for a snapshot |
| Delivery.SnapshotExactly | packages/client/src/projection.ts:477-489 | a replacement snapshot is taken if and only if it is of this Session and of no earlier connection, and replaces everything but the fences |
| Delivery.CatchesUp | packages/client/src/projection.ts:491-517 | a client at a cursor of the log that is given the events after it stands at the last of them and asks for no snapshot |
| Delivery.CatchesUpShown | packages/client/src/projection.ts:301-327 | and shows the newest part of the path, with every entry committed meanwhile if the server only appended |
| Projection.StepFenced | packages/client/src/projection.ts:379-517 | every event keeps previews at their fences and moves no fence or epoch back |
| Projection.PreviewFencing | packages/client/src/projection.ts:379-517 | over every run, across snapshots, resets and assistant entries, fences and epochs only advance and each preview stands at its fence |
| Projection.AgeChecksAreRedundant | packages/client/src/projection.ts:396-413 | on every reachable state the age checks against the preview shown never decide anything |
| Projection.PreviewPrefix | packages/client/src/projection.ts:379-456 | under loss, repetition and reordering the text shown is a prefix of what the server streams for that attempt |
| Projection.RefusedEventsChangeNothing | packages/client/src/projection.ts:478-508 | an event not applied changes nothing, except that a committed one may ask for a snapshot |
| Convergence.UpdateKeepsSuffix | packages/client/src/projection.ts:301-327 | a well-formed update always leaves the newest part of the new path, wherever the branch point lies and whatever the cursor is worth |
| Convergence.UncarriedCursor | packages/client/src/projection.ts:316-324 | for an update without cursor: exactly when the cursor held leads to a beginning of the new path, and to its branch point if nothing loaded is kept |
| Convergence.AppendsKeepCursor | packages/client/src/projection.ts:306-324 | an update that appends never loses the cursor |
| Convergence.ReliableKeepsCursor | packages/client/src/projection.ts:306-324 | an update that appends, or carries a cursor that leads up to its own entries, never loses the cursor, whatever is loaded |
| Convergence.UnknownIsOlder | packages/client/src/thread.ts:943-944 | filtering a page by the ids loaded leaves exactly the entries before the window |
| Convergence.SpliceConverges | packages/client/src/thread.ts:940-965 | a page taken at the cursor in force keeps the conversation a duplicate-free end of the server's path |
| Convergence.SpliceKeepsSuffixExactly | packages/client/src/thread.ts:940-965 | after a page the entries are the newest part of the path if and only if it adds nothing or its cursor leads to a beginning of the path that meets the window |
| Convergence.LastPageCompletes | packages/client/src/thread.ts:945-952 | after a page with no further cursor the client holds the whole path |
| Thread.MergedIsUnion | packages/client/src/thread.ts:192-201 | family pages only add Sessions, each listed once, the known ones in their places |
| ThreadAgreement.StepAgrees | packages/client/src/thread.ts:363-967 | every step keeps each projection, shown, cached or being opened, in agreement with the server, unless a page is spliced in at a lost cursor |
| ThreadAgreement.StepAgreesExactly | packages/client/src/thread.ts:934-965 | a truthful step keeps that agreement if and only if it does not splice at a lost cursor |
| ThreadAgreement.ConvergesExactly | packages/client/src/thread.ts:363-398 | over every interleaving of selections, pages, openings and duplicated, reordered or dropped events, every projection is at every point the newest part of the server's conversation if and only if no page was spliced in at a lost cursor |
| ThreadAgreement.ReliableRunAgrees | packages/client/src/thread.ts:363-967 | with a server whose updates append or carry a reaching cursor, every projection agrees in every run, and all history before it can still be loaded |
| ThreadAgreement.ReliableNeverLoses | packages/client/src/thread.ts:934-965 | such a server never brings a splice at a lost cursor about |
| HistoryPaging.HistoryCanBeLoaded | packages/client/src/thread.ts:920-967 | in every run against a reliable server, repeated history pages end with the whole path of the Session shown, after at most one more than that path has entries |
| ThreadAgreement.ShownIsTheServersConversation | packages/client/src/thread.ts:363-377 | what is shown is the newest part of the server's conversation at the committed cursor, no entry twice |
| StaleCursor.LostCursorIsReachable | packages/client/src/thread.ts:934-965 | a concrete run from the initial client: a complete reset moves the Session to another branch, and the next history page puts an entry of the abandoned branch in front |
| ThreadSelection.IsolationExactly | packages/client/src/thread.ts:583-638 | a step lets a Session of another selection in if and only if it is a child opening that outlived its selection |
| ThreadSelection.RunIsolated | packages/client/src/thread.ts:516-519 | without such an opening everything shown or cached was read for the selection in force |
| ThreadSelection.IsolatedExactly | packages/client/src/thread.ts:583-638 | over a whole run, selections are isolated at every point if and only if no opening ends late |
| ThreadSelection.RunCoherent | packages/client/src/thread.ts:547-582 | without such an opening what is shown is the root or the focused child, exactly as it is cached |
| ThreadSelection.FocusSurvivesRefresh | packages/client/src/thread.ts:568-573 | a family refresh never drops the focus on a child, as families only grow |
| ThreadSelection.FamilyListsOnce | packages/client/src/thread.ts:192-201 | in every run a family lists each Session once, and while a selection lasts it keeps what it listed before |
| ThreadProgress.SelectionShows | packages/client/src/thread.ts:583-638 | a selection that is let run shows its root as the snapshot has it, alone in the cache, and its family with each Session once |
| ThreadProgress.ObservesExactly | packages/client/src/thread.ts:378-398 | an event of the selection in force is applied to its Session in the cache and on the screen; one of another selection changes nothing |
| ThreadProgress.FollowsEvents | packages/client/src/thread.ts:378-398 | the client goes through the events of a Session it shows just as the reducer does |
| ThreadProgress.LiveThreadCatchesUp | packages/client/src/thread.ts:378-638 | a client that selects a Thread and observes the committed events after its snapshot shows it at the last of them, as the newest part of the path, and asks for no snapshot |
| ThreadProgress.ChildShows | packages/client/src/thread.ts:860-905 | a child opened while none is focused is shown as its snapshot has it |
| ThreadProgress.SecondChildShows | packages/client/src/thread.ts:884-905 | a second child is shown once the connection of the first has stopped |
| ThreadProgress.BackShowsRoot | packages/client/src/thread.ts:906-919 | going back shows the root again, as it is cached |
| ThreadProgress.FamilyGrows | packages/client/src/thread.ts:192-201 | a page of a family gives root, cursor and, on a refresh, time, and adds its Sessions |
| ThreadProgress.OvertakenChildIsDropped | packages/client/src/thread.ts:862-883 | an opening overtaken by a selection, a way back, another opening, a change of family or a disposal shows nothing |
| ThreadProgress.DisposedShowsNothingNew | packages/client/src/thread.ts:363-377 | a disposed client shows nothing new |
| ThreadSelection.LateOpeningIsReachable | packages/client/src/thread.ts:884-905 | a concrete run in which a child of the abandoned selection is shown under the next one |
| ThreadClients.ThreadClient.constructor | packages/client/src/thread.ts:325-350 | starts with nothing selected |
| ThreadClients.ThreadClient.UpdateProjectionWith | packages/client/src/thread.ts:363-377 | caches and publishes the projection, unless disposed |
| ThreadClients.ThreadClient.BeginSelection | packages/client/src/thread.ts:583-602 | takes a new epoch and forgets everything of the previous selection |
| ThreadClients.ThreadClient.FinishSelection | packages/client/src/thread.ts:621-637 | installs the root only for the epoch it was read for |
| ThreadClients.ThreadClient.ObserveEvent | packages/client/src/thread.ts:378-398 | applies an event of the current epoch to the Session it names, cached and shown |
| ThreadClients.ThreadClient.BeginOlder | packages/client/src/thread.ts:920-926 | at most one history request at a time, for the cursor held |
| ThreadClients.ThreadClient.FinishOlder | packages/client/src/thread.ts:934-966 | splices exactly when selection, Session and cursor are still those asked for |
| ThreadClients.ThreadClient.ReprojectCached | packages/client/src/thread.ts:556-567 | the loop reprojects every cached Session and no other |
| ThreadClients.ThreadClient.FamilyArrived | packages/client/src/thread.ts:547-577 | merges the family, keeps a focus that belongs to it, shows the active Session |
| ThreadClients.ThreadClient.FinishOpening | packages/client/src/thread.ts:901-904 | focuses the child opened, with the projection captured before the wait |
| Gateway.StepKeeps | apps/api/src/executor/runner-gateway.ts:82-225 | every step of every `connect`, release, interrupted release and finalizer keeps tables, filing and ownership of scopes |
| Gateway.GatewayOwnership | apps/api/src/executor/runner-gateway.ts:82-131 | one entry for each assignment, at most 512, none once closed, each with an open scope |
| Gateway.NoScopeLeaks | apps/api/src/executor/runner-gateway.ts:133-156 | every scope made is closed or owned, or abandoned by an interrupted `disconnected`, and then it stays open in every later state |
| Gateway.ScopesLeakExactly | apps/api/src/executor/runner-gateway.ts:133-156 | once nothing runs, a scope is open if and only if its connection serves or its `disconnected` was interrupted before it had closed it; nothing leaks if and only if that never happened |
| Gateway.InterruptedReleaseLeaks | apps/api/src/transport/runner-upgrade.ts:77-116 | a concrete run in which a `disconnected` is interrupted by the closing of its caller's scope, and the connection's scope stays open after all finalizers |
| Gateway.RoutingIsFenced | apps/api/src/executor/runner-gateway.ts:158-167 | requests reach a connection if and only if one serves exactly that binding, installed and open |
| Gateway.ReservesExactly | apps/api/src/executor/runner-gateway.ts:82-96 | an assignment gets a reservation if and only if the gateway is open, nothing is filed for it and fewer than 512 entries are |
| Gateway.AuthorizedServes | apps/api/src/executor/runner-gateway.ts:178-228 | an authorized connection that finds its place and can be made is installed, and serves its binding |
| Gateway.FailedConnectionLeavesNothing | apps/api/src/executor/runner-gateway.ts:195-205 | one that cannot be made gives its reservation back and closes its scope |
| Gateway.ReleaseEnds | apps/api/src/executor/runner-gateway.ts:133-136 | a release that is let run ends its connection and closes its scope |
| Gateway.FinalizerTakesAll | apps/api/src/executor/runner-gateway.ts:138-156 | the finalizer takes every entry out and closes each scope |
| Gateway.ClosedIsFinal | apps/api/src/executor/runner-gateway.ts:138-156 | a closed gateway stays closed and empty |
| Gateway.WorkspaceGateway.constructor | apps/api/src/executor/runner-gateway.ts:75-79 | starts open and empty |
| Gateway.WorkspaceGateway.Reserve | apps/api/src/executor/runner-gateway.ts:82-96 | refuses when closed, taken or full, else adds the one reservation, and keeps the table bounds |
| Gateway.WorkspaceGateway.Install | apps/api/src/executor/runner-gateway.ts:98-116 | turns the caller's own reservation into a connection, or changes nothing |
| Gateway.WorkspaceGateway.Unregister | apps/api/src/executor/runner-gateway.ts:118-131 | removes the caller's own entries only |
| Gateway.WorkspaceGateway.Finalize | apps/api/src/executor/runner-gateway.ts:138-148 | closes, empties the tables and hands over every entry once |
| WriteLocks.StepKeeps | packages/runner/src/workspace.ts:348-374 | every step keeps each permit free or held, and one gate for each file |
| WriteLocks.WriteExclusion | packages/runner/src/workspace.ts:364-374 | a running bash is alone with all writes, and two edits of one file never overlap |
| WriteLocks.DoneHasWorked | packages/runner/src/workspace.ts:364-374 | unless it is interrupted, no request ends without having run or edited its file |
| WriteLocks.NoDeadlock | packages/runner/src/workspace.ts:348-374 | while any request is unfinished some request can go on, and its step shrinks the work left |
| WriteLocks.Drains | packages/runner/src/workspace.ts:348-374 | from every reachable state the requests under way can all be completed |
| WriteLocks.WriteGateTable.constructor | packages/runner/src/workspace.ts:350 | starts empty |
| WriteLocks.WriteGateTable.WriteGate | packages/runner/src/workspace.ts:351-361 | gives a file its one gate, made on first use, and keeps gates of files apart |
| Enrollment.StepKeeps | apps/api/src/executor/box-enrollment.ts:113-168 | every step keeps the table bounds and the fairness of all tickets taken |
| Enrollment.TicketsAreSingleUse | apps/api/src/executor/box-enrollment.ts:113-168 | tickets are taken at most once, by their own Box, before expiry; at most 256 grants, one for each assignment; only taken tickets are accepted, and only with the binding and partition they were issued for |
| Enrollment.GoneForGood | apps/api/src/executor/box-enrollment.ts:149-156 | a ticket that left the table is never taken again |
| Enrollment.SupersededIsRefused | apps/api/src/executor/box-enrollment.ts:123-135 | no ticket is taken after a later one was issued for its assignment |
| Enrollment.ClosedRefuses | apps/api/src/executor/box-enrollment.ts:93 | after closing nothing is issued or taken, and no further authorization passes the closed check |
| Enrollment.IssueExactly | apps/api/src/executor/box-enrollment.ts:123-135 | issuing removes expired grants and the assignment's own and no others, and an expired grant never blocks it |
| Enrollment.TakenExactly | apps/api/src/executor/box-enrollment.ts:149-156 | a ticket is taken if and only if it is still in the table, for that Box and unexpired |
| Enrollment.AcceptsExactly | apps/api/src/executor/box-enrollment.ts:157-168 | an authorization ends well if and only if the Thread is found in an Orb with the very, consistent binding and identity the ticket was issued for |
| Enrollment.TicketIsAccepted | apps/api/src/executor/box-enrollment.ts:113-168 | a ticket issued, shown in time by its Box and looked up while nothing has changed is accepted |
| Enrollment.EnrollmentTable.constructor | apps/api/src/executor/box-enrollment.ts:92 | starts open and empty |
| Enrollment.EnrollmentTable.Issue | apps/api/src/executor/box-enrollment.ts:123-135 | replaces what expired and what the assignment had, or refuses and changes nothing |
| Enrollment.EnrollmentTable.Take | apps/api/src/executor/box-enrollment.ts:149-156 | hands out the grant and removes it, or changes nothing |
| Enrollment.EnrollmentTable.Finalize | apps/api/src/executor/box-enrollment.ts:93 | closes and empties |
| Materializer.Rewritten | packages/context/src/materializer.ts:323-327 | only the entry of the named skill gets the new body and a higher version |
| Materializer.PinnedGuidance | packages/context/src/materializer.ts:343-371 | finds the guidance exactly when scope, identity, content, capability and every activated body match, and it is the guidance held |
| Materializer.CredentialCheckExactly | packages/context/src/materializer.ts:161-170 | a value is refused if and only if some key in it, at whatever depth, contains one of the secret words in any case |
| Materializer.DiscoverValid | packages/context/src/materializer.ts:253-307 | discovery succeeds if and only if no key of the options is a secret's, the names kept differ and the paths differ; what it pins is within its limits and passes its own restore check |
| Materializer.DiscoverPins | packages/context/src/materializer.ts:253-307 | what it pins is every guidance file with its content, every listing kept with its description cut to size, nothing else, and the model and tools given |
| Materializer.RestoreNeverFails | packages/context/src/materializer.ts:343-379 | after any commands a discovered Session still restores and composes |
| Materializer.RestoresExactly | packages/context/src/materializer.ts:343-379 | a restore succeeds if and only if guidance and registration stand for one payload of the scope, with the body of every activated skill, and the model is the one pinned |
| Materializer.RebindsExactly | packages/context/src/materializer.ts:576-585 | a rebind is accepted if and only if it expects the present, consistent binding and keeps its policy under a higher generation |
| Materializer.ChangesSettingsExactly | packages/context/src/materializer.ts:616-619 | a settings change is accepted if and only if it is at the revision expected, without a secret key, under its own pin |
| Materializer.ActivatesExactly | packages/context/src/materializer.ts:587-598 | an activation is accepted if and only if the skill is pinned, may be invoked, and the body has the identity given |
| Materializer.NoSecretIsPinned | packages/context/src/materializer.ts:177-180 | after any commands no key at any depth of the model's options is a secret's |
| Materializer.RevisionsCount | packages/context/src/materializer.ts:573-619 | the revision counts the accepted settings changes, each accepted rebind raises the generation, model and workspace are those last accepted, policy, skills, tools and scope never change |
| Materializer.ReaderActivationIsTheCommand | packages/context/src/materializer.ts:309-341 | activation through the reader is the command with the body read |
| Materializer.ActivationReplacesOneBody | packages/context/src/materializer.ts:588-615 | exactly the pinned, invocable skills can be activated, and only the text of that skill changes |
| Materializer.ActivationIsRecorded | packages/context/src/materializer.ts:604-615 | each activated skill is on record once, with the body last pinned, and other records stay |
| Materializer.ChildAuthorizedExactly | packages/context/src/materializer.ts:381-469 | the chain of checks admits exactly the children that ask for granted and authorized tools, no other model, and just the credentials it needs, all still authorized |
| ContextReads.ContextReadExactly | packages/context/src/remote.ts:171-270 | a response comes through if and only if it fits the receipt bound together with its envelope, and is otherwise forbidden, whichever end finds out; an error comes through as it is |
| ContextReads.BetweenTheBounds | packages/runner/src/workspace.ts:291-300 | a response that fits the bound without its envelope only is answered as a completed result, refused by the reader, and would be `transport` to a coordinator |
| ContextReads.CompletedLooksLikeTransport | packages/context/src/filesystem.ts:104-128 | such a response exists for every intent: an `AGENTS.md` of 65497 to 65504 line ends, within the 64 KiB the reader allows |
| ContextReads.ErrorsCanBeDecoded | packages/context/src/remote.ts:201-208 | a decoder that reads back the reason of every encoded error exists |
| Billable.BoundedRetries | packages/box-executor/src/provider.ts:307-359 | at most `retryAttempts` sends, same key and body, each inside the window and after a retryable failure; a success is the last answer |
| Billable.GivesUpExactly | packages/box-executor/src/provider.ts:314-358 | it gives up exactly when all attempts failed retryably, and reports the window exactly when an attempt came due outside it |
| Billable.CallExactly | packages/box-executor/src/provider.ts:307-359 | a call sends once in each attempt up to the one at which it stops, and its result is that attempt's: the Box, a final error, or what ran out |
| Billable.RejectionIsFinal | packages/box-executor/src/provider.ts:217-247 | a rejection ends the call at once and is its result, unless its status is 500 or above or it says that the first send is in progress |
| Billable.OneBoxExactly | packages/box-executor/src/provider.ts:307-359 | a provider that remembers keys for the window makes one Box if and only if the last send it deals with is inside the window opened by the first |
| Billable.AtMostOneBox | packages/box-executor/src/provider.ts:307-359 | if sends are dealt with before the request expires there is at most one Box, never a reused key, and a success names that Box |
| Billable.LateHandlingMakesTwo | packages/box-executor/src/provider.ts:317-334 | a concrete late send makes a second Box |
| Billable.ReadBody | packages/box-executor/src/provider.ts:131-180 | the reading loop gives all chunks together exactly when declared and actual sizes keep the bound |
| Lifecycle.PollExactly | packages/box-executor/src/lifecycle.ts:145-182 | polling makes at most the allowed requests and succeeds exactly when the first decisive look shows the Box where it should be, set up |
| Lifecycle.PreparedFromThePin | packages/box-executor/src/lifecycle.ts:246-269 | a Ready Box was seen ready in time and enrolled under the intended, consistent binding, and was forked from the policy's snapshot if that pin stays |
| Lifecycle.PreparedExactly | packages/box-executor/src/lifecycle.ts:184-269 | every Ready Box of a valid Prepare comes from the pin, whatever the timing, if and only if the pin stays the latest snapshot between any two observations of it |
| Lifecycle.ReadyExactly | packages/box-executor/src/lifecycle.ts:246-269 | Prepare is Ready if and only if the intent is valid, the pin is observed on both sides of a fork that makes a Box, the first decisive look is good, and it enrols with the evidence of the intended binding |
| Lifecycle.ForkedFromThePin | packages/box-executor/src/lifecycle.ts:351-374 | the same for Fork, with a lineage and assignment of its own |
| Lifecycle.ForkedExactly | packages/box-executor/src/lifecycle.ts:184-202 | the same equivalence for every valid Fork |
| Lifecycle.ForkReadyExactly | packages/box-executor/src/lifecycle.ts:351-374 | Fork likewise, for a held Box at its snapshot and a binding with workspace, lineage and assignment of its own |
| Lifecycle.ForkAndResumeAreMeant | packages/box-executor/src/lifecycle-validation.ts:20-33 | a concrete fork is valid and Ready, and a concrete resume is fresh |
| Lifecycle.NeverReturnsKeepsPins | packages/box-executor/src/lifecycle.ts:184-202 | it is enough that the latest snapshot of a Box never returns to an earlier value |
| Lifecycle.OthersMayReturn | packages/box-executor/src/lifecycle.ts:184-202 | and that is more than is needed: another snapshot may return while the pin stays |
| Lifecycle.ReturningSnapshotDeceives | packages/box-executor/src/lifecycle.ts:184-202 | a concrete pin that does not stay: both observations pass although the fork took another snapshot |
| Lifecycle.FreshBindingsFence | packages/box-executor/src/lifecycle-validation.ts:20-33 | no evidence passes for a binding and for the fresh one that follows it |
| Lifecycle.ResumeChainFences | packages/box-executor/src/lifecycle-validation.ts:20-26 | along any chain of resumes generations rise, the lineage stays, and no two of the bindings share evidence |
| Shell.StartLineRoundTrip | packages/box-executor/src/bootstrap.ts:309-328 | a POSIX reading of the start line gives exactly the words of the command, then the redirection |
| Shell.StartLineIsInjective | packages/box-executor/src/bootstrap.ts:152-156 | different valid commands give different lines |
| Shell.QuoteRoundTrip | packages/box-executor/src/bootstrap.ts:138 | a quoted value is one word, with the value as its text |
| Aad.EncodeInjective | packages/credential-vault/src/aad.ts:12-37 | UTF-8 tells strings apart |
| Aad.FieldsAreRecovered | packages/credential-vault/src/aad.ts:17-37 | a length-prefix parser recovers the six fields in order |
| Aad.FieldsInOrder | packages/credential-vault/src/aad.ts:12-37 | the six fields by name, for both kinds of owner |
| Aad.AuthenticatedDataIsInjective | packages/credential-vault/src/aad.ts:17-37 | two different credential bindings never share additional authenticated data |

## Left out

- Wire formats: frames of the two transports are values with an abstract size in bytes; what the byte bounds on intents, handshakes and evidence measure is modelled as text, with results and failures as the text of a JSON value; schema decoding is not modelled.
- ContextReads.ContextReadExactly: the schema decodes what it has encoded; the reader's file system is a parameter.
- Sizes.OverheadBounds: counts characters where the schemas count UTF-16 units, which only widens what is covered.
- Network, HTTP routing, identity, databases, object storage, the native tools themselves and their processes: what they answer is a parameter or an event.
- The `effect` and `generalist` libraries: Ref, Deferred, Semaphore and Scope by their usual meaning; digests as ideal, so that equal digests mean equal contents.
- RunnerExecutor.StepKeeps: the workspace context tool (packages/runner/src/workspace.ts:291-300) answers without a receipt and without the executor, and is modelled apart, in ContextReads.
- Liveness: waiters of an operation that `reject` settled are never completed by the code; only safety is stated for them.
- Forking the worker and adding it to `active` (packages/runner/src/executor.ts:300-310) are one step, as nothing suspends between them.
- RpcServer.StepKeeps: setting the state, sending `Enrolled` and completing `ready` (packages/execution/src/transport.ts:401-415) are one step, and so are closing and failing the pending calls (220-242).
- RunnerTransport.FlowControl: states the Runner's bound alone; equal limits on both ends do not imply that the Runner never refuses for capacity.
- Protocol.BeforeDispatchStartedNothing: one connection and one Runner; a reconnect is a new server over the same Runner and is covered by the Runner's own theorems.
- Protocol.RunKeeps: the Runner's side of the connection is taken as honest frame by frame: an answer is the final word of the fiber that served the call. RunnerTransport.FlowControl, which says so of the Runner's transport, is not composed with it.
- Gateway.ScopesLeakExactly: an interrupted closing of a scope counts as not closed, though some of its finalizers may have run.
- Projection.PreviewFencing: epochs are monotone in the reducer; the Thread client rebuilds projections with epoch 0 and clears the request for a snapshot (packages/client/src/thread.ts:556-567, 955-965).
- ThreadAgreement.ConvergesExactly: takes the server's committed history for a tree in which an entry has one parent, and servers to tell the truth about it.
- Rendered items, activity, pending turns, Thread lists and notices of the client, and the commands that only forward to the server.
- Gateway readiness (apps/api/src/executor/runner-gateway.ts:235-247) and who is authorized to connect: authorization is an event with its binding.
- The order in which Semaphore waiters are served: any waiter with enough permits may go next, so fairness is not claimed.
- Enrollment.TicketsAreSingleUse: request paths, headers and the lookup of the current assignment are parameters; tickets are fresh and their digests do not collide.
- Materializer.DiscoverValid: `SkillCatalog.selectListings` belongs to a library and comes before the modelled part; schema decoding of the binding and of the result, and the bounds it sets, are not modelled.
- Billable.AtMostOneBox: the provider's memory of keys is an assumption about the provider, stated in the model.
- Stop and Resume of a Box beyond the freshness of their bindings, durable replay of nested operations, and the readiness poll of the bootstrap, which is bounded like the one modelled.
- Shell.StartLineRoundTrip: the other lines of the start script are not modelled; text whose value depends on expansion is reported as unknown by the scan, not interpreted.
- Aad.AuthenticatedDataIsInjective: strings are well formed, that is, without lone surrogates; encryption itself is not modelled.
