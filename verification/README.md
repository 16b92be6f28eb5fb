# Protodriver runtime, modelled and proved

This project models the parts of the device-driver host that carry hand-written state and
arithmetic, and proves what they promise: custody of received input, durable transfers, capture
files, event delivery, state cells, the package format, the poll budget, SHA-256 and exact
decimals. `dafny verify dfyconfig.toml` checks all of it.

One pattern runs through the project. A class or a method with loops follows a source class or
function, updating the same fields in the same order; its `ensures` ties the new state to a
function on values. The lemmas are about those functions: invariants of every step, statements
over every run, round trips, and equality with an independent definition. Each `await` of the
source ends a step, and the synchronous code between two awaits is one step. A clause written
`P == true` is the predicate P itself; the form keeps the verifier from unfolding P where the
proof beside it needs the name only.

| area | modules |
|---|---|
| input custody and retirement | `AvlTree`, `InputWork`, `InputCustody`, `InputTree`, `InputWatches`, `InputSteps`, `InputRetirement`, `StuckEnd`, `RetirementCut`, `InputBooks`, `AuthoredRetirement` |
| durable transfers | `TransferModel`, `TransferRuns`, `TransferSafety`, `TransferCoverage`, `TransferHorizon`, `TransferCauses`, `TransferCompletion`, `Transfer` |
| capture files | `CaptureFormat`, `CaptureLoader`, `CaptureModel`, `CaptureSafety`, `CaptureRoundTrip`, `CaptureCounts`, `CaptureLines`, `CaptureLate`, `CaptureWriter` |
| event delivery | `EventQueue`, `EventRuns`, `EventLatest`, `EventDelivery` |
| state cells | `ValidityGraph`, `StateModel`, `StateRuns`, `StateLedger`, `AuthoredState` |
| package format | `ZipFormat`, `ZipRoundTrip`, `ZipForeign`, `ZipChecksum`, `ZipArchive`, `LuaSourceSet`, `LuaSourceLayout` |
| poll budget | `PollBudget`, `PollTurns`, `PollSchedule`, `PollGrants`, `AuthoredPoll` |
| arithmetic | `Sha256`, `Sha256Constants`, `StreamingSha256`, `ExactDecimal`, `ExactDivision`, `ExactText`, `ExactReading`, `HumanUnits` |

Where a promise turned out not to hold for all inputs, the code is modelled as it is, and the
project holds a counterexample and the exact condition:

- A transfer that was retired can be opened again (`authored-transfer.ts:255` looks at the receipt
  only). The next carrier must then start where the retired transfer stopped, so the new
  checkpoint's horizon can count bytes never sent under it: `TransferHorizon.HorizonCanOutrunData`
  gives such a run from the empty store. `TransferCoverage.RunHarmlessIff` says exactly when: no
  byte is ever missing if and only if no session opens again that has retired, is not resuming,
  has sent more than nothing and less than everything, and may send carriers at all. A caller can
  see that before the call. Everything else proved about transfers holds for all runs.
- An observation that ended stays filed when its account cannot pay for the removal, and then no
  verdict over its interval becomes true although nothing is left of it. `StuckEnd.StuckInput`
  gives the input; the verdict is true if and only if nothing in the interval has bytes remaining
  or dependencies active and nothing in it is stuck. An observation is never stuck, nor refused a
  step of its end, whose account withheld three units a byte and 512 and which has had at most two
  dependencies a byte and 360 more.
- A `retired: true` verdict can be overturned by a channel that is bound to the index after the
  sample and has old input queued. `RetirementCut.VerdictPermanentIff` gives the exact condition.
- A capture cut between two characters loads as incomplete; one cut inside a UTF-8 character is
  refused by the fatal decoder. `CaptureRoundTrip.CutFileLoads` says exactly which cuts load.
- A reservation may outlive the close. `CaptureLate.FlushedLateFileLoadsIff` says that after any
  further events the closed file still loads if and only if no record was too large for the
  reservation it came through: such a record is noted as a gap, and its line follows the footer.

## Model

| member | source | states |
|---|---|---|
| AvlTree.InsertCorrect | packages/core/src/input-retirement.ts:143-167 | An insertion keeps order and balance, adds exactly the new key, grows the height by at most one and charges at most one step a level plus one |
| AvlTree.RemoveCorrect | packages/core/src/input-retirement.ts:149-181 | A removal keeps order and balance, takes out exactly the key asked for, and the height falls by at most one |
| AvlTree.RemoveCostBound | packages/core/src/input-retirement.ts:168-181 | A removal, with the walk to the successor and its own removal, charges at most twice the height |
| AvlTree.FirstFromLeast | packages/core/src/input-retirement.ts:186-192 | The interval walk ends at the least key not below the start, or at none exactly when there is none, within one step a level |
| AvlTree.VacantMeansNoKey | packages/core/src/input-retirement.ts:182-196 | The emptiness test says that no key at all lies in the interval, and otherwise names one that does |
| AvlTree.HeightIsLogarithmic | packages/core/src/input-retirement.ts:149-160 | A tree of height h has at least Fib(h+2)-1 nodes |
| AvlTree.SafeIntegerHeights | packages/core/src/input-work.ts:60-66 | Over safe-integer sequences the height is at most 76, so a lookup takes at most 76 steps and a removal at most 152, far inside the runway of 512 |
| InputWork.InputWorkAccount.Charge | packages/core/src/input-work.ts:95-99 | Ordinary work is granted exactly while open and within the maximum left by the reservations |
| InputWork.InputWorkAccount.Terminal | packages/core/src/input-work.ts:113-116 | A terminal step moves one unit from reserved to done, so their sum stays within the maximum; it leaves the index the units withheld for it exactly when some of the reserve is the account's own |
| InputWork.InputWorkAccount.CustodyOpen | packages/core/src/input-work.ts:65-70 | Custody opens exactly when three units a byte and 512 more still fit, and reserves them; a refusal changes nothing |
| InputWork.InputWorkAccount.CustodyIteration | packages/core/src/input-work.ts:76-77 | An iteration is paid from ordinary work before the end of the observation and from the reserve after it |
| InputWork.InputWorkAccount.CustodyClose | packages/core/src/input-work.ts:80-84 | Closing custody gives back exactly what is left of the reserve, once, and then closes the account if it was waiting only for that |
| InputWork.InputWorkAccount.FinishClose | packages/core/src/input-work.ts:186-192 | The account closes exactly when it is closing, nothing holds it and a last unit is reserved |
| InputTree.Rebalance | packages/core/src/input-retirement.ts:149-160 | Rotating linked nodes in place gives the nodes of the balanced tree of the model, and the heights they store are its heights |
| InputTree.InsertBelow | packages/core/src/input-retirement.ts:161-167 | The recursive insertion succeeds exactly when the account can pay for the path; when it is refused on the way down the linked tree spells what it spelled before |
| InputTree.RemoveBelow | packages/core/src/input-retirement.ts:168-181 | The recursive removal succeeds exactly when the account can pay the exact cost, and leaves the removed tree of the model |
| InputWatches.First | packages/core/src/input-retirement.ts:182-193 | The walk over linked nodes answers within its exact cost, with no node exactly when none of the filed observations lies in the interval, else with a live one inside it |
| InputRetirement.InputRetirementIndex.Register | packages/core/src/input-retirement.ts:129-142 | A registration is refused exactly on a bad or known sequence, on refused storage or on an account too small for the insertion; then tree and ledger are as they were and the account is closed; else exactly one observation is added |
| InputRetirement.InputRetirementIndex.Retain | packages/core/src/input-retirement.ts:218-226 | A dependency is added to a live observation exactly when its account can pay and storage is granted; a stuck observation is stuck no longer |
| InputRetirement.InputRetirementIndex.Release | packages/core/src/input-retirement.ts:227-233 | A second disposal does nothing; the first takes off one activity and ends the observation exactly when nothing else holds it. It is refused exactly without a unit left, and stuck exactly when it was the last hold and the units then left do not cover the removal; neither happens to an observation with its full grant |
| InputRetirement.InputRetirementIndex.Consume | packages/core/src/input-retirement.ts:235-241 | Bytes are taken exactly from a live observation that has them; the last byte ends it unless a dependency holds it, refused and stuck under the same exact conditions |
| InputRetirement.InputRetirementIndex.Retire | packages/core/src/input-retirement.ts:242-263 | The end of an observation removes exactly it, exactly when the account can pay for the removal, and is marked as stuck otherwise; every watch that sat on it is told, moved to another witness or dropped with a reported failure |
| InputRetirement.EndowedNeverFalls | packages/core/src/input-work.ts:60-66 | While the grant covers a unit a byte, a unit a dependency ever retained and 152 more, the units left exceed what the removal costs in the tree as it is, as long as anything holds the observation |
| InputRetirement.EndedEndowments | packages/core/src/input-retirement.ts:242-246 | With that grant an observation that has ended can pay for its removal |
| InputRetirement.RunwaySurvives | packages/core/src/input-work.ts:60-66 | Three units a byte and 512, with at most two dependencies a byte and 360 more in whatever order, always leave a unit for each byte and dependency still there and 152 for the removal |
| InputRetirement.InputRetirementIndex.Retired | packages/core/src/input-retirement.ts:182-196 | The verdict holds exactly when no observation with bytes remaining or dependencies active lies in the interval and none is stuck in it |
| InputCustody.ClearedMeans | packages/core/src/input-retirement.ts:182-196 | Nothing is filed in an interval if and only if nothing in it is held and nothing in it is stuck |
| StuckEnd.StuckInput | packages/core/src/input-retirement.ts:242-247 | An input after which nothing is left of the one observation and the verdict over its interval is false |
| InputRetirement.InputRetirementIndex.WatchInterval | packages/core/src/input-retirement.ts:200-217 | A watch is placed exactly when it is paid for; it is told at once exactly when its interval is empty and otherwise sits on a live witness inside it |
| InputRetirement.InputRetirementIndex.Unwatch | packages/core/src/input-retirement.ts:205-210 | A disposed watch leaves its witness and is never told again |
| InputRetirement.InputRetirementIndex.Close | packages/core/src/input-retirement.ts:264-287 | Closing empties the index and ends every watch without telling it |
| InputRetirement.WatchToldOnceVacated | packages/core/src/input-retirement.ts:200-217 | In every state the index can be in, a watch neither disposed, failed nor closed has been told exactly once if nothing is filed in its interval |
| InputRetirement.RunwayCoversRemoval | packages/core/src/input-work.ts:60-79 | With 152 units left the removal is funded, whatever else the index holds |
| RetirementCut.VerdictIsPermanent | packages/core/src/authored-input-retirement.ts:58-71 | A verdict sampled when no unbound queue holds an input of the interval stays true over every later run of arrivals, bindings, deliveries, terminations and discards of unbound queues, consumptions, retentions, releases and stuck ends |
| RetirementCut.VerdictPermanentIff | packages/core/src/ingress.ts:109-119 | For any interval that ended before the sample, a true verdict is permanent if and only if no bindable channel still queues an input stamped inside it |
| InputBooks.NothingIsForgotten | packages/core/src/input-retirement.ts:218-247 | Over every run an input in custody has in the ledger exactly the bytes that arrived less those consumed and the dependencies retained less those released, and it is gone only when every byte is consumed and every dependency released |
| InputBooks.VerdictMeansOver | packages/core/src/input-retirement.ts:182-196 | Over every run nothing in an interval is held if and only if every input taken into custody there was consumed to its last byte and had all its dependencies released |
| AuthoredRetirement.AuthoredInputRetirementService.Sample | packages/core/src/authored-input-retirement.ts:42-80 | A sample is answered exactly for a well-formed, funded and recorded request about the past, with a fresh stamp and the verdict of the ledger; a failure of recording or a change of cut closes the service |
| Transfer.Prepare | packages/core/src/authored-transfer.ts:128-172 | A resumption succeeds exactly on an unclaimed checkpoint of the same source, identity and a phase that may be resumed, and holds its claim; a refusal leaves no claim behind |
| Transfer.AuthoredTransfer.Persist | packages/core/src/authored-transfer.ts:244-251 | A commit writes the next revision by compare-and-swap; whether it took effect is kept apart from whether it was answered, and a late revocation keeps the settled claim |
| Transfer.AuthoredTransfer.ReportFits | packages/core/src/authored-transfer.ts:278-290 | A report is accepted exactly when nothing is rolled back, nothing passes the admitted horizon and the device binding is the bound one |
| Transfer.AuthoredTransfer.Report | packages/core/src/authored-transfer.ts:278-297 | The session and the store after a report are those of the protocol step, for a commit that landed or was lost, answered or not |
| Transfer.AuthoredTransfer.Admit | packages/core/src/authored-transfer.ts:301-321 | The same for a carrier: only the exact next piece of the source is admitted, and the horizon is persisted before the bytes count as submitted |
| Transfer.AuthoredTransfer.PayloadMatches | packages/core/src/authored-transfer.ts:311-312 | The loop over octets accepts exactly the carrier whose payload is the piece of the source |
| Transfer.AuthoredTransfer.Finalize | packages/core/src/authored-transfer.ts:323-330 | The same for a finalization: only with the whole source confirmed, and again only under a repeatable policy |
| Transfer.AuthoredTransfer.Verify | packages/core/src/authored-transfer.ts:332-345 | The same for the two store calls of a verification: both are made only on fresh input that reports the digest of the session's own source while the record is finalizing; the removal follows only a settled verifying commit, and frees exactly its claim |
| Transfer.AuthoredTransfer.Retire | packages/core/src/authored-transfer.ts:209-232 | The same for a retirement confirmed by the bound device, which frees exactly its claim, and takes it from the session even when the caller has given the call up |
| Transfer.AuthoredTransfer.Open | packages/core/src/authored-transfer.ts:253-273 | The same for an opening, whose checkpoint is created and then claimed; the claim is new to the store |
| Transfer.CheckpointStore.Insert | apps/web/src/transfer-checkpoints.ts:65-85 | A record is created exactly under an id that has none |
| Transfer.CheckpointStore.Claim | apps/web/src/transfer-checkpoints.ts:96-125 | A claim is given exactly on an existing record that nobody holds |
| Transfer.CheckpointStore.Swap | apps/web/src/transfer-checkpoints.ts:127-149 | A commit applies exactly when the record is still at the claimed revision and the write is the next one |
| Transfer.CheckpointStore.Complete | apps/web/src/transfer-checkpoints.ts:161-172 | A removal takes the record and gives its claim back, and is refused exactly when the record is gone |
| TransferSafety.StepKept | packages/core/src/authored-transfer.ts:233-345 | Every step of every session, crash, late landing and late retirement keeps the protocol invariant over store, claims, pending writes and the carriers sent so far, without any condition on the steps |
| TransferSafety.RunAdvances | packages/core/src/authored-transfer.ts:244-251 | Over any run a record that survives keeps its source, policy and, once bound, its cookie and generation; revision, confirmed prefix and horizon never decrease |
| TransferSafety.StepOnRecord | apps/web/src/transfer-checkpoints.ts:127-149 | One step leaves a record as it is, removes it, or makes exactly one commit with the next revision |
| TransferSafety.RunForgets | apps/web/src/transfer-checkpoints.ts:161-172 | A record once removed never comes back |
| TransferSafety.FinalizedOnce | packages/core/src/authored-transfer.ts:167-168 | Whatever follows, over all crashes and resumptions and after its record is gone, a non-repeatable transfer is finalized at most once |
| TransferSafety.DurableRecord | packages/core/src/authored-transfer.ts:278-337 | In the store after any run: confirmed prefix within the horizon within the source; a finalizing or verifying transfer is whole; every carrier held the source's own bytes; and however the run goes on a non-repeatable transfer is finalized at most once |
| TransferSafety.ClaimsAreExclusive | apps/web/src/transfer-checkpoints.ts:96-125 | After any run two live sessions never claim the same checkpoint |
| TransferCoverage.StepPlaced | packages/core/src/authored-transfer.ts:301-321 | Every step but the opening of a stale session keeps each byte below each horizon sent and each carrier on its way adjoining |
| TransferCoverage.OpeningUncovers | packages/core/src/authored-transfer.ts:253-255 | After the opening of any stale session some continuation, with no further opening, leaves a record that counts a byte never sent under it |
| TransferCoverage.HarmlessIff | packages/core/src/authored-transfer.ts:253-255 | A step can never lead to a missing byte if and only if it is not the opening of a stale session |
| TransferCoverage.RunHarmlessIff | packages/core/src/authored-transfer.ts:253-255 | The same for whole runs: free of harm at every moment if and only if no stale session opens again |
| TransferCoverage.HorizonWasSent | packages/core/src/authored-transfer.ts:301-321 | In the store after such a run every byte below the horizon was sent with the value of the source |
| TransferHorizon.HorizonCanOutrunData | packages/core/src/authored-transfer.ts:253-255 | From the empty store some run leaves a record that counts a byte never sent under it |
| TransferCauses.ReceiptWasVerified | packages/core/src/authored-transfer.ts:332-345 | Over every run a session that has its receipt made, since it was prepared, a verification on a finalizing record it held and on input newer than any before, and that one reported the session's own source |
| TransferCauses.ReceiptIsHeard | packages/core/src/authored-transfer.ts:340-344 | A receipt is given only to a live session, as it hears that its store call has acted |
| TransferCauses.RemovalWasAsked | packages/core/src/authored-transfer.ts:209-345 | Over every run a record that is gone was verified with the report of its own source, or retired by its bound device, by a session that held it |
| TransferCauses.RecordWasAsked | packages/core/src/authored-transfer.ts:275-345 | Over every run what a record confirms and binds was reported within its horizon, what it admits was sent octet for octet from the source, and it was finalized before it says so |
| TransferCauses.StoreCallWasDemanded | packages/core/src/authored-transfer.ts:209-345 | Over every run no store call is made, by a waiting session or for one long gone, that no call met the demands of |
| TransferCauses.RevokedIsOver | packages/core/src/authored-transfer.ts:240-251 | A revoked session stays so, gets no receipt, sends nothing and begins nothing more, except that it can retire what it holds |
| TransferCompletion.ReceiptIff | packages/core/src/authored-transfer.ts:332-345 | Once both store calls act and are answered without a revocation, the session has its receipt, and its record is gone, if and only if the record was finalizing, the input fresh and the reported digest that of its source |
| TransferCompletion.ReportSucceeds | packages/core/src/authored-transfer.ts:278-297 | A report within the horizon by the bound device, answered, is what the record then has as confirmed and, when quiescent, where a resumed session continues |
| TransferCompletion.SendSucceeds | packages/core/src/authored-transfer.ts:301-321 | A carrier that is the next piece of the source is sent once its horizon has been stored, and the session moves on by its length |
| TransferCompletion.ResumesIff | packages/core/src/authored-transfer.ts:128-172 | A record is taken up again if and only if it is free, small enough, of the same source and identity and not finalized for good; then the session has the record as it is and must hear from the device before it sends |
| TransferCompletion.TransferDelivers | packages/core/src/authored-transfer.ts:125-345 | Whatever else the store holds: a transfer in carriers the device takes, with truthful reports and any number of crashes and resumptions between them, ends with every byte of the source sent with its own value, its record gone and its receipt |
| CaptureFormat.Lines | packages/core/src/capture.ts:786-801 | However the text is cut into chunks, the lines are those of the whole text |
| CaptureFormat.RetainedMeans | packages/core/src/capture.ts:1123-1128 | The retained ranges meet a new one exactly when some earlier attribution to the same delivery does |
| CaptureLoader.ValidateByteAttributions | packages/core/src/capture.ts:1096-1133 | Accepted exactly when every attribution lies inside its delivery and apart from all earlier ones, a lost delivery being excused only by a gap |
| CaptureLoader.ReadRecords | packages/core/src/capture.ts:1034-1058 | The record loop reads as the recursive definition says, with its counts those of the records read |
| CaptureLoader.LoadCapture | packages/core/src/capture.ts:1020-1094 | Loading depends on the text only and not on its chunks, and gives or refuses what the line by line reading of the format does; which files that are is `CaptureLines.LoadsIffCapture` and `CaptureCounts.LoadsIffGenuine` |
| CaptureWriter.Recorder.RecordThrough | packages/core/src/capture.ts:237-245 | A record through a reservation gives it back and is queued, or noted as lost when it is over its size |
| CaptureWriter.Recorder.RecordBytes | packages/core/src/capture.ts:283-320 | Small payloads go on the line, large ones to a side file, and one without room widens the pending gap by its bytes |
| CaptureWriter.Recorder.TakeQueued | packages/core/src/capture.ts:423-432 | The compacting queue gives its entries first in first out |
| CaptureWriter.Recorder.TakeLines | packages/core/src/capture.ts:437-446 | A batch is the longest run of adjacent lines that fits the free space, in order |
| CaptureWriter.Recorder.Drain | packages/core/src/capture.ts:434-498 | One turn takes a batch, a side file or, with the queue empty, the pending gap |
| CaptureWriter.Recorder.Written | packages/core/src/capture.ts:508-524 | A settled write adds exactly its text and counts its records; a failed one discards queue and gap |
| CaptureWriter.Recorder.Shut | packages/core/src/capture.ts:331-337 | A close with octets still reserved notes a gap for the tail it cannot vouch for |
| CaptureWriter.Recorder.WriteFooter | packages/core/src/capture.ts:339-370 | The footer with the running counters is appended, claiming completeness exactly without gap and failure; what the counters are is `CaptureCounts.FooterIsRight`. If it cannot be written the writer has failed |
| CaptureSafety.StepKept | packages/core/src/capture.ts:222-498 | Every step keeps: queued, in-flight, copied and reserved octets within the maximum; the file is exactly the header and the written records; and without a failure every observation is written, in flight, queued or in exactly one gap, in order |
| CaptureSafety.Run | packages/core/src/capture.ts:222-498 | The same over any sequence of observations, reservations, drains and settlements |
| CaptureSafety.ArrivalsAccounted | packages/core/src/capture.ts:222-337 | Over every run each observation that arrived through an open recorder or a handle still held, and the tail a close cannot vouch for, is in order written, in flight, queued or in the one pending gap; after a storage failure the file holds a beginning of them |
| CaptureSafety.ReservedRecordIsQueued | packages/core/src/capture.ts:230-246 | A record within its reservation is never dropped for capacity while no gap is pending |
| CaptureSafety.QueuedIff | packages/core/src/capture.ts:268-320 | An open recorder queues a line if and only if no gap is pending and the line fits beside everything queued, in flight, copied and reserved; otherwise it joins the gap |
| CaptureSafety.BatchIsLongest | packages/core/src/capture.ts:436-447 | A batch is the longest run of adjacent lines whose copy fits 65536 octets and the room left |
| CaptureCounts.FooterIsRight | packages/core/src/capture.ts:339-355 | For every run, whatever was lost or failed in it: the footer has the number of records, of gaps, of connections named, of octets delivered and of octets sent in the file before it, counted as sets, and says complete exactly without gap and failure |
| CaptureCounts.GapCountsLosses | packages/core/src/capture.ts:484-496 | Every gap in the file of any run has the stamp of the first observation it stands for, their number, and the sum of what each of them held, or had reserved if it did not fit |
| CaptureCounts.BatchIsCounted | packages/core/src/capture.ts:448-458 | While several lines are written together the octets of their copy are counted beside their own |
| CaptureCounts.TallyCounts | packages/core/src/capture.ts:500-506 | The running counters are the sizes of the sets of records, gaps, connections and octets in each direction |
| CaptureCounts.LoadsIffGenuine | packages/core/src/capture.ts:1020-1094 | A header, any records and any footer load if and only if records rise in stamp and time with their fields in order, every attribution takes octets of its own delivery that no earlier one took, and the footer has the numbers of the records and claims no more than they allow |
| CaptureCounts.ValidatedIsCreditable | packages/core/src/capture.ts:1096-1130 | The attribution check is, octet by octet, that each belongs to the delivery and to no earlier attribution, with an absent delivery excused by a gap |
| CaptureLines.LinesOfText | packages/core/src/capture.ts:786-801 | The lines of a text are what stands between its newlines, one carriage return before a newline being dropped, and what follows the last newline is a line cut off |
| CaptureLines.LoadsIffCapture | packages/core/src/capture.ts:1020-1094 | Any lines at all load if and only if they are a header, records and nothing, a footer or a line cut off, that agree with each other |
| CaptureRoundTrip.ClosedFileLoads | packages/core/src/capture.ts:331-358 | After any run that was flushed and closed the loader accepts the file and returns header, records in order and footer; it says complete exactly without gap and failure, and without a failure the records account for all observations in order |
| CaptureRoundTrip.ClosedFileLoadsIff | packages/core/src/capture.ts:1020-1094 | The closed file of any run loads if and only if its header names a capture, its records have their fields, increasing stamps and times in order, and its attributions pass the validator |
| CaptureRoundTrip.LostFooterLoads | packages/core/src/capture.ts:508-524 | If the footer could not be written the file loads as an incomplete capture of everything that was |
| CaptureRoundTrip.TruncatedFileLoads | packages/core/src/capture.ts:1034-1073 | Every strict prefix of the text that holds the header line loads, as incomplete, with the records that are whole |
| CaptureRoundTrip.CutFileLoads | packages/core/src/capture.ts:786-801 | Of the octet prefixes that hold the header line exactly those that end between two characters load, each as incomplete |
| CaptureRoundTrip.WrittenValidates | packages/core/src/capture.ts:1096-1133 | Whatever was dropped on the way, the attributions that reached the file pass the validator |
| CaptureLate.LateFileLoadsIff | packages/core/src/capture.ts:237-245 | After any further events on a closed recorder the file loads if and only if no line came after the footer, and then as it did before |
| CaptureLate.FlushedLateFileLoadsIff | packages/core/src/capture.ts:237-245 | Once flushed again without a storage failure, it loads if and only if no record was too large for the reservation it came through |
| CaptureLate.LateGapSpoilsFile | packages/core/src/capture.ts:237-244 | One such record, drained and written, makes the closed file unreadable |
| EventQueue.StripTwice | packages/core/src/events.ts:183-188 | Taking keys away one by one is taking them away together |
| EventQueue.StripLossless | packages/core/src/events.ts:192-207 | Taking keys away never touches a lossless event |
| EventQueue.StripFold | packages/core/src/events.ts:192-207 | Taking keys away changes the folded value of no other key |
| EventRuns.DeliveryRefines | packages/core/src/events.ts:172-246 | Over any sequence of publications and deliveries, until termination, delivered and queued events hold every lossless event in order, are ordered by publication, are parts of what was published, and fold to the same latest value of every operation and cell; pending lossless events stay within the limit and the queue within the limit plus the live keys |
| EventRuns.CaughtUp | packages/core/src/events.ts:215-246 | A subscriber that has drained its queue holds the latest value of everything published |
| EventRuns.TerminatedMeans | packages/core/src/events.ts:248-267 | A subscriber is terminated if and only if it was ended by name or some lossless event met a full queue |
| EventLatest.NothingMissing | packages/core/src/events.ts:172-267 | Until a subscriber is ended, each lossless event is received or waits unchanged, the last word on every operation and cell is there with its value and place, and what waits says nothing twice |
| EventDelivery.Subscriber.Enqueue | packages/core/src/events.ts:172-190 | The queue of shared, in-place trimmed events and the map of key owners are after an offer what the queue of the model is |
| EventDelivery.Subscriber.RemoveKey | packages/core/src/events.ts:192-207 | The owner of a key loses exactly it, and leaves the queue exactly when it has no other |
| EventDelivery.Subscriber.Take | packages/core/src/events.ts:215-226 | The head leaves with the keys it still owns, and a lossless one gives its place back |
| EventDelivery.Subscriber.Discard | packages/core/src/events.ts:262-267 | However a subscriber ends, its queue, its keys and its count are empty afterwards |
| ValidityGraph.Admit | packages/core/src/authored-admission.ts:388-396 | The walk accepts exactly the acyclic graphs, and an accepted one has ranks that decrease along every dependency |
| ValidityGraph.Walk.Visit | packages/core/src/authored-admission.ts:389-395 | A visit that succeeds finishes its cell after all its inputs and leaves the visiting set as it was; one that fails has met a cycle |
| ValidityGraph.RankedIsAcyclic | packages/core/src/authored-admission.ts:388-396 | Ranks that decrease along every dependency rule out every cycle |
| StateModel.Inherited | packages/core/src/authored-state.ts:13-17 | The inherited quality is one of those given and at least as severe as each |
| StateRuns.ValidMeans | packages/core/src/authored-state.ts:58-70 | A cell shows as valid if and only if every cell it rests on, through any path of inputs, is itself valid and was computed from the current revisions of its inputs |
| StateRuns.FieldsDetermine | packages/core/src/authored-state.ts:73-79 | Between any two states of a run the four compared fields determine the whole shown cell |
| StateRuns.StepKept | packages/core/src/authored-state.ts:84-172 | A publication, an expiry, an invalidation or the rollback of one whose publication threw keeps the replica equal to the snapshot |
| StateRuns.ReplicaIsSnapshot | packages/core/src/authored-state.ts:54-172 | Over all runs, applying each published change set to a replica always gives the snapshot |
| StateLedger.SnapshotFollowsLedger | packages/core/src/authored-state.ts:54-138 | Over every run what is shown of a cell follows from a ledger of the last word on each cell and its moment: a derived cell shows its value only if its word came after the last words on all it rests on, and the worst quality among them counts |
| StateLedger.PublicationIsShown | packages/core/src/authored-state.ts:84-121 | A derived cell published while its inputs are shown valid is shown valid with the published value, and stays so over every run that leaves alone what it rests on |
| StateLedger.MovedInputIsShown | packages/core/src/authored-state.ts:54-138 | From a new word on anything a derived cell rests on, however indirectly, the cell is shown unknown and without its value over every run until it is published again |
| AuthoredState.Cells.TakeSnapshot | packages/core/src/authored-state.ts:54-72 | The memoised walk terminates and equals the plain recursive definition |
| AuthoredState.Cells.Announce | packages/core/src/authored-state.ts:73-83 | Exactly the cells with a changed field are published, together, and nothing when there is none |
| AuthoredState.Cells.Update | packages/core/src/authored-state.ts:84-121 | An acceptable publication takes effect and is published, or is rolled back whole when the listener throws; it succeeds exactly under the stated conditions, arms exactly its own timer, and with a fresh stamp the listener's copy is the snapshot again. What is shown after it is `StateLedger.PublicationIsShown` |
| AuthoredState.Cells.Expire | packages/core/src/authored-state.ts:122-136 | A timer ages exactly the revision it was armed for, and the listener's copy is the snapshot again |
| AuthoredState.Cells.Invalidate | packages/core/src/authored-state.ts:152-178 | All cells turn unknown at the next revision, or all cells and bases are put back; either way the listener's copy is the snapshot again |
| AuthoredState.Cells.Close | packages/core/src/authored-state.ts:139-151 | Closing leaves the revisions, clears everything else and ends every timer |
| ZipRoundTrip.RoundTrip | packages/contracts/src/pdpkg.ts:258-391 | For every member list within the limits with valid, distinct, non-colliding names the reader locates in the written archive the same names and bytes in order |
| ZipRoundTrip.NeighboursDecide | packages/contracts/src/pdpkg.ts:767-782 | After sorting by start the test of neighbours is the disjointness of every pair of records |
| ZipRoundTrip.LocalReads | packages/contracts/src/pdpkg.ts:345-391 | A written local record, wherever it stands in an archive before the directory, is located with its own data |
| ZipRoundTrip.CentralReads | packages/contracts/src/pdpkg.ts:286-330 | A written central record is read back as its member and leads to the next record |
| ZipForeign.LocatesIffDescribed | packages/contracts/src/pdpkg.ts:258-422 | Octets are accepted, with given names, fields and payloads, if and only if an archive described record by record from the outside fits them: local and central records of stored or deflated members with extra fields and comments, an end record with a comment, names distinct and well formed, records apart |
| ZipForeign.NameFineIff | packages/contracts/src/pdpkg.ts:404-422 | The name check is the description of a relative path without dot segments, backslashes or controls |
| ZipForeign.WrittenIsDescribed | packages/contracts/src/pdpkg.ts:784-833 | What the writer makes is such an archive |
| ZipForeign.WriterIsPlain | packages/contracts/src/pdpkg.ts:795-818 | The fields no reader looks at are version 2.0 and zeros |
| ZipArchive.EncodeStoredZip | packages/contracts/src/pdpkg.ts:784-833 | The buffers filled field by field are the archive of the format: local records, central directory with the offsets of the local records, end record |
| ZipArchive.FindEndRecord | packages/contracts/src/pdpkg.ts:750-758 | The backward search finds the last end record that accounts for the rest of the file, within the longest comment |
| ZipArchive.LocateArchive | packages/contracts/src/pdpkg.ts:258-343 | The reader with its cursor and loops refuses and accepts as the reading of the format does, in the same order of reasons; which archives that are, whoever made them, is `ZipForeign.LocatesIffDescribed` |
| ZipArchive.ValidateNonOverlapping | packages/contracts/src/pdpkg.ts:767-782 | The neighbour loop decides the sorted records |
| ZipArchive.ValidateDistinctNames | packages/contracts/src/pdpkg.ts:393-402 | The growing set of seen names reports the first repetition or case collision |
| ZipChecksum.TableStep | packages/contracts/src/pdpkg.ts:917-929 | One table lookup is eight steps of the bitwise division |
| ZipChecksum.Crc32 | packages/contracts/src/pdpkg.ts:917-929 | The table form computes the bitwise CRC-32 of the whole input |
| ZipChecksum.CheckValue | packages/contracts/src/pdpkg.ts:917-929 | The checksum of the letter a is the published e8b7be43 |
| LuaSourceSet.CompareBytes | packages/contracts/src/lua-source-set.ts:210-217 | The sign decides the lexicographic order of octets, and zero means equal |
| LuaSourceSet.LessTotal | packages/contracts/src/lua-source-set.ts:210-217 | The order of names is total and equates only equal names |
| LuaSourceSet.Prepare | packages/contracts/src/lua-source-set.ts:130-161 | Distinct names are accepted and sorted; a repeated one is refused |
| LuaSourceSet.FrameIdentity | packages/contracts/src/lua-source-set.ts:163-192 | The buffer filled by offset is exactly the framing, with every octet accounted for |
| LuaSourceSet.FramesEqual | packages/contracts/src/lua-source-set.ts:163-192 | The framing is injective on lists of members |
| LuaSourceSet.IdentityIsTheMap | packages/contracts/src/lua-source-set.ts:130-192 | Two lists of distinct-named members frame to the same bytes if and only if they are the same map from names to bytes |
| LuaSourceLayout.FrameHead | packages/contracts/src/lua-source-set.ts:170-180 | The frame begins with its name, a zero, version 1 and the number of members, big-endian, and its length is the sum of its parts |
| LuaSourceLayout.FrameLayout | packages/contracts/src/lua-source-set.ts:181-190 | Name and source of each member stand at their places, each after its length, big-endian |
| LuaSourceSet.LessMeans | packages/contracts/src/lua-source-set.ts:210-217 | A name precedes another that it begins, or that has the larger octet where they first differ |
| PollSchedule.AdmittedIsServed | packages/core/src/authored-poll.ts:58-66 | If the admission test accepts the plans, the bucket refuses no attempt of any schedule in which each plan keeps its interval |
| PollSchedule.WindowBound | packages/core/src/authored-poll.ts:228-238 | In any window of width T at most burst + floor(T/period) + 1 permits are spent, whoever asks and however often |
| PollSchedule.AttemptsFit | packages/core/src/authored-poll.ts:58-66 | A population within the rate makes at most one attempt a plan plus one a refill period in any window |
| PollSchedule.RequiredCovers | packages/core/src/authored-poll.ts:36-57 | The policy derived for short intervals is granted if and only if the plans fit the ordinary plan and burst limits, and then its refills cover the population's rate |
| PollGrants.GrantedExactly | packages/core/src/authored-poll.ts:58-66 | Plans are admitted if and only if policy, population, each interval and the total of the rates are within their limits |
| PollGrants.RequiredExactly | packages/core/src/authored-poll.ts:36-57 | Short intervals are granted if and only if each is below its gap, none below the granted minimum, and the total rate and the population are within their limits |
| PollTurns.DueAfterTerminal | packages/core/src/authored-poll.ts:271-275 | A completed poll is next due exactly one interval after its result, a failed one exactly one back-off, whatever its due time was |
| PollTurns.PutOffBound | packages/core/src/authored-poll.ts:175-289 | No turn, result, retirement, takeover, pause or resumption puts a plan off beyond one interval from now or where it was, except a failed result, which puts it off to one back-off |
| PollTurns.StartsAgain | packages/core/src/authored-poll.ts:239-289 | Over every run: after a poll that ended and retired, the next one starts at the plan's first turn one interval, or back-off, after the result, and at none before, as long as the service is not interrupted and no turn is refused |
| PollTurns.PauseStops | packages/core/src/authored-poll.ts:190-195 | Over every run nothing starts before the first resumption or between a pause and the next one |
| PollTurns.LateResult | packages/core/src/authored-poll.ts:271-275 | The result of a poll that follows the activity moves its due time exactly if the connection it began on, or was taken over by, is still the service's |
| AuthoredPoll.PollService.TakePermit | packages/core/src/authored-poll.ts:228-238 | The lazy refill and debit are those of the bucket |
| AuthoredPoll.PollService.Due | packages/core/src/authored-poll.ts:239-270 | A poll that is due starts with one permit and is never refused for want of one, through failures, resumptions and new generations |
| AuthoredPoll.PollService.Terminal | packages/core/src/authored-poll.ts:271-280 | The service makes exactly the step of a terminal result: an ordinary plan is next due one interval, or after a failure one back-off, from now to the microsecond; the plan stays active until its native work has settled |
| AuthoredPoll.PollService.Resume | packages/core/src/authored-poll.ts:175-189 | The service makes exactly the step of a resumption, in which every plan is due one interval from now or when it already was, whichever is later |
| Sha256.PaddingIsStandard | packages/core/src/streaming-sha256.ts:43-57 | The number of zero octets is the least that section 5.1.1 of FIPS 180-4 allows |
| Sha256.ExtendIsStandard | packages/core/src/streaming-sha256.ts:65-71 | The schedule word, summed in the source's order, is that of section 6.2.2 of FIPS 180-4 |
| Sha256Constants.ConstantsAreCubeRoots | packages/core/src/streaming-sha256.ts:3-12 | The 64 round constants are the first 32 bits of the fractions of the cube roots of the first 64 primes |
| Sha256Constants.InitialIsSquareRoots | packages/core/src/streaming-sha256.ts:28 | The initial hash value is of the square roots of the first eight |
| Sha256Constants.ChoiceMeans | packages/core/src/streaming-sha256.ts:75 | The choice takes each bit from the second word where the first has a one and from the third where it has a zero |
| Sha256Constants.MajorityMeans | packages/core/src/streaming-sha256.ts:78 | Where two of three words agree the majority agrees with them |
| Sha256Constants.LengthBlockMeans | packages/core/src/streaming-sha256.ts:46-54 | The last eight octets of a padded message are its length in bits, big-endian |
| Sha256Constants.HexWordMeans | packages/core/src/streaming-sha256.ts:56 | The eight digits of a word have its value, the most significant first |
| Sha256.HashAppend | packages/core/src/streaming-sha256.ts:34-41 | Hashing whole blocks and then the rest is hashing all of it |
| StreamingSha256.Hasher.CompressBlock | packages/core/src/streaming-sha256.ts:59-90 | Compression in place is the standard's, at exactly 128 charges |
| StreamingSha256.Hasher.Update | packages/core/src/streaming-sha256.ts:34-41 | The block buffer after any update stands for the message so far, with the exact charges; after the digest the call is refused |
| StreamingSha256.Hasher.DigestHex | packages/core/src/streaming-sha256.ts:43-57 | The in-place padding, in one block or two, gives the one-shot digest of the message |
| StreamingSha256.Hasher.Clone | packages/core/src/streaming-sha256.ts:21-27 | A copy holds the same message and shares no buffer |
| StreamingSha256.Hasher.HexSoFar | packages/core/src/streaming-sha256.ts:28 | The digest so far leaves the hasher as it was |
| StreamingSha256.HashChunks | packages/core/src/streaming-sha256.ts:21-57 | Every way of cutting a message into updates gives the one-shot digest, and the charges are an exact function of its length |
| StreamingSha256.HashFips | packages/core/src/streaming-sha256.ts:1-57 | With the initial value, constants and word operations of FIPS 180-4, every cutting of every message gives its digest, for the same charges |
| ExactText.GreatestCommonDivisor | packages/control-model/src/exact-decimal.ts:45-52 | The loop ends with the greatest common divisor |
| ExactText.DivideExactDecimal | packages/control-model/src/exact-decimal.ts:21-43 | The loops end, and print or refuse as the division of the model does |
| ExactText.DivisionIsExact | packages/control-model/src/exact-decimal.ts:6-63 | It prints if and only if the quotient has a finite decimal expansion, and then the text parses back to exactly the quotient |
| ExactText.FormatParses | packages/control-model/src/exact-decimal.ts:6-63 | Every formatted number has no redundant trailing zero and parses back to its value |
| ExactDivision.PrintsExactly | packages/control-model/src/exact-decimal.ts:21-43 | A reduced denominator of twos and fives only is the same as a finite expansion, and the printed number is the quotient |
| ExactReading.ParsesIffSpelled | packages/control-model/src/exact-decimal.ts:6-20 | A text parses if and only if it is spelled of a sign, digits, a fraction and an exponent up to a thousand, and then to the number these parts denote |
| HumanUnits.UnitsConvert | packages/control-model/src/index.ts:117-155 | The divisor of each unit is what one of the shown unit is worth in it; hertz and bytes take the largest prefix, decimal or binary, that the magnitude reaches |
| HumanUnits.ListedScalesPrint | packages/control-model/src/index.ts:85-146 | For every listed unit and every value the division prints |
| HumanUnits.HumanMeans | packages/control-model/src/index.ts:84-94 | What is shown of a decimal is a tidy number and the shown unit, and the number times what the unit is worth is the value |

## Left out

- Input: byte-range lists (`InputCustodyRanges`, `InputWorkRanges`), the bounded ingress queue beyond its stamps and bindings, `bind` and funding by another account, and the native, deferred and publication holds beyond a count. A `ready` callback that calls back into the index is not modelled: being told is a count on the watch.
- InputWork.InputWorkAccount.Terminal: how many steps of its own an account takes is up to its owner, which the source does not bound either; the index's promises are about accounts whose own steps leave its units alone.
- InputRetirement.InputRetirementIndex.Register: storage grants are a `storage` parameter, as in every other operation that reserves bytes.
- Transfer: streamed sources, segments and progress events. A digest stands for the bytes it was taken of, so collisions are not modelled, and random identifiers never repeat. The target digest is only carried through by the source and is left out.
- Transfer: a claim that the store grants to an opening whose caller has given it up stays held in the store; the model notes no holder for it, which allows more runs. The holder of a record that a late retirement removed stays noted until its session ends; that record can never be claimed again.
- RetirementCut.VerdictIsPermanent: the release or termination of a bound channel is left out, because it closes the service for good; a refused step is a step that does not happen.
- Transfer: the file-system store of `apps/cli/src/transfer-checkpoints.ts` and its takeover from dead owners.
- TransferCoverage.HorizonWasSent: for runs in which no stale session opens again, the exact condition of `RunHarmlessIff`.
- Capture: a header that cannot be written, after which there is no recorder; the loss observer, `abort`, the broker sink and the destination recorder. Record and header texts go through an abstract injective encoding that yields no newline and decodes to what was encoded; base64 and JSON are part of it. Kinds of record that the loader only checks for their fields are one kind, `Note`.
- Capture: the drain's synchronous segment is a step of its own that may come at any time once it is due, which covers the moment the source runs it.
- CaptureRoundTrip.TruncatedFileLoads: about cuts between characters; `CutFileLoads` has the others.
- Events: the replay buffer, the loop over subscribers, listener errors and the scheduling of microtasks. Each subscriber is on its own and delivery may come at any time.
- State: conversion of values to declared types, reserve callbacks, the queue and real timers. An expiry whose publication threw is put back and does not age again, as in the source, whose timer is gone by then.
- Package: DEFLATE, expansion and its limits, manifests and bootstrap. Validity of UTF-8 names and case folding are abstract functions of the name; the sorts are the insertion sorts of the model, which agree with any stable sort.
- ZipArchive.LocateArchive: which reason is given for octets that are refused is stated by the reading of the format only; `ZipForeign` says which octets are accepted.
- LuaSourceSet.Prepare: UTF-8 validity of names and sources and the refusal of counts beyond 32 bits are left out; the framing lemmas require lengths below 2^32.
- Poll: floating-point rates are exact rationals and times whole microseconds. Foreground work, idle release, modes and observations are left out; a timer is any moment at which a plan's turn comes. That a start is retired only after its terminal result is the host's contract. A start that throws after it took its permit is not modelled; the source then counts the next turn from the reading of the clock before the debit.
- PollTurns.StartsAgain: about plans that do not follow the activity; when a plan that does may start is up to the host's foreground work, and of it `DueAfterRetired` and `LateResult` say when it is due.
- PollSchedule.AdmittedIsServed: with floating-point sums the admission test may differ on populations exactly at the limit.
- Sha256: the order of the words in a round and in the schedule is that of the formulas of section 6.2.2 of FIPS 180-4; no other property of them is stated.
- StreamingSha256.Hasher.Update: a charge that is refused in the middle of a call is not modelled. The word operations are a parameter; `HashFips` is the instance of the standard.
- ExactText.DivisionIsExact: the divisor is positive, as every listed scale is; the loop of the source would not end for zero.
- Exact decimals: `Number` on the exponent is modelled as reading an integer, refused beyond 1000.
- Not modelled at all: the retained mailbox, bounded fill, the expiry ledger, streaming results, the retained session, resources, the Lua VM, transports and the user interface.
