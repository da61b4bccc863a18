# AMPVE protocols and algorithms, verified

This project models the parts of the AMPVE firmware, dashboard and browser tools whose correctness spans several
functions, and proves what they promise. `dafny verify dfyconfig.toml` checks everything.

**Firmware updates, both ends together** (`Deployment`, `OtaModel`, `OtaDevice`, `OtaRun`). The dashboard keeps one
device's deployment rows; the device keeps a durable journal and drives an A/B boot selector; numbered reports travel
between them over a network that loses requests and replies. `Deployment.DeploymentService` is the dashboard,
`OtaDevice.OtaClient` and `OtaDevice.NativePort` are the device, and `OtaModel.JointSound` relates the rows, the
journal, the device's sequence floor and the two boot slots at every moment. The port records every global state it
passes through in `history`: one entry for each durable write, flash write, boot selection and server-side step. It also
records every reply to a report or status query and every look at something that may go wrong, so that contracts can say
what each of them leads to. `OtaRun.Live` takes any schedule of ticks, boot confirmations, restarts, actions of owner,
operator and clock, and power failures at any recorded entry of a tick, and proves that the device's whole history is
made of atomic steps between states that satisfy `JointSound`. Reports lost on either way, cancellations, expiries,
withdrawn releases, failed and doubtful storage commits, and requests of the owner between any two messages are all part
of such a run. A port may also be *calm*: nothing fails, nobody else acts and no time passes. For a calm port each
method also promises progress. Calm or not, no tick of a running client leaves an update lying: it ends with a report to
be answered, an outcome to be filed, or an update that the next tick reports as cut short; and whatever a tick gives an
update up for is what it reports, with the reason and the bytes of that failure. A device in any state of any run, once
nothing fails any more and its requests are let in, empties its journal within a restart and three ticks, or ends in one
stuck state, and which of the two is decided by an exact condition on the state before (`OtaRun.Settle`). An owner's
request for an eligible release ends with that release running, kept, and on record at both ends
(`OtaRun.RequestAndUpdate`); if the release never confirms its boot, the previous image ends up running and on record
(`OtaRun.FallBack`).

**Installing and returning to the original software** (`BootSelection`, `FlashRecovery`). The 32 MiB flash is a byte
sequence, a write may be cut off at any byte, and the content hash is injective.

**Single algorithms**: the SLIP receiver (`SerialTransport`), the canonicaliser's UTF-8 pass (`CanonicalJson`), the
timestamp reader (`PolicyExpiry`), the two partition-table readers (`PartitionTable`), the Companion's microphone path
(`CompanionUplink`), the console dispatcher (`ConsoleDispatch`) and the fixed-window limiter (`RateLimit`).

What is abstracted: hashes are opaque values, or an injective function where bytes are hashed; signature and trust checks
are facts about a release that may change at any time; JSON documents are records; a dashboard request is one atomic step,
because it runs under the device row lock inside one transaction (apps/platform/workspace/deployment_views.py:37-56); the
clock is a parameter that never runs backwards. Standing assumptions of the update theorems: the board is not reflashed
over USB during an update, and a slot that was once marked valid keeps booting.

Where the code does something other than its surroundings suggest, the model follows the code:

- A timestamp of the epoch itself reads as 0, which is also what a refused timestamp reads as
  (`PolicyExpiry.ZeroIsTheEpoch`); every caller compares with a present-day clock, so both are refused.
- The platform looks at no more than ten releases when it first confirms an image, so a valid one can be missed
  (`Deployment.NewestInstalls` says exactly when).
- The limiter's fixed window admits up to `2 * limit - 1` calls in an interval as long as its window, not `limit`
  (`RateLimit.AllowedInWindow`), and that number is reached (`RateLimit.WorstCase`).
- An update can come to an end that nothing resolves. A restarted client that finds an acknowledged reboot without a
  recorded selection, and the target's slot marked as abandoned, stops for good: it can claim neither a rollback, because
  no selection is on record, nor a failure, because the slot looks tried. Restarts do not help, and the server can neither
  expire nor cancel a rebooting job (`OtaRun.StuckStays`). Three routes lead there in whole runs. Power fails after the
  selection and before the record of it, and the target is found unfit or its trial is cut short: every update on every
  device can end so (`OtaRun.CutShort`). The slot still carries the mark of an earlier abandoned image and power fails
  between the acknowledged reboot and the selection (`OtaRun.CutEarlier`). Or, with such a slot, power fails while the
  rebooting report is still unanswered and the server has taken it or then takes it (`OtaModel.StuckWhenUnanswered`).
  `OtaRun.Settle` states the condition for every state of every run, and that every other update comes to its end. A
  rebooting report that arrives after its call has timed out leads there too (`OtaModel.OvertakenIsResolved`).
- The two stops of a tick for a journal that fails its own check or names another running image, and the two give-up
  returns after a refused report, cannot be reached; the model keeps the conditions and proves the branches dead.

## Model

| member | source | states |
|---|---|---|
| Deployment.AdvanceKeepsJobSound | apps/platform/workspace/deployment_services.py:267-290 | an accepted report keeps the job equal to the fold of its gap-free event log and strictly uses up a finite allowance of reports (state rank, then remaining 64 KiB steps) |
| Deployment.ReportsBounded | apps/platform/workspace/deployment_services.py:254-290 | no client can make a job accept more than 67 reports, so the bound of 128 in the report format never bites |
| Deployment.ChunksStep | apps/platform/workspace/deployment_services.py:272-273 | a download report of at least 64 KiB, or the final one, strictly reduces the number of steps left |
| Deployment.ConformingReports | apps/platform/workspace/deployment_services.py:267-287 | the protocol rule by rule: number one higher, legal successor state, bytes never falling and 64 KiB apart or final, full size from verifying on, the image that runs, a reason exactly for a failure, and only four reasons after a reboot |
| Deployment.Verdicts | apps/platform/workspace/deployment_services.py:254-297 | which verdict each report gets, as an exact condition on the rows for each of the five; a repeated download or reboot report is confirmed only while its authorization still holds |
| Deployment.NewJobIsNew | apps/platform/workspace/deployment_services.py:196-202 | a new job expires with the signed policy or seven days from now, whichever comes first, and starts queued, empty and with one event |
| Deployment.ConfirmationNeverDecreases | apps/platform/workspace/deployment_services.py:291-294 | a conforming confirmation always passes the "sequence cannot decrease" guard: that error branch is dead |
| Deployment.ReportKeepsSound | apps/platform/workspace/deployment_services.py:254-297 | every report, accepted or refused, keeps the rows sound (at most one active job, upgrades start from the recorded image and end above it, logs replay) and never lowers the confirmed sequence; an accepted confirmation raises it |
| Deployment.ExpireKeepsJobSound | apps/platform/workspace/deployment_services.py:169-172 | the server's cancellation of a lapsed approval takes the next free event number and keeps the log the job's history |
| Deployment.ExpireKeepsSound | apps/platform/workspace/deployment_services.py:160-172 | closing a lapsed approval keeps every row invariant |
| Deployment.SettledIsOneExpiry | apps/platform/workspace/deployment_services.py:186-190 | because at most one job is active, closing the one the query finds closes every lapsed approval |
| Deployment.CancelKeepsSound | apps/platform/workspace/deployment_services.py:205-215 | the owner's cancellation of an unclaimed job, logged as event 1, keeps every row invariant |
| Deployment.RequestKeepsSound | apps/platform/workspace/deployment_services.py:194-202 | a new job from an eligible release starts from the recorded image, ends above the confirmed sequence, and is the only active one |
| Deployment.CheckReport | apps/platform/workspace/deployment_services.py:267-282 | the chain of checks in source order accepts exactly the protocol's edges, stated as a table with bytes, running image and reason of each edge |
| Deployment.DeploymentService.ReportUpdate | apps/platform/workspace/deployment_services.py:254-297 | the verdict and the whole new state, written out over the rows, with a refused confirmation rolled back; a download or reboot report is taken, the first time or again, only while the release is available and compatible and the approval has not expired |
| Deployment.DeploymentService.ExpireQueued | apps/platform/workspace/deployment_services.py:160-172 | cancels exactly a queued job whose approval lapsed, whose owner is not permitted or whose release no longer verifies; everything else is unchanged |
| Deployment.DeploymentService.RequestUpdate | apps/platform/workspace/deployment_services.py:175-202 | a repeated key finds its own job; otherwise a job is queued if and only if the device may be updated, nothing else is pending once lapsed approvals are closed, and the release is an upgrade from the confirmed image; the approval outlives neither the signed policy nor seven days; a refusal changes nothing |
| Deployment.DeploymentService.ExpireActive | apps/platform/workspace/deployment_services.py:186-190 | row by row, exactly the queued jobs whose approval lapsed are cancelled, and the answer says whether a job is still active |
| Deployment.DeploymentService.CancelUpdate | apps/platform/workspace/deployment_services.py:205-215 | succeeds exactly for a job the device has not claimed (or one already cancelled) and changes only that job |
| Deployment.DeploymentService.PollUpdate | apps/platform/workspace/deployment_services.py:224-246 | refused exactly when the polling image is neither recorded nor the target of a rebooting job; the envelope is handed out exactly for a running, authorized job |
| Deployment.DeploymentService.ConfirmInitial | apps/platform/workspace/deployment_services.py:57-75 | records the first listed release that is verified, of exactly this image and of the reported version, exactly when the device is compatible and there is one; never replaces a recorded one |
| Deployment.NewestInstalls | apps/platform/workspace/deployment_services.py:66-75 | of all releases that install the image the recorded one has the greatest sequence; none is found although one exists only when ten others at least as new are listed and none of them installs it |
| Deployment.DeploymentService.ReconcileLocalRecovery | apps/platform/workspace/deployment_services.py:107-142 | corrects the record if and only if no update is active, a fresh observation shows exactly the signed image, and the sequence goes up (or it is recorded already); rows stay sound |
| OtaModel.CheckedJournals | firmware/xiaozhi/overlay/main/ampve/ota_client.cc:56-76 | what the check of a stored journal lets through, field by field, the pending report included |
| OtaModel.JournalAlwaysValid | firmware/xiaozhi/overlay/main/ampve/ota_client.cc:56-76 | the stored journal passes its own check in every reachable state and never holds a report beyond number 20 |
| OtaModel.RecordedImageIsTrue | apps/platform/workspace/deployment_services.py:291-296 | the dashboard's image record equals the running image, except while a rebooting job's release already runs |
| OtaModel.IdleRecordIsExact | apps/platform/workspace/deployment_services.py:57-62 | with no active job the record is the running image |
| OtaModel.PendingReportIsAcceptable | apps/platform/workspace/deployment_services.py:261-287 | every report the device has pending is taken, was taken, or is refused only for lost authorization or a job cancelled before it was claimed |
| OtaModel.PowerOnKeeps | firmware/xiaozhi/overlay/main/ampve/runtime.cc:652-660 | a power loss at any moment, with the bootloader trying, keeping or abandoning the target, keeps the joint invariant |
| OtaModel.ConfirmBootKeeps | firmware/xiaozhi/overlay/main/ampve/runtime.cc:652-654 | marking the running image valid keeps the joint invariant |
| OtaModel.OutsideKeeps | apps/platform/workspace/deployment_services.py:107-215 | requests, cancellations, expiry, recovery and withdrawal between two messages keep the joint invariant |
| OtaModel.ReportingKeeps | apps/platform/workspace/deployment_services.py:254-297 | the pending report reaching the server, whatever the verdict, keeps the joint invariant |
| OtaModel.BuildingKeeps | firmware/xiaozhi/overlay/main/ampve/ota_client.cc:111-122 | writing down a report that follows an edge from the agreed state, and that the board bears out, keeps the joint invariant |
| OtaModel.AdoptingKeeps | firmware/xiaozhi/overlay/main/ampve/ota_client.cc:91-104 | after a refused report the server's job is at the journal's number or one behind and still running; adopting it restores agreement with nothing pending |
| OtaModel.LateReportIsResolved | firmware/xiaozhi/overlay/main/ampve/ota_client.cc:91-104 | when the server takes an earlier report whose call had timed out, after the device wrote down another one with the same number, the two disagree, the device's report is refused without effect, and adopting the answered state brings them together again; the two give-up returns stay unreachable |
| OtaModel.LateReportIsMet | firmware/xiaozhi/overlay/main/ampve/ota_client.cc:85-104 | the same disagreement begins when the late report is taken before the device writes down its next one |
| OtaModel.OvertakenIsResolved | firmware/xiaozhi/overlay/main/ampve/ota_client.cc:85-104 | in any state of such a disagreement the pending report is refused without effect and adopting the answer restores the joint invariant; the adopted state is the stuck one exactly for a rebooting report and an abandoned slot |
| OtaModel.LateRunIsResolved | firmware/xiaozhi/overlay/main/ampve/ota_client.cc:85-104 | this holds through any number of restarts, outside actions, flash writes and repeated requests between the late report and the adoption |
| OtaModel.LateReportOtherwise | apps/platform/workspace/deployment_services.py:261-290 | a late report of an older number, or for a job that has ended, changes nothing |
| OtaModel.ClearingCancelledKeeps | firmware/xiaozhi/overlay/main/ampve/ota_client.cc:99 | dropping the journal of a cancelled job keeps the joint invariant |
| OtaModel.ClaimingKeeps | firmware/xiaozhi/overlay/main/ampve/ota_client.cc:161-169 | the journal for an offered job may be written even if the job is cancelled at that moment |
| OtaModel.AnsweredKeeps | firmware/xiaozhi/overlay/main/ampve/ota_client.cc:105-109 | an acknowledged report leaves both sides in agreement |
| OtaModel.AdvancingKeeps | firmware/xiaozhi/overlay/main/ampve/ota_client.cc:186-187 | raising the device's own sequence before the journal is dropped is safe to repeat after a crash |
| OtaModel.FinishingKeeps | firmware/xiaozhi/overlay/main/ampve/ota_client.cc:185-188 | dropping an acknowledged outcome keeps the joint invariant |
| OtaModel.WritingKeeps | firmware/xiaozhi/overlay/main/ampve/ota_platform.cc:124-131 | any content written to the journal's slot while the previous image is selected keeps the joint invariant |
| OtaModel.SelectingKeeps | firmware/xiaozhi/overlay/main/ampve/ota_platform.cc:151-164 | selecting the verified target in an acknowledged reboot keeps the joint invariant |
| OtaModel.CommittingKeeps | firmware/xiaozhi/overlay/main/ampve/ota_client.cc:227-233 | the durable evidence of a selection is written only over a real selection |
| OtaModel.RebootOutcome | firmware/xiaozhi/overlay/main/ampve/ota_client.cc:189-204 | in a rebooting journal, the target running means it is confirmed and kept; the previous image selected again after a recorded selection means the target was tried and abandoned |
| OtaModel.UnlessStuck | firmware/xiaozhi/overlay/main/ampve/ota_client.cc:189-204 | once the board has settled, a rebooting journal shows the target running, or the previous image with a slot that decides the report, or the stuck state; the stuck state is exactly an abandoned slot without a recorded selection |
| OtaModel.StuckIsSound | firmware/xiaozhi/overlay/main/ampve/ota_client.cc:189-204 | the stuck state is consistent with everything else: an acknowledged reboot with nothing selected, in a slot that an earlier update left abandoned, satisfies the joint invariant |
| OtaModel.StuckWhenUnanswered | firmware/xiaozhi/overlay/main/ampve/ota_client.cc:85-110 | an unanswered rebooting report leads to the stuck state if and only if the slot is abandoned and the server has taken the report or the job is still authorized |
| OtaModel.AnswerDecides | firmware/xiaozhi/overlay/main/ampve/ota_client.cc:85-110 | whether an update is headed for the stuck state is not changed by its pending report being taken, nor by its being refused and the server's answer adopted |
| OtaModel.RunningIsKnown | firmware/xiaozhi/overlay/main/ampve/ota_client.cc:180-181 | the running image is always one of the two the journal names, so the stop for a differing image is dead |
| OtaModel.OnlyReportsEnd | apps/platform/workspace/deployment_services.py:288-289 | no step of a run other than the server accepting the device's own pending report can end a job as confirmed, rolled back or failed |
| OtaModel.OutcomesAreTrue | firmware/xiaozhi/overlay/main/ampve/ota_client.cc:184-204 | a job becomes confirmed only while its image runs from a slot marked valid, rolled back only after a durably recorded selection that the bootloader abandoned, failed only while the previous image runs and is selected |
| OtaModel.RunIsForward | apps/platform/workspace/deployment_services.py:291-296 | over a whole run confirmed sequences never decrease on the server or the device, and a finished job's record never changes |
| OtaModel.RunKeepsJob | apps/platform/workspace/deployment_services.py:198-200 | over a whole run a job keeps the release and the starting image that were approved |
| OtaModel.StandingIsTaken | apps/platform/workspace/deployment_services.py:261-287 | an authorized job's pending report is always accepted or recognized as a repeat |
| OtaModel.FirstReports | firmware/xiaozhi/overlay/main/ampve/ota_client.cc:184-206 | the report a tick owes when nothing is pending, field by field: none for a finished outcome; after a reboot the running image, the recorded selection and the slot's mark decide state and reason; a cut-short update fails at its acknowledged bytes; a queued one is claimed at zero bytes |
| OtaModel.JournalJobIsOffered | apps/platform/workspace/deployment_services.py:224-246 | the journal's own job is what a poll from the previous image is offered |
| OtaDevice.Act | apps/platform/workspace/deployment_services.py:107-215 | one action of owner, operator or clock leaves exactly the rows it should, and nothing the device relies on |
| OtaDevice.NativePort.PostReport | firmware/xiaozhi/overlay/main/ampve/ota_platform.cc:88-98 | a reply of 200 means the server's last report is this one; 409 means cancelled or lost authorization; the report is looked at only when the device was let in during this very call, and otherwise changes nothing; a lost request or reply says nothing; in a calm run the reply is 200 exactly when the report is taken, and a refusal changes nothing |
| OtaDevice.NativePort.PostStatus | apps/platform/workspace/deployment_views.py:86-94 | the answered job is the row as it stood, with a lapsed approval closed, at some moment of this call at which the device was let in, and it agrees with the journal |
| OtaDevice.NativePort.PostPoll | apps/platform/workspace/deployment_views.py:76-78 | a queued job that is offered starts from the polling image; an envelope means that during this very call the server held the job active and authorized; in a calm run the one authorized job is offered with its envelope |
| OtaDevice.NativePort.Vet | firmware/xiaozhi/overlay/main/ampve/ota_policy.cc:155-217 | a policy is accepted exactly when its signature is trusted and it fits the running image, the sequence floor and the device's clock, all at this moment |
| OtaDevice.NativePort.Save | firmware/xiaozhi/overlay/main/ampve/ota_platform.cc:83 | a reported success is durable; a reported failure may or may not be |
| OtaDevice.NativePort.AdvanceSequence | firmware/xiaozhi/overlay/main/ampve/ota_platform.cc:84-87 | never lowers the stored sequence; its guard is never the reason for a failure |
| OtaDevice.NativePort.VerifyTarget | firmware/xiaozhi/overlay/main/ampve/ota_platform.cc:146-150 | success means the inactive slot's content is the approved image |
| OtaDevice.NativePort.Select | firmware/xiaozhi/overlay/main/ampve/ota_platform.cc:151-164 | called only with a durable, acknowledged reboot, an approval that the server held during the last recheck, and the slot's content verified; the selection changes only before the approval's expiry and when it was not cancelled at the device; reports switched, kept (with a reason) or uncertain truthfully |
| OtaDevice.NativePort.SelectNow | firmware/xiaozhi/overlay/main/ampve/ota_platform.cc:151-164 | what is done and reported in each case: expired, cancelled at the device, changed, refused by the driver, or claimed without effect |
| OtaDevice.NativePort.Recover | firmware/xiaozhi/overlay/main/ampve/ota_platform.cc:166-174 | an outcome other than unknown means the previous image runs and is selected, and says whether the target was abandoned |
| OtaDevice.NativePort.OpenSlot | firmware/xiaozhi/overlay/main/ampve/ota_platform.cc:104-122 | the slot is erased only for a complete reply with an image for this board; each way to fail has its own reason |
| OtaDevice.NativePort.Piece | firmware/xiaozhi/overlay/main/ampve/ota_platform.cc:125-130 | one piece is received and written; cancellation, lateness, a short, oversized or unwritable piece each have their own reason |
| OtaDevice.NativePort.Stream | firmware/xiaozhi/overlay/main/ampve/ota_platform.cc:124-131 | one more piece is written to the journal's slot only, its progress reported if due; a failure has the reason of what went wrong with that piece |
| OtaDevice.NativePort.CloseSlot | firmware/xiaozhi/overlay/main/ampve/ota_platform.cc:132-137 | the whole image counts only if its digest is the approved one, nothing follows it and it is well formed; each failure has its own reason |
| OtaDevice.NativePort.Download | firmware/xiaozhi/overlay/main/ampve/ota_platform.cc:103-144 | success means that every look at what may go wrong found nothing, and full-size progress was reported and acknowledged, which is what lets the next report conform; every failure has the reason of what went wrong; a calm download leaves the approved image in the slot |
| OtaDevice.OtaClient.Persist | firmware/xiaozhi/overlay/main/ampve/ota_client.cc:81-84 | a failed commit stops the client for good; a successful one is the very next recorded state |
| OtaDevice.OtaClient.Flush | firmware/xiaozhi/overlay/main/ampve/ota_client.cc:85-110 | which replies are met and what each one leads to: 200 clears the report, 409 is always followed by one status query, an answered query leaves the journal as the server showed the job or drops a cancelled one, and every other reply leaves everything as it was; with a working connection nothing is pending afterwards |
| OtaDevice.OtaClient.Acknowledge | firmware/xiaozhi/overlay/main/ampve/ota_client.cc:105-109 | an acknowledged report is no longer pending, and that is durable or the client stops |
| OtaDevice.OtaClient.Query | firmware/xiaozhi/overlay/main/ampve/ota_client.cc:86-104 | an answered status query after a refusal leaves exactly the shown state with nothing pending, an unanswered one leaves everything as it was, and where the update is headed does not change |
| OtaDevice.OtaClient.Reconcile | firmware/xiaozhi/overlay/main/ampve/ota_client.cc:91-104 | a refused report is always resolved: the two give-up returns are unreachable |
| OtaDevice.OtaClient.Report | firmware/xiaozhi/overlay/main/ampve/ota_client.cc:111-123 | every report built anywhere satisfies all of the server's transition, byte, step, image and reason rules, is durable before it is sent, and none of the refusals at its start is reachable |
| OtaDevice.OtaClient.GiveUp | firmware/xiaozhi/overlay/main/ampve/ota_client.cc:208-226 | an update that has selected nothing is reported as failed, with exactly this reason and these bytes, as the very next durable entry |
| OtaDevice.OtaClient.Progress | firmware/xiaozhi/overlay/main/ampve/ota_client.cc:124-131 | progress is reported in steps of 256 KiB and at the end, which keeps the server's 64 KiB rule and the bound of 20 reports |
| OtaDevice.OtaClient.Approved | firmware/xiaozhi/overlay/main/ampve/ota_client.cc:132-144 | success means that during this very call the server held the journal's job active and authorized and offered it again, with an OTA policy that the device itself accepts: unexpired by its own clock, of acceptable size, from the running image, and above both the stored sequence and the one built into the image; its context and the policy's signature were looked at and nothing was wrong with them; a refusal is noted, to be reported; an authorized job in a calm run is approved |
| OtaDevice.OtaClient.Tick | firmware/xiaozhi/overlay/main/ampve/ota_client.cc:145-235 | from any state a run can reach, one tick only takes steps that keep the joint invariant, records nothing without knowing what it runs, leaves no update lying, reports what it gave an update up for, and changes the boot selection only for an update that the server held authorized during this tick and whose policy the device still accepts; in a calm run it carries a claimable job to the selected target, a booted target to an acknowledged confirmation, an abandoned one to an acknowledged rollback, and an acknowledged outcome to an empty journal with the sequence raised if it was confirmed; a process that found a journal comes closer to an empty one or stops, stops exactly in the stuck state, and never changes whether the update is headed there |
| OtaDevice.OtaClient.Open | firmware/xiaozhi/overlay/main/ampve/ota_client.cc:148-151 | a new process holds exactly the stored journal and treats any journal it finds as cut short, or stops because it cannot be read |
| OtaDevice.OtaClient.Enter | firmware/xiaozhi/overlay/main/ampve/ota_client.cc:146-152 | a tick goes on only with its journal open and its context known, each looked at once; otherwise it stops for good or waits |
| OtaDevice.OtaClient.Serve | firmware/xiaozhi/overlay/main/ampve/ota_client.cc:171-206 | the pending report is sent and settled first, and with none the first report of the tick is the one the journal calls for; nothing is left lying; in a calm run it changes nothing about where the update is headed |
| OtaDevice.OtaClient.Check | firmware/xiaozhi/overlay/main/ampve/ota_client.cc:171-181 | neither the invalid-journal stop nor the differing-image stop can be reached, and the journal is brought up to date without any other change |
| OtaDevice.OtaClient.Migrate | firmware/xiaozhi/overlay/main/ampve/ota_client.cc:173-178 | an older journal is rewritten without inventing a recorded selection |
| OtaDevice.OtaClient.Claim | firmware/xiaozhi/overlay/main/ampve/ota_client.cc:153-170 | an offered queued job is taken on only when the server held it authorized during this call, the device has keys, a sequence to go by and a free slot, and its signed policy verifies against the running image, the device's clock and the greater of stored and built-in sequence; in a calm run every such job is |
| OtaDevice.OtaClient.TakeOn | firmware/xiaozhi/overlay/main/ampve/ota_client.cc:161-169 | the journal of the job, exactly as offered, is durable before anything else happens |
| OtaDevice.OtaClient.Proceed | firmware/xiaozhi/overlay/main/ampve/ota_client.cc:184-206 | which report comes first is decided by journal state, interruption and running image, and it is the next durable entry |
| OtaDevice.OtaClient.Finish | firmware/xiaozhi/overlay/main/ampve/ota_client.cc:185-188 | the sequence is raised before the journal is dropped, and the journal is dropped |
| OtaDevice.OtaClient.Resume | firmware/xiaozhi/overlay/main/ampve/ota_client.cc:189-204 | what is reported about an authorized reboot is what the board shows; a rollback needs a recorded selection and an abandoned slot; with the board settled and nothing failing, the client stops if and only if it found the journal at its start and is in the stuck state |
| OtaDevice.OtaClient.Continue | firmware/xiaozhi/overlay/main/ampve/ota_client.cc:206-217 | a queued job is claimed before anything is downloaded; an approval that is not confirmed is reported as such at the acknowledged bytes; a calm run reaches the selected target |
| OtaDevice.OtaClient.Transfer | firmware/xiaozhi/overlay/main/ampve/ota_client.cc:209-217 | a finished download is acknowledged at full size before verifying is reported; a failed one is reported with its own reason, or kept back while a progress report is unanswered |
| OtaDevice.OtaClient.Conclude | firmware/xiaozhi/overlay/main/ampve/ota_client.cc:215-216 | a failed download is reported with its own reason and the acknowledged bytes |
| OtaDevice.OtaClient.Verify | firmware/xiaozhi/overlay/main/ampve/ota_client.cc:218-221 | success means the approval was held during this call and the slot read back as the approved image; otherwise the update is given up with the reason of the failed check |
| OtaDevice.OtaClient.Install | firmware/xiaozhi/overlay/main/ampve/ota_client.cc:218-222 | the boot selection changes only for an approval held and a policy accepted since the download; a missing approval, a slot that does not verify and a selection that is not made are each reported with their own reason and bytes; a calm run with the approved image in the slot ends selected |
| OtaDevice.OtaClient.Handover | firmware/xiaozhi/overlay/main/ampve/ota_client.cc:223-234 | the restart happens only after the selection is real and durably recorded |
| OtaRun.Live | firmware/xiaozhi/overlay/main/ampve/ota_client.cc:145-235 | for every schedule, from any state of any run, the whole history is one run of atomic steps between states that satisfy the joint invariant, and each occasion of the schedule does what it should |
| OtaRun.Perform | firmware/xiaozhi/overlay/main/ampve/runtime.cc:640-660 | one occasion: restarts, confirmations and actions of others leave exactly the state they should; a tick, as far as nothing fails, takes on a claimable job up to the restart, leaves no report unanswered, drops an acknowledged outcome, stops exactly in the stuck state, and otherwise first writes down the report the journal calls for; a power failure leaves a prefix of what such a tick records |
| OtaRun.Settle | firmware/xiaozhi/overlay/main/ampve/ota_client.cc:145-235 | from any state of any run, when nothing fails any more, a restart and at most three ticks empty the journal or show the stuck state; it is the stuck state if and only if the board comes up on the previous image with the slot abandoned and an unrecorded reboot that the server has taken or would still take, pending report or not |
| OtaRun.CutShort | firmware/xiaozhi/overlay/main/ampve/ota_client.cc:224-234 | the stuck state is met in real runs: every update that any device takes on gets there when power fails after the selection and before the record of it, and the target is found unfit or its trial is cut short |
| OtaRun.CutEarlier | firmware/xiaozhi/overlay/main/ampve/ota_client.cc:222-224 | with a slot left abandoned, as every rolled-back update leaves it, one power failure between the acknowledged reboot and the selection is enough |
| OtaRun.AtRestUntilSelected | firmware/xiaozhi/overlay/main/ampve/ota_client.cc:219-224 | from a settled board no step but the authorized selection of the verified target changes the running slot, the selected slot or a slot's mark |
| OtaRun.StuckStays | firmware/xiaozhi/overlay/main/ampve/ota_client.cc:189-204 | neither a restart nor anything that owner, operator or clock can do leads out of the stuck state |
| OtaRun.Update | firmware/xiaozhi/overlay/main/ampve/ota_client.cc:145-235 | when nothing fails, the device itself brings an authorized queued job it accepts to its end: its image runs, both records name it, the journal is gone and the sequence is raised |
| OtaRun.RequestAndUpdate | apps/platform/workspace/deployment_services.py:175-202 | from a device at rest, an owner's request for an eligible release is taken and, when nothing fails, ends as above |
| OtaRun.FallBack | firmware/xiaozhi/overlay/main/ampve/ota_client.cc:189-204 | the same run with a target that never confirms its boot ends rolled back: the image the update started from runs and is on record, the journal is gone, and the other slot is left marked as abandoned |
| OtaRun.FreshDeviceIsSound | apps/platform/workspace/deployment_services.py:57-75 | the joint invariant holds of a device that runs its recorded image and has no update behind it |
| BootSelection.AcceptedSelections | tools/browser/install.js:14-36 | over the fields of both records: a selection is accepted exactly when it is erased, or every counting record is unambiguous and the one with the highest sequence is the stock image, confirmed, below the limit, and not contradicted by an equal one; the other sector then gets one more |
| BootSelection.ErasedIsAccepted | tools/browser/install.js:25-32 | an erased selection gets sequence 2 in its first sector |
| BootSelection.NewSectorBytes | tools/browser/install.js:32-34 | every byte of the written sector: little-endian sequence, ones, state new, checksum of the sequence, and the rest as it was |
| Octets.LittleEndian | tools/browser/install.js:19 | the lowest byte of a word comes first |
| BootSelection.NewSectorCounts | tools/browser/install.js:32-34 | the written record passes the bootloader's check with the new sequence and state |
| BootSelection.SwitchesToNewApp | tools/browser/install.js:14-36 | before the write the stock image is chosen, after it ota_1 is, for every accepted boot selection and any checksum function |
| BootSelection.TornWriteKeepsChoice | tools/browser/install.js:14-36 | a torn sector whose record fails its check leaves the choice as it was |
| BootSelection.ScanRecords | tools/browser/install.js:16-24 | refuses exactly an ambiguous sector and otherwise returns exactly the records that count, in order |
| BootSelection.SelectBoot | tools/browser/install.js:14-36 | the browser's selection equals the common specification on every 8 KiB input |
| BootSelection.SelectRecord | firmware/tools/installation_plan.py:17-40 | the offline scan returns the deciding record and refuses nothing the specification accepts |
| BootSelection.NextSelectionOffline | firmware/tools/installation_plan.py:43-55 | the offline selection equals the same specification, so both tools accept the same inputs and write the same sector |
| FlashRecovery.PrepareRecovery | tools/browser/recovery.js:10-31 | a plan is made if and only if the audit found the original backup, the installation was made with that same backup, the file still is it, and the installed area is acceptable; it holds the three original regions, boot selection last |
| FlashRecovery.SoundPlans | tools/browser/recovery.js:10-46 | a sound plan is the original with its settings, application area and boot selection, in that order and at their places, each with its own digest |
| FlashRecovery.CheckPlan | tools/browser/recovery.js:33-46 | accepts a plan object if and only if it still is the one that was prepared |
| FlashRecovery.ValidateRecovery | tools/browser/recovery.js:48-62 | accepts exactly the flashes that differ from the original only in the three regions, and says whether anything differs |
| FlashRecovery.ExecuteRecovery | tools/browser/recovery.js:65-85 | refused, without a write, for a missing consent, a plan that is not the prepared one, a flash that changed since its review or that differs outside the three regions; a flash that is the original already is not written; every intermediate flash can still be put back; completion leaves every byte original; undisturbed, it completes |
| FlashRecovery.RestoreRegions | tools/browser/recovery.js:71-80 | writes and reads back region after region; interrupted anywhere, only restorable bytes differ |
| FlashRecovery.ExecuteWrites | tools/browser/install.js:137-162 | refused exactly for bytes that do not match their digests; in every prefix of the writes the boot selection is untouched or the complete application is in place; completion means both were read back; undisturbed, it completes |
| FlashRecovery.InstallFirst | tools/browser/install.js:121-163 | nothing is written unless approved, intact, and over a flash that equals the backup byte for byte; completion leaves the application and its selection in place |
| FlashRecovery.InstallAgain | tools/browser/install.js:127-162 | the same for a device that holds an earlier installation: nothing is written unless the flash is one a reinstallation recognizes |
| FlashRecovery.FirstInstallNeverBootsPartialApp | tools/browser/install.js:143-158 | in any state a first installation can leave, ota_1 is chosen only if all of the application is there |
| FlashRecovery.CompletedInstallBoots | tools/browser/install.js:143-158 | in any installation state with the planned selection sector in place, the next boot is ota_1 |
| FlashRecovery.MakePlan | tools/browser/install.js:70-93 | a plan exists exactly when model, backup audit, application digest, size and header, reviewed bootloader and partition table, and the backup's boot selection are all as required; it holds the application padded to whole sectors and the next selection of the backup |
| FlashRecovery.PrepareReinstall | tools/browser/installation-preflight.js:8-25 | made exactly for compatible references to the one original backup; the reinstalled area covers both applications, and the new recovery plan restores all of it |
| FlashRecovery.CompletedInstallIsReinstallable | tools/browser/installation-preflight.js:27-58 | a device with a completed earlier installation and changed settings is accepted, and stays recoverable |
| FlashRecovery.InspectPrepared | tools/browser/installation-preflight.js:27-58 | accepts exactly the flashes that are original outside application area, settings and the one selection sector and hold a known application |
| FlashRecovery.InstallStaysRestorable | tools/browser/install.js:143-158 | no installation state leaves the set of recoverable flashes |
| FlashRecovery.DisturbanceStaysRestorable | tools/browser/recovery.js:48-62 | an installation or recovery attempt cut off anywhere, or a run of the application, leaves a recoverable flash recoverable |
| FlashRecovery.ChainStaysRestorable | tools/browser/recovery.js:48-62 | so does every chain of them that starts from the original |
| FlashRecovery.Disturb | tools/browser/install.js:121-163 | whatever is attempted, every state the flash passes through is such a disturbance of the state before; and an attempt that nothing interrupts achieves what it is for |
| FlashRecovery.InstallThenRecover | tools/browser/recovery.js:65-85 | after any chain of interrupted installations, reinstallations, application runs and recovery attempts, one undisturbed recovery leaves the flash byte for byte the original |
| SerialTransport.DecodeAppend | tools/browser/serial-transport.js:41-66 | chunk boundaries do not matter: decoding a concatenation is decoding the first part and going on |
| SerialTransport.FrameReadsBack | tools/browser/serial-transport.js:49-64 | a payload of 1 to 8192 bytes, escaped and framed behind any run of delimiters, decodes to itself and leaves what follows |
| SerialTransport.OnlyFramesReadBack | tools/browser/serial-transport.js:49-64 | whatever decodes was one such frame at the head of the stream |
| SerialTransport.SlipFrame | tools/browser/serial-transport.js:49-64 | the framing of RFC 1055 byte by byte: C0 only at the ends, DB DC and DB DD inside, every other byte as itself |
| SerialTransport.ReadsExactlyFrames | tools/browser/serial-transport.js:41-66 | a read returns a packet if and only if such a frame is at the head of the stream |
| SerialTransport.StreamReadsBack | tools/browser/serial-transport.js:41-66 | as many reads as there are frames return their payloads in order and leave exactly the unread suffix |
| SerialTransport.BufferedTransport.Receive | tools/browser/serial-transport.js:26-32 | nothing is dropped or reordered; the queue limit is hit exactly by a delivery that does not fit behind what is queued, and the stream counts as closed exactly when it is over |
| SerialTransport.BufferedTransport.Deliveries | tools/browser/serial-transport.js:26-32 | any number of deliveries between or during reads leaves the bytes still to come as they were, or ends the stream for one of those two reasons |
| SerialTransport.BufferedTransport.Wait | tools/browser/serial-transport.js:48 | waiting takes at least one delivery, and fails only for those two reasons |
| SerialTransport.BufferedTransport.Read | tools/browser/serial-transport.js:41-66 | the loop over chunks computes the decoding of all bytes still to come, of any length, and leaves exactly the unread suffix; a malformed packet is refused with its own fault and what was queued is dropped; given its time it never times out, and misses a packet only when a delivery overfills the queue or the stream ends before it is read |
| SerialTransport.ReadStream | tools/browser/serial-transport.js:41-66 | successive reads of a framed stream of any length, in any chunks, with deliveries between them, return its payloads in order; all of them unless a delivery overfills the queue or the stream ends first |
| CanonicalJson.HeadOfUtf8 | firmware/xiaozhi/overlay/main/ampve/ota_policy.cc:61-73 | the UTF-8 form of any scalar value reads back as it, whatever follows |
| CanonicalJson.HeadIsUtf8 | firmware/xiaozhi/overlay/main/ampve/ota_policy.cc:61-73 | no character is accepted in any but its one encoding: no overlong forms, no surrogates |
| CanonicalJson.GrammarIsRead | firmware/xiaozhi/overlay/main/ampve/ota_policy.cc:64-73 | every character of the grammar of section 4 of RFC 3629 is read at its own length |
| CanonicalJson.TextTranscodes | firmware/xiaozhi/overlay/main/ampve/ota_policy.cc:51-77 | the UTF-8 of any text becomes its lowercase escaped form with surrogate pairs, ASCII unchanged |
| CanonicalJson.OnlyTextTranscodes | firmware/xiaozhi/overlay/main/ampve/ota_policy.cc:51-77 | whatever is transcoded was the UTF-8 of a text |
| CanonicalJson.EscapingKeepsMeaning | firmware/xiaozhi/overlay/main/ampve/ota_policy.cc:51-77 | an independent reader of JSON strings, with hexadecimal escapes and surrogate pairs, reads the escaped form as exactly what it reads the text as |
| CanonicalJson.TranscodingKeepsMeaning | firmware/xiaozhi/overlay/main/ampve/ota_policy.cc:51-77 | so whatever is transcoded still says what its bytes said |
| CanonicalJson.EscapedIsAscii | firmware/xiaozhi/overlay/main/ampve/ota_policy.cc:51-77 | the escaped form is ASCII throughout |
| CanonicalJson.Hex4ReadsBack | firmware/xiaozhi/overlay/main/ampve/ota_policy.cc:57-60 | four lowercase digits, most significant first, that read back as the value |
| CanonicalJson.PairReadsBack | firmware/xiaozhi/overlay/main/ampve/ota_policy.cc:57-60 | the two halves for a character beyond 16 bits are a high and a low surrogate that give it back |
| CanonicalJson.AcceptsExactlyTheGrammar | firmware/xiaozhi/overlay/main/ampve/ota_policy.cc:61-73 | the pass accepts if and only if the bytes match the grammar of section 4 of RFC 3629 |
| CanonicalJson.ReadChar | firmware/xiaozhi/overlay/main/ampve/ota_policy.cc:62-73 | the loop over continuation bytes reads the character at a position, or refuses, as specified |
| CanonicalJson.AppendEscape | firmware/xiaozhi/overlay/main/ampve/ota_policy.cc:57-60 | four lowercase hexadecimal digits of the value |
| CanonicalJson.Transcode | firmware/xiaozhi/overlay/main/ampve/ota_policy.cc:51-77 | the whole loop computes that form and fails exactly on bytes that are not UTF-8 |
| PolicyExpiry.Expiry | firmware/xiaozhi/overlay/main/ampve/ota_policy.cc:129-152 | the loops over years and months compute the closed-form Gregorian seconds of every valid timestamp and 0 otherwise |
| PolicyExpiry.YearStep | firmware/xiaozhi/overlay/main/ampve/ota_policy.cc:149 | the closed form grows by 366 days in leap years and 365 in others |
| PolicyExpiry.MonthStep | firmware/xiaozhi/overlay/main/ampve/ota_policy.cc:150 | the closed form grows by the length of the month |
| PolicyExpiry.EarlierSeconds | firmware/xiaozhi/overlay/main/ampve/ota_policy.cc:129-152 | an earlier date and time has fewer seconds |
| PolicyExpiry.OrderPreserved | firmware/xiaozhi/overlay/main/ampve/ota_policy.cc:129-152 | string order and time order agree in both directions on accepted timestamps, and distinct timestamps are distinct moments |
| PolicyExpiry.ZeroIsTheEpoch | firmware/xiaozhi/overlay/main/ampve/ota_policy.cc:130-152 | an accepted timestamp reads as 0 if and only if it is the epoch |
| PolicyExpiry.AcceptedTimestamps | firmware/xiaozhi/overlay/main/ampve/ota_policy.cc:129-147 | a timestamp is accepted exactly when it has the form and names a day, hour, minute and second of the Gregorian calendar from 1970 on |
| PolicyExpiry.ReadDigits | firmware/xiaozhi/overlay/main/ampve/ota_policy.cc:136-143 | each field is its digits read in base ten |
| PolicyExpiry.CheckShape | firmware/xiaozhi/overlay/main/ampve/ota_policy.cc:130-135 | accepts exactly the 20-character form with digits between the separators |
| PartitionTable.AcceptedTables | tools/browser/audit.js:18-40 | a sector is read as a table if and only if it holds that table, byte by byte: marks, fields and labels at their places, one to 95 entries, aligned, inside the flash, distinct, and a closing digest of everything before it |
| PartitionTable.ParsedIsLawful | tools/browser/audit.js:29-37 | accepted entries are aligned, inside the flash, uniquely named and pairwise disjoint |
| PartitionTable.TableReadsBack | tools/browser/audit.js:18-40 | a lawful table written with its closing digest parses back to the same list |
| PartitionTable.AcceptedReadsBack | tools/browser/audit.js:18-40 | re-serialising what a sector parsed to, and parsing that, gives the same list |
| PartitionTable.EntryReadsBack | firmware/tools/audit.py:53-67 | a 32-byte entry carries name, type, subtype, offset, size and flags back |
| PartitionTable.ParseTable | tools/browser/audit.js:18-40 | the browser's reader computes the common specification |
| PartitionTable.AuditTable | firmware/tools/audit.py:40-69 | the offline reader, with its own slicing and its digest over kept entries, computes the same specification, so both accept the same sectors and return the same entries |
| CompanionUplink.CompanionAudioGate.Observe | firmware/xiaozhi/overlay/main/ampve/companion_audio_gate.h:15-30 | an interruption falls exactly on the frame that completes the first run of six speech frames since the last playback start; frames are held exactly during playback with no such run yet |
| CompanionUplink.InterruptsOnce | firmware/xiaozhi/overlay/main/ampve/companion_audio_gate.h:15-35 | one playback is interrupted at most once |
| CompanionUplink.RunsOfSnoc | firmware/xiaozhi/overlay/main/ampve/companion_audio_gate.h:20-27 | how one more frame changes the run length and whether a run has completed |
| CompanionUplink.Uplink.ProcessedFrame | firmware/xiaozhi/overlay/main/ampve/companion.cc:154-184 | a frame is ignored, held, or queued behind everything before it; an interruption queues one marker and the latest held frames, at most 15 and ending in this one, and cuts playback; a backlog past 24 ends the session instead |
| CompanionUplink.Uplink.Hold | firmware/xiaozhi/overlay/main/ampve/companion.cc:162-165 | the pre-roll is always the newest 15 of the frames held since it was last emptied |
| CompanionUplink.Uplink.Interrupt | firmware/xiaozhi/overlay/main/ampve/companion.cc:167-177 | marker first, then every held frame in order; playback queue and flag are cleared |
| CompanionUplink.Uplink.Place | firmware/xiaozhi/overlay/main/ampve/companion.cc:161-183 | what the gate's decision does to pre-roll, backlog and playback, with a backlog past its bound ending the session |
| CompanionUplink.Uplink.SwapPending | firmware/xiaozhi/overlay/main/ampve/companion.cc:186-191 | the locked half of a drain takes the whole backlog at once |
| CompanionUplink.Uplink.SendNext | firmware/xiaozhi/overlay/main/ampve/companion.cc:192-197 | one send of the unlocked half, between which frames are processed; the first failure ends the session and drops the rest |
| CompanionUplink.Uplink.DrainPending | firmware/xiaozhi/overlay/main/ampve/companion.cc:186-198 | a drain that nothing comes between sends the whole backlog in order, or a prefix of it and then ends the session |
| CompanionUplink.Uplink.ReceiveAudio | firmware/xiaozhi/overlay/main/ampve/companion.cc:314-346 | keeps the newest six playback frames, refuses malformed lengths, and says whether playback just began |
| CompanionUplink.Uplink.Start | firmware/xiaozhi/overlay/main/ampve/companion.cc:480-489 | a session starts with everything empty |
| CompanionUplink.SentInCaptureOrder | firmware/xiaozhi/overlay/main/ampve/companion.cc:154-198 | what reached the socket is a duplicate-free subsequence of the captured frames in capture order |
| CompanionUplink.Perform | firmware/xiaozhi/overlay/main/ampve/companion.cc:154-424 | one step of one thread leaves exactly the stage, flags, queues and sent items it should |
| CompanionUplink.Session | firmware/xiaozhi/overlay/main/ampve/companion.cc:154-424 | every step of every interleaving of capture, playback starts, clears, swaps, single sends, mute and stop takes its effect, and what was sent is the same of exactly the frames of the schedule, with pre-roll within 15 and backlog within 24 |
| ConsoleDispatch.AtMostOnceInOrder | apps/platform/workspace/console_views.py:200-271 | each command goes out at most once, a session's commands in increasing client sequence, none after its expiry, its session's end or a device absence of six seconds since it was queued |
| ConsoleDispatch.QueueingKeeps | apps/platform/workspace/console_views.py:163-174 | a command accepted within six seconds of the device's last visit starts with no gap behind it |
| ConsoleDispatch.VisitingKeeps | apps/platform/workspace/console_views.py:249-256 | a visit keeps the discipline because after a gap everything pending was expired |
| ConsoleDispatch.DispatchingKeeps | apps/platform/workspace/console_views.py:257-264 | handing over the first pending command keeps order and at-most-once |
| ConsoleDispatch.EndingKeeps | apps/platform/workspace/console_views.py:242-244 | ending sessions never reaches back before a dispatch |
| ConsoleDispatch.StepsAreSync | apps/platform/workspace/console_views.py:231-264 | the bulk updates of a sync, one after another, have one combined effect on each command |
| ConsoleDispatch.SyncOutcomes | apps/platform/workspace/console_views.py:240-264 | what a sync makes of one command, by the state it and its session were in: pending ones expire with their session, their time or an absence of six seconds, the picked one is dispatched, a dispatched one takes its acknowledgement, all others stay |
| ConsoleDispatch.PicksFirst | apps/platform/workspace/console_views.py:245-264 | the command handed over is the first pending, unexpired one of the newest open session, and there is none exactly when no such command exists or the device was away |
| ConsoleDispatch.FindNewest | apps/platform/workspace/console_views.py:245-246 | the newest session that is still open |
| ConsoleDispatch.FindPending | apps/platform/workspace/console_views.py:259 | the first pending command that has not expired |
| ConsoleDispatch.DeviceConsole.Start | apps/platform/workspace/console_views.py:94-105 | a new session ends the owner's open ones and expires what is pending in them |
| ConsoleDispatch.DeviceConsole.Submit | apps/platform/workspace/console_views.py:129-176 | a command is queued exactly when it is well formed, its session is live, the device joined within six seconds, remote control is allowed and its number is new; otherwise the first reason is given |
| ConsoleDispatch.DeviceConsole.Stop | apps/platform/workspace/console_views.py:189-195 | ends the session once and expires what is pending in it |
| ConsoleDispatch.DeviceConsole.Sync | apps/platform/workspace/console_views.py:218-266 | the whole effect of a sync: acknowledgement, the last acknowledged command, overdue sessions, the newest open session, lapsed and gapped commands, and exactly the first due command handed over unless the device forbids it |
| ConsoleDispatch.Perform | apps/platform/workspace/console_views.py:82-271 | one request leaves exactly the rows it should |
| ConsoleDispatch.Run | apps/platform/workspace/console_views.py:82-271 | every request of a run at increasing times takes its whole effect, and what was sent keeps the promise above |
| RateLimit.CallsSpanWindow | apps/platform/workspace/device_services.py:19-31 | a window length passes between any allowed call and the one `2 * limit - 1` later |
| RateLimit.AllowedInWindow | apps/platform/workspace/device_services.py:19-31 | at most `2 * limit - 1` allowed calls in any half-open interval one window long |
| RateLimit.OneMoreCall | apps/platform/workspace/device_services.py:25-30 | counting one more call keeps windows apart and full at `limit` |
| RateLimit.RateBucket.Allowed | apps/platform/workspace/device_services.py:19-31 | allows a call exactly when its window took fewer than `limit`; what the row holds afterwards in each case, with a new window from the very end of the old one |
| RateLimit.RateBucket.Cleanup | apps/platform/workspace/management/commands/cleanup_device_metadata.py:12 | deleting an old row never forgets a window that is still running |
| RateLimit.Meet | apps/platform/workspace/device_services.py:19-31 | one call or cleanup leaves exactly the row and the log it should |
| RateLimit.Serve | apps/platform/workspace/device_services.py:19-31 | every event of a time-ordered mix of calls and cleanups takes its effect, and the bound holds in every interval one window long |
| RateLimit.WorstCase | apps/platform/workspace/device_services.py:19-31 | a schedule that reaches the bound |

## Left out

- OtaDevice.NativePort.PostReport: in whole runs a request reaches the server within its call or never. What a report does that arrives after its call has timed out is proved apart from them, over runs of its own, by OtaModel.LateRunIsResolved and the lemmas beside it.
- OtaDevice.OtaClient.Tick: outside a calm run it promises that steps are sound, nothing is left lying and failures are reported truthfully, but no progress, because storage, network and approval may fail at any point.
- Deployment.DeploymentService.ReconcileLocalRecovery: in whole runs the observation it relies on is the image that runs at that moment; an observation up to ten minutes old of an image replaced since is not modelled.
- SerialTransport.BufferedTransport.Read: deliveries come between two looks at the buffer, not inside the loop over bytes already taken, which does not yield; the deadline is a free choice.
- CompanionUplink.Uplink.ProcessedFrame: the mute, stop and state flags are read in the same step as the locked section that follows them.
- FlashRecovery.MakePlan: the segment structure and inner checksums of an image are one fact, and the release's signature, provenance and expiry were checked before.
- FlashRecovery.PrepareReinstall: the comparison of the two release policies is one fact; what a policy contains is not modelled.
- FlashRecovery.Device.Write: a write that is cut off, or reported as done, may have left any bytes in its own range; damage outside that range is not modelled.
- JSON encoding, parsing and size limits of journal, reports and policies, including the 2048-byte bound of the journal and the structural checks before parsing.
- Pairing the device to another owner while a journal exists (the device identifier stored in it).
- Torn writes of the boot selection inside an over-the-air selection: it is one atomic flash step there; the torn case is treated for the browser's writer.
- The reference to the previous release, attention flags, poll times and reconciliation timestamps of a deployment: they influence no decision modelled here.
- Rate limits, authentication and revocation of requests as such: in the update model they are a refused request.
- Field-by-field policy and hardware report validation, enrollment, audio grants and the boot-attempt counter.
- Screen state, coordinates and input kinds of console commands, and the deletion of sessions after thirty days: they do not affect which command goes out.
- Resampling, echo cancellation, level metering and codec timing: signal processing without a protocol.
- The flash-size argument of the offline audit and everything about images beyond the partition table.
