# Verification model of the remediation orchestrator

The orchestrator triages and remediates GitHub issues with paid remote sessions. It must not lose
or duplicate paid, externally visible work when processes crash, leases lapse and webhooks race.
This project models the five state machines that carry that promise, and three small mutable
classes, and proves what they keep. `dafny verify dfyconfig.toml` checks all of it.

How the parts are modelled:

- **Protocols over runs** (`SessionModel`, `SessionProtocol`, `Approvals`): a `World` value holds the
  database rows, the running processes and the remotes; one `Event` is one committed transaction or
  one remote call, so a crash may fall between any two; `Next` is total and `Run` folds it over any
  sequence of events. Remote answers are part of the events, and an answer the remote could not have
  given leaves the world as it was. Two transactions keep the case row locked across remote calls;
  a step that needs the row while another process has it waits and changes nothing
  (`SessionProtocol.Waits`). `SessionSafety`, `SessionOwnership`, `SessionSharing`,
  `SessionHandover`, `SessionOrphan`, `SessionAccount`, `SessionCancel` and `SessionAftermath` hold
  the theorems over runs about sessions; `SessionEnds` (with `SessionIdle`) and `SessionCourse` the
  laws that say of every step, in any world, what exactly it decides; `ApprovalSafety`,
  `ApprovalDelivery`, `ConfirmedDelivery`, `StaleConfirmation` and `LabelRace`, and the laws of
  `ApprovalCourse`, those about approvals.
- **Code that updates rows and fields in place** is a class. The methods of `SessionRunner.Runner`
  (the polling, settling, re-reading and terminating loops) state their outcome over the rows, and
  the lemmas beside them, such as `SessionRunner.SettlingIsAStep`, tie each round to a step of the
  session protocol. The other classes prove their methods against a specification function:
  `ApprovalDesk.Desk`, `CaseRow.Case`, `Capacity.CapacityLedger`,
  `ResultStore.ResultStore`, `RateLimit.TokenBucketLimiter`, `Captures.BoundedCapture` and
  `Captures.TailCapture`.
- **Pure parts** are functions: the lifecycle table (`Lifecycle`), operation keys (`Tags`) and the
  status mapping (`Status`).

Promises that do not hold for all inputs, each with a concrete run or input and with the condition
under which the promise does hold:

- The replay of a label webhook is lost by a crash between the label commit and the replay
  (`ApprovalScenarios.CrashWedges`); `LabelRace.LabelsConverge` says exactly when it is.
- A delivery that was CONFIRMED can fall back to LABEL_APPLIED when a lease lapses under a slow label
  write (`ApprovalScenarios.LapsedLeaseUnconfirms`). `ConfirmedDelivery.ConfirmedStaysExactly` says
  that no other event does it, and `ConfirmedDelivery.ConfirmedForGoodExactly` says it over runs.
- A stored probe verdict can be replayed for a request with different parameters: `get` sweeps a
  stale result away together with the binding that `bind` has just checked
  (`ResultHistory.StaleReuseReplaysAnothersVerdict`), and a new id can push out the binding of a
  result that is still stored. `ResultHistory.MisanswersExactly`: nothing else does it, and each of
  the two does.
- An operator's cancel that closes a case at once can be followed by a sent attempt that is still
  active (`SessionScenario.CancelDuringCreateLeaksASession`). `SessionCancel.CancelLeaksExactly`:
  exactly if at that moment some process is bound to create an attempt - from the choice of the run
  up to the mark that the row was sent - or still polls, or times out, an attempt that an operator's
  request has finished beside it.
- Such a cancel can leave a session at work (the same run). `SessionAftermath.CancelLeavesWorkExactly`:
  exactly if some session works at that moment, or some process is bound to create an attempt.
  `SessionAftermath.ClosingLeavesWorkExactly` says it of any closing, whatever it had read before.
- A session whose creator lost its claim or its case can work on for good: the row is cancelled
  before the one DELETE, which may fail or, after a crash, never be asked for
  (`SessionScenario.CrashBeforeDeleteLeavesAnOrphan`). `SessionOrphan.OrphanWorksOnExactly`: whatever
  happens from then on, the session works on exactly until that DELETE succeeds or the remote stops
  or loses it.
- A session can work without an attempt that owns it (`SessionScenario.ReadingWhileItWorksLetsGo`).
  `SessionAccount.EveryWorkingSessionIsAccountedFor` names the only ways: it was orphaned as above,
  an operator had vouched for a create that had worked after all, a search by its tag missed it, or
  its output was re-read while it worked.
- A late heartbeat can push the active capacity leases over the limit (`Capacity.LateBeatOverruns`);
  `Capacity.BeatKeepsCountExactly` says when a heartbeat changes the count. Attaching a session that
  is live already is never denied; `Capacity.BindKeepsCountExactly`: it adds a lease exactly if its
  case holds no live one any more. `Capacity.PromptRunsStayWithin` and
  `Capacity.PromptScopesStayWithin`: in every run without either the full counts stay within the
  limit of the kind and of the repository; the usual course, a slot taken and then bound, is such a
  run (`Capacity.BindingASlotIsPrompt`).
- The job of an event can overwrite another worker's live claim, because it writes its own without
  looking again; `CaseRow.OnlyTheftDisturbs`: a holder loses its live claim in no other way.
- A label webhook that is processed on a stale read of the case confirms the round and leaves the
  case unapproved (`StaleConfirmation.StaleReadParksForGood`). `StaleConfirmation.StaleConfirmationWedges`:
  exactly if the case is no longer where it was read, and is not approved already; and then no later
  delivery or replay makes up for it, unless the label of the round is written once more.
- A case that is reopened keeps its old place in the queue; `Capacity.StepKeepsElders`: nothing else
  puts anybody in front of a waiting case.
- The header comment of the status mapping calls any undocumented value UNKNOWN; the code does not
  (`Status.UndocumentedDetailOfAnExitedSession`); `Status.ClassifiesExactly` says which pairs get which verdict.

The repository's `docs/concurrency.md` disagrees with the code on the scope of a TRIAGE lease and on
the number of lease rows of a remediation; the model follows the code.

## Model

| member | source | states |
|---|---|---|
| Lifecycle.ExtendTable | remediator/lifecycle.py:305-308 | the loop turns the declared table into exactly the extended one: generic exits for every live state outside the remediation phase, nothing else |
| Lifecycle.FailCaseMoves | remediator/lifecycle.py:110-308 | every live case can be failed inside its own phase, except PROBE_INFRASTRUCTURE_BLOCKED; failing, parking and cancelling never leave the phase |
| Lifecycle.ParkingMoves | remediator/lifecycle.py:110-308 | from exactly which states a case may be parked in its phase's termination state |
| Lifecycle.IntentsNeverOutnumberAdmissions | remediator/lifecycle.py:110-318 | in every run entries into the remediation create intent never outnumber entries into REMEDIATION_APPROVED, nor triage intents the visits to RECEIVED |
| Lifecycle.RemediationIsAOneWayDoor | remediator/lifecycle.py:68-90 | in every run the remediation phase is entered only after AWAITING_REMEDIATION_APPROVAL and never left |
| CaseRow.HistoryIsFaithful | remediator/lifecycle.py:368-421 | over any interleaving the transition log is a path from RECEIVED to the current state, the version counts it, and completion is stamped exactly in terminal states |
| CaseRow.HolderIsUndisturbed | remediator/worker/__init__.py:235-300 | while its lease runs and no event claim steals it, no sequence of foreign claims, releases, heartbeats or fenced moves changes the holder's claim or the row |
| CaseRow.OnlyTheftDisturbs | remediator/worker/processor.py:413-415 | a punctual holder keeps its claim throughout exactly if no job of an event, having read the row as unclaimed, overwrites it |
| CaseRow.Case.TransitionTo | remediator/lifecycle.py:368-421 | the case moves exactly if the table has the edge from the state in memory and the row still has that state and the expected claim; version, stamp and log entry come with the move, and nothing changes otherwise |
| CaseRow.Case.TryClaim | remediator/worker/__init__.py:189-224 | of a case the query offers, a claim succeeds exactly on a free or lapsed lease, and lasts one lease from now |
| CaseRow.Case.ReleaseClaim | remediator/worker/__init__.py:235-270 | the holder's claim is gone and the case free again after the backoff; a former holder's release changes nothing |
| CaseRow.Case.Beat | remediator/worker/__init__.py:280-297 | the holder's lease is prolonged; a former holder's heartbeat changes nothing and says so |
| Tags.OperationKeyIdentifies | remediator/devin/tags.py:5-6 | equal keys mean equal case, kind and ordinal |
| Tags.RemediationKeyIdentifies | remediator/devin/tags.py:9-21 | equal remediation keys mean equal case, approved result, base commit and ordinal |
| Tags.PhasesNeverShareAKey | remediator/devin/tags.py:5-21 | no triage key is a remediation key |
| Tags.RemediationKeyFits | remediator/models.py:281-283 | the untruncated key fits its 255-character column |
| Tags.TagValue | remediator/devin/tags.py:37-41 | the result is the rest of the first tag with the prefix, or none exists |
| Status.ClassifiesExactly | remediator/devin/status.py:61-110 | the exact region of the pair, trimmed and in lower case, for each of the five verdicts, and for skipping the DELETE |
| Status.DisposesExactly | remediator/worker/devin_runner.py:981-1004 | with output a waiting session counts as finished; no other verdict depends on it |
| Status.UndocumentedDetailOfAnExitedSession | remediator/devin/status.py:1-6 | the header's promise fails for an exited session with an undocumented detail |
| Status.SpellingIsIrrelevant | remediator/devin/status.py:61-75 | case and surrounding blanks never change a verdict |
| SessionModel.NextOrdinal | remediator/worker/devin_runner.py:224-239 | the allocated ordinal is larger than every ordinal of its kind |
| SessionModel.NewestActive | remediator/worker/devin_runner.py:374-386 | the newest active attempt of a kind, or none exists |
| SessionSafety.AtMostOnePostPerKey | remediator/worker/devin_runner.py:538-637 | over every run of any number of workers with crashes anywhere, no operation key is POSTed twice, and only the run that inserted the row POSTs it |
| SessionSafety.SpendIsBounded | remediator/worker/devin_runner.py:224-239 | over every run ordinals are distinct and within 1..max, keys are distinct, at most max POSTs per kind are sent and their ACU caps sum to at most max times the limit |
| SessionSafety.NextKeeps | remediator/models.py:257-283 | every step of every process keeps the numbering, key and POST invariant, also when two workers allocate the same ordinal |
| SessionOwnership.StepSettleStep | remediator/worker/devin_runner.py:651-683 | one settling step keeps single ownership, and lets go only of rows with evidence |
| SessionOwnership.StepTimeoutGet | remediator/worker/devin_runner.py:1042-1068 | the final GET keeps the invariant: closing follows only on evidence that the session ended |
| SessionOwnership.StepCloseOut | remediator/worker/devin_runner.py:1115-1159 | confirmed termination closes the only owner, and a pending case only when no session of an attempt that owned one works any more |
| SessionOwnership.StepTerminateCommit | remediator/worker/processor.py:198-220 | the commit of a termination sweep keeps the invariant and closes the case only with every owner ended |
| SessionSharing.InsertOwns | remediator/worker/devin_runner.py:554-602 | inserting an attempt keeps at most one owner per kind |
| SessionSharing.AssistsKeep | remediator/api/operator.py:375-390 | what an operator's reconcile request may do beside a running worker keeps the ownership invariant of every process |
| SessionSharing.AssistsIngest | remediator/worker/devin_runner.py:497-524 | the request ingests the one retained session beside whatever runs, or changes nothing |
| SessionHandover.NextOwns | remediator/worker/devin_runner.py:366-434 | every event keeps the ownership invariant, with one claim holder at a time and any number of operator requests beside it |
| SessionHandover.AtMostOneOwner | remediator/worker/devin_runner.py:386-397 | in every run with one claim holder at a time, operator requests beside it, a kind has at most one attempt that is running, reconciling, pending or blocked |
| SessionHandover.BlockedNeedsEvidence | remediator/worker/devin_runner.py:639-689 | whatever the event, a blocked attempt keeps owning unless its session was seen gone, an operator vouched for it, or its termination was confirmed |
| SessionHandover.BlockedWasReleased | remediator/api/operator.py:220-254 | over every serial run a blocked attempt that is no longer blocked was released at some event, with evidence or still owning |
| SessionHandover.ReplacementIsSafe | remediator/worker/devin_runner.py:639-689 | when a replacement is inserted no attempt of its kind owns a session, and each that was ever blocked was released before |
| SessionHandover.CaseClosesOnlyWhenQuiet | remediator/worker/processor.py:289-296 | with exact searches, a worker takes a case out of TERMINATION_PENDING into a terminal state only when every owner is closed and nothing with its key works |
| SessionHandover.RemediationClosesOnlyWhenInactive | remediator/worker/remediation.py:840-865 | the same for REMEDIATION_TERMINATION_PENDING: no sent attempt stays active, and where the end was confirmed every owner is closed and nothing with its key works |
| SessionEnds.SucceedsExactly | remediator/worker/processor.py:88-132 | whatever the event, an attempt succeeds exactly by a finishing step from where the process holds the case under its claim - for triage with an output that is there and valid - and the case moves in the same commit |
| SessionEnds.AwaitsExactly | remediator/worker/processor.py:107-132 | whatever the event, a case comes to await an approval exactly by the good end of a triage attempt of its own |
| SessionEnds.SuccessWasEarned | remediator/worker/processor.py:98-107 | in every run of any number of workers, an attempt that has succeeded was brought to a good end by some event |
| SessionEnds.ApprovalWasEarned | remediator/worker/processor.py:124-132 | in every such run, a case that awaits an approval got there by a valid output of a triage attempt |
| SessionEnds.BadOutputFails | remediator/worker/processor.py:98-106 | a missing or invalid output leaves the attempt failed and without output and its case failed, or pending while another attempt may be live; or nothing changes, exactly if the case has moved on |
| SessionEnds.FailsExactly | remediator/worker/devin_runner.py:187-221 | whatever the event, an attempt fails exactly by one of five failing steps whose failure of the case can be committed, or by the confirmed end of a session that a failing job had asked for |
| SessionEnds.BlocksExactly | remediator/worker/devin_runner.py:1012-1025 | whatever the event, an attempt is blocked exactly when its session waits without output or the search for it was not conclusive, together with its case |
| SessionEnds.AsksAHumanExactly | remediator/worker/devin_runner.py:896-906 | whatever the event, a triage case comes to wait for a human exactly with one of its attempts |
| SessionEnds.ClosesAsAsked | remediator/worker/devin_runner.py:1115-1159 | a confirmed end is called CANCELLED, FAILED or TIMED_OUT by what asked for it, the deadline first, for the attempt and the case alike |
| SessionEnds.TimesOutExactly | remediator/worker/devin_runner.py:1140-1149 | whatever the event, an attempt times out exactly by a confirmed end past its deadline, or that nobody had asked for |
| SessionCourse.AllocatesExactly | remediator/worker/devin_runner.py:386-397 | a job starts to make a new attempt exactly if none of its kind is active, a slot is granted, the next ordinal is within the cap and nobody else keeps the row locked |
| SessionCourse.AttachesExactly | remediator/worker/devin_runner.py:812-854 | the creator binds its session exactly if it can move the case to where the attempt runs; otherwise the row is cancelled and the session an orphan |
| SessionCourse.LastReadingDecides | remediator/worker/devin_runner.py:1042-1068 | the last reading before a termination is settled if it is conclusive, closes the attempt without a DELETE if the session has ended, and leads to a DELETE only if it may still work |
| SessionCourse.SessionsEndExactly | remediator/worker/devin_runner.py:639-689 | whatever the event, a session ends exactly if the remote stops or loses it or if one of the five kinds of DELETE is accepted for it |
| SessionCourse.CancelLeadsExactly | remediator/api/operator.py:265-281 | an operator's cancel closes the case at once exactly if nothing of it may run and it is not closed yet, and otherwise leaves it pending termination, where the table allows it |
| SessionCourse.RetryExactly | remediator/api/operator.py:282-312 | an operator's retry is accepted exactly if unresolved creates are vouched for, retained sessions have been re-read, the caps leave an attempt and the state allows it; it then acknowledges exactly what was vouched for |
| SessionOrphan.OrphanWorksOnExactly | remediator/worker/devin_runner.py:831-851 | in every world reached with one claim holder at a time, once a creator gives its working session up, the row never owns it again, and over every continuation, crashes and any workers included, the session works on exactly until the creator's DELETE succeeds or the remote stops or loses it |
| SessionOrphan.AdriftWorksOnExactly | remediator/worker/devin_runner.py:831-851 | the same for any session whose row has let go of it while nobody is at work on the row: no other step of any run touches it |
| SessionScenario.CrashBeforeDeleteLeavesAnOrphan | remediator/worker/devin_runner.py:844-846 | a run that ends cancelled, unclaimable, with a cancelled attempt whose session works although no DELETE was asked for |
| SessionAccount.EveryWorkingSessionIsAccountedFor | remediator/worker/devin_runner.py:374-386 | in every run with one claim holder at a time, each working session's attempt owns it, or was let go of while it worked by an orphaning attach, a wrong vouching, a search that missed it, or a re-reading of its output |
| SessionScenario.ReadingWhileItWorksLetsGo | remediator/worker/devin_runner.py:452-524 | a run in which an operator's request ingests the output of a session that has resumed its work, and the attempt succeeds while the session works on |
| SessionAccount.NothingWorksUnowned | remediator/worker/devin_runner.py:639-689 | in every such run in which none of this happens, whatever works is owned by its attempt |
| SessionScenario.CancelDuringCreateLeaksASession | remediator/worker/devin_runner.py:628-633 | a run that ends cancelled, unclaimable, with a sent active attempt whose session works |
| SessionCancel.CancelLeaksExactly | remediator/worker/devin_runner.py:538-637 | in every world reached with one claim holder at a time, a cancel that closes the case at once can be followed by a closed case with a sent active attempt exactly if some process is then bound to create one or to revive one |
| SessionAftermath.CancelLeavesWorkExactly | remediator/api/operator.py:208-217 | in every world reached with one claim holder at a time, a cancel that closes the case at once can leave it with a session at work exactly if some session works then or some process is bound to create one |
| SessionAftermath.ClosingLeavesWorkExactly | remediator/api/operator.py:257-305 | the same for any closing, however stale its reading of the attempts: exactly if some session works, or some process will make a POST, at the moment the case is closed |
| SessionAftermath.WorkAtTheCancelWasLetGo | remediator/api/operator.py:208-217 | in every such world, whatever works when a cancel closes the case at once was let go of before, in one of the four ways |
| SessionRunner.Runner.Poll | remediator/worker/devin_runner.py:924-969 | polling ends in the first round whose status and detail say that the session has done its work, waits or is stuck, that does not find it, or that is cancelled or late; with one GET a round, at most ceil((deadline - start)/interval) + 1 of them, and the row as the last GET leaves it |
| SessionRunner.Runner.SearchByTag | remediator/worker/devin_runner.py:868-879 | the first search that finds anything ends the retries, which are bounded |
| SessionRunner.Runner.SettlePrevious | remediator/worker/devin_runner.py:639-689 | it refuses exactly if some earlier attempt may not be replaced, and otherwise cancels all that name a session; refused or not, of the sessions exactly those change that it read without output and then deleted, their attempts cancelled with them |
| SessionRunner.Runner.TerminateRunning | remediator/worker/devin_runner.py:1174-1215 | it reports success exactly if no row owns a session any more; a row is let go of exactly if its end was confirmed; of the sessions exactly those change that an owning row names or a search by its tag found, and whose DELETE was accepted |
| SessionRunner.Runner.ReconcileBlocked | remediator/worker/devin_runner.py:452-524 | the kept attempt is the newest with valid output, or the newest with any; every other candidate is cancelled; one GET each; none is kept exactly if none has output |
| SessionRunner.KeptIsCurrent | remediator/approvals.py:131-145 | the kept attempt is the current triage result exactly if no newer triage attempt outside the candidates is uncancelled |
| SessionRunner.ChosenIsBest | remediator/worker/devin_runner.py:494-496 | the chosen reading is the newest valid one, or the newest when none is valid |
| SessionRunner.PollingIsAStep | remediator/worker/devin_runner.py:924-969 | a round of the polling loop is the protocol's step, and goes on exactly if its reading is not decisive |
| SessionRunner.SettlingIsAStep | remediator/worker/devin_runner.py:651-683 | a round of the settling loop is the protocol's step, and ends the job exactly if the attempt may not be replaced |
| SessionRunner.SettlingDeletesOnly | remediator/worker/devin_runner.py:670-677 | refused or not, the protocol's round deletes exactly a session that was read without output |
| SessionRunner.SettlingCommitsRows | remediator/worker/devin_runner.py:684-689 | the protocol's commit cancels exactly the rows that the settling loop cancels |
| SessionRunner.TerminatingIsAStep | remediator/worker/devin_runner.py:1174-1215 | a round of the terminating loop is the protocol's step, closes the row exactly if its end is confirmed, and deletes no other session |
| SessionRunner.TerminatingCommitsRows | remediator/worker/devin_runner.py:1174-1215 | the protocol's commit leaves each row as the terminating loop does and closes the case if all is confirmed, or is rolled back exactly if the case has moved on |
| SessionRunner.RereadingIsAStep | remediator/worker/devin_runner.py:452-490 | a round of the re-reading loop is the protocol's step, with the same note on the row |
| SessionRunner.IngestionKeepsOne | remediator/worker/devin_runner.py:497-524 | the ingestion keeps the chosen attempt, supersedes the other candidates and takes a blocked case back to its triage, or is rolled back exactly if the case has moved on |
| ApprovalSafety.ApprovalDiscipline | remediator/approvals.py:158-231 | in every run at most one round is pending; every request has one Slack row, a label row exactly if approved and a rejection comment exactly if rejected; tokens resolve uniquely; remediation needs an approved, labelled, confirmed round; and the case is rejected exactly if a round was |
| ApprovalSafety.DecidedOnce | remediator/approvals.py:352-456 | in every run a request's first decision is its last |
| ApprovalSafety.ApprovesExactly | remediator/approvals.py:347-423 | in every run a click approves a request exactly if it is an authorized user's first verdict on it, in time, on the current round of a case that awaits it; the case stays and the label row is added |
| ApprovalSafety.RejectsExactly | remediator/approvals.py:424-456 | in every run a click rejects a request exactly under the same guards; the case is then rejected, with one pending comment row for the request |
| ApprovalSafety.RowFailsExactly | remediator/worker/outbox.py:220-244 | whatever the event, a row fails exactly if its handler has failed for good, or once more after all its attempts |
| ApprovalSafety.NextKeeps | remediator/worker/outbox.py:168-208 | every event, with any number of dispatchers, keeps the approval invariant |
| ApprovalDelivery.EffectsHappenOnce | remediator/worker/outbox.py:381-444 | while leases hold and searches are exact: one comment and one Slack message per request, the stored token hash is that of the message, and remediation rests on a CONFIRMED request |
| ApprovalDelivery.NextOnce | remediator/worker/outbox.py:518-619 | every event keeps the exactly-once invariant through crashes, lost answers and retries |
| ApprovalCourse.WritesLabelExactly | remediator/worker/outbox.py:518-563 | whatever the event, a dispatcher turns to writing the label exactly for the label row of an approval that still stands, on an open issue, unless the label is on record or seen to have landed |
| ApprovalCourse.PostsMessageExactly | remediator/worker/outbox.py:381-425 | whatever the event, a dispatcher turns to posting a message exactly for an undecided, unannounced request of a waiting case, with a new token, and after an earlier token only if no message is found |
| ApprovalCourse.PostsCommentExactly | remediator/worker/outbox.py:599-622 | whatever the event, a dispatcher turns to posting its comment exactly if none is on record and none was asked for, or the search finds none |
| ApprovalCourse.RecordsExactly | remediator/worker/outbox.py:405-444 | whatever the event, a label and a message are on record exactly once their write was answered or seen to have landed |
| ApprovalCourse.SendsExactly | remediator/worker/outbox.py:168-208 | whatever the event, a row is sent exactly when its comment or message is out, was found to be out, or is not wanted any more |
| ApprovalCourse.ApprovesTheCaseExactly | remediator/approvals.py:498-577 | whatever the event, a case is approved for its remediation exactly by a delivery, or the replay of one, while the current approved round has its label on record and unconfirmed |
| ConfirmedDelivery.ConfirmedStaysExactly | remediator/worker/outbox.py:564-565 | in every reachable world, whatever the event, a CONFIRMED delivery stays CONFIRMED exactly unless a label write of its own request is committed |
| ConfirmedDelivery.ConfirmedForGoodExactly | remediator/worker/outbox.py:564-573 | over every run, from its confirmation on a delivery stays CONFIRMED exactly if no label write of its request is committed any more |
| LabelRace.LabelsConverge | remediator/worker/outbox.py:555-578 | from the approval of any round, in every interleaving of a steady run, label on record and own webhook processed, the case is approved exactly if no crash lost the replay |
| LabelRace.NextKeepsRace | remediator/approvals.py:599-645 | every event keeps the account of what is owed to the round |
| LabelRace.WedgeIsPermanent | remediator/worker/outbox.py:555-578 | nothing but another delivery that shows the label gets a wedged case out |
| ApprovalScenarios.CrashWedges | remediator/worker/outbox.py:576-578 | a run from the start that ends wedged although the label was written and reported |
| ApprovalScenarios.LapsedLeaseUnconfirms | remediator/worker/outbox.py:564-565 | a run with two dispatchers on one row that ends in remediation with no CONFIRMED round |
| ApprovalDesk.Desk.CreateApprovalRequest | remediator/approvals.py:158-231 | an attempt with a round keeps it; otherwise it gets an undecided one with a pending Slack row, every undecided one is superseded and loses its token, and no other is touched |
| ApprovalDesk.Desk.ProcessSlackAction | remediator/approvals.py:293-456 | the in-place operation is the protocol's click, and its answer tells what became of the request, the case and the rows: approved, rejected, expired or undecided still |
| ApprovalDesk.Desk.ConfirmLabelWebhook | remediator/approvals.py:498-577 | it confirms exactly if the round is confirmable and the case is still where it was read; a stale read leaves the round confirmed and the case alone, and says that nothing was confirmed |
| StaleConfirmation.StaleConfirmationWedges | remediator/approvals.py:556-575 | a confirmation moves the case exactly if it is where it was read, or approved already; and over every further run in which no label write of the round is committed, no delivery and no replay confirms the round again, whatever was read |
| StaleConfirmation.ConfirmedFromHereExactly | remediator/worker/outbox.py:564-573 | over any further run, from any world, a confirmed round with its label on record stays confirmed exactly if no label write of it is committed |
| StaleConfirmation.StaleReadParksForGood | remediator/worker/processor.py:350-366 | a run, and a job that has read the case before it, after which the round is CONFIRMED and the case stays parked in APPROVAL_DELIVERY_FAILED |
| ApprovalDesk.Desk.ReplayLabelWebhooks | remediator/approvals.py:599-645 | the loop confirms at most once, exactly if some delivery is replayable and the round confirmable |
| ApprovalDesk.Desk.ExpireRequest | remediator/approvals.py:648-658 | only an undecided request expires, and then its token is not live |
| ApprovalDesk.Desk.FailRow | remediator/worker/outbox.py:220-315 | a row fails for good or after all its attempts and else waits for the next; an unwritten label is then undelivered and a waiting case with it, a written one is not |
| Capacity.LimitsHold | remediator/capacity.py:170-235 | in every reachable ledger, at every later time, active leases stay within the limit, one per case, kind and scope, one per resource key |
| Capacity.ScopeLimitHolds | remediator/capacity.py:220-223 | in every run whose unforced requests for a repository carry the same limit, at every later time, its active leases stay within it, those granted by force or revived after they lapsed aside |
| Capacity.AcquireTwice | remediator/capacity.py:181-203 | acquiring again while the lease is live renews it and adds none, whatever else the ledger holds |
| Capacity.AdmittedExactly | remediator/capacity.py:193-235 | a request is granted exactly if its case holds a live lease, or it asks by force, or more slots are free than cases have waited longer and fewer leases of the scope are active than its limit, one for a resource key; a grant adds or renews exactly its own lease, a denial names the limit in the way |
| Capacity.FirstComeFirstServed | remediator/capacity.py:213-219 | a grant leaves a slot for every case that waited longer, and the oldest waiting case is never turned away while a slot is free |
| Capacity.StepKeepsElders | remediator/capacity.py:318-328 | a step puts somebody in front of a waiting case exactly by reopening a case that had waited longer |
| Capacity.NoOvertaking | remediator/capacity.py:318-328 | over every run without such a reopening, new cases included, nobody gets in front of a waiting case |
| Capacity.PatternIsExact | remediator/capacity.py:156-164 | the text pattern finds exactly the cases parked on the global limit of the kind |
| Capacity.LateBeatOverruns | remediator/capacity.py:272-284 | a run with one slot and two active leases |
| Capacity.BeatKeepsCountExactly | remediator/capacity.py:272-284 | a heartbeat leaves the number of active leases of a kind alone exactly if no unreleased lease it beats has lapsed |
| Capacity.BindKeepsCountExactly | remediator/worker/devin_runner.py:303-316 | attaching a live session leaves the number of active leases of its kind alone exactly if the case still holds a live lease for it, and adds one otherwise, whatever the limit |
| Capacity.BindingASlotIsPrompt | remediator/worker/devin_runner.py:303-316 | a slot that was taken and is bound while its lease lives is renewed: no lease is added, and the run stays one of those below |
| Capacity.PromptRunsStayWithin | remediator/capacity.py:170-235 | in every run without a late beat, and in which sessions are attached by force only while their cases hold a live lease, the full count of active leases stays within the limit |
| Capacity.PromptScopesStayWithin | remediator/capacity.py:220-223 | in every such run whose unforced requests for a repository carry the same limit, the full count of its active leases stays within it |
| Capacity.CapacityLedger.Acquire | remediator/capacity.py:170-235 | the in-place operation is the specified one, and grants exactly what the law of admission admits |
| Capacity.CapacityLedger.TakeSlot | remediator/worker/devin_runner.py:277-301 | a grant takes the case off every queue; a denial puts a live case on the queue of the kind exactly if the global limit stood in the way, and keeps the time since when it waits |
| Capacity.CapacityLedger.Release | remediator/capacity.py:237-259 | exactly the unreleased leases of that case and kind (and scope) are released, and the count is theirs |
| Capacity.CapacityLedger.ReleaseAllForCase | remediator/capacity.py:261-270 | exactly the unreleased leases of the case are released |
| Capacity.CapacityLedger.Heartbeat | remediator/capacity.py:272-284 | each unreleased lease of the owner on these cases lasts until the new time, lapsed or not; every other lease is untouched |
| Capacity.CapacityLedger.ExpireStale | remediator/capacity.py:286-298 | exactly the unreleased lapsed leases are released, so every one that is left is active |
| Capacity.CapacityLedger.ReconcileFinished | remediator/capacity.py:115-132 | afterwards no unreleased lease is bound to an ended attempt, every other lease is untouched, and the count is the number of leases that changed |
| ResultHistory.StoreRefinesHistory | remediator/verifier/__init__.py:176-189 | after any requests `get` answers exactly with the newest of the last 512 results not older than the TTL |
| ResultHistory.FaithIsKeptExactly | remediator/verifier/__init__.py:165-185 | serving keeps every stored result bound to its fingerprint exactly unless it computes anew an id whose stored result is stale, or a new id pushes out the oldest binding while its result outlives the request |
| ResultHistory.MisanswersExactly | remediator/verifier/__init__.py:409-439 | after a request on a faithful store some next request can be answered with a verdict computed for another fingerprint exactly if the request reused a stale id or pushed out the binding of a result that is left |
| ResultHistory.ReplayedForAnEqualFingerprint | remediator/verifier/__init__.py:409-439 | in every run free of those two every replay was computed for an equal fingerprint |
| ResultHistory.StaleReuseReplaysAnothersVerdict | remediator/verifier/__init__.py:176-189 | three requests after which another's verdict is replayed |
| ResultHistory.FailedIdIsFree | remediator/verifier/__init__.py:206-210 | after any requests, an id whose probe failed is free again for any fingerprint |
| ResultStore.ResultStore.Bind | remediator/verifier/__init__.py:165-174 | a new id is appended and exactly the last 1024 bindings are kept; a known id changes nothing and is told apart by its fingerprint |
| ResultStore.ResultStore.Evict | remediator/verifier/__init__.py:176-184 | afterwards at most 512 results are left and the oldest is not too old |
| ResultStore.ResultStore.Get | remediator/verifier/__init__.py:186-189 | the answer is looked up in what the eviction leaves |
| ResultStore.ResultStore.Finish | remediator/verifier/__init__.py:199-204 | the in-place operation is the specified one: the flight ends and at most 512 results are left |
| ResultStore.ResultStore.Abort | remediator/verifier/__init__.py:206-210 | the flight ends and the id is free, every other id stays bound |
| ResultStore.ResultStore.RunProbe | remediator/verifier/__init__.py:409-439 | the handler is the specified service of one request; it conflicts exactly if the id is bound to another fingerprint |
| RateLimit.WindowBound | remediator/api/hardening.py:141-166 | in any window a key gets at most the capacity plus the refill of the window |
| RateLimit.SilenceIsRepaid | remediator/api/hardening.py:157-166 | a key that asked for nothing for a while gets every call it then makes, or at least as many as the refill of its silence up to a full bucket, less than one call aside |
| RateLimit.BucketsInRange | remediator/api/hardening.py:157-166 | tokens stay between zero and the capacity |
| RateLimit.TokenBucketLimiter.Allow | remediator/api/hardening.py:157-166 | a call is let through exactly if a new key has room for one, or the rest of the bucket and the refill since the last call make up a whole one; the state is the specified one |
| Captures.BoundedCapture.Drain | remediator/probes/runner.py:273-295 | however the stream is cut, exactly its first bytes are kept, truncated exactly if it is longer |
| Captures.TailCapture.Drain | remediator/probes/runner.py:298-318 | however the stream is cut, exactly its last bytes are kept, never more between reads |
| Captures.CutsOnlyJoin | remediator/probes/runner.py:273-318 | reading in pieces delivers the concatenation |

## Left out

- HTTP routes, dashboard, templates, metrics, logging, settings validation and prompt rendering: plumbing or flat checks.
- The live and fake clients: each remote is an environment that answers within what it holds; a definite refusal of a create is taken to mean that nothing was created, and a session that is read as finished - one that waits for a user after it has submitted output included - is taken not to work any more.
- `remediator/worker/remediation.py` is not part of this model, except how it enters a session and a termination: inside the remediation phase its steps are arbitrary edges of the table, and any of them may fail the case.
- Schema validation of outputs, rubric regexes, HMAC and hashing: "valid" is a flag of the answer, hashes are injective.
- Subprocesses, git, egress proxy and decoding of captured bytes as text.
- Row locks, advisory locks and unique indexes are atomic steps and rejected inserts; the lock on a case row kept across remote calls and the three indexes on attempts are explicit.
- Leases of cases and outbox rows carry no clock in the protocols: a claim may take over at any time, and the theorems that need it say that it does not.
- In-memory copies of attempt and request columns are read from the row; only the case state a process holds in memory is modelled, because transitions compare against it. In the approval protocol a webhook reads the case as it is; a stale read is modelled for the one operation only (`ApprovalDesk.Desk.ConfirmLabelWebhook`), so `LabelRace` and `ConfirmedDelivery` do not cover it.
- The failure of a case when an event runs out of retries; stale event claims are in `CaseRow` only.
- Unexpected exceptions inside the termination path, and clocks that differ between hosts.
- Backoff delays, jitter and the order in which pending outbox rows are claimed.
- Outbox kinds that change no approval state: status updates, ephemeral replies, remediation progress and the not-feasible comment.
- Legacy attempts without an ordinal, ACU consumption reports, CI and probe retries of an operator.
- The futures of requests that join a running probe; requests are served one at a time in the theorems on the store.
- Each ledger operation reads the clock once; the source reads it again in its counting queries.
- SessionHandover.AtMostOneOwner: assumes one claim holder at a time, as the claim lease intends, with any number of operator requests beside it; with a lapsed lease two holders may run, and then only the properties of SessionSafety are claimed.
- SessionHandover.CaseClosesOnlyWhenQuiet: a worker's step only; an operator's cancel may close a case earlier, see SessionCancel.CancelLeaksExactly and SessionAftermath.CancelLeavesWorkExactly.
- SessionHandover.RemediationClosesOnlyWhenInactive: a job that fails while its case waits may close it with a blocked attempt still owning a session; only a confirmed end promises quiet.
- SessionCancel.CancelLeaksExactly: the run before the cancel and those that can follow it have one claim holder at a time; and the request reads the attempts and moves the case in one step, while the source reads them first and without a lock, so a reading that has become stale by then is not covered.
- SessionAftermath.CancelLeavesWorkExactly: one claim holder at a time, and one step, like SessionCancel.CancelLeaksExactly; a stale reading is covered by SessionAftermath.ClosingLeavesWorkExactly. The retry of an operator reads and moves in one step, too.
- SessionOrphan.OrphanWorksOnExactly: the run up to the orphaning has one claim holder at a time; with a lapsed lease another worker may be at work on the same row, and only SessionOrphan.AdriftWorksOnExactly is claimed.
- SessionAccount.EveryWorkingSessionIsAccountedFor: one claim holder at a time, for the same reason.
- CaseRow.Case.TryClaim: the filter of the claiming query on claimable states and on active events is not modelled; the session protocol has the states.
- Status.SpellingIsIrrelevant: ASCII letters and blanks only, not Unicode case folding or its full set of blanks.
