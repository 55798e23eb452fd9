# Claude Hub: verified models of the stateful core

Seven pieces of Claude Hub whose correctness depends on every interleaving, every crash or every input,
modelled in Dafny 4.11 and proved. `dafny verify dfyconfig.toml` checks everything.

## What is modelled

**The durable Chat inbox** (`chat_message.dfy`, `inbox_*.dfy`, `chat_message_inbox.dfy`). A per-tab delivery
queue over a file that is replaced on every save. `inbox_ops.dfy` has each operation as a function, one for
each stretch of code between two suspension points. `inbox_protocol.dfy` interleaves them, with the providers'
callbacks, evidence reads, failing saves, crashes and restarts, as a step machine of thirty-three kinds of step.
`inbox_evolution.dfy` says how a stored state may develop; `inbox_moves.dfy` shows every operation to be a few
legal mutations; `inbox_safety.dfy` and `inbox_steps.dfy` have the invariant and its preservation;
`inbox_runs.dfy`, `inbox_epochs.dfy`, `inbox_rest.dfy`, `inbox_crowd.dfy`, `inbox_closing.dfy` and
`inbox_calls.dfy` have the results over whole runs, `inbox_pump.dfy`, `inbox_restart.dfy`, `inbox_pass.dfy` and
`inbox_progress.dfy` those on pumps and passes and on what a run can always come to, `inbox_answers.dfy` that for
answers. `inbox_admission.dfy`, `inbox_turns.dfy`, `inbox_handler.dfy` and `inbox_verdicts.dfy` say exactly who is
admitted, what a turn of a pump does, what a failed `submit` leaves and what evidence moves.
`chat_message_inbox.dfy` is the class itself, with its fields updated in place and its loops, each method proved
equal to its operation.

**The import-cycle ratchet** (`import_cycles.dfy`). Tarjan's algorithm with its recursive, mutating `visit`,
proved to return exactly the cyclic strongly connected components, and the ratchet built on it.

**Three concurrency registries.** The reference-counted gates of the Bots (`bot_gate.dfy`), the dispatch queues of
the tabs (`tab_dispatch.dfy`), and the directed long-poll (`directed_wait.dfy`).

**Keyset pagination of the board** (`board_pagination.dfy`, `board_walks.dfy`) and **rename-based promotion of the
frontend** (`frontend_promotion.dfy`). `options.dfy` has the one `Option` type of all.

## What is assumed

- `submit` calls its callback only while it runs, and contacts the provider at most once, after the callback
  has returned. A callback that was refused may be called again.
- Clock readings used as `updated_at` strictly increase; clocks are integers, in seconds where a threshold is. The
  one place that sets `updated_at` back, to the time of dispatch, does so only while no runner has been started
  (backend/claude_hub/services/workspace_manager/scheduling/chat_runs.py:369-373) and is not part of this model.
- Identifiers from `uuid4` are fresh. Fingerprints are injective. Tab identifiers and incarnations are combined
  into keys injectively.
- `start` comes to its end at most once in a process. That end is a step like any other and resets `_closing`.
- `admit_scheduled` receives unstarted envelopes that are queued, waiting, dispatching or accepted, as
  `_admit_scheduled_intents` makes them
  (backend/claude_hub/services/workspace_manager/scheduling/chat_runs.py:189-245). One admitted in flight is
  marked `adopted`, a history field, until it leaves flight: the inbox did not dispatch it.
- Other writers of questions add a fresh open question, or settle one as stale or resolved.
- A rename is atomic and fails onto a directory that exists.

## What the proofs found

- Observed epochs can be forgotten. `_target` changes `epochs` and `conversations` in memory only. Until something is
  saved, a crash or a failed save undoes that, and the same epoch can be observed again with another conversation:
  exactly when what was saved last, or after a crash the file, is neither past the epoch nor pins the conversation
  (`InboxEpochs.ForgottenExactly`, `InboxEpochs.CrashForgetsInRuns`, with `InboxEpochs.CrashForgetsExactly` and
  `InboxEpochs.FailedSaveForgetsExactly` for one crash and one save). What is admitted or submitted is never
  affected (`InboxRuns.OneConversationPerEpoch`, `InboxRuns.SubmittedInOwnEpoch`).
- "Scheduler uncertainty is terminal history", says a comment (chat_message_inbox.py:472). It is not: an unstarted
  scheduled message that is uncertain, and whose `submit` is still running, goes back to waiting or to failed when
  that `submit` raises (`InboxRest.DoubtAndReturn`). `InboxRest.ReturnsFromDoubtExactly` says when. Of one that was
  started the comment is true (`InboxRest.RestIsFinal`).
- Terminal states are not quite absorbing. Where Chats are delivered without the inbox adapter,
  `_prepare_scheduled_intent` fails its entry after an await without looking at it again
  (backend/claude_hub/services/workspace_manager/scheduling/chat_runs.py:330-340), so that a message which
  `cancel_scheduled` has cancelled meanwhile becomes a failed one (`InboxRest.CancelledThenFailed`). Nothing else
  changes a finished message (`InboxRest.LeavesRestExactly`), and it is never sent
  (`InboxCalls.FinishedUnsentIsNeverSent`).
- `admit_scheduled` does not take the lock that `pump` holds while it prepares a message, and `pump` does not look
  again. One admitted in flight meanwhile is then beside the one that is dispatched (`InboxCrowd.CrowdedExactly`).
- "Fail closed until process recovery", says a comment in `_save` (chat_message_inbox.py:229). `start`
  resets `_closing` after it has awaited `reconcile`, and so undoes within the process what another task's failed
  save has set meanwhile (`InboxClosing.StartUndoesClosing`). Until the next restart or end of `start` the comment is
  true (`InboxClosing.ClosedStaysClosed`). Nothing that was saved is ever endangered by this (`InboxRuns.RunIsSafe`).
- An answer and its question are saved one after the other, so a save that fails in between leaves the answer settled
  and its question claimed (`InboxCalls.AnswerSettlesItsQuestion`).
- The comment in `directed_wait.py` that no append can be lost holds from Python 3.12 on. On 3.11, the version in
  `.python-test-version`, `asyncio.wait_for` starts `Event.wait` as a task of its own, one turn of the event loop
  after the event was cleared, and a second waiter on the key with another poll can clear the event in between
  (`DirectedWait.LostRun`); `DirectedWait.NoLostWakeupExactly` gives the exact condition.
- In `promote_frontend` as its statements stand, an interruption after `promoted = True` and before the end of the
  `try` undoes the promotion; if that fails too, the `finally` clause deletes the backup, and neither tree is left
  (`FrontendPromotion.LostExactly`). This is about statements: CPython 3.11 delivers signals at calls and backward
  jumps, and none lies there.
- A task with an empty identifier that ends a page gets a cursor that cannot be decoded, and the walk stops short
  there. Exactly on boards where no page is cut at such a task does a walk come to its end
  (`BoardPagination.WalkShowsDone`).

## Model

| member | source | states |
|---|---|---|
| `InboxRuns.SubmittedOnceInOrder` | backend/claude_hub/services/chat_message_inbox.py:598-694 | Over any run with crashes, restarts and failing saves no envelope reaches a provider twice, answers included, and on each tab messages reach it in strictly increasing sequence |
| `InboxRuns.MarkedBeforeProvider` | backend/claude_hub/services/chat_message_inbox.py:428-440 | When a provider is reached, `submission_started` is already set in memory, in the saved payload and in the file, and the envelope was never contacted before |
| `InboxRuns.AnswerMarkedBeforeProvider` | backend/claude_hub/services/chat_message_inbox.py:789-819 | The same for an answer |
| `InboxRuns.ProgressIsNeverLost` | backend/claude_hub/services/chat_message_inbox.py:428-694 | A started envelope stays started, never returns to queued or waiting, nor to dispatching once past it; a terminal message stays as it is, but that a scheduled one never submitted may come to be failed; in memory and in every file, over whole runs |
| `InboxRest.ReturnsFromDoubtExactly` | backend/claude_hub/services/chat_message_inbox.py:471-690 | Of all steps but a crash one takes a scheduled uncertain message back in memory, and only this one: the end of a `submit` for it that raises, not started, in an open inbox, with a save that succeeds; a crash does so if and only if the file already has it out of doubt |
| `InboxRest.HandlerOnDoubt` | backend/claude_hub/services/chat_message_inbox.py:646-690 | What the handler makes of such a message: back to waiting or failed, a RuntimeError in flight to waiting and another to failed, and what a failed save leaves in memory and file |
| `InboxRest.DoubtAndReturn` | backend/claude_hub/services/chat_message_inbox.py:471-690 | From any state in which a scheduled message was dispatched and its `submit` has not called back yet, a pass at start-up, or one ten minutes later with a probe that takes it for dead, puts it in doubt, and the end of that `submit` puts it back to waiting, where it blocks its tab again |
| `InboxRest.RestIsFinal` | backend/claude_hub/services/chat_message_inbox.py:236-472 | A message at rest, finished or scheduled and uncertain, that was submitted, is direct or has failed is so for ever, in memory, payload and file, through all restarts |
| `InboxRest.FileDeniesRest` | backend/claude_hub/services/chat_message_inbox.py:646-690 | The file can deny that a message is finished, or in doubt, as the memory has it, only after a step tried to take it from there and its save failed behind the replacement |
| `InboxRest.LeavesRestExactly` | backend/claude_hub/services/chat_message_inbox.py:236-690 | Of all steps but a crash two change the state of a finished message, or of one in doubt, in memory, and only if saved: the end of a `submit` as above, and a preparation that fails its entry, which makes any finished one failed; a crash does so if and only if the file says otherwise |
| `InboxRest.CancelledThenFailed` | backend/claude_hub/services/workspace_manager/scheduling/chat_runs.py:330-340 | For instance: from any state in which a message is being prepared, it can be cancelled and then failed, in memory and file |
| `InboxRuns.OneHolderPerTab` | backend/claude_hub/services/chat_message_inbox.py:602-614 | In memory, payload and file at most one message that the inbox dispatched itself is in flight and blocking on a tab; of any two that are, one has been in flight since a scheduler admitted it so |
| `InboxRuns.AdmittedSideBySide` | backend/claude_hub/services/chat_message_inbox.py:247-271 | The exception is real: from any open state of any run two messages that a scheduler admits in flight come to be in flight and blocking side by side on one tab |
| `InboxCrowd.CrowdedExactly` | backend/claude_hub/services/chat_message_inbox.py:247-641 | A step takes a tab from at most one message under way to two if and only if one is under way and the step saves the admission of another in flight, or dispatches one that was picked before and prepared since; a crash if and only if the file has both |
| `InboxRuns.OneConversationPerEpoch` | backend/claude_hub/services/chat_message_inbox.py:284-297 | Admissions and submissions in one incarnation and epoch never see two different non-empty conversations, even with A to B to A changes and epochs that a crash forgot |
| `InboxRuns.SubmittedWhereAdmitted` | backend/claude_hub/services/chat_message_inbox.py:431-440 | All saved sightings of one envelope, at admission and at submission, are of one incarnation and epoch, and if its admission saw a conversation, its submission saw that one |
| `InboxRuns.SubmittedInOwnEpoch` | backend/claude_hub/services/chat_message_inbox.py:428-440 | Over any run every message that ever reached a provider was let through by a callback that saw the message's own incarnation and epoch on its own tab |
| `InboxRuns.ObservedOncePerEpoch` | backend/claude_hub/services/chat_message_inbox.py:284-297 | Between two resets of `_closing`, while no save has failed, an epoch is observed with at most one non-empty conversation and epochs never go back |
| `InboxEpochs.ForgottenExactly` | backend/claude_hub/services/chat_message_inbox.py:212-297 | However a run goes on, with crashes and failing saves, it can come to observe an epoch with another conversation than a given one if and only if the saved payload is neither past that epoch nor pins that conversation in it |
| `InboxEpochs.CrashForgetsInRuns` | backend/claude_hub/services/chat_message_inbox.py:212-297 | After a crash, the run can do so if and only if the file it left is neither past the epoch nor pins the conversation |
| `InboxEpochs.CrashForgetsExactly` | backend/claude_hub/services/chat_message_inbox.py:284-297 | What the memory pinned when the process died can be observed otherwise, in the same epoch, by some observations of the next process, if and only if the file does not keep it |
| `InboxEpochs.FailedSaveForgetsExactly` | backend/claude_hub/services/chat_message_inbox.py:228-233 | What it pinned before a failed save can be, if and only if the last saved payload does not keep it |
| `InboxEpochs.ReobservedExactly` | backend/claude_hub/services/chat_message_inbox.py:284-297 | From a store some series of observations leads to an epoch with another conversation than `c` if and only if the store is not past that epoch and does not pin `c` in it |
| `InboxRuns.RunIsSafe` | backend/claude_hub/services/chat_message_inbox.py:212-829 | Every state of every run satisfies the invariant `Safe` of the memory, the saved payload, the file and all running tasks |
| `InboxRuns.CommittedOnlyEvolves` | backend/claude_hub/services/chat_message_inbox.py:212-234 | From any state of a run to any later one the saved payload only evolves: nothing saved is taken back |
| `InboxRuns.EverythingFollows` | backend/claude_hub/services/chat_message_inbox.py:212-234 | Memory and file follow everything that was ever saved |
| `InboxRuns.EveryStateRestores` | backend/claude_hub/services/chat_message_inbox.py:145-210 | Memory, payload and file of every reachable state dump to a payload that restores to the same state |
| `InboxRuns.AcknowledgedForEver` | backend/claude_hub/services/chat_message_inbox.py:354-356 | An identifier a receipt was returned for is in the memory and in every possible file for ever |
| `InboxRuns.FailedSave` | backend/claude_hub/services/chat_message_inbox.py:228-233 | After a failed save the memory is the last saved payload, the file is what it was or the attempted payload, and the inbox is closing |
| `InboxClosing.ClosedUntilRestart` | backend/claude_hub/services/chat_message_inbox.py:237-238 | While closing, no step but a new process or the end of `start` opens the inbox, and no other acknowledges, adds, dispatches, marks or moves any envelope |
| `InboxClosing.ClosedStaysClosed` | backend/claude_hub/services/chat_message_inbox.py:237-238 | Over runs: until the next reset the inbox stays closed, with the same acknowledgements and the same envelopes in the same states |
| `InboxClosing.StartUndoesClosing` | backend/claude_hub/services/chat_message_inbox.py:831-834 | In a process whose `start` has not ended, a closed inbox, closed by a failed save for instance, is opened by that end over the same memory and file |
| `InboxClosing.LateSave` | backend/claude_hub/services/chat_message_inbox.py:228-233 | Saves that still run while closing put back only states that were saved already |
| `InboxCalls.OneIntentPerCall` | backend/claude_hub/services/chat_message_inbox.py:313-324 | In memory, payload and file of every reachable state there are never two direct messages of one principal, tab, incarnation and call id |
| `InboxCalls.ReplayIsSettled` | backend/claude_hub/services/chat_message_inbox.py:311-324 | A send under the call id of a direct message that was ever saved makes no second one: same payload gives its receipt, or 410 once expired, another payload 409; an earlier scheduled entry is answered from instead only if it has the caller's own principal |
| `InboxCalls.TombstonesStay` | backend/claude_hub/services/chat_message_inbox.py:563-580 | An expired message keeps its identity, and stays expired, in memory and file for ever |
| `InboxCalls.OneAnswerPerQuestion` | backend/claude_hub/services/chat_message_inbox.py:719-784 | In every reachable store two answers to one question are one envelope |
| `InboxCalls.NamesItsAnswer` | backend/claude_hub/services/chat_message_inbox.py:170-179 | A question names an answer exactly when one is stored for it, and then that one, and is not open |
| `InboxCalls.ClaimedOnce` | backend/claude_hub/services/chat_message_inbox.py:730-787 | A claimed question keeps its answer and never opens again, in this process or a later one, and no further claim of it, from a callback or not, changes anything |
| `InboxCalls.ReceiptsStay` | backend/claude_hub/services/chat_message_inbox.py:184-191 | A callback receipt is never lost or changed and always names a stored envelope |
| `InboxCalls.AnswerSettlesItsQuestion` | backend/claude_hub/services/chat_message_inbox.py:799-827 | When an answer's submission ends, the one question it answers becomes resolved, stale or uncertain exactly as the answer completed, failed or may have been delivered, or stays claimed while it waits; with a first save that fails nothing has changed, with a second only the answer has |
| `InboxCalls.FinishedUnsentIsNeverSent` | backend/claude_hub/services/chat_message_inbox.py:378-440 | A message that became terminal without having been submitted is never submitted afterwards, in any run |
| `InboxCalls.CancelIsDurable` | backend/claude_hub/services/chat_message_inbox.py:378-389 | A receipt from `cancel` means cancelled in memory and saved payload, in the file too when this call did it, unsubmitted if it was queued or waiting, with no other message touched |
| `InboxCalls.TurnEndsOneMessage` | backend/claude_hub/services/chat_message_inbox.py:412-426 | A finished turn makes the first message that blocks under it completed, cancelled or failed exactly as its status says, a scheduled one by more statuses, saves that, and touches no other; with none it does nothing, and with a save that fails the memory is what was saved last |
| `InboxCalls.VerdictOnUnmovedEntry` | backend/claude_hub/services/chat_message_inbox.py:486-562 | A verdict of `reconcile` takes effect only if the entry kept its state at every moment since its evidence read began, with any number of passes that read it at once |
| `InboxCalls.SameStampSameState` | backend/claude_hub/services/chat_message_inbox.py:518-519 | If an entry has the same stamp at two times of a run it had the same state at all times in between |
| `InboxRestart.RestartLeavesNothingInDoubt` | backend/claude_hub/services/chat_message_inbox.py:446-562 | After the start-up pass every envelope is queued, waiting, terminal, uncertain or proven live, but for scheduled ones whose read failed; only unsubmitted ones with absent evidence are requeued; a failed scheduled read keeps state and start-up policy |
| `InboxRestart.ProofSettles` | backend/claude_hub/services/chat_message_inbox.py:516-562 | For each kind of evidence, the direct and the scheduled branch reach the start-up policy |
| `InboxRestart.AnswerSettles` | backend/claude_hub/services/chat_message_inbox.py:458-470 | An answer in flight goes back to queued if unstarted and to uncertain otherwise |
| `InboxRestart.StartupSettles` | backend/claude_hub/services/chat_message_inbox.py:456-562 | The loop settles one entry after another and touches no other |
| `InboxVerdicts.ReconcilePasses` | backend/claude_hub/services/chat_message_inbox.py:446-596 | An ordinary pass, for each kind of evidence and each state: live or unknown evidence moves nothing; a direct message without proof moves exactly if it is accepted for more than a minute, a scheduled one exactly if it is taken for dead, and then back to queued exactly if evidence is absent and it is unstarted; scheduled ones are read after ten minutes, and then each minute; nothing else changes but contents that expire |
| `InboxVerdicts.ReadPairJudges` | backend/claude_hub/services/chat_message_inbox.py:486-562 | In any run, between the begin and the end of one read, whatever happens meanwhile: if the entry has moved, its evidence does nothing, and otherwise makes of it exactly the same, in ordinary passes as at start-up |
| `InboxVerdicts.VerdictJudges` | backend/claude_hub/services/chat_message_inbox.py:520-562 | The verdict on an entry, as states before and after |
| `InboxVerdicts.RecoveredSince` | backend/claude_hub/services/chat_message_inbox.py:446-455 | A scheduled message keeps the policy of start-up exactly from the start-up that found it on its way for as long as it is |
| `InboxPass.ExamineRuns` | backend/claude_hub/services/chat_message_inbox.py:456-562 | One turn of the loop is the protocol steps that recover an answer, or begin a read and end or fail it, or none: a run that goes on by them comes to the world that `Examine` computes |
| `InboxPass.ReconcileRuns` | backend/claude_hub/services/chat_message_inbox.py:446-596 | From any run the steps of a whole pass, and no others, lead to the world that `Reconcile` computes, however its saves end |
| `InboxPass.RestartRuns` | backend/claude_hub/services/chat_message_inbox.py:446-596 | So any run of an open inbox can go on by a start-up pass to a world with nothing in doubt |
| `InboxPump.PumpLoop` | backend/claude_hub/services/chat_message_inbox.py:598-641 | The loop of `pump` ends, with any answers of the surroundings |
| `InboxPump.AgainLowersCount` | backend/claude_hub/services/chat_message_inbox.py:600-636 | Every `continue` lowers the number of messages that block the tab by one |
| `InboxPump.PickIsLowest` | backend/claude_hub/services/chat_message_inbox.py:602-614 | The picked entry has the lowest sequence of all that block the tab, and none of them is in flight |
| `InboxPump.RunPicksLowest` | backend/claude_hub/services/chat_message_inbox.py:602-614 | In every state of every run the messages are in sequence, which the loop of the class needs, and the pick has the lowest sequence of all that block the tab |
| `InboxPump.PumpLeavesNoGap` | backend/claude_hub/services/chat_message_inbox.py:598-641 | When `pump` submits or prepares an entry, all that blocked the tab before it are terminal, and entries of other tabs and kinds are unchanged |
| `InboxPump.PumpIdlesForAReason` | backend/claude_hub/services/chat_message_inbox.py:598-641 | `pump` rests only when closing, when nothing blocks the tab, when something is in flight, or when the head was told to wait |
| `InboxPump.MessageGetsThrough` | backend/claude_hub/services/chat_message_inbox.py:299-440 | A message sent to a tab with nothing before it, with a steady target and successful saves, is picked, passes its callback and is accepted, its mark in the file |
| `InboxProgress.SettlesHead` | backend/claude_hub/services/chat_message_inbox.py:598-694 | From any run in which nothing is in flight on a tab, the message at its head can be settled: completed after it reached its provider, or failed unsent if the tab has become another |
| `InboxProgress.QueueGetsThrough` | backend/claude_hub/services/chat_message_inbox.py:598-694 | From any such run, with a steady target, the whole queue of the tab can be worked off: exactly the messages that fit the target reach their provider, in order, and are completed, the others are failed, nothing blocks the tab any more, and no other entry has changed |
| `InboxHandler.HandlerExactly` | backend/claude_hub/services/chat_message_inbox.py:646-690 | For every message and failure: the end of a raising `submit` leaves a started message uncertain, an unstarted one waiting exactly if the failure is in the way or transient with tries left, and failed otherwise, with the new attempt count and what it says of it; a finished message is left alone, and so is everything else |
| `InboxHandler.TriedTwelveTimes` | backend/claude_hub/services/chat_message_inbox.py:598-690 | In any run: a message whose `submit`s go on raising transient errors is dispatched once for each, waits after each of the first eleven, or twelve if it is scheduled, reaches no provider, and is failed by the next one |
| `InboxHandler.CanBeTried` | backend/claude_hub/services/chat_message_inbox.py:598-690 | And any run that has such a message at the head of a tab can go on so, with any such errors |
| `InboxAnswers.AnswerGetsThrough` | backend/claude_hub/services/chat_message_inbox.py:789-829 | From any run a queued or waiting answer can be submitted: it reaches its provider once, is completed and resolves its question, and no other entry or question changes |
| `InboxAnswers.QuestionCanBeAnswered` | backend/claude_hub/services/chat_message_inbox.py:696-829 | From any run an open question can be answered by a new call within the limits: claimed, acknowledged, submitted once, and resolved |
| `InboxStore.RestoreAcceptsExactlyWellFormed` | backend/claude_hub/services/chat_message_inbox.py:145-210 | A dumped state is read back as itself if and only if identities are unique, question, answer and callback ownership is intact and callback nonces are readable; otherwise it is refused |
| `InboxStore.RestoresExactly` | backend/claude_hub/services/chat_message_inbox.py:145-210 | Any payload is accepted, as the state it describes, exactly if its version is one or two and that state is well formed, and the first two refusals have their conditions |
| `InboxStore.MemberCount` | backend/claude_hub/services/chat_message_inbox.py:164-168 | The duplicate test by set size finds exactly the repetitions |
| `InboxMoves.SaveKeeps` | backend/claude_hub/services/chat_message_inbox.py:212-234 | Saving a legal mutation, however the save ends, keeps memory, payload and file consistent and takes nothing back |
| `InboxMoves.EnqueueMoves` | backend/claude_hub/services/chat_message_inbox.py:299-356 | `enqueue` is one legal mutation or none |
| `InboxAdmission.SendExactly` | backend/claude_hub/services/chat_message_inbox.py:299-356 | A send is answered with a receipt for a new message, saved behind all others, exactly if the inbox is open, the target is found, no entry has this call, the Chat is not archived, the set of messages that block the tab leaves room for it in number and bytes, and the save succeeds; each refusal has its own condition, and changes no message |
| `InboxAdmission.AdmitExactly` | backend/claude_hub/services/chat_message_inbox.py:247-271 | The same of the admission of a scheduled message |
| `InboxAdmission.BacklogCounts` | backend/claude_hub/services/chat_message_inbox.py:327-340 | The two sums over the entries are the size and the bytes of the set of those that block the tab |
| `InboxMoves.DispatchMoves` | backend/claude_hub/services/chat_message_inbox.py:622-641 | A dispatch is at most three legal moves, of an entry that may be dispatched |
| `InboxTurns.DispatchExactly` | backend/claude_hub/services/chat_message_inbox.py:615-645 | A message whose target is gone is cancelled, one whose target cannot be had or has become another is failed, one whose target is not ready waits, and any other is dispatched with one attempt more, a scheduled one without an incarnation under that of the target |
| `InboxTurns.PumpTurnExactly` | backend/claude_hub/services/chat_message_inbox.py:598-645 | A turn does nothing exactly if the inbox is closing, nothing blocks the tab or something is in flight there, and otherwise prepares or dispatches the first message that blocks it |
| `InboxTurns.ResumeExactly` | backend/claude_hub/services/chat_message_inbox.py:624-645 | After its preparation a message that no longer blocks is passed over, one that is told a reason waits, any other is dispatched |
| `InboxTurns.CallbackExactly` | backend/claude_hub/services/chat_message_inbox.py:428-440 | The callback lets through exactly a dispatching message whose target is still the same and ready, or a dispatching answer, in an open inbox and with the mark saved |
| `InboxTurns.ReturnExactly` | backend/claude_hub/services/chat_message_inbox.py:691-694 | A `submit` that returns makes a dispatching message accepted, and no other anything |
| `InboxTurns.ObservedExactly` | backend/claude_hub/services/chat_message_inbox.py:284-297 | An observed target starts a new epoch of its key exactly if another conversation was pinned there, and is pinned |
| `InboxAdmission.CancelExactly` | backend/claude_hub/services/chat_message_inbox.py:378-389 | A cancel changes its message exactly if it is queued or waiting and can be saved; a cancelled one has its receipt again, and each refusal its condition |
| `InboxAdmission.CancelScheduledExactly` | backend/claude_hub/services/chat_message_inbox.py:273-282 | A scheduled message is cancelled exactly if it is queued or waiting, or if it is to be released and blocks |
| `InboxMoves.CommitProofMove` | backend/claude_hub/services/chat_message_inbox.py:516-562 | The locked part of `reconcile` is one legal mutation or none, and reopens nothing |
| `InboxMoves.ClaimAnswerMove` | backend/claude_hub/services/chat_message_inbox.py:708-787 | `claim_answer` adds answer, ownership and callback receipt in one legal mutation or does nothing |
| `InboxAdmission.ClaimExactly` | backend/claude_hub/services/chat_message_inbox.py:696-787 | A claim has exactly one of its outcomes: an open question with room for the answer is claimed, with answer and callback receipt in one save; a repeated callback or call gets the stored answer, 409 if it differs, 410 once that has expired; anything else its refusal, and changes nothing |
| `InboxTurns.AnswerBeginsExactly` | backend/claude_hub/services/chat_message_inbox.py:789-796 | An answer is taken up exactly if it is queued or waiting in an open inbox and that is saved |
| `InboxTurns.RecoveryExactly` | backend/claude_hub/services/chat_message_inbox.py:458-470 | Start-up queues an unstarted answer in flight again and leaves its question claimed, makes any other uncertain and its question too, and leaves all else alone |
| `InboxMoves.ExpireLegal` | backend/claude_hub/services/chat_message_inbox.py:563-596 | Expiry is a legal mutation: it drops the contents of messages and questions and keeps identities |
| `InboxTurns.ExpiryExactly` | backend/claude_hub/services/chat_message_inbox.py:563-580 | The contents of a message that is finished, or scheduled and uncertain, are dropped exactly when its last change is more than thirty days ago |
| `InboxTurns.FadingExactly` | backend/claude_hub/services/chat_message_inbox.py:581-594 | And the texts of a settled question exactly thirty days after its answer last changed, or after it was asked if it has none |
| `InboxSteps.StepIsSafe` | backend/claude_hub/services/chat_message_inbox.py:212-829 | Each of the thirty-three kinds of step, failing saves and crashes included, keeps the invariant and only evolves the saved payload; but for a crash or the end of `start`, no observed epoch is forgotten in an open inbox, finished and doubtful messages stay as they are but for the one entry the step stirs, and only the one it takes up comes to be under way |
| `InboxSteps.CrashIsSafe` | backend/claude_hub/services/chat_message_inbox.py:129-143 | A crash followed by a restart finds a file that restores to a safe state |
| `InboxSteps.PickedIsNext` | backend/claude_hub/services/chat_message_inbox.py:602-614 | What a pump picks is next in line: nothing dispatched holds the tab and nothing earlier blocks it |
| `ChatInbox.ChatMessageInbox.Open` | backend/claude_hub/services/chat_message_inbox.py:129-143 | `__init__` gives the restored state, or no inbox when the file is refused; a version 1 file is kept at the backup path unless one is there, and saved anew, without which there is no inbox |
| `ChatInbox.ChatMessageInbox.RestoreFrom` | backend/claude_hub/services/chat_message_inbox.py:159-210 | `_restore` in place, check by check: it accepts exactly what `Restore` accepts, and a refused payload changes nothing |
| `ChatInbox.ChatMessageInbox.OwnershipHolds` | backend/claude_hub/services/chat_message_inbox.py:170-176 | The loop over the questions accepts exactly intact ownership |
| `ChatInbox.ChatMessageInbox.TargetsExist` | backend/claude_hub/services/chat_message_inbox.py:177-179 | The loop over the answers accepts exactly targets that exist |
| `ChatInbox.ChatMessageInbox.ReceiptsOwned` | backend/claude_hub/services/chat_message_inbox.py:184-191 | The loop over the callback receipts accepts exactly those that name a stored envelope |
| `ChatInbox.ChatMessageInbox.NoncesReadable` | backend/claude_hub/services/chat_message_inbox.py:192-203 | The loop over the nonces accepts exactly records with a fingerprint and a finite expiry |
| `ChatInbox.ChatMessageInbox.SaveFile` | backend/claude_hub/services/chat_message_inbox.py:212-234 | `_save` in place is `Save` |
| `ChatInbox.ChatMessageInbox.ChangeState` | backend/claude_hub/services/chat_message_inbox.py:236-245 | `_change` in place is `Change` |
| `ChatInbox.ChatMessageInbox.ResolveTarget` | backend/claude_hub/services/chat_message_inbox.py:284-297 | `_target` in place is `Resolve` and returns the resolved incarnation |
| `ChatInbox.ChatMessageInbox.Send` | backend/claude_hub/services/chat_message_inbox.py:299-356 | `enqueue` in place is the operation of which `InboxAdmission.SendExactly` says when it answers what |
| `ChatInbox.ChatMessageInbox.SendScheduled` | backend/claude_hub/services/chat_message_inbox.py:247-271 | `admit_scheduled` in place is `AdmitScheduled` |
| `ChatInbox.ChatMessageInbox.CancelSend` | backend/claude_hub/services/chat_message_inbox.py:358-389 | `cancel` in place is `Cancel` |
| `ChatInbox.ChatMessageInbox.CancelRun` | backend/claude_hub/services/chat_message_inbox.py:273-282 | `cancel_scheduled` in place is `CancelScheduled` |
| `ChatInbox.ChatMessageInbox.Complete` | backend/claude_hub/services/chat_message_inbox.py:412-426 | `completed` in place is `TurnCompleted` |
| `ChatInbox.ChatMessageInbox.PickHead` | backend/claude_hub/services/chat_message_inbox.py:602-614 | The minimum by sequence and the in-flight test, as one loop, are `Pick` |
| `ChatInbox.ChatMessageInbox.DispatchHead` | backend/claude_hub/services/chat_message_inbox.py:622-641 | The turn of `pump` up to `submit` in place is `Dispatch` |
| `ChatInbox.ChatMessageInbox.BeginHead` | backend/claude_hub/services/chat_message_inbox.py:634-641 | Its last part in place, waiting for a reason or marking the dispatch, is `BeginSubmit` |
| `ChatInbox.ChatMessageInbox.ResumeHead` | backend/claude_hub/services/chat_message_inbox.py:615-641 | The turn after `scheduled_prepare` in place is `Resume` |
| `ChatInbox.ChatMessageInbox.Pump` | backend/claude_hub/services/chat_message_inbox.py:598-641 | The loop of `pump` in place is `PumpLoop`, and terminates by the number of blocking messages |
| `ChatInbox.ChatMessageInbox.MarkStarted` | backend/claude_hub/services/chat_message_inbox.py:428-440 | `_before_delivery` in place is `BeforeDelivery` |
| `ChatInbox.ChatMessageInbox.SubmitRaised` | backend/claude_hub/services/chat_message_inbox.py:646-690 | The handler of `pump` in place is the operation of which `InboxHandler.HandlerExactly` says what it makes of which message |
| `ChatInbox.ChatMessageInbox.SubmitDone` | backend/claude_hub/services/chat_message_inbox.py:691-694 | The end of a successful `submit` in place is `SubmitReturned` |
| `ChatInbox.ChatMessageInbox.ExamineEntry` | backend/claude_hub/services/chat_message_inbox.py:456-562 | One turn of the loop of `reconcile` in place is the turn of which `InboxVerdicts` and `InboxRestart` say what it makes of which entry |
| `ChatInbox.ChatMessageInbox.ExpireContents` | backend/claude_hub/services/chat_message_inbox.py:563-596 | The expiry loops in place are `ExpirePass`, prompts, options, reply texts and action digests of questions included, and save exactly if something changed |
| `ChatInbox.ChatMessageInbox.Reconcile` | backend/claude_hub/services/chat_message_inbox.py:446-596 | `reconcile` in place, of any kind, is the pass of which `InboxVerdicts.ReconcilePasses` and `InboxRestart.RestartLeavesNothingInDoubt` speak |
| `ChatInbox.ChatMessageInbox.ClaimQuestion` | backend/claude_hub/services/chat_message_inbox.py:696-787 | `claim_answer` in place is `ClaimAnswer` |
| `ChatInbox.ChatMessageInbox.BeginAnswer` | backend/claude_hub/services/chat_message_inbox.py:789-794 | `pump_answer` up to its suspension in place is `AnswerBegin` |
| `ChatInbox.ChatMessageInbox.EndAnswer` | backend/claude_hub/services/chat_message_inbox.py:799-827 | `pump_answer` after its suspension in place is `AnswerEnd` |
| `ImportCycles.CycleFinder.FindAll` | scripts/check_ai_metrics.py:312-345 | `_cyclic_components` reports exactly the strongly connected components with more than one module or a self-import, each once, pairwise disjoint |
| `ImportCycles.CycleFinder.Visit` | scripts/check_ai_metrics.py:319-340 | A recursive `visit` keeps Tarjan's invariant, leaves the stack below as it was, terminates, and leaves the right low link |
| `ImportCycles.CycleFinder.Read` | scripts/check_ai_metrics.py:324-329 | One successor is visited, folded in by index, or passed over |
| `ImportCycles.CycleFinder.PopComponent` | scripts/check_ai_metrics.py:330-340 | A module whose low link is its index is popped with everything above it, reported exactly if cyclic |
| `ImportCycles.CycleFinder.PopFrom` | scripts/check_ai_metrics.py:332-338 | The popping loop takes off exactly the stack from the module upwards |
| `ImportCycles.UpperPartIsScc` | scripts/check_ai_metrics.py:330-338 | The popped part of the stack is a strongly connected component of the graph |
| `ImportCycles.ComponentIsScc` | scripts/check_ai_metrics.py:312-345 | Every module has a component: what it reaches that reaches it back |
| `ImportCycles.CycleIffCyclicComponent` | scripts/check_ai_metrics.py:339-340 | A module lies on a directed cycle if and only if its component is a reported one |
| `ImportCycles.NoCyclicComponentIffAcyclic` | scripts/check_ai_metrics.py:339-345 | Nothing is reported if and only if the graph has no directed cycle |
| `ImportCycles.CheckRatchet` | scripts/check_ai_metrics.py:348-365 | The ratchet is silent if and only if the baseline is the set of cyclic components, with an empty baseline if and only if there is no cycle, and otherwise names every difference once, on its side, new ones first |
| `ImportCycles.RuntimeImportGraph` | scripts/check_ai_metrics.py:283-309 | The import graph is closed: its edges are the imported names that are modules |
| `BotGate.MutualExclusion` | backend/claude_hub/api/feishu_bot.py:304-317 | Over any interleaving of enter, acquire, timeout, release and leave, two coroutines never hold the critical section of one Bot |
| `BotGate.ExactRegistry` | backend/claude_hub/api/feishu_bot.py:275-301 | All users of a Bot share its one entry, whose count is their number; a Bot is registered exactly while somebody uses it; entries differ between Bots; there are at most 256 |
| `BotGate.LockedMeansHeld` | backend/claude_hub/api/feishu_bot.py:304-317 | A waiter can take the lock exactly when nobody holds the Bot's critical section |
| `BotGate.RefusedExactly` | backend/claude_hub/api/feishu_bot.py:275-294 | In any run a coroutine is refused exactly if its Bot is not in use and 256 others are |
| `BotGate.StepsExactly` | backend/claude_hub/api/feishu_bot.py:275-317 | Each step moves its own coroutine to its next phase and no other |
| `BotGate.CanGoOn` | backend/claude_hub/api/feishu_bot.py:304-317 | In any run every coroutine can take the steps of its phase |
| `BotGate.EnterKeeps` | backend/claude_hub/api/feishu_bot.py:275-294 | Entering keeps the invariant |
| `BotGate.LeaveKeeps` | backend/claude_hub/api/feishu_bot.py:297-301 | Leaving keeps the invariant and drops exactly the entries without users |
| `BotGate.RunKeeps` | backend/claude_hub/api/feishu_bot.py:275-317 | The invariant holds in every state of every run |
| `BotGate.GateRegistry.EnterRegistry` | backend/claude_hub/api/feishu_bot.py:275-294 | `_enter_gate_registry` on objects in place, with the 503 exactly at capacity for a new Bot |
| `BotGate.GateRegistry.LeaveRegistry` | backend/claude_hub/api/feishu_bot.py:297-301 | `_leave_gate_registry` on objects in place |
| `BotGate.GateRegistry.AcquireLock` | backend/claude_hub/api/feishu_bot.py:309-309 | The lock object after an acquisition |
| `BotGate.GateRegistry.ReleaseLock` | backend/claude_hub/api/feishu_bot.py:312-315 | The lock object after a release |
| `TabDispatch.NoStuckQueue` | backend/claude_hub/api/feishu_bot.py:134-185 | After any steps a registered queue has an active batch or its first pending item is a processor told to start; pending never exceeds nine, eight beside a batch; at most 256 queues |
| `TabDispatch.NothingIsLost` | backend/claude_hub/api/feishu_bot.py:255-272 | Every reserved item is in the pending list exactly while it waits, in the active list exactly while it is at work, and in no other queue; a dropped queue is empty |
| `TabDispatch.ClaimedOnceInOrder` | backend/claude_hub/api/routes/feishu_bot/message_dispatch.py:608-622 | No item is claimed twice and those of a tab are claimed in the order of reservation |
| `TabDispatch.OneBatchPerTab` | backend/claude_hub/api/feishu_bot.py:134-144 | Two queue objects of one tab are never both in use |
| `TabDispatch.NobodyOvertakes` | backend/claude_hub/api/feishu_bot.py:147-185 | No step puts anybody in front of a waiting item, and each claim on its tab takes somebody from in front of it or the item itself |
| `TabDispatch.ReservedExactly` | backend/claude_hub/api/feishu_bot.py:147-185 | In any run a message is reserved exactly if its tab has a queue or there are less than 256, and less than nine wait there, or eight beside a batch; it then waits behind all others of its tab, and otherwise nothing changes |
| `TabDispatch.PromotedExactly` | backend/claude_hub/api/feishu_bot.py:134-144 | Promotion drops a queue exactly if it serves nobody, and else only tells its first live item to start |
| `TabDispatch.CancelledExactly` | backend/claude_hub/api/feishu_bot.py:255-272 | In any run a cancelled item is marked and taken from the queue unless it was claimed, and others are at most told to start |
| `TabDispatch.ClaimedExactly` | backend/claude_hub/api/routes/feishu_bot/message_dispatch.py:608-622 | A claimed batch is the first part of the pending items, in order, each marked, and nobody else is touched |
| `TabDispatch.FinishedExactly` | backend/claude_hub/api/routes/feishu_bot/message_dispatch.py:624-632 | A finished batch leaves the same items waiting, each of its own with an outcome |
| `TabDispatch.PromoteRestores` | backend/claude_hub/api/feishu_bot.py:134-144 | `_promote_tab_dispatch` repairs the one broken clause of the invariant: that a registered queue is served |
| `TabDispatch.ReserveKeeps` | backend/claude_hub/api/feishu_bot.py:147-185 | Reserving keeps the invariant, refused or not |
| `TabDispatch.CancelKeeps` | backend/claude_hub/api/feishu_bot.py:255-272 | Cancelling keeps the invariant whatever has become of the item and its queue |
| `TabDispatch.ClaimKeeps` | backend/claude_hub/api/routes/feishu_bot/message_dispatch.py:608-622 | Claiming a first part of the pending items keeps the invariant |
| `TabDispatch.FinishKeeps` | backend/claude_hub/api/routes/feishu_bot/message_dispatch.py:624-632 | Finishing a batch keeps the invariant |
| `TabDispatch.RunKeeps` | backend/claude_hub/api/feishu_bot.py:134-272 | The invariant holds in every state of every run |
| `TabDispatch.TabDispatchQueues.PromoteQueue` | backend/claude_hub/api/feishu_bot.py:134-144 | `_promote_tab_dispatch` in place is `Promote` |
| `TabDispatch.TabDispatchQueues.ReserveItem` | backend/claude_hub/api/feishu_bot.py:147-185 | `_reserve_tab_dispatch` in place is `Reserve` |
| `TabDispatch.TabDispatchQueues.CancelItem` | backend/claude_hub/api/feishu_bot.py:255-272 | `_cancel_tab_dispatch` in place is `Cancel` |
| `TabDispatch.TabDispatchQueues.Candidates` | backend/claude_hub/api/routes/feishu_bot/message_dispatch.py:590-599 | The candidates are the longest first part of the pending items that match, and include the leader |
| `TabDispatch.TabDispatchQueues.ClaimBatch` | backend/claude_hub/api/routes/feishu_bot/message_dispatch.py:608-622 | `_claim_tab_dispatch_batch` in place, removal by removal, is `Claim` |
| `TabDispatch.TabDispatchQueues.FinishBatch` | backend/claude_hub/api/routes/feishu_bot/message_dispatch.py:624-632 | `_finish_tab_dispatch_batch` in place is `Finish` |
| `DirectedWait.NoLostWakeupExactly` | backend/claude_hub/services/directed_wait.py:27-71 | No wakeup is ever lost in any run, with any number of waiters and polls on a key, if and only if waiters are registered in the stretch that clears the event or no two waiters with different polls share a key |
| `DirectedWait.LostRun` | backend/claude_hub/services/directed_wait.py:52-64 | Otherwise a run of six steps loses one: a subtree waiter and a plain one on one key, and an event of a descendant |
| `DirectedWait.CheckKeeps` | backend/claude_hub/services/directed_wait.py:53-57 | A poll that clears the event keeps the invariant if and only if no ready waiter of the key stands between clearing and registration |
| `DirectedWait.CountsAreExact` | backend/claude_hub/services/directed_wait.py:49-71 | `subtree_waiters[key]` is the number of subtree waits in progress, and absent at zero, after every step and every way out |
| `DirectedWait.ReadyWaiterCollects` | backend/claude_hub/services/directed_wait.py:52-64 | A waiter with something to collect reaches a poll, and ends, by its own steps |
| `DirectedWait.EndsExactly` | backend/claude_hub/services/directed_wait.py:52-64 | At every step of every run a wait ends exactly by its own timeout or cancellation, or by its own poll if that finds something |
| `DirectedWait.PollExactly` | backend/claude_hub/services/directed_wait.py:53-57 | A poll that finds nothing clears the event and leaves its waiter blocked, or about to register, with every other waiter and event as it was; one that finds something leaves nothing of the wait |
| `DirectedWait.WaiterStepsExactly` | backend/claude_hub/services/directed_wait.py:45-71 | What each other step of a waiter does, and that no other waiter is touched |
| `DirectedWait.WakesExactly` | backend/claude_hub/services/directed_wait.py:22-29 | A series of wakes sets exactly the events it names, subtree ones exactly if there are subtree waiters, and tells exactly the waiters on events that were not set to go on |
| `DirectedWait.AppendKeeps` | backend/claude_hub/services/task_mailbox.py:498-510 | An append that wakes what it makes ready keeps every waiter woken or warned |
| `DirectedWait.WakeEachOnward` | backend/claude_hub/services/directed_wait.py:22-29 | A series of wakes sets every event it names, subtree ones if there are subtree waiters, and disturbs no other waiter |
| `DirectedWait.RunKeeps` | backend/claude_hub/services/directed_wait.py:31-71 | The invariant holds in every state of every such run |
| `DirectedWait.DirectedWaitCoordinator.WakeKey` | backend/claude_hub/services/directed_wait.py:22-25 | `wake` in place is `Wake` |
| `DirectedWait.DirectedWaitCoordinator.WakeSubtree` | backend/claude_hub/services/directed_wait.py:27-29 | `wake_if_subtree` in place is `WakeIfSubtree` |
| `DirectedWait.DirectedWaitCoordinator.WakeTaskConsumers` | backend/claude_hub/services/task_mailbox.py:498-510 | The loop over the ancestors is `WakeEach` |
| `DirectedWait.DirectedWaitCoordinator.BeginWait` | backend/claude_hub/services/directed_wait.py:45-50 | The head of `wait` in place is `Begin` |
| `DirectedWait.DirectedWaitCoordinator.PollOrClear` | backend/claude_hub/services/directed_wait.py:53-57 | The locked stretch in place is the poll of which `DirectedWait.PollExactly` says when it ends the wait |
| `DirectedWait.DirectedWaitCoordinator.RegisterWaiter` | backend/claude_hub/services/directed_wait.py:62-62 | `Event.wait` in place is `Register` |
| `DirectedWait.DirectedWaitCoordinator.EndWait` | backend/claude_hub/services/directed_wait.py:65-71 | The `finally` clause in place is `Leave` |
| `BoardPagination.WalkShowsDone` | backend/claude_hub/services/board_pagination.py:105-179 | Following the cursors over an unchanged board shows the sorted Done list from its start, each task once and in order; it comes to its end if and only if no page with another after it ends in an empty identifier, and then has shown all, in max(1, ceil(n / limit)) pages, `has_more` false exactly on the last |
| `BoardPagination.UnchangedShownOnce` | backend/claude_hub/services/board_pagination.py:105-137 | A Done task that stays as it is through all calls of a walk that came to its end is on exactly one page, once, whatever else is added, changed or deleted |
| `BoardPagination.NeverTwice` | backend/claude_hub/services/board_pagination.py:71-78 | Keys strictly rise from page to page, whatever happens to the board, so nothing with one key is shown twice |
| `BoardWalks.BoardShownWhole` | backend/claude_hub/services/board_pagination.py:105-179 | The walk over the whole function: following `next_cursor` over an unchanged board shows the sorted tasks that are not Done and then the sorted Done ones, from the beginning, `has_more` true on all replies but the last; all of them, each once, exactly if no reply with another after it ends in an empty identifier, and exactly then the last says that there is no more |
| `BoardWalks.CanFollow` | backend/claude_hub/services/board_pagination.py:105-179 | And every board with distinct identifiers has such a walk |
| `BoardWalks.UnchangedInOneReply` | backend/claude_hub/services/board_pagination.py:105-179 | Whatever else changes between the calls: a Done task that stays as it is through a finished walk is in exactly one reply, once, and a task of the first board that is not Done in the first reply, once, and in no other |
| `BoardWalks.RepliesNeverRepeat` | backend/claude_hub/services/board_pagination.py:71-179 | Whatever changes, keys of Done tasks strictly rise from reply to reply, and later replies have only those |
| `BoardWalks.ReplyShows` | backend/claude_hub/services/board_pagination.py:140-179 | A reply is the slice after its cursor, with all tasks that are not Done before it exactly if there is no cursor |
| `BoardWalks.RefusedExactly` | backend/claude_hub/services/board_pagination.py:140-155 | A call is refused exactly for a limit out of bounds, a blank cursor or one that cannot be decoded, in this order, and without a limit nothing is paginated |
| `BoardWalks.SortMeans` | backend/claude_hub/services/board_pagination.py:18-22 | Tasks changed last come first, of those the oldest first, and then by identifier |
| `BoardPagination.SliceIsFirstAfter` | backend/claude_hub/services/board_pagination.py:105-137 | A page is exactly the first `limit` Done tasks that follow the cursor; `has_more` and the next cursor say exactly whether and where there are more |
| `BoardPagination.OthersOnFirstPage` | backend/claude_hub/services/board_pagination.py:167-170 | Tasks that are not Done are on the first page, all of them, and on no other |
| `BoardPagination.CountsAgree` | backend/claude_hub/services/board_pagination.py:156-179 | `status_counts` names exactly the statuses on the board, each with the number of its tasks, and agrees with the total of Done tasks |
| `BoardPagination.LessIsTotal` | backend/claude_hub/services/board_pagination.py:18-22 | The sort keys are strictly and totally ordered |
| `BoardPagination.LessTrans` | backend/claude_hub/services/board_pagination.py:18-22 | and transitively |
| `BoardPagination.SortRanks` | backend/claude_hub/services/board_pagination.py:158-158 | With distinct identifiers the sorted list is strictly ranked and has the same tasks |
| `BoardPagination.SortSorts` | backend/claude_hub/services/board_pagination.py:158-158 | Sorting gives a sorted permutation, for any tasks |
| `BoardPagination.PagesAreFewest` | backend/claude_hub/services/board_pagination.py:127-128 | The number of pages is the least that has room |
| `BoardPagination.SplitDone` | backend/claude_hub/services/board_pagination.py:86-98 | The loop splits the tasks by status, in order |
| `BoardPagination.CountStatuses` | backend/claude_hub/services/board_pagination.py:156-156 | The counter, task by task, is `Counts` |
| `BoardPagination.PaginateDoneSlice` | backend/claude_hub/services/board_pagination.py:105-137 | The search loop and the slice are `Slice` |
| `BoardPagination.PaginateBoardTasks` | backend/claude_hub/services/board_pagination.py:140-179 | The whole function, with its counts and its errors in the source's order, is `Paginate`, whose replies `BoardWalks` is about |
| `FrontendPromotion.PromotionIsAtomic` | backend/claude_hub/service_launcher.py:237-273 | Interrupted, or with a failing rename, at any one point up to the `promoted` assignment, the live tree is the one before or the whole new one, or the error says it could not be restored and it is whole at the backup path |
| `FrontendPromotion.NeverWithoutATree` | backend/claude_hub/service_launcher.py:230-273 | Through any number of restarts with a fault each there is always a whole tree at the live path or at a backup path |
| `FrontendPromotion.LiveIsCurrent` | backend/claude_hub/service_launcher.py:230-273 | As long as no way back failed, the live tree is whole and that of the last restart that succeeded |
| `FrontendPromotion.LostExactly` | backend/claude_hub/service_launcher.py:269-273 | With any faults between any two statements, both trees are lost if and only if the interruption comes after `promoted = True`, the old tree is then not put back, and the cleanup gets at the backup |
| `FrontendPromotion.LostInRestartsExactly` | backend/claude_hub/service_launcher.py:230-273 | Through any number of restarts with any faults no whole tree is left, live or at a backup path, if and only if one of them was interrupted late and lost the last whole ones, and none after it brought a new one |
| `FrontendPromotion.TreesExactly` | backend/claude_hub/service_launcher.py:237-273 | With any faults, of the renames, the handler and the cleanup: which tree is at each of the three paths on every way out |
| `FrontendPromotion.ToldExactly` | backend/claude_hub/service_launcher.py:237-273 | And which error or success is reported: a failed way back, a failed promotion and an interruption each exactly when it was one |
| `FrontendPromotion.LateInterruptionLosesBoth` | backend/claude_hub/service_launcher.py:246-273 | An instance of that loss |
| `FrontendPromotion.CleansUp` | backend/claude_hub/service_launcher.py:269-273 | With complete removals the build path is empty on every way out, and the backup path holds nothing but the only copy of what was live |
| `FrontendPromotion.ServiceLauncher.PromoteFrontend` | backend/claude_hub/service_launcher.py:230-273 | The method in place, with its early returns, is `Promote` |
| `FrontendPromotion.ServiceLauncher.TryRenames` | backend/claude_hub/service_launcher.py:239-246 | The `try` block in place is `Try` |
| `FrontendPromotion.ServiceLauncher.Recover` | backend/claude_hub/service_launcher.py:247-268 | The `except` clause in place is `Handle` |

## Left out

- ChatInbox.ChatMessageInbox.Reconcile: is a pass that no other step interrupts, as at start-up; interleaved passes
  are the steps of the protocol that `InboxPass.ReconcileRuns` takes it apart into.
- InboxRestart.RestartLeavesNothingInDoubt: is about such a pass too; of interleaved ones
  `InboxCalls.VerdictOnUnmovedEntry` speaks.
- InboxProgress.QueueGetsThrough: says what a run can come to, not what it must; a provider may never answer.
- InboxAnswers.QuestionCanBeAnswered: says what a run can come to as well.
- InboxVerdicts.ReconcilePasses: is about a pass that no other step interrupts, with saves that succeed; of
  interleaved ones `InboxVerdicts.ReadPairJudges` speaks.
- InboxHandler.TriedTwelveTimes: is about tries one after the other; a conflict between them starts the count again,
  and start-up may queue a message again after its last dispatch, which is then tried once more.
- InboxRuns.SubmittedOnceInOrder: orders messages, not answers, which have no order of their own.
- InboxRest.LeavesRestExactly: speaks of one step; whether a `submit` ever ends is up to the provider.
- DirectedWait.NoLostWakeupExactly: speaks of losing a wakeup, not of how soon a woken waiter polls.
- TabDispatch.NoStuckQueue: does not say that a processor's coroutine ever claims, which is up to the event loop.
- TabDispatch.TabDispatchQueues.ReserveItem: without the interruption of a Dot answer, which marks active
  items as superseded and stops their turn on another service; no operation here reads that mark.
- Actors, e-mail addresses, source tabs, status URLs, turn metadata and `legacy_recovery`: carried, never decided on.
- Mirrors of questions but for their action digests, and retired cards.
- The texts of `callback_nonces` timestamps: a record is modelled as `float` reads it.
- JSON, fsync and file modes, and what is at the path when the save of a migrated file fails.
- `scheduled_changed`, `wake`, `retry_after`, `_run` and `stop`: they only decide when a pump runs; pumps run at any
  time.
- The lock held while `scheduled_prepare` is awaited: the protocol lets other steps in, which only adds runs.
- A pump that resumes in a closing inbox saves its late binding on an entry the inbox no longer holds; the model
  saves it on the entry itself.
- Writers of answers outside the inbox file, other than settling a question.
- Coalescing delays and reactions of the tab dispatch.
- The order in which an asyncio lock serves its waiters.
- The quiet exit of the ratchet without a package directory, the order of its lines, and how imports are found.
- Tasks without times, and the base64 text of cursors.
- `restart`, which stops the backend before promoting and starts it again afterwards.
