# Mailbot: authorized actions and benchmark arithmetic

Mailbot lets an agent propose actions on a mailbox. What an action may do to the mailbox is decided
elsewhere: by its tier, by a grant the user approved, by a cooling-off window, by a daily send cap and
by a pause switch, all of them rows in one SQLite database that several processes read and write, one
statement at a time. A benchmark beside it decides which model may do which task.

This project models both and proves what they promise.

**The action queue** is a state machine (`Queue.dfy`): every SQL statement, Graph call and clock
reading is one atomic step, and any number of drainers, verbs, sync, the user and the clock interleave
between steps. A step can also fail, raise, lose its reply or kill its worker. `Tables.dfy` gives each
SQL statement its effect; `System.dfy` adds the confirmation and grant tables and the chat boundary;
`Sensitive.dfy` is the separate "yes, escalate" handshake. The theorems are about whole runs of these
machines, and what can go wrong is shown by runs as well: `Reach.dfy` and `Flights.dfy` build them from
an empty database, step by step.

**The code's own control flow** is in `Worker.dfy`, `Verbs.dfy` and `Escalation.dfy`: `run_tick`,
`revert_action`, `mint_grant` and the others as methods on a mutable database (`Database.dfy`), with a
`Yield` before each statement in which everybody else takes any number of steps. The database keeps the
history it has come by: each step with the state it met, and whose step it was. Every statement is a step
of the machine, so the history is always a run the theorems speak of. A verb's contract gives its answer
as a function of the states its own statements met, with each refusal's reason, and says that a refusal
wrote nothing; a tick's contract gives its return value from what is on record of its drainer since it
began. How the world answers (Graph, a raising statement) is the method's free choice, and on record too.

**The benchmark** is in exact arithmetic over reals: Krippendorff's ordinal alpha (`MidRanks.dfy`,
`AlphaLaws.dfy`, `AlphaBounds.dfy`, `Agreement.dfy`, `Audit.dfy`), the Wilson interval (`Wilson.dfy`), the
Pareto frontier and the report's verdicts (`Pareto.dfy`, `Pricing.dfy`), the extraction scorer
(`Extraction.dfy`, `Counters.dfy`) and the runner (`Runner.dfy`). The loops are methods, proved against definitions that do not mention them: alpha, for
one, is the agreement of mid-ranks, with no counts, prefix sums or value domain in sight.

**Why a row ends as it does** is in `Reasons.dfy`: over whole runs, every dispatch stands on a read of its
email in the same claim, and every failed row was failed for the reason it bears. `Flags.dfy` follows the
read flag and the local categories through an action and its revert, with the queue's runs and anybody
else's changes interleaved.

Time is in microseconds. Stamps keep their text form where the code compares them as text.

## What does not hold as documented

Where the code and what it says about itself part ways, the model follows the code; each case is a
lemma, and wherever the case is one of runs, a run from an empty database.

- **A claimed row is not always one drainer's, and `applied` is not always final.** The notification of
  a failure is sent after the row is marked failed. If it raises, the catch-all marks the row failed
  again, by id alone, whatever has become of it meanwhile. So a replayed and applied action ends up
  failed (`LateWrites.AppliedRowFails`), and two drainers can hold one row (`LateWrites.RowIsHeldTwice`).
  No two drainers ever hold a row exactly if no such late write hits a claimed one
  (`Ownership.OwnedIffNoTrespass`), and an applied row is final exactly when no drainer still works on it
  (`Dispatches.AppliedIsFinal`). That each row is sent at most once does not depend on any of this
  (`Dispatches.AtMostOneDispatch`).
- **Replay cannot rescue a failed dispatch.** `action_history.action_id` is the primary key and the
  drainer inserts plainly, so a second drain of the row raises before Graph is asked. Replay accepts such
  a row (`Replays.FutileReplayIsReachable`) and no run ever applies it; a failed row that would pass
  everything else can be applied exactly if it has no history entry (`Replays.ReplayRescuesIff`).
- **The send cap is not 20 a day.** Of all sends that ever become `applied` on a UTC day, with k drainers,
  there are at most 20 + (k - 1), plus those stamped in the day's first second, plus one for each time a
  send of the day loses the stamp it was counted by (`SendCap.DailySends`), and a day is passed by nothing
  else (`SendCap.ExceededOnlyBy`). The first second is not counted because `terminal_at >= midnight`
  compares text, and "T00:00:00.4Z" sorts before "T00:00:00Z". A stamp is lost when a late failure, as
  above, is written over an applied send and the row is then replayed, which clears it
  (`SendCap.ReplayRefundsTheBudget`), or when that failure's own clock was read before the day or in its
  first second. No stamp is lost unless a verdict is written over an applied send
  (`SendCap.CapHoldsUnlessOverwritten`), which one drainer never does (`SendCap.OneDrainerNeverOverwrites`),
  nor any number of them whose notifications do not raise (`SendCap.QuietNotificationsNeverOverwrite`). For
  every k, any number of first-second sends and, with two drainers, any number of replays, a run reaches the
  bound (`CapRuns.BoundIsMet`).
- **Nor does the cap bound what Graph is asked for**, since only verdicts count: a day's calls are at most
  20 + (k - 1), plus one for each time a send of the day ceases to be counted and to be about to
  (`SendCalls.DailyCalls`), because its worker is lost before the verdict, or the verdict is stamped in the
  first second or, late, before the day, or a replay clears it (`SendCalls.LossesAre`). In the runs that
  reach the cap's bound they are as many as the sends (`CapRuns.BoundIsMet`).
- **The cooling-off window counts from the second of the proposal**, not from the moment, when the ticker
  reads the clock on a whole second: a proposal is due early exactly in the second after a whole-second
  cutoff (`CoolingOff.DueEarlyIff`), and can be sent at a given moment exactly when the window, counted
  from the beginning of its second, is over (`CoolingRuns.EarliestDispatch`).
- **A revert can leave its email hidden.** The soft-delete is cleared in a second write. A worker that
  dies between the two leaves the inverse row applied and the email deleted
  (`RepairRuns.CrashLeavesHidden`); an exception there leaves the row failed, and its replay is refused
  for that soft-delete (`RepairRuns.RaiseLeavesStuck`). In all other runs the email is visible again
  (`Repairs.RevertClearsSoftDelete`).
- **Reverting an action that had changed nothing does not restore.** The inverse of a flag or category action
  sets the opposite of what the original asked for, whatever was there before: the flag is back exactly if
  the original changed it (`Flags.RevertRestoresTheTrait`). Marking an email as read that was read already
  and reverting that leaves it unread (`FlagRuns.NoOpIsNotUndone`).
- **A grant's 24 hours and 10 minutes hold for UTC expiries with a fraction.** The expiry is compared as
  text, so a whole-second one lives a second longer and one in another zone is off by its whole offset, just
  that much and no more (`Timestamps.ExpiryOverrun`). Which moments a check can fall on is decided by the
  clock and the expiry (`ExpiryRuns.CheckMoments`); some run checks a dispatch 24 hours and 10 minutes after
  its confirmation, or later, exactly if the expiry's text outlasts the end of the mint window
  (`ExpiryRuns.LateCheckIff`), and there is a moment to ask for such a grant exactly if its expiry is written
  east of UTC, or in UTC on a whole second (`ExpiryRuns.LateExpiryIff`).
- **Actions without an email are never dispatched.** The boundary offers only proposals that name one
  email, so no batch grant and no grant for a mailbox rule, filter, delegated mailbox or fresh mail
  without an email id can be minted (`Approvals.EmailLessActionsNeverLeave`).
- **A sensitive dispatch can come more than twenty minutes after its phrase**, by as much as the database
  makes its two writes wait, that of the confirmation or the arm and that of the marker. If each write comes
  within some latency of the clock reading it follows, a phrase of a given age can let a dispatch through
  exactly if it is no older than twenty minutes and twice that latency (`Sensitive.OldestPhrase`); the twenty
  minutes hold exactly if there is none (`Sensitive.TwentyMinutesHoldIff`). Peeking adds nothing to it
  (`Sensitive.PeekingNeverExtends`).
- **One "yes, escalate" can authorize two emails.** It confirms the pending refusal and also sets the
  arm, and the arm fits any email (`Sensitive.OnePhraseTwoEmails`); it can do so only when it claimed a
  refusal (`Sensitive.TwoUsesOfOnePhrase`).
- **A resumed benchmark run may end with 0 on a smaller grid.** Tasks and models are taken from the
  recorded rows; the grid is complete exactly when those cover it (`Runner.ExitZero`,
  `Runner.ResumptionShrinksTheGrid`). Declining the cost gate also ends with 0
  (`Runner.NothingWithoutTheGate`), a grid with a reference-resolution cell can never be completed, because
  no prompt can be built for it (`Runner.ReferenceResolutionIsNeverRecorded`), and an interrupt
  that arrives while a row is being recorded ends the run with 130 but leaves that row `completed`
  (`Runner.DispatchRecords`).
- **A negative deviate is not refused** by the Wilson interval: strictly between no successes and nothing
  but successes it exchanges the bounds (`Wilson.NegativeDeviateExchangesBounds`), which are in order
  exactly otherwise (`Wilson.BoundsAreOrderedIff`).

A remark on `compute_verdict`: called directly with two points of one model at different costs it can
give another verdict from the frontier than from all points (`Pareto.SiblingHidesTheAlternative`). The
report never makes such points (`Pareto.ReportHasOnePrice`).

## Model

| member | source | states |
|---|---|---|
| Timestamps.TextOrderIsRankOrder | mailbot_api/actions/drainer.py:148-149 | the text order of two UTC stamps, character by character, is the order of instants except that a whole second comes after its own fractions |
| Timestamps.TextExpiryIsOutlasts | mailbot_api/db/queries.py:824-828 | when an expiry text, in any zone, still compares after the current time's text |
| Timestamps.ExpiryOverrun | mailbot_api/actions/authorization.py:194-195 | the last moment at which an expiry is live, in any zone: it is live then and at none after, and that lies its overrun past its instant |
| Phrases.CanonicalIffSameIds | mailbot_api/actions/user_confirmation.py:95-98 | two id lists have one canonical form exactly when they hold the same ids with the same multiplicities |
| Wording.ApprovalIff | mailbot_api/actions/user_confirmation.py:190-217 | a text approves a grant exactly if it is one of the seven phrases, in any case, inside stops, exclamation and question marks, quotes and blanks, inside whitespace |
| Wording.EscalationIff | mailbot_api/actions/user_confirmation.py:190-208 | and escalates exactly if it is one of the three, so wrapped; no text does both |
| Actions.InverseIsOpposite | mailbot_api/actions/reverter.py:60-65 | the inverse is the opposite mark or category change, never the action itself, and is undone by the action; every Tier-1 type but the move has one |
| Actions.ListsAgree | mailbot_api/actions/types.py:132-299 | sends are Tier 3, moves Tier 1 or 2, email-less types Tier 3; Tier 1 is what can be undone, Tier 2 the other moves and unsubscribing |
| Actions.DestinationIs | mailbot_api/actions/outlook_adapter.py:65-73 | a named folder is where a moved message goes; without one it goes to the archive, to junk, or to the inbox, by type |
| Ownership.OwnedIffNoTrespass | mailbot_api/actions/drainer.py:595-613 | in every run of any number of drainers: no two ever hold the same row, and a held row is `draining`, exactly if no MARK_FAILED that comes after its row's verdict hits a row another drainer holds |
| Ownership.QuietNotificationsKeepOwned | mailbot_api/actions/drainer.py:669-673 | if no notification raises, no two drainers ever hold the same row |
| Ownership.OneDrainerKeepsOwned | mailbot_api/actions/drainer.py:752-774 | nor if there is one drainer |
| Ownership.DrainingIsHeld | mailbot_api/actions/drainer.py:595-617 | as long as no worker dies in a row, every `draining` row is in the hands of a drainer that owes it a verdict, late writes or not, so idle drainers leave none |
| LateWrites.AppliedRowFails | mailbot_api/actions/drainer.py:601-613 | a run from an empty database in which an applied row becomes `failed` |
| LateWrites.RowIsHeldTwice | mailbot_api/db/queries.py:983-986 | a run from an empty database to a row that two drainers hold |
| Dispatches.AtMostOneDispatch | mailbot_api/db/queries.py:1010-1012 | whatever fails, is lost, crashes, is replayed or is failed late, the adapter is called at most once for each row, and each row is marked applied at most once |
| Dispatches.ReplayAfterDispatchIsFutile | mailbot_api/actions/drainer.py:307-328 | in no run, under any grants, is a row with a history entry that has not been applied sent again or applied |
| Replays.ReplayRescuesIff | mailbot_api/actions/replay.py:66-183 | a failed row that replay accepts and the checks would pass is applied by some run exactly if it has no history entry |
| Replays.FutileReplayIsReachable | mailbot_api/actions/drainer.py:713-727 | a run from an empty database to a row that replay accepts and that has been sent already |
| Dispatches.AppliedIsFinal | mailbot_api/db/queries.py:983-986 | no run ever rewrites an applied row, exactly if no drainer works on it other than to give it back |
| SendCap.DailySends | mailbot_api/actions/drainer.py:340-357 | over every run with k drainers at most 20 + (k - 1) sends ever become `applied` with a stamp on a UTC day, plus those stamped in its first second, plus one for each stamp of the day that is taken back; midnight crossings and replays included, each row counted once |
| SendCap.ExceededOnlyBy | mailbot_api/db/queries.py:1044-1048 | a day with more has a send stamped in its first second, or one whose counted stamp was taken back |
| SendCap.CapHoldsUnlessOverwritten | mailbot_api/actions/drainer.py:595-613 | no stamp is taken back, and the cap holds but for the first second, in a run in which no verdict is written over an applied send |
| SendCap.OneDrainerNeverOverwrites | mailbot_api/actions/drainer.py:752-774 | that is every run of one drainer |
| SendCap.QuietNotificationsNeverOverwrite | mailbot_api/actions/drainer.py:669-673 | and every run in which no notification raises |
| SendCalls.DailyCalls | mailbot_api/actions/drainer.py:705-727 | over every run with k drainers the adapter is called for at most 20 + (k - 1) sends on a UTC day, whatever it answers, plus one for each time a send of the day was neither counted nor about to be any more |
| SendCalls.LossesAre | mailbot_api/actions/drainer.py:195-234 | that happens only when a worker is lost with its verdict, when a verdict's stamp is not counted on the day, or when a replay clears one |
| CapRuns.BoundIsMet | mailbot_api/actions/drainer.py:675-682 | for every k, n, r (none for one drainer) and window, a run from an empty database with 20 + (k - 1) + n + r sends, and as many calls, on one day, n of them in its first second and r stamps taken back |
| SendCap.ReplayRefundsTheBudget | mailbot_api/db/queries.py:1020-1024 | the reset of a failed send takes it out of the day's count |
| CoolingOff.DueEarlyIff | mailbot_api/db/queries.py:1031-1034 | a proposal is due before its window is over exactly if the cutoff is a whole second and the proposal within the second after it |
| CoolingOff.SendsWaitOut | mailbot_api/actions/cooling_off.py:57-66 | no send is dispatched before its window is over, counted from the second of the proposal, or from its moment when no ticker reads the clock on a whole second |
| CoolingRuns.EarliestDispatch | mailbot_api/actions/cooling_off.py:50-60 | some run from an empty database sends at one moment what was proposed at another exactly if the window, counted from the second of the proposal, is over by then |
| CoolingOff.CancelledStaysUnsent | mailbot_api/actions/cancel.py:34-66 | a cancelled row is never written again and never dispatched, through every later path |
| Approvals.NoUnapprovedDispatch | mailbot_api/actions/drainer.py:389-446 | every Tier-2 and Tier-3 dispatch follows a check that found a live grant for that action and email, minted on its own consumed confirmation of the same ids, recorded for an approval phrase, within 24 hours and 10 minutes but for the expiry's overrun |
| Approvals.EmailLessActionsNeverLeave | mailbot_api/main.py:1032-1047 | every dispatched Tier-2 and Tier-3 row names an email and every grant names exactly one |
| Waiting.TierTwoWaitsForAGrant | mailbot_api/actions/propose.py:262-284 | in every run from an empty database a row of a Tier-2 type is `pending_grant` unless a grant of its type has been minted |
| Batches.BatchIsFirst | mailbot_api/db/queries.py:948-954 | a batch has at most 25 pending rows, each once; lower tiers come first, and within a tier none comes after one proposed a second later; what is left out comes no earlier, and only out of a full batch |
| Reasons.SentOnlyOnAFineRead | mailbot_api/actions/drainer.py:360-446 | over every run, each adapter call follows a read of its email by the same drainer in the same claim, which found the email stored and not deleted, and on Tier 3 with the marker of the proposal; only the inverse of a move below Tier 3 and a row without an email are not looked at |
| Reasons.FailedOnlyForItsReason | mailbot_api/actions/drainer.py:630-727 | over every run, each failed row bears a reason that one step of the run failed it for, and which held in the state that step met: the target gone, the marker changed, no live grant after half an hour, the cap reached, no folder, Graph's refusal, an exception, a second history row |
| Reasons.ReadDecides | mailbot_api/actions/drainer.py:367-446 | the row is failed for its target exactly if the read found none or a deleted one, for drift exactly if on Tier 3 it found another marker, and goes on exactly otherwise |
| Reasons.TierDecides | mailbot_api/actions/drainer.py:638-668 | Tier 1 looks for no grant, Tiers 2 and 3 look for one as of then, any other tier fails |
| Reasons.GrantDecides | mailbot_api/actions/drainer.py:398-423 | the row goes on exactly if a live grant covers it; without one a Tier-3 row fails exactly if it is more than half an hour old, and any other waits |
| Reasons.CapDecides | mailbot_api/actions/drainer.py:348-357 | a send goes on exactly if at most 19 count for the day |
| Reasons.CaptureDecides | mailbot_api/actions/drainer.py:283-304 | a move goes on exactly with the folder Graph reports, and fails otherwise |
| ExpiryRuns.CheckMoments | mailbot_api/actions/authorization.py:255-293 | some run from an empty database checks a Tier-2 or Tier-3 dispatch at one moment and makes it at another, against a grant of a given expiry, asked for after its confirmation at given moments, exactly if the mint accepts the expiry and the confirmation and the expiry's text is live at the check |
| ExpiryRuns.LateCheckIff | mailbot_api/actions/authorization.py:143-160 | some run checks a dispatch 24 hours and 10 minutes after its confirmation, or later, with a grant of a given expiry asked for at a given moment, exactly if the last live moment of the expiry is that late for the oldest confirmation the mint still takes |
| ExpiryRuns.LateExpiryIff | mailbot_api/db/queries.py:824-828 | some run does so with a given expiry exactly if it is written east of UTC, or in UTC on a whole second |
| Approvals.RunKeepsInvariant | mailbot_api/actions/user_confirmation.py:126-143 | confirmations are consumed once, grants stand on distinct ones, and checks saw live grants, in every run |
| Reverts.AtMostOneInverse | mailbot_api/actions/reverter.py:251-278 | any number of racing reverts, with or without a history row, queue at most one inverse per action |
| Reverts.MarkersComeFromTheReverter | mailbot_api/actions/propose.py:237-250 | a row that carries the revert marker was queued by the reverter and is a move |
| RoundTrip.RevertRestoresTheFolder | mailbot_api/actions/reverter.py:193-221 | when the inverse row of a move is `applied`, its move has taken the message back to the folder in the original's history; that is the one captured for the original's own move, and where that move found the message unless somebody moved it in between |
| Flags.RevertRestoresTheTrait | mailbot_api/actions/reverter.py:60-65 | when the inverse row of a flag or category action is `applied`, it has set that trait of that email to the opposite of what the original asked for, after the original did; so the trait is as it was before the original exactly if the original changed it, and is so still unless somebody has touched it since |
| FlagRuns.NoOpIsNotUndone | mailbot_api/actions/outlook_adapter.py:57-62 | a run from an empty queue in which an email that was read is marked read, reverted, and unread in the end |
| Repairs.RevertClearsSoftDelete | mailbot_api/actions/drainer.py:729-745 | when no drainer is at the repair of an applied inverse row any more, the repair was made, and the email is visible unless deleted again since, exactly if neither a crash nor an exception came between the two writes |
| RepairRuns.CrashLeavesHidden | mailbot_api/actions/drainer.py:730-737 | a run from an empty database to an applied inverse row, with no drainer on it, whose email is still deleted |
| RepairRuns.RaiseLeavesStuck | mailbot_api/actions/replay.py:119-160 | a run from an empty database to a failed inverse row whose replay is refused for its email's soft-delete |
| RoundTrip.DispatchedRowsAreInvertible | mailbot_api/actions/drainer.py:684-703 | every Tier-1 row this code has dispatched has an inverse: PRE_STATE_MISSING and INVERSE_UNAVAILABLE are for older rows |
| Pause.PauseAllowsOneMore | mailbot_api/actions/drainer.py:581-594 | from a stored pause to the next resume each drainer dispatches at most once more, and only if it was past its pause read |
| Pause.PauseReturnsTheRow | mailbot_api/actions/drainer.py:574-594 | in every run under a lasting pause, a drainer that claimed its row before it has seen the pause dispatches nothing, and is on its way to release the row, or has released it and left its tick, unless its worker died |
| System.SystemRunIsQueueRun | mailbot_api/actions/authorization.py:196-210 | a run of the whole system is a run of the queue under the grants of the moment, minting promoting waiting rows in its own transaction |
| Guarantees.EveryRunIsSafe | mailbot_api/actions/drainer.py:504-627 | for every run from an empty database: one dispatch and one application per row and one inverse per action, the cap over all sends that became `applied` and over all calls, without a stamp taken back if there is one drainer or no notification raises, a fine read before every dispatch, a reason behind every failure, Tier 2 waiting for its grant, the window, cancels, approvals, reverts and their repair, pauses at any point of it and the rows they give back, no row left `draining`, finality of applied rows, and ownership, each under its condition |
| Database.Database.Do | mailbot_api/actions/reverter.py:251-253 | one statement is one step, and extends the history the database has come by |
| Database.Database.Yield | mailbot_api/actions/reverter.py:251-257 | others' steps leave an actor where it stands, and what is on record of it as it was |
| Database.LinkedRuns | mailbot_api/actions/drainer.py:504-627 | the history is a run of the system |
| Tables.SelectDrainable | mailbot_api/db/queries.py:948-954 | the first 25 pending rows by tier and age: pending, distinct, ordered, and none left out that comes earlier |
| Worker.IsGrantValid | mailbot_api/actions/authorization.py:255-293 | the scan returns the first grant, by id, that covers the email and was live by the clock as read before |
| Worker.ProcessClaimedRow | mailbot_api/actions/drainer.py:630-703 | it raises exactly if one of its statements did, after the row's verdict or before it; otherwise it has written exactly one verdict, `applied`, `failed` with its reason, or `pending_grant`, and cleared the soft-delete of an applied revert; nothing is applied without a reading of the email, on record, that found nothing against it, and the reason is the target or drift exactly if that reading said so |
| Worker.Dispatch | mailbot_api/actions/drainer.py:705-749 | from the history row on, which is written before Graph is asked: one verdict, `applied`, or `failed` for what the provider answered, or the exception of a statement |
| Worker.DrainRow | mailbot_api/actions/drainer.py:574-617 | it met a pause exactly if the tick stops there or raises, and gave the row back exactly if it stops; otherwise the row has its verdict, or, after an exception, `failed` by the write of last resort, or is lost because that raised too |
| Worker.RunTick | mailbot_api/actions/drainer.py:504-627 | from what is on record of the drainer since the call: one pause read and at most one batch; the rows tried are the whole batch in order unless it met a pause or raised; no row is claimed twice; each claimed row met the pause, has a verdict written, or is lost; the return value is the claimed rows less the released one |
| Verbs.ProposeAction | mailbot_api/actions/propose.py:187-302 | refused exactly for what its arguments and its one read of the email say, with that reason and nothing written; otherwise one insert, the last row, in the status, tier and marker its type calls for |
| Verbs.ProposalStaysFine | mailbot_api/actions/propose.py:262-284 | what is proposed on an email passes the drainer's check on it as long as the email is there and, on Tier 3, has the marker it had; and fails it otherwise |
| Verbs.CoolingOffTick | mailbot_api/actions/cooling_off.py:57-66 | one update, after which no row is due at its cutoff |
| Verbs.CancelAction | mailbot_api/actions/cancel.py:34-66 | cancelled exactly when the row was still cooling off at the guarded update; no other row changes |
| Verbs.RevertAction | mailbot_api/actions/reverter.py:123-302 | its answer is the first refusal its two reads meet, the loss of its claim, or the row it queued, which undoes this very original: the captured folder and the marker, or the opposite mark |
| Verbs.ClaimAndInvert | mailbot_api/actions/reverter.py:242-302 | it inserts exactly if its claim found the history row not yet reverted; otherwise it answers ALREADY_REVERTED and has written at most the placeholder history row |
| Verbs.ReplayAction | mailbot_api/actions/replay.py:66-183 | its answer is the first refusal its reads meet, with nothing written, or none exactly if the guarded reset found the row failed, which leaves it `pending` without its stamp |
| Verbs.MintGrant | mailbot_api/actions/authorization.py:97-235 | refused exactly by the first structural gate, or for want of a fresh confirmation that it wins, with nothing written and no confirmation spent; otherwise a grant as asked for on its own consumed confirmation of the same ids, in one transaction with the promotion of every row waiting for the type |
| Verbs.ConsumeConfirmation | mailbot_api/actions/user_confirmation.py:126-143 | the call goes on exactly if it finds the newest confirmation of these ids fresh and nobody has consumed it by the update |
| Verbs.RevokeGrant | mailbot_api/actions/authorization.py:296-335 | refused exactly if the grant is unknown or already revoked at the one update; either way no later check finds it live |
| Verbs.FindLatestUser | mailbot_api/main.py:574-577 | the non-empty user message after which there is no other, or none exactly if there is none |
| Verbs.OffersConcat | mailbot_api/main.py:1020-1023 | a transcript's offers are those of its messages in order |
| Verbs.CallOffersConcat | mailbot_api/main.py:1023-1047 | and a message's those of its tool calls |
| Verbs.OneOffer | mailbot_api/main.py:1024-1047 | a tool call is an offer exactly if it names one email and an action of Tier 2 or 3; what the user says is none |
| Verbs.ChatTurn | mailbot_api/main.py:570-591 | the transcript's offers are recorded in order; a confirmation follows exactly if the latest user message is a grant approval and the claim finds the caller's pending approval not lapsed, and it is of that approval, fresh, unconsumed and of one email |
| Sensitive.SensitiveDispatchesAreAuthorized | mailbot_api/actions/user_confirmation.py:326-388 | every dispatch is let through by a marker of its own email and task under ten minutes old, left by an authorization on a source under ten minutes old that a phrase set; no source authorizes twice and no authorization leaves two markers; and the phrase is no older than twenty minutes and twice the latency of the writes |
| Sensitive.PursuedIff | mailbot_api/actions/user_confirmation.py:126-137 | the call goes on to consume a confirmation exactly if it is the newest unconsumed one of the pair and less than ten minutes old, and otherwise to the arm |
| Sensitive.WonIff | mailbot_api/actions/user_confirmation.py:138-143 | the update consumes that confirmation and no other, and wins it exactly if nobody has consumed it since |
| Sensitive.ArmWonIff | mailbot_api/actions/user_confirmation.py:294-323 | the arm is won exactly if it is set and less than ten minutes old, and gone either way |
| Sensitive.PeekedIff | mailbot_api/actions/user_confirmation.py:356-363 | the peek lets a dispatch through exactly if the pair's newest marker is less than ten minutes old |
| Sensitive.RefusalTakenIff | mailbot_api/actions/user_confirmation.py:235-265 | the phrase confirms the caller's refusal exactly if it is less than ten minutes old, and takes it away either way |
| Sensitive.OldestPhrase | mailbot_api/actions/user_confirmation.py:356-384 | with writes of a given latency some run lets a dispatch through on a phrase of a given age exactly if that is at most twenty minutes and twice the latency, less two instants |
| Sensitive.TwentyMinutesHoldIff | mailbot_api/actions/user_confirmation.py:126-143 | all runs keep to twenty minutes exactly if writes have no latency |
| Sensitive.PeekingNeverExtends | mailbot_api/actions/user_confirmation.py:356-363 | over any run, a pair is let through exactly as long as before, unless a fresh authorization of that very pair is completed |
| Sensitive.MarkersAreOfWinners | mailbot_api/actions/user_confirmation.py:365-388 | every marker was left, and stamped, by the call that won its authorization, as its very next statement |
| Sensitive.TwoUsesOfOnePhrase | mailbot_api/actions/user_confirmation.py:235-265 | two fresh authorizations by one phrase are one by its confirmation and one by its arm |
| Sensitive.OnePhraseTwoEmails | mailbot_api/main.py:579-589 | a run in which one phrase authorizes two emails |
| Escalation.Handshake.AuthorizeSensitiveDispatch | mailbot_api/actions/user_confirmation.py:326-388 | True exactly if the peek finds a live marker of the pair, or else its newest unconsumed confirmation is under ten minutes old and won, or else the arm is under ten minutes old when claimed; then a dispatch of exactly this email and task is on record, authorized, on a phrase no older than twenty minutes and twice the latency of the writes on record |
| Escalation.Handshake.Escalate | mailbot_api/main.py:579-589 | the pending refusal is confirmed exactly if it is there and has not lapsed at the claim; the arm is set either way |
| RetryLoop.RequestWithRetry | mailbot_api/actions/outlook_adapter.py:286-429 | at most five requests and one refresh, a refresh takes no backoff slot, the retry count, the error by status, the response exactly on success, no early and no late stop; each wait is what its 429 or 503 asks for and otherwise 1, 4, 16 seconds in turn, 1 after any other 5xx, so without such hints 0, 1, 5 or 21 in all |
| MidRanks.AlphaInRange | benchmark/agreement.py:176-178 | alpha lies in [-1 + 2/n, 1]; the clamp changes nothing |
| MidRanks.AlphaIsOneIffUnanimous | benchmark/agreement.py:66-69 | alpha is 1 exactly when every kept unit is unanimous |
| AlphaBounds.LowestAlpha | benchmark/agreement.py:143-178 | unless all scores are equal, alpha is -1 + 2/n exactly if every unit's mid-ranks average n/2 and the unit has two ratings or is unanimous |
| AlphaBounds.CopiedUnitsAlpha | benchmark/agreement.py:143-178 | m items scored with the same k ratings, not all equal: alpha is -(m - 1)/(m(k - 1)), and so 0 for one item of any number of raters |
| MidRanks.ExpectedIsPositive | benchmark/agreement.py:164-174 | with two different scores the expected disagreement and its denominators are positive, so the two later fallbacks are not reached |
| MidRanks.SpreadClosed | benchmark/agreement.py:150-158 | a sum over pairs of ratings is a variance |
| AlphaLaws.RaterOrderIsIrrelevant | benchmark/agreement.py:91-97 | alpha of units whose ratings are permuted |
| AlphaLaws.UnitOrderIsIrrelevant | benchmark/agreement.py:145-159 | alpha of permuted units |
| AlphaLaws.LabelsAreIrrelevant | benchmark/agreement.py:105-137 | alpha under any strictly increasing relabelling of the scores used |
| Agreement.MidIsCumulative | benchmark/agreement.py:123-137 | a value's mid-rank is its prefix sum less half its count |
| Agreement.PairsAreSpread | benchmark/agreement.py:150-158 | the code's sum over value pairs is the spread of the unit's ratings |
| Agreement.OrdinalDistances | benchmark/agreement.py:126-137 | the filled matrix holds the squared mid-rank distances |
| Agreement.KrippendorffAlphaOrdinal | benchmark/agreement.py:58-178 | the computed value is the agreement of mid-ranks over the units rated at least twice, or one of four refusals in their order |
| Audit.RatersPermuted | benchmark/agreement.py:91-97 | alpha of a score table with its raters in any order |
| Audit.ItemsPermuted | benchmark/agreement.py:91-102 | alpha of a score table with its items in any order |
| Audit.SingleRatingsAreIgnored | benchmark/agreement.py:99-101 | items at most one rater scored, anywhere, change nothing |
| Audit.UnitsAreThePairableItems | benchmark/agreement.py:99-102 | the units are the items two raters scored, in order and without exception |
| Audit.PresentAreTheScores | benchmark/agreement.py:91-97 | a unit holds its item's scores, each as often as it was given |
| Audit.OuterJoinIsInnerJoin | benchmark/anchor_stability_audit.py:323-343 | the padded outer join has the units of the inner join |
| Audit.AuditAllTasks | benchmark/anchor_stability_audit.py:300-362 | alpha over the padded lists is alpha over the paired anchors; it is the sentinel -1 exactly when there are none |
| Wilson.BoundsAreTheRoots | benchmark/stats.py:142-160 | center minus and plus radius are the two roots of (x - p)² = z² x(1 - x)/n, which is not exceeded exactly between them |
| Wilson.ScoreIsTheRoots | benchmark/stats.py:142-164 | for every deviate: the roots lie in [0, 1] with the estimate between them, and are the interval itself unless the deviate is negative, which exchanges them but for a snapped bound; clamps and snaps change nothing else |
| Wilson.BoundsAreOrderedIff | benchmark/stats.py:157-164 | the bounds are in order exactly if the deviate is not negative or the successes are none or all |
| Wilson.ScoreGrows | benchmark/stats.py:114-164 | more successes never lower a bound, whatever the deviate |
| Wilson.NegativeDeviateExchangesBounds | benchmark/stats.py:151-160 | a negative deviate exchanges the bounds |
| Pareto.DominatedFromTheFrontier | benchmark/stats.py:233-241 | every dominated point is dominated by a frontier point |
| Pareto.ComputeParetoFrontier | benchmark/stats.py:244-265 | exactly the undominated points, ties kept, in key order |
| Pareto.ExtractParetoPoints | benchmark/report.py:212-243 | one point per primary headline row, priced by the mean over the model's successful runs of the task, or 0 |
| Pricing.OnePoint | benchmark/report.py:216-243 | a row makes a point exactly if it is the primary one of the task's own metric |
| Pricing.PointsConcat | benchmark/report.py:226-243 | the points of rows are the points of each, in order |
| Pricing.PriceTimesRuns | benchmark/report.py:228-233 | the price times the number of the model's successful runs of the task is a hundred times their cost |
| Pricing.OneMoreRun | benchmark/report.py:228-233 | one more such run moves the price to the new mean |
| Pricing.OthersDoNotCount | benchmark/report.py:228-230 | failed runs and those of other tasks and models change nothing, wherever they stand |
| Pricing.PriceIsBetween | benchmark/report.py:228-233 | the price lies between a hundred times the cheapest run and the dearest |
| Pricing.VerdictIs | benchmark/verdict.py:99-135 | each verdict, if and only if: fewer than 15 samples; quality below the threshold; at it, with a cheaper point of another model on 15 samples that meets it too; with such points, none of which does; and hold in all other cases |
| Pareto.ReportHasOnePrice | benchmark/report.py:228-233 | all points of one model cost the same |
| Pareto.ReportVerdictIsOfAllPoints | benchmark/verdict.py:73-135 | for every current point of a report the verdict read off the frontier is the verdict all eligible points give |
| Pareto.FrontierDecides | benchmark/verdict.py:104-135 | so it is for any points of which the current model has none cheaper |
| Pareto.Suggest | benchmark/report.py:362-435 | for every task, rows and runs, each current point gets the verdict of all eligible points, and as target another, cheaper model on DEMOTE-valid, and there and on PROMOTE-needed the cheapest eligible undominated point that meets the threshold, missing only where none does |
| Extraction.GreedyIsUnique | benchmark/scoring/objective.py:318-331 | first-fit matching by similar summary, then by type, has one result |
| Extraction.TypesAreMatched | benchmark/scoring/objective.py:333-356 | each type is matched as often as predictions and expected actions allow |
| Extraction.TypeLevelIgnoresOrder | benchmark/scoring/objective.py:293-372 | the type-level counters depend neither on the order of predictions nor on similarity |
| Extraction.BatchIsConserved | benchmark/scoring/objective.py:280-381 | at each of the three levels tp + fp are the predictions and tp + fn the expected actions, and finer levels match no more |
| Counters.RowCountsAre | benchmark/scoring/objective.py:316-372 | a row's true positives are the matched predictions, of those the ones with a similar summary, and of these the ones with the same deadline; the other counters follow |
| Counters.EchoedRow | benchmark/scoring/objective.py:316-345 | predictions that repeat types and summaries are all matched, each with its own, whatever repetitions there are, and counted for the deadlines that agree |
| Counters.ExactScores | benchmark/scoring/objective.py:383-390 | predictions equal to the expected actions score 1 at all three levels, under any reflexive similarity |
| Counters.ApartBatch | benchmark/scoring/objective.py:333-340 | where no predicted deadline is an expected one, no deadline is counted right |
| Counters.F1IsOneIff | benchmark/scoring/objective.py:383-390 | F1 is 1 exactly if something was found and there is no mistake |
| Extraction.F1Grows | benchmark/scoring/objective.py:383-390 | F1 grows with the true positives when predictions and expected actions are fixed |
| Extraction.ScoreExtraction | benchmark/scoring/objective.py:254-396 | the counters and per-type tables are those of the greedy matching, conserved, each F1 is that of its level's counters, and f1_deadline ≤ f1_summary ≤ f1_type |
| Runner.BuildGrid | benchmark/runner.py:85-115 | the admissible cells that are not done, none twice |
| Runner.RunTable.Record | benchmark/db.py:63-104 | a cell the table has is refused |
| Runner.RunTable.RunDispatchLoop | benchmark/runner.py:379-443 | it leaves the rows, and ends, as `Dispatch` says |
| Runner.DispatchRecords | benchmark/runner.py:400-441 | a prefix of the cells is recorded, each row with the status its answer calls for and none but the last one stopping the loop; 0 exactly with all recorded and nothing in the way, 2 for the cap, 130 for an interrupt, in time to mark its row or not, an exception for a cell that cannot be put or is there already |
| Runner.RefusedIff | benchmark/runner.py:504-534 | a new run is refused exactly without tasks or models, a resumption exactly if nothing is recorded or it names other tasks or models than the rows have |
| Runner.NothingWithoutTheGate | benchmark/runner.py:541-557 | a refused invocation and one whose gate is not passed record nothing: a declined gate ends with 0, an unpriced one is a refusal exactly if a cell is left to do |
| Runner.RunTable.RunAsync | benchmark/runner.py:486-573 | it leaves the rows, and ends, as `Invoke` says of its arguments, the gate and the answers |
| Runner.InvokeIsRun | benchmark/runner.py:526-543 | an invocation that is not refused only adds admissible cells of its grid, none twice, and leaves all of them there if it ends with 0 past the gate |
| Runner.NothingTwiceNothingElse | benchmark/runner.py:504-543 | over a run and any resumptions, each as `Invoke` says, no cell is recorded twice and none outside the grid |
| Runner.ExitZero | benchmark/runner.py:526-557 | an exit with 0 leaves the full grid exactly when it was the new run or the rows found cover its tasks and models, unless the cost gate was declined, which records nothing |
| Runner.ReferenceResolutionIsNeverRecorded | benchmark/runner.py:204-208 | a grid with such a cell is never complete |
| Runner.ResumptionShrinksTheGrid | benchmark/runner.py:526-527 | a history from nothing: a new run over two tasks interrupted after its first cell ends with 130, its resumption without arguments ends with 0, and the grid is not complete |

## Left out

- What an HTTP request does: one dispatch is one call of the adapter, which may send up to five requests (`RetryLoop`); a request whose reply is lost and that is sent again can act twice in Graph.
- A phrase is a chat request whose latest user message is the phrase; a client that sends the same message again in a later request confirms or arms again, and the model counts that as another phrase.
- Graph effects of actions other than moves and read marks; a move is taken to put the message in the named folder. A local category is stored nowhere by this code: the model keeps what accepted rows have asked for.
- Failure reasons carry details in the code (the tier, the provider's answer, the exception's name); the model keeps their kind.
- What a notification writes; whether it raises is a step of its own.
- A well-known folder name in a move's destination and the folder id a later read reports for it are one value.
- `retry_count`, audit rows, logs and the recovery hints of proposals; an exception from the audit row of a paused tick would end that tick after the release.
- `resurrect_email` and the in-memory sensitivity-token registry.
- JSON oddities: payload values are null, text or numbers, and grant rows always hold a list.
- Phrases are normalized over ASCII letters and whitespace only.
- The calendar part of a stamp is taken to order like the second it denotes; offsets are whole minutes.
- Some clock readings are one step with the statement next to them: the stamp of a revocation with its update, the stamp of a failure with the statement that failed, the age checks of confirmations and arms with the statement they follow, a revert's `proposed_at` with its history read.
- Rounding: scores, costs, F1 and alpha are exact, and the square root in the Wilson interval is a given nonnegative number with the right square; `nan` scores are missing ones.
- Rater rows come in the order of their sorted names.
- The similarity of two summaries is a parameter of the scorer. An action type that is neither text nor missing is not modelled: the code can raise where it sorts the types; precision and recall per type are not computed.
- `score_classification`: its totals and macro averages would only add easy members.
- `bootstrap_ci`, the inverse-normal approximation and the rendering of reports, with the order in which suggestions are printed; called without thresholds the report section would suggest models against a threshold of 0, which `render_report` never does.
- Prices, prompts and answers of the benchmark: the cost gate and each cell's outcome are inputs.
