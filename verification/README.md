# Verified model of the game layer

This project models the gamified focus layer of the repository in Dafny and proves what its
services rely on. Rows of the database are values or objects; a transaction is one atomic step;
the clock, random draws and gear bonuses are inputs.

| files | subject |
|---|---|
| `session_types`, `session_engine` | focus sessions: rows, steps and the transition functions |
| `session_invariant`, `session_polling`, `session_verbs`, `session_order` | what evaluation and the verbs keep, and how polling commutes with time |
| `session_shape`, `session_ledger` | the part of it that holds whatever the clock reads |
| `session_laws`, `session_verb_laws` | what an evaluation and each verb do, row by row and step by step |
| `session_runs`, `session_start`, `session_theorems`, `session_polls_away`, `session_speedrun`, `session_clock` | whole runs of requests, and what they need of the clock |
| `session_objects`, `session_service` | the same engine over phase rows changed in place, and the request that persists it |
| `recurrence` | calendar rules of a daily and its scheduled units |
| `checks`, `check_laws`, `check_payout`, `check_example` | marks, shares, streak and what a day pays |
| `sweep_txns`, `sweep_protocol`, `sweep_laws` | the miss sweep as transactions, as concurrent instances that refine them, and what it charges |
| `daily_objects` | check scoring and one instance's sweep over rows changed in place |
| `economy`, `economy_laws`, `payout_laws`, `character`, `career`, `career_caps` | the scoring engine, stat points, and whole careers of a profile |
| `profile_objects` | the profile row changed in place |
| `ingest`, `ingest_objects` | batch ingestion of client events |
| `connector`, `budget`, `records` | free minutes, token reservations, the beat-your-best board |

Classes and loops are proved against functions. What those functions do is said a second time,
outright, in the `*Law` lemmas: over rows, steps, marks, points and amounts.

Where the code does not do what one might expect of it, the model follows the code:

- The banked seconds of an overflown pause depend on when the overflow is noticed
  (`SessionPolling.PollIndependence` says for which sessions); nothing else does.
- A request reads the clock before it waits for the session row, so a request that is overtaken
  applies an older instant after a newer one. Steps stay in order, pause banks out of debt and
  reads without effect exactly when that does not happen (`SessionClock.OrderNeedsTheClock`,
  `SessionClock.BanksNeedTheClock`, `SessionClock.PollsNeedTheClock`). The shape of a
  session, its verdicts, ledger ids and speedrun results hold for any list of calls.
- A direct check reads its day before it waits for the profile. Held up over midnight it books on
  a day that was already left, and takes it past its caps: they hold exactly when no day comes
  again after another one (`CareerCaps.CapsNeedNoReturn`, `CareerCaps.HeldUpOverMidnight`).
- The board dates a record by the earliest run at the best time, the record event by the first one
  committed (`Records.BoardMatchesRecords`).
- Awards of opposite signs, which a negative XP rate makes possible, do not add up
  (`EconomyLaws.SplitIsNeutralIff`, `EconomyLaws.NegativeAward`).
- Fragments of a check may pay less XP than the whole, never more. `CheckPayout.XpInFullIff` says
  exactly when they pay it in full, `CheckExample.TwoItemsPayNoXp` is a daily on which they pay
  none.
- A negative cap lets nothing through, so the bound on a day is the larger of 0 and the cap.

## Model

| member | source | states |
|---|---|---|
| SessionPolling.PollIndependence | app/game/session_engine.py:236-276 | Evaluating at t1 and again at t2 leaves the session, and emits the steps, that one evaluation at t2 does; the sessions are equal to the last column exactly when t1 = t2 or the session was not, at t1, paused in a focus phase over its seconds budget; then only the banked seconds of that phase differ |
| SessionPolling.OverflewIff | app/game/session_engine.py:127-148 | An evaluation meets an overflown pause exactly when the session it is given is live in a paused focus phase over its seconds budget: the replay never gets into one by itself |
| SessionPolling.EvaluateSettles | app/game/session_engine.py:236-276 | Evaluation is idempotent at one instant: a second one emits nothing and changes nothing |
| SessionPolling.AnySchedule | app/game/session_engine.py:236-276 | Any increasing schedule of polls, however dense, ends where one poll at the last instant ends (the seconds banked by an overflown focus pause aside), with the same steps in the same order |
| SessionPollsAway.PollsNeverMatter | app/game/session_engine.py:236-592 | Deleting every read from a run of reads and verbs whose clock readings are nondecreasing in the order of the row lock leaves the same final session (the seconds banked by an overflown focus pause aside) and exactly the same steps |
| SessionEngine.CompletionCloses | app/game/session_engine.py:251-276 | Each turn of the replay loop strictly shrinks the set of phases still open, so the loop ends |
| SessionInvariant.EvaluateKeeps | app/game/session_engine.py:89-276 | Evaluating later keeps the whole session invariant (phase order, time accounts, clean exit against abandon) and never changes the plan |
| SessionInvariant.CompletePhaseKeeps | app/game/session_engine.py:151-177 | Completing a phase keeps the invariant and moves the grace watch to the end of that phase |
| SessionInvariant.ResolveNoLiveKeeps | app/game/session_engine.py:104-124 | With no live phase: a finished plan ends cleanly, an absence past the grace abandons only when no focus phase was completed, and the invariant survives |
| SessionInvariant.PauseOverflowKeeps | app/game/session_engine.py:127-148 | A pause past its seconds budget kills the session at the instant the budget was spent, keeping every account |
| SessionInvariant.DeadlineKeeps | app/game/session_engine.py:199-233 | A blown time-boxed deadline fails the run at the deadline, never at the polling instant, and keeps the invariant |
| SessionInvariant.CloseKeeps | app/game/session_engine.py:89-101 | Closing a session skips what never started and leaves nothing live or pending |
| SessionVerbs.VerbKeeps | app/game/session_engine.py:279-592 | pause, resume, advance, stop and done keep the invariant, and a second evaluation at the same instant finds nothing to do, so the evaluate-verb-evaluate order of a request never reorders steps |
| SessionVerbs.QuietIff | app/game/session_engine.py:236-276 | Nothing happens at an instant exactly when the live phase is not due: its end, its pause budget and its deadline are all ahead |
| SessionVerbs.ResumeNeverOverflows | app/game/session_engine.py:310-331 | After an evaluation at the same instant resume can never take its abandon branch |
| SessionVerbs.DoneNeverTimesOut | app/game/session_engine.py:509-514 | After an evaluation at the same instant done can never take its timeout branch |
| SessionLedger.EvaluateFromPosts | app/game/session_engine.py:236-276 | Every step the replay emits is news: it was not recorded in the rows before, is afterwards, and says what the rows say; no two steps of a replay say the same thing |
| SessionLedger.VerbPosts | app/game/session_engine.py:279-592 | The same for the steps of every verb |
| SessionOrder.EvaluateFromInOrder | app/game/session_engine.py:236-276 | Replayed steps never go back in time and lie between the newest end and now |
| SessionOrder.QuietThenLater | app/game/session_engine.py:236-276 | If nothing was due at c, whatever a later evaluation emits happened at c or after |
| SessionOrder.VerbAt | app/game/session_engine.py:279-592 | Every step of a verb on a timer or speedrun session carries the instant of the verb |
| SessionRuns.TransactGood | app/game/session_service.py:479-499 | One locked request at an instant no earlier than the last either commits (invariant, nothing due, honest steps in order) or leaves no trace; a finish asked of anything but a speedrun is refused before the session is evaluated |
| SessionRuns.RequestLaw | app/game/session_service.py:471-561 | A request on a session that is over, or a finish asked of anything but a speedrun, changes nothing; otherwise it commits the evaluation alone when that ends the session, nothing when the verb is refused, and else verb and second evaluation at its own instant, in the order they are persisted |
| SessionRuns.RunGood | app/game/session_service.py:471-561 | The same over any run of reads and verbs whose clock readings are nondecreasing in the order of the row lock, a condition the SessionClock rows show to be exact |
| SessionShape.EvaluateShapes | app/game/session_engine.py:236-276 | Evaluating at any instant, earlier ones included, keeps the shape of a session and its plan |
| SessionShape.VerbShapes | app/game/session_engine.py:279-592 | So does every verb, on any session of that shape and whatever the clock reads |
| SessionRuns.RunPosts | app/game/session_service.py:471-561 | Over any list of calls, requests overtaking each other as they may, every step is news when it is posted, stays true of the rows, and no two steps say the same |
| SessionTheorems.RunShape | app/game/session_engine.py:89-177 | After any list of calls, whatever their clocks read: terminal phases, at most one live, then pending; nothing open once the session is over; a timer session ends cleanly only with a completed focus phase; rows only move forward and never once they are over |
| SessionTheorems.RunBooks | app/game/session_engine.py:151-177 | On every run whose clock readings are nondecreasing in the order of the row lock a completed phase satisfies ended = started + planned + paused within its pause budget |
| SessionTheorems.AbandonsOnce | app/game/session_engine.py:104-148 | Over any list of calls, whatever their clocks read, there is at most one session_abandoned step, never for a speedrun, at the session end; by absence or manual stop only when no focus phase was completed |
| SessionTheorems.SpeedrunOneVerdict | app/game/session_engine.py:368-399 | Over any list of calls, whatever their clocks read, a speedrun emits at most one of speedrun_completed and speedrun_failed, and which one is the final status |
| SessionTheorems.RunInOrder | app/game/session_engine.py:236-592 | The step instants of a timer or speedrun session never decrease over a whole run whose clock readings are nondecreasing in the order of the row lock |
| SessionTheorems.StopwatchPays | app/game/session_engine.py:402-475 | A stopped stopwatch satisfies ended = started + actual + paused and yields exactly min(100, actual div 1500) scored milestones at strictly increasing instants no later than now |
| SessionTheorems.IdsDistinct | app/game/session_service.py:37-38 | Over any list of calls, whatever their clocks read, all generated ledger ids differ from each other and from the two rows of the start request |
| SessionClock.OrderNeedsTheClock | app/game/session_service.py:486-488 | The steps of every session come out in time, whatever is asked at these clock readings, if and only if the readings are nondecreasing in the order of the row lock |
| SessionClock.BanksNeedTheClock | app/game/session_service.py:486-488 | No running phase ever owes pause time, whatever is asked at these clock readings, if and only if they are nondecreasing in the order of the row lock |
| SessionClock.PollsNeedTheClock | app/game/session_service.py:486-488 | Deleting the reads of a run changes nothing a later reader can see, whatever is asked at these clock readings, if and only if they are nondecreasing in the order of the row lock |
| SessionClock.OvertakenResume | app/game/session_service.py:486-488 | A pause that reads 5 and a resume that read 2 and waited, on an ordinarily started session, step back in time and bank -3 seconds |
| SessionService.LedgerIsComplete | app/game/session_service.py:253-272 | Persisting any list of calls with dedupe, whatever their clocks read, the ledger ends with the id of every transition, in order: dedupe drops none |
| SessionService.Ledger.Persist | app/game/session_service.py:253-272 | The loop that persists one evaluation appends exactly the ids not yet seen |
| SessionService.Action | app/game/session_service.py:479-499 | The imperative request commits exactly the transaction of the specification, rows and ledger, or reports an error with nothing to commit |
| SessionSpeedrun.PausesNeverBuyTime | app/game/session_engine.py:478-592 | Whatever reads, pauses and resumes come before, with clock readings up to d in any order, a speedrun declared done at d gets the status, result, elapsed time, margin and bonus that the start and d alone determine |
| SessionSpeedrun.StartOnTrack | app/game/session_service.py:310-322 | Every speedrun start request that gets a plan opens such a run |
| SessionSpeedrun.DoneVerdict | app/game/session_engine.py:478-592 | Declaring a run done in one request gives the verdict of the wall clock, the deadline case included |
| SessionStart.StartRests | app/game/session_service.py:310-322 | Every start request that gets a plan opens a session satisfying the invariant, its first phase running and nothing due |
| SessionStart.PlanLaw | app/game/session_service.py:279-310 | A request gets a plan exactly when its mode has what it needs: minutes for a box, a label and no minutes for an open run, a focus leg for a timer, and no run in other modes |
| SessionStart.StartLaw | app/game/session_service.py:374-407 | The session opened has the legs asked for, in seconds and in order, the first running and the others pending |
| SessionLaws.ReplayLaw | app/game/session_engine.py:151-276 | On any session and at any instant: a live focus phase or break is completed exactly when started + planned + paused has come, and only a focus phase is scored; the next phase starts at that instant exactly when the toggle for its own kind is on, and is then completed in its turn; otherwise it is left as it was, for the grace period |
| SessionLaws.WaitLaw | app/game/session_engine.py:104-124 | With nothing live: a finished plan ends at its newest end; pending phases wait 300 seconds from it and are then skipped, and the session is over, dead exactly when no focus phase was completed |
| SessionLaws.PauseWatchLaw | app/game/session_engine.py:127-148 | A paused focus phase kills the session exactly when its pauses exceed the seconds budget, at the instant they did, with the open pause banked |
| SessionLaws.DeadlineLaw | app/game/session_engine.py:199-233 | A live speedrun is failed exactly when it is time-boxed and its box is full, at that instant, with its outcome and two steps; a stopwatch is left alone |
| SessionVerbLaws.PauseLaw | app/game/session_engine.py:279-307 | A pause of a running focus phase keeps the session running exactly when pause count + 1 is within the budget, and otherwise kills it; it is refused exactly for a break or a paused phase; rows and steps |
| SessionVerbLaws.ResumeLaw | app/game/session_engine.py:310-331 | A resume banks the pause; it kills the session exactly when a focus phase has no seconds left in the budget; rows and steps |
| SessionVerbLaws.NothingToPause | app/game/session_engine.py:283-315 | With nothing live pause and resume are refused |
| SessionVerbLaws.AdvanceBreakLaw | app/game/session_engine.py:334-349 | A tap on a running break skips it and starts the next phase or ends the session; with another phase live it is refused |
| SessionVerbLaws.AdvanceIdleLaw | app/game/session_engine.py:350-356 | A tap with nothing live starts the first pending phase, and is refused when there is none |
| SessionVerbLaws.StopLiveLaw | app/game/session_engine.py:445-475 | Stopping leaves a live focus phase abandoned and a live break skipped, ended now with the open pause banked, and says so in the first step; pending phases are skipped; the session ends cleanly exactly when a focus phase was completed |
| SessionVerbLaws.StopIdleLaw | app/game/session_engine.py:461-475 | The same between two phases, with no phase to name |
| SessionVerbLaws.StopSpeedrunLaw | app/game/session_engine.py:368-411 | Stopping a speedrun loses it: a missed box or an open run given up, with its elapsed time, row and two steps |
| SessionVerbLaws.StopStopwatchLaw | app/game/session_engine.py:412-440 | Stopping a stopwatch records the time on it less the pauses, at any clock reading, one milestone per full 1500 seconds up to 100, and a clean end |
| SessionVerbLaws.DoneLaw | app/game/session_engine.py:478-592 | Declaring a run done: refused under a second, a miss when the box is full, and otherwise completed with exactly the outcome, margin, bonus, record and steps it earned |
| SessionVerbLaws.OnlyRunsAreDone | app/game/session_engine.py:497-499 | Nothing but the live phase of a running speedrun can be declared done |
| SessionObjects.FocusSession.Evaluate | app/game/session_engine.py:236-276 | The replay loop over mutable phase rows leaves the rows and returns the steps of the replay function |
| SessionObjects.FocusSession.ResolveNoLive | app/game/session_engine.py:104-124 | In place: the absence watch |
| SessionObjects.FocusSession.CheckPauseOverflow | app/game/session_engine.py:127-148 | In place: the pause watch |
| SessionObjects.FocusSession.CompletePhase | app/game/session_engine.py:151-177 | In place: completion and auto-start |
| SessionObjects.FocusSession.CheckSpeedrunDeadline | app/game/session_engine.py:199-233 | In place: the deadline watch; None leaves everything untouched |
| SessionObjects.FocusSession.SkipPending | app/game/session_engine.py:89-101 | The loop skips exactly the pending rows, one step each, and touches no other |
| SessionObjects.FocusSession.Pause | app/game/session_engine.py:279-307 | In place; None is the error raised before anything changes |
| SessionObjects.FocusSession.Resume | app/game/session_engine.py:310-331 | In place; None is the error raised before anything changes |
| SessionObjects.FocusSession.Advance | app/game/session_engine.py:334-356 | In place; None is the error raised before anything changes |
| SessionObjects.FocusSession.Stop | app/game/session_engine.py:402-475 | In place, all three modes |
| SessionObjects.FocusSession.Done | app/game/session_engine.py:478-592 | In place; None is the error raised before anything changes |
| SessionObjects.FocusSession.StopStopwatch | app/game/session_engine.py:412-440 | In place: the milestones and the accounts of a stopped stopwatch |
| SessionObjects.FocusSession.MilestoneSteps | app/game/session_engine.py:426-440 | The minute loop emits one milestone per 25 focused minutes, 100 at most |
| SessionObjects.FocusSession.AbandonSpeedrun | app/game/session_engine.py:368-399 | In place: a dead speedrun is a failed run |
| SessionObjects.FocusSession.FinishRun | app/game/session_engine.py:514-592 | In place: the rows and steps of a finished run |
| Recurrence.ScheduledUnits | app/game/daily_service.py:219-241 | The list is exactly the units of the range, ascending: scheduled days, or the Sundays of weeks that can be satisfied |
| Recurrence.PriorUnitsWalk | app/game/daily_service.py:244-267 | For n up to 6 and every kind the walk returns exactly the n newest units before the given one, newest first |
| Recurrence.CapLosesNothing | app/game/daily_service.py:258-266 | When 2200 days have been scanned without finding six units, there is no unit further back: the scan cap loses nothing |
| Recurrence.PriorUnitsUnique | app/game/daily_service.py:244-267 | Being the n newest earlier units, newest first, pins the list down |
| Recurrence.UnitsConcatenate | app/game/daily_service.py:219-241 | The units of adjacent ranges concatenate without gap or repeat |
| Recurrence.UnitsAreSatisfiable | app/game/daily_service.py:180-192 | Every scheduled unit has enough schedulable days of its own to be satisfied, so none is an unavoidable miss |
| Recurrence.SkippedWeekIsUnsatisfiable | app/game/daily_service.py:180-192 | A Sunday the rule skips could not have been satisfied by any choice of check days |
| Recurrence.WindowIsPrior | app/game/daily_service.py:244-267 | In a window of at most n + 1 consecutive units an earlier one is among the n prior units of a later one |
| SweepLaws.DayRuleLaw | app/game/daily_service.py:195-216 | The units of a daily or weekdays rule are the days in force, or those of them on its weekdays; in force means since the daily was created and since its rule was last changed |
| SweepLaws.IntervalRuleLaw | app/game/daily_service.py:195-216 | Of an every-n-days rule the days in force at a whole multiple, not negative, of the interval from its phase |
| SweepLaws.WeeklyRuleLaw | app/game/daily_service.py:165-192 | Of a times-per-week rule the Sundays whose Monday-to-Sunday week has at least as many days in force as the rule asks for |
| Checks.SharesNeverExceedOne | app/game/daily_service.py:297-437 | Over any sequence of checks, unchecks, restores, edits and misses, with the checklist replaced in between, the shares paid for one day sum to at most 1; a whole-day mark, once made, stays |
| Checks.FixedChecklistPaysExactly | app/game/daily_service.py:297-437 | With a checklist that stays, a day has paid exactly 1/N per item ever marked, and exactly 1 once the whole-day mark exists |
| Checks.StreakOncePerDate | app/game/daily_service.py:486-498 | The streak rises at most once per check date, whatever is unchecked, restored or replaced |
| Checks.CreditLaw | app/game/daily_service.py:486-498 | A check earns a streak day if and only if it completes a schedulable date for the first time and its unit has no miss on record |
| Checks.NoCreditAfterMiss | app/game/daily_service.py:486-498 | Once a unit is missed no check inside it earns a streak day any more |
| Checks.ScoreCheckLaw | app/game/daily_service.py:440-529 | An accepted check moves the marks, adds one ledger row of its day, and pays the share asked for up to what is left of one |
| Checks.ScoreCheckTouches | app/game/daily_service.py:440-529 | A check writes marks, streak and ledger rows and nothing else of the daily |
| Checks.TransitionPays | app/game/daily_service.py:297-357 | The share a transition asks for, on top of what the marks before stand for, is what the marks after stand for |
| CheckLaws.CheckLaw | app/game/daily_service.py:297-357 | After an accepted uncheck the slot is not done and, for an item, neither is the day; after an accepted check the slot is done, and the day is exactly when it was asked for or every item is done; all other marks stay; the streak rises by one exactly when the day of a rule is completed for the first time and its unit has no miss |
| CheckLaws.RowLaw | app/game/daily_service.py:360-437 | The ledger row of an accepted request: unscored when there was nothing to do, a part per item or what the items have not had, as far as the day has not paid it, and the XP and gold the profile really got |
| CheckLaws.RefusalLaw | app/game/daily_service.py:470-481 | A request is refused exactly for a malformed claim, an inactive daily, a date out of range, an item of another list, or an unknown difficulty with something to pay, in this order |
| DailyObjects.DailyRow.TransitionMarks | app/game/daily_service.py:297-357 | In place: the mark transition, its share, first completion, uncheck and reason |
| DailyObjects.DailyRow.PaidSoFar | app/game/daily_service.py:360-392 | The ledger loop sums exactly the scored rows of the day |
| DailyObjects.DailyRow.PayShare | app/game/daily_service.py:395-437 | In place: pays the clamped share through the engine and records what was paid |
| DailyObjects.DailyRow.ScoreCheck | app/game/daily_service.py:440-529 | In place: the outcome of a check, or the refusal reason with rows and profile as they were |
| CheckPayout.FragmentsNeverMint | app/game/engine.py:535-558 | However a day is split and whatever the rolls, it pays no more XP and gold than the best whole check among the fragments |
| CheckPayout.DayPaysInFull | app/game/engine.py:535-558 | With the daily cap out of reach, fragments whose shares reach 1 pay at least the whole check at their lowest gold base and at most the whole check at their highest, in spite of the rounding up |
| CheckPayout.SteadyDayPaysExactly | app/game/engine.py:535-558 | With one gold base that is exactly the whole check's gold |
| CheckPayout.StreakRaisesGold | app/game/engine.py:549-554 | The streak day of the completing check raises the gold base of its own fragment, up to a streak of 10000 |
| Checks.CompletedDayPaysGold | app/game/daily_service.py:360-437 | Over any run of deeds that leaves the checklist alone, a completed day has paid at least the whole check at the lowest gold base of its fragments and at most the one at the highest |
| CheckPayout.XpPaid | app/game/engine.py:535-558 | With one XP base and the daily cap out of reach, a day has paid the rounded parts its fragments asked for, up to the whole check |
| CheckPayout.XpInFullIff | app/game/engine.py:556-557 | The whole check's XP is paid if and only if the rounded parts asked for reach it |
| CheckPayout.EqualItemsPayInFullIff | app/game/engine.py:556-557 | A checklist of n equal items pays the whole check's XP if and only if n times the rounded n-th part reaches it |
| CheckExample.TwoItemsPayNoXp | app/game/daily_service.py:440-529 | Under the default rates both items of a trivial daily are checked, the day is complete, its share is paid in full, and it has paid no XP; the whole-daily check pays 1 |
| Checks.DayIsItsFragments | app/game/daily_service.py:360-437 | Over any run of checks, unchecks, edits and misses the ledger of a day is its fragments paid one after the other |
| Checks.DayNeverMints | app/game/daily_service.py:360-437 | So a day never holds more XP and gold than the best whole check among its fragments, and with one base out of the cap's reach the whole check's XP exactly when the rounded parts reach it |
| CheckPayout.ScorePaysFragment | app/game/engine.py:512-562 | Scoring a check moves the profile by exactly what the fragment adds to the day, the cap included |
| SweepProtocol.ConcurrentRefinesSequential | app/game/daily_sweep.py:56-221 | Under every interleaving of sweep instances and writers, crashes included, the committed rows are a legal sequence of transactions applied one by one in commit order |
| SweepProtocol.SweepIsSafe | app/game/daily_sweep.py:56-319 | From idle instances: every committed miss was legal when it committed, miss rows and events match one to one, seven consecutive units hold at most one frozen miss, and marks, payouts and profile stay sound |
| SweepProtocol.VerdictFromCommitted | app/game/daily_sweep.py:143-169 | The freeze verdict is a function of committed misses alone: neither the instance's stale memory nor the bounded read changes it |
| SweepProtocol.BoundedReadDecides | app/game/daily_sweep.py:136-142 | Re-reading only the unit's own week or day decides satisfaction like the whole history |
| SweepProtocol.TakeKeeps | app/game/daily_sweep.py:79-221 | Every step keeps one lock holder, one claim per unit, remembered misses committed, and what was read under the lock current; a commit is one legal transaction of the lock holder |
| SweepProtocol.DueUpTo | app/game/daily_service.py:270-275 | A unit is due exactly up to a last due day that the clock determines |
| SweepTxns.HistoriesAreHealthy | app/game/daily_sweep.py:79-221 | Every legal history of misses, checks and edits keeps freezes apart, misses and events matched with their verdicts, shares within one and the profile sound |
| SweepTxns.NewDailyIsHealthy | app/api/routers/game_dailies.py:105-136 | A daily nobody has checked or missed yet, with a sound profile, is where these histories start |
| SweepTxns.RollingFreeze | app/game/daily_sweep.py:143-169 | Any seven consecutive scheduled units hold at most one frozen miss, also when a later unit's miss was committed first |
| SweepTxns.ChargedOnce | app/game/daily_sweep.py:79-95 | No two transactions of a legal history charge the same unit |
| SweepTxns.NoCreditOnceMissed | app/game/daily_service.py:486-498 | A check committed after its unit's miss leaves the streak as it was |
| SweepTxns.MissKeeps | app/game/daily_sweep.py:143-221 | Recording a miss adds one event that tells its verdict, keeps the streak when frozen and clears it otherwise, and spends no freeze twice |
| DailyObjects.SweepSettles | app/game/daily_sweep.py:263-319 | After one undisturbed sweep of an active daily every due unit is charged or satisfied |
| DailyObjects.SweepAgainIsNothing | app/game/daily_sweep.py:263-319 | Sweeping the same units again changes nothing |
| SweepLaws.DueLaw | app/game/daily_service.py:270-275 | Due are the units of the last 35 days whose day ended three hours ago |
| SweepLaws.SweepChargesLaw | app/game/daily_sweep.py:41-53 | After a sweep of an active, rated daily a unit not charged before is charged exactly when it was due and, over the mark rows, neglected: its day has no done whole-day mark, or fewer days of its week in force than the rule asks for have one |
| SweepLaws.MissLaw | app/game/daily_sweep.py:143-206 | A charge records the miss, frozen exactly when no seven consecutive units hold an earlier miss or a later frozen one beside it; it breaks the streak exactly when not frozen, hurts the owner, and leaves one event |
| DailyObjects.DailyRow.EvaluateDaily | app/game/daily_sweep.py:263-319 | The imperative evaluation ends in the rows, events and profile of charging the due units in order and counts the misses; it raises, and counts nothing, exactly when the difficulty is unknown and some due unit is neither missed nor satisfied |
| DailyObjects.DailyRow.EvaluateUnit | app/game/daily_sweep.py:56-221 | In place: a due unit is charged exactly when that is legal, otherwise everything stays, and what the instance remembers stays committed |
| DailyObjects.DailyRow.FreezeVerdict | app/game/daily_sweep.py:143-169 | The two scans compute the verdict |
| DailyObjects.DailyRow.DueNow | app/game/daily_sweep.py:280-286 | The filtered list is exactly the units due in the look-back window |
| EconomyLaws.LevelUpsLaw | app/game/engine.py:226-239 | The level loop ends for all rates, keeps lower thresholds plus XP, stops below the next threshold, and gives a point and a full heal per level |
| EconomyLaws.CanonicalForm | app/game/engine.py:172-185 | Level and progress are determined by the XP they stand for |
| EconomyLaws.AwardXpLaw | app/game/engine.py:226-239 | An award raises the standing by exactly the applied amount, which the cap and the request bound |
| EconomyLaws.AwardsAdd | app/game/engine.py:226-239 | Awards of a then b on one day leave the profile one award of a + b leaves |
| EconomyLaws.SplitIsNeutralIff | app/game/engine.py:226-229 | With amounts of either sign splitting an award applies the same total if and only if the signs agree, the cap is spent or the sum fills it |
| EconomyLaws.NegativeAward | app/game/engine.py:307-349 | Such amounts occur: a negative XP rate per minute loads, and a focus phase then awards a negative amount |
| EconomyLaws.DefaultCurveRises | app/game/engine.py:172-185 | Under the default rates every level takes at least as much XP as the one before |
| Career.PointsConserved | app/game/engine.py:226-268 | Over any mix of scoring, deaths, allocation, distribution, class choice and respec: points owned = points at the start + levels gained - points lost to deaths; level at least 1, 0 < hp <= max hp, gold never negative, at most 100 allocated, progress below the threshold |
| CareerCaps.CapsHold | app/game/session_service.py:152-157 | Over a whole career, ingests on any days and session steps at the later of their own and the newest booked day, XP and gold booked on one day stay within what that day's caps had open, as long as no day is booked on again after another day was |
| CareerCaps.CapsNeedNoReturn | app/game/engine.py:219-248 | For requests on a list of days the caps hold for every profile, payload, draw and rates if and only if no day of the list comes again after another one; for XP and for gold |
| CareerCaps.ClockedRises | app/game/session_service.py:152-157 | When days are read nondecreasing in the order the profile is locked, the days booked on never fall, late session steps included, so none comes again |
| CareerCaps.CapsHoldInOrder | app/game/session_service.py:152-157 | Then the caps hold and nothing is booked on a day before the newest booked one |
| CareerCaps.ReturnOverbooks | app/game/engine.py:219-248 | On any list of days with a day that comes again after another one, a focus phase and two direct checks book 506 XP on a cap of 500 and 151 gold on a cap of 150 |
| CareerCaps.HeldUpOverMidnight | app/api/routers/game_dailies.py:266-270 | The case the code meets: a check that read its day before it waited for the profile, and got it after the next day was booked, takes the spent day past both caps |
| CareerCaps.DoBooks | app/game/service.py:314-316 | What one deed books comes out of what is open on its day; what books nothing earns nothing |
| Career.ScoreLands | app/game/engine.py:607-653 | Every accepted event comes down to one payment, one hp loss or nothing |
| PayoutLaws.FocusLaw | app/game/engine.py:307-349 | A focus phase is refused exactly for unusable minutes or an unknown difficulty; it pays minutes x rate x difficulty x crit, XP raised by int and rounded off, gold raised by per and rounded up, as far as the caps let it |
| PayoutLaws.SpeedrunLaw | app/game/engine.py:352-369 | A finished run pays like a focus phase of its length, plus the rounded flat bonus exactly when it earned one |
| PayoutLaws.HabitLaw | app/game/engine.py:372-432 | A good click pays by the drift step, XP raised by int and gold by per |
| PayoutLaws.CheckPaysLaw | app/game/engine.py:512-562 | A check is refused exactly for a malformed payload; it pays its unpaid part, XP raised by int, gold by per and the streak, up to the whole check less what was paid |
| PayoutLaws.MilestoneLaw | app/game/engine.py:451-474 | A stopwatch milestone pays XP that only the crit moves, and no gold |
| PayoutLaws.MarkerLaw | app/game/engine.py:646-653 | A marker event moves nothing |
| PayoutLaws.HurtLaw | app/game/engine.py:271-288 | A bad click, a claimed damage and a missed unit cost their weight by difficulty through the con shield, whole points and at least one; who has none left loses a level, all XP and gold and one allocated point |
| PayoutLaws.AnyStatCanGo | app/game/engine.py:251-268 | Any stat with points allocated can be the one that a death takes a point of |
| PayoutLaws.OtherStatsDontPay | app/game/engine.py:307-432 | Two profiles with the same str that differ in no stat but con and int earn the same gold, and in none but con and per the same XP, for every rewarding event |
| PayoutLaws.CritLaw | app/game/engine.py:188-196 | The crit multiplier is one, or base plus span as far as the strength takes it, up to the maximum, exactly when the roll is below a chance that grows with the strength |
| PayoutLaws.CurveLaw | app/game/engine.py:172-185 | XP to the next level: a line below 5, a constant at 5, then the multiple of the bucket size nearest to a quadratic, ties to the even one; at least 1 |
| Career.DeathLaw | app/game/engine.py:251-268 | A death costs one level (never below 1), all XP and gold and at most one allocated point, and revives at full hp |
| ProfileObjects.GameProfile.EarnXp | app/game/engine.py:226-239 | In place: the level loop |
| ProfileObjects.GameProfile.EarnGold | app/game/engine.py:242-248 | In place: gold under the cap |
| ProfileObjects.GameProfile.Die | app/game/engine.py:251-268 | In place: the revive cascade |
| ProfileObjects.GameProfile.LoseHp | app/game/engine.py:271-288 | In place: the shielded loss, and death exactly when it uses up the hp |
| ProfileObjects.GameProfile.ApplyEvent | app/game/engine.py:607-653 | In place: scores the event, or leaves the profile untouched when the payload is rejected |
| ProfileObjects.GameProfile.AllocatePoints | app/game/character_service.py:456-480 | In place: all checks pass before anything changes |
| ProfileObjects.GameProfile.DistributeUnspent | app/game/character_service.py:483-504 | The loop distributes min(unspent, 100 - allocated) points and leaves the even filling |
| ProfileObjects.GameProfile.ChooseClass | app/game/character_service.py:510-524 | In place: gated on the unlock and a clean slate |
| ProfileObjects.GameProfile.RespecStats | app/game/character_service.py:527-545 | In place: debits the cost and refunds every allocated point |
| Character.DistributeLaw | app/game/character_service.py:483-504 | Auto-distribution assigns min(unspent, 100 - allocated), each raised stat ends at most one above the lowest of the order with ties to the earlier, and that filling is unique |
| Character.DistributeTwice | app/game/character_service.py:483-504 | Points arriving in two batches end where one batch would have put them |
| Character.DistributePairLaw | app/game/character_service.py:483-504 | Auto-distribution raises only the pair of the class (all four without one) and evens it out: warrior str and con, mage int and per, healer con and int, rogue per and str, the first of the pair winning ties |
| Career.UnlockSticks | app/game/character_service.py:510-524 | The class unlock is sticky over any career: whoever once had it can pick a class exactly when they have none, whatever deaths and respecs took |
| Character.AllocationsAdd | app/game/character_service.py:456-480 | Two accepted allocations in a row are one allocation of their sum, stat by stat, with the points owned unchanged and the cap kept |
| Character.AllocateLaw | app/game/character_service.py:456-480 | An allocation goes through exactly when every stat named exists and gets 1 to 100 points, the balance covers them and at most 100 end up allocated; it moves exactly these points |
| Character.RespecLaw | app/game/character_service.py:510-545 | A pick needs no class and the unlock or level 10, a respec a class and its price; undone by the same pick and allocation it has cost exactly that price |
| EconomyLaws.ShieldLaw | app/game/engine.py:279-283 | More constitution never costs more hp |
| Character.FilledUnique | app/game/character_service.py:483-504 | Evenness and the number of points decide the result |
| Character.Lowest | app/game/character_service.py:496-499 | The pick is the lowest stat of the order, the earliest among equals |
| Ingest.SubmissionOrderIrrelevant | app/game/service.py:321-414 | A batch with distinct timestamps leaves the same profile and ledger under any permutation |
| Ingest.ReIngestIsNothing | app/game/service.py:317-331 | Sending a batch again, reordered or in part, on a later day changes nothing, and no id is in the ledger twice |
| Ingest.SplitBacklog | app/game/service.py:321-414 | An older batch followed by a newer one on the same day lands like the whole backlog at once |
| Ingest.OrderedLaw | app/game/service.py:321 | The order used is the one arrangement of the submission by timestamp, then place |
| Ingest.FoldIds | app/game/service.py:317-414 | Ids never repeat in the ledger and every id of the batch is in it afterwards |
| Ingest.IngestIsFold | app/game/service.py:415-423 | The post-scoring hook after the batch finds nothing left to distribute |
| Ingest.OneEventLaw | app/game/service.py:321-414 | A known id changes nothing; a new one leaves one row saying whether it scored, and the scored profile with its points spent when that is automatic |
| IngestObjects.GameAccount.IngestEvents | app/game/service.py:297-429 | The loop leaves the account of the fold and reports applied for exactly the events whose id is new and first in the order |
| Connector.AvailableMinutes | app/planner/connector.py:59-110 | Clip, sort and sweep return the window less the measure of the union of the events clipped to the window of their start day, and an error exactly when a well-formed event meets an hour off the clock |
| Connector.Measure | app/planner/connector.py:99-108 | One pass over the sorted intervals measures their union |
| Connector.ClipAll | app/planner/connector.py:74-97 | The clipped intervals cover exactly the busy seconds |
| Connector.OrderIrrelevant | app/planner/connector.py:59-110 | Input order and repeats do not matter |
| Connector.MoreEventsLessTime | app/planner/connector.py:59-110 | More events never free time |
| Connector.OneDayAddsUp | app/planner/connector.py:110 | For events of one local day busy and free minutes add up to the window: the floor at zero hides nothing |
| Connector.OneEventLaw | app/planner/connector.py:59-110 | One event takes from the window of the day it starts on, where it is held, what it covers of it |
| Connector.RoundLaw | app/planner/connector.py:110 | Busy seconds are rounded to the nearest minute, the even one of two |
| Budget.AlwaysBalanced | app/knowledge/budget.py:105-222 | Under any interleaving of requests the counter equals outstanding estimates plus settled actuals, is never negative, and exceeds the cap only by what settled requests overran; the row is there whenever it is needed |
| Budget.FreshDayBalances | app/knowledge/budget.py:105-164 | A day starts balanced: no counter row, every request still waiting |
| Budget.StepBalances | app/knowledge/budget.py:134-164 | A reservation is admitted if and only if it fits; right after it the counter is within the cap, and a refusal leaves no trace |
| Budget.ReserveLaw | app/knowledge/budget.py:105-222 | A reservation is admitted exactly when it fits, is undone by its refund, and leaves the actual spend once settled |
| Budget.RefundsUndo | app/knowledge/budget.py:167-196 | When every admitted request has been refunded the counter is back at zero |
| Budget.DayCounter.Reserve | app/knowledge/budget.py:105-164 | In place: the conditional update, with the row a refused request created rolled back |
| Budget.DayCounter.Refund | app/knowledge/budget.py:167-196 | In place: the keyed update; a missing row is skipped |
| Budget.DayCounter.Reconcile | app/knowledge/budget.py:199-222 | In place: adjusts by actual - estimate; a missing row is an error |
| Records.RecordsImprove | app/game/session_engine.py:551-590 | The record_set values of a label strictly fall, each names the one it replaces, and the last is the MIN query |
| Records.StandingIsLeast | app/crud/game.py:288-314 | The MIN query is the least eligible time, None exactly when the label has no eligible run |
| Records.FinishAnnounces | app/game/session_engine.py:551-590 | A finish emits a record_set step exactly when its time beats the MIN over the rows before it |
| Records.RecordSetter | app/crud/game_tracking.py:186-188 | The last record was set by the first run committed with the best time: a tie is no record |
| Records.SpeedrunBests | app/crud/game_tracking.py:180-228 | The single pass gives one line per label: least time, its first date, the number of runs and the first five rows |
| Records.RowOrderIrrelevant | app/crud/game_tracking.py:199-227 | Best time, date and count do not depend on the order of the rows |
| Records.BoardMatchesRecords | app/crud/game_tracking.py:180-228 | Board, MIN query and record events agree on the record; they agree on its date exactly when no run that only ties it, committed later, ended earlier |

## Left out

- Focus sessions count whole seconds; sub-second instants, which the code truncates, are not modelled.
- Amounts the code keeps as floats are exact reals; floating-point rounding is not modelled. Crit rolls, death picks and the habit drift step are inputs.
- A refused verb or payload is a rolled-back transaction: its state is the state before.
- The link checks of a start request (habit and task ids) and the step payloads beyond reason, milestone, record and bonus fields (the `activity_label` a record_set step repeats, for one).
- Habits: stored values, direction checks, drift and the auto-clicks that follow a scored focus phase. Good and bad clicks are scored as events with a given delta.
- Gear: the catalogue, purchases and the piece a death takes. The bonus of the equipped pieces is an input of every scoring call, so it may change between calls but not as a consequence of one.
- Notifications, achievements, avatar and journal rows.
- SessionRuns.RunGood: step order, pause banks and books over a run, and SessionPollsAway.PollsNeverMatter, assume that the instants requests read are nondecreasing in the order they get the session row. The code reads the clock first (app/game/session_service.py:486-488), so an overtaken request breaks the assumption; SessionClock proves that they then fail. Shape, verdicts, ledger ids and speedrun results do not depend on it.
- CareerCaps.CapsHoldInOrder: assumes days read nondecreasing in the order the profile is locked, and transitions persisted no earlier than their own day. CareerCaps.CapsHold does without, and CareerCaps.CapsNeedNoReturn says exactly when the caps hold. That batches read their day under the lock (app/game/service.py:309-316), so that only direct checks can bring a day back on one clock, is not part of the statement.
- SweepProtocol.ConcurrentRefinesSequential: the owner's profile row exists (creating a daily creates it), since without it there is no row to lock; the daily is deactivated, not deleted; its recurrence is fixed, so the re-parse under the lock and the `since` floor never bite. A PATCH of the recurrence in the middle of a sweep is not modelled.
- SweepProtocol.SweepIsSafe: mark rows and miss rows are each read in one step under the lock; the unlocked reads before it are separate steps.
- DailyObjects.DailyRow.EvaluateDaily: one instance on its own; what other instances do meanwhile is the subject of SweepProtocol.
- The whole-tick walk over all dailies in batches, and its per-daily fault isolation beyond a crash step.
- Checks.FixedChecklistPaysExactly: all scored rows of a day are visible to the sum (the code's time bound on the ledger query is there to make it so).
- Malformed recurrence blobs are the value None; parsing raw JSON is not modelled.
- Ingest.SubmissionOrderIrrelevant: the k-th applied event takes the k-th draw, habit and check events of a batch enter as their resolved engine event or as unresolvable.
- CheckPayout.DayPaysInFull: crits and the streak day of the completing check give the fragments of one day different gold bases; the sum is then bounded by the whole check at the lowest and at the highest base, not given to the coin.
- Connector.AvailableMinutes: whole seconds, and an event whose start and end are both aware or both naive.
- Budget.AlwaysBalanced: one user and one UTC day; a refund or reconcile after midnight, and a counter row deleted by hand, are not modelled.
- The final sort of the board by label, and the SQL of the filters around the MIN query.
- Planning, knowledge retrieval, authentication, synchronisation and the other services of the repository.
