# LockBot: a verified model of the allocator, its scheduler and its auditors

LockBot hands out nodes and cards of a cluster: exclusive and shared leases, booking queues with claim
windows, preemption, timed expiry. A scheduler thread drives expiry, and two offline auditors turn allocator
snapshots into verified allocated seconds. This project models those four parts in Dafny and proves what they
keep over whole runs. `dafny verify dfyconfig.toml` checks everything.

**How the allocator is modelled.** A resource (`Leases.Resource`) has a status, holders and a booking queue, all
of `Leases.Stake` records. `QueueRules` and `NodeRules` say what each command and the sweep do to one resource
(`EffectOn`), when a command is accepted (`Judge`), and what a whole command does to a state (`Step`): accepted
commands transform exactly the resources in their scope, refused ones nothing. `Runs` defines runs of timed
commands with a clock that never runs back. The programs themselves are imperative: `Slots.Slot` is one resource
updated in place, `QueueEngine` holds the validate-all-then-mutate-all loops over shared references, and the bot
classes are on top. Every method is proved equal to the abstract step, and all laws over runs are proved about
that step.

- `QueueInvariants`, `QueueFairness`, `QueueCaps`: well-formed states, duration cap, claim windows, lineages,
  order of service, per-user limits over whole runs.
- `QueueEffects`, `QueueVerdicts`, `QueueOrder`: what each command does and when it is accepted, in terms of the records
  alone; first come, first served over whole runs.
- `QueueWake`, `QueueMessages`: exact wake-ups of the queue bot, and the one message a sweep sends.
- `NodeRules`, `NodeEffects`, `NodeAlerts`, `NodeBots`, `DeviceBots`: lock and slock, their verdicts and effects, sweeps
  that absorb earlier ones, alerts exactly once.
- `CardKeys`, `QueueBots.QueueDeviceBot`: queues per card through a flat map of references to nested card lists.
- `Loading`: merging a saved state into the configuration, clamping leases to the maximum, losing nothing else.

**The scheduler** (`SchedulerRules`, `Scheduler`, `SchedulerRuns`, `SchedulerGuarantees`, `SchedulerTimes`,
`SchedulerExamples`) is a class with its tables, and a step system in which the thread's choice of a delay, wait, drain,
sweeps, accounting and re-push interleave with callers' add, remove and reschedule. The heap is a multiset of entries
with a least element. Each reschedule adds one more recurring entry, so a bot has at least one live entry, not at most
one.

**The auditors.** `LeaseFrames`, `ReportDedup`, `ReportOrder`, `ReportRuns`, `ReportScan`, `ReportCoverage`,
`ReportGaps`, `ReportChain`, `ReportTotals`, `ReportLeases` and `ReportAnalysis` are the first report; the `Audit`
modules are the second, which reuses the interval arithmetic. Totals are compared with an independent definition: the
number of allocations of a kind, mode and subject live at an instant in the frame that governs it, summed over the
instants of the window. Gaps and reasons for doubt are compared with their causes in the frames.

**Chunking** is the row splitter of the Feishu adapter, proved legal and minimal.

Where the code and what one would expect of it differ, the code is kept and the exact condition is proved:

- A negative warning lead makes a sweep oversleep (`OversleepsIffNegativeLead`). A bot's own configuration accepts one
  (`Config.__init__`, python/lockbot/core/config.py:95-118, does not look at the lead); the request schema of the web
  service only takes 30 to 3600 seconds (python/lockbot/backend/app/bots/schemas.py:17).
- A booking that times out is announced only if the same sweep prompts somebody, on this resource or another; otherwise
  it is dropped silently, even when the sweep sends a message about something else (`TimeoutIsAnnouncedIff`, with
  `AnnouncedByAnother` and `AlertedButSilent`).
- A lock on a queue resource that was loaded in shared mode drops the other sharers, live or not
  (`SharedLockDropsOthers`).
- A take revives lapsed, unswept bookings of other users in the per-user count. Nothing else does, so the cap holds over
  every run in which no take lifts a user above it, and only those (`CapOverRunsIff`, `TakeAdds`); `CapExceeded` is a
  run that goes past it.
- Saved bookings are not clamped on load; claiming one is what checks it (`LoadEstablishesCap`).
- Re-adding a bot without removing it keeps its generation. A failing sweep is charged to whatever instance is
  registered then, and that is the one swept exactly when no other was registered since (`ChargedIff`). A bot retired by
  the scheduler has five failures of its own exactly when nobody registered it again after the fatal one
  (`RetiredAfterFiveIff`). `ReplacedInPlaceIsCharged` and `SameGenerationIsRetired` reach both failures from an empty
  scheduler.
- The thread oversleeps no live entry by more than the time between working out its delay and beginning to wait
  (`NeverOversleeps`, `SlackIs`).
- The first report compares consecutive frames only when time passes between them, so a sequence number missing between
  frames of one instant, or a state that does not continue the last one, goes unnoticed (`NothingMissingIff`,
  `NothingComparedAtOneInstant`, `MissingFrameGoesUnnoticed`).
- Its bot set can depend on the order of the frames when frames of two bots conflict on one key (`BotsDependOnOrder`);
  `OrderFreeIff` says exactly when it does not. A report with such a conflict is never complete.

## Model

| member | source | states |
|---|---|---|
| `QueueFairness.LineageNeverGains` | python/lockbot/core/base_bot.py:173-181 | with renewals forbidden, over any run and any lineage (locked or booked, preempted, re-queued, reclaimed) the live seconds a user spends holding plus what it has left never exceed what it had at the start |
| `QueueFairness.TransitionPotential` | python/lockbot/core/base_bot.py:173-181 | with renewals forbidden no command at all increases the remaining-or-booked time of a user who keeps a stake |
| `QueueFairness.PassingTime` | python/lockbot/core/utils.py:70-75 | waiting costs a lease exactly its live seconds and a booking nothing |
| `QueueInvariants.RunKeepsWellFormed` | python/lockbot/core/queue_bot.py:97-512 | in every state of every run idle means no holders, exclusive means one, users are distinct across holders and queue, and no start lies ahead of the clock |
| `QueueInvariants.TransitionKeepsWellFormed` | python/lockbot/core/queue_bot.py:97-512 | the one-step form, for every command and the sweep |
| `QueueInvariants.RunKeepsCap` | python/lockbot/core/queue_bot.py:73-121 | once inside the maximum, no capped holder ever has more than the maximum left, whatever is renewed, claimed, taken or swept |
| `QueueInvariants.TransitionKeepsCap` | python/lockbot/core/queue_bot.py:73-121 | the one-step form |
| `QueueInvariants.RunKeepsClaimOrder` | python/lockbot/core/queue_bot.py:440-512 | in every state of every run only the head of an idle resource's queue is prompted |
| `QueueInvariants.ClaimWindowHistory` | python/lockbot/core/queue_bot.py:440-512 | a prompted head has been waiting, the same record on an idle resource, in every state since the run began or since the sweep that prompted it at exactly its start time |
| `QueueInvariants.PromptOrigin` | python/lockbot/core/queue_bot.py:440-456 | a prompted head was already waiting, the same record, or has just been prompted by this very sweep |
| `QueueInvariants.WindowIsExclusive` | python/lockbot/core/queue_bot.py:52-60 | while a head waits, any step after which somebody holds the resource is that user's lock or a take |
| `QueueInvariants.WindowTimesOut` | python/lockbot/core/queue_bot.py:497-512 | a sweep removes the prompted head if and only if 300 s have passed, and then prompts the next booker with a full window, the rest of the queue untouched |
| `QueueFairness.AcquisitionKeepsTheLine` | python/lockbot/core/queue_bot.py:97-245 | lock, book and take keep every other user with a live lease or a booking, in the same order of service, each with the same time to spend |
| `QueueFairness.PreemptedGoesFirst` | python/lockbot/core/queue_bot.py:230-245 | every preempted live holder goes to the front of the queue, in the order they held, each with exactly its remaining time; the old queue follows and the taker alone holds |
| `QueueFairness.SharedLockDropsOthers` | python/lockbot/core/queue_bot.py:57-121 | locking a resource loaded in shared mode keeps the other sharers' place if and only if none of them is still live |
| `QueueFairness.SharedLockExample` | python/lockbot/core/queue_bot.py:57-121 | a concrete shared resource where one sharer's lock ends the other's live lease |
| `QueueFairness.CapPerCommand` | python/lockbot/core/base_bot.py:168-172 | an accepted lock, book or take leaves the actor's claimed set inside the old one plus the targets, and within the larger of its old size and the cap |
| `QueueFairness.TakeOnOthersClaims` | python/lockbot/core/queue_bot.py:239-241 | a take changes another user's claim on a resource exactly where it un-prompts a lapsed, unswept booking |
| `QueueCaps.CapOverRunsIff` | python/lockbot/core/base_bot.py:168-172 | over every run a user's claims stay within the cap, or within what it claimed at the start when that was more, if and only if no accepted take by somebody else meets lapsed, unswept bookings of it that are too many with the claims it has |
| `QueueCaps.TakeAdds` | python/lockbot/core/queue_bot.py:239-241 | an accepted take adds to another user's claimed set exactly the resources where it revives a lapsed booking |
| `QueueCaps.NobodyElseAdds` | python/lockbot/core/resource_policy.py:16-25 | apart from such a take, no command of anybody else and no sweep gives a user a claim |
| `QueueCaps.TimeNeverAdds` | python/lockbot/core/resource_policy.py:16-25 | passing time only ends claims |
| `QueueCaps.CapExceeded` | python/lockbot/core/queue_bot.py:239-241 | a whole run from a fresh bot with a cap of one after which a user has claims on two resources |
| `QueueFairness.BudgetPerCommand` | python/lockbot/core/base_bot.py:146-158 | a request within its budget leaves the user on at most as many machines as before or as the budget allows, all cards of a machine counted once |
| `QueueRules.StepTransition` | python/lockbot/core/queue_bot.py:45-121 | a command changes only resources in its scope, each under the guard that acceptance establishes; a refused one changes none |
| `QueueOrder.NeverOvertaken` | python/lockbot/core/queue_bot.py:440-512 | first come, first served, over every run: as long as two users stay queued, the one ahead stays ahead |
| `QueueOrder.QueuedIff` | python/lockbot/core/queue_bot.py:97-512 | who is in a queue after a step: a lock, take or unlock takes its actor out, a booking adds its actor, a take adds the live holders it preempts, a kickout empties, and a sweep drops only a head whose 300 s window is over |
| `QueueOrder.NewcomerIsLast` | python/lockbot/core/queue_bot.py:164-175 | a new booking stands behind everybody already queued |
| `QueueOrder.PreemptedAreFirst` | python/lockbot/core/queue_bot.py:230-241 | live holders a take preempts stand before everybody already queued (and nobody else enters in front: QueuedIff, NewcomerIsLast) |
| `QueueEffects.SweepEffect` | python/lockbot/core/queue_bot.py:440-512 | a sweep keeps live leases in order, warned when due; on a resource nobody holds any more it prompts the head of the queue, now, or drops a head prompted 300 s ago and prompts the next; the rest of the queue does not move; exactly those users are told |
| `QueueEffects.ExpiringIff` | python/lockbot/core/queue_bot.py:466-490 | expiry reports exactly the unwarned holders who have run out or are inside the warning lead, each with what it has left |
| `QueueEffects.LockEffect` | python/lockbot/core/queue_bot.py:97-121 | an accepted lock leaves the actor the only holder of each target, for exactly the seconds booked or stated on top of what it had, its booking gone, the others' bookings in place, and nothing else changed |
| `QueueEffects.LengthenedLeaves` | python/lockbot/core/utils.py:70-75 | on a lease that has not run out, the actor then has exactly the old remainder plus the grant left |
| `QueueEffects.BookEffect` | python/lockbot/core/queue_bot.py:164-175 | an accepted booking goes last, unprompted, for the time asked; holders and other bookings stay |
| `QueueEffects.TakeEffect` | python/lockbot/core/queue_bot.py:219-245 | an accepted take: the taker alone holds, for the time asked; the preempted come first with what they had left, then the other bookings in order, prompts taken back |
| `QueueEffects.UnlockEffect` | python/lockbot/core/node_bot.py:259-269 | unlock is accepted if and only if the user has a lease or booking on every target, and takes exactly those away |
| `QueueEffects.UnlockAnyEffect` | python/lockbot/core/node_bot.py:240-245 | the bare unlock does the same on every resource |
| `QueueEffects.ReleasedMeans` | python/lockbot/core/node_bot.py:266-269 | after a release the user has nothing there, everybody else has the same record, and the resource is free if and only if nobody else held it |
| `QueueEffects.KicklockEffect` | python/lockbot/core/queue_bot.py:273-286 | kicklock ends every lease on its targets and keeps their queues |
| `QueueEffects.KickoutEffect` | python/lockbot/core/node_bot.py:287-298 | kickout empties its targets, queues included |
| `QueueEffects.OpkickEffect` | python/lockbot/core/queue_bot.py:309-333 | an operator kick ends the leases of one user, on the resource named or on all, and changes nothing else |
| `QueueEffects.QueuesSpared` | python/lockbot/core/queue_bot.py:273-333 | kicklock and the operator kick leave every queue as it is, whatever state was imported |
| `QueueVerdicts.LockVerdictIs` | python/lockbot/core/queue_bot.py:45-95 | a lock is accepted if and only if there is room under the cap, nothing is renewed against the rules, each target is held by the user or free with nobody else at the head of its queue, and each lease stays within the maximum; otherwise the first of these that fails is the reason |
| `QueueVerdicts.PromptedMayClaim` | python/lockbot/core/queue_bot.py:52-121 | whoever is prompted can claim: inside the window neither cap nor renewal rule refuses a lock for the booked time or less, and it leaves that user the only holder, from now for exactly that time, its booking gone |
| `QueueVerdicts.BookVerdictIs` | python/lockbot/core/queue_bot.py:150-163 | a booking is accepted if and only if there is room, the user has nothing on any target, and the time is within the maximum |
| `QueueVerdicts.TakeVerdictIs` | python/lockbot/core/queue_bot.py:195-218 | a take is accepted if and only if there is room, the user holds no target, nothing is renewed against the rules, and the time is within the maximum |
| `QueueVerdicts.PolicyIs` | python/lockbot/core/base_bot.py:160-182 | the cap refuses exactly when something new is asked for and there is no room; the renewal rule exactly when the user holds a target or claims more than it booked |
| `QueueVerdicts.ClaimedIff` | python/lockbot/core/resource_policy.py:16-25 | a resource counts for a user with a live lease there, or a booking unprompted or prompted less than 300 s ago |
| `QueueVerdicts.ExceedsIff` | python/lockbot/core/base_bot.py:139-158 | a request is over its budget if and only if it names a machine the user has nothing on and the machines would then be more than the limit |
| `QueueWake.SweepMissesNothing` | python/lockbot/core/queue_bot.py:458-572 | before the delay a sweep announces (or ever, if it announces none) another sweep changes no resource and reports nothing |
| `QueueWake.SweepWakesForAChange` | python/lockbot/core/queue_bot.py:518-572 | an announced delay above the one-second poll is the time of a real change |
| `QueueWake.SettledIff` | python/lockbot/core/queue_bot.py:460-512 | exactly which resources a sweep leaves unchanged; it reports nothing about those |
| `QueueWake.PollsEverySecond` | python/lockbot/core/queue_bot.py:536-541 | with an unprompted booking at the head of some queue the announced delay is one second |
| `QueueWake.RestsIff` | python/lockbot/core/queue_bot.py:518-572 | no delay is announced if and only if nobody holds anything that can run out and nobody is queued |
| `QueueWake.OversleepsIffNegativeLead` | python/lockbot/core/queue_bot.py:528-532 | no sweep ever announces a delay past a change if and only if the warning lead is not negative |
| `QueueMessages.Assemble` | python/lockbot/core/queue_bot.py:543-566 | the message of a sweep: expiry alerts, and, only if somebody was prompted, the cancelled bookings and the prompts; nothing if there is neither an alert nor a prompt |
| `QueueMessages.DeliveredIff` | python/lockbot/core/queue_bot.py:560-566 | alerts and prompts always reach people; a cancellation does if and only if the same sweep prompts somebody |
| `QueueMessages.CancelledIff` | python/lockbot/core/queue_bot.py:497-512 | a sweep over all resources reports a cancelled booking for exactly the timed-out heads of the queues of resources that are idle after expiry |
| `QueueMessages.TimeoutIsAnnouncedIff` | python/lockbot/core/queue_bot.py:440-566 | a booking that a sweep cancels is announced to anybody if and only if that sweep prompts a head on this or any other resource |
| `QueueMessages.AnnouncedByAnother` | python/lockbot/core/queue_bot.py:505-566 | two resources: the cancellation on one, with nobody behind it, is announced because of the prompt on the other |
| `QueueMessages.AlertedButSilent` | python/lockbot/core/queue_bot.py:505-566 | two resources: a message is sent for the lease that ended on one, and the cancellation on the other is not in it |
| `Expiry.SurvivorsIff` | python/lockbot/core/node_bot.py:413-447 | who survives expiry, and as which record |
| `Expiry.SettledFixpoint` | python/lockbot/core/node_bot.py:412-447 | a holder list with nothing due is left alone and unreported |
| `Expiry.FixpointSettled` | python/lockbot/core/node_bot.py:412-447 | the converse: a list left alone had nothing due |
| `Expiry.SettledUntil` | python/lockbot/core/node_bot.py:453-464 | nothing becomes due strictly before the earliest holder wake-up |
| `Expiry.UnsettledAt` | python/lockbot/core/node_bot.py:453-464 | at a holder's wake-up something is due |
| `NodeRules.RunKeepsUnqueued` | python/lockbot/core/node_bot.py:157-269 | every state a node or device bot reaches is well formed and has no queue |
| `NodeRules.RunKeepsNodeCap` | python/lockbot/core/node_bot.py:141-227 | in every state of every run no capped holder has more than the maximum left, however often a shared or exclusive lease was renewed |
| `NodeRules.TransitionKeepsCap` | python/lockbot/core/node_bot.py:141-227 | the one-step form |
| `NodeRules.AcquisitionSparesOthers` | python/lockbot/core/node_bot.py:157-227 | lock and slock leave every other user's lease exactly as it was |
| `NodeRules.LengthenShape` | python/lockbot/core/node_bot.py:219-227 | a shared renewal changes the duration and alert flag of that sharer alone, in place |
| `NodeRules.NodeCapPerCommand` | python/lockbot/core/base_bot.py:168-172 | the claimed-set bound for lock and slock |
| `NodeRules.NodeBudgetPerCommand` | python/lockbot/core/base_bot.py:146-158 | the machine budget for lock and slock |
| `NodeRules.SweepAbsorbs` | python/lockbot/core/node_bot.py:410-447 | sweeping at t1 and then at t2 gives the state of sweeping at t2 alone |
| `NodeRules.OnlyTheLastSweepMatters` | python/lockbot/core/node_bot.py:410-447 | any ascending sequence of sweeps leaves the state, and raises exactly the alerts, of its last one alone |
| `NodeRules.AlertedExactlyOnce` | python/lockbot/core/node_bot.py:410-447 | over any ascending sequence of sweeps an unrenewed lease is alerted exactly once if the last finds it due, and never otherwise |
| `NodeRules.AlertedIsReported` | python/lockbot/core/node_bot.py:425-441 | the alerts counted by these laws are those in the report |
| `NodeEffects.LockVerdictIs` | python/lockbot/core/node_bot.py:129-159 | a node lock is accepted if and only if there is room, no forbidden renewal, every target is free or exclusively the user's own, and every lease stays within the maximum |
| `NodeEffects.SlockVerdictIs` | python/lockbot/core/node_bot.py:192-218 | a shared lock is accepted if and only if there is room, no forbidden renewal, no target is in exclusive use, and every lease stays within the maximum |
| `NodeEffects.LockEffect` | python/lockbot/core/node_bot.py:162-173 | the user alone holds each target, exclusively, for exactly the seconds asked on top of what it had |
| `NodeEffects.SlockEffect` | python/lockbot/core/node_bot.py:219-227 | a sharer's lease grows where it stands by exactly the seconds asked, a new sharer comes last with them, and the others keep theirs |
| `NodeEffects.UnlockEffect` | python/lockbot/core/node_bot.py:258-269 | unlock is accepted if and only if the user has something on every target, and takes exactly that away |
| `NodeEffects.UnlockAnyEffect` | python/lockbot/core/node_bot.py:240-245 | the bare unlock does the same everywhere |
| `NodeEffects.KickoutEffect` | python/lockbot/core/node_bot.py:287-298 | kickout empties its targets |
| `NodeEffects.OpkickEffect` | python/lockbot/core/node_bot.py:311-335 | an operator kick ends the leases of one user, on the resource named or on all |
| `NodeEffects.SweepEffect` | python/lockbot/core/node_bot.py:410-447 | a sweep keeps live leases in order, warned when due, and frees what nobody holds any more |
| `NodeAlerts.AlertedOnceOverRuns` | python/lockbot/core/node_bot.py:410-447 | the same over whole runs, whatever other users do meanwhile: a lease its user neither renews nor releases, and no kickout ends, is alerted exactly once if the last sweep finds it due, and never otherwise |
| `NodeAlerts.OthersLeaveItAlone` | python/lockbot/core/node_bot.py:126-335 | no command of another user, kickout apart, touches a lease |
| `NodeRules.NodeSweepMissesNothing` | python/lockbot/core/node_bot.py:453-473 | before the announced delay a node or device sweep changes and reports nothing |
| `NodeRules.NodeSweepWakesForAChange` | python/lockbot/core/node_bot.py:453-473 | at the announced delay it does change something |
| `Leases.Find` | python/lockbot/core/utils.py:33-38 | the first record of a user, if any |
| `Leases.RemoveDistinct` | python/lockbot/core/utils.py:41-46 | in a list of distinct users removal leaves exactly the other users, in order |
| `Leases.WellFormedIsStarted` | python/lockbot/core/utils.py:70-75 | in a well-formed state the assertion that no lease starts in the future never fires |
| `Slots.Slot.Lock` | python/lockbot/core/queue_bot.py:98-121 | in place: one resource after a lock is the lock transition of its old value |
| `Slots.Slot.Requeue` | python/lockbot/core/queue_bot.py:230-237 | the insertions at the front, last holder first, put the live preempted holders ahead of the old queue in holder order with their remaining time |
| `Slots.Slot.RequeueAll` | python/lockbot/core/queue_bot.py:220-241 | the whole queue a take leaves, un-prompted |
| `Slots.Slot.Take` | python/lockbot/core/queue_bot.py:219-245 | in place: the take transition |
| `Slots.Slot.Unlock` | python/lockbot/core/node_bot.py:266-269 | in place: the release transition |
| `Slots.Slot.UnlockAny` | python/lockbot/core/node_bot.py:241-245 | the bare release leaves the holders of an idle resource alone |
| `Slots.Slot.NodeLock` | python/lockbot/core/node_bot.py:162-173 | in place: the exclusive lock of a node |
| `Slots.Slot.Slock` | python/lockbot/core/node_bot.py:220-227 | in place: renews the sharer where it stands or adds it last |
| `Slots.Inspect` | python/lockbot/core/node_bot.py:416-441 | what a sweep does to one holder: release, early warning or nothing, and what it reports |
| `Slots.Slot.MarkHolders` | python/lockbot/core/node_bot.py:415-441 | first pass: warnings marked in place, lapsed users collected, everything reported in holder order |
| `Slots.RemoveLapsed` | python/lockbot/core/node_bot.py:443-444 | removing the collected users by name leaves exactly the survivors |
| `Slots.Slot.Expire` | python/lockbot/core/node_bot.py:413-447 | both passes mark everybody due and then remove each lapsed user by name; where every user has one record that is the expiry transition, and the change flag is set exactly when the resource changed |
| `Slots.Slot.Prompt` | python/lockbot/core/queue_bot.py:498-512 | in place: prompting and timing out the head of the queue |
| `Slots.Slot.HolderDelay` | python/lockbot/core/node_bot.py:455-464 | the least wake-up any holder asks for |
| `Slots.Slot.Delay` | python/lockbot/core/queue_bot.py:521-541 | the least wake-up a resource asks for, its queue included |
| `QueueEngine.ClaimedKeys` | python/lockbot/core/resource_policy.py:16-25 | the loop computes exactly the resources a user claims, live leases and open bookings |
| `QueueEngine.CheckPolicy` | python/lockbot/core/base_bot.py:160-182 | the cap and no-renewal checks over all targets, a relock or longer claim named for a target where there is one |
| `QueueEngine.FindRenewal` | python/lockbot/core/base_bot.py:173-181 | finds a target whose claim the no-renewal rule forbids exactly when there is one, and says whether it is a relock or a longer claim |
| `QueueEngine.CheckTurn` | python/lockbot/core/queue_bot.py:52-62 | whose turn it is, for every target |
| `QueueEngine.AnyTooMuch` | python/lockbot/core/queue_bot.py:74-87 | whether any target would exceed the duration cap |
| `QueueEngine.CheckLock` | python/lockbot/core/queue_bot.py:45-95 | every check of lock, in its order |
| `QueueEngine.MutateAll` | python/lockbot/core/queue_bot.py:97-121 | the mutation loop of a command transforms each target once, from its original value, and nothing else |
| `QueueEngine.Lock` | python/lockbot/core/queue_bot.py:45-121 | a lock over shared mutable resources is the abstract step: all targets or none, nothing else touched |
| `QueueEngine.Book` | python/lockbot/core/queue_bot.py:150-175 | book is the abstract step |
| `QueueEngine.Take` | python/lockbot/core/queue_bot.py:195-245 | take is the abstract step |
| `QueueEngine.Unlock` | python/lockbot/core/node_bot.py:259-269 | unlock is the abstract step: one unrequested target refuses all |
| `QueueEngine.UnlockAny` | python/lockbot/core/node_bot.py:240-245 | the bare unlock is the abstract step over every resource |
| `QueueEngine.Kicklock` | python/lockbot/core/queue_bot.py:273-286 | clears holders and keeps queues, refusing unknown resources before touching any; reports which were in use |
| `QueueEngine.Kickout` | python/lockbot/core/node_bot.py:287-298 | kickout is the abstract step |
| `QueueEngine.Opkick` | python/lockbot/core/queue_bot.py:309-333 | an operator kick removes the user's leases exactly where it holds one, reports those keys, and refuses when there are none |
| `QueueEngine.KickedOnly` | python/lockbot/core/queue_bot.py:321-333 | visiting keys the user does not hold, or that do not exist, changes nothing |
| `QueueEngine.SweepSlots` | python/lockbot/core/queue_bot.py:460-512 | the sweep loop is the abstract sweep, with its report in stored order |
| `QueueEngine.SweepChange` | python/lockbot/core/queue_bot.py:462-512 | expiry and prompting never undo each other, so the change flag is exact |
| `QueueEngine.NextDelay` | python/lockbot/core/queue_bot.py:518-541 | the loop computes the earliest candidate, at least one second, or none |
| `QueueEngine.CheckAndNotify` | python/lockbot/core/queue_bot.py:458-572 | new state, report, change flag, the message sent (or none), and the announced delay |
| `QueueBots.CheckAcquisition` | python/lockbot/core/base_bot.py:139-158 | the machine budget refuses exactly when the projected machines exceed it |
| `QueueBots.BudgetedLock` | python/lockbot/core/queue_bot.py:44-121 | a lock with its budget checked first |
| `QueueBots.BudgetedBook` | python/lockbot/core/queue_bot.py:148-175 | a book with its budget checked first |
| `QueueBots.QueueBot.constructor` | python/lockbot/core/io.py:190-197 | a fresh bot has every configured resource idle |
| `QueueBots.QueueBot.Lock` | python/lockbot/core/queue_bot.py:33-121 | the bot's lock refines the abstract step |
| `QueueBots.QueueBot.Book` | python/lockbot/core/queue_bot.py:138-175 | the bot's book refines the abstract step |
| `QueueBots.QueueBot.Take` | python/lockbot/core/queue_bot.py:182-245 | the bot's take refines the abstract step |
| `QueueBots.QueueBot.CheckAndNotify` | python/lockbot/core/queue_bot.py:410-572 | the bot's sweep refines the abstract step, with report, flag, message and delay |
| `CardKeys.DigitsRoundTrip` | python/lockbot/core/queue_device_bot.py:26-30 | decimal card numbers read back as written |
| `CardKeys.KeyRoundTrip` | python/lockbot/core/queue_device_bot.py:36-40 | splitting a card key at its last separator gives back node and card, for every node name |
| `CardKeys.KeysInjective` | python/lockbot/core/queue_device_bot.py:26-30 | distinct cards have distinct keys |
| `QueueBots.FlatKeysDecode` | python/lockbot/core/queue_device_bot.py:26-40 | every key of the flat view decodes to the card it stands for |
| `QueueBots.FlatSeparate` | python/lockbot/core/queue_device_bot.py:26-30 | the flat view aliases no two keys to one card |
| `QueueBots.TargetKeysIff` | python/lockbot/core/queue_device_bot.py:32-37 | exactly the named cards are targeted |
| `QueueBots.TargetKeysDistinct` | python/lockbot/core/queue_device_bot.py:32-37 | deduplicated nodes and cards give deduplicated keys |
| `QueueBots.OrderedOnce` | python/lockbot/core/queue_device_bot.py:26-30 | the stored order names every card once |
| `QueueBots.QueueDeviceBot.Lock` | python/lockbot/core/queue_device_bot.py:26-37 | a lock through the card references equals, after flattening, the abstract lock on card keys |
| `QueueBots.QueueDeviceBot.Book` | python/lockbot/core/queue_device_bot.py:26-37 | the same for book |
| `QueueBots.QueueDeviceBot.Take` | python/lockbot/core/queue_device_bot.py:26-37 | the same for take |
| `QueueBots.QueueDeviceBot.Unlock` | python/lockbot/core/queue_device_bot.py:26-37 | the same for unlock |
| `QueueBots.QueueDeviceBot.UnlockAny` | python/lockbot/core/queue_device_bot.py:26-30 | the same for the bare unlock |
| `QueueBots.QueueDeviceBot.Kicklock` | python/lockbot/core/queue_device_bot.py:26-37 | the same for kicklock |
| `QueueBots.QueueDeviceBot.Kickout` | python/lockbot/core/queue_device_bot.py:26-37 | the same for kickout |
| `QueueBots.QueueDeviceBot.CheckAndNotify` | python/lockbot/core/queue_device_bot.py:26-30 | the same for the sweep, with its report, flag, message and delay |
| `QueueBots.UntargetedCardsUntouched` | python/lockbot/core/queue_device_bot.py:26-37 | cards a command does not name keep their stored value |
| `NodeBots.AnyTooMuch` | python/lockbot/core/node_bot.py:141-155 | whether any target would exceed the duration cap |
| `NodeBots.CheckMode` | python/lockbot/core/node_bot.py:132-137 | availability of every target in the requested mode |
| `NodeBots.CheckNode` | python/lockbot/core/node_bot.py:129-159 | every check of lock or slock, in its order |
| `NodeBots.NodeBot.Lock` | python/lockbot/core/node_bot.py:126-173 | lock refines the abstract step, budget first, all targets or none |
| `NodeBots.NodeBot.Slock` | python/lockbot/core/node_bot.py:190-227 | slock refines the abstract step, budget first, all targets or none |
| `NodeBots.NodeBot.Unlock` | python/lockbot/core/node_bot.py:258-269 | unlock refines the abstract step |
| `NodeBots.NodeBot.UnlockAny` | python/lockbot/core/node_bot.py:239-245 | the bare unlock refines the abstract step |
| `NodeBots.NodeBot.Kickout` | python/lockbot/core/node_bot.py:286-298 | kickout refines the abstract step |
| `NodeBots.NodeBot.Opkick` | python/lockbot/core/node_bot.py:311-335 | the operator kick refines the abstract step and reports the freed keys |
| `NodeBots.NodeBot.CheckAndNotify` | python/lockbot/core/node_bot.py:410-473 | the sweep refines the abstract one, with report, change flag and the earliest wake-up |
| `NodeBots.ReleasesAgree` | python/lockbot/core/queue_bot.py:25-31 | releases inherited by the queue bot judge and act exactly as on the node bot |
| `NodeBots.HolderDelays` | python/lockbot/core/node_bot.py:452-473 | the loop computes the earliest holder wake-up |
| `DeviceBots.CheckDevices` | python/lockbot/core/device_bot.py:195-222 | one node's cards, availability before durations: accepted exactly when each is allowed; a refusal names the check that failed |
| `DeviceBots.CheckGroups` | python/lockbot/core/device_bot.py:191-222 | validation over nested card lists accepts exactly when every named card is allowed |
| `DeviceBots.MutateGroups` | python/lockbot/core/device_bot.py:224-240 | the nested mutation loops transform each named card once, from its original value |
| `DeviceBots.AllHeld` | python/lockbot/core/device_bot.py:378-384 | whether the user holds every named card, node by node |
| `DeviceBots.DeviceBot.AcquireAcross` | python/lockbot/core/device_bot.py:156-310 | lock and slock over nested cards: accepted exactly when the flat rules accept, and then the flat step, budget first; a refusal names exactly the first check that fails at the first node, in the order named, where one fails |
| `DeviceBots.DeviceBot.Unlock` | python/lockbot/core/device_bot.py:377-392 | releases all named cards or, if one is not held, none |
| `DeviceBots.DeviceBot.Kickout` | python/lockbot/core/device_bot.py:415-422 | empties exactly the named cards |
| `DeviceBots.DeviceBot.CheckAndNotify` | python/lockbot/core/device_bot.py:531-609 | the sweep, in nested loops over nodes and cards, equals the flat step after flattening, with report, change flag and the earliest wake-up |
| `DeviceBots.ExpireGroups` | python/lockbot/core/device_bot.py:531-583 | the nested expiry loops expire every card once and report in stored order |
| `DeviceBots.DelayGroups` | python/lockbot/core/device_bot.py:585-600 | the nested wake-up loops compute the least wake-up over all cards |
| `Loading.ClampExact` | python/lockbot/core/utils.py:87-93 | a clamped lease has exactly the maximum left; any other lease is unchanged |
| `Loading.ApplyMaxDuration` | python/lockbot/core/utils.py:78-94 | clamps every record and returns exactly the users it shortened |
| `Loading.LoadNodes` | python/lockbot/core/io.py:203-223 | merges saved records into the configured resources, every lease kept, ignoring unknown ones and starting unsaved ones free, and reports exactly the shortened users |
| `Loading.LoadNode` | python/lockbot/core/io.py:209-218 | one configured resource from its saved record, every lease kept (see RestoredIs), with the users whose leases it shortened |
| `Loading.LoadEstablishesCap` | python/lockbot/core/io.py:209-218 | every loaded state is inside the duration cap; saved bookings are kept as they were, even above it |
| `Loading.RestoredIs` | python/lockbot/core/io.py:203-223 | a load keeps status, queue and every lease of a saved record, in order, each with what it had left or exactly the maximum if that is less; a resource not saved starts free |
| `Loading.RestartIff` | python/lockbot/core/io.py:190-223 | a state saved and loaded again is the same state if and only if no lease exceeds the maximum: a restart loses nothing |
| `Loading.LoadKeepsWellFormed` | python/lockbot/core/io.py:209-218 | a saved record that is well formed is loaded well formed |
| `Loading.ByNameKeepsCap` | python/lockbot/core/node_bot.py:413-447 | the sweep's removal by name keeps the duration cap on every list, one that holds a user twice included |
| `Loading.ByNameExample` | python/lockbot/core/node_bot.py:443-444 | on such a list it can drop the live record and keep the lapsed one |
| `Loading.CapFromLoadOn` | python/lockbot/core/io.py:203-223 | from any load on, whatever was saved, no capped holder of a queue bot ever has more than the maximum left |
| `Loading.NodeCapFromLoadOn` | python/lockbot/core/io.py:203-223 | the same for node and device bots |
| `SchedulerRuns.RegisteredIffScheduled` | python/lockbot/core/scheduler.py:108-330 | under every interleaving a bot is registered if and only if an entry of its current generation is in the heap or the unfinished batch |
| `SchedulerRuns.RunKeepsInv` | python/lockbot/core/scheduler.py:108-330 | the invariant behind it, over every interleaving |
| `SchedulerGuarantees.NeverOversleeps` | python/lockbot/core/scheduler.py:202-211 | whenever the thread waits, under every interleaving, and nobody has woken it or is about to, it is due no later than the earliest live entry plus the slack between working out its delay and beginning to wait, or is due already |
| `SchedulerGuarantees.SlackIs` | python/lockbot/core/scheduler.py:190-199 | that slack is the time between the clock reading of the choice and the beginning of the wait |
| `SchedulerTimes.PushedAfterSweep` | python/lockbot/core/scheduler.py:267-330 | over every run: after a sweep its bot has a live entry exactly as far ahead as the sweep announced, but at least a second; a minute when it announced nothing, 30 s when it failed; and none if the registration was overtaken |
| `SchedulerTimes.AddSchedules` | python/lockbot/core/scheduler.py:108-129 | an accepted registration has a live entry after the delay it names; a superseded one changes nothing |
| `SchedulerTimes.RescheduleSchedules` | python/lockbot/core/scheduler.py:180-185 | a registered bot gets a live entry a second ahead, any other nothing |
| `SchedulerTimes.DeclineSchedules` | python/lockbot/core/scheduler.py:275-283 | an item that may not run comes back after a minute, while its registration stands |
| `SchedulerTimes.RunsIff` | python/lockbot/core/scheduler.py:213-232 | over every run a captured item is swept if and only if its instance is still the registered one and its bot still holds an admission, both read off the history |
| `SchedulerTimes.RegisteredIff` | python/lockbot/core/scheduler.py:108-154 | the registered instance is the one registered last, unless the bot was unregistered since |
| `SchedulerTimes.AdmittedIff` | python/lockbot/core/scheduler.py:108-154 | a bot holds an admission exactly from a registration that brought one until it is unregistered |
| `SchedulerTimes.FifthIsFatal` | python/lockbot/core/scheduler.py:286-309 | a failing sweep is fatal if and only if it is at least the fifth failure of its registration in a row; otherwise the bot is tried again after 30 s |
| `SchedulerGuarantees.NewestWins` | python/lockbot/core/scheduler.py:108-122 | the registered instance is at least as new as every instance ever offered for its bot |
| `SchedulerGuarantees.ScopedRemoveIsExact` | python/lockbot/core/scheduler.py:140-154 | a remove that expects a generation unregisters the bot if and only if that generation is registered, and otherwise changes nothing |
| `SchedulerGuarantees.FatalPathSparesNewer` | python/lockbot/core/scheduler.py:304-309 | the fatal path never unregisters an instance newer than the one whose sweeps failed |
| `SchedulerGuarantees.OvertakenIff` | python/lockbot/core/scheduler.py:140-154 | an item captured at some step is current at a later one if and only if nothing unregistered its bot in between; once overtaken it never becomes current again |
| `SchedulerGuarantees.CapturedIsCurrent` | python/lockbot/core/scheduler.py:251-260 | every captured item is current when captured, with the registration of that moment |
| `SchedulerGuarantees.OvertakenLeavesNoTrace` | python/lockbot/core/scheduler.py:272-330 | the outcome of an item that is not current changes no table |
| `SchedulerGuarantees.ChargedIff` | python/lockbot/core/scheduler.py:286-295 | over every run: a failing sweep is charged to its bot if and only if nothing unregistered the bot since the item was captured, and the registration charged is the captured one if and only if no other instance was registered over it since |
| `SchedulerExamples.ReplacedInPlaceIsCharged` | python/lockbot/core/scheduler.py:109-128 | a reachable state in which an instance is replaced without a remove, and the old sweep's failure is the first one charged to its replacement |
| `SchedulerGuarantees.CounterIsStreak` | python/lockbot/core/scheduler.py:272-294 | the failure counter is exactly the number of failures accounted since the last success, removal or registration |
| `SchedulerGuarantees.RetiredAfterFiveIff` | python/lockbot/core/scheduler.py:286-309 | over every run: when the scheduler itself unregisters a bot, five failures were accounted to that registration since its last success, removal or registration if and only if nobody registered the bot again between the fatal failure and the retirement |
| `SchedulerGuarantees.RetiredOnlyAfterFive` | python/lockbot/core/scheduler.py:286-309 | so with strictly increasing generations the five failures are certain |
| `SchedulerExamples.SameGenerationIsRetired` | python/lockbot/core/scheduler.py:304-309 | a reachable state in which an instance of the same generation is registered after the fatal failure, and is retired with no failure of its own |
| `SchedulerRules.HasTop` | python/lockbot/core/scheduler.py:202-211 | a non-empty heap has a least entry, in the order of the entries' triples |
| `SchedulerRules.CapturesIff` | python/lockbot/core/scheduler.py:252-260 | exactly the popped entries of a current generation are captured |
| `SchedulerRules.DrainFacts` | python/lockbot/core/scheduler.py:251-260 | a drain removes exactly the due entries and captures exactly the due entries of a current generation |
| `Scheduler.BotScheduler.constructor` | python/lockbot/core/scheduler.py:39-50 | a new scheduler has empty tables |
| `Scheduler.BotScheduler.Add` | python/lockbot/core/scheduler.py:108-129 | in place: the registration step, ignoring superseded generations |
| `Scheduler.BotScheduler.Remove` | python/lockbot/core/scheduler.py:140-154 | in place: the removal step, skipping when the expectation does not hold |
| `Scheduler.BotScheduler.RescheduleSoon` | python/lockbot/core/scheduler.py:180-185 | in place: a further entry one second ahead, only for registered bots |
| `Scheduler.BotScheduler.NextSleep` | python/lockbot/core/scheduler.py:202-211 | the loop ends, discards only stale entries, and returns the time to the earliest live one or the idle interval |
| `Scheduler.BotScheduler.DrainDue` | python/lockbot/core/scheduler.py:251-260 | pops exactly the due entries, each as often as the heap holds it, in heap order, and captures the live ones |
| `Scheduler.BotScheduler.AccountSuccess` | python/lockbot/core/scheduler.py:272-274 | resets the counter of the generation that ran, and no other |
| `Scheduler.BotScheduler.AccountFailure` | python/lockbot/core/scheduler.py:286-295 | counts a failure of the generation that ran, and no other |
| `Scheduler.BotScheduler.PushAgain` | python/lockbot/core/scheduler.py:327-329 | re-schedules an item only while its generation is current |
| `ReportAnalysis.CompleteReport` | scripts/lease_history/report.py:81-257 | a complete report rests on valid, agreeing frames of one bot; a checkpoint given is valid and ends a run, or says itself that it is inconsistent; one session tiles the window; the total under a kind and mode is the sum over instants of the number of allocations of that kind and mode live in the governing frame |
| `ReportAnalysis.EveryReport` | scripts/lease_history/report.py:166-257 | complete or not, no lease is given an instant twice or more seconds than the window has; a subject's totals are the live instants of its own allocations of that kind and mode, the segments of a lease those of the lease, and subject totals sum to their measure |
| `ReportAnalysis.Analyze` | scripts/lease_history/report.py:81-281 | rejects exactly the empty windows; otherwise a complete report is accounted for as above, and in every report no lease instant counts twice, and subjects and segments are the live instants of the leases |
| `ReportAnalysis.Gather` | scripts/lease_history/report.py:84-165 | from frames to runs: deduplicated, stitched by first timestamp, sealed by the checkpoint, malformed records counted |
| `ReportAnalysis.AllGapsOf` | scripts/lease_history/report.py:166-230 | all gaps and raw segments of the scan |
| `ReportChain.GapFreeTiles` | scripts/lease_history/report.py:166-250 | without gaps the consecutive pairs of one run tile the window, linked in sequence, digest and completeness, whatever reversals or sessions lie outside it |
| `ReportChain.GapFreeIff` | scripts/lease_history/report.py:166-230 | exactly when a report has no gap |
| `ReportChain.NothingMissingIff` | scripts/lease_history/report.py:179-194 | along the tiling every frame follows from the one before (consecutive, linked by digest, complete) if and only if that holds between frames of one instant; and no sequence number is missing if and only if none is missing there |
| `ReportChain.NothingComparedAtOneInstant` | scripts/lease_history/report.py:179-194 | after a frame of the same instant any later complete frame of the session may stand: the report is gap-free, and whether the two are linked makes no difference |
| `ReportChain.MissingFrameGoesUnnoticed` | scripts/lease_history/report.py:179-187 | gap-free reports over a chain that lacks a sequence number, and over one whose digest link is broken |
| `ReportCoverage.GovernedOnce` | scripts/lease_history/report.py:166-230 | an instant in no gap is spanned by exactly one consecutive pair, and that pair is linked; for every report |
| `ReportCoverage.SpannedOnce` | scripts/lease_history/report.py:166-187 | without reversals or seams at an instant, no two pairs of any runs span it |
| `ReportCoverage.UnobservedIff` | scripts/lease_history/report.py:221-228 | an instant of the window is in an unobserved gap if and only if no linked pair spans it, so covered time and gaps always fill the window |
| `ReportGaps.GapIff` | scripts/lease_history/report.py:166-230 | an instant lies in a gap of some reason if and only if the frames give that cause there: between two sessions, a clock turned back, a boundary frame, frames that do not carry on, nothing observed, not one bot |
| `ReportGaps.ClearIff` | scripts/lease_history/report.py:166-230 | an instant is certain if and only if no cause is there |
| `ReportGaps.SealExtends` | scripts/lease_history/report.py:140-160 | a checkpoint that repeats a run's last frame carries that frame's state on to its own instant; any other run is left alone |
| `ReportTotals.VerifiedSecondsAreLiveInstants` | scripts/lease_history/report.py:200-257 | for any choice of grants the verified seconds are those grants live at each certain instant, summed: a late renewal never backfills |
| `ReportLeases.TotalsOwed` | scripts/lease_history/report.py:251-257 | totals in terms of the allocations: those of the kind and mode, running at the instant by their own start and deadline, counted instant by instant |
| `ReportLeases.SubjectTotalsOwed` | scripts/lease_history/report.py:254-257 | the same for each subject, its platform and user also those of the allocation |
| `ReportLeases.SegmentSecondsOwed` | scripts/lease_history/report.py:200-220 | the segments under one lease identity hold an instant exactly when that lease is live in the governing frame |
| `ReportTotals.NoDoubleCounting` | scripts/lease_history/report.py:200-249 | one lease has at most one live instant at a time and never exceeds the window |
| `ReportTotals.SubtractionExact` | scripts/lease_history/report.py:232-249 | an instant is in exactly one output piece if it is in the segment and in no positive-length gap, and in none otherwise |
| `ReportTotals.PiecesDisjointAndExact` | scripts/lease_history/report.py:232-249 | pieces are pairwise disjoint and as long as the segment has instants outside every gap |
| `ReportTotals.Tally` | scripts/lease_history/report.py:251-257 | totals and subject totals hold exactly the seconds of their keys |
| `ReportTotals.SubjectsSumToMeasure` | scripts/lease_history/report.py:251-257 | subject totals sum back to their measure |
| `ReportDedup.StandingIff` | scripts/lease_history/report.py:89-121 | a (session, sequence) key is absent, kept or voided exactly as its valid frames are none, agreeing or in conflict |
| `ReportDedup.Dedup` | scripts/lease_history/report.py:84-121 | the loop keeps exactly the consistent keys, counts each invalid record and each conflicting key once, and collects the bot of a frame exactly when the key's frames so far agree with it |
| `ReportDedup.OrderDoesNotMatter` | scripts/lease_history/report.py:89-121 | any order of the same frames keeps the same keys, with agreeing frames, and the same malformed count |
| `ReportOrder.OrderFreeIff` | scripts/lease_history/report.py:106-119 | the set of bots collected is the same for every order of the frames if and only if every bot with a valid frame has a key whose frames all agree or are all its own |
| `ReportOrder.BotsAfterIff` | scripts/lease_history/report.py:106-119 | a bot is collected if and only if some frame of it is valid and agrees with all frames of its key up to then |
| `ReportOrder.BotsDependOnOrder` | scripts/lease_history/report.py:106-119 | two frames of two bots in conflict on one key: the loop collects the bot read first, and only that one |
| `ReportRuns.SessionRun` | scripts/lease_history/report.py:122 | one session's kept frames, all of them, in sequence order |
| `ReportRuns.BuildRuns` | scripts/lease_history/report.py:122-123 | every kept frame is in exactly its session's run; runs are ordered by first timestamp |
| `ReportRuns.Seal` | scripts/lease_history/report.py:140-160 | a checkpoint seals the run whose last frame it matches and no other |
| `ReportRuns.SealsOnce` | scripts/lease_history/report.py:142-150 | at most one run matches |
| `ReportScan.ScanPair` | scripts/lease_history/report.py:180-220 | what one consecutive pair contributes: gaps, covered interval, segments |
| `ReportScan.Sweep` | scripts/lease_history/report.py:222-228 | the horizon loop computes the unobserved gaps |
| `ReportScan.SubtractGaps` | scripts/lease_history/report.py:234-247 | the nested loops compute the pieces of one segment |
| `ReportScan.ClipSegments` | scripts/lease_history/report.py:232-249 | every segment replaced by its pieces |
| `LeaseFrames.CheckItems` | scripts/lease_history/report.py:48-77 | one list of leases is valid exactly when each item is and no reference repeats |
| `LeaseFrames.CheckState` | scripts/lease_history/report.py:34-78 | references are unique across allocations and bookings |
| `AuditReport.CertainReport` | scripts/lease_history/report_v2.py:300-431 | a report without reasons: the chain tiles the window with non-decreasing timestamps and strictly rising commits (consecutive and digest-linked when unfiltered), no reference has two events in a frame, versions never regress, totals and subject totals are the leases of that kind, mode and subject live in the governing frame, counted instant by instant, one lease never exceeds the window |
| `AuditReasons.ReasonIff` | scripts/lease_history/report_v2.py:300-422 | a report lists a reason if and only if the export gives its cause, twelve causes in all |
| `AuditReasons.NoReasonIff` | scripts/lease_history/report_v2.py:300-422 | the report counts if and only if the export is complete, vouched for, anchored, settled, and its chain whole, of one session, unbroken and smooth |
| `AuditReport.Analyze` | scripts/lease_history/report_v2.py:300-456 | accepts exactly the well-formed, ordered exports; a report lists exactly the reasons that hold (coverage at both ends, checkpoint, and each doubt of the chain), so it has none exactly when it is certain, and then it is accounted for as above |
| `AuditReport.Assemble` | scripts/lease_history/report_v2.py:307-356 | refuses exactly the ill-formed exports; repeats are counted and identical |
| `AuditPages.ReadPages` | scripts/lease_history/report_v2.py:314-330 | page scope, cursors, frozen fields and duplicate frames checked; the dictionary indexes exactly the frames read |
| `AuditPages.SortFrames` | scripts/lease_history/report_v2.py:355 | every distinct frame once, by commit |
| `AuditWalk.WalkIff` | scripts/lease_history/report_v2.py:357-400 | the walk accepts exactly the ordered chains with distinct events, and raises no doubt exactly for whole, one-session, smooth, unbroken ones |
| `AuditWalk.DoubtsMean` | scripts/lease_history/report_v2.py:362-400 | the walk raises each doubt exactly when its condition holds: a frame not whole, two sessions, a broken unfiltered chain, a skipped version, a fallen version |
| `AuditWalk.WalkChain` | scripts/lease_history/report_v2.py:357-400 | the loop computes that walk |
| `AuditWalk.MergeVersions` | scripts/lease_history/report_v2.py:383-386 | detects exactly the regressions and keeps the larger version |
| `AuditChain.VersionsNeverRegress` | scripts/lease_history/report_v2.py:376-386 | along a smooth chain a reference's recorded versions never fall |
| `AuditChain.ContinuesIff` | scripts/lease_history/report_v2.py:376-380 | comparing with the running dictionary finds exactly a skipped version or a second event of one reference |
| `AuditChain.FreshIff` | scripts/lease_history/report_v2.py:374-376 | the seen-set check is distinctness of event ids |
| `AuditChain.ReadEvents` | scripts/lease_history/report_v2.py:373-380 | the event loop computes both, and the new dictionaries |
| `AuditTotals.StretchesTile` | scripts/lease_history/report_v2.py:424-426 | an instant lies in the stretch of its governing frame and in no other |
| `AuditTotals.GrantedSecondsAreLiveInstants` | scripts/lease_history/report_v2.py:423-431 | granted seconds are the grants live in the governing frame, summed over instants |
| `AuditTotals.TalliesAlong` | scripts/lease_history/report_v2.py:423-431 | both tallies in terms of the leases of the governing frame, by kind, mode and subject |
| `AuditTotals.GrantedAtMostWindow` | scripts/lease_history/report_v2.py:423-431 | one lease contributes at most the length of the window |
| `AuditTotals.TallyChain` | scripts/lease_history/report_v2.py:424-431 | totals and subject totals hold exactly the seconds of their keys |
| `AuditFrames.CheckAuditFrame` | scripts/lease_history/report_v2.py:220-297 | accepts exactly the valid frames of the selected scope |
| `AuditFrames.CheckVersioned` | scripts/lease_history/report_v2.py:271-274 | every lease has a recorded version and the selected resource |
| `Chunking.Chunk` | python/lockbot/core/platforms/feishu.py:530-544 | the chunks are a legal order-preserving split with the fewest chunks; refusal happens exactly when no legal split has at most ten |
| `Chunking.FillIsAhead` | python/lockbot/core/platforms/feishu.py:532-541 | no legal split of the rows so far needs fewer chunks or, with as many, leaves less in its last |
| `Chunking.FinishedIsBest` | python/lockbot/core/platforms/feishu.py:530-542 | the greedy split is legal and minimal |
| `Chunking.FillRows` | python/lockbot/core/platforms/feishu.py:530-541 | stops at a row exactly when some row fits no chunk |

## Left out

- LineageNeverGains: stated with renewals forbidden, which is when the code promises it; without that setting a renewal adds time.
- AcquisitionKeepsTheLine: excludes a lock on a resource in shared mode, which the queue bot never creates; `SharedLockDropsOthers` says exactly what happens on one that was loaded.
- SweepMissesNothing: needs a warning lead that is not negative; `OversleepsIffNegativeLead` proves that this is exact.
- SweepWakesForAChange: speaks of delays above the one-second poll; the code polls every second while an unprompted booking heads a queue.
- RetiredOnlyAfterFive: needs strictly increasing manager generations, which the bot manager (not modelled) issues; `RetiredAfterFiveIff` is exact without them.
- AuditReport.Analyze: when the second report refuses an export whose chain holds two frames of one commit, the order of those two is whatever the sort leaves; the refusal itself does not depend on it being unique.
- CheckPolicy: which of several offending targets words a renewal refusal is left open, because the code visits an unordered set; the commands' verdicts keep one reason for both wordings.
- Message texts, mention lists, replies, usage tables and help.
- Command parsing: targets and durations come parsed, targets deduplicated as the parsers leave them.
- Clocks: one integer reading per command or sweep, where the code reads the clock again in places and the policy count reads a fraction of a second.
- User records carry user, start, duration and alert flag; holding identifiers, sources and original booking times are left out, and records are values, not shared objects (resources and cards are shared objects).
- Saving the state, lifecycle evidence and the command log, taken as identity on the state.
- The device bot's release of whole nodes and of everything, and its operator kick, also used by the queue device bot: they would add only easy members.
- A device card's missing booking list is modelled as an empty one.
- The state loader for devices: it clamps like the one for nodes.
- CapFromLoadOn: the sweep steps of a run expire record by record, as the code does where every user has one record; on a saved list that holds a user twice the code removes by name (`ExpireByName`), for which `ByNameKeepsCap` gives the same cap one sweep at a time.
- Scheduler: starting and stopping the thread, callbacks after a fatal error, the admission lease (a step that may refuse), the guard against exceptions in the main loop, and how late a wait that has run out returns.
- Reports: records of the wrong JSON type are not represented (they would only count as malformed); digests are functions of states; timestamps are integers, totals exact; notes and JSON shapes are left out.
- The nested per-session dictionary of the first report is a map from (session, sequence) keys.
- The second report's event and initiator counts, its public export, and fetching pages from a server.
- Sending chunks, identifiers of messages, and the JSON size of a row (a parameter).
- The bot manager, the web application, the metrics exporter, migrations and the demo engine of the front end.
