# The flintlock-runner's state machines, in Dafny

flintlock-runner runs CI Jobs in MicroVMs that a Pool Manager keeps warm. Its own
logic is a handful of small concurrent state machines behind mutexes. This
project models the ones that are hard to get right and proves what they promise.

Each hold of a lock is one atomic step. What the Pool Manager, the Hosts, the
clock and the run loop answer is arbitrary: it is a parameter of a step. A
channel that only wakes somebody is an epoch or a flag. Where the source changes
fields in place there is a class whose methods are proved against functions on
values; the theorems about whole runs are proved of those functions.

| file | models |
|---|---|
| `Basics.dfy` | what several models share |
| `UidCount.dfy` | the uid-keyed count (`named`, `unnamed`, `accounted`) and the closed form of any run of it |
| `Tracker.dfy` | one tracked Pool: its four counts, generation, debts, events and poll answers |
| `GroundTruth.dfy` | those counts against the real lifecycle of the Pool's MicroVMs |
| `LaggingStream.dfy` | the same when the event stream lags behind and `GetPool` answers ahead of it |
| `Polls.dfy` | the Tracker's Pools under every interleaving of events, calls and `GetPool` answers |
| `LastWords.dfy` | what those runs leave a Pool with, told by the last step that had a say in it |
| `ClaimHub.dfy` | the hub that turns a count into events, composed with the Tracker |
| `Attachment.dfy` | who stays attached to the hub and what they have been sent |
| `Scheduler.dfy` | Slots, Reservations, Allocations, Profile units, Leases and shutdown |
| `SchedulerFates.dfy` | what each step does to Leases, Reservations and Allocations, and what a run has made of them |
| `SchedulerCalls.dfy` | how each call comes to its end, and the Scheduler's own state |
| `Timing.dfy` | exponential backoff in 64-bit arithmetic, the keep-alive loop, the Exec Agent probe |
| `Registry.dfy` | Host connections, counted leases on them, and reloads |
| `Reloads.dfy` | what a caller of the Registry sees over runs |
| `ShellLine.dfy` | rendering a command for SSH, against a tokenizer for the POSIX shell |
| `FakeClock.dfy` | the clock that moves when it is told to, and its timers |

`dafny verify dfyconfig.toml` checks everything.

## What the proofs turned up

Where code and documentation disagree the model follows the code.

- The Tracker's documentation leaves to a poll what the events cannot settle. But a
  `GetPool` answer can be ahead of the event stream: no event raced it, so it is
  folded, and the events it already includes are counted again when they arrive.
  `GroundTruth.ReadsShortOwingNothing` is a run that ends short with no poll owed,
  and `GroundTruth.PollAheadOfStream` gives the exact count, and when it is right.
- An answer is folded exactly when no event was applied since the question, unless
  the Pool was untracked meanwhile (`Polls.FoldedIffNoEventSince`,
  `Polls.RetrackedFoldsStaleAnswer`, `Polls.RetrackedFoldsIff`).
- Discarded answers are bounded by the events applied only while no Pool is untracked
  with its question out (`Polls.EventsPayForDiscards`,
  `Polls.UntrackingDiscardsOneMore`).
- A Pool marked exhausted and made readable again by the next event can be short with
  no poll owed (`GroundTruth.ExhaustedPoolIsStranded`); `GroundTruth.ExhaustedOwesIff`
  says when it owes one.
- A POOL_SIZE_BELOW_TARGET event can report warm MicroVMs without waking the callers
  that wait for one (`Polls.CountsWakeNobody`).
- `applyPoll` refuses to bring back a Pool untracked while its question was out; the
  NOT_FOUND path brings it back (`Polls.NotFoundBringsPoolBack`).
- A hub subscriber whose replay is longer than its buffer is told of fewer MicroVMs
  than there are, exactly then (`ClaimHub.SubscribeAgreesIffFits`); the source leaves
  the rest to the Tracker's own poll.
- The keep-alive wait is at most half the remaining time exactly while that half is
  at least one millisecond (`KeepAlive.DelayBounds`, `KeepAlive.WaitPassesHalf`).
- Backoff with no cap returns the cap field, zero or less, once doubling leaves 64
  bits (`Backoff.UncappedWaitsWhileItFits`).
- A reload that stops at an entry with no name, or with a name listed twice, does
  not close what it dialled before that (`RegistryRuns.LeaksIffBadNameAfterDial`,
  `RegistryRuns.CanLeakIffChangedBeforeBad`).
- The command line quotes values and not environment keys, so it is read as meant
  exactly when every key is made of characters that are part of a word in section 2.3
  of the Shell Command Language (`Shell.LineReadsAsIntendedIffKeysPlain`).

## Model

| member | source | states |
|---|---|---|
| `UidCounts.RunClosedForm` | internal/poolmgr/tracker.go:104-174 | after any run of operations a uid is named iff the last operation mentioning it named it, and the unnamed part is what it was less the distinct uids touched that were not accounted for, never below zero |
| `UidCounts.ReplayHarmless` | internal/poolmgr/tracker.go:56-71 | folding a suffix of the stream again changes nothing, for every count and every stream |
| `UidCounts.Conservation` | internal/poolmgr/tracker.go:176-212 | a folded total T gives max(T, named); until the next fold accounted plus unnamed equals T while anything is unnamed; when the unnamed part runs out is given exactly, and it leaves nothing accounted |
| `UidCounts.TakesAtMostOnce` | internal/poolmgr/tracker.go:104-145 | however many operations mention a uid, it takes from the unnamed part at most once between two folds, and only if it was not accounted for |
| `UidCounts.UidCount.constructor` | internal/poolmgr/tracker.go:118-120 | a new count is empty |
| `UidCounts.UidCount.TakeUid` | internal/poolmgr/tracker.go:132-145 | the object moves as the value does, and reports whether it took |
| `UidCounts.UidCount.AddUid` | internal/poolmgr/tracker.go:151-160 | the object moves as the value does, and reports whether the uid is new and whether it took |
| `UidCounts.UidCount.RemoveUid` | internal/poolmgr/tracker.go:165-174 | the object moves as the value does, and reports whether the uid was named |
| `UidCounts.UidCount.LeaveUid` | internal/poolmgr/tracker.go:297-301 | a MicroVM that leaves is removed by name, or else taken from the unnamed part |
| `UidCounts.UidCount.Fold` | internal/poolmgr/tracker.go:199-212 | the object moves as the value does, its loop copying the named uids |
| `UidCounts.UidCount.Reset` | internal/poolmgr/tracker.go:215-219 | nothing is left |
| `Pools.EventProjects` | internal/poolmgr/tracker.go:758-842 | an event without counts does to each of the four counts one operation, settled by its type |
| `Pools.RunProjects` | internal/poolmgr/tracker.go:758-842 | so a run of events is, on each count, a run of operations |
| `TrackerObjects.TrackedPool.constructor` | internal/poolmgr/tracker.go:957-972 | a Pool named for the first time |
| `TrackerObjects.TrackedPool.AvailableCount` | internal/poolmgr/tracker.go:269-274 | zero for a Pool undeclared or exhausted, else the total |
| `TrackerObjects.TrackedPool.CloseWaiters` | internal/poolmgr/tracker.go:976-980 | every waiter is woken and none is left |
| `TrackerObjects.TrackedPool.FoldCounts` | internal/poolmgr/tracker.go:288-293 | all four counts are rebased to the status |
| `TrackerObjects.TrackedPool.Switch` | internal/poolmgr/tracker.go:773-842 | each event type moves the counts, the exhaustion and the doubt as the value does |
| `TrackerObjects.TrackedPool.Apply` | internal/poolmgr/tracker.go:758-861 | one event: a new generation, the counts, the debt and the waiters woken |
| `TrackerObjects.TrackedPool.SetExhausted` | internal/poolmgr/tracker.go:597-603 | the Pool reads zero and its available count starts over |
| `TrackerObjects.TrackedPool.Answer` | internal/poolmgr/tracker.go:670-708 | an answer that raced is discarded and owed again, any other is folded and settles |
| `CountTruth.LawTotal` | internal/poolmgr/tracker.go:104-130 | under the law the total is the true number less the smaller of the mistakes and what is hidden; it is exact iff no mistake was made or everything is named |
| `CountTruth.FoldIsExact` | internal/poolmgr/tracker.go:176-212 | folding the true number makes the count exact |
| `CountTruth.LawStep` | internal/poolmgr/tracker.go:132-174 | every live operation keeps the law, an entry costing one mistake |
| `CountTruth.FoldAheadOfStream` | internal/poolmgr/tracker.go:646-708 | a total ahead of the stream, once the stream has caught up, costs one mistake for each MicroVM that left on the way |
| `GroundTruth.EventKeepsLaw` | internal/poolmgr/tracker.go:758-842 | every live event keeps the law on all four counts at once |
| `GroundTruth.EventsKeepLaw` | internal/poolmgr/tracker.go:758-842 | so does every run of live events |
| `GroundTruth.TrackerRefinesTruth` | internal/poolmgr/tracker.go:73-103 | over every run of live events, polls and exhaustions the available count never exceeds the number of warm MicroVMs; it equals it whenever no doubt is recorded and nothing was marked exhausted; otherwise how far it is below is given exactly |
| `GroundTruth.ShortPoolOwesPoll` | internal/poolmgr/tracker.go:838-858 | over every run a Pool no larger than its target that reads short owes a poll, unless it was marked exhausted and no total has been folded since |
| `GroundTruth.ExhaustedPoolIsStranded` | internal/poolmgr/tracker.go:586-603 | a run in which MarkExhausted and the next event leave a Pool readable, short, in no doubt and owing nothing |
| `GroundTruth.VisibleIsShown` | internal/poolmgr/tracker.go:586-603 | what a Pool shows after MarkExhausted and any events without counts, from the events alone: the MicroVMs whose last word is VM_AVAILABLE, once one of the events has lifted the mark |
| `GroundTruth.ExhaustedOwesIff` | internal/poolmgr/tracker.go:586-603 | until a total is folded again such a Pool owes a poll iff it did before, or by what the events say it went from showing something to nothing, or was in doubt and below its target |
| `GroundTruth.PollAheadOfStream` | internal/poolmgr/tracker.go:646-708 | the exact counts after an answer ahead of the stream is folded and the stream catches up; they are right iff nothing left on the way, or every MicroVM there is named, by the names there were and the run |
| `GroundTruth.ReadsShortOwingNothing` | internal/poolmgr/tracker.go:646-708 | a run in which such an answer leaves the Pool short with no doubt and no poll owed |
| `LaggingStream.AnswerObeys` | internal/poolmgr/tracker.go:646-708 | an answer ahead of the stream, with or without counts among the events on their way, will obey the law once those are delivered, with its mistakes counted |
| `LaggingStream.MoveFollows` | internal/poolmgr/tracker.go:646-861 | every event that happens or is delivered, every answer from any world the stream has yet to reach, and MarkExhausted keep that |
| `LaggingStream.LaggingTrackerRefinesTruth` | internal/poolmgr/tracker.go:73-103 | over every run, however far the stream lags, once everything the last folded answer included is delivered the available count is the number warm as far as delivered less the mistakes or what is unnamed, whichever is less: never more, and exact iff no mistake was made or all are named |
| `Polls.RunSane` | internal/poolmgr/tracker.go:112-116 | over every run of the Tracker all four counts of every Pool stay well formed, and a Pool marked exhausted counts nothing available |
| `Polls.ReplayHarmlessWhenReached` | internal/poolmgr/tracker.go:56-71 | for every Pool any run reaches, events delivered again by a new subscription leave all four of its counts exactly as they were |
| `Polls.GenerationCounts` | internal/poolmgr/tracker.go:642-644 | over every run a tracked Pool's generation grows by the number of events applied to it |
| `Polls.FoldedIffNoEventSince` | internal/poolmgr/tracker.go:497-516 | while a question is out, under every interleaving, its answer is discarded iff an event was applied to the Pool since; discarded it leaves all four counts alone, and otherwise each becomes the number reported, or the MicroVMs named if they are more |
| `Polls.AnswerFolds` | internal/poolmgr/tracker.go:670-708 | the same of one Pool and one answer |
| `Polls.RetrackedFoldsStaleAnswer` | internal/poolmgr/tracker.go:550-557 | untracking and tracking again lets a stale answer be folded |
| `Polls.RetrackedFoldsIff` | internal/poolmgr/tracker.go:550-557 | exactly when it does: when the Pool has had as many events since as it had had when asked |
| `Polls.DiscardsArePaidFor` | internal/poolmgr/tracker.go:646-694 | over every run the answers discarded are at most the events applied plus the times a Pool was untracked while its own question was out, so polling cannot spin |
| `Polls.EventsPayForDiscards` | internal/poolmgr/tracker.go:646-694 | with no such untracking they are at most the events applied |
| `Polls.UntrackingDiscardsOneMore` | internal/poolmgr/tracker.go:550-557 | with one, two answers are discarded after one event |
| `Polls.DebtArises` | internal/poolmgr/tracker.go:838-861 | a Pool that falls to zero, or is in doubt below its target, or whose answer raced, owes a poll, and a new debt asks for one at once |
| `Polls.DebtIsNeverLost` | internal/poolmgr/tracker.go:432-449 | a Pool goes on owing through any run until an un-raced answer, counts in an event, NOT_FOUND or Untrack; `LastWords.DebtByLastWord` says when it owes at all |
| `Polls.WokenIffWarmSince` | internal/poolmgr/tracker.go:605-614 | whatever happens after a call to Wait, its channel is closed iff an event added a warm MicroVM, a folded answer showed one, or the Pool was untracked since: no wake-up is lost and none is made up |
| `Polls.RisesUnheard` | internal/poolmgr/tracker.go:827-842 | when a Pool's visible count rises nobody is woken iff it rose by counts carried in an event or by a declaration |
| `Polls.CountsWakeNobody` | internal/poolmgr/tracker.go:827-842 | and the first of these does leave a waiting caller asleep |
| `LastWords.LastWordDecides` | internal/poolmgr/tracker.go:497-603 | over every run a Pool is declared iff the last Track or NOT_FOUND since it was last untracked was a Track that declared it; marked exhausted iff nothing that lifts the mark was heard since MarkExhausted; its target is the last one folded; and the callers waiting are those since the last wake-up |
| `LastWords.ShownByLastWord` | internal/poolmgr/tracker.go:269-274 | so what a Pool shows is settled by the run: zero unless it was last declared and not left exhausted, and then all it counts |
| `LastWords.DisownedShowsNothing` | internal/poolmgr/tracker.go:535-548 | after NOT_FOUND a Pool shows zero through any run until a Track declares it |
| `LastWords.DebtByLastWord` | internal/poolmgr/tracker.go:838-861 | over every run a Pool is in doubt iff a guess was made since its counts were last settled, and owes a poll iff a debt arose since it was last paid |
| `LastWords.PollAskedForIff` | internal/poolmgr/tracker.go:522-532 | over every run a poll is asked for iff, since the poll loop last took the request, a Pool was tracked for the first time or as declared, an event left its Pool owing, or an answer was discarded |
| `LastWords.NothingElseCounts` | internal/poolmgr/tracker.go:497-614 | only its own events, a folded answer, MarkExhausted and Untrack touch a Pool's counts |
| `ClaimHub.StandInInjective` | internal/poolmgr/claim/events.go:72-75 | stand-in uids are never empty and differ for different positions |
| `ClaimHub.ObserveAgrees` | internal/poolmgr/claim/events.go:166-210 | seeing a Pool, even under a new PoolRef, keeps every subscriber's stream worth exactly the stand-ins 1..count of each Pool it wants |
| `ClaimHub.ForgetAgrees` | internal/poolmgr/claim/events.go:180-210 | so does a Pool going |
| `ClaimHub.ReplayReads` | internal/poolmgr/claim/events.go:237-272 | the replay tells a new subscriber of exactly what is available, in whatever order the table is read |
| `ClaimHub.SubscribeAgreesIffFits` | internal/poolmgr/claim/events.go:237-272 | a new subscriber agrees iff its replay fits its buffer |
| `ClaimHub.TooManyAreClipped` | internal/poolmgr/claim/events.go:257-268 | one Pool reported with more MicroVMs than the buffer holds is enough for it not to |
| `ClaimHub.StepAgrees` | internal/poolmgr/claim/events.go:144-348 | every step of the hub keeps agreement |
| `ClaimHub.RunAgrees` | internal/poolmgr/claim/events.go:144-348 | so does every run |
| `ClaimHub.HubAndTrackerAgree` | internal/poolmgr/claim/events.go:144-272 | over every run from a new hub, a Tracker's Pool fed the stream of a subscriber still attached names exactly the stand-ins of the reported count and shows that count; `Attachment.AttachedIff` says who is |
| `ClaimHub.ResyncMatchesList` | internal/poolmgr/claim/events.go:146-162 | after a resync the hub's table is the list: its Pools, as listed, and no others |
| `ClaimHub.Hub.constructor` | internal/poolmgr/claim/events.go:68-70 | a new hub knows nothing |
| `ClaimHub.Hub.PublishLocked` | internal/poolmgr/claim/events.go:215-232 | a subscriber stays iff it does not want the event or its buffer has room; one that stays has been sent the event iff it wants it, after what it had |
| `ClaimHub.Hub.RiseLocked` | internal/poolmgr/claim/events.go:193-210 | the counting-up loop publishes the missing stand-ins in order |
| `ClaimHub.Hub.FallLocked` | internal/poolmgr/claim/events.go:193-210 | the counting-down loop withdraws the surplus, highest first |
| `ClaimHub.Hub.MoveLocked` | internal/poolmgr/claim/events.go:193-210 | from what was last reported to the new count, withdrawing under the old PoolRef when it changed |
| `ClaimHub.Hub.ObservePool` | internal/poolmgr/claim/events.go:166-177 | the object moves as the value does |
| `ClaimHub.Hub.GonePool` | internal/poolmgr/claim/events.go:180-190 | the object moves as the value does |
| `Attachment.AttachedIffFits` | internal/poolmgr/claim/events.go:212-232 | a run of events drops a subscriber iff those it wants do not fit its buffer; one that is left has them all, in order |
| `Attachment.StepPublishes` | internal/poolmgr/claim/events.go:144-210 | what each step of the hub publishes, and to whom |
| `Attachment.StaysAttachedIff` | internal/poolmgr/claim/events.go:212-348 | after any step a subscriber is gone iff it closed its stream, the hub was closed, or what it wants of the events published does not fit; one that is left has been sent exactly those besides what it had |
| `Attachment.JoinsIff` | internal/poolmgr/claim/events.go:237-272 | somebody new is attached iff they subscribe to an open hub, and starts with the replay |
| `Attachment.ReplayFillsBuffer` | internal/poolmgr/claim/events.go:257-268 | a replay longer than the buffer is cut off where the buffer is full |
| `Attachment.RunBounded` | internal/poolmgr/claim/events.go:21-25 | over every run no buffer holds more than it can, no id is used again, and a closed hub has nobody attached |
| `Attachment.AttachedIff` | internal/poolmgr/claim/events.go:212-348 | over every run a subscriber is still attached iff it never closed its stream, the hub was never closed, and what it wanted of each move fitted its buffer at the time; and then it has been sent all it wanted, in order |
| `Attachment.NeverBack` | internal/poolmgr/claim/events.go:212-232 | a subscriber that is gone is gone for good |
| `Attachment.ShutForGood` | internal/poolmgr/claim/events.go:302-311 | closing the hub ends every subscription, and nothing changes it again |
| `SchedulerCore.Scheduler.constructor` | internal/scheduler/scheduler.go:125-170 | a new Scheduler holds nothing |
| `SchedulerCore.Scheduler.AvailableCapacityLocked` | internal/scheduler/capacity.go:65-77 | the smaller of free Slots and warm MicroVMs, never below zero, with no free Slot named first as the reason it is zero |
| `SchedulerCore.Scheduler.GrantSlot` | internal/scheduler/capacity.go:114-124 | a Reservation under a new id iff a Slot is free and something is warm; every other Reservation stays |
| `SchedulerCore.Scheduler.ReleaseHeld` | internal/scheduler/capacity.go:153-164 | exactly that Reservation goes; a second release changes nothing |
| `SchedulerCore.Scheduler.ConvertReservation` | internal/scheduler/capacity.go:176-186 | exactly that Reservation, if still held, becomes exactly that Allocation, in one step; otherwise nothing changes |
| `SchedulerCore.Scheduler.ReleaseProfileLocked` | internal/scheduler/capacity.go:258-266 | one unit is returned and everyone waiting is woken |
| `SchedulerCore.Scheduler.FinishAllocation` | internal/scheduler/capacity.go:192-206 | only the first call ends the Allocation, and no other, and returns its unit; the last one ends the drain |
| `SchedulerCore.Scheduler.EnterProfileLimit` | internal/scheduler/capacity.go:237-247 | a unit is taken iff the Profile has no maximum or its use is below it, and the caller holds the wake-up of that moment |
| `SchedulerRuns.SlotsReserve` | internal/scheduler/capacity.go:91-164 | a grant keeps within the Slots; a Reservation released twice or late returns its Slot once |
| `SchedulerRuns.SlotsAlloc` | internal/scheduler/capacity.go:176-186 | no step of Allocate changes the number of Slots in use |
| `SchedulerRuns.SlotsEnd` | internal/scheduler/capacity.go:192-206 | ending an Allocation returns its Slot exactly once, whoever gets there first |
| `SchedulerRuns.LimitsAreKept` | internal/scheduler/capacity.go:18-266 | in every reachable state Slots are not overcommitted, ids are in one map only, each Profile's use equals its allocations in flight plus its live ones and keeps its maximum, and a caller left waiting is one whose Profile has a maximum with exactly that many units out: no wake-up is lost |
| `SchedulerRuns.AdmittedIff` | internal/scheduler/capacity.go:237-247 | a caller gets past the limit iff its Profile has no maximum or fewer units than that are out, counted from the allocations in flight and the live ones; otherwise it waits |
| `SchedulerRuns.RunSound` | internal/scheduler/release.go:29-296 | every interleaving keeps all of the invariants |
| `SchedulerRuns.LedgerIsGranted` | internal/scheduler/allocate.go:88-190 | the ledger holds exactly the Leases that claims were answered with |
| `SchedulerRuns.GoneEnd` | internal/scheduler/release.go:29-105 | every step that ends an Allocation drops a Lease only when the handle it belongs to has been told that it is gone; `SchedulerFates.ReadDecides` and `SchedulerFates.FatesOfLeases` say that it then does |
| `SchedulerRuns.LeasePartition` | internal/scheduler/allocate.go:234-289 | in every reachable state each Lease a claim was answered with, and no other, is in exactly one of: in flight, held by a live Allocation, retained, handed to release, known gone; one holder has it, its release starts at most once and never if it is gone, and it is dropped only if its handle has been told so; which of these it comes to is `SchedulerFates.FatesOfLeases` |
| `SchedulerRuns.LostIsNeverReleased` | internal/scheduler/heartbeat.go:180-185 | and no release of it is started, however the run goes on |
| `SchedulerRuns.TerminalStep` | internal/scheduler/release.go:134-169 | a Lease handed back or dropped stays so |
| `SchedulerRuns.ShutdownAlloc` | internal/scheduler/allocate.go:272-289 | after the Reservations are emptied no step of Allocate makes an Allocation |
| `SchedulerRuns.ShutdownIsFinal` | internal/scheduler/release.go:235-272 | once shutdown has emptied the Reservations no Allocation is ever made again, and once it has returned there is none for good |
| `SchedulerFates.LeaseFates` | internal/scheduler/release.go:29-105 | every step: which Lease it drops, which release it starts and which handle it tells, and no other |
| `SchedulerFates.FatesOfLeases` | internal/scheduler/release.go:29-105 | over every run the Leases dropped are exactly those lost or read to be gone, the releases started exactly those given up, not retained, or retained and not read to be gone, and the handles told exactly those a loss was marked on |
| `SchedulerFates.ReadDecides` | internal/scheduler/release.go:29-43 | a task that ended an Allocation and reads whether its Lease is gone drops it iff its handle has been told so; then it stays dropped and is never released, in every continuation; otherwise it goes on to be handed over |
| `SchedulerFates.ReadKeptDecides` | internal/scheduler/release.go:92-105 | the same once a Lease has been retained long enough: dropped iff its handle has been told, and its release started iff not |
| `SchedulerFates.HandOverDecides` | internal/scheduler/release.go:71-86 | a Lease not gone is retained iff that was asked for and background work is still taken on, and its release starts otherwise |
| `SchedulerFates.KeptIffRetained` | internal/scheduler/release.go:55-87 | in every reachable state a task that ended an Allocation means to keep its Lease iff it was Retain that ended it |
| `SchedulerFates.Holdings` | internal/scheduler/capacity.go:91-206 | every step: which Reservations and which Allocations come and go, all others staying, and that callers waiting at a limit are woken iff a unit is returned |
| `SchedulerFates.AllocateKeepsItsRequest` | internal/scheduler/allocate.go:21-52 | Allocate works for the Reservation and the Profile it was called with, and the Lease its claim was answered with |
| `SchedulerFates.NobodyBeginsToReserve` | internal/scheduler/capacity.go:91-112 | once the Scheduler is not running nobody begins to reserve |
| `SchedulerFates.DrainEndsWhenEmpty` | internal/scheduler/release.go:235-252 | in every reachable state a shutdown that drains can go on iff no Allocation is live, and background work is closed iff shutdown has come to its end |
| `SchedulerCalls.OwnStepAdvances` | internal/scheduler/allocate.go:65-87 | a call that takes a step ends, or has fewer left, or has been woken since it last looked |
| `SchedulerCalls.OthersLeaveItBe` | internal/scheduler/allocate.go:21-52 | nobody else's step touches a call |
| `SchedulerCalls.CallsAdvance` | internal/scheduler/allocate.go:65-87 | over every run a call takes at most six steps and one more for each unit returned while it ran: a caller refused at a limit looks again only once a unit has been returned since |
| `SchedulerCalls.CallBegins` | internal/scheduler/release.go:29-105 | what a call is about is what it was called with |
| `SchedulerCalls.CallKeepsItsRequest` | internal/scheduler/release.go:29-105 | and stays so over every run: one Reservation and one Profile, or one handle and, once it is won, one Lease |
| `SchedulerCalls.StateToldByCalls` | internal/scheduler/scheduler.go:265-327 | in every reachable state: new until Run is called, then running, stopping once told to, stopped once Run returns |
| `Backoff.Next` | internal/clock/clock.go:71-89 | the loop in wrapping 64-bit arithmetic returns min(base doubled n times, max), for every attempt and every cap, and what it returns without a cap |
| `Backoff.CappedIsMonotone` | internal/clock/clock.go:63-89 | with a cap the waits are positive, never fall and never pass the cap |
| `Backoff.UncappedWaitsWhileItFits` | internal/clock/clock.go:63-89 | without one a wait is positive iff the doubling fits 64 bits |
| `Backoff.UncappedWaitRunsOut` | internal/clock/clock.go:63-89 | one nanosecond doubled 63 times is no wait at all |
| `KeepAlive.DelayBounds` | internal/scheduler/heartbeat.go:127-141 | a wait is at least 1 ms and at most half the remaining time or 1 ms, and keeps to the interval and the backoff; it keeps to the half iff the half is at least 1 ms |
| `KeepAlive.DelayIsLongest` | internal/scheduler/heartbeat.go:127-141 | whenever some wait keeps to all the limits the delay does too and is the longest of them |
| `KeepAlive.DelayWhenNonePermitted` | internal/scheduler/heartbeat.go:127-141 | when none does it is 1 ms |
| `KeepAlive.FailsInARow` | internal/scheduler/heartbeat.go:58-120 | the attempt a round backs off by is the number of calls that failed just before it |
| `KeepAlive.ExpiryLastReceived` | internal/scheduler/heartbeat.go:58-120 | the expiry a round goes by is that of the last call that renewed the Lease |
| `KeepAlive.WaitPassesHalf` | internal/scheduler/heartbeat.go:127-141 | with 1 ms left the wait is all of it |
| `KeepAlive.HeartbeatLoop` | internal/scheduler/heartbeat.go:58-120 | each round goes by the last expiry received, backs off by the failures since and waits no less than the longest wait that keeps to every limit; the Lease is lost only on NOT_FOUND or once that expiry has passed; and if from any call on they keep failing it is lost, before the last expiry received plus 1 ms plus one deadline |
| `KeepAlive.WaitsAreBounded` | internal/scheduler/heartbeat.go:127-141 | every wait of every run keeps to that bound |
| `KeepAlive.WaitsAreLongest` | internal/scheduler/heartbeat.go:127-141 | and is no shorter than the longest wait permitted |
| `KeepAlive.FailingCallsUseUpLease` | internal/scheduler/heartbeat.go:58-120 | from any round on, while nothing renews the Lease, the number of rounds is bounded by the time that was left |
| `KeepAlive.FailingLoopEndsInTime` | internal/scheduler/heartbeat.go:14-16 | so a loop whose calls fail from some call on, as many as the time then left can hold, ends by declaring the Lease lost, before the last expiry received plus 1 ms plus one deadline, whatever was renewed before |
| `AgentProbe.ProbeLoop` | internal/scheduler/agentprobe.go:44-93 | the Job is aborted exactly at the first row of threshold failures, and an Exec Agent silent since x is given up by x + threshold·(interval + deadline) |
| `RegistryCore.RetireAllForm` | internal/flintlock/registry.go:68-74 | what has become of each connection once a list of them is retired |
| `RegistryRuns.LeaseKeeps` | internal/flintlock/registry.go:115-125 | taking a lease keeps every connection accounted for |
| `RegistryRuns.ReleaseKeeps` | internal/flintlock/registry.go:127-151 | so does giving one back, however often |
| `RegistryRuns.BeginKeeps` | internal/flintlock/registry.go:200-250 | so does a reload up to its second hold of the lock |
| `RegistryRuns.PublishKeeps` | internal/flintlock/registry.go:252-271 | so does publishing, with any leases taken and given back since |
| `RegistryRuns.CloseKeeps` | internal/flintlock/registry.go:285-318 | so does Close |
| `RegistryRuns.Run` | internal/flintlock/registry.go:115-318 | every state that any run reaches satisfies all of it |
| `RegistryRuns.Conservation` | internal/flintlock/registry.go:49-91 | over every run from a new Registry each connection is in exactly one of live, retired and leased, closed (or still with a reload, or lost by one); closed at most once; closed under a lease only after Close; its lease count is its unreleased leases |
| `RegistryRuns.ProperConservation` | internal/flintlock/registry.go:49-91 | over every run whose inventories have distinct non-empty names none is lost: live, retired and leased, closed, or being brought in, exactly one |
| `RegistryRuns.LeasedStaysOpen` | internal/flintlock/registry.go:104-151 | no step but Close closes a connection that is leased |
| `RegistryRuns.CloseLeavesNothingOpen` | internal/flintlock/registry.go:285-318 | after Close everything ever dialled has been closed exactly once, if no reload is under way and none lost a connection |
| `RegistryRuns.ProperCloseLeavesNothingOpen` | internal/flintlock/registry.go:285-318 | the same after every run whose inventories have distinct non-empty names |
| `RegistryRuns.LeaksIffBadNameAfterDial` | internal/flintlock/registry.go:218-224 | a reload loses connections iff it stops at a missing or repeated name after dialling something |
| `RegistryRuns.CanLeakIffChangedBeforeBad` | internal/flintlock/registry.go:218-224 | some answers of the dials make it lose one iff an entry before the first such name is new or changed, which the caller can see |
| `RegistryRuns.ProperRunLosesNothing` | internal/flintlock/registry.go:218-224 | with distinct non-empty names no run loses one |
| `RegistryRuns.ListedTwiceLeaks` | internal/flintlock/registry.go:218-224 | listing one new Host twice is enough |
| `RegistryRuns.RefusedReloadChangesNothing` | internal/flintlock/registry.go:229-237 | when a dial fails the live and retired sets are unchanged and everything newly dialled is closed once |
| `RegistryRuns.ReadyServesEndpoints` | internal/flintlock/registry.go:180-250 | a reload that goes through serves exactly the endpoints listed, each on a connection made with its terms, an unchanged one on the connection it had |
| `Reloads.LeaseIsOnTheHost` | internal/flintlock/registry.go:115-125 | a lease is given out iff the Host is live: a new one, on a connection of that Host neither retired nor closed, no other lease changing |
| `Reloads.HeldUntilGivenBack` | internal/flintlock/registry.go:109-125 | over every run a lease lasts until it is given back, on the connection it was taken on, and is then spent for good |
| `Reloads.OpenWhileHeld` | internal/flintlock/registry.go:104-114 | over every run without Close its connection stays open until then |
| `Reloads.OnlyCloseCloses` | internal/flintlock/registry.go:285-318 | over every run the Registry is closed iff Close was called |
| `Reloads.ReadyIff` | internal/flintlock/registry.go:206-237 | a reload goes on to publish iff every endpoint has a name not listed before it and whatever had to be dialled answered |
| `Reloads.ReloadServes` | internal/flintlock/registry.go:180-271 | after a reload, whatever leases were taken or given back while it dialled, what is live is exactly what it was given: an unchanged Host on the connection it had, any other on a new one made with its terms |
| `Reloads.SupersededFate` | internal/flintlock/registry.go:252-271 | a connection superseded is retired, and closed there and then iff nobody holds it |
| `Reloads.ClosedIsFinal` | internal/flintlock/registry.go:285-318 | once closed, with no reload under way, no run dials, gives out a lease or closes a connection again |
| `RegistryObjects.Registry.constructor` | internal/flintlock/registry.go:30-47 | a new Registry is empty |
| `RegistryObjects.Registry.Lease` | internal/flintlock/registry.go:115-125 | a new release function iff the Host is known |
| `RegistryObjects.Registry.ForgetRetired` | internal/flintlock/registry.go:142-151 | the loop takes the entry out of the retired list |
| `RegistryObjects.Registry.Release` | internal/flintlock/registry.go:127-140 | a release acts once: that lease and no other ends, and a retired entry is closed with its last holder |
| `RegistryObjects.Registry.Prepare` | internal/flintlock/registry.go:206-250 | the loop over the endpoints builds the next live set or stops where the scan does, closes what it dialled when a dial fails, and lists exactly the entries superseded |
| `RegistryObjects.Registry.RetireMissing` | internal/flintlock/registry.go:246-250 | adds the entries whose name is no longer listed |
| `RegistryObjects.Registry.Retire` | internal/flintlock/registry.go:261-269 | one entry is retired: closed if nobody holds it, kept if somebody does |
| `RegistryObjects.Registry.Publish` | internal/flintlock/registry.go:252-271 | takes the new live set and retires what it supersedes, or takes back what was dialled if closed |
| `RegistryObjects.Registry.OpenEntries` | internal/flintlock/registry.go:293-298 | every live entry and every retired one, once |
| `RegistryObjects.Registry.CloseEntry` | internal/flintlock/registry.go:302-308 | an entry is closed unless it is already |
| `RegistryObjects.Registry.Close` | internal/flintlock/registry.go:285-318 | closes each of them once; a second call does nothing |
| `Shell.LexQuote` | internal/transport/ssh.go:394-397 | a quoted string adds exactly itself to the word it is read in, whatever it holds |
| `Shell.LineReadsAsIntended` | internal/transport/ssh.go:364-397 | for every directory, path, arguments and environment with plain keys the shell reads exactly the words meant |
| `Shell.VariableNamesReadAsIntended` | internal/transport/ssh.go:364-397 | so for every environment whose keys are letters, digits and underscores |
| `Shell.OnlyPlainKeysReadAsIntended` | internal/transport/ssh.go:379-386 | and only then: a key with a blank, a quote, a backslash, an operator or a leading number sign loses a character, and one with a character that is expanded has no reading fixed by the line |
| `Shell.LineReadsAsIntendedIffKeysPlain` | internal/transport/ssh.go:364-397 | both directions |
| `Shell.BlankInKeyIsMisread` | internal/transport/ssh.go:379-386 | a key with a blank in it is misread, whatever its value |
| `Shell.SortedIsUnique` | internal/transport/ssh.go:360-363 | the environment has one sorted order, so the line is the same every time |
| `Shell.SortKeys` | internal/transport/ssh.go:372-376 | exactly the environment's keys, strictly ascending |
| `Shell.CommandLine` | internal/transport/ssh.go:364-392 | the builder's loops produce the line, keys sorted, and it is read as meant iff every key is plain |
| `TimerQueue.FiringIsDetermined` | internal/clock/fake.go:10-14 | which timers fire and in which order is settled by the pending timers |
| `TimerQueue.StopoverChangesNothing` | internal/clock/fake.go:83-112 | moving in two steps fires what moving in one does, in the same order, and leaves the same timers |
| `FakeClock.Fake.constructor` | internal/clock/fake.go:28-32 | nothing is pending |
| `FakeClock.Fake.Fire` | internal/clock/fake.go:179-186 | a value already waiting is left in place |
| `FakeClock.Fake.Receive` | internal/clock/fake.go:189 | a receive empties the channel |
| `FakeClock.Fake.Arm` | internal/clock/fake.go:54-67 | a positive duration is pending at its deadline, any other fires at once; every pending deadline stays strictly after Now |
| `FakeClock.Fake.NewTimer` | internal/clock/fake.go:44-52 | the same for a new timer |
| `FakeClock.Fake.Remove` | internal/clock/fake.go:69-83 | takes out the timer named and no other, and reports whether it was pending |
| `FakeClock.Fake.Stop` | internal/clock/fake.go:191-196 | every other timer stays as it was |
| `FakeClock.Fake.Reset` | internal/clock/fake.go:198-210 | drains an earlier firing and arms again, leaving every other timer and every other channel as it was |
| `FakeClock.Fake.NextDue` | internal/clock/fake.go:114-127 | the earliest timer due, ties broken by arming order, or none when none is due |
| `FakeClock.Fake.FireNext` | internal/clock/fake.go:98-107 | one turn of the loop |
| `FakeClock.Fake.FireDue` | internal/clock/fake.go:98-107 | the loop ends, having fired exactly the timers due, in order |
| `FakeClock.Fake.Set` | internal/clock/fake.go:93-112 | fires exactly the timers due by t in (deadline, arming) order, Now being each one's own deadline, none of them dropped; Now ends at the later of t and what it was |
| `FakeClock.Fake.Advance` | internal/clock/fake.go:85-91 | the same, by a duration |

## Left out

- The Tracker's table of Pool objects is a value in `Polls.dfy`; each Pool's own in-place update is the class in `Tracker.dfy`, so aliasing between the table and a Pool is not modelled.
- The pacing of the Tracker's poll and subscribe loops, and stream loss and reconnection: which step comes next is arbitrary instead.
- 32-bit counts and 64-bit generations and ids are unbounded integers, except in `Backoff`.
- The Placement cache, which follows the Allocation map entry by entry.
- The claim retry loop's waiting on a Pool and the release loop's retries: a claim is answered or fails, and a release is counted when its loop starts.
- Host health: a failing Host is one of the causes that can end an Allocation, with no threshold of its own.
- CheckLease, Reload of Profiles, Pool declaration, and Snapshot.
- The Done channel and error of a handle.
- Scheduling delay in the keep-alive and probe loops: a timer is served when it is due.
- The hub's watch loop and its reconnection; a resync takes the list as given.
- The Registry's Get, Endpoint and Names, which only read, and the errors Close joins. A connection counts as closed when it is marked so under the lock; the call follows outside it.
- The shell's expansions: a line with an unquoted dollar sign or backquote has no reading in the tokenizer, and pathname expansion, reserved words and the bodies of here-documents are not modelled.
- BlockUntil and Deadlines of the fake clock.
- gRPC, Kubernetes, TLS, SSH sessions, the GitLab Runner integration, configuration, metrics and logging.
