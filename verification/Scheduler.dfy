/**
 The Scheduler's accounting: what one hold of its lock does to the
 Reservations, the Allocations, the Profiles' concurrency units and the drain
 channel. Channels are epochs: a holder of epoch n is awake once the epoch has
 passed n.
 */
module SchedulerCore {
  import opened Basics

  type Id = nat
  type Lease = string
  type Profile = string

  datatype RunState = New | Running | Stopping | Stopped

  datatype Refusal = Granted | NoFreeSlot | NoWarmMicroVM

  /** The identifiers of an Allocation, fixed when it is built. */
  datatype Handle = Handle(lease: Lease, profile: Profile)

  /** `limits` are the Profiles' configured maxima, none where zero or absent.
      `draining` is an open drain channel. */
  datatype Core = Core(
    slots: nat, limits: map<Profile, nat>,
    state: RunState, reservations: set<Id>, allocations: map<Id, Handle>,
    profileUse: map<Profile, nat>, freeEpoch: nat, draining: bool, nextID: Id, bgClosed: bool)
  {
    function SlotsInUse(): nat {
      |reservations| + |allocations|
    }

    function Use(p: Profile): nat {
      if p in profileUse then profileUse[p] else 0
    }

    function Limit(p: Profile): nat {
      if p in limits then limits[p] else 0
    }

    predicate AtLimit(p: Profile) {
      Limit(p) > 0 && Use(p) >= Limit(p)
    }
  }

  /** How many Reservations may still be granted, and why not more. */
  function Capacity(c: Core, warm: int): (int, Refusal) {
    var free := c.slots - c.SlotsInUse();
    if free <= 0 then (0, NoFreeSlot)
    else if warm <= 0 then (0, NoWarmMicroVM)
    else if warm < free then (warm, Granted)
    else (free, Granted)
  }

  function Grant(c: Core, warm: int): Core {
    if Capacity(c, warm).0 <= 0 then c
    else c.(nextID := c.nextID + 1, reservations := c.reservations + {c.nextID + 1})
  }

  function ReleaseReservation(c: Core, r: Id): Core {
    c.(reservations := c.reservations - {r})
  }

  function TakeId(c: Core): Core {
    c.(nextID := c.nextID + 1)
  }

  function Convert(c: Core, r: Id, id: Id, h: Handle): Core {
    if r !in c.reservations then c
    else c.(reservations := c.reservations - {r}, allocations := c.allocations[id := h])
  }

  function ReturnUnit(c: Core, p: Profile): Core {
    c.(profileUse := if c.Use(p) > 1 then c.profileUse[p := c.Use(p) - 1] else c.profileUse - {p},
       freeEpoch := c.freeEpoch + 1)
  }

  function Finish(c: Core, id: Id): Core {
    if id !in c.allocations then c
    else
      var d := ReturnUnit(c.(allocations := c.allocations - {id}), c.allocations[id].profile);
      d.(draining := d.draining && d.allocations != map[])
  }

  function EnterProfile(c: Core, p: Profile): Core {
    if c.AtLimit(p) then c else c.(profileUse := c.profileUse[p := c.Use(p) + 1])
  }

  /** Asking for the drain channel, which is closed already when nothing is held. */
  function AskDrained(c: Core): Core {
    if c.allocations == map[] then c else c.(draining := true)
  }

  class Scheduler {
    const slots: nat
    const limits: map<Profile, nat>
    var state: RunState
    var reservations: set<Id>
    var allocations: map<Id, Handle>
    var profileUse: map<Profile, nat>
    var freeEpoch: nat
    var draining: bool
    var nextID: Id
    var bgClosed: bool

    ghost function Value(): Core
      reads this
    {
      Core(slots, limits, state, reservations, allocations, profileUse, freeEpoch, draining, nextID, bgClosed)
    }

    constructor (slots: nat, limits: map<Profile, nat>)
      ensures Value() == Core(slots, limits, New, {}, map[], map[], 0, false, 0, false)
    {
      this.slots, this.limits := slots, limits;
      state, reservations, allocations, profileUse := New, {}, map[], map[];
      freeEpoch, draining, nextID, bgClosed := 0, false, 0, false;
    }

    method AvailableCapacityLocked(warm: int) returns (n: int, why: Refusal)
      ensures (n, why) == Capacity(Value(), warm)
      ensures n == Max(0, Min(slots - |reservations| - |allocations|, warm))
      ensures why == Granted <==> n > 0
      ensures why == NoFreeSlot <==> |reservations| + |allocations| >= slots
    {
      var free := slots - (|reservations| + |allocations|);
      if free <= 0 {
        return 0, NoFreeSlot;
      }
      if warm <= 0 {
        return 0, NoWarmMicroVM;
      }
      if warm < free {
        return warm, Granted;
      }
      return free, Granted;
    }

    method GrantSlot(warm: int) returns (r: Option<Id>, why: Refusal)
      modifies this
      ensures Value() == Grant(old(Value()), warm)
      ensures r.Some? <==> Capacity(old(Value()), warm).0 > 0
      ensures r.Some? <==> old(|reservations| + |allocations|) < slots && warm > 0
      ensures r.Some? ==> r.value == nextID == old(nextID) + 1 && reservations == old(reservations) + {r.value}
      ensures r.None? ==> Value() == old(Value())
      ensures r.None? ==> why == Capacity(old(Value()), warm).1
    {
      hide Capacity;
      var n;
      n, why := AvailableCapacityLocked(warm);
      if n <= 0 {
        return None, why;
      }
      nextID := nextID + 1;
      reservations := reservations + {nextID};
      r := Some(nextID);
    }

    method ReleaseHeld(r: Id) returns (held: bool)
      modifies this
      ensures Value() == ReleaseReservation(old(Value()), r)
      ensures held == (r in old(reservations)) && reservations == old(reservations) - {r}
    {
      held := r in reservations;
      reservations := reservations - {r};
    }

    method ConvertReservation(r: Id, id: Id, h: Handle) returns (ok: bool)
      modifies this
      ensures Value() == Convert(old(Value()), r, id, h)
      ensures ok == (r in old(reservations))
      ensures ok ==> reservations == old(reservations) - {r} && allocations == old(allocations)[id := h]
      ensures !ok ==> Value() == old(Value())
    {
      if r !in reservations {
        return false;
      }
      reservations := reservations - {r};
      allocations := allocations[id := h];
      return true;
    }

    method ReleaseProfileLocked(p: Profile)
      modifies this
      ensures Value() == ReturnUnit(old(Value()), p)
    {
      var n := if p in profileUse then profileUse[p] else 0;
      if n > 1 {
        profileUse := profileUse[p := n - 1];
      } else {
        profileUse := profileUse - {p};
      }
      freeEpoch := freeEpoch + 1;
    }

    /** Whether this call was the one that ended the Allocation. */
    method FinishAllocation(id: Id) returns (ended: bool)
      modifies this
      ensures Value() == Finish(old(Value()), id)
      ensures ended == (id in old(allocations)) && allocations == old(allocations) - {id}
      ensures freeEpoch == old(freeEpoch) + if ended then 1 else 0
      ensures draining == (old(draining) && !(ended && allocations == map[]))
    {
      if id !in allocations {
        return false;
      }
      var p := allocations[id].profile;
      allocations := allocations - {id};
      ReleaseProfileLocked(p);
      if |allocations| == 0 && draining {
        draining := false;
      }
      return true;
    }

    method EnterProfileLimit(p: Profile) returns (entered: bool, free: nat)
      modifies this
      ensures Value() == EnterProfile(old(Value()), p)
      ensures entered <==> p !in limits || limits[p] == 0
                           || (if p in old(profileUse) then old(profileUse)[p] else 0) < limits[p]
      ensures profileUse == if !entered then old(profileUse)
                            else old(profileUse)[p := 1 + if p in old(profileUse) then old(profileUse)[p] else 0]
      ensures free == old(freeEpoch) && freeEpoch == free
    {
      free := freeEpoch;
      var limit := if p in limits then limits[p] else 0;
      var use := if p in profileUse then profileUse[p] else 0;
      if limit > 0 && use >= limit {
        return false, free;
      }
      profileUse := profileUse[p := use + 1];
      return true, free;
    }
  }
}

/**
 Every interleaving of the calls on the Scheduler. A task is one goroutine
 between two holds of a lock; one step runs one task through its next hold, or
 starts one. The Pool Manager, the Hosts, the timers and the run loop decide
 which step comes next, and what a claim answers.
 */
module SchedulerRuns {
  import opened Basics
  import opened SchedulerCore

  type Tid = nat

  datatype Why = Released | Retained | Aborted

  datatype Task =
    | Reserving
    | Entering(r: Id, p: Profile)
    | Waiting(r: Id, p: Profile, epoch: nat)
    | Claiming(r: Id, p: Profile)
    | Claimed(r: Id, p: Profile, lease: Lease)
    | Built(r: Id, p: Profile, lease: Lease, id: Id)
    | Failing(p: Profile)
    | Losing(h: Id, marked: bool)
    | Ending(h: Id, why: Why)
    | Won(h: Id, lease: Lease, keep: bool)
    | Handing(h: Id, lease: Lease, keep: bool)
    | Keeping(h: Id, lease: Lease)
    | Kept(h: Id, lease: Lease)
  {
    predicate HoldsLease() {
      Claimed? || Built? || Won? || Handing? || Keeping? || Kept?
    }

    predicate HoldsUnit() {
      Claiming? || Claimed? || Built? || Failing?
    }

    /** After `finish` the task has the Lease of the handle it ended. */
    predicate CarriesOff() {
      Won? || Handing? || Keeping? || Kept?
    }

    predicate HasReservation() {
      Entering? || Waiting? || Claiming? || Claimed? || Built?
    }
  }

  /** Where a Lease is: with a task, with a live Allocation, handed to the
      release loop, or dropped because it is known to be gone. */
  datatype Place = InHand(t: Tid) | Held(h: Id) | HandedBack | Gone

  /** How far `shutdown` has come. `mark` is the last id taken when it emptied
      the Reservations. */
  datatype Phase = Serving | Quitting | Emptied(mark: Id) | Draining(mark: Id) | Aborting(mark: Id, todo: set<Id>) | Down(mark: Id) {
    predicate PastEmptied() {
      !Serving? && !Quitting?
    }
  }

  /** `handles` are all Allocations ever made, `gone` those whose Lease is marked
      gone; `releases` counts the starts of the release loop by Lease; `ledger`
      follows every Lease ever granted. */
  datatype Sys = Sys(
    core: Core, tasks: map<Tid, Task>, handles: map<Id, Handle>, gone: set<Id>,
    releases: multiset<Lease>, dropped: set<Lease>, ledger: map<Lease, Place>, phase: Phase)

  /** The steps of Reserve and ReleaseReservation. */
  datatype Reserve =
    | StartReserve(t: Tid)
    | GrantSlot(t: Tid, warm: int)
    | ReleaseHeld(r: Id)

  /** The steps of Allocate. */
  datatype Alloc =
    | StartAllocate(t: Tid, r: Id, p: Profile)
    | Enter(t: Tid)
    | GiveUp(t: Tid)
    | ClaimAnswered(t: Tid, lease: Lease)
    | ClaimFailed(t: Tid)
    | Abandon(t: Tid)
    | Build(t: Tid)
    | ConvertSlot(t: Tid)
    | Leave(t: Tid)

  /** The steps that end an Allocation: `leaseLost`, and Release, Retain or an
      abort by a failed Host, Exec Agent or shutdown. */
  datatype Ends =
    | StartLose(t: Tid, h: Id)
    | MarkGone(t: Tid)
    | FinishLost(t: Tid)
    | StartEnd(t: Tid, h: Id, why: Why)
    | FinishEnded(t: Tid)
    | ReadGone(t: Tid)
    | HandOver(t: Tid)
    | KeepElapsed(t: Tid)
    | ReadGoneKept(t: Tid)

  /** The steps of Run and shutdown. */
  datatype Life =
    | Begin
    | Stop
    | EmptyReservations
    | AskDrain
    | DrainClosed
    | TimeoutElapsed
    | AbortNext(t: Tid, h: Id)
    | AbortDone
    | RunReturns

  datatype Step = ReserveStep(r: Reserve) | AllocStep(a: Alloc) | EndsStep(e: Ends) | LifeStep(l: Life)

  predicate CanReserve(s: Sys, step: Reserve) {
    match step
    case StartReserve(t) => t !in s.tasks && s.core.state == Running
    case GrantSlot(t, _) => t in s.tasks && s.tasks[t].Reserving?
    case ReleaseHeld(r) => true
  }

  predicate CanAlloc(s: Sys, step: Alloc) {
    match step
    // The Reservation is one the Scheduler has handed out.
    case StartAllocate(t, r, _) => t !in s.tasks && s.core.state == Running && r <= s.core.nextID
    // A caller refused at the limit tries again once its channel is closed.
    case Enter(t) =>
      && t in s.tasks
      && (s.tasks[t].Entering? || (s.tasks[t].Waiting? && s.tasks[t].epoch < s.core.freeEpoch))
    case GiveUp(t) => t in s.tasks && s.tasks[t].Waiting?
    case ClaimAnswered(t, lease) => t in s.tasks && s.tasks[t].Claiming? && lease !in s.ledger
    case ClaimFailed(t) => t in s.tasks && s.tasks[t].Claiming?
    case Abandon(t) => t in s.tasks && s.tasks[t].Claimed?
    case Build(t) => t in s.tasks && s.tasks[t].Claimed?
    case ConvertSlot(t) => t in s.tasks && s.tasks[t].Built?
    case Leave(t) => t in s.tasks && s.tasks[t].Failing?
  }

  predicate CanEnd(s: Sys, step: Ends) {
    match step
    case StartLose(t, h) => t !in s.tasks && h in s.handles
    case MarkGone(t) => t in s.tasks && s.tasks[t].Losing? && !s.tasks[t].marked
    case FinishLost(t) => t in s.tasks && s.tasks[t].Losing? && s.tasks[t].marked
    case StartEnd(t, h, _) => t !in s.tasks && h in s.handles
    case FinishEnded(t) => t in s.tasks && s.tasks[t].Ending?
    case ReadGone(t) => t in s.tasks && s.tasks[t].Won?
    case HandOver(t) => t in s.tasks && s.tasks[t].Handing?
    case KeepElapsed(t) => t in s.tasks && s.tasks[t].Keeping?
    case ReadGoneKept(t) => t in s.tasks && s.tasks[t].Kept?
  }

  predicate CanLive(s: Sys, step: Life) {
    match step
    case Begin => s.core.state == New
    case Stop => s.core.state == Running
    case EmptyReservations => s.phase.Quitting?
    case AskDrain => s.phase.Emptied?
    case DrainClosed => s.phase.Draining? && !s.core.draining
    case TimeoutElapsed => s.phase.Draining?
    case AbortNext(t, h) => t !in s.tasks && s.phase.Aborting? && h in s.phase.todo
    case AbortDone => s.phase.Aborting? && s.phase.todo == {}
    case RunReturns => s.phase.Down?
  }

  predicate Enabled(s: Sys, step: Step) {
    match step
    case ReserveStep(r) => CanReserve(s, r)
    case AllocStep(a) => CanAlloc(s, a)
    case EndsStep(e) => CanEnd(s, e)
    case LifeStep(l) => CanLive(s, l)
  }

  function Put(s: Sys, t: Tid, k: Task): Sys {
    s.(tasks := s.tasks[t := k])
  }

  function End(s: Sys, t: Tid): Sys {
    s.(tasks := s.tasks - {t})
  }

  function Moved(s: Sys, lease: Lease, pl: Place): Sys {
    s.(ledger := s.ledger[lease := pl])
  }

  /** The release loop starts for a Lease. */
  function HandBack(s: Sys, lease: Lease): Sys {
    Moved(s.(releases := s.releases + multiset{lease}), lease, HandedBack)
  }

  function DropLease(s: Sys, lease: Lease): Sys {
    Moved(s.(dropped := s.dropped + {lease}), lease, Gone)
  }

  function DoReserve(s: Sys, step: Reserve): Sys
    requires CanReserve(s, step)
  {
    match step
    case StartReserve(t) => Put(s, t, Reserving)
    case GrantSlot(t, warm) => End(s.(core := Grant(s.core, warm)), t)
    case ReleaseHeld(r) => s.(core := ReleaseReservation(s.core, r))
  }

  function DoAlloc(s: Sys, step: Alloc): Sys
    requires CanAlloc(s, step)
  {
    match step
    case StartAllocate(t, r, p) => Put(s, t, Entering(r, p))
    case Enter(t) =>
      var k := s.tasks[t];
      if s.core.AtLimit(k.p) then Put(s, t, Waiting(k.r, k.p, s.core.freeEpoch))
      else Put(s.(core := EnterProfile(s.core, k.p)), t, Claiming(k.r, k.p))
    case GiveUp(t) => End(s, t)
    case ClaimAnswered(t, lease) =>
      Moved(Put(s, t, Claimed(s.tasks[t].r, s.tasks[t].p, lease)), lease, InHand(t))
    case ClaimFailed(t) => Put(s, t, Failing(s.tasks[t].p))
    case Abandon(t) => HandBack(Put(s, t, Failing(s.tasks[t].p)), s.tasks[t].lease)
    case Build(t) =>
      var k := s.tasks[t];
      Put(s.(core := TakeId(s.core)), t, Built(k.r, k.p, k.lease, s.core.nextID + 1))
    case ConvertSlot(t) =>
      var k := s.tasks[t];
      var h := Handle(k.lease, k.p);
      if k.r in s.core.reservations then
        Moved(End(s.(core := Convert(s.core, k.r, k.id, h), handles := s.handles[k.id := h]), t), k.lease, Held(k.id))
      else HandBack(Put(s, t, Failing(k.p)), k.lease)
    case Leave(t) => End(s.(core := ReturnUnit(s.core, s.tasks[t].p)), t)
  }

  function DoEnd(s: Sys, step: Ends): Sys
    requires CanEnd(s, step)
  {
    match step
    case StartLose(t, h) => Put(s, t, Losing(h, false))
    case MarkGone(t) => Put(s.(gone := s.gone + {s.tasks[t].h}), t, Losing(s.tasks[t].h, true))
    case FinishLost(t) =>
      var h := s.tasks[t].h;
      var s' := End(s.(core := Finish(s.core, h)), t);
      if h in s.core.allocations then DropLease(s', s.core.allocations[h].lease) else s'
    case StartEnd(t, h, why) => Put(s, t, Ending(h, why))
    case FinishEnded(t) => EndByFinish(s, t, s.tasks[t].h, s.tasks[t].why.Retained?)
    case ReadGone(t) =>
      var k := s.tasks[t];
      if k.h in s.gone then DropLease(End(s, t), k.lease) else Put(s, t, Handing(k.h, k.lease, k.keep))
    case HandOver(t) =>
      var k := s.tasks[t];
      if k.keep && !s.core.bgClosed then Put(s, t, Keeping(k.h, k.lease)) else HandBack(End(s, t), k.lease)
    case KeepElapsed(t) => Put(s, t, Kept(s.tasks[t].h, s.tasks[t].lease))
    case ReadGoneKept(t) =>
      var k := s.tasks[t];
      if k.h in s.gone then DropLease(End(s, t), k.lease) else HandBack(End(s, t), k.lease)
  }

  function DoLife(s: Sys, step: Life): Sys
    requires CanLive(s, step)
  {
    match step
    case Begin => s.(core := s.core.(state := Running))
    case Stop => s.(core := s.core.(state := Stopping), phase := Quitting)
    case EmptyReservations => s.(core := s.core.(reservations := {}), phase := Emptied(s.core.nextID))
    case AskDrain => s.(core := AskDrained(s.core), phase := Draining(s.phase.mark))
    case DrainClosed => s.(core := s.core.(bgClosed := true), phase := Down(s.phase.mark))
    case TimeoutElapsed => s.(phase := Aborting(s.phase.mark, s.core.allocations.Keys))
    case AbortNext(t, h) =>
      EndByFinish(s.(phase := s.phase.(todo := s.phase.todo - {h})), t, h, false)
    case AbortDone => s.(core := s.core.(bgClosed := true), phase := Down(s.phase.mark))
    case RunReturns => s.(core := s.core.(state := Stopped))
  }

  function Do(s: Sys, step: Step): Sys
    requires Enabled(s, step)
  {
    match step
    case ReserveStep(r) => DoReserve(s, r)
    case AllocStep(a) => DoAlloc(s, a)
    case EndsStep(e) => DoEnd(s, e)
    case LifeStep(l) => DoLife(s, l)
  }

  /** The task that wins `finish` takes the Lease with it. */
  function EndByFinish(s: Sys, t: Tid, h: Id, keep: bool): Sys {
    var s' := s.(core := Finish(s.core, h));
    if h in s.core.allocations then
      var lease := s.core.allocations[h].lease;
      Moved(Put(s', t, Won(h, lease, keep)), lease, InHand(t))
    else End(s', t)
  }

  function NewSys(slots: nat, limits: map<Profile, nat>): Sys {
    Sys(Core(slots, limits, New, {}, map[], map[], 0, false, 0, false),
        map[], map[], {}, multiset{}, {}, map[], Serving)
  }

  ghost predicate CanRun(s: Sys, steps: seq<Step>)
    decreases |steps|
  {
    steps == [] || (Enabled(s, steps[0]) && CanRun(Do(s, steps[0]), steps[1..]))
  }

  ghost function DoAll(s: Sys, steps: seq<Step>): Sys
    requires CanRun(s, steps)
    decreases |steps|
  {
    if steps == [] then s else DoAll(Do(s, steps[0]), steps[1..])
  }

  // ---------------------------------------------------------------- ids and Slots

  /** Ids are fresh across Reservations, Allocations and the ones on their way. */
  ghost predicate FreshIds(s: Sys) {
    && (forall r :: r in s.core.reservations ==> r <= s.core.nextID && r !in s.handles)
    && (forall h :: h in s.handles ==> h <= s.core.nextID)
    && (forall h :: h in s.core.allocations ==> h in s.handles && s.handles[h] == s.core.allocations[h])
    && (forall t :: t in s.tasks && s.tasks[t].Built? ==>
          s.tasks[t].id <= s.core.nextID && s.tasks[t].id !in s.handles && s.tasks[t].id !in s.core.reservations)
    && (forall t, u :: t in s.tasks && u in s.tasks && t != u && s.tasks[t].Built? && s.tasks[u].Built? ==>
          s.tasks[t].id != s.tasks[u].id)
  }

  /** Steps that build no handle and convert nothing keep ids fresh. */
  lemma FreshKept(s: Sys, s': Sys)
    requires FreshIds(s) && s'.handles == s.handles && s'.core.nextID >= s.core.nextID
    requires forall t :: t in s'.tasks && s'.tasks[t].Built? ==> t in s.tasks && s.tasks[t] == s'.tasks[t]
    requires forall h :: h in s'.core.allocations ==>
               h in s.core.allocations && s.core.allocations[h] == s'.core.allocations[h]
    requires forall r :: r in s'.core.reservations ==>
               r in s.core.reservations || s.core.nextID < r <= s'.core.nextID
    ensures FreshIds(s')
  {
  }

  lemma FreshIdsReserve(s: Sys, step: Reserve)
    requires FreshIds(s) && CanReserve(s, step)
    ensures FreshIds(DoReserve(s, step))
  {
    hide FreshIds, Capacity;
    FreshKept(s, DoReserve(s, step));
  }

  lemma FreshIdsAlloc(s: Sys, step: Alloc)
    requires FreshIds(s) && CanAlloc(s, step)
    ensures FreshIds(DoAlloc(s, step))
  {
    hide FreshIds, ReturnUnit, Convert, TakeId;
    if step.Build? || step.ConvertSlot? {
      FreshIdsConvert(s, step);
    } else {
      if step.Leave? {
        ReturnUnitFrame(s.core, s.tasks[step.t].p);
      }
      FreshKept(s, DoAlloc(s, step));
    }
  }

  lemma FreshIdsConvert(s: Sys, step: Alloc)
    requires FreshIds(s) && CanAlloc(s, step) && (step.Build? || step.ConvertSlot?)
    ensures FreshIds(DoAlloc(s, step))
  {
    hide ReturnUnit, EnterProfile;
  }

  lemma FreshIdsEnd(s: Sys, step: Ends)
    requires FreshIds(s) && CanEnd(s, step)
    ensures FreshIds(DoEnd(s, step))
  {
    hide FreshIds, Finish;
    if step.FinishLost? || step.FinishEnded? {
      FinishFrame(s.core, s.tasks[step.t].h);
    }
    FreshKept(s, DoEnd(s, step));
  }

  lemma FreshIdsLife(s: Sys, step: Life)
    requires FreshIds(s) && CanLive(s, step)
    ensures FreshIds(DoLife(s, step))
  {
    hide FreshIds, Finish;
    if step.AbortNext? {
      FinishFrame(s.core, step.h);
    }
    FreshKept(s, DoLife(s, step));
  }

  lemma ReturnUnitFrame(c: Core, p: Profile)
    ensures var d := ReturnUnit(c, p);
            d == c.(profileUse := d.profileUse, freeEpoch := d.freeEpoch)
  {
  }

  lemma FinishFrame(c: Core, id: Id)
    ensures var d := Finish(c, id);
            d == c.(allocations := c.allocations - {id}, profileUse := d.profileUse, freeEpoch := d.freeEpoch,
                    draining := c.draining && (id in c.allocations ==> c.allocations - {id} != map[]))
  {
    if id !in c.allocations {
      assert c.allocations - {id} == c.allocations;
    }
  }

  ghost predicate WithinSlots(s: Sys) {
    s.core.SlotsInUse() <= s.core.slots
  }

  lemma SizeAfterRemoval(m: map<Id, Handle>, id: Id)
    ensures |m - {id}| == |m| - (if id in m then 1 else 0)
  {
    assert (m - {id}).Keys == m.Keys - {id};
    assert |m.Keys| == |m| && |(m - {id}).Keys| == |m - {id}|;
  }

  lemma ConvertSlots(c: Core, r: Id, id: Id, h: Handle)
    requires id !in c.allocations
    ensures Convert(c, r, id, h).SlotsInUse() == c.SlotsInUse() && Convert(c, r, id, h).slots == c.slots
  {
    if r in c.reservations {
      assert c.allocations[id := h].Keys == c.allocations.Keys + {id};
      assert |c.allocations.Keys| == |c.allocations| && |c.allocations[id := h].Keys| == |c.allocations[id := h]|;
    }
  }

  lemma GrantSlots(c: Core, warm: int)
    requires forall r :: r in c.reservations ==> r <= c.nextID
    ensures var d := Grant(c, warm);
            && d.slots == c.slots && d.allocations == c.allocations
            && c.SlotsInUse() <= d.SlotsInUse()
            && (c.SlotsInUse() <= c.slots ==> d.SlotsInUse() <= c.slots)
  {
  }

  lemma ReleaseSlots(c: Core, r: Id)
    ensures ReleaseReservation(c, r).SlotsInUse() == c.SlotsInUse() - (if r in c.reservations then 1 else 0)
  {
    if r !in c.reservations {
      assert c.reservations - {r} == c.reservations;
    }
  }

  /** A grant takes no more Slots than there are, and a Reservation released
      twice, or late, returns its Slot once. */
  lemma SlotsReserve(s: Sys, step: Reserve)
    requires FreshIds(s) && CanReserve(s, step)
    ensures var (before, after) := (s.core.SlotsInUse(), DoReserve(s, step).core.SlotsInUse());
            && (WithinSlots(s) ==> WithinSlots(DoReserve(s, step)))
            && (step.ReleaseHeld? ==> after == before - (if step.r in s.core.reservations then 1 else 0))
            && (!step.ReleaseHeld? ==> before <= after)
  {
    hide Grant, Capacity;
    match step
    case GrantSlot(t, warm) => GrantSlots(s.core, warm);
    case ReleaseHeld(r) => ReleaseSlots(s.core, r);
    case StartReserve(_) =>
  }

  /** Converting a Reservation leaves the number of Slots in use as it was, and
      so does everything else Allocate does. */
  lemma SlotsAlloc(s: Sys, step: Alloc)
    requires FreshIds(s) && CanAlloc(s, step)
    ensures DoAlloc(s, step).core.SlotsInUse() == s.core.SlotsInUse()
    ensures DoAlloc(s, step).core.slots == s.core.slots
  {
    assert step.ConvertSlot? ==> s.tasks[step.t].id !in s.core.allocations;
    hide FreshIds, Convert, ReturnUnit;
    match step
    case ConvertSlot(t) =>
      ConvertSlots(s.core, s.tasks[t].r, s.tasks[t].id, Handle(s.tasks[t].lease, s.tasks[t].p));
    case Leave(t) => ReturnUnitFrame(s.core, s.tasks[t].p);
    case _ =>
  }

  lemma SlotsEnd(s: Sys, step: Ends)
    requires CanEnd(s, step)
    ensures var (before, after) := (s.core.SlotsInUse(), DoEnd(s, step).core.SlotsInUse());
            if (step.FinishLost? || step.FinishEnded?) && s.tasks[step.t].h in s.core.allocations
            then after == before - 1 else after == before
    ensures DoEnd(s, step).core.slots == s.core.slots
  {
    hide Finish;
    if step.FinishLost? || step.FinishEnded? {
      FinishFrame(s.core, s.tasks[step.t].h);
      SizeAfterRemoval(s.core.allocations, s.tasks[step.t].h);
    }
  }

  lemma SlotsLife(s: Sys, step: Life)
    requires CanLive(s, step)
    ensures DoLife(s, step).core.SlotsInUse() <= s.core.SlotsInUse()
    ensures DoLife(s, step).core.slots == s.core.slots
  {
    hide Finish, AskDrained;
    match step
    case AbortNext(_, h) =>
      FinishFrame(s.core, h);
      SizeAfterRemoval(s.core.allocations, h);
    case AskDrain => AskFrame(s.core);
    case EmptyReservations => assert |s.core.reservations| >= 0;
    case _ =>
  }

  lemma AskFrame(c: Core)
    ensures AskDrained(c) == c.(draining := AskDrained(c).draining)
  {
  }

  // ---------------------------------------------------------------- Leases

  ghost predicate Carries(s: Sys, pl: Place, l: Lease) {
    match pl
    case InHand(t) => t in s.tasks && s.tasks[t].HoldsLease() && s.tasks[t].lease == l
    case Held(h) => h in s.core.allocations && s.core.allocations[h].lease == l
    case HandedBack => l in s.releases
    case Gone => l in s.dropped
  }

  /** The ledger tells the truth: a Lease ever granted is at the one place the
      ledger names and nowhere else, and its release has started at most once. */
  ghost predicate Partitioned(s: Sys) {
    && (forall l, pl :: Carries(s, pl, l) <==> l in s.ledger && s.ledger[l] == pl)
    && (forall l :: s.releases[l] <= 1)
  }

  lemma PartitionKept(s: Sys, s': Sys)
    requires Partitioned(s)
    requires s'.ledger == s.ledger && s'.releases == s.releases
    requires forall l, pl :: Carries(s', pl, l) <==> Carries(s, pl, l)
    ensures Partitioned(s')
  {
  }

  /** A Lease moves from the place it is at, or is granted to its first. */
  lemma PartitionMoved(s: Sys, s': Sys, l: Lease, from: Place, to: Place)
    requires Partitioned(s) && (Carries(s, from, l) || l !in s.ledger)
    requires s'.ledger == s.ledger[l := to]
    requires forall x, pl :: x != l ==> (Carries(s', pl, x) <==> Carries(s, pl, x))
    requires Carries(s', to, l)
    requires forall pl :: pl != to && Carries(s', pl, l) ==> Carries(s, pl, l) && pl != from
    requires s'.releases == s.releases || (s'.releases == s.releases + multiset{l} && from != HandedBack && l in s.ledger)
    ensures Partitioned(s')
  {
    assert s.releases[l] > 0 ==> Carries(s, HandedBack, l);
  }

  lemma PartitionReserve(s: Sys, step: Reserve)
    requires Partitioned(s) && CanReserve(s, step)
    ensures Partitioned(DoReserve(s, step))
  {
    hide Partitioned, Capacity;
    PartitionKept(s, DoReserve(s, step));
  }

  lemma PartitionAlloc(s: Sys, step: Alloc)
    requires Partitioned(s) && FreshIds(s) && CanAlloc(s, step)
    ensures Partitioned(DoAlloc(s, step))
  {
    hide Partitioned, FreshIds;
    if step.ConvertSlot? {
      PartitionConvert(s, step.t);
    } else if step.ClaimAnswered? || step.Abandon? {
      PartitionClaim(s, step);
    } else {
      hide ReturnUnit;
      if step.Leave? {
        ReturnUnitFrame(s.core, s.tasks[step.t].p);
      }
      PartitionKept(s, DoAlloc(s, step));
    }
  }

  lemma PartitionClaim(s: Sys, step: Alloc)
    requires Partitioned(s) && CanAlloc(s, step) && (step.ClaimAnswered? || step.Abandon?)
    ensures Partitioned(DoAlloc(s, step))
  {
    hide Partitioned;
    var s', at := DoAlloc(s, step), InHand(step.t);
    if step.ClaimAnswered? {
      PartitionMoved(s, s', step.lease, at, at);
    } else {
      InLedger(s, s.tasks[step.t].lease, at);
      PartitionMoved(s, s', s.tasks[step.t].lease, at, HandedBack);
    }
  }

  lemma InLedger(s: Sys, l: Lease, at: Place)
    requires Partitioned(s) && Carries(s, at, l)
    ensures l in s.ledger && s.ledger[l] == at
  {
  }

  lemma PartitionConvert(s: Sys, t: Tid)
    requires Partitioned(s) && FreshIds(s) && CanAlloc(s, ConvertSlot(t))
    ensures Partitioned(DoAlloc(s, ConvertSlot(t)))
  {
    var k, s' := s.tasks[t], DoAlloc(s, ConvertSlot(t));
    assert k.id !in s.core.allocations;
    InLedger(s, k.lease, InHand(t));
    hide Partitioned, FreshIds;
    PartitionMoved(s, s', k.lease, InHand(t), if k.r in s.core.reservations then Held(k.id) else HandedBack);
  }

  lemma PartitionEnd(s: Sys, step: Ends)
    requires Partitioned(s) && CanEnd(s, step)
    ensures Partitioned(DoEnd(s, step))
  {
    hide Partitioned, Finish;
    var s' := DoEnd(s, step);
    match step
    case FinishLost(t) =>
      var h := s.tasks[t].h;
      FinishFrame(s.core, h);
      if h in s.core.allocations {
        PartitionMoved(s, s', s.core.allocations[h].lease, Held(h), Gone);
      } else {
        PartitionKept(s, s');
      }
    case FinishEnded(t) => PartitionFinish(s, t, s.tasks[t].h, s.tasks[t].why.Retained?);
    case ReadGone(t) => PartitionRead(s, step);
    case HandOver(t) => PartitionRead(s, step);
    case ReadGoneKept(t) => PartitionRead(s, step);
    case _ => PartitionKept(s, s');
  }

  lemma PartitionFinish(s: Sys, t: Tid, h: Id, keep: bool)
    requires Partitioned(s) && (t in s.tasks ==> !s.tasks[t].HoldsLease())
    ensures Partitioned(EndByFinish(s, t, h, keep))
  {
    hide Partitioned, Finish;
    var s' := EndByFinish(s, t, h, keep);
    FinishFrame(s.core, h);
    if h in s.core.allocations {
      PartitionMoved(s, s', s.core.allocations[h].lease, Held(h), InHand(t));
    } else {
      PartitionKept(s, s');
    }
  }

  lemma PartitionRead(s: Sys, step: Ends)
    requires Partitioned(s) && CanEnd(s, step) && (step.ReadGone? || step.HandOver? || step.ReadGoneKept?)
    ensures Partitioned(DoEnd(s, step))
  {
    hide Partitioned;
    var t := step.t;
    var k, s' := s.tasks[t], DoEnd(s, step);
    if t in s'.tasks {
      PartitionKept(s, s');
    } else if k.lease in s'.dropped && s'.ledger[k.lease] == Gone {
      assert s' == DropLease(End(s, t), k.lease);
      PartitionDrop(s, t, k.lease);
    } else {
      assert s' == HandBack(End(s, t), k.lease);
      PartitionHandBack(s, t, k.lease);
    }
  }

  lemma PartitionDrop(s: Sys, t: Tid, l: Lease)
    requires Partitioned(s) && Carries(s, InHand(t), l)
    ensures Partitioned(DropLease(End(s, t), l))
  {
    hide Partitioned;
    PartitionMoved(s, DropLease(End(s, t), l), l, InHand(t), Gone);
  }

  lemma PartitionHandBack(s: Sys, t: Tid, l: Lease)
    requires Partitioned(s) && Carries(s, InHand(t), l)
    ensures Partitioned(HandBack(End(s, t), l))
  {
    InLedger(s, l, InHand(t));
    hide Partitioned;
    PartitionMoved(s, HandBack(End(s, t), l), l, InHand(t), HandedBack);
  }

  lemma PartitionLife(s: Sys, step: Life)
    requires Partitioned(s) && CanLive(s, step)
    ensures Partitioned(DoLife(s, step))
  {
    hide Partitioned, Finish;
    match step
    case AbortNext(t, h) =>
      var s1 := s.(phase := s.phase.(todo := s.phase.todo - {h}));
      PartitionKept(s, s1);
      PartitionFinish(s1, t, h, false);
    case _ => PartitionKept(s, DoLife(s, step));
  }

  /** The Lease of a handle that has been told its Lease is gone. */
  ghost predicate KnownGone(s: Sys, l: Lease) {
    exists h :: h in s.gone && h in s.handles && s.handles[h].lease == l
  }

  /** A Lease is dropped only if it is known to be gone. */
  ghost predicate GoneIsKnown(s: Sys) {
    && (forall l :: l in s.dropped ==> KnownGone(s, l))
    && (forall t :: t in s.tasks && s.tasks[t].Losing? && s.tasks[t].marked ==> s.tasks[t].h in s.gone)
    && (forall t :: t in s.tasks && s.tasks[t].CarriesOff() ==>
          s.tasks[t].h in s.handles && s.handles[s.tasks[t].h].lease == s.tasks[t].lease)
  }

  /** What a step may do without dropping a Lease or ending an Allocation. */
  lemma GoneKept(s: Sys, s': Sys)
    requires GoneIsKnown(s) && s'.dropped == s.dropped && s.gone <= s'.gone
    requires forall h :: h in s.handles ==> h in s'.handles && s'.handles[h] == s.handles[h]
    requires forall t :: t in s'.tasks && (s'.tasks[t].Losing? || s'.tasks[t].CarriesOff()) ==>
               t in s.tasks && s'.tasks[t] == s.tasks[t]
    ensures GoneIsKnown(s')
  {
    forall l | l in s'.dropped
      ensures KnownGone(s', l)
    {
      var h :| h in s.gone && h in s.handles && s.handles[h].lease == l;
      assert h in s'.gone;
    }
  }

  lemma GoneReserve(s: Sys, step: Reserve)
    requires GoneIsKnown(s) && CanReserve(s, step)
    ensures GoneIsKnown(DoReserve(s, step))
  {
    hide GoneIsKnown, Grant;
    GoneKept(s, DoReserve(s, step));
  }

  /** What becomes of the task that takes a step of Allocate. */
  ghost predicate GoesOn(s: Sys, step: Alloc, k: Option<Task>)
    requires CanAlloc(s, step)
  {
    && DoAlloc(s, step).tasks == (if k.None? then s.tasks - {step.t} else s.tasks[step.t := k.value])
    && (k.Some? ==> !k.value.Losing? && !k.value.CarriesOff())
  }

  lemma AllocTasks(s: Sys, step: Alloc) returns (k: Option<Task>)
    requires CanAlloc(s, step)
    ensures GoesOn(s, step, k)
  {
    if step.StartAllocate? || step.Enter? || step.GiveUp? || step.ClaimAnswered? {
      k := TasksToClaim(s, step);
    } else {
      k := TasksFromClaim(s, step);
    }
  }

  lemma TasksToClaim(s: Sys, step: Alloc) returns (k: Option<Task>)
    requires CanAlloc(s, step) && (step.StartAllocate? || step.Enter? || step.GiveUp? || step.ClaimAnswered?)
    ensures GoesOn(s, step, k)
  {
    hide EnterProfile;
    match step
    case StartAllocate(t, r, p) => k := Some(Entering(r, p));
    case Enter(t) =>
      var j := s.tasks[t];
      k := Some(if s.core.AtLimit(j.p) then Waiting(j.r, j.p, s.core.freeEpoch) else Claiming(j.r, j.p));
    case GiveUp(t) => k := None;
    case ClaimAnswered(t, lease) => k := Some(Claimed(s.tasks[t].r, s.tasks[t].p, lease));
  }

  lemma TasksFromClaim(s: Sys, step: Alloc) returns (k: Option<Task>)
    requires CanAlloc(s, step) && !(step.StartAllocate? || step.Enter? || step.GiveUp? || step.ClaimAnswered?)
    ensures GoesOn(s, step, k)
  {
    hide Convert, ReturnUnit, TakeId;
    var j := s.tasks[step.t];
    match step
    case ClaimFailed(t) => k := Some(Failing(j.p));
    case Abandon(t) => k := Some(Failing(j.p));
    case Build(t) => k := Some(Built(j.r, j.p, j.lease, s.core.nextID + 1));
    case ConvertSlot(t) => k := if j.r in s.core.reservations then None else Some(Failing(j.p));
    case Leave(t) => k := None;
  }

  lemma AllocFrame(s: Sys, step: Alloc)
    requires CanAlloc(s, step)
    ensures var s' := DoAlloc(s, step);
            && s'.dropped == s.dropped && s'.gone == s.gone
            && (step.ConvertSlot? || s'.handles == s.handles)
            && (step.ConvertSlot? ==> forall h :: h in s.handles && h != s.tasks[step.t].id ==>
                                        h in s'.handles && s'.handles[h] == s.handles[h])
  {
    hide Convert, ReturnUnit, EnterProfile, TakeId;
  }

  lemma GoneAlloc(s: Sys, step: Alloc)
    requires GoneIsKnown(s) && FreshIds(s) && CanAlloc(s, step)
    ensures GoneIsKnown(DoAlloc(s, step))
  {
    assert step.ConvertSlot? ==> s.tasks[step.t].id !in s.handles;
    hide GoneIsKnown, FreshIds, DoAlloc;
    var k := AllocTasks(s, step);
    AllocFrame(s, step);
    GoneKept(s, DoAlloc(s, step));
  }

  /** One task changes, and at most one Lease is dropped. */
  lemma GoneMoved(s: Sys, s': Sys, t: Tid, dropped: set<Lease>)
    requires GoneIsKnown(s) && s.gone <= s'.gone && s'.handles == s.handles && s'.dropped == s.dropped + dropped
    requires forall u :: u in s'.tasks && u != t ==> u in s.tasks && s'.tasks[u] == s.tasks[u]
    requires t in s'.tasks && s'.tasks[t].Losing? && s'.tasks[t].marked ==> s'.tasks[t].h in s'.gone
    requires t in s'.tasks && s'.tasks[t].CarriesOff() ==>
               s'.tasks[t].h in s.handles && s.handles[s'.tasks[t].h].lease == s'.tasks[t].lease
    requires forall l :: l in dropped ==> KnownGone(s', l)
    ensures GoneIsKnown(s')
  {
    forall l | l in s.dropped
      ensures KnownGone(s', l)
    {
      var h :| h in s.gone && h in s.handles && s.handles[h].lease == l;
      assert h in s'.gone;
    }
  }

  lemma GoneByFinish(s: Sys, t: Tid, h: Id, keep: bool)
    requires GoneIsKnown(s) && FreshIds(s)
    ensures GoneIsKnown(EndByFinish(s, t, h, keep))
  {
    assert h in s.core.allocations ==> h in s.handles && s.handles[h] == s.core.allocations[h];
    hide GoneIsKnown, FreshIds, Finish, KnownGone;
    GoneMoved(s, EndByFinish(s, t, h, keep), t, {});
  }

  lemma GoneEnd(s: Sys, step: Ends)
    requires GoneIsKnown(s) && FreshIds(s) && CanEnd(s, step)
    ensures GoneIsKnown(DoEnd(s, step))
  {
    var t, s' := step.t, DoEnd(s, step);
    if step.FinishEnded? {
      GoneByFinish(s, t, s.tasks[t].h, s.tasks[t].why.Retained?);
    } else if step.FinishLost? || step.ReadGone? || step.ReadGoneKept? {
      GoneDropped(s, step);
    } else {
      hide FreshIds, KnownGone;
      GoneMoved(s, s', t, {});
    }
  }

  lemma GoneDropped(s: Sys, step: Ends)
    requires GoneIsKnown(s) && FreshIds(s) && CanEnd(s, step)
    requires step.FinishLost? || step.ReadGone? || step.ReadGoneKept?
    ensures GoneIsKnown(DoEnd(s, step))
  {
    var t, s' := step.t, DoEnd(s, step);
    var h := s.tasks[t].h;
    assert h in s.core.allocations ==> h in s.handles && s.handles[h] == s.core.allocations[h];
    assert s.tasks[t].CarriesOff() ==> h in s.handles && s.handles[h].lease == s.tasks[t].lease;
    assert step.FinishLost? ==> h in s.gone;
    hide FreshIds, Finish, GoneIsKnown;
    GoneMoved(s, s', t, if h in s.gone && h in s.handles && !(step.FinishLost? && h !in s.core.allocations)
                        then {s.handles[h].lease} else {});
  }

  lemma GoneLife(s: Sys, step: Life)
    requires GoneIsKnown(s) && FreshIds(s) && CanLive(s, step)
    ensures GoneIsKnown(DoLife(s, step))
  {
    match step
    case AbortNext(t, h) =>
      var s1 := s.(phase := s.phase.(todo := s.phase.todo - {h}));
      GoneKept(s, s1);
      GoneByFinish(s1, t, h, false);
    case _ =>
      hide GoneIsKnown, FreshIds;
      GoneKept(s, DoLife(s, step));
  }

  lemma TerminalAlloc(s: Sys, step: Alloc)
    requires CanAlloc(s, step)
    ensures s.releases <= DoAlloc(s, step).releases && s.dropped == DoAlloc(s, step).dropped
  {
    hide Convert, ReturnUnit, EnterProfile;
  }

  lemma TerminalEnd(s: Sys, step: Ends)
    requires CanEnd(s, step)
    ensures s.releases <= DoEnd(s, step).releases && s.dropped <= DoEnd(s, step).dropped
  {
    hide Finish;
  }

  /** A Lease that is handed back or dropped stays so. */
  lemma TerminalStep(s: Sys, step: Step)
    requires Enabled(s, step)
    ensures s.releases <= Do(s, step).releases && s.dropped <= Do(s, step).dropped
  {
    hide DoAlloc, DoEnd, Finish, Grant;
    match step
    case ReserveStep(_) =>
    case AllocStep(a) => TerminalAlloc(s, a);
    case EndsStep(e) => TerminalEnd(s, e);
    case LifeStep(_) =>
  }

  /** The Lease of an Allocation that `leaseLost` is what ended is dropped. */
  lemma LostIsDropped(s: Sys, t: Tid)
    requires CanEnd(s, FinishLost(t)) && s.tasks[t].h in s.core.allocations
    ensures s.core.allocations[s.tasks[t].h].lease in DoEnd(s, FinishLost(t)).dropped
  {
  }

  // ---------------------------------------------------------------- Profile units

  function TasksWithUnit(tasks: map<Tid, Task>, p: Profile): set<Tid> {
    set t | t in tasks && tasks[t].HoldsUnit() && tasks[t].p == p
  }

  function AllocationsOf(allocations: map<Id, Handle>, p: Profile): set<Id> {
    set h | h in allocations && allocations[h].profile == p
  }

  /** A Profile's units are with the allocations on their way and the live
      Allocations, one each. */
  ghost predicate Balanced(s: Sys, p: Profile) {
    s.core.Use(p) == |TasksWithUnit(s.tasks, p)| + |AllocationsOf(s.core.allocations, p)|
  }

  /** No limit is passed, and a caller refused at one is still rightly refused
      or its channel is closed: no wake-up is lost. */
  ghost predicate LimitsHold(s: Sys) {
    && (forall p :: s.core.Limit(p) > 0 ==> s.core.Use(p) <= s.core.Limit(p))
    && (forall t :: t in s.tasks && s.tasks[t].Waiting? ==>
          && s.tasks[t].epoch <= s.core.freeEpoch
          && (s.tasks[t].epoch == s.core.freeEpoch ==> s.core.AtLimit(s.tasks[t].p)))
  }

  function One(b: bool): nat {
    if b then 1 else 0
  }

  predicate Has(k: Task, p: Profile) {
    k.HoldsUnit() && k.p == p
  }

  lemma EndUnits(tasks: map<Tid, Task>, t: Tid, p: Profile)
    ensures |TasksWithUnit(tasks - {t}, p)| == |TasksWithUnit(tasks, p)| - One(t in tasks && Has(tasks[t], p))
  {
    assert TasksWithUnit(tasks - {t}, p) == TasksWithUnit(tasks, p) - {t};
  }

  lemma PutUnits(tasks: map<Tid, Task>, t: Tid, k: Task, p: Profile)
    ensures |TasksWithUnit(tasks[t := k], p)|
         == |TasksWithUnit(tasks, p)| - One(t in tasks && Has(tasks[t], p)) + One(Has(k, p))
  {
    EndUnits(tasks, t, p);
    EndUnits(tasks[t := k], t, p);
    assert tasks[t := k] - {t} == tasks - {t};
  }

  lemma RemoveAllocation(m: map<Id, Handle>, h: Id, p: Profile)
    ensures |AllocationsOf(m - {h}, p)| == |AllocationsOf(m, p)| - One(h in m && m[h].profile == p)
  {
    assert AllocationsOf(m - {h}, p) == AllocationsOf(m, p) - {h};
  }

  lemma AddAllocation(m: map<Id, Handle>, h: Id, v: Handle, p: Profile)
    requires h !in m
    ensures |AllocationsOf(m[h := v], p)| == |AllocationsOf(m, p)| + One(v.profile == p)
  {
    RemoveAllocation(m[h := v], h, p);
    assert m[h := v] - {h} == m;
  }

  lemma ReturnUse(c: Core, q: Profile, p: Profile)
    ensures ReturnUnit(c, q).Use(p) == if p == q && c.Use(p) > 0 then c.Use(p) - 1 else c.Use(p)
  {
  }

  lemma FinishUse(c: Core, h: Id, p: Profile)
    ensures Finish(c, h).Use(p)
         == if h in c.allocations && c.allocations[h].profile == p && c.Use(p) > 0 then c.Use(p) - 1 else c.Use(p)
  {
    if h in c.allocations {
      ReturnUse(c.(allocations := c.allocations - {h}), c.allocations[h].profile, p);
    }
  }

  lemma BalancedReserve(s: Sys, step: Reserve, p: Profile)
    requires Balanced(s, p) && CanReserve(s, step)
    ensures Balanced(DoReserve(s, step), p)
  {
    hide Balanced, Capacity;
    if step.StartReserve? {
      PutUnits(s.tasks, step.t, Reserving, p);
    } else if step.GrantSlot? {
      EndUnits(s.tasks, step.t, p);
    }
    hide TasksWithUnit;
    BalancedKept(s, DoReserve(s, step), p);
  }

  lemma BalancedAlloc(s: Sys, step: Alloc, p: Profile)
    requires Balanced(s, p) && FreshIds(s) && CanAlloc(s, step)
    ensures Balanced(DoAlloc(s, step), p)
  {
    hide FreshIds, Balanced, TasksWithUnit;
    if step.Enter? {
      BalancedEnter(s, step.t, p);
    } else if step.Leave? {
      BalancedLeave(s, step.t, p);
    } else if step.ConvertSlot? {
      BalancedConvert(s, step.t, p);
    } else {
      var s' := DoAlloc(s, step);
      if step.t in s'.tasks {
        PutUnits(s.tasks, step.t, s'.tasks[step.t], p);
      } else {
        EndUnits(s.tasks, step.t, p);
      }
      BalancedKept(s, s', p);
    }
  }

  lemma BalancedKept(s: Sys, s': Sys, p: Profile)
    requires Balanced(s, p)
    requires s'.core.profileUse == s.core.profileUse && s'.core.allocations == s.core.allocations
    requires |TasksWithUnit(s'.tasks, p)| == |TasksWithUnit(s.tasks, p)|
    ensures Balanced(s', p)
  {
  }

  lemma BalancedEnter(s: Sys, t: Tid, p: Profile)
    requires Balanced(s, p) && CanAlloc(s, Enter(t))
    ensures Balanced(DoAlloc(s, Enter(t)), p)
  {
    hide TasksWithUnit, EnterProfile;
    EnterUse(s.core, s.tasks[t].p);
    PutUnits(s.tasks, t, DoAlloc(s, Enter(t)).tasks[t], p);
  }

  lemma BalancedLeave(s: Sys, t: Tid, p: Profile)
    requires Balanced(s, p) && CanAlloc(s, Leave(t))
    ensures Balanced(DoAlloc(s, Leave(t)), p)
  {
    hide TasksWithUnit, ReturnUnit;
    EndUnits(s.tasks, t, p);
    ReturnUnitFrame(s.core, s.tasks[t].p);
    ReturnUse(s.core, s.tasks[t].p, p);
  }

  lemma BalancedConvert(s: Sys, t: Tid, p: Profile)
    requires Balanced(s, p) && FreshIds(s) && CanAlloc(s, ConvertSlot(t))
    ensures Balanced(DoAlloc(s, ConvertSlot(t)), p)
  {
    var k, s' := s.tasks[t], DoAlloc(s, ConvertSlot(t));
    assert k.id !in s.core.allocations;
    hide FreshIds, TasksWithUnit, AllocationsOf;
    if k.r in s.core.reservations {
      EndUnits(s.tasks, t, p);
      AddAllocation(s.core.allocations, k.id, Handle(k.lease, k.p), p);
    } else {
      PutUnits(s.tasks, t, Failing(k.p), p);
    }
  }

  lemma BalancedFinish(s: Sys, h: Id, p: Profile)
    requires Balanced(s, p)
    ensures Balanced(s.(core := Finish(s.core, h)), p)
  {
    hide TasksWithUnit, AllocationsOf, Finish;
    FinishFrame(s.core, h);
    FinishUse(s.core, h, p);
    RemoveAllocation(s.core.allocations, h, p);
  }

  lemma BalancedEnd(s: Sys, step: Ends, p: Profile)
    requires Balanced(s, p) && CanEnd(s, step)
    ensures Balanced(DoEnd(s, step), p)
  {
    hide Balanced, TasksWithUnit, Finish;
    if step.FinishLost? || step.FinishEnded? {
      BalancedWon(s, step, p);
    } else {
      var s' := DoEnd(s, step);
      if step.t in s'.tasks {
        PutUnits(s.tasks, step.t, s'.tasks[step.t], p);
      } else {
        EndUnits(s.tasks, step.t, p);
      }
      BalancedKept(s, s', p);
    }
  }

  lemma BalancedWon(s: Sys, step: Ends, p: Profile)
    requires Balanced(s, p) && CanEnd(s, step) && (step.FinishLost? || step.FinishEnded?)
    ensures Balanced(DoEnd(s, step), p)
  {
    hide Balanced, TasksWithUnit, Finish;
    var s', h := DoEnd(s, step), s.tasks[step.t].h;
    if step.t in s'.tasks {
      PutUnits(s.tasks, step.t, s'.tasks[step.t], p);
    } else {
      EndUnits(s.tasks, step.t, p);
    }
    BalancedFinish(s, h, p);
    BalancedKept(s.(core := Finish(s.core, h)), s', p);
  }

  lemma BalancedLife(s: Sys, step: Life, p: Profile)
    requires Balanced(s, p) && CanLive(s, step)
    ensures Balanced(DoLife(s, step), p)
  {
    hide Balanced, TasksWithUnit, Finish;
    var s' := DoLife(s, step);
    if step.AbortNext? {
      if step.t in s'.tasks {
        PutUnits(s.tasks, step.t, s'.tasks[step.t], p);
      } else {
        EndUnits(s.tasks, step.t, p);
      }
      BalancedFinish(s, step.h, p);
      BalancedKept(s.(core := Finish(s.core, step.h)), s', p);
    } else {
      BalancedKept(s, s', p);
    }
  }

  lemma LimitsReserve(s: Sys, step: Reserve)
    requires LimitsHold(s) && CanReserve(s, step)
    ensures LimitsHold(DoReserve(s, step))
  {
    hide LimitsHold, Capacity;
    LimitsKept(s, DoReserve(s, step));
  }

  lemma LimitsAlloc(s: Sys, step: Alloc)
    requires LimitsHold(s) && CanAlloc(s, step)
    ensures LimitsHold(DoAlloc(s, step))
  {
    hide LimitsHold;
    if step.Enter? {
      LimitsEnter(s, step.t);
    } else if step.Leave? {
      LimitsLeave(s, step.t);
    } else {
      LimitsKept(s, DoAlloc(s, step));
    }
  }

  lemma LimitsEnter(s: Sys, t: Tid)
    requires LimitsHold(s) && CanAlloc(s, Enter(t))
    ensures LimitsHold(DoAlloc(s, Enter(t)))
  {
    hide EnterProfile;
    EnterUse(s.core, s.tasks[t].p);
  }

  lemma LimitsLeave(s: Sys, t: Tid)
    requires LimitsHold(s) && CanAlloc(s, Leave(t))
    ensures LimitsHold(DoAlloc(s, Leave(t)))
  {
    hide ReturnUnit;
    ReturnUnitFrame(s.core, s.tasks[t].p);
    UseFalls(s.core, s.tasks[t].p);
  }

  lemma EnterUse(c: Core, q: Profile)
    ensures var d := EnterProfile(c, q);
            && d == c.(profileUse := d.profileUse)
            && (forall p :: d.Use(p) == c.Use(p) + One(p == q && !c.AtLimit(q)))
  {
  }

  lemma UseFalls(c: Core, q: Profile)
    ensures ReturnUnit(c, q).freeEpoch == c.freeEpoch + 1
    ensures forall p :: ReturnUnit(c, q).Use(p) <= c.Use(p)
  {
  }

  lemma FinishFalls(c: Core, h: Id)
    ensures forall p :: Finish(c, h).Use(p) <= c.Use(p)
    ensures Finish(c, h).freeEpoch == c.freeEpoch + One(h in c.allocations)
    ensures h !in c.allocations ==> Finish(c, h).profileUse == c.profileUse
  {
    if h in c.allocations {
      UseFalls(c.(allocations := c.allocations - {h}), c.allocations[h].profile);
    }
  }

  lemma LimitsFinish(s: Sys, h: Id)
    requires LimitsHold(s)
    ensures LimitsHold(s.(core := Finish(s.core, h)))
  {
    hide Finish;
    FinishFrame(s.core, h);
    FinishFalls(s.core, h);
  }

  lemma LimitsKept(s: Sys, s': Sys)
    requires LimitsHold(s)
    requires s'.core.limits == s.core.limits && s'.core.profileUse == s.core.profileUse
    requires s'.core.freeEpoch == s.core.freeEpoch
    requires forall t :: t in s'.tasks && s'.tasks[t].Waiting? ==> t in s.tasks && s.tasks[t] == s'.tasks[t]
    ensures LimitsHold(s')
  {
    assert forall p :: s'.core.Use(p) == s.core.Use(p) && s'.core.Limit(p) == s.core.Limit(p);
  }

  lemma LimitsEnd(s: Sys, step: Ends)
    requires LimitsHold(s) && CanEnd(s, step)
    ensures LimitsHold(DoEnd(s, step))
  {
    hide Finish, LimitsHold;
    if step.FinishLost? || step.FinishEnded? {
      LimitsWon(s, step);
    } else {
      LimitsKept(s, DoEnd(s, step));
    }
  }

  lemma LimitsWon(s: Sys, step: Ends)
    requires LimitsHold(s) && CanEnd(s, step) && (step.FinishLost? || step.FinishEnded?)
    ensures LimitsHold(DoEnd(s, step))
  {
    hide Finish, LimitsHold;
    LimitsFinish(s, s.tasks[step.t].h);
    LimitsKept(s.(core := Finish(s.core, s.tasks[step.t].h)), DoEnd(s, step));
  }

  lemma LimitsLife(s: Sys, step: Life)
    requires LimitsHold(s) && CanLive(s, step)
    ensures LimitsHold(DoLife(s, step))
  {
    hide Finish, LimitsHold;
    if step.AbortNext? {
      LimitsFinish(s, step.h);
      LimitsKept(s.(core := Finish(s.core, step.h)), DoLife(s, step));
    } else {
      LimitsKept(s, DoLife(s, step));
    }
  }

  // ---------------------------------------------------------------- shutdown

  /** Once the Reservations are emptied, what is reserved is newer than every
      Allocate that is still on its way, so nothing converts any more. */
  ghost predicate ShuttingDown(s: Sys) {
    && (s.phase.Serving? ==> s.core.state == New || s.core.state == Running)
    && (!s.phase.Serving? ==> s.core.state == Stopping || s.core.state == Stopped)
    && (s.phase.Serving? || s.phase.Quitting? || s.phase.Emptied? ==> !s.core.draining)
    && (s.phase.PastEmptied() ==>
          && (forall r :: r in s.core.reservations ==> r > s.phase.mark)
          && (forall t :: t in s.tasks && s.tasks[t].HasReservation() ==> s.tasks[t].r <= s.phase.mark)
          && s.phase.mark <= s.core.nextID)
    && (s.phase.Draining? && !s.core.draining ==> s.core.allocations == map[])
    && (s.phase.Aborting? ==> s.core.allocations.Keys <= s.phase.todo)
    && (s.phase.Down? ==> s.core.allocations == map[])
    && (forall t :: t in s.tasks && s.tasks[t].HasReservation() ==> s.tasks[t].r <= s.core.nextID)
  }

  lemma ShutdownKept(s: Sys, s': Sys)
    requires ShuttingDown(s) && s'.phase == s.phase && s'.core.state == s.core.state
    requires s'.core.nextID >= s.core.nextID
    requires forall r :: r in s'.core.reservations ==> r in s.core.reservations || r > s.core.nextID
    requires s.phase.PastEmptied() ==> s'.core.allocations.Keys <= s.core.allocations.Keys
    requires s'.core.draining ==> s.core.draining
    requires s.core.draining && !s'.core.draining ==> s'.core.allocations == map[]
    requires forall t :: t in s'.tasks && s'.tasks[t].HasReservation() ==>
               s'.tasks[t].r <= s.core.nextID && (s.phase.PastEmptied() ==> s'.tasks[t].r <= s.phase.mark)
    ensures ShuttingDown(s')
  {
    if s.core.allocations == map[] && s'.core.allocations.Keys <= s.core.allocations.Keys {
      assert s'.core.allocations == map[];
    }
  }

  lemma NothingConverts(s: Sys, t: Tid)
    requires ShuttingDown(s) && s.phase.PastEmptied() && CanAlloc(s, ConvertSlot(t))
    ensures s.tasks[t].r !in s.core.reservations
  {
  }

  lemma NoneStart(s: Sys)
    requires ShuttingDown(s) && s.core.state == Running
    ensures s.phase.Serving?
  {
  }

  lemma ShutdownReserve(s: Sys, step: Reserve)
    requires ShuttingDown(s) && CanReserve(s, step)
    ensures ShuttingDown(DoReserve(s, step))
    ensures DoReserve(s, step).core.allocations == s.core.allocations
  {
    hide ShuttingDown, Capacity;
    TasksReserved(s);
    ShutdownKept(s, DoReserve(s, step));
  }

  lemma TasksReserved(s: Sys)
    requires ShuttingDown(s)
    ensures forall t :: t in s.tasks && s.tasks[t].HasReservation() ==>
              s.tasks[t].r <= s.core.nextID && (s.phase.PastEmptied() ==> s.tasks[t].r <= s.phase.mark)
  {
  }

  lemma ShutdownConvert(s: Sys, t: Tid)
    requires ShuttingDown(s) && CanAlloc(s, ConvertSlot(t))
    ensures ShuttingDown(DoAlloc(s, ConvertSlot(t)))
    ensures s.phase.PastEmptied() ==>
              DoAlloc(s, ConvertSlot(t)).core.allocations == s.core.allocations && DoAlloc(s, ConvertSlot(t)).handles == s.handles
    ensures s.phase.PastEmptied() ==> s.tasks[t].lease in DoAlloc(s, ConvertSlot(t)).releases
  {
    hide ShuttingDown;
    if s.phase.PastEmptied() {
      NothingConverts(s, t);
    }
    TasksReserved(s);
    ShutdownKept(s, DoAlloc(s, ConvertSlot(t)));
  }

  /** Past that point no Allocation is made, whatever Reserve and Allocate do;
      a claim still on its way is handed back. */
  lemma ShutdownAlloc(s: Sys, step: Alloc)
    requires ShuttingDown(s) && CanAlloc(s, step)
    ensures ShuttingDown(DoAlloc(s, step))
    ensures s.phase.PastEmptied() ==>
              DoAlloc(s, step).core.allocations == s.core.allocations && DoAlloc(s, step).handles == s.handles
    ensures s.phase.PastEmptied() && step.ConvertSlot? ==> s.tasks[step.t].lease in DoAlloc(s, step).releases
  {
    hide ShuttingDown, DoAlloc;
    if step.ConvertSlot? {
      ShutdownConvert(s, step.t);
    } else {
      if s.core.state == Running {
        NoneStart(s);
      }
      AllocCore(s, step);
      AllocReservations(s, step);
      TasksReserved(s);
      ShutdownKept(s, DoAlloc(s, step));
    }
  }

  /** What Allocate leaves alone short of converting its Reservation. */
  lemma AllocCore(s: Sys, step: Alloc)
    requires CanAlloc(s, step) && !step.ConvertSlot?
    ensures var s' := DoAlloc(s, step);
            && s'.phase == s.phase && s'.handles == s.handles
            && s'.core == s.core.(profileUse := s'.core.profileUse, freeEpoch := s'.core.freeEpoch,
                                  nextID := s'.core.nextID)
            && s'.core.nextID >= s.core.nextID
  {
    if step.Leave? {
      ReturnUnitFrame(s.core, s.tasks[step.t].p);
    }
    hide ReturnUnit;
  }

  lemma AllocReservations(s: Sys, step: Alloc)
    requires CanAlloc(s, step) && !step.ConvertSlot?
    ensures var s' := DoAlloc(s, step);
            forall t :: t in s'.tasks && s'.tasks[t].HasReservation() ==>
              || (t in s.tasks && s.tasks[t].HasReservation() && s'.tasks[t].r == s.tasks[t].r)
              || (step.StartAllocate? && s.core.state == Running && s'.tasks[t].r <= s.core.nextID)
  {
    hide Convert, ReturnUnit, EnterProfile, TakeId;
  }

  lemma ShutdownEnd(s: Sys, step: Ends)
    requires ShuttingDown(s) && CanEnd(s, step)
    ensures ShuttingDown(DoEnd(s, step))
    ensures DoEnd(s, step).core.allocations.Keys <= s.core.allocations.Keys
  {
    hide ShuttingDown, DoEnd;
    EndCore(s, step);
    EndReservations(s, step);
    TasksReserved(s);
    ShutdownKept(s, DoEnd(s, step));
  }

  /** What ending an Allocation leaves alone. */
  lemma EndCore(s: Sys, step: Ends)
    requires CanEnd(s, step)
    ensures var s' := DoEnd(s, step);
            && s'.phase == s.phase && s'.core.state == s.core.state && s'.core.nextID == s.core.nextID
            && s'.core.reservations == s.core.reservations
            && s'.core.allocations.Keys <= s.core.allocations.Keys
            && (s'.core.draining ==> s.core.draining)
            && (s.core.draining && !s'.core.draining ==> s'.core.allocations == map[])
  {
    hide Finish;
    if step.FinishLost? || step.FinishEnded? {
      FinishFrame(s.core, s.tasks[step.t].h);
    }
  }

  lemma EndReservations(s: Sys, step: Ends)
    requires CanEnd(s, step)
    ensures var s' := DoEnd(s, step);
            forall t :: t in s'.tasks && s'.tasks[t].HasReservation() ==> t in s.tasks && s'.tasks[t] == s.tasks[t]
  {
    hide Finish;
  }

  lemma ShutdownLife(s: Sys, step: Life)
    requires ShuttingDown(s) && CanLive(s, step)
    ensures ShuttingDown(DoLife(s, step))
    ensures DoLife(s, step).core.allocations.Keys <= s.core.allocations.Keys
    ensures s.phase.PastEmptied() ==> DoLife(s, step).phase.PastEmptied()
    ensures s.phase.Down? ==> DoLife(s, step).phase.Down?
  {
    hide Finish;
    if step.AbortNext? {
      FinishFrame(s.core, step.h);
    }
  }

  // ---------------------------------------------------------------- every run

  ghost predicate Sound(s: Sys) {
    && FreshIds(s) && WithinSlots(s)
    && Partitioned(s) && GoneIsKnown(s)
    && (forall p :: Balanced(s, p)) && LimitsHold(s)
    && ShuttingDown(s)
  }

  lemma SoundReserve(s: Sys, step: Reserve)
    requires Sound(s) && CanReserve(s, step)
    ensures Sound(DoReserve(s, step))
  {
    hide FreshIds, WithinSlots, Partitioned, GoneIsKnown, Balanced, LimitsHold, ShuttingDown, DoReserve;
    FreshIdsReserve(s, step);
    SlotsReserve(s, step);
    PartitionReserve(s, step);
    GoneReserve(s, step);
    forall p { BalancedReserve(s, step, p); }
    LimitsReserve(s, step);
    ShutdownReserve(s, step);
  }

  lemma SoundAlloc(s: Sys, step: Alloc)
    requires Sound(s) && CanAlloc(s, step)
    ensures Sound(DoAlloc(s, step))
  {
    hide FreshIds, Partitioned, GoneIsKnown, Balanced, LimitsHold, ShuttingDown, DoAlloc;
    FreshIdsAlloc(s, step);
    SlotsAlloc(s, step);
    PartitionAlloc(s, step);
    GoneAlloc(s, step);
    forall p { BalancedAlloc(s, step, p); }
    LimitsAlloc(s, step);
    ShutdownAlloc(s, step);
  }

  lemma SoundEnd(s: Sys, step: Ends)
    requires Sound(s) && CanEnd(s, step)
    ensures Sound(DoEnd(s, step))
  {
    hide FreshIds, Partitioned, GoneIsKnown, Balanced, LimitsHold, ShuttingDown, DoEnd;
    FreshIdsEnd(s, step);
    SlotsEnd(s, step);
    PartitionEnd(s, step);
    GoneEnd(s, step);
    forall p { BalancedEnd(s, step, p); }
    LimitsEnd(s, step);
    ShutdownEnd(s, step);
  }

  lemma SoundLife(s: Sys, step: Life)
    requires Sound(s) && CanLive(s, step)
    ensures Sound(DoLife(s, step))
  {
    hide FreshIds, Partitioned, GoneIsKnown, Balanced, LimitsHold, ShuttingDown, DoLife;
    FreshIdsLife(s, step);
    SlotsLife(s, step);
    PartitionLife(s, step);
    GoneLife(s, step);
    forall p { BalancedLife(s, step, p); }
    LimitsLife(s, step);
    ShutdownLife(s, step);
  }

  lemma SoundStep(s: Sys, step: Step)
    requires Sound(s) && Enabled(s, step)
    ensures Sound(Do(s, step))
  {
    hide Sound, DoReserve, DoAlloc, DoEnd, DoLife;
    match step {
      case ReserveStep(r) => SoundReserve(s, r);
      case AllocStep(a) => SoundAlloc(s, a);
      case EndsStep(e) => SoundEnd(s, e);
      case LifeStep(l) => SoundLife(s, l);
    }
  }

  lemma {:induction false} RunSound(s: Sys, steps: seq<Step>)
    requires Sound(s) && CanRun(s, steps)
    ensures Sound(DoAll(s, steps))
    decreases |steps|
  {
    if steps != [] {
      SoundStep(s, steps[0]);
      hide Sound, Do;
      RunSound(Do(s, steps[0]), steps[1..]);
    }
  }

  lemma NewIsSound(slots: nat, limits: map<Profile, nat>)
    ensures Sound(NewSys(slots, limits))
  {
    var s := NewSys(slots, limits);
    forall p
      ensures Balanced(s, p)
    {
      assert TasksWithUnit(s.tasks, p) == {} && AllocationsOf(s.core.allocations, p) == {};
    }
  }

  // The five places a granted Lease can be.

  /** A goroutine has it and is about to allocate with it or to pass it on. */
  ghost predicate InFlight(s: Sys, l: Lease) {
    exists t :: t in s.tasks && (s.tasks[t].Claimed? || s.tasks[t].Built? || s.tasks[t].Won? || s.tasks[t].Handing?)
                && s.tasks[t].lease == l
  }

  /** Retain keeps it for a while. */
  ghost predicate IsRetained(s: Sys, l: Lease) {
    exists t :: t in s.tasks && (s.tasks[t].Keeping? || s.tasks[t].Kept?) && s.tasks[t].lease == l
  }

  ghost predicate IsHeld(s: Sys, l: Lease) {
    exists h :: h in s.core.allocations && s.core.allocations[h].lease == l
  }

  /** It was dropped, and the handle it belonged to had been told that it is gone. */
  ghost predicate IsGone(s: Sys, l: Lease) {
    l in s.dropped && KnownGone(s, l)
  }

  lemma PlaceOf(s: Sys, l: Lease)
    requires Partitioned(s) && GoneIsKnown(s)
    ensures One(InFlight(s, l)) + One(IsHeld(s, l)) + One(IsRetained(s, l)) + One(l in s.releases) + One(IsGone(s, l))
         == One(l in s.ledger)
  {
    GoneNamed(s, l);
    hide GoneIsKnown, KnownGone;
    assert l in s.releases <==> Carries(s, HandedBack, l);
    assert IsGone(s, l) <==> Carries(s, Gone, l);
    forall h | h in s.core.allocations && s.core.allocations[h].lease == l
      ensures l in s.ledger && s.ledger[l] == Held(h)
    {
      assert Carries(s, Held(h), l);
    }
    forall t | t in s.tasks && s.tasks[t].HoldsLease() && s.tasks[t].lease == l
      ensures l in s.ledger && s.ledger[l] == InHand(t)
    {
      assert Carries(s, InHand(t), l);
    }
    if l in s.ledger {
      var at := s.ledger[l];
      assert Carries(s, at, l);
      assert at.Held? ==> IsHeld(s, l);
      assert at.InHand? ==> InFlight(s, l) || IsRetained(s, l);
      if InFlight(s, l) {
        var t :| t in s.tasks && (s.tasks[t].Claimed? || s.tasks[t].Built? || s.tasks[t].Won? || s.tasks[t].Handing?)
                 && s.tasks[t].lease == l;
        assert at == InHand(t) && !IsRetained(s, l);
      }
    }
  }

  lemma GoneNamed(s: Sys, l: Lease)
    requires GoneIsKnown(s)
    ensures l in s.dropped ==> KnownGone(s, l)
  {
  }

  /** The claims a run has seen answered. */
  ghost predicate Granted(steps: seq<Step>, l: Lease) {
    exists t :: AllocStep(ClaimAnswered(t, l)) in steps
  }

  lemma LedgerGrows(s: Sys, step: Step)
    requires Enabled(s, step) && Partitioned(s)
    ensures Do(s, step).ledger.Keys == s.ledger.Keys
              + if step.AllocStep? && step.a.ClaimAnswered? then {step.a.lease} else {}
  {
    hide Partitioned, DoAlloc, DoEnd, Finish, Grant, AskDrained;
    match step
    case AllocStep(a) => LedgerAlloc(s, a);
    case EndsStep(e) => LedgerEnd(s, e);
    case LifeStep(l) =>
      if l.AbortNext? && l.h in s.core.allocations {
        InLedger(s, s.core.allocations[l.h].lease, Held(l.h));
      }
    case ReserveStep(_) =>
  }

  lemma LedgerAlloc(s: Sys, a: Alloc)
    requires CanAlloc(s, a) && Partitioned(s)
    ensures DoAlloc(s, a).ledger.Keys == s.ledger.Keys + if a.ClaimAnswered? then {a.lease} else {}
  {
    hide Partitioned, Convert, ReturnUnit, EnterProfile;
    if a.Abandon? || a.ConvertSlot? {
      InLedger(s, s.tasks[a.t].lease, InHand(a.t));
    }
  }

  lemma LedgerEnd(s: Sys, e: Ends)
    requires CanEnd(s, e) && Partitioned(s)
    ensures DoEnd(s, e).ledger.Keys == s.ledger.Keys
  {
    hide Partitioned, Finish;
    if (e.FinishLost? || e.FinishEnded?) && s.tasks[e.t].h in s.core.allocations {
      InLedger(s, s.core.allocations[s.tasks[e.t].h].lease, Held(s.tasks[e.t].h));
    } else if e.ReadGone? || e.HandOver? || e.ReadGoneKept? {
      InLedger(s, s.tasks[e.t].lease, InHand(e.t));
    }
  }

  lemma {:induction false} LedgerIsGranted(s: Sys, steps: seq<Step>, l: Lease)
    requires Sound(s) && CanRun(s, steps)
    ensures l in DoAll(s, steps).ledger <==> l in s.ledger || Granted(steps, l)
    decreases |steps|
  {
    if steps != [] {
      LedgerGrows(s, steps[0]);
      SoundStep(s, steps[0]);
      hide Sound, Do, Enabled;
      hide Granted;
      LedgerIsGranted(Do(s, steps[0]), steps[1..], l);
      GrantedFirst(steps, l);
    }
  }

  lemma GrantedFirst(steps: seq<Step>, l: Lease)
    requires steps != []
    ensures Granted(steps, l) <==>
      (steps[0].AllocStep? && steps[0].a.ClaimAnswered? && steps[0].a.lease == l) || Granted(steps[1..], l)
  {
    assert steps == [steps[0]] + steps[1..];
    if steps[0].AllocStep? && steps[0].a.ClaimAnswered? && steps[0].a.lease == l {
      assert AllocStep(ClaimAnswered(steps[0].a.t, l)) in steps;
    }
  }

  /** In every reachable state each Lease ever granted, and no other, is in exactly
      one of five places: in flight, held by a live Allocation, retained, handed to
      release, known to be gone. Nobody else has it too, its release has started at
      most once, and never if it is gone. */
  lemma LeasePartition(slots: nat, limits: map<Profile, nat>, steps: seq<Step>, l: Lease)
    requires CanRun(NewSys(slots, limits), steps)
    ensures var s := DoAll(NewSys(slots, limits), steps);
            && One(InFlight(s, l)) + One(IsHeld(s, l)) + One(IsRetained(s, l)) + One(l in s.releases) + One(IsGone(s, l))
               == One(Granted(steps, l))
            && (forall a, b :: Carries(s, a, l) && Carries(s, b, l) ==> a == b)
            && (l in s.dropped ==> KnownGone(s, l))
            && s.releases[l] <= 1
  {
    NewIsSound(slots, limits);
    RunSound(NewSys(slots, limits), steps);
    LedgerIsGranted(NewSys(slots, limits), steps, l);
    var s := DoAll(NewSys(slots, limits), steps);
    assert NewSys(slots, limits).ledger == map[];
    hide DoAll, CanRun, Granted, GoneIsKnown;
    GoneNamed(s, l);
    PlaceOf(s, l);
  }

  lemma DroppedNotReleased(s: Sys, l: Lease)
    requires Partitioned(s) && l in s.dropped
    ensures l !in s.releases
  {
    assert Carries(s, Gone, l);
    assert !Carries(s, HandedBack, l);
  }

  lemma {:induction false} TerminalRun(s: Sys, steps: seq<Step>)
    requires CanRun(s, steps)
    ensures s.releases <= DoAll(s, steps).releases && s.dropped <= DoAll(s, steps).dropped
    decreases |steps|
  {
    if steps != [] {
      hide Do, Enabled;
      TerminalStep(s, steps[0]);
      TerminalRun(Do(s, steps[0]), steps[1..]);
    }
  }

  /** When `leaseLost` is what ended an Allocation, no release of its Lease is
      ever started, however the run goes on. */
  lemma {:induction false} LostIsNeverReleased(s: Sys, t: Tid, steps: seq<Step>)
    requires Sound(s) && CanEnd(s, FinishLost(t)) && s.tasks[t].h in s.core.allocations
    requires CanRun(DoEnd(s, FinishLost(t)), steps)
    ensures s.core.allocations[s.tasks[t].h].lease !in DoAll(DoEnd(s, FinishLost(t)), steps).releases
  {
    hide DoAll, CanRun, DoEnd, Partitioned, FreshIds, Balanced, LimitsHold, ShuttingDown;
    var l, s1 := s.core.allocations[s.tasks[t].h].lease, DoEnd(s, FinishLost(t));
    LostIsDropped(s, t);
    SoundEnd(s, FinishLost(t));
    TerminalRun(s1, steps);
    RunSound(s1, steps);
    DroppedNotReleased(DoAll(s1, steps), l);
  }

  /** Slots and Profile limits hold in every reachable state; a caller refused at
      a limit that cannot try again is one the limit still refuses. */
  lemma {:induction false} LimitsAreKept(slots: nat, limits: map<Profile, nat>, steps: seq<Step>, p: Profile)
    requires CanRun(NewSys(slots, limits), steps)
    ensures var s := DoAll(NewSys(slots, limits), steps);
            && |s.core.reservations| + |s.core.allocations| <= s.core.slots
            && (forall r :: r in s.core.reservations ==> r !in s.core.allocations)
            && s.core.Use(p) == UnitsOut(s, p)
            && (p in limits && limits[p] > 0 ==> UnitsOut(s, p) <= limits[p])
            && (forall t :: t in s.tasks && s.tasks[t].Waiting? && !CanAlloc(s, Enter(t)) ==>
                  s.tasks[t].p in limits && 0 < limits[s.tasks[t].p] == UnitsOut(s, s.tasks[t].p))
  {
    var s0 := NewSys(slots, limits);
    NewIsSound(slots, limits);
    RunSound(s0, steps);
    ConfigKept(s0, steps);
    var s := DoAll(s0, steps);
    hide DoAll, CanRun, NewSys;
    assert Balanced(s, p);
    forall t | t in s.tasks && s.tasks[t].Waiting? && !CanAlloc(s, Enter(t))
      ensures s.tasks[t].p in limits && 0 < limits[s.tasks[t].p] == UnitsOut(s, s.tasks[t].p)
    {
      assert Balanced(s, s.tasks[t].p);
    }
  }

  /** The units of a Profile that are out: one for each allocation past the limit and
      on its way, one for each live Allocation. */
  function UnitsOut(s: Sys, p: Profile): nat {
    |TasksWithUnit(s.tasks, p)| + |AllocationsOf(s.core.allocations, p)|
  }

  ghost predicate SameConfig(c: Core, d: Core) {
    d.limits == c.limits && d.slots == c.slots
  }

  lemma ConfigAlloc(s: Sys, a: Alloc)
    requires CanAlloc(s, a)
    ensures SameConfig(s.core, DoAlloc(s, a).core)
  {
    if !a.ConvertSlot? {
      AllocCore(s, a);
      hide DoAlloc;
    }
  }

  lemma ConfigEnd(s: Sys, e: Ends)
    requires CanEnd(s, e)
    ensures SameConfig(s.core, DoEnd(s, e).core)
  {
    if e.FinishLost? || e.FinishEnded? {
      FinishFrame(s.core, s.tasks[e.t].h);
    }
    hide Finish;
  }

  lemma ConfigLife(s: Sys, l: Life)
    requires CanLive(s, l)
    ensures SameConfig(s.core, DoLife(s, l).core)
  {
    if l.AbortNext? {
      FinishFrame(s.core, l.h);
    }
    hide Finish;
  }

  lemma ConfigReserve(s: Sys, r: Reserve)
    requires CanReserve(s, r)
    ensures SameConfig(s.core, DoReserve(s, r).core)
  {
    hide Capacity;
  }

  lemma ConfigStep(s: Sys, step: Step)
    requires Enabled(s, step)
    ensures SameConfig(s.core, Do(s, step).core)
  {
    match step
    case ReserveStep(r) =>
      hide DoReserve, SameConfig;
      ConfigReserve(s, r);
    case AllocStep(a) =>
      hide DoAlloc, SameConfig;
      ConfigAlloc(s, a);
    case EndsStep(e) =>
      hide DoEnd, SameConfig;
      ConfigEnd(s, e);
    case LifeStep(l) =>
      hide DoLife, SameConfig;
      ConfigLife(s, l);
  }

  lemma {:induction false} ConfigKept(s: Sys, steps: seq<Step>)
    requires CanRun(s, steps)
    ensures DoAll(s, steps).core.limits == s.core.limits && DoAll(s, steps).core.slots == s.core.slots
    decreases |steps|
  {
    if steps != [] {
      ConfigStep(s, steps[0]);
      hide Do, Enabled;
      ConfigKept(Do(s, steps[0]), steps[1..]);
    }
  }

  /** A caller gets past the limit exactly when its Profile has no maximum, or fewer
      units than that are out; otherwise it waits for the next unit to be returned. */
  lemma AdmittedIff(s: Sys, t: Tid)
    requires Sound(s) && CanAlloc(s, Enter(t))
    ensures var p, k := s.tasks[t].p, DoAlloc(s, Enter(t)).tasks[t];
            && (k.Claiming? <==> p !in s.core.limits || s.core.limits[p] == 0 || UnitsOut(s, p) < s.core.limits[p])
            && (!k.Claiming? ==> k == Waiting(s.tasks[t].r, p, s.core.freeEpoch))
            && (k.Claiming? ==> k == Claiming(s.tasks[t].r, p))
  {
    assert Balanced(s, s.tasks[t].p);
    hide FreshIds, Partitioned, GoneIsKnown, LimitsHold, ShuttingDown, EnterProfile;
  }

  lemma PhaseFrame(s: Sys, step: Step)
    requires Enabled(s, step)
    ensures step.ReserveStep? ==> Do(s, step).phase == s.phase && Do(s, step).handles == s.handles
    ensures step.AllocStep? ==> Do(s, step).phase == s.phase
    ensures step.EndsStep? ==> Do(s, step).phase == s.phase && Do(s, step).handles == s.handles
    ensures step.LifeStep? ==> Do(s, step).handles == s.handles
  {
    hide Finish, Grant, Convert, ReturnUnit, EnterProfile, AskDrained;
    match step
    case ReserveStep(_) =>
    case AllocStep(_) =>
    case EndsStep(_) =>
    case LifeStep(_) =>
  }

  lemma FinalStep(s: Sys, step: Step)
    requires ShuttingDown(s) && s.phase.PastEmptied() && Enabled(s, step)
    ensures var s' := Do(s, step);
            && s'.phase.PastEmptied() && s'.handles == s.handles
            && s'.core.allocations.Keys <= s.core.allocations.Keys
            && (s.phase.Down? ==> s'.phase.Down?)
  {
    hide ShuttingDown, DoReserve, DoAlloc, DoEnd, DoLife;
    PhaseFrame(s, step);
    match step
    case ReserveStep(r) => ShutdownReserve(s, r);
    case AllocStep(a) => ShutdownAlloc(s, a);
    case EndsStep(e) => ShutdownEnd(s, e);
    case LifeStep(l) => ShutdownLife(s, l);
  }

  /** Shutdown is final: once it has emptied the Reservations no Allocation is
      ever made again, and once it has returned there is none for good. */
  lemma {:induction false} ShutdownIsFinal(s: Sys, steps: seq<Step>)
    requires Sound(s) && s.phase.PastEmptied() && CanRun(s, steps)
    ensures var s' := DoAll(s, steps);
            && s'.handles == s.handles
            && s'.core.allocations.Keys <= s.core.allocations.Keys
            && (s.phase.Down? ==> s'.phase.Down? && s'.core.allocations == map[])
    decreases |steps|
  {
    if steps != [] {
      FinalStep(s, steps[0]);
      SoundStep(s, steps[0]);
      hide Sound, Do, Enabled;
      ShutdownIsFinal(Do(s, steps[0]), steps[1..]);
    }
  }
}
