/**
 How far each call on the Scheduler has come, and the Scheduler's own life: every step
 a call takes brings it nearer its end, and the state is told by which of the three
 calls that change it have been made.
 */
module SchedulerCalls {
  import opened Basics
  import opened SchedulerCore
  import opened SchedulerRuns
  import opened SchedulerFates

  /** Whose step it is. */
  function Mover(step: Step): Option<Tid> {
    match step
    case ReserveStep(StartReserve(t)) => Some(t)
    case ReserveStep(GrantSlot(t, _)) => Some(t)
    case AllocStep(a) => Some(a.t)
    case EndsStep(e) => Some(e.t)
    case LifeStep(AbortNext(t, _)) => Some(t)
    case _ => None
  }

  /** The most steps a call has left, not counting the times it is woken at a limit to
      find it taken again. */
  function Left(k: Task): nat {
    match k
    case Reserving => 1
    case Entering(_, _) => 6
    case Waiting(_, _, _) => 5
    case Claiming(_, _) => 4
    case Claimed(_, _, _) => 3
    case Built(_, _, _, _) => 2
    case Failing(_) => 1
    case Losing(_, marked) => if marked then 1 else 2
    case Ending(_, _) => 5
    case Won(_, _, _) => 4
    case Handing(_, _, _) => 3
    case Keeping(_, _) => 2
    case Kept(_, _) => 1
  }

  /** The units returned when a waiting caller last looked, or until now. */
  function Looked(s: Sys, k: Task): nat {
    if k.Waiting? then k.epoch else s.core.freeEpoch
  }

  ghost predicate LooksBack(s: Sys, t: Tid) {
    t in s.tasks && Looked(s, s.tasks[t]) <= s.core.freeEpoch
  }

  /** A call that takes a step either ends, or has fewer left, or has been woken since
      it last looked. */
  ghost predicate Advances(s: Sys, t: Tid, s': Sys)
    requires t in s.tasks
  {
    t in s'.tasks ==>
      && Left(s'.tasks[t]) + Looked(s, s.tasks[t]) < Left(s.tasks[t]) + Looked(s', s'.tasks[t])
      && LooksBack(s', t)
  }

  lemma AllocAdvances(s: Sys, a: Alloc)
    requires CanAlloc(s, a) && LooksBack(s, a.t)
    ensures Advances(s, a.t, DoAlloc(s, a))
  {
    var k := AllocTasks(s, a);
    EpochGrows(s, AllocStep(a));
    hide Convert, ReturnUnit, EnterProfile;
  }

  lemma LossAdvances(s: Sys, e: Ends)
    requires CanEnd(s, e) && LooksBack(s, e.t) && (e.StartLose? || e.MarkGone? || e.FinishLost?)
    ensures Advances(s, e.t, DoEnd(s, e))
  {
    hide Finish;
  }

  lemma EndAdvances(s: Sys, e: Ends)
    requires CanEnd(s, e) && LooksBack(s, e.t)
    ensures Advances(s, e.t, DoEnd(s, e))
  {
    if e.StartLose? || e.MarkGone? || e.FinishLost? {
      LossAdvances(s, e);
    } else {
      EpochGrows(s, EndsStep(e));
      hide Finish;
    }
  }

  lemma EpochGrows(s: Sys, step: Step)
    requires Enabled(s, step)
    ensures s.core.freeEpoch <= Do(s, step).core.freeEpoch
  {
    Holdings(s, step);
    hide Do, Enabled, Frees, Grants, EndsAllocation, Makes, ReturnsUnit;
  }

  lemma OwnStepAdvances(s: Sys, step: Step, t: Tid)
    requires Enabled(s, step) && Mover(step) == Some(t) && LooksBack(s, t)
    ensures Advances(s, t, Do(s, step))
  {
    match step
    case ReserveStep(_) => hide Grant;
    case AllocStep(a) =>
      hide DoAlloc, Advances;
      AllocAdvances(s, a);
    case EndsStep(e) =>
      hide DoEnd, Advances;
      EndAdvances(s, e);
    case LifeStep(_) =>
  }

  lemma OthersAlloc(s: Sys, a: Alloc, t: Tid)
    requires CanAlloc(s, a) && a.t != t && t in s.tasks
    ensures t in DoAlloc(s, a).tasks && DoAlloc(s, a).tasks[t] == s.tasks[t]
  {
    var k := AllocTasks(s, a);
    hide DoAlloc;
  }

  lemma OthersEnd(s: Sys, e: Ends, t: Tid)
    requires CanEnd(s, e) && e.t != t && t in s.tasks
    ensures t in DoEnd(s, e).tasks && DoEnd(s, e).tasks[t] == s.tasks[t]
  {
    hide Finish;
  }

  lemma OthersLife(s: Sys, l: Life, t: Tid)
    requires CanLive(s, l) && (l.AbortNext? ==> l.t != t) && t in s.tasks
    ensures t in DoLife(s, l).tasks && DoLife(s, l).tasks[t] == s.tasks[t]
  {
    hide Finish, AskDrained;
  }

  lemma OthersReserve(s: Sys, r: Reserve, t: Tid)
    requires CanReserve(s, r) && (!r.ReleaseHeld? ==> r.t != t) && t in s.tasks
    ensures t in DoReserve(s, r).tasks && DoReserve(s, r).tasks[t] == s.tasks[t]
  {
    hide Grant;
  }

  /** Nobody else's step touches a call. */
  lemma OthersLeaveItBe(s: Sys, step: Step, t: Tid)
    requires Enabled(s, step) && Mover(step) != Some(t) && LooksBack(s, t)
    ensures var s' := Do(s, step);
            && t in s'.tasks && s'.tasks[t] == s.tasks[t] && LooksBack(s', t)
            && Looked(s, s.tasks[t]) <= Looked(s', s'.tasks[t])
  {
    hide DoReserve, DoAlloc, DoEnd, DoLife;
    EpochGrows(s, step);
    match step
    case ReserveStep(r) => OthersReserve(s, r, t);
    case AllocStep(a) => OthersAlloc(s, a, t);
    case EndsStep(e) => OthersEnd(s, e, t);
    case LifeStep(l) => OthersLife(s, l, t);
  }

  ghost function OwnSteps(s: Sys, steps: seq<Step>, t: Tid): nat
    requires CanRun(s, steps)
    decreases |steps|
  {
    if steps == [] || t !in s.tasks then 0
    else One(Mover(steps[0]) == Some(t)) + OwnSteps(Do(s, steps[0]), steps[1..], t)
  }

  lemma {:induction false} EpochGrowsOver(s: Sys, steps: seq<Step>)
    requires CanRun(s, steps)
    ensures s.core.freeEpoch <= DoAll(s, steps).core.freeEpoch
    decreases |steps|
  {
    if steps != [] {
      hide Do, Enabled;
      EpochGrows(s, steps[0]);
      EpochGrowsOver(Do(s, steps[0]), steps[1..]);
    }
  }

  /** Over every run a call takes at most as many steps as it has left, and one more for
      each unit returned while it ran: a caller refused at a limit looks again only
      once a unit has been returned since. */
  lemma {:induction false} CallsAdvance(s: Sys, steps: seq<Step>, t: Tid)
    requires CanRun(s, steps) && LooksBack(s, t)
    ensures OwnSteps(s, steps, t) + Looked(s, s.tasks[t]) <= Left(s.tasks[t]) + DoAll(s, steps).core.freeEpoch
    decreases |steps|
  {
    hide Do, Enabled, Mover, Left;
    if steps != [] {
      var next, rest := Do(s, steps[0]), steps[1..];
      EpochGrows(s, steps[0]);
      EpochGrowsOver(next, rest);
      if Mover(steps[0]) == Some(t) {
        OwnStepAdvances(s, steps[0], t);
        SomeLeft(s.tasks[t]);
      } else {
        OthersLeaveItBe(s, steps[0], t);
      }
      if t in next.tasks {
        CallsAdvance(next, rest, t);
      } else {
        assert OwnSteps(next, rest, t) == 0;
      }
    }
  }

  lemma SomeLeft(k: Task)
    ensures 1 <= Left(k) <= 6
  {
  }

  // ---------------------------------------------------------------- what a call is about

  predicate OnAllocate(k: Task) {
    k.HasReservation() || k.Failing?
  }

  predicate OnHandle(k: Task) {
    k.Losing? || k.Ending? || k.CarriesOff()
  }

  /** Allocate works for one Reservation and one Profile; a call that ends an Allocation
      on one handle, and once it has won it with one Lease. */
  predicate SameCall(k: Task, k': Task) {
    && (OnAllocate(k) ==> OnAllocate(k') && k'.p == k.p && (k'.HasReservation() ==> k.HasReservation() && k'.r == k.r))
    && (OnHandle(k) ==> OnHandle(k') && k'.h == k.h && (k.CarriesOff() ==> k'.CarriesOff() && k'.lease == k.lease))
  }

  lemma AllocGoesOn(s: Sys, a: Alloc)
    requires CanAlloc(s, a) && a.t in s.tasks && a.t in DoAlloc(s, a).tasks
    ensures SameCall(s.tasks[a.t], DoAlloc(s, a).tasks[a.t])
  {
    AllocateKeepsItsRequest(s, a);
    hide DoAlloc;
  }

  lemma EndGoesOn(s: Sys, e: Ends)
    requires CanEnd(s, e) && e.t in s.tasks && e.t in DoEnd(s, e).tasks
    ensures SameCall(s.tasks[e.t], DoEnd(s, e).tasks[e.t])
  {
    hide Finish;
  }

  lemma CallGoesOn(s: Sys, step: Step, t: Tid)
    requires Enabled(s, step) && LooksBack(s, t) && t in Do(s, step).tasks
    ensures SameCall(s.tasks[t], Do(s, step).tasks[t])
  {
    hide SameCall, DoAlloc, DoEnd, Finish, Grant;
    if Mover(step) != Some(t) {
      OthersLeaveItBe(s, step, t);
      SameAsItself(s.tasks[t]);
    } else if step.AllocStep? {
      AllocGoesOn(s, step.a);
    } else if step.EndsStep? {
      EndGoesOn(s, step.e);
    }
  }

  lemma SameAsItself(k: Task)
    ensures SameCall(k, k)
  {
  }

  lemma SameThrough(a: Task, b: Task, c: Task)
    requires SameCall(a, b) && SameCall(b, c)
    ensures SameCall(a, c)
  {
  }

  /** The call is still under way all through the run. */
  ghost predicate Lasts(s: Sys, steps: seq<Step>, t: Tid)
    requires CanRun(s, steps)
    decreases |steps|
  {
    t in s.tasks && (steps != [] ==> Lasts(Do(s, steps[0]), steps[1..], t))
  }

  /** Over every run. */
  lemma {:induction false} CallKeepsItsRequest(s: Sys, steps: seq<Step>, t: Tid)
    requires CanRun(s, steps) && LooksBack(s, t) && Lasts(s, steps, t)
    ensures t in DoAll(s, steps).tasks && SameCall(s.tasks[t], DoAll(s, steps).tasks[t])
    decreases |steps|
  {
    hide Do, Enabled, SameCall, Mover;
    if steps == [] {
      SameAsItself(s.tasks[t]);
    } else {
      var next := Do(s, steps[0]);
      CallGoesOn(s, steps[0], t);
      if Mover(steps[0]) == Some(t) {
        OwnStepAdvances(s, steps[0], t);
      } else {
        OthersLeaveItBe(s, steps[0], t);
      }
      hide LooksBack;
      CallKeepsItsRequest(next, steps[1..], t);
      SameThrough(s.tasks[t], next.tasks[t], DoAll(s, steps).tasks[t]);
    }
  }

  /** What a call is about is what it was called with; an abort has the Lease of the
      Allocation it ended. */
  lemma CallBegins(s: Sys, step: Step, t: Tid)
    requires Enabled(s, step) && Mover(step) == Some(t) && t !in s.tasks && t in Do(s, step).tasks
    ensures var k := Do(s, step).tasks[t];
            match step
            case AllocStep(a) => OnAllocate(k) && k.HasReservation() && k.r == a.r && k.p == a.p
            case EndsStep(e) => OnHandle(k) && k.h == e.h && (k.Ending? <==> e.StartEnd?) && (k.Ending? ==> k.why == e.why)
            case LifeStep(l) =>
              && OnHandle(k) && k.h == l.h && k.Won? && !k.keep
              && l.h in s.core.allocations && k.lease == s.core.allocations[l.h].lease
            case _ => k.Reserving?
  {
    hide Finish;
  }

  // ---------------------------------------------------------------- the Scheduler's life

  /** The state, told by the calls made. */
  function Told(steps: seq<Step>): RunState {
    if LifeStep(RunReturns) in steps then Stopped
    else if LifeStep(Stop) in steps then Stopping
    else if LifeStep(Begin) in steps then Running
    else New
  }

  function Next(state: RunState, step: Step): RunState {
    match step
    case LifeStep(Begin) => Running
    case LifeStep(Stop) => Stopping
    case LifeStep(RunReturns) => Stopped
    case _ => state
  }

  lemma StateByReserve(s: Sys, r: Reserve)
    requires CanReserve(s, r)
    ensures DoReserve(s, r).core.state == s.core.state
  {
    hide Capacity;
  }

  lemma StateByAlloc(s: Sys, a: Alloc)
    requires CanAlloc(s, a)
    ensures DoAlloc(s, a).core.state == s.core.state
  {
    if !a.ConvertSlot? {
      AllocCore(s, a);
      hide DoAlloc;
    }
  }

  lemma StateByEnd(s: Sys, e: Ends)
    requires CanEnd(s, e)
    ensures DoEnd(s, e).core.state == s.core.state
  {
    if e.FinishLost? || e.FinishEnded? {
      FinishFrame(s.core, s.tasks[e.t].h);
    }
    hide Finish;
  }

  lemma StateByLife(s: Sys, l: Life)
    requires CanLive(s, l)
    ensures DoLife(s, l).core.state == Next(s.core.state, LifeStep(l))
  {
    if l.AbortNext? {
      FinishFrame(s.core, l.h);
    }
    hide Finish;
  }

  lemma StateMoves(s: Sys, step: Step)
    requires Enabled(s, step)
    ensures Do(s, step).core.state == Next(s.core.state, step)
  {
    match step
    case ReserveStep(r) =>
      hide DoReserve;
      StateByReserve(s, r);
    case AllocStep(a) =>
      hide DoAlloc;
      StateByAlloc(s, a);
    case EndsStep(e) =>
      hide DoEnd;
      StateByEnd(s, e);
    case LifeStep(l) =>
      hide DoLife, Next;
      StateByLife(s, l);
  }

  lemma ToldNext(s: Sys, done: seq<Step>, step: Step)
    requires Enabled(s, step) && s.core.state == Told(done)
    ensures Told(done + [step]) == Next(Told(done), step)
  {
  }

  lemma {:induction false} StateTold(s: Sys, done: seq<Step>, steps: seq<Step>)
    requires CanRun(s, steps) && s.core.state == Told(done)
    ensures DoAll(s, steps).core.state == Told(done + steps)
    decreases |steps|
  {
    hide Told, Next, Do, Enabled;
    if steps == [] {
      assert done + steps == done;
    } else {
      StateMoves(s, steps[0]);
      ToldNext(s, done, steps[0]);
      StateTold(Do(s, steps[0]), done + [steps[0]], steps[1..]);
      assert done + [steps[0]] + steps[1..] == done + steps;
    }
  }

  /** In every reachable state: new until Run is called, then running, stopping from the
      moment it is told to stop, and stopped once Run returns. */
  lemma StateToldByCalls(slots: nat, limits: map<Profile, nat>, steps: seq<Step>)
    requires CanRun(NewSys(slots, limits), steps)
    ensures DoAll(NewSys(slots, limits), steps).core.state == Told(steps)
  {
    assert [] + steps == steps;
    StateTold(NewSys(slots, limits), [], steps);
  }
}
