/**
 What each step of the Scheduler does to Leases, Reservations and Allocations, and
 what has become of them at the end of a run, told from the run.
 */
module SchedulerFates {
  import opened Basics
  import opened SchedulerCore
  import opened SchedulerRuns

  // ---------------------------------------------------------------- Leases, step by step

  /** The Lease a step drops: `leaseLost` ends the Allocation, or a task that ended it
      reads that its Lease is gone. */
  function Drops(s: Sys, step: Step): set<Lease>
    requires Enabled(s, step)
  {
    if !step.EndsStep? then {}
    else match step.e
    case FinishLost(t) =>
      if s.tasks[t].h in s.core.allocations then {s.core.allocations[s.tasks[t].h].lease} else {}
    case ReadGone(t) => if s.tasks[t].h in s.gone then {s.tasks[t].lease} else {}
    case ReadGoneKept(t) => if s.tasks[t].h in s.gone then {s.tasks[t].lease} else {}
    case _ => {}
  }

  /** The Lease whose release a step starts: a claim whose Allocation is given up or
      whose Reservation is gone, an ended Allocation that is not retained or that
      cannot be, or one retained long enough whose Lease is not known to be gone. */
  function Returns(s: Sys, step: Step): set<Lease>
    requires Enabled(s, step)
  {
    match step
    case AllocStep(Abandon(t)) => {s.tasks[t].lease}
    case AllocStep(ConvertSlot(t)) => if s.tasks[t].r in s.core.reservations then {} else {s.tasks[t].lease}
    case EndsStep(HandOver(t)) => if s.tasks[t].keep && !s.core.bgClosed then {} else {s.tasks[t].lease}
    case EndsStep(ReadGoneKept(t)) => if s.tasks[t].h in s.gone then {} else {s.tasks[t].lease}
    case _ => {}
  }

  /** The handles a step tells that their Lease is gone. */
  function Tells(s: Sys, step: Step): set<Id>
    requires Enabled(s, step)
  {
    if step.EndsStep? && step.e.MarkGone? then {s.tasks[step.e.t].h} else {}
  }

  /** The Lease of an Allocation that Retain is what ended. */
  function Retains(s: Sys, step: Step): set<Lease>
    requires Enabled(s, step)
  {
    if step.EndsStep? && step.e.FinishEnded? && s.tasks[step.e.t].why.Retained?
       && s.tasks[step.e.t].h in s.core.allocations
    then {s.core.allocations[s.tasks[step.e.t].h].lease} else {}
  }

  ghost predicate LeaseStep(s: Sys, step: Step)
    requires Enabled(s, step)
  {
    && Do(s, step).dropped == s.dropped + Drops(s, step)
    && Do(s, step).releases == s.releases + multiset(Returns(s, step))
    && Do(s, step).gone == s.gone + Tells(s, step)
  }

  lemma LeaseOnAlloc(s: Sys, a: Alloc)
    requires CanAlloc(s, a)
    ensures LeaseStep(s, AllocStep(a))
  {
    hide Convert, ReturnUnit, EnterProfile, TakeId;
    assert s.releases + multiset{} == s.releases && s.dropped + {} == s.dropped && s.gone + {} == s.gone;
  }

  lemma LeaseOnFinish(s: Sys, e: Ends)
    requires CanEnd(s, e) && (e.FinishLost? || e.FinishEnded?)
    ensures LeaseStep(s, EndsStep(e))
  {
    hide Finish;
    assert s.releases + multiset{} == s.releases && s.dropped + {} == s.dropped && s.gone + {} == s.gone;
  }

  lemma LeaseOnRead(s: Sys, e: Ends)
    requires CanEnd(s, e) && (e.ReadGone? || e.ReadGoneKept?)
    ensures LeaseStep(s, EndsStep(e))
  {
    LeaseNeutral(s);
  }

  lemma LeaseOnHandOver(s: Sys, t: Tid)
    requires CanEnd(s, HandOver(t))
    ensures LeaseStep(s, EndsStep(HandOver(t)))
  {
    LeaseNeutral(s);
  }

  lemma LeaseNeutral(s: Sys)
    ensures s.releases + multiset{} == s.releases && s.dropped + {} == s.dropped && s.gone + {} == s.gone
  {
  }

  lemma LeaseOnEnd(s: Sys, e: Ends)
    requires CanEnd(s, e)
    ensures LeaseStep(s, EndsStep(e))
  {
    if e.FinishLost? || e.FinishEnded? {
      LeaseOnFinish(s, e);
    } else if e.ReadGone? || e.ReadGoneKept? {
      LeaseOnRead(s, e);
    } else if e.HandOver? {
      LeaseOnHandOver(s, e.t);
    } else {
      assert s.releases + multiset{} == s.releases && s.dropped + {} == s.dropped && s.gone + {} == s.gone;
    }
  }

  lemma LeaseOnReserve(s: Sys, r: Reserve)
    requires CanReserve(s, r)
    ensures LeaseStep(s, ReserveStep(r))
  {
    hide Grant;
    LeaseNeutral(s);
  }

  lemma LeaseOnLife(s: Sys, l: Life)
    requires CanLive(s, l)
    ensures LeaseStep(s, LifeStep(l))
  {
    hide Finish, AskDrained;
    LeaseNeutral(s);
  }

  lemma LeaseFates(s: Sys, step: Step)
    requires Enabled(s, step)
    ensures LeaseStep(s, step)
  {
    hide LeaseStep;
    match step
    case AllocStep(a) => LeaseOnAlloc(s, a);
    case EndsStep(e) => LeaseOnEnd(s, e);
    case ReserveStep(r) => LeaseOnReserve(s, r);
    case LifeStep(l) => LeaseOnLife(s, l);
  }

  // ---------------------------------------------------------------- Leases over runs

  ghost function DroppedIn(s: Sys, steps: seq<Step>): set<Lease>
    requires CanRun(s, steps)
    decreases |steps|
  {
    if steps == [] then {} else Drops(s, steps[0]) + DroppedIn(Do(s, steps[0]), steps[1..])
  }

  ghost function ReturnedIn(s: Sys, steps: seq<Step>): set<Lease>
    requires CanRun(s, steps)
    decreases |steps|
  {
    if steps == [] then {} else Returns(s, steps[0]) + ReturnedIn(Do(s, steps[0]), steps[1..])
  }

  ghost function ToldIn(s: Sys, steps: seq<Step>): set<Id>
    requires CanRun(s, steps)
    decreases |steps|
  {
    if steps == [] then {} else Tells(s, steps[0]) + ToldIn(Do(s, steps[0]), steps[1..])
  }

  ghost function RetainedIn(s: Sys, steps: seq<Step>): set<Lease>
    requires CanRun(s, steps)
    decreases |steps|
  {
    if steps == [] then {} else Retains(s, steps[0]) + RetainedIn(Do(s, steps[0]), steps[1..])
  }

  /** Over every run the Leases dropped are exactly those whose Allocation `leaseLost`
      ended or whose holder read that they are gone; the releases started are exactly
      for those given up, not retained, or retained and then not read to be gone; and
      the handles told are exactly those a loss was marked on. */
  lemma {:induction false} FatesOfLeases(s: Sys, steps: seq<Step>, l: Lease)
    requires CanRun(s, steps)
    ensures l in DoAll(s, steps).dropped <==> l in s.dropped || l in DroppedIn(s, steps)
    ensures l in DoAll(s, steps).releases <==> l in s.releases || l in ReturnedIn(s, steps)
    ensures DoAll(s, steps).gone == s.gone + ToldIn(s, steps)
    decreases |steps|
  {
    if steps == [] {
      assert s.gone + {} == s.gone;
    } else {
      LeaseFates(s, steps[0]);
      hide Do, Enabled, Drops, Returns, Tells;
      var next := Do(s, steps[0]);
      FatesOfLeases(next, steps[1..], l);
      assert s.gone + Tells(s, steps[0]) + ToldIn(next, steps[1..])
          == s.gone + (Tells(s, steps[0]) + ToldIn(next, steps[1..]));
    }
  }

  /** A task that has ended an Allocation and reads whether its Lease is gone drops it
      iff its handle has been told so, and then it stays dropped and no release of it is
      started, however the run goes on; otherwise the task goes on to hand the Lease over. */
  lemma ReadDecides(s: Sys, t: Tid, steps: seq<Step>)
    requires Sound(s) && CanEnd(s, ReadGone(t)) && CanRun(DoEnd(s, ReadGone(t)), steps)
    ensures var k, s1 := s.tasks[t], DoEnd(s, ReadGone(t));
            && (k.lease in s1.dropped <==> k.h in s.gone)
            && (k.h in s.gone ==> k.lease in DoAll(s1, steps).dropped && k.lease !in DoAll(s1, steps).releases)
            && (k.h !in s.gone ==> t in s1.tasks && s1.tasks[t] == Handing(k.h, k.lease, k.keep))
  {
    var k, s1 := s.tasks[t], DoEnd(s, ReadGone(t));
    InHandNotDropped(s, t);
    assert k.h in s.gone ==> k.lease in s1.dropped;
    if k.h in s.gone {
      DroppedForGood(s, ReadGone(t), steps, k.lease);
    }
    hide Sound, DoAll, CanRun;
  }

  /** The same once a Lease has been retained long enough; if it is not known to be gone
      its release starts there and then. */
  lemma ReadKeptDecides(s: Sys, t: Tid, steps: seq<Step>)
    requires Sound(s) && CanEnd(s, ReadGoneKept(t)) && CanRun(DoEnd(s, ReadGoneKept(t)), steps)
    ensures var k, s1 := s.tasks[t], DoEnd(s, ReadGoneKept(t));
            && (k.lease in s1.dropped <==> k.h in s.gone)
            && (k.h in s.gone ==> k.lease in DoAll(s1, steps).dropped && k.lease !in DoAll(s1, steps).releases)
            && (k.lease in s1.releases <==> k.h !in s.gone)
  {
    var k, s1 := s.tasks[t], DoEnd(s, ReadGoneKept(t));
    InHandNotDropped(s, t);
    assert k.h in s.gone ==> k.lease in s1.dropped;
    if k.h in s.gone {
      DroppedForGood(s, ReadGoneKept(t), steps, k.lease);
    }
    hide Sound, DoAll, CanRun;
  }

  /** What is not gone is retained if that was asked for and the background still runs,
      and its release starts otherwise. */
  lemma HandOverDecides(s: Sys, t: Tid)
    requires Sound(s) && CanEnd(s, HandOver(t))
    ensures var k, s1 := s.tasks[t], DoEnd(s, HandOver(t));
            && (k.lease in s1.releases <==> !k.keep || s.core.bgClosed)
            && (k.keep && !s.core.bgClosed ==> t in s1.tasks && s1.tasks[t] == Keeping(k.h, k.lease))
  {
    InHandNotDropped(s, t);
    hide Sound;
  }

  lemma InHandNotDropped(s: Sys, t: Tid)
    requires Partitioned(s) && t in s.tasks && s.tasks[t].HoldsLease()
    ensures s.tasks[t].lease !in s.dropped && s.tasks[t].lease !in s.releases
  {
    var l := s.tasks[t].lease;
    assert Carries(s, InHand(t), l);
    assert !Carries(s, Gone, l) && !Carries(s, HandedBack, l);
  }

  lemma DroppedForGood(s: Sys, e: Ends, steps: seq<Step>, l: Lease)
    requires Sound(s) && CanEnd(s, e) && CanRun(DoEnd(s, e), steps) && l in DoEnd(s, e).dropped
    ensures l in DoAll(DoEnd(s, e), steps).dropped && l !in DoAll(DoEnd(s, e), steps).releases
  {
    SoundEnd(s, e);
    TerminalRun(DoEnd(s, e), steps);
    RunSound(DoEnd(s, e), steps);
    hide DoEnd, DoAll, CanRun, FreshIds, Partitioned, GoneIsKnown, Balanced, LimitsHold, ShuttingDown;
    DroppedNotReleased(DoAll(DoEnd(s, e), steps), l);
  }

  // ---------------------------------------------------------------- Retain and Release

  /** Whether a task that ended an Allocation means to retain its Lease. */
  predicate MeansToKeep(k: Task)
    requires k.CarriesOff()
  {
    match k
    case Won(_, _, keep) => keep
    case Handing(_, _, keep) => keep
    case Keeping(_, _) => true
    case Kept(_, _) => true
  }

  /** Where a Lease is that was ended by Retain: never with a claim or an Allocation. */
  ghost predicate Ended(s: Sys, l: Lease) {
    l in s.ledger && match s.ledger[l]
                     case InHand(t) => t in s.tasks && s.tasks[t].CarriesOff()
                     case Held(_) => false
                     case _ => true
  }

  /** `kept` are the Leases of Allocations that Retain ended. */
  ghost predicate KeepsRetained(s: Sys, kept: set<Lease>) {
    && (forall t :: t in s.tasks && s.tasks[t].CarriesOff() ==>
          (MeansToKeep(s.tasks[t]) <==> s.tasks[t].lease in kept))
    && (forall l :: l in kept ==> Ended(s, l))
  }

  /** A step that leaves every task that ended an Allocation as it is, or takes it away. */
  lemma KeepsUnmoved(s: Sys, s': Sys, kept: set<Lease>)
    requires KeepsRetained(s, kept)
    requires forall t :: t in s'.tasks && s'.tasks[t].CarriesOff() ==> t in s.tasks && s'.tasks[t] == s.tasks[t]
    requires forall l :: Ended(s, l) ==> Ended(s', l)
    ensures KeepsRetained(s', kept)
  {
  }

  lemma CarriedIsInHand(s: Sys, t: Tid)
    requires Partitioned(s) && t in s.tasks && s.tasks[t].HoldsLease()
    ensures s.tasks[t].lease in s.ledger && s.ledger[s.tasks[t].lease] == InHand(t)
  {
    assert Carries(s, InHand(t), s.tasks[t].lease);
  }

  lemma HeldIsLive(s: Sys, h: Id)
    requires Partitioned(s) && h in s.core.allocations
    ensures s.core.allocations[h].lease in s.ledger && s.ledger[s.core.allocations[h].lease] == Held(h)
  {
    assert Carries(s, Held(h), s.core.allocations[h].lease);
  }

  lemma KeepsByAlloc(s: Sys, a: Alloc, kept: set<Lease>)
    requires KeepsRetained(s, kept) && Partitioned(s) && CanAlloc(s, a)
    ensures KeepsRetained(DoAlloc(s, a), kept)
  {
    var s' := DoAlloc(s, a);
    var k := AllocTasks(s, a);
    forall l | Ended(s, l)
      ensures Ended(s', l)
    {
      EndedByAlloc(s, a, l, k);
    }
    hide DoAlloc, Ended, MeansToKeep, Partitioned;
    KeepsUnmoved(s, s', kept);
  }

  lemma EndedByAlloc(s: Sys, a: Alloc, l: Lease, k: Option<Task>)
    requires Partitioned(s) && CanAlloc(s, a) && Ended(s, l) && GoesOn(s, a, k)
    ensures Ended(DoAlloc(s, a), l)
  {
    var s' := DoAlloc(s, a);
    if a.Abandon? || a.ConvertSlot? {
      CarriedIsInHand(s, a.t);
    }
    assert s'.ledger == s.ledger || (l in s'.ledger && s'.ledger[l] == s.ledger[l]) by {
      hide Partitioned, Convert, ReturnUnit, EnterProfile, TakeId;
    }
    if s.ledger[l].InHand? {
      var t := s.ledger[l].t;
      assert t != a.t ==> t in s'.tasks && s'.tasks[t] == s.tasks[t];
    }
    hide DoAlloc, Partitioned;
  }

  lemma KeepsByFinish(s: Sys, t: Tid, h: Id, keep: bool, kept: set<Lease>)
    requires KeepsRetained(s, kept) && Partitioned(s) && (t in s.tasks ==> !s.tasks[t].HoldsLease())
    ensures var more := if keep && h in s.core.allocations then {s.core.allocations[h].lease} else {};
            KeepsRetained(EndByFinish(s, t, h, keep), kept + more)
  {
    var s' := EndByFinish(s, t, h, keep);
    if h in s.core.allocations {
      var lease := s.core.allocations[h].lease;
      HeldIsLive(s, h);
      assert lease !in kept;
      forall u | u in s.tasks && s.tasks[u].CarriesOff()
        ensures s.tasks[u].lease != lease && u != t
      {
        CarriedIsInHand(s, u);
      }
      assert forall l :: Ended(s, l) ==> l != lease && Ended(s', l);
      hide Partitioned, Finish;
    } else {
      hide Partitioned, Finish;
      KeepsUnmoved(s, s', kept);
      assert kept + {} == kept;
    }
  }

  /** One task that ended an Allocation moves on with its Lease, or lets go of it. */
  lemma KeepsMoved(s: Sys, s': Sys, t: Tid, kept: set<Lease>)
    requires KeepsRetained(s, kept) && Partitioned(s) && t in s.tasks && s.tasks[t].CarriesOff()
    requires t in s'.tasks ==> s'.tasks[t].CarriesOff() && s'.tasks[t].lease == s.tasks[t].lease
                               && MeansToKeep(s'.tasks[t]) == MeansToKeep(s.tasks[t])
    requires forall u :: u != t ==> (u in s'.tasks <==> u in s.tasks) && (u in s.tasks ==> s'.tasks[u] == s.tasks[u])
    requires if t in s'.tasks then s'.ledger == s.ledger
             else s'.ledger == s.ledger[s.tasks[t].lease := HandedBack] || s'.ledger == s.ledger[s.tasks[t].lease := Gone]
    ensures KeepsRetained(s', kept)
  {
    CarriedIsInHand(s, t);
    forall l | Ended(s, l)
      ensures Ended(s', l)
    {
      assert Carries(s, s.ledger[l], l);
    }
    hide Partitioned, MeansToKeep;
  }

  lemma KeepsByRead(s: Sys, e: Ends, kept: set<Lease>)
    requires KeepsRetained(s, kept) && Partitioned(s) && CanEnd(s, e)
    requires e.ReadGone? || e.HandOver? || e.KeepElapsed? || e.ReadGoneKept?
    ensures KeepsRetained(DoEnd(s, e), kept)
  {
    hide KeepsRetained, Partitioned;
    KeepsMoved(s, DoEnd(s, e), e.t, kept);
  }

  lemma KeepsByLoss(s: Sys, t: Tid, kept: set<Lease>)
    requires KeepsRetained(s, kept) && Partitioned(s) && CanEnd(s, FinishLost(t))
    ensures KeepsRetained(DoEnd(s, FinishLost(t)), kept)
  {
    var h, s' := s.tasks[t].h, DoEnd(s, FinishLost(t));
    if h in s.core.allocations {
      HeldIsLive(s, h);
    }
    forall l | Ended(s, l)
      ensures Ended(s', l)
    {
    }
    hide Finish, Ended, Partitioned, MeansToKeep;
    KeepsUnmoved(s, s', kept);
  }

  lemma KeepsByEnd(s: Sys, e: Ends, kept: set<Lease>)
    requires KeepsRetained(s, kept) && Partitioned(s) && CanEnd(s, e)
    ensures KeepsRetained(DoEnd(s, e), kept + Retains(s, EndsStep(e)))
  {
    assert kept + {} == kept;
    if e.FinishEnded? {
      KeepsByFinish(s, e.t, s.tasks[e.t].h, s.tasks[e.t].why.Retained?, kept);
    } else if e.FinishLost? {
      KeepsByLoss(s, e.t, kept);
    } else if e.ReadGone? || e.HandOver? || e.KeepElapsed? || e.ReadGoneKept? {
      KeepsByRead(s, e, kept);
    } else {
      assert forall l :: Ended(s, l) ==> Ended(DoEnd(s, e), l);
      hide Ended, Partitioned, MeansToKeep;
      KeepsUnmoved(s, DoEnd(s, e), kept);
    }
    hide KeepsRetained, Partitioned, Finish, DoEnd;
  }

  lemma KeepsByOther(s: Sys, step: Step, kept: set<Lease>)
    requires KeepsRetained(s, kept) && Partitioned(s) && Enabled(s, step) && (step.ReserveStep? || step.LifeStep?)
    ensures KeepsRetained(Do(s, step), kept)
  {
    if step.LifeStep? && step.l.AbortNext? {
      var l := step.l;
      var s1 := s.(phase := s.phase.(todo := s.phase.todo - {l.h}));
      assert forall x :: Ended(s, x) ==> Ended(s1, x);
      PartitionKept(s, s1);
      KeepsUnmoved(s, s1, kept);
      KeepsByFinish(s1, l.t, l.h, false, kept);
      assert kept + {} == kept;
    } else {
      hide Grant, AskDrained, Finish, Partitioned;
      assert forall l :: Ended(s, l) ==> Ended(Do(s, step), l);
      hide Ended, MeansToKeep;
      KeepsUnmoved(s, Do(s, step), kept);
    }
  }

  lemma KeepsStep(s: Sys, step: Step, kept: set<Lease>)
    requires KeepsRetained(s, kept) && Partitioned(s) && Enabled(s, step)
    ensures KeepsRetained(Do(s, step), kept + Retains(s, step))
  {
    hide KeepsRetained, Partitioned, DoAlloc, DoEnd;
    assert kept + {} == kept;
    match step
    case AllocStep(a) => KeepsByAlloc(s, a, kept);
    case EndsStep(e) => KeepsByEnd(s, e, kept);
    case _ => KeepsByOther(s, step, kept);
  }

  lemma {:induction false} KeepsRun(s: Sys, steps: seq<Step>, kept: set<Lease>)
    requires KeepsRetained(s, kept) && Sound(s) && CanRun(s, steps)
    ensures KeepsRetained(DoAll(s, steps), kept + RetainedIn(s, steps))
    decreases |steps|
  {
    hide Do, Enabled, KeepsRetained, Retains, Partitioned;
    if steps == [] {
      assert kept + {} == kept;
    } else {
      assert Partitioned(s);
      hide Sound;
      KeepsStep(s, steps[0], kept);
      SoundStep(s, steps[0]);
      var next, now := Do(s, steps[0]), Retains(s, steps[0]);
      KeepsRun(next, steps[1..], kept + now);
      assert kept + now + RetainedIn(next, steps[1..]) == kept + (now + RetainedIn(next, steps[1..]));
    }
  }

  /** In every reachable state a task that has ended an Allocation, and so anything
      retained, means to keep the Lease iff it was Retain that ended it: Release and the
      aborts never do. */
  lemma KeptIffRetained(slots: nat, limits: map<Profile, nat>, steps: seq<Step>, t: Tid)
    requires CanRun(NewSys(slots, limits), steps)
    requires var s := DoAll(NewSys(slots, limits), steps); t in s.tasks && s.tasks[t].CarriesOff()
    ensures var k := DoAll(NewSys(slots, limits), steps).tasks[t];
            MeansToKeep(k) <==> k.lease in RetainedIn(NewSys(slots, limits), steps)
  {
    var s := NewSys(slots, limits);
    NewIsSound(slots, limits);
    assert KeepsRetained(s, {});
    hide DoAll, CanRun, NewSys, RetainedIn, MeansToKeep, Ended;
    KeepsRun(s, steps, {});
    assert {} + RetainedIn(s, steps) == RetainedIn(s, steps);
  }

  // ---------------------------------------------------------------- Reservations and Allocations

  /** A Slot is free and something is warm. */
  predicate Grantable(c: Core, warm: int) {
    |c.reservations| + |c.allocations| < c.slots && 0 < warm
  }

  /** The Reservation a step grants, under the next id. */
  function Grants(s: Sys, step: Step): set<Id> {
    if step.ReserveStep? && step.r.GrantSlot? && Grantable(s.core, step.r.warm) then {s.core.nextID + 1} else {}
  }

  /** The Reservations a step takes away: the one released, the one converted, and all
      of them when shutdown empties them. */
  function Frees(s: Sys, step: Step): set<Id>
    requires Enabled(s, step)
  {
    match step
    case ReserveStep(ReleaseHeld(r)) => {r}
    case AllocStep(ConvertSlot(t)) => {s.tasks[t].r}
    case LifeStep(EmptyReservations) => s.core.reservations
    case _ => {}
  }

  /** The Allocation a step makes of a Reservation that is still held. */
  function Makes(s: Sys, step: Step): map<Id, Handle>
    requires Enabled(s, step)
  {
    if step.AllocStep? && step.a.ConvertSlot? && s.tasks[step.a.t].r in s.core.reservations
    then var k := s.tasks[step.a.t]; map[k.id := Handle(k.lease, k.p)]
    else map[]
  }

  /** The Allocation a step ends, if it is live. */
  function EndsAllocation(s: Sys, step: Step): set<Id>
    requires Enabled(s, step)
  {
    match step
    case EndsStep(FinishLost(t)) => {s.tasks[t].h}
    case EndsStep(FinishEnded(t)) => {s.tasks[t].h}
    case LifeStep(AbortNext(_, h)) => {h}
    case _ => {}
  }

  /** Whether a step returns a unit of a Profile. */
  predicate ReturnsUnit(s: Sys, step: Step)
    requires Enabled(s, step)
  {
    || (step.AllocStep? && step.a.Leave?)
    || EndsAllocation(s, step) * s.core.allocations.Keys != {}
  }

  ghost predicate HoldingsStep(s: Sys, step: Step)
    requires Enabled(s, step)
  {
    Changed(s.core, Frees(s, step), Grants(s, step), EndsAllocation(s, step), Makes(s, step), ReturnsUnit(s, step),
            Do(s, step).core)
  }

  ghost predicate Changed(c: Core, frees: set<Id>, grants: set<Id>, ends: set<Id>, makes: map<Id, Handle>, unit: bool,
                          d: Core) {
    && d.reservations == c.reservations - frees + grants
    && d.allocations == c.allocations - ends + makes
    && d.freeEpoch == c.freeEpoch + One(unit)
  }

  lemma Unchanged(c: Core, d: Core)
    requires d.reservations == c.reservations && d.allocations == c.allocations && d.freeEpoch == c.freeEpoch
    ensures Changed(c, {}, {}, {}, map[], false, d)
  {
    assert c.allocations - {} + map[] == c.allocations;
    assert c.reservations - {} + {} == c.reservations;
  }

  lemma ChangedReservations(c: Core, frees: set<Id>, grants: set<Id>, d: Core)
    requires d.reservations == c.reservations - frees + grants
    requires d.allocations == c.allocations && d.freeEpoch == c.freeEpoch
    ensures Changed(c, frees, grants, {}, map[], false, d)
  {
    assert c.allocations - {} + map[] == c.allocations;
  }

  lemma ReserveTouches(s: Sys, r: Reserve)
    requires CanReserve(s, r)
    ensures var step := ReserveStep(r);
            && Frees(s, step) == (if r.ReleaseHeld? then {r.r} else {})
            && EndsAllocation(s, step) == {} && Makes(s, step) == map[] && !ReturnsUnit(s, step)
  {
    assert {} * s.core.allocations.Keys == {};
  }

  lemma GrantableIff(c: Core, warm: int)
    ensures 0 < Capacity(c, warm).0 <==> Grantable(c, warm)
  {
  }

  lemma GrantForm(c: Core, warm: int)
    ensures var d := Grant(c, warm);
            && d.reservations == c.reservations + (if Grantable(c, warm) then {c.nextID + 1} else {})
            && d.allocations == c.allocations && d.freeEpoch == c.freeEpoch
  {
    hide Capacity, Grantable;
    GrantableIff(c, warm);
    if !Grantable(c, warm) {
      assert c.reservations + {} == c.reservations;
    }
  }

  lemma GrantChanges(s: Sys, t: Tid, warm: int)
    ensures var c, d := s.core, Grant(s.core, warm);
            && d.reservations == c.reservations - {} + Grants(s, ReserveStep(GrantSlot(t, warm)))
            && d.allocations == c.allocations && d.freeEpoch == c.freeEpoch
  {
    GrantForm(s.core, warm);
    hide Grant, Grantable;
    assert s.core.reservations - {} == s.core.reservations;
  }

  lemma HoldingsReserve(s: Sys, r: Reserve)
    requires CanReserve(s, r)
    ensures HoldingsStep(s, ReserveStep(r))
  {
    var c, d := s.core, DoReserve(s, r).core;
    ReserveTouches(s, r);
    hide Frees, EndsAllocation, Makes, ReturnsUnit, Changed, Grant;
    match r
    case StartReserve(_) => Unchanged(c, d);
    case GrantSlot(t, warm) =>
      GrantChanges(s, t, warm);
      hide Grants;
      ChangedReservations(c, {}, Grants(s, ReserveStep(r)), d);
    case ReleaseHeld(id) =>
      assert d.reservations == c.reservations - {id} + {};
      ChangedReservations(c, {id}, {}, d);
  }

  lemma HoldingsAlloc(s: Sys, a: Alloc)
    requires CanAlloc(s, a)
    ensures HoldingsStep(s, AllocStep(a))
  {
    var c, d := s.core, DoAlloc(s, a).core;
    if a.ConvertSlot? {
      HoldingsConvert(s, a.t);
    } else {
      AllocCore(s, a);
      EpochAlloc(s, a);
      hide DoAlloc;
      assert c.allocations - {} + map[] == c.allocations;
      assert c.reservations - {} + {} == c.reservations;
      assert {} * c.allocations.Keys == {};
    }
  }

  lemma ConvertTouches(s: Sys, t: Tid)
    requires CanAlloc(s, ConvertSlot(t))
    ensures var step, k := AllocStep(ConvertSlot(t)), s.tasks[t];
            && Frees(s, step) == {k.r} && Grants(s, step) == {} && EndsAllocation(s, step) == {} && !ReturnsUnit(s, step)
            && Makes(s, step) == if k.r in s.core.reservations then map[k.id := Handle(k.lease, k.p)] else map[]
  {
    assert {} * s.core.allocations.Keys == {};
  }

  lemma ConvertChanges(c: Core, r: Id, id: Id, h: Handle)
    ensures Changed(c, {r}, {}, {}, if r in c.reservations then map[id := h] else map[], false, Convert(c, r, id, h))
  {
    assert c.allocations - {} == c.allocations && c.allocations + map[] == c.allocations;
    assert c.allocations[id := h] == c.allocations + map[id := h];
    assert r !in c.reservations ==> c.reservations - {r} == c.reservations;
  }

  lemma HoldingsConvert(s: Sys, t: Tid)
    requires CanAlloc(s, ConvertSlot(t))
    ensures HoldingsStep(s, AllocStep(ConvertSlot(t)))
  {
    var k := s.tasks[t];
    ConvertTouches(s, t);
    ConvertChanges(s.core, k.r, k.id, Handle(k.lease, k.p));
    assert DoAlloc(s, ConvertSlot(t)).core == Convert(s.core, k.r, k.id, Handle(k.lease, k.p));
    hide Frees, Grants, EndsAllocation, Makes, ReturnsUnit, Changed, Convert, DoAlloc;
  }

  lemma EpochAlloc(s: Sys, a: Alloc)
    requires CanAlloc(s, a)
    ensures DoAlloc(s, a).core.freeEpoch == s.core.freeEpoch + One(a.Leave?)
  {
  }

  lemma ChangedByFinish(c: Core, h: Id)
    ensures Changed(c, {}, {}, {h}, map[], {h} * c.allocations.Keys != {}, Finish(c, h))
  {
    FinishFrame(c, h);
    assert h in c.allocations <==> {h} * c.allocations.Keys != {} by {
      assert h in c.allocations ==> h in {h} * c.allocations.Keys;
    }
    assert Finish(c, h).freeEpoch == c.freeEpoch + One(h in c.allocations);
    hide Finish;
    assert c.allocations - {h} + map[] == c.allocations - {h};
    assert c.reservations - {} + {} == c.reservations;
  }

  lemma HoldingsEnd(s: Sys, e: Ends)
    requires CanEnd(s, e)
    ensures HoldingsStep(s, EndsStep(e))
  {
    if e.FinishLost? || e.FinishEnded? {
      ChangedByFinish(s.core, s.tasks[e.t].h);
      hide Finish, Changed;
    } else {
      assert {} * s.core.allocations.Keys == {};
      Unchanged(s.core, DoEnd(s, e).core);
      hide Finish, Changed;
    }
  }

  lemma HoldingsLife(s: Sys, l: Life)
    requires CanLive(s, l)
    ensures HoldingsStep(s, LifeStep(l))
  {
    var c, d := s.core, DoLife(s, l).core;
    assert {} * c.allocations.Keys == {};
    if l.AbortNext? {
      ChangedByFinish(c, l.h);
    } else if l.EmptyReservations? {
      assert d.reservations == c.reservations - c.reservations + {};
      ChangedReservations(c, c.reservations, {}, d);
    } else {
      hide Finish;
      Unchanged(c, d);
    }
    hide Finish, Changed;
  }

  /** Every step: which Reservations and Allocations come and go, everything else about
      them staying as it is, and that callers waiting at a limit are woken iff a unit is
      returned. */
  lemma Holdings(s: Sys, step: Step)
    requires Enabled(s, step)
    ensures HoldingsStep(s, step)
  {
    hide HoldingsStep;
    match step
    case ReserveStep(r) => HoldingsReserve(s, r);
    case AllocStep(a) => HoldingsAlloc(s, a);
    case EndsStep(e) => HoldingsEnd(s, e);
    case LifeStep(l) => HoldingsLife(s, l);
  }

  /** From its start to its end Allocate works for the Reservation and the Profile it was
      called with, and with the Lease its claim was answered with. */
  lemma AllocateKeepsItsRequest(s: Sys, a: Alloc)
    requires CanAlloc(s, a) && !a.StartAllocate? && a.t in DoAlloc(s, a).tasks
    ensures var k, k' := s.tasks[a.t], DoAlloc(s, a).tasks[a.t];
            && (k.HasReservation() && k'.HasReservation() ==> k'.r == k.r)
            && (k.HasReservation() || k.Failing?) && (k'.HasReservation() || k'.Failing?) && k'.p == k.p
            && (k'.Claimed? && a.ClaimAnswered? ==> k'.lease == a.lease)
            && (k'.Built? ==> k.Claimed? && k'.lease == k.lease)
  {
    hide Convert, ReturnUnit, EnterProfile;
  }

  ghost predicate NoneBegins(s: Sys, s': Sys) {
    forall t :: t in s'.tasks && s'.tasks[t].Reserving? ==> t in s.tasks && s.tasks[t].Reserving?
  }

  /** Once the Scheduler is not running nobody begins to reserve. */
  lemma NobodyBeginsToReserve(s: Sys, step: Step)
    requires Enabled(s, step) && s.core.state != Running
    ensures NoneBegins(s, Do(s, step))
  {
    match step
    case ReserveStep(_) => hide Grant;
    case AllocStep(a) =>
      hide NoneBegins, DoAlloc;
      NoneBeginsByAlloc(s, a);
    case EndsStep(e) =>
      hide NoneBegins, DoEnd;
      NoneBeginsByEnd(s, e);
    case LifeStep(_) => hide Finish, AskDrained;
  }

  lemma NoneBeginsByAlloc(s: Sys, a: Alloc)
    requires CanAlloc(s, a)
    ensures NoneBegins(s, DoAlloc(s, a))
  {
    var k := AllocTasks(s, a);
    if a.t in DoAlloc(s, a).tasks {
      AllocNeverReserves(s, a);
    }
    hide DoAlloc;
  }

  lemma NoneBeginsByEnd(s: Sys, e: Ends)
    requires CanEnd(s, e)
    ensures NoneBegins(s, DoEnd(s, e))
  {
    hide Finish;
  }

  lemma AllocNeverReserves(s: Sys, a: Alloc)
    requires CanAlloc(s, a) && a.t in DoAlloc(s, a).tasks
    ensures !DoAlloc(s, a).tasks[a.t].Reserving?
  {
    hide Convert, ReturnUnit, EnterProfile, TakeId;
  }

  // ---------------------------------------------------------------- draining

  /** While shutdown drains, its channel is open exactly as long as an Allocation is
      live; and the background is closed exactly once shutdown is over. */
  ghost predicate DrainsTruly(s: Sys) {
    && (s.phase.Draining? ==> (s.core.draining <==> s.core.allocations != map[]))
    && (s.core.bgClosed <==> s.phase.Down?)
  }

  lemma DrainStep(s: Sys, step: Step)
    requires DrainsTruly(s) && ShuttingDown(s) && Enabled(s, step)
    ensures DrainsTruly(Do(s, step))
  {
    hide ShuttingDown, DrainsTruly;
    match step
    case ReserveStep(r) =>
      hide DoReserve;
      DrainReserve(s, r);
    case AllocStep(a) =>
      hide DoAlloc;
      DrainAlloc(s, a);
    case EndsStep(e) =>
      hide DoEnd;
      DrainEnd(s, e);
    case LifeStep(l) =>
      hide DoLife;
      DrainLife(s, l);
  }

  lemma DrainReserve(s: Sys, r: Reserve)
    requires DrainsTruly(s) && CanReserve(s, r)
    ensures DrainsTruly(DoReserve(s, r))
  {
    hide Capacity;
  }

  lemma DrainAlloc(s: Sys, a: Alloc)
    requires DrainsTruly(s) && ShuttingDown(s) && CanAlloc(s, a)
    ensures DrainsTruly(DoAlloc(s, a))
  {
    DrainKept(s, a);
    ShutdownAlloc(s, a);
    hide DoAlloc, CanAlloc;
  }

  lemma DrainKept(s: Sys, a: Alloc)
    requires CanAlloc(s, a)
    ensures var c := DoAlloc(s, a).core;
            c.draining == s.core.draining && c.bgClosed == s.core.bgClosed && DoAlloc(s, a).phase == s.phase
  {
    if !a.ConvertSlot? {
      AllocCore(s, a);
      hide DoAlloc;
    }
  }

  lemma DrainEnd(s: Sys, e: Ends)
    requires DrainsTruly(s) && CanEnd(s, e)
    ensures DrainsTruly(DoEnd(s, e))
  {
    if e.FinishLost? || e.FinishEnded? {
      var h := s.tasks[e.t].h;
      FinishFrame(s.core, h);
      assert h !in s.core.allocations ==> s.core.allocations - {h} == s.core.allocations;
    }
    hide Finish;
  }

  lemma DrainLife(s: Sys, l: Life)
    requires DrainsTruly(s) && ShuttingDown(s) && CanLive(s, l)
    ensures DrainsTruly(DoLife(s, l))
  {
    if l.AbortNext? {
      FinishFrame(s.core, l.h);
    }
    hide Finish;
  }

  lemma {:induction false} DrainRun(s: Sys, steps: seq<Step>)
    requires DrainsTruly(s) && Sound(s) && CanRun(s, steps)
    ensures DrainsTruly(DoAll(s, steps))
    decreases |steps|
  {
    if steps != [] {
      DrainStep(s, steps[0]);
      SoundStep(s, steps[0]);
      hide Do, Enabled, Sound, DrainsTruly;
      DrainRun(Do(s, steps[0]), steps[1..]);
    }
  }

  /** In every reachable state. */
  lemma DrainEndsWhenEmpty(slots: nat, limits: map<Profile, nat>, steps: seq<Step>)
    requires CanRun(NewSys(slots, limits), steps)
    ensures var s := DoAll(NewSys(slots, limits), steps);
            && (s.phase.Draining? ==> (CanLive(s, DrainClosed) <==> s.core.allocations == map[]))
            && (s.core.bgClosed <==> s.phase.Down?)
  {
    NewIsSound(slots, limits);
    DrainRun(NewSys(slots, limits), steps);
  }
}
