/**
 What the Tracker keeps for one Pool, as a value: four counts, the flags that
 remember a doubt or a debt, and the generation that tells a poll whether it
 raced an event. Every function here is one hold of the Tracker's lock.
 */
module Pools {
  import opened Basics
  import opened UidCounts

  datatype PoolRef = PoolRef(name: string, namespace: string)

  datatype Status = Status(available: int, leased: int, provisioning: int, quarantined: int)

  datatype EventKind =
    | Provisioned
    | Available
    | Claimed
    | Released
    | DeletedDueToExpiry
    | DeletedOnRelease
    | HookFailed(quarantined: bool)
    | BelowTarget(size: int, counts: Option<Status>)  // counts absent: no readable payload
    | Unknown

  datatype Event = Event(pool: PoolRef, uid: Uid, kind: EventKind) {
    predicate CarriesCounts() {
      kind.BelowTarget? && kind.counts.Some?
    }
  }

  /** `woken` counts the closings of the waiters channel: a caller that read
      the value w is awake once woken > w. */
  datatype Pool = Pool(
    available: Count, leased: Count, provisioning: Count, quarantined: Count,
    size: int, declared: bool, exhausted: bool, needsPoll: bool, unsettled: bool,
    generation: nat, woken: nat, waiting: nat)
  {
    function Visible(): int {
      if !declared || exhausted then 0 else available.Total()
    }
  }

  const NewPool := Pool(Empty, Empty, Empty, Empty, 0, false, false, false, false, 0, 0, 0)

  function Wake(p: Pool): Pool {
    p.(woken := p.woken + 1, waiting := 0)
  }

  function FoldStatus(p: Pool, st: Status): Pool {
    p.(available := Rebaseline(p.available, st.available),
       leased := Rebaseline(p.leased, st.leased),
       provisioning := Rebaseline(p.provisioning, st.provisioning),
       quarantined := Rebaseline(p.quarantined, st.quarantined))
  }

  /** What the event says about the counts and the doubt it leaves. */
  function Account(p: Pool, e: Event): Pool {
    match e.kind
    case Provisioned =>
      p.(exhausted := false, provisioning := Add(p.provisioning, e.uid))
    case Available =>
      var q := p.(exhausted := false,
                  provisioning := Leave(p.provisioning, e.uid),
                  available := Add(p.available, e.uid),
                  unsettled := p.unsettled || (Adds(p.available, e.uid) && Takes(p.available, e.uid)));
      if Adds(p.available, e.uid) then Wake(q) else q
    case Claimed =>
      p.(available := Leave(p.available, e.uid), leased := Add(p.leased, e.uid))
    case Released =>
      p.(exhausted := false, available := Remove(p.available, e.uid), leased := Leave(p.leased, e.uid))
    case DeletedDueToExpiry =>
      p.(exhausted := false, available := Remove(p.available, e.uid), leased := Leave(p.leased, e.uid))
    case DeletedOnRelease =>
      p.(exhausted := false, available := Remove(p.available, e.uid), leased := Remove(p.leased, e.uid))
    case HookFailed(quarantined) =>
      p.(available := Remove(p.available, e.uid), provisioning := Leave(p.provisioning, e.uid),
         quarantined := if quarantined then Add(p.quarantined, e.uid) else p.quarantined)
    case BelowTarget(size, Some(st)) =>
      FoldStatus(p, st).(exhausted := false, size := size, needsPoll := false, unsettled := false)
    case _ => p
  }

  /** The event counted the Pool down to nothing, or a guess has left it
      reading below its target. */
  predicate Indebts(before: int, after: Pool) {
    || (before > 0 && after.Visible() == 0)
    || (after.unsettled && (after.size <= 0 || after.Visible() < after.size))
  }

  function ApplyEvent(p: Pool, e: Event): Pool {
    var q := Account(p.(generation := p.generation + 1), e);
    q.(needsPoll := q.needsPoll || Indebts(p.Visible(), q))
  }

  /** A GetPool answer to a question sent at generation `asked`. */
  function ApplyPoll(p: Pool, asked: nat, size: int, st: Status): Pool {
    if p.generation != asked then p.(needsPoll := true)
    else
      var q := FoldStatus(p, st).(size := size, exhausted := false, needsPoll := false, unsettled := false);
      if q.Visible() > 0 then Wake(q) else q
  }

  function Exhaust(p: Pool): Pool {
    p.(exhausted := true, available := Empty)
  }

  function Declare(p: Pool, declared: bool): Pool {
    p.(declared := declared)
  }

  /** The Pool Manager says it has no such Pool. */
  function NotFound(p: Pool): Pool {
    p.(declared := false, needsPoll := false, unsettled := false)
  }

  // ---------------------------------------------------------------- events as operations

  /** The four counts a Pool keeps, by the stage of a MicroVM they count. */
  datatype Stage = Provisioning | Warm | Leased | Quarantined | Gone

  function CountOf(p: Pool, k: Stage): Count
    requires !k.Gone?
  {
    match k
    case Provisioning => p.provisioning
    case Warm => p.available
    case Leased => p.leased
    case Quarantined => p.quarantined
  }

  /** What an event that carries no counts means for one of the counts. */
  function OpFor(k: Stage, e: Event): Op
    requires !k.Gone?
  {
    match (k, e.kind)
    case (Provisioning, Provisioned) => Name(e.uid)
    case (Provisioning, Available) => Leaves(e.uid)
    case (Provisioning, HookFailed(_)) => Leaves(e.uid)
    case (Warm, Available) => Name(e.uid)
    case (Warm, Claimed) => Leaves(e.uid)
    case (Warm, Released) => Drop(e.uid)
    case (Warm, DeletedDueToExpiry) => Drop(e.uid)
    case (Warm, DeletedOnRelease) => Drop(e.uid)
    case (Warm, HookFailed(_)) => Drop(e.uid)
    case (Leased, Claimed) => Name(e.uid)
    case (Leased, Released) => Leaves(e.uid)
    case (Leased, DeletedDueToExpiry) => Leaves(e.uid)
    case (Leased, DeletedOnRelease) => Drop(e.uid)
    case (Quarantined, HookFailed(true)) => Name(e.uid)
    case _ => Keep
  }

  function OpsFor(k: Stage, es: seq<Event>): (ops: seq<Op>)
    requires !k.Gone?
    ensures |ops| == |es|
    ensures forall i :: 0 <= i < |es| ==> ops[i] == OpFor(k, es[i])
  {
    seq(|es|, i requires 0 <= i < |es| => OpFor(k, es[i]))
  }

  function RunEvents(p: Pool, es: seq<Event>): Pool {
    if es == [] then p else ApplyEvent(RunEvents(p, es[..|es| - 1]), es[|es| - 1])
  }

  ghost predicate NoCounts(es: seq<Event>) {
    forall e :: e in es ==> !e.CarriesCounts()
  }

  lemma AccountProjects(p: Pool, e: Event, k: Stage)
    requires !k.Gone? && !e.CarriesCounts()
    ensures CountOf(Account(p, e), k) == Apply(CountOf(p, k), OpFor(k, e))
  {
    hide Add, Leave, Remove, Takes, Adds, Rebaseline;
  }

  lemma EventProjects(p: Pool, e: Event, k: Stage)
    requires !k.Gone? && !e.CarriesCounts()
    ensures CountOf(ApplyEvent(p, e), k) == Apply(CountOf(p, k), OpFor(k, e))
  {
    hide Account, Apply, Indebts, OpFor;
    AccountProjects(p.(generation := p.generation + 1), e, k);
  }

  /** Without a folded total the four counts run independently: each sees only
      the operations the events mean for it. */
  lemma {:induction false} RunProjects(p: Pool, es: seq<Event>, k: Stage)
    requires !k.Gone? && NoCounts(es)
    ensures CountOf(RunEvents(p, es), k) == Run(CountOf(p, k), OpsFor(k, es))
  {
    if es != [] {
      hide Apply, ApplyEvent, CountOf, OpFor;
      var n := |es| - 1;
      RunProjects(p, es[..n], k);
      EventProjects(RunEvents(p, es[..n]), es[n], k);
      assert OpsFor(k, es)[..n] == OpsFor(k, es[..n]);
    }
  }

  lemma EventWf(p: Pool, e: Event, k: Stage)
    requires !k.Gone? && CountOf(p, k).Wf()
    ensures CountOf(ApplyEvent(p, e), k).Wf()
  {
    hide Add, Leave, Remove, Indebts, Takes;
    if !e.CarriesCounts() {
      hide Apply, ApplyEvent;
      EventProjects(p, e, k);
      UnnamedStep(CountOf(p, k), OpFor(k, e));
    }
  }

  /** A subscription's replay of events already applied leaves all four counts
      exactly as they were. */
  lemma {:induction false} PoolReplayHarmless(p: Pool, es: seq<Event>, replayed: seq<Event>, k: Stage)
    requires !k.Gone? && CountOf(p, k).Wf() && NoCounts(es + replayed)
    ensures CountOf(RunEvents(p, es + replayed + replayed), k) == CountOf(RunEvents(p, es + replayed), k)
  {
    hide CountOf, OpFor, RunEvents;
    assert NoCounts(es + replayed + replayed) by {
      assert forall e :: e in es + replayed + replayed ==> e in es + replayed;
    }
    RunProjects(p, es + replayed, k);
    RunProjects(p, es + replayed + replayed, k);
    assert OpsFor(k, es + replayed) == OpsFor(k, es) + OpsFor(k, replayed);
    assert OpsFor(k, es + replayed + replayed) == OpsFor(k, es) + OpsFor(k, replayed) + OpsFor(k, replayed);
    ReplayHarmless(CountOf(p, k), OpsFor(k, es), OpsFor(k, replayed));
  }
}

/** A tracked Pool as the object the Tracker updates in place. */
module TrackerObjects {
  import opened Basics
  import opened UidCounts
  import opened Pools

  class TrackedPool {
    const available: UidCount
    const leased: UidCount
    const provisioning: UidCount
    const quarantined: UidCount
    var size: int
    var declared: bool
    var exhausted: bool
    var needsPoll: bool
    var unsettled: bool
    var generation: nat
    var woken: nat
    var waiting: nat

    ghost const Repr: set<object>

    ghost predicate Valid() {
      && Repr == {this, available, leased, provisioning, quarantined}
      && available != leased && available != provisioning && available != quarantined
      && leased != provisioning && leased != quarantined
      && provisioning != quarantined
    }

    ghost function Value(): Pool
      requires Valid()
      reads Repr
    {
      Pool(available.Value(), leased.Value(), provisioning.Value(), quarantined.Value(),
           size, declared, exhausted, needsPoll, unsettled, generation, woken, waiting)
    }

    constructor ()
      ensures Valid() && fresh(Repr)
      ensures Value() == NewPool
    {
      available := new UidCount();
      leased := new UidCount();
      provisioning := new UidCount();
      quarantined := new UidCount();
      size, declared, exhausted, needsPoll, unsettled := 0, false, false, false, false;
      generation, woken, waiting := 0, 0, 0;
      Repr := {this, available, leased, provisioning, quarantined};
    }

    method AvailableCount() returns (n: int)
      requires Valid()
      ensures n == Value().Visible()
    {
      if !declared || exhausted {
        return 0;
      }
      return |available.named| + available.unnamed;
    }

    method CloseWaiters()
      requires Valid()
      modifies this
      ensures Value() == Wake(old(Value()))
    {
      woken := woken + 1;
      waiting := 0;
    }

    method FoldCounts(st: Status)
      requires Valid()
      modifies Repr
      ensures Value() == FoldStatus(old(Value()), st)
    {
      available.Fold(st.available);
      leased.Fold(st.leased);
      provisioning.Fold(st.provisioning);
      quarantined.Fold(st.quarantined);
    }

    method Switch(e: Event)
      requires Valid()
      modifies Repr
      ensures Value() == Account(old(Value()), e)
    {
      match e.kind
      case Provisioned =>
        exhausted := false;
        var _, _ := provisioning.AddUid(e.uid);
      case Available =>
        exhausted := false;
        provisioning.LeaveUid(e.uid);
        var added, tookUnnamed := available.AddUid(e.uid);
        if added {
          CloseWaiters();
        }
        if tookUnnamed {
          unsettled := true;
        }
      case Claimed =>
        available.LeaveUid(e.uid);
        var _, _ := leased.AddUid(e.uid);
      case Released =>
        exhausted := false;
        var _ := available.RemoveUid(e.uid);
        leased.LeaveUid(e.uid);
      case DeletedDueToExpiry =>
        exhausted := false;
        var _ := available.RemoveUid(e.uid);
        leased.LeaveUid(e.uid);
      case DeletedOnRelease =>
        exhausted := false;
        var _ := available.RemoveUid(e.uid);
        var _ := leased.RemoveUid(e.uid);
      case HookFailed(isQuarantined) =>
        var _ := available.RemoveUid(e.uid);
        provisioning.LeaveUid(e.uid);
        if isQuarantined {
          var _, _ := quarantined.AddUid(e.uid);
        }
      case BelowTarget(target, counts) =>
        if counts.Some? {
          exhausted := false;
          size := target;
          FoldCounts(counts.value);
          needsPoll, unsettled := false, false;
        }
      case Unknown =>
    }

    method Apply(e: Event) returns (owed: bool)
      requires Valid()
      modifies Repr
      ensures Value() == ApplyEvent(old(Value()), e)
      ensures owed == Value().needsPoll
    {
      hide Account;
      generation := generation + 1;
      var before := AvailableCount();
      Switch(e);
      var after := AvailableCount();
      if before > 0 && after == 0 {
        needsPoll := true;
      }
      if unsettled && (size <= 0 || after < size) {
        needsPoll := true;
      }
      owed := needsPoll;
    }

    method SetExhausted()
      requires Valid()
      modifies Repr
      ensures Value() == Exhaust(old(Value()))
    {
      exhausted := true;
      available.Reset();
    }

    method Answer(asked: nat, target: int, st: Status) returns (raced: bool)
      requires Valid()
      modifies Repr
      ensures Value() == ApplyPoll(old(Value()), asked, target, st)
      ensures raced == (old(Value()).generation != asked)
    {
      if generation != asked {
        needsPoll := true;
        return true;
      }
      raced := false;
      FoldCounts(st);
      size := target;
      exhausted := false;
      needsPoll, unsettled := false, false;
      var n := AvailableCount();
      if n > 0 {
        CloseWaiters();
      }
    }
  }
}
