/**
 One count against the truth it stands for: the set of MicroVMs that are at the
 counted stage. The law proved here is exact. A count reads short by the number
 of MicroVMs that were taken out of its unnamed part by mistake, capped by how
 many members no event has named.
 */
module CountTruth {
  import opened Basics
  import opened UidCounts

  /** The members of a stage, and every uid that has got as far as it. */
  datatype Truth = Truth(members: set<Uid>, reached: set<Uid>) {
    ghost predicate Wf() {
      members <= reached && "" !in reached
    }
  }

  /** What a live stream says of one stage: it names a MicroVM that enters for
      the first time, it lets one leave that is there, and it drops only those
      that are not there. */
  ghost predicate Live(t: Truth, op: Op) {
    match op
    case Name(u) => u != "" && u !in t.reached
    case Leaves(u) => u in t.members
    case Drop(u) => u !in t.members
    case Keep => true
  }

  function After(t: Truth, op: Op): Truth {
    match op
    case Name(u) => Truth(t.members + {u}, t.reached + {u})
    case Leaves(u) => t.(members := t.members - {u})
    case _ => t
  }

  function Hidden(c: Count, t: Truth): set<Uid> {
    t.members - c.named
  }

  /** `mistakes` is how many of the MicroVMs taken out of the unnamed part were
      not among those the last folded total counted without naming. */
  ghost predicate Law(c: Count, t: Truth, mistakes: nat) {
    && c.Wf() && t.Wf()
    && c.named <= t.members
    && c.accounted <= t.reached
    && c.accounted * t.members <= c.named
    && c.unnamed == Max(0, |Hidden(c, t)| - mistakes)
  }

  lemma LawTotal(c: Count, t: Truth, mistakes: nat)
    requires Law(c, t, mistakes)
    ensures c.Total() == |t.members| - Min(mistakes, |Hidden(c, t)|)
    ensures c.Total() == |t.members| <==> mistakes == 0 || t.members == c.named
  {
    assert t.members == c.named + Hidden(c, t);
    assert |t.members| == |c.named| + |Hidden(c, t)|;
    if |Hidden(c, t)| == 0 {
      assert Hidden(c, t) == {};
    }
  }

  /** Folding the true number makes the count exact. */
  lemma FoldIsExact(c: Count, t: Truth)
    requires c.Wf() && t.Wf() && c.named <= t.members
    ensures Law(Rebaseline(c, |t.members|), t, 0)
  {
    assert t.members == c.named + Hidden(c, t);
    assert |t.members| == |c.named| + |Hidden(c, t)|;
  }

  function Mistakes(op: Op): nat {
    if op.Name? then 1 else 0
  }

  lemma LawStep(c: Count, t: Truth, mistakes: nat, op: Op)
    requires Law(c, t, mistakes) && Live(t, op)
    ensures Law(Apply(c, op), After(t, op), mistakes + Mistakes(op))
  {
    hide Law, Add, Leave, Remove, After;
    match op
    case Name(u) => LawOnEntry(c, t, mistakes, u);
    case Leaves(u) => LawOnExit(c, t, mistakes, u);
    case Drop(u) => LawOnDrop(c, t, mistakes, u);
    case Keep => LawOnKeep(c, t, mistakes);
  }

  lemma LawOnDrop(c: Count, t: Truth, mistakes: nat, u: Uid)
    requires Law(c, t, mistakes) && Live(t, Drop(u))
    ensures Law(Remove(c, u), After(t, Drop(u)), mistakes)
  {
    assert Remove(c, u) == c;
  }

  lemma LawOnKeep(c: Count, t: Truth, mistakes: nat)
    requires Law(c, t, mistakes)
    ensures Law(c, After(t, Keep), mistakes)
  {
  }

  lemma LawOnEntry(c: Count, t: Truth, mistakes: nat, u: Uid)
    requires Law(c, t, mistakes) && Live(t, Name(u))
    ensures Law(Add(c, u), After(t, Name(u)), mistakes + 1)
  {
    var c', t' := Add(c, u), After(t, Name(u));
    assert c'.named == c.named + {u};
    assert Hidden(c', t') == Hidden(c, t);
    if c.unnamed > 0 {
      assert u !in c.accounted;
    }
  }

  lemma LawOnExit(c: Count, t: Truth, mistakes: nat, u: Uid)
    requires Law(c, t, mistakes) && Live(t, Leaves(u))
    ensures Law(Leave(c, u), After(t, Leaves(u)), mistakes)
  {
    if u in c.named {
      LawOnNamedExit(c, t, mistakes, u);
    } else {
      LawOnHiddenExit(c, t, mistakes, u);
    }
  }

  lemma LawOnNamedExit(c: Count, t: Truth, mistakes: nat, u: Uid)
    requires Law(c, t, mistakes) && u in c.named
    ensures Law(Leave(c, u), After(t, Leaves(u)), mistakes)
  {
    var c', t' := Leave(c, u), After(t, Leaves(u));
    UnnamedStep(c, Leaves(u));
    assert Hidden(c', t') == Hidden(c, t);
    hide Hidden, Take;
  }

  lemma LawOnHiddenExit(c: Count, t: Truth, mistakes: nat, u: Uid)
    requires Law(c, t, mistakes) && u in t.members && u !in c.named
    ensures Law(Leave(c, u), After(t, Leaves(u)), mistakes)
  {
    var c', t' := Leave(c, u), After(t, Leaves(u));
    UnnamedStep(c, Leaves(u));
    assert Hidden(c', t') == Hidden(c, t) - {u};
    assert |Hidden(c', t')| == |Hidden(c, t)| - 1;
    hide Hidden;
  }

  // ---------------------------------------------------------------- a total ahead of the stream

  function AfterAll(t: Truth, ops: seq<Op>): Truth {
    if ops == [] then t else After(AfterAll(t, ops[..|ops| - 1]), ops[|ops| - 1])
  }

  ghost predicate LiveRun(t: Truth, ops: seq<Op>) {
    forall i :: 0 <= i < |ops| ==> Live(AfterAll(t, ops[..i]), ops[i])
  }

  /** The MicroVMs a run lets leave. */
  function Left(ops: seq<Op>): set<Uid> {
    if ops == [] then {}
    else Left(ops[..|ops| - 1]) + (if ops[|ops| - 1].Leaves? then {ops[|ops| - 1].uid} else {})
  }

  lemma LiveInit(t: Truth, ops: seq<Op>)
    requires LiveRun(t, ops) && ops != []
    ensures LiveRun(t, ops[..|ops| - 1]) && Live(AfterAll(t, ops[..|ops| - 1]), ops[|ops| - 1])
  {
    var n := |ops| - 1;
    forall i | 0 <= i < n
      ensures Live(AfterAll(t, ops[..n][..i]), ops[..n][i])
    {
      assert ops[..n][..i] == ops[..i];
    }
  }

  lemma LiveExtend(t: Truth, ops: seq<Op>)
    requires ops != [] && LiveRun(t, ops[..|ops| - 1])
    requires Live(AfterAll(t, ops[..|ops| - 1]), ops[|ops| - 1])
    ensures LiveRun(t, ops)
  {
    var n := |ops| - 1;
    forall i | 0 <= i < |ops|
      ensures Live(AfterAll(t, ops[..i]), ops[i])
    {
      if i < n {
        assert ops[..i] == ops[..n][..i] && ops[i] == ops[..n][i];
      }
    }
  }

  /** Whatever the unnamed part does, delivering a run splits the uids it
      touched into those now named and those that left. */
  lemma {:induction false} DeliverySplits(c: Count, t: Truth, ops: seq<Op>)
    requires t.Wf() && c.named <= t.members && LiveRun(t, ops)
    ensures var (r, now) := (Run(c, ops), AfterAll(t, ops));
            && now.Wf()
            && r.named <= now.members
            && Left(ops) <= now.reached && Left(ops) !! now.members
            && c.named + Touched(ops) == r.named + Left(ops)
  {
    if ops == [] {
      assert Touched(ops) == {};
    } else {
      hide Take, Touched;
      var n := |ops| - 1;
      LiveInit(t, ops);
      DeliverySplits(c, t, ops[..n]);
      TouchedSplit(ops);
      NamedStep(Run(c, ops[..n]), ops[n]);
      assert Run(c, ops) == Apply(Run(c, ops[..n]), ops[n]);
      SplitStep(c.named, Touched(ops[..n]), Run(c, ops[..n]), AfterAll(t, ops[..n]), Left(ops[..n]), ops[n]);
    }
  }

  lemma SplitStep(base: set<Uid>, touched: set<Uid>, r: Count, now: Truth, left: set<Uid>, op: Op)
    requires now.Wf() && r.named <= now.members && Live(now, op)
    requires left <= now.reached && left !! now.members
    requires base + touched == r.named + left
    ensures var (r', now', left') := (Apply(r, op), After(now, op), left + (if op.Leaves? then {op.uid} else {}));
            && now'.Wf()
            && r'.named <= now'.members
            && left' <= now'.reached && left' !! now'.members
            && base + (touched + Touches(op)) == r'.named + left'
  {
    hide Take;
    var left' := left + (if op.Leaves? then {op.uid} else {});
    NamedStep(r, op);
    forall u
      ensures u in base + (touched + Touches(op)) <==> u in Apply(r, op).named + left'
    {
      assert u in base + touched <==> u in r.named + left;
    }
  }

  /** A total that already includes the events still on their way: once they
      are delivered the count obeys the law, each MicroVM that left on the way
      being one mistake. */
  lemma {:induction false} FoldAheadOfStream(c: Count, t: Truth, ops: seq<Op>)
    requires c.Wf() && t.Wf() && c.named <= t.members && LiveRun(t, ops)
    ensures Law(Run(Rebaseline(c, |AfterAll(t, ops).members|), ops), AfterAll(t, ops), |Left(ops)|)
  {
    var now := AfterAll(t, ops);
    var base := Rebaseline(c, |now.members|);
    var r := Run(base, ops);
    DeliverySplits(base, t, ops);
    RunUnnamed(base, ops);
    assert base.unnamed == Max(0, |now.members| - |c.named|) && (base.unnamed > 0 ==> base.accounted == c.named);
    hide Run, AfterAll, LiveRun, Touched, Left, Rebaseline;
    AheadUnnamed(c.named, base, Touched(ops), r, now, Left(ops));
    AheadAccounted(c.named, base, Touched(ops), r, now, Left(ops));
    hide Hidden, Max;
  }

  lemma AheadAccounted(named: set<Uid>, base: Count, touched: set<Uid>, r: Count, now: Truth, left: set<Uid>)
    requires r.unnamed == Max(0, base.unnamed - |touched - base.accounted|)
    requires base.unnamed > 0 ==> base.accounted == named
    requires r.accounted == if r.unnamed > 0 then base.accounted + touched else {}
    requires named + touched == r.named + left && left !! now.members && left <= now.reached
    requires now.Wf() && r.named <= now.members
    ensures r.accounted <= now.reached && r.accounted * now.members <= r.named
  {
    assert r.accounted <= r.named + left;
  }

  lemma AheadUnnamed(named: set<Uid>, base: Count, touched: set<Uid>, r: Count, now: Truth, left: set<Uid>)
    requires base.unnamed == Max(0, |now.members| - |named|) && (base.unnamed > 0 ==> base.accounted == named)
    requires r.unnamed == Max(0, base.unnamed - |touched - base.accounted|)
    requires named + touched == r.named + left && r.named !! left && r.named <= now.members
    ensures r.unnamed == Max(0, |Hidden(r, now)| - |left|)
  {
    assert |named + touched| == |r.named| + |left|;
    SizeOfUnion(named, touched);
    assert now.members == r.named + Hidden(r, now);
    assert |now.members| == |r.named| + |Hidden(r, now)|;
  }
}

/**
 A Pool's four counts against the lifecycle of its MicroVMs, event by event.
 */
module GroundTruth {
  import opened Basics
  import opened UidCounts
  import opened CountTruth
  import opened Pools

  /** The stage of every MicroVM the Pool has ever had; uids are never reused. */
  type World = map<Uid, Stage>

  function Members(w: World, k: Stage): set<Uid> {
    set u | u in w && w[u] == k
  }

  /** Stages a MicroVM can be at once it has got as far as `k`. */
  predicate HasReached(k: Stage, at: Stage) {
    match k
    case Provisioning => true
    case Warm => at.Warm? || at.Leased? || at.Gone?
    case Leased => at.Leased? || at.Gone?
    case Quarantined => at.Quarantined? || at.Gone?
    case Gone => at.Gone?
  }

  function TruthOf(w: World, k: Stage): Truth {
    Truth(Members(w, k), set u | u in w && HasReached(k, w[u]))
  }

  predicate At(w: World, u: Uid, k: Stage) {
    u in w && w[u] == k
  }

  function StatusOf(w: World): Status {
    Status(|Members(w, Warm)|, |Members(w, Leased)|, |Members(w, Provisioning)|, |Members(w, Quarantined)|)
  }

  /** The events a Pool Manager sends in order for what really happens. */
  predicate LiveEvent(w: World, e: Event) {
    match e.kind
    case Provisioned => e.uid != "" && e.uid !in w
    case Available => At(w, e.uid, Provisioning)
    case Claimed => At(w, e.uid, Warm)
    case Released => At(w, e.uid, Leased)
    case DeletedDueToExpiry => At(w, e.uid, Leased)
    case DeletedOnRelease => At(w, e.uid, Gone)
    case HookFailed(_) => At(w, e.uid, Provisioning)
    case BelowTarget(_, Some(st)) => st == StatusOf(w)
    case _ => true
  }

  function Happen(w: World, e: Event): World {
    match e.kind
    case Provisioned => w[e.uid := Provisioning]
    case Available => w[e.uid := Warm]
    case Claimed => w[e.uid := Leased]
    case Released => w[e.uid := Gone]
    case DeletedDueToExpiry => w[e.uid := Gone]
    case HookFailed(q) => w[e.uid := if q then Quarantined else Gone]
    case _ => w
  }

  lemma LiveProjects(w: World, e: Event, k: Stage)
    requires "" !in w && LiveEvent(w, e) && !k.Gone? && !e.CarriesCounts()
    ensures "" !in Happen(w, e) && TruthOf(Happen(w, e), k).Wf()
    ensures Live(TruthOf(w, k), OpFor(k, e))
    ensures After(TruthOf(w, k), OpFor(k, e)).members == TruthOf(Happen(w, e), k).members
    ensures After(TruthOf(w, k), OpFor(k, e)).reached <= TruthOf(Happen(w, e), k).reached
  {
  }

  /** How many MicroVMs have entered the stage since the last folded total. */
  function Entered(k: Stage, mistakes: nat, e: Event): nat
    requires !k.Gone?
  {
    if e.CarriesCounts() then 0 else mistakes + Mistakes(OpFor(k, e))
  }

  lemma CountsFold(p: Pool, w: World, e: Event, k: Stage)
    requires LiveEvent(w, e) && !k.Gone? && e.CarriesCounts()
    ensures Happen(w, e) == w
    ensures CountOf(ApplyEvent(p, e), k) == Rebaseline(CountOf(p, k), |TruthOf(w, k).members|)
  {
    hide Rebaseline, Indebts;
  }

  lemma EventKeepsLaw(p: Pool, w: World, e: Event, k: Stage, mistakes: nat)
    requires "" !in w && LiveEvent(w, e) && !k.Gone?
    requires Law(CountOf(p, k), TruthOf(w, k), mistakes)
    ensures Law(CountOf(ApplyEvent(p, e), k), TruthOf(Happen(w, e), k), Entered(k, mistakes, e))
  {
    hide OpFor, CountOf, ApplyEvent, Apply, TruthOf, LiveEvent, Happen, Rebaseline;
    if e.CarriesCounts() {
      CountsFold(p, w, e, k);
      FoldIsExact(CountOf(p, k), TruthOf(w, k));
    } else {
      LiveProjects(w, e, k);
      EventProjects(p, e, k);
      LawStep(CountOf(p, k), TruthOf(w, k), mistakes, OpFor(k, e));
    }
  }

  // ---------------------------------------------------------------- whole runs

  /** What can happen to a Pool while the stream keeps up: a live event, a
      GetPool answer no event raced, or a claim that found it exhausted. */
  datatype Step = Happens(e: Event) | Polled(size: int) | Exhausted

  datatype History = History(pool: Pool, world: World, entered: nat, exhausted: bool)

  predicate CanStep(r: History, s: Step) {
    s.Happens? ==> LiveEvent(r.world, s.e)
  }

  function DoStep(r: History, s: Step): History {
    match s
    case Happens(e) =>
      History(ApplyEvent(r.pool, e), Happen(r.world, e), Entered(Warm, r.entered, e), r.exhausted && !e.CarriesCounts())
    case Polled(size) =>
      History(ApplyPoll(r.pool, r.pool.generation, size, StatusOf(r.world)), r.world, 0, false)
    case Exhausted =>
      History(Exhaust(r.pool), r.world, r.entered, true)
  }

  predicate CanRun(r: History, ss: seq<Step>)
    decreases |ss|
  {
    ss == [] || (CanStep(r, ss[0]) && CanRun(DoStep(r, ss[0]), ss[1..]))
  }

  function DoRun(r: History, ss: seq<Step>): History
    decreases |ss|
  {
    if ss == [] then r else DoRun(DoStep(r, ss[0]), ss[1..])
  }

  /** Never too high; and exact law while no claim has emptied the count. The
      doubt is remembered whenever the count can be short. */
  ghost predicate Tracks(r: History) {
    var c, t := r.pool.available, TruthOf(r.world, Warm);
    && "" !in r.world
    && c.Wf() && c.named <= t.members && c.accounted <= t.reached && c.accounted * t.members <= c.named
    && c.unnamed <= |Hidden(c, t)|
    && (!r.exhausted ==> Law(c, t, r.entered))
    && (!r.exhausted && !r.pool.unsettled ==> r.entered == 0 || Hidden(c, t) == {})
  }

  lemma StepTracks(r: History, s: Step)
    requires Tracks(r) && CanStep(r, s)
    ensures Tracks(DoStep(r, s))
  {
    var c, t := r.pool.available, TruthOf(r.world, Warm);
    assert c == CountOf(r.pool, Warm);
    match s
    case Happens(e) =>
      // A count that is short for whatever reason obeys the law of some number of mistakes.
      var m := if r.exhausted then |Hidden(c, t)| - c.unnamed else r.entered;
      EventKeepsLaw(r.pool, r.world, e, Warm, m);
      if !r.exhausted && !ApplyEvent(r.pool, e).unsettled {
        EventDoubts(r, e);
      }
    case Polled(size) =>
      FoldIsExact(c, t);
    case Exhausted =>
  }

  lemma EventDoubts(r: History, e: Event)
    requires Tracks(r) && LiveEvent(r.world, e) && !r.exhausted && !ApplyEvent(r.pool, e).unsettled
    ensures var r' := DoStep(r, Happens(e));
            r'.entered == 0 || Hidden(r'.pool.available, TruthOf(r'.world, Warm)) == {}
  {
    var c, t := r.pool.available, TruthOf(r.world, Warm);
    if !e.CarriesCounts() {
      LiveProjects(r.world, e, Warm);
      EventProjects(r.pool, e, Warm);
    }
  }

  /** The Tracker refines the truth: over every run from a state that tracks it,
      the count never exceeds the number of warm MicroVMs, and is that number
      whenever no doubt is recorded and no claim has emptied it. */
  lemma {:induction false} TrackerRefinesTruth(r: History, ss: seq<Step>)
    requires Tracks(r) && CanRun(r, ss)
    ensures var r' := DoRun(r, ss);
            && Tracks(r')
            && r'.pool.available.Total() <= |Members(r'.world, Warm)|
            && (!r'.exhausted && !r'.pool.unsettled ==>
                  r'.pool.available.Total() == |Members(r'.world, Warm)|)
            && (!r'.exhausted ==>
                  r'.pool.available.Total() == |Members(r'.world, Warm)|
                    - Min(r'.entered, |Hidden(r'.pool.available, TruthOf(r'.world, Warm))|))
    decreases |ss|
  {
    if ss == [] {
      var c, t := r.pool.available, TruthOf(r.world, Warm);
      LawTotal(c, t, |Hidden(c, t)| - c.unnamed);
      if !r.exhausted {
        LawTotal(c, t, r.entered);
      }
    } else {
      StepTracks(r, ss[0]);
      TrackerRefinesTruth(DoStep(r, ss[0]), ss[1..]);
    }
  }

  // ---------------------------------------------------------------- debts

  predicate Owing(p: Pool) {
    p.unsettled && (p.size <= 0 || p.Visible() < p.size) ==> p.needsPoll
  }

  lemma {:induction false} RunLast(r: History, ss: seq<Step>)
    requires CanRun(r, ss) && ss != []
    ensures var n := |ss| - 1;
            CanRun(r, ss[..n]) && DoRun(r, ss) == DoStep(DoRun(r, ss[..n]), ss[n])
    decreases |ss|
  {
    var n := |ss| - 1;
    hide DoStep, CanStep;
    if n == 0 {
      assert DoRun(r, ss) == DoRun(DoStep(r, ss[0]), []);
    } else {
      RunLast(DoStep(r, ss[0]), ss[1..]);
      assert ss[1..][..n - 1] == ss[..n][1..];
    }
  }

  /** A step other than MarkExhausted leaves a Pool in doubt and below its target
      owing a poll. */
  lemma DoubtOwes(r: History, s: Step)
    ensures s.Exhausted? || Owing(DoStep(r, s).pool)
  {
    hide Account, Rebaseline;
  }

  /** A Pool no larger than its target that reads short owes a poll, unless a claim
      has emptied its count and no total has been folded since. */
  lemma ShortPoolOwesPoll(r: History, ss: seq<Step>)
    requires Tracks(r) && CanRun(r, ss) && (ss == [] ==> Owing(r.pool))
    ensures var r' := DoRun(r, ss);
            var warm := |Members(r'.world, Warm)|;
            && (!r'.exhausted && (r'.pool.size <= 0 || warm <= r'.pool.size) && r'.pool.available.Total() < warm ==>
                  r'.pool.needsPoll)
  {
    TrackerRefinesTruth(r, ss);
    if ss != [] {
      RunLast(r, ss);
      DoubtOwes(DoRun(r, ss[..|ss| - 1]), ss[|ss| - 1]);
      hide DoRun, CanRun, Tracks, Happen, Entered, ApplyEvent, ApplyPoll;
    }
  }

  /** That claim can strand a Pool: one warm MicroVM, MarkExhausted, and then the
      next event, which makes the Pool readable again. It reads zero, in no doubt,
      and owes nothing. */
  lemma ExhaustedPoolIsStranded(ref: PoolRef, a: Uid, b: Uid, size: int)
    requires a != b && a != "" && b != ""
    ensures var p := NewPool.(available := Count({a}, 0, {}), declared := true, size := size);
            var r := History(p, map[a := Warm], 0, false);
            var ss := [Exhausted, Happens(Event(ref, b, Provisioned))];
            var r' := DoRun(r, ss);
            && Tracks(r) && CanRun(r, ss)
            && r'.pool.declared && !r'.pool.exhausted && r'.pool.Visible() == 0
            && |Members(r'.world, Warm)| == 1
            && !r'.pool.unsettled && !r'.pool.needsPoll
  {
    var w: World := map[a := Warm];
    assert Members(w, Warm) == {a} && Members(w[b := Provisioning], Warm) == {a};
    var ss := [Exhausted, Happens(Event(ref, b, Provisioned))];
    assert ss[1..] == [ss[1]] && [ss[1]][1..] == [];
    var p := NewPool.(available := Count({a}, 0, {}), declared := true, size := size);
    var r := History(p, w, 0, false);
    var r1 := DoStep(r, ss[0]);
    var r2 := DoStep(r1, ss[1]);
    assert Tracks(r);
    assert DoRun(r2, []) == r2 && DoRun(r1, [ss[1]]) == DoRun(r2, [ss[1]][1..]);
    assert CanRun(r2, []) && CanRun(r1, [ss[1]]);
    assert DoRun(r, ss) == r2;
  }

  predicate Below(size: int, visible: int) {
    size <= 0 || visible < size
  }

  /** The events that make a Pool marked exhausted readable again. */
  predicate Clears(e: Event) {
    e.kind.Provisioned? || e.kind.Available? || e.kind.Released? || e.kind.DeletedDueToExpiry?
    || e.kind.DeletedOnRelease?
  }

  /** The MicroVMs the events say are warm: those whose last word is VM_AVAILABLE. */
  function SaidWarm(es: seq<Event>): set<Uid> {
    set u | u in Touched(OpsFor(Warm, es)) && NamedLast({}, OpsFor(Warm, es), u)
  }

  /** What a Pool shows that was marked exhausted and has had these events since. */
  ghost function Shown(declared: bool, es: seq<Event>): nat {
    if declared && exists i :: 0 <= i < |es| && Clears(es[i]) then |SaidWarm(es)| else 0
  }

  lemma {:induction false} LastWordTouches(ops: seq<Op>, u: Uid)
    requires NamedLast({}, ops, u)
    ensures u in Touched(ops)
  {
    if ops != [] {
      var n := |ops| - 1;
      TouchedSplit(ops);
      if !(!ops[n].Keep? && ops[n].uid == u && u != "") {
        LastWordTouches(ops[..n], u);
      }
    }
  }

  lemma {:induction false} MarkStands(p: Pool, es: seq<Event>)
    requires NoCounts(es)
    ensures var q := RunEvents(Exhaust(p), es);
            q.declared == p.declared && (q.exhausted <==> !exists i :: 0 <= i < |es| && Clears(es[i]))
    decreases |es|
  {
    if es != [] {
      var n := |es| - 1;
      MarkStands(p, es[..n]);
      assert es[n] in es;
      MarkStep(RunEvents(Exhaust(p), es[..n]), es[n]);
      assert RunEvents(Exhaust(p), es) == ApplyEvent(RunEvents(Exhaust(p), es[..n]), es[n]);
      hide RunEvents, ApplyEvent, Clears;
      assert forall i :: 0 <= i < n ==> es[..n][i] == es[i];
    }
  }

  lemma MarkStep(q: Pool, e: Event)
    requires !e.CarriesCounts()
    ensures var q' := ApplyEvent(q, e);
            q'.declared == q.declared && q'.exhausted == (q.exhausted && !Clears(e))
  {
    hide Add, Leave, Remove, Rebaseline, Takes, Adds, Indebts;
  }

  lemma WarmIsSaid(p: Pool, es: seq<Event>)
    requires NoCounts(es)
    ensures RunEvents(Exhaust(p), es).available.Total() == |SaidWarm(es)|
  {
    var ops := OpsFor(Warm, es);
    RunProjects(Exhaust(p), es, Warm);
    RunClosedForm(Empty, ops);
    var c := Run(Empty, ops);
    hide RunEvents, Run, NamedLast, Touched, OpsFor;
    forall u
      ensures u in c.named <==> u in SaidWarm(es)
    {
      if NamedLast({}, ops, u) {
        LastWordTouches(ops, u);
      }
    }
    assert c.named == SaidWarm(es);
  }

  lemma VisibleIsShown(p: Pool, es: seq<Event>)
    requires NoCounts(es)
    ensures RunEvents(Exhaust(p), es).Visible() == Shown(p.declared, es)
  {
    MarkStands(p, es);
    WarmIsSaid(p, es);
    hide RunEvents, SaidWarm;
  }

  /** By what the events say, the `i`th took the Pool from showing something to
      showing nothing, or left it below its target while in doubt. */
  ghost predicate IndebtedAt(p: Pool, es: seq<Event>, i: nat)
    requires i < |es|
  {
    || (Shown(p.declared, es[..i]) > 0 && Shown(p.declared, es[..i + 1]) == 0)
    || (p.unsettled && Below(p.size, Shown(p.declared, es[..i + 1])))
  }

  /** Nothing is left to take from, so no event adds a doubt. */
  lemma EventAfterEmptying(q: Pool, e: Event)
    requires q.available.unnamed == 0 && !e.CarriesCounts()
    ensures var q' := ApplyEvent(q, e);
            && q'.available.unnamed == 0 && q'.unsettled == q.unsettled && q'.size == q.size
            && q'.needsPoll == (q.needsPoll || Indebts(q.Visible(), q'))
  {
    EventProjects(q, e, Warm);
    EmptyStaysEmpty(q.available, OpFor(Warm, e));
    EventFlags(q, e);
    hide Apply, OpFor, ApplyEvent;
  }

  lemma EmptyStaysEmpty(c: Count, op: Op)
    requires c.unnamed == 0
    ensures Apply(c, op).unnamed == 0
  {
  }

  lemma EventFlags(q: Pool, e: Event)
    requires !Takes(q.available, e.uid) && !e.CarriesCounts()
    ensures var q' := ApplyEvent(q, e);
            && q'.unsettled == q.unsettled && q'.size == q.size
            && q'.needsPoll == (q.needsPoll || Indebts(q.Visible(), q'))
  {
    hide Add, Leave, Remove, Rebaseline, Takes, Adds;
  }

  lemma NoCountsFront(es: seq<Event>, n: nat)
    requires NoCounts(es) && n <= |es|
    ensures NoCounts(es[..n])
  {
    assert forall e :: e in es[..n] ==> e in es;
  }

  /** When it does owe one: marked exhausted, and until a total is folded again, a
      Pool owes a poll exactly when it did before, or by what the events since say it
      has gone from showing something to nothing, or was in doubt and below its
      target. */
  lemma {:induction false} ExhaustedOwesIff(p: Pool, es: seq<Event>)
    requires NoCounts(es)
    ensures var q := RunEvents(Exhaust(p), es);
            && q.available.unnamed == 0 && q.unsettled == p.unsettled && q.size == p.size
            && (q.needsPoll <==> p.needsPoll || exists i :: 0 <= i < |es| && IndebtedAt(p, es, i))
    decreases |es|
  {
    if es != [] {
      var n, q0 := |es| - 1, Exhaust(p);
      NoCountsFront(es, n);
      ExhaustedOwesIff(p, es[..n]);
      assert es[n] in es;
      var q := RunEvents(q0, es[..n]);
      assert RunEvents(q0, es) == ApplyEvent(q, es[n]);
      EventAfterEmptying(q, es[n]);
      VisibleIsShown(p, es[..n]);
      VisibleIsShown(p, es);
      assert es[..n + 1] == es;
      hide ApplyEvent, RunEvents, Shown;
      assert IndebtedAt(p, es, n) <==> Indebts(q.Visible(), RunEvents(q0, es));
      IndebtedFront(p, es);
    }
  }

  lemma IndebtedFront(p: Pool, es: seq<Event>)
    requires es != []
    ensures var n := |es| - 1;
            (exists i :: 0 <= i < |es| && IndebtedAt(p, es, i))
            <==> IndebtedAt(p, es, n) || exists i :: 0 <= i < n && IndebtedAt(p, es[..n], i)
  {
    var n := |es| - 1;
    forall i | 0 <= i < n
      ensures IndebtedAt(p, es, i) <==> IndebtedAt(p, es[..n], i)
    {
      assert es[..i] == es[..n][..i] && es[..i + 1] == es[..n][..i + 1];
    }
    hide IndebtedAt;
  }

  // ---------------------------------------------------------------- a poll ahead of the stream

  predicate LiveEvents(w: World, es: seq<Event>)
    decreases |es|
  {
    es == [] || (LiveEvents(w, es[..|es| - 1]) && LiveEvent(HappenAll(w, es[..|es| - 1]), es[|es| - 1]))
  }

  function HappenAll(w: World, es: seq<Event>): World
    decreases |es|
  {
    if es == [] then w else Happen(HappenAll(w, es[..|es| - 1]), es[|es| - 1])
  }

  function EnteredBy(k: Stage, mistakes: nat, es: seq<Event>): nat
    requires !k.Gone?
  {
    if es == [] then mistakes else Entered(k, EnteredBy(k, mistakes, es[..|es| - 1]), es[|es| - 1])
  }

  /** All four counts obey the exact law over every live run of events. */
  lemma {:induction false} EventsKeepLaw(p: Pool, w: World, es: seq<Event>, k: Stage, mistakes: nat)
    requires "" !in w && LiveEvents(w, es) && !k.Gone?
    requires Law(CountOf(p, k), TruthOf(w, k), mistakes)
    ensures "" !in HappenAll(w, es)
    ensures Law(CountOf(RunEvents(p, es), k), TruthOf(HappenAll(w, es), k), EnteredBy(k, mistakes, es))
    decreases |es|
  {
    if es != [] {
      hide Law, CountOf, TruthOf, ApplyEvent, Entered, Happen, LiveEvent;
      var n := |es| - 1;
      var q, v, m := RunEvents(p, es[..n]), HappenAll(w, es[..n]), EnteredBy(k, mistakes, es[..n]);
      assert RunEvents(p, es) == ApplyEvent(q, es[n]) && HappenAll(w, es) == Happen(v, es[n])
          && EnteredBy(k, mistakes, es) == Entered(k, m, es[n]);
      assert LiveEvents(w, es[..n]) && LiveEvent(v, es[n]);
      hide RunEvents, HappenAll, EnteredBy, LiveEvents;
      EventsKeepLaw(p, w, es[..n], k, mistakes);
      EventKeepsLaw(q, v, es[n], k, m);
    }
  }

  lemma {:induction false} EventsProject(w: World, es: seq<Event>, k: Stage)
    requires "" !in w && LiveEvents(w, es) && NoCounts(es) && !k.Gone?
    ensures "" !in HappenAll(w, es) && TruthOf(HappenAll(w, es), k).Wf()
    ensures LiveRun(TruthOf(w, k), OpsFor(k, es))
    ensures var t := AfterAll(TruthOf(w, k), OpsFor(k, es));
            && t.members == Members(HappenAll(w, es), k)
            && t.reached <= TruthOf(HappenAll(w, es), k).reached
    decreases |es|
  {
    if es != [] {
      var n := |es| - 1;
      var ops := OpsFor(k, es);
      var v := HappenAll(w, es[..n]);
      assert LiveEvents(w, es[..n]) && LiveEvent(v, es[n]) && HappenAll(w, es) == Happen(v, es[n]);
      assert es[n] in es;
      NoCountsFront(es, n);
      assert ops[..n] == OpsFor(k, es[..n]) && ops[n] == OpFor(k, es[n]);
      hide OpFor, OpsFor, LiveEvent, LiveEvents, Happen, HappenAll, LiveRun, NoCounts;
      EventsProject(w, es[..n], k);
      LiveProjects(v, es[n], k);
      assert TruthOf(v, k).members == Members(v, k) && TruthOf(Happen(v, es[n]), k).members == Members(Happen(v, es[n]), k);
      hide TruthOf, Members;
      var t := AfterAll(TruthOf(w, k), ops[..n]);
      assert AfterAll(TruthOf(w, k), ops) == After(t, ops[n]);
      hide AfterAll;
      LiveExtend(TruthOf(w, k), ops);
    }
  }

  /** GetPool answers with the state after `es`, which the stream has yet to
      deliver, so no event raced the answer and it is folded. Once the stream
      catches up every count obeys the law, with one mistake for each MicroVM
      that left its stage on the way. */
  lemma {:induction false} PollAheadOfStream(p: Pool, w: World, es: seq<Event>, size: int, k: Stage)
    requires "" !in w && LiveEvents(w, es) && NoCounts(es) && !k.Gone?
    requires CountOf(p, k).Wf() && CountOf(p, k).named <= Members(w, k)
    ensures var now := HappenAll(w, es);
            var q := RunEvents(ApplyPoll(p, p.generation, size, StatusOf(now)), es);
            var c := CountOf(q, k);
            && Law(c, TruthOf(now, k), |Left(OpsFor(k, es))|)
            && (c.Total() == |Members(now, k)| <==>
                  || Left(OpsFor(k, es)) == {}
                  || forall u :: u in Members(now, k) ==> NamedLast(CountOf(p, k).named, OpsFor(k, es), u))
  {
    var now := HappenAll(w, es);
    var ops := OpsFor(k, es);
    var folded := ApplyPoll(p, p.generation, size, StatusOf(now));
    EventsProject(w, es, k);
    PollFolds(p, now, size, k);
    assert CountOf(p, k).named <= TruthOf(w, k).members && TruthOf(w, k).Wf();
    assert TruthOf(now, k).members == Members(now, k);
    hide ApplyPoll, OpFor, OpsFor, CountOf, HappenAll, LiveEvents, Rebaseline, ApplyEvent, RunEvents, Run,
      AfterAll, LiveRun, Left, TruthOf, NoCounts, StatusOf, Members;
    RunProjects(folded, es, k);
    FoldAheadOfStream(CountOf(p, k), TruthOf(w, k), ops);
    LawOfMore(CountOf(RunEvents(folded, es), k), AfterAll(TruthOf(w, k), ops), TruthOf(now, k), |Left(ops)|);
    LawTotal(CountOf(RunEvents(folded, es), k), TruthOf(now, k), |Left(ops)|);
    NamedByTheRun(CountOf(p, k), |Members(now, k)|, ops, Members(now, k));
  }

  /** Whether everything there is named is settled by the names there were and the run. */
  lemma NamedByTheRun(c: Count, total: int, ops: seq<Op>, members: set<Uid>)
    requires Run(Rebaseline(c, total), ops).named <= members
    ensures members == Run(Rebaseline(c, total), ops).named
       <==> forall u :: u in members ==> NamedLast(c.named, ops, u)
  {
    hide Run, NamedLast;
    forall u
      ensures u in Run(Rebaseline(c, total), ops).named <==> NamedLast(c.named, ops, u)
    {
      RunNamed(Rebaseline(c, total), ops, u);
    }
  }

  lemma PollFolds(p: Pool, w: World, size: int, k: Stage)
    requires !k.Gone?
    ensures CountOf(ApplyPoll(p, p.generation, size, StatusOf(w)), k) == Rebaseline(CountOf(p, k), |Members(w, k)|)
  {
    hide Rebaseline;
  }

  lemma LawOfMore(c: Count, t: Truth, t': Truth, mistakes: nat)
    requires Law(c, t, mistakes) && t'.Wf() && t'.members == t.members && t.reached <= t'.reached
    ensures Law(c, t', mistakes)
  {
    assert Hidden(c, t') == Hidden(c, t);
  }

  /** So a Pool can read short and owe nothing: three warm MicroVMs, one claimed
      just before GetPool answers, its VM_CLAIMED delivered just after. */
  lemma ReadsShortOwingNothing(ref: PoolRef, a: Uid, b: Uid, c: Uid)
    requires |{a, b, c}| == 3 && "" !in {a, b, c}
    ensures var w: World := map[a := Warm, b := Warm, c := Warm];
            var p := NewPool.(available := Count({}, 3, {}), declared := true, size := 3);
            var claim := Event(ref, a, Claimed);
            var q := ApplyEvent(ApplyPoll(p, p.generation, 3, StatusOf(Happen(w, claim))), claim);
            && LiveEvent(w, claim)
            && p.available.Total() == |Members(w, Warm)|
            && q.available.Total() == 1
            && |Members(Happen(w, claim), Warm)| == 2
            && !q.needsPoll && !q.unsettled
  {
    assert a != b && b != c && a != c;
    var w: World := map[a := Warm, b := Warm, c := Warm];
    var w' := w[a := Leased];
    assert Members(w, Warm) == {a, b, c};
    assert Members(w', Warm) == {b, c};
    assert Members(w', Leased) == {a};
    assert Members(w', Provisioning) == {} && Members(w', Quarantined) == {};
    assert Happen(w, Event(ref, a, Claimed)) == w';
    assert StatusOf(w') == Status(2, 1, 0, 0);
  }
}
