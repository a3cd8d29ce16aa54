/**
 The Tracker's Pools under every interleaving of events, calls and the poll
 loop's GetPool questions, of which one is out at a time. Each step is one hold
 of the Tracker's lock; the answers are the Pool Manager's and arbitrary.
 */
module Polls {
  import opened Basics
  import opened UidCounts
  import opened Pools

  datatype Question = Question(ref: PoolRef, asked: nat)

  /** `kick` is the one-slot request for a poll; `lives` counts how often each Pool
      has been untracked. The last three fields count what has happened: events
      applied, answers discarded, and Pools untracked while their question was out. */
  datatype Tracker = Tracker(
    pools: map<PoolRef, Pool>, kick: bool, out: Option<Question>, lives: map<PoolRef, nat>,
    applied: nat, discarded: nat, pulled: nat)
  {
    function Life(ref: PoolRef): nat {
      if ref in lives then lives[ref] else 0
    }

    predicate Asked(ref: PoolRef) {
      out.Some? && out.value.ref == ref
    }

    /** The Pool, or the one the Tracker creates the first time it is named. */
    function At(ref: PoolRef): Pool {
      if ref in pools then pools[ref] else NewPool
    }

    predicate Owes(ref: PoolRef) {
      ref in pools && pools[ref].needsPoll
    }

    /** Whether an answer to the question that is out would be discarded. */
    predicate Raced() {
      out.Some? && out.value.ref in pools && pools[out.value.ref].generation != out.value.asked
    }
  }

  datatype Step =
    | Deliver(e: Event)
    | Ask(ref: PoolRef)
    | Answered(size: int, st: Status)
    | AnsweredNotFound
    | AnswerFailed
    | Track(ref: PoolRef, declared: bool)
    | Untrack(ref: PoolRef)
    | MarkExhausted(ref: PoolRef)
    | Wait(ref: PoolRef)
    | TakeKick
  {
    predicate Answers() {
      Answered? || AnsweredNotFound? || AnswerFailed?
    }
  }

  predicate Enabled(t: Tracker, s: Step) {
    && (s.Ask? ==> t.out.None?)
    && (s.Answers() ==> t.out.Some?)
    && (s.TakeKick? ==> t.kick)
  }

  function Put(t: Tracker, ref: PoolRef, p: Pool): Tracker {
    t.(pools := t.pools[ref := p])
  }

  function Do(t: Tracker, s: Step): Tracker
    requires Enabled(t, s)
  {
    match s
    case Deliver(e) =>
      if e.pool !in t.pools then t
      else
        var p := ApplyEvent(t.pools[e.pool], e);
        Put(t, e.pool, p).(kick := t.kick || p.needsPoll, applied := t.applied + 1)
    case Ask(ref) =>
      t.(out := Some(Question(ref, t.At(ref).generation)))
    case Answered(size, st) =>
      var q := t.out.value;
      if q.ref !in t.pools then t.(out := None)
      else
        Put(t, q.ref, ApplyPoll(t.pools[q.ref], q.asked, size, st))
        .(out := None, kick := t.kick || t.Raced(), discarded := t.discarded + (if t.Raced() then 1 else 0))
    case AnsweredNotFound =>
      var q := t.out.value;
      Put(t, q.ref, NotFound(t.At(q.ref))).(out := None)
    case AnswerFailed =>
      t.(out := None)
    case Track(ref, declared) =>
      Put(t, ref, Declare(t.At(ref), declared)).(kick := t.kick || ref !in t.pools || declared)
    case Untrack(ref) =>
      if ref !in t.pools then t
      else t.(pools := t.pools - {ref}, lives := t.lives[ref := t.Life(ref) + 1],
              pulled := t.pulled + (if t.Asked(ref) then 1 else 0))
    case MarkExhausted(ref) =>
      Put(t, ref, Exhaust(t.At(ref)))
    case Wait(ref) =>
      Put(t, ref, t.At(ref).(waiting := t.At(ref).waiting + 1))
    case TakeKick =>
      t.(kick := false)
  }

  predicate CanRun(t: Tracker, ss: seq<Step>)
    decreases |ss|, 0
  {
    ss == [] || (CanRun(t, ss[..|ss| - 1]) && Enabled(DoAll(t, ss[..|ss| - 1]), ss[|ss| - 1]))
  }

  function DoAll(t: Tracker, ss: seq<Step>): Tracker
    requires CanRun(t, ss)
    decreases |ss|, 1
  {
    if ss == [] then t else Do(DoAll(t, ss[..|ss| - 1]), ss[|ss| - 1])
  }

  const Fresh := Tracker(map[], false, None, map[], 0, 0, 0)

  lemma RunOneMore(t: Tracker, ss: seq<Step>, s: Step)
    requires CanRun(t, ss) && Enabled(DoAll(t, ss), s)
    ensures CanRun(t, ss + [s]) && DoAll(t, ss + [s]) == Do(DoAll(t, ss), s)
  {
    hide Do, Enabled;
    assert (ss + [s])[..|ss|] == ss;
  }

  // ---------------------------------------------------------------- every tracked Pool

  /** The four counts are well formed, and a Pool marked exhausted counts nothing warm. */
  ghost predicate Sane(p: Pool) {
    && (forall k: Stage :: !k.Gone? ==> CountOf(p, k).Wf())
    && (p.exhausted ==> p.available.named == {} && p.available.unnamed == 0)
  }

  ghost predicate AllSane(t: Tracker) {
    forall ref :: ref in t.pools ==> Sane(t.pools[ref])
  }

  lemma EventSane(p: Pool, e: Event)
    requires Sane(p)
    ensures Sane(ApplyEvent(p, e))
  {
    forall k: Stage | !k.Gone?
      ensures CountOf(ApplyEvent(p, e), k).Wf()
    {
      EventWf(p, e, k);
    }
    EventMark(p, e);
    var q := ApplyEvent(p, e);
    if q.exhausted {
      EventProjects(p, e, Warm);
      hide ApplyEvent;
      assert CountOf(p, Warm).Wf() && !OpFor(Warm, e).Name?;
      hide OpFor;
    }
  }

  /** Only some events lift the mark, and none sets it. */
  lemma EventMark(p: Pool, e: Event)
    ensures var q := ApplyEvent(p, e);
            && q.declared == p.declared
            && (q.exhausted ==> p.exhausted && !e.kind.Available? && !e.CarriesCounts())
  {
    hide Add, Leave, Remove, Rebaseline, Takes, Adds, Indebts;
  }

  lemma PollSane(p: Pool, asked: nat, size: int, st: Status)
    requires Sane(p)
    ensures Sane(ApplyPoll(p, asked, size, st))
  {
    forall k: Stage | !k.Gone?
      ensures CountOf(p, k).Wf() && CountOf(ApplyPoll(p, asked, size, st), k).Wf()
    {
    }
  }

  lemma {:induction false} RunSane(t: Tracker, ss: seq<Step>)
    requires CanRun(t, ss) && AllSane(t)
    ensures AllSane(DoAll(t, ss))
    decreases |ss|
  {
    if ss != [] {
      hide Do, Enabled, AllSane;
      RunSane(t, ss[..|ss| - 1]);
      StepSane(DoAll(t, ss[..|ss| - 1]), ss[|ss| - 1]);
    }
  }

  lemma StepSane(t: Tracker, s: Step)
    requires Enabled(t, s) && AllSane(t)
    ensures AllSane(Do(t, s))
  {
    NewPoolSane();
    var ref := if s.Deliver? then s.e.pool else if s.Answers() then t.out.value.ref
               else if s.Track? || s.MarkExhausted? || s.Wait? then s.ref else PoolRef("", "");
    assert Sane(t.At(ref));
    if s.Deliver? {
      EventSane(t.At(ref), s.e);
    } else if s.Answered? {
      PollSane(t.At(ref), t.out.value.asked, s.size, s.st);
    } else {
      PlainSane(t.At(ref));
    }
    hide Sane, ApplyEvent, ApplyPoll;
  }

  lemma NewPoolSane()
    ensures Sane(NewPool)
  {
  }

  /** Nothing else touches the counts but to clear one. */
  lemma PlainSane(p: Pool)
    requires Sane(p)
    ensures Sane(Exhaust(p)) && Sane(NotFound(p)) && Sane(p.(waiting := p.waiting + 1))
    ensures forall d :: Sane(Declare(p, d))
  {
  }

  /** However a Pool came to be what it is, events delivered to it again leave all
      four of its counts exactly as they were. */
  lemma ReplayHarmlessWhenReached(ss: seq<Step>, ref: PoolRef, es: seq<Event>, replayed: seq<Event>, k: Stage)
    requires CanRun(Fresh, ss) && ref in DoAll(Fresh, ss).pools
    requires !k.Gone? && NoCounts(es + replayed)
    ensures var p := DoAll(Fresh, ss).pools[ref];
            CountOf(RunEvents(p, es + replayed + replayed), k) == CountOf(RunEvents(p, es + replayed), k)
  {
    hide DoAll, CanRun, RunEvents, NoCounts;
    RunSane(Fresh, ss);
    PoolReplayHarmless(DoAll(Fresh, ss).pools[ref], es, replayed, k);
  }

  // ---------------------------------------------------------------- no stale answer is folded

  /** How many events of the run are applied to the Pool: those delivered while
      it is tracked. */
  function AppliedTo(t: Tracker, ss: seq<Step>, ref: PoolRef): nat
    requires CanRun(t, ss)
    decreases |ss|
  {
    if ss == [] then 0
    else
      var before, s := DoAll(t, ss[..|ss| - 1]), ss[|ss| - 1];
      AppliedTo(t, ss[..|ss| - 1], ref)
      + if s.Deliver? && s.e.pool == ref && ref in before.pools then 1 else 0
  }

  lemma {:induction false} GenerationCounts(t: Tracker, ss: seq<Step>, ref: PoolRef)
    requires CanRun(t, ss) && Untrack(ref) !in ss
    ensures DoAll(t, ss).At(ref).generation == t.At(ref).generation + AppliedTo(t, ss, ref)
    decreases |ss|
  {
    if ss != [] {
      var n := |ss| - 1;
      GenerationCounts(t, ss[..n], ref);
      assert ss[n] != Untrack(ref);
      hide Account, FoldStatus, Indebts;
      GenerationStep(DoAll(t, ss[..n]), ss[n], ref);
    }
  }

  lemma GenerationStep(t: Tracker, s: Step, ref: PoolRef)
    requires Enabled(t, s) && s != Untrack(ref)
    ensures Do(t, s).At(ref).generation == t.At(ref).generation
              + if s.Deliver? && s.e.pool == ref && ref in t.pools then 1 else 0
  {
    hide ApplyEvent, ApplyPoll;
    if ref in t.pools {
      if s.Deliver? {
        EventGeneration(t.pools[ref], s.e);
      } else if s.Answered? {
        PollGeneration(t.pools[ref], t.out.value.asked, s.size, s.st);
      }
    }
  }

  lemma EventGeneration(p: Pool, e: Event)
    ensures ApplyEvent(p, e).generation == p.generation + 1
  {
    hide Rebaseline, Add, Leave, Remove, Takes, Adds, Indebts;
  }

  lemma PollGeneration(p: Pool, asked: nat, size: int, st: Status)
    ensures ApplyPoll(p, asked, size, st).generation == p.generation
  {
    hide Rebaseline;
  }

  /** While a question is out, its answer is folded exactly when no event has
      been applied to the Pool since it was asked. */
  lemma {:induction false} FoldedIffNoEventSince(t: Tracker, ref: PoolRef, ss: seq<Step>)
    requires t.out.None? && CanRun(Do(t, Ask(ref)), ss)
    requires forall s :: s in ss ==> !s.Answers() && !s.Ask? && s != Untrack(ref)
    ensures var now := DoAll(Do(t, Ask(ref)), ss);
            && now.out == Some(Question(ref, t.At(ref).generation))
            && (now.Raced() <==> AppliedTo(Do(t, Ask(ref)), ss, ref) > 0)
    ensures var now := DoAll(Do(t, Ask(ref)), ss);
            forall size, st, k: Stage :: ref in now.pools && !k.Gone? ==>
              var p, q := now.pools[ref], Do(now, Answered(size, st)).pools[ref];
              if AppliedTo(Do(t, Ask(ref)), ss, ref) > 0 then CountOf(q, k) == CountOf(p, k)
              else Folded(CountOf(p, k), Reported(st, k), CountOf(q, k))
  {
    var asked := Do(t, Ask(ref));
    GenerationCounts(asked, ss, ref);
    StaysOut(asked, ss);
    var now := DoAll(asked, ss);
    if ref !in now.pools {
      NothingWhileUntracked(asked, ss, ref);
    }
    forall size, st, k: Stage | ref in now.pools && !k.Gone?
      ensures var p, q := now.pools[ref], Do(now, Answered(size, st)).pools[ref];
              if now.Raced() then CountOf(q, k) == CountOf(p, k)
              else Folded(CountOf(p, k), Reported(st, k), CountOf(q, k))
    {
      AnswerFolds(now.pools[ref], now.out.value.asked, size, st, k);
    }
  }

  function Reported(st: Status, k: Stage): int
    requires !k.Gone?
  {
    match k
    case Provisioning => st.provisioning
    case Warm => st.available
    case Leased => st.leased
    case Quarantined => st.quarantined
  }

  /** The count is the number reported, or the MicroVMs named if they are more. */
  ghost predicate Folded(before: Count, total: int, after: Count) {
    after.named == before.named && after.Total() == Max(total, |before.named|)
  }

  /** A raced answer leaves the counts alone; any other makes each the number
      reported, or the MicroVMs named if they are more. */
  lemma AnswerFolds(p: Pool, asked: nat, size: int, st: Status, k: Stage)
    requires !k.Gone?
    ensures var q := ApplyPoll(p, asked, size, st);
            if p.generation != asked then CountOf(q, k) == CountOf(p, k)
            else Folded(CountOf(p, k), Reported(st, k), CountOf(q, k))
  {
  }

  lemma {:induction false} StaysOut(t: Tracker, ss: seq<Step>)
    requires CanRun(t, ss)
    requires forall s :: s in ss ==> !s.Answers() && !s.Ask?
    ensures DoAll(t, ss).out == t.out
    decreases |ss|
  {
    if ss != [] {
      StaysOut(t, ss[..|ss| - 1]);
      assert ss[|ss| - 1] in ss;
    }
  }

  lemma StaysTracked(t: Tracker, s: Step, ref: PoolRef)
    requires Enabled(t, s) && s != Untrack(ref)
    ensures ref in t.pools ==> ref in Do(t, s).pools
  {
    hide ApplyEvent, ApplyPoll;
  }

  lemma {:induction false} NothingWhileUntracked(t: Tracker, ss: seq<Step>, ref: PoolRef)
    requires CanRun(t, ss) && Untrack(ref) !in ss
    requires ref !in DoAll(t, ss).pools
    ensures AppliedTo(t, ss, ref) == 0
    decreases |ss|
  {
    if ss != [] {
      var n := |ss| - 1;
      assert ss[n] != Untrack(ref);
      hide Do, Enabled;
      StaysTracked(DoAll(t, ss[..n]), ss[n], ref);
      NothingWhileUntracked(t, ss[..n], ref);
    }
  }

  /** A Pool untracked and tracked again while the question is out starts over
      at generation zero, and an answer from before its events is folded. */
  lemma RetrackedFoldsStaleAnswer(ref: PoolRef, e: Event)
    requires e.pool == ref
    ensures var t := Fresh.(pools := map[ref := NewPool]);
            var ss := [Deliver(e), Untrack(ref), Track(ref, true)];
            && CanRun(Do(t, Ask(ref)), ss)
            && AppliedTo(Do(t, Ask(ref)), ss, ref) == 1
            && !DoAll(Do(t, Ask(ref)), ss).Raced()
  {
    hide Account, Indebts;
    var t := Do(Fresh.(pools := map[ref := NewPool]), Ask(ref));
    var ss := [Deliver(e), Untrack(ref), Track(ref, true)];
    assert ss[..2] == [Deliver(e), Untrack(ref)] && ss[..2][..1] == [Deliver(e)] && ss[..2][..1][..0] == [];
    assert CanRun(t, ss[..2][..1][..0]) && CanRun(t, ss[..2][..1]) && CanRun(t, ss[..2]);
    assert AppliedTo(t, ss[..2][..1], ref) == 1;
    assert AppliedTo(t, ss[..2], ref) == 1;
  }

  /** When the Pool was untracked meanwhile, its answer is folded exactly when the
      Pool is not tracked again by then, or has had as many events since as it had
      had when the question was asked. */
  lemma RetrackedFoldsIff(t: Tracker, ref: PoolRef, before: seq<Step>, after: seq<Step>)
    requires t.out.None? && CanRun(Do(t, Ask(ref)), before)
    requires CanRun(Do(DoAll(Do(t, Ask(ref)), before), Untrack(ref)), after) && Untrack(ref) !in after
    requires forall s :: s in before || s in after ==> !s.Answers() && !s.Ask?
    ensures var gone := Do(DoAll(Do(t, Ask(ref)), before), Untrack(ref));
            var now := DoAll(gone, after);
            && now.out == Some(Question(ref, t.At(ref).generation))
            && (now.Raced() <==> ref in now.pools && AppliedTo(gone, after, ref) != t.At(ref).generation)
  {
    var gone := Do(DoAll(Do(t, Ask(ref)), before), Untrack(ref));
    StaysOut(Do(t, Ask(ref)), before);
    StaysOut(gone, after);
    GenerationCounts(gone, after, ref);
  }

  // ---------------------------------------------------------------- polling cannot spin

  /** What a discarded answer is paid for with. */
  function Paid(t: Tracker): nat {
    t.applied + t.pulled
  }

  /** `paidAtAsk` is what had been paid when the question that is out was sent. */
  ghost predicate Solvent(t: Tracker, paidAtAsk: nat) {
    && t.discarded <= paidAtAsk <= Paid(t)
    && (t.Raced() ==> paidAtAsk < Paid(t))
    && (t.out.Some? && paidAtAsk == Paid(t) ==> t.At(t.out.value.ref).generation == t.out.value.asked)
  }

  lemma SolventStep(t: Tracker, s: Step, paidAtAsk: nat) returns (paidAtAsk': nat)
    requires Enabled(t, s) && Solvent(t, paidAtAsk)
    ensures Solvent(Do(t, s), paidAtAsk')
  {
    paidAtAsk' := if s.Ask? || s.Answers() then Paid(t) else paidAtAsk;
    if t.out.Some? && s != Untrack(t.out.value.ref) {
      GenerationStep(t, s, t.out.value.ref);
    }
    hide ApplyEvent, ApplyPoll;
  }

  lemma {:induction false} StaysSolvent(t: Tracker, ss: seq<Step>, paidAtAsk: nat) returns (paidAtAsk': nat)
    requires CanRun(t, ss) && Solvent(t, paidAtAsk)
    ensures Solvent(DoAll(t, ss), paidAtAsk')
    decreases |ss|
  {
    if ss == [] {
      paidAtAsk' := paidAtAsk;
    } else {
      hide Do, Enabled, Solvent;
      var n := |ss| - 1;
      var before := StaysSolvent(t, ss[..n], paidAtAsk);
      paidAtAsk' := SolventStep(DoAll(t, ss[..n]), ss[n], before);
    }
  }

  /** Every discarded answer is paid for by an event applied since the last one, or
      by untracking the very Pool whose question was out. */
  lemma DiscardsArePaidFor(ss: seq<Step>)
    requires CanRun(Fresh, ss)
    ensures DoAll(Fresh, ss).discarded <= DoAll(Fresh, ss).applied + DoAll(Fresh, ss).pulled
  {
    hide DoAll, CanRun;
    var paidAtAsk := StaysSolvent(Fresh, ss, 0);
  }

  /** No Pool is untracked while its question is out. */
  ghost predicate NeverPulled(t: Tracker, ss: seq<Step>)
    requires CanRun(t, ss)
    decreases |ss|
  {
    ss == [] || (
      && NeverPulled(t, ss[..|ss| - 1])
      && !(ss[|ss| - 1].Untrack? && DoAll(t, ss[..|ss| - 1]).Asked(ss[|ss| - 1].ref)))
  }

  lemma PulledStep(t: Tracker, s: Step)
    requires Enabled(t, s) && !(s.Untrack? && t.Asked(s.ref))
    ensures Do(t, s).pulled == t.pulled
  {
    hide ApplyEvent, ApplyPoll;
  }

  lemma {:induction false} NothingPulled(t: Tracker, ss: seq<Step>)
    requires CanRun(t, ss) && NeverPulled(t, ss)
    ensures DoAll(t, ss).pulled == t.pulled
    decreases |ss|
  {
    if ss != [] {
      hide Do, Enabled;
      NothingPulled(t, ss[..|ss| - 1]);
      PulledStep(DoAll(t, ss[..|ss| - 1]), ss[|ss| - 1]);
    }
  }

  /** Then there are never more polls asked again than events applied. */
  lemma EventsPayForDiscards(ss: seq<Step>)
    requires CanRun(Fresh, ss) && NeverPulled(Fresh, ss)
    ensures DoAll(Fresh, ss).discarded <= DoAll(Fresh, ss).applied
  {
    hide DoAll, CanRun;
    DiscardsArePaidFor(ss);
    NothingPulled(Fresh, ss);
  }

  /** Untracking it can discard one answer more than there were events. */
  lemma UntrackingDiscardsOneMore(ref: PoolRef, e: Event, size: int, st: Status)
    requires e.pool == ref
    ensures var ss := [Track(ref, true), Ask(ref), Deliver(e), Answered(size, st),
                       Ask(ref), Untrack(ref), Track(ref, true), Answered(size, st)];
            && CanRun(Fresh, ss)
            && DoAll(Fresh, ss).applied == 1
            && DoAll(Fresh, ss).discarded == 2
  {
    hide DoAll, CanRun, Do;
    DiscardsTwo(Fresh, ref, e, size, st);
  }

  lemma DiscardsTwo(t: Tracker, ref: PoolRef, e: Event, size: int, st: Status)
    requires t.out.None? && e.pool == ref
    ensures var ss := [Track(ref, true), Ask(ref), Deliver(e), Answered(size, st),
                       Ask(ref), Untrack(ref), Track(ref, true), Answered(size, st)];
            && CanRun(t, ss)
            && DoAll(t, ss).applied == t.applied + 1
            && DoAll(t, ss).discarded == t.discarded + 2
  {
    var first := [Track(ref, true), Ask(ref), Deliver(e), Answered(size, st)];
    var second := [Ask(ref), Untrack(ref), Track(ref, true), Answered(size, st)];
    hide DoAll, CanRun, Do;
    DiscardsOne(t, ref, e, size, st);
    RacedByUntrack(DoAll(t, first), ref, size, st);
    RunFour(t, first, Ask(ref), Untrack(ref), Track(ref, true), Answered(size, st));
    assert first + second == [Track(ref, true), Ask(ref), Deliver(e), Answered(size, st),
                              Ask(ref), Untrack(ref), Track(ref, true), Answered(size, st)];
  }

  lemma DiscardsOne(t: Tracker, ref: PoolRef, e: Event, size: int, st: Status)
    requires t.out.None? && e.pool == ref
    ensures var first := [Track(ref, true), Ask(ref), Deliver(e), Answered(size, st)];
            && CanRun(t, first)
            && var u := DoAll(t, first);
               && u.out.None? && ref in u.pools && u.pools[ref].generation > 0
               && u.applied == t.applied + 1 && u.discarded == t.discarded + 1
  {
    var t1 := Do(t, Track(ref, true));
    assert t1.out.None? && ref in t1.pools && t1.applied == t.applied && t1.discarded == t.discarded;
    assert CanRun(t, []) && DoAll(t, []) == t;
    hide DoAll, CanRun, Do;
    RacedByEvent(t1, ref, e, size, st);
    RunFour(t, [], Track(ref, true), Ask(ref), Deliver(e), Answered(size, st));
    assert [] + [Track(ref, true), Ask(ref), Deliver(e), Answered(size, st)]
        == [Track(ref, true), Ask(ref), Deliver(e), Answered(size, st)];
  }

  lemma RacedByEvent(t: Tracker, ref: PoolRef, e: Event, size: int, st: Status)
    requires t.out.None? && ref in t.pools && e.pool == ref
    ensures var t' := Do(Do(Do(t, Ask(ref)), Deliver(e)), Answered(size, st));
            && Enabled(t, Ask(ref)) && Enabled(Do(Do(t, Ask(ref)), Deliver(e)), Answered(size, st))
            && t'.out.None? && ref in t'.pools && t'.pools[ref].generation > 0
            && t'.applied == t.applied + 1 && t'.discarded == t.discarded + 1
  {
    EventGeneration(t.pools[ref], e);
    hide ApplyEvent;
  }

  lemma RacedByUntrack(t: Tracker, ref: PoolRef, size: int, st: Status)
    requires t.out.None? && ref in t.pools && t.pools[ref].generation > 0
    ensures var t' := Do(Do(Do(Do(t, Ask(ref)), Untrack(ref)), Track(ref, true)), Answered(size, st));
            && Enabled(t, Ask(ref)) && Enabled(Do(Do(Do(t, Ask(ref)), Untrack(ref)), Track(ref, true)), Answered(size, st))
            && t'.applied == t.applied && t'.discarded == t.discarded + 1
  {
  }

  lemma RunFour(t: Tracker, ss: seq<Step>, a: Step, b: Step, c: Step, d: Step)
    requires CanRun(t, ss) && Enabled(DoAll(t, ss), a) && Enabled(Do(DoAll(t, ss), a), b)
    requires Enabled(Do(Do(DoAll(t, ss), a), b), c) && Enabled(Do(Do(Do(DoAll(t, ss), a), b), c), d)
    ensures CanRun(t, ss + [a, b, c, d])
    ensures DoAll(t, ss + [a, b, c, d]) == Do(Do(Do(Do(DoAll(t, ss), a), b), c), d)
  {
    RunOneMore(t, ss, a);
    RunOneMore(t, ss + [a], b);
    RunOneMore(t, ss + [a] + [b], c);
    RunOneMore(t, ss + [a] + [b] + [c], d);
    hide Do, Enabled, DoAll, CanRun;
    assert ss + [a] + [b] + [c] + [d] == ss + [a, b, c, d];
  }

  // ---------------------------------------------------------------- debts

  /** The steps that settle what a Pool owes. */
  predicate Settles(t: Tracker, s: Step, ref: PoolRef) {
    || s == Untrack(ref)
    || (s.Deliver? && s.e.pool == ref && s.e.CarriesCounts())
    || (t.out.Some? && t.out.value.ref == ref && (s.AnsweredNotFound? || (s.Answered? && !t.Raced())))
  }

  lemma DebtStep(t: Tracker, s: Step, ref: PoolRef)
    requires Enabled(t, s) && t.Owes(ref) && !Settles(t, s, ref)
    ensures Do(t, s).Owes(ref)
  {
    hide Rebaseline, Add, Leave, Remove, Takes, Adds;
  }

  ghost predicate Unsettled(t: Tracker, ss: seq<Step>, ref: PoolRef)
    requires CanRun(t, ss)
    decreases |ss|
  {
    ss == [] || (
      && Unsettled(t, ss[..|ss| - 1], ref)
      && !Settles(DoAll(t, ss[..|ss| - 1]), ss[|ss| - 1], ref))
  }

  /** A Pool goes on owing its poll through failed and raced answers, however
      long the run, until something settles it. */
  lemma {:induction false} DebtIsNeverLost(t: Tracker, ss: seq<Step>, ref: PoolRef)
    requires CanRun(t, ss) && t.Owes(ref) && Unsettled(t, ss, ref)
    ensures DoAll(t, ss).Owes(ref)
    decreases |ss|
  {
    if ss != [] {
      hide Do;
      DebtIsNeverLost(t, ss[..|ss| - 1], ref);
      DebtStep(DoAll(t, ss[..|ss| - 1]), ss[|ss| - 1], ref);
    }
  }

  /** Where a debt comes from, and that it asks for a poll at once: an event
      after which the Pool reads zero and did not before, or reads below its
      target in doubt; or an answer that raced. */
  lemma DebtArises(t: Tracker, s: Step, ref: PoolRef)
    requires Enabled(t, s)
    ensures s.Deliver? && s.e.pool == ref && ref in t.pools ==>
              var (p, q) := (t.pools[ref], Do(t, s).pools[ref]);
              && (p.Visible() > 0 && q.Visible() == 0 ==> Do(t, s).Owes(ref))
              && (q.unsettled && (q.size <= 0 || q.Visible() < q.size) ==> Do(t, s).Owes(ref))
    ensures s.Answered? && t.Raced() && t.out.value.ref == ref ==> Do(t, s).Owes(ref)
    ensures !t.Owes(ref) && Do(t, s).Owes(ref) ==>
              Do(t, s).kick && (s.Deliver? || (s.Answered? && t.Raced()))
  {
    hide Rebaseline, Add, Leave, Remove, Takes, Adds;
  }

  /** An answer for a Pool untracked while the question was out leaves it
      untracked unless the answer is NOT_FOUND, which brings it back. */
  lemma NotFoundBringsPoolBack(t: Tracker, s: Step)
    requires Enabled(t, s) && s.Answers() && t.out.value.ref !in t.pools
    ensures t.out.value.ref in Do(t, s).pools <==> s.AnsweredNotFound?
  {
  }

  // ---------------------------------------------------------------- waiting for a MicroVM

  /** The channel a call to Wait returns: of a Pool, in one life of it, not closed
      as long as the Pool has woken nobody since. */
  datatype Channel = Channel(ref: PoolRef, life: nat, epoch: nat)

  function ChannelOf(t: Tracker, ref: PoolRef): Channel {
    Channel(ref, t.Life(ref), t.At(ref).woken)
  }

  predicate Closed(t: Tracker, c: Channel) {
    c.life < t.Life(c.ref) || (c.ref in t.pools && t.pools[c.ref].woken > c.epoch)
  }

  /** What closes the channel: an event that adds a warm MicroVM, an answer folded
      that shows one, or no longer tracking the Pool. */
  predicate Wakes(t: Tracker, s: Step, ref: PoolRef) {
    ref in t.pools && (
      || s == Untrack(ref)
      || (s.Deliver? && s.e.pool == ref && s.e.kind.Available? && Adds(t.pools[ref].available, s.e.uid))
      || (s.Answered? && t.Asked(ref) && !t.Raced() && Shows(t.pools[ref], s.st)))
  }

  /** Whether a Pool folding these counts shows a warm MicroVM. */
  predicate Shows(p: Pool, st: Status) {
    p.declared && (st.available > 0 || p.available.named != {})
  }

  ghost predicate Waits(t: Tracker, c: Channel) {
    || c.life < t.Life(c.ref)
    || (c.life == t.Life(c.ref) && c.ref in t.pools && c.epoch <= t.pools[c.ref].woken)
  }

  lemma EventWakes(p: Pool, e: Event)
    ensures ApplyEvent(p, e).woken == p.woken + if e.kind.Available? && Adds(p.available, e.uid) then 1 else 0
  {
    hide Rebaseline, Add, Leave, Remove, Takes, Adds, Indebts;
  }

  lemma PollWakes(p: Pool, asked: nat, size: int, st: Status)
    ensures ApplyPoll(p, asked, size, st).woken == p.woken + if p.generation == asked && Shows(p, st) then 1 else 0
  {
  }

  lemma ChannelStep(t: Tracker, s: Step, c: Channel)
    requires Enabled(t, s) && Waits(t, c)
    ensures Waits(Do(t, s), c)
    ensures Closed(Do(t, s), c) <==> Closed(t, c) || Wakes(t, s, c.ref)
  {
    if c.ref in t.pools {
      if s.Deliver? {
        EventWakes(t.pools[c.ref], s.e);
      } else if s.Answered? {
        PollWakes(t.pools[c.ref], t.out.value.asked, s.size, s.st);
      }
    }
    hide ApplyEvent, ApplyPoll, Adds, Shows;
  }

  ghost predicate WakesDuring(t: Tracker, ss: seq<Step>, ref: PoolRef)
    requires CanRun(t, ss)
    decreases |ss|
  {
    ss != [] && (
      || WakesDuring(t, ss[..|ss| - 1], ref)
      || Wakes(DoAll(t, ss[..|ss| - 1]), ss[|ss| - 1], ref))
  }

  lemma {:induction false} ChannelRun(t: Tracker, ss: seq<Step>, c: Channel)
    requires CanRun(t, ss) && Waits(t, c)
    ensures Waits(DoAll(t, ss), c)
    ensures Closed(DoAll(t, ss), c) <==> Closed(t, c) || WakesDuring(t, ss, c.ref)
    decreases |ss|
  {
    if ss != [] {
      hide Do, Enabled, Closed, Waits, Wakes;
      ChannelRun(t, ss[..|ss| - 1], c);
      ChannelStep(DoAll(t, ss[..|ss| - 1]), ss[|ss| - 1], c);
    }
  }

  /** No wake-up is lost and none is made up: whatever happens after a call to Wait,
      its channel is closed exactly when a MicroVM was added by an event or shown by
      an answer since, or the Pool was untracked. */
  lemma WokenIffWarmSince(t: Tracker, ref: PoolRef, ss: seq<Step>)
    requires CanRun(Do(t, Wait(ref)), ss)
    ensures var waiting := Do(t, Wait(ref));
            Closed(DoAll(waiting, ss), ChannelOf(waiting, ref)) <==> WakesDuring(waiting, ss, ref)
  {
    hide DoAll, CanRun, WakesDuring;
    ChannelRun(Do(t, Wait(ref)), ss, ChannelOf(Do(t, Wait(ref)), ref));
  }

  /** When a Pool's visible count rises, nobody is woken exactly when it rose by counts
      carried in an event, or by being declared again. */
  lemma RisesUnheard(t: Tracker, s: Step, ref: PoolRef)
    requires Enabled(t, s) && AllSane(t) && ref in t.pools
    requires Do(t, s).At(ref).Visible() > t.At(ref).Visible()
    ensures !Wakes(t, s, ref) <==>
              (s.Deliver? && s.e.pool == ref && s.e.CarriesCounts()) || s == Track(ref, true)
  {
    var p := t.pools[ref];
    assert Sane(p) && p.Visible() >= 0 by {
      assert CountOf(p, Warm).Wf();
    }
    if s.Deliver? && s.e.pool == ref && !s.e.CarriesCounts() && !(s.e.kind.Available? && Adds(p.available, s.e.uid)) {
      EventRises(p, s.e);
    } else if s.Answered? && !(p.generation == t.out.value.asked && Shows(p, s.st)) {
      PollRises(p, t.out.value.asked, s.size, s.st);
    }
    hide ApplyEvent, ApplyPoll, Adds, Shows, Sane;
  }

  lemma PollRises(p: Pool, asked: nat, size: int, st: Status)
    requires Sane(p) && !(p.generation == asked && Shows(p, st))
    ensures ApplyPoll(p, asked, size, st).Visible() <= p.Visible()
  {
    assert CountOf(p, Warm).Wf();
  }

  lemma EventRises(p: Pool, e: Event)
    requires Sane(p) && !e.CarriesCounts() && !(e.kind.Available? && Adds(p.available, e.uid))
    ensures ApplyEvent(p, e).Visible() <= p.Visible()
  {
    assert CountOf(p, Warm).Wf();
    EventWf(p, e, Warm);
    EventProjects(p, e, Warm);
    EventMark(p, e);
    assert OpFor(Warm, e).Name? ==> e.kind.Available?;
    hide ApplyEvent, OpFor, Adds, Apply;
    TotalFalls(p.available, OpFor(Warm, e));
  }

  lemma TotalFalls(c: Count, op: Op)
    requires c.Wf() && !(op.Name? && Adds(c, op.uid))
    ensures Apply(c, op).Total() <= c.Total()
  {
  }

  /** So a caller waiting on an empty Pool can sleep through MicroVMs that a
      POOL_SIZE_BELOW_TARGET event reports. */
  lemma CountsWakeNobody(ref: PoolRef, size: int, st: Status)
    requires st.available > 0
    ensures var t := Do(Do(Fresh, Track(ref, true)), Wait(ref));
            var t' := Do(t, Deliver(Event(ref, "", BelowTarget(size, Some(st)))));
            && t.At(ref).Visible() == 0 && t'.At(ref).Visible() == st.available
            && !Closed(t', ChannelOf(t, ref))
  {
  }
}
