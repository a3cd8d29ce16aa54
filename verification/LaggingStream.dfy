/**
 A Tracker whose event stream lags: events that have happened wait to be delivered,
 and GetPool answers from a world the stream has not caught up with.
 */
module LaggingStream {
  import opened Basics
  import opened UidCounts
  import opened CountTruth
  import opened Pools
  import opened GroundTruth

  /** The world as delivered, the events on their way in order, how many of them the
      last folded answer already included, and the mistakes the available count will
      have made once those are delivered. */
  datatype Lag = Lag(pool: Pool, delivered: World, queue: seq<Event>, ahead: nat, mistakes: nat)

  /** An answer folded has seen the first `seen` of the events on their way. */
  datatype Move = Occurs(e: Event) | Delivers | Answers(size: int, seen: nat) | Exhausts

  /** The world as it is. */
  function TrueWorld(s: Lag): World {
    HappenAll(s.delivered, s.queue)
  }

  predicate Can(s: Lag, a: Move) {
    match a
    case Occurs(e) => LiveEvent(TrueWorld(s), e)
    case Delivers => s.queue != []
    case Answers(_, seen) => seen <= |s.queue|
    case Exhausts => true
  }

  /** MicroVMs entering the stage since the last event that carries counts. */
  function SinceCounts(es: seq<Event>): nat {
    if es == [] || es[|es| - 1].CarriesCounts() then 0
    else Entered(Warm, SinceCounts(es[..|es| - 1]), es[|es| - 1])
  }

  /** What an answer that includes `es` ahead of the stream gets wrong by the time they
      are delivered: one for each MicroVM that left on the way, unless counts among
      them settle it. */
  ghost function AheadMistakes(es: seq<Event>): nat {
    if NoCounts(es) then |Left(OpsFor(Warm, es))| else SinceCounts(es)
  }

  ghost function Make(s: Lag, a: Move): Lag
    requires Can(s, a) && s.ahead <= |s.queue|
  {
    match a
    case Occurs(e) => s.(queue := s.queue + [e])
    case Delivers =>
      var e := s.queue[0];
      var pool, delivered := ApplyEvent(s.pool, e), Happen(s.delivered, e);
      if s.ahead > 0 then Lag(pool, delivered, s.queue[1..], s.ahead - 1, s.mistakes)
      else Lag(pool, delivered, s.queue[1..], 0, Entered(Warm, s.mistakes, e))
    case Answers(size, seen) =>
      var es := s.queue[..seen];
      s.(pool := ApplyPoll(s.pool, s.pool.generation, size, StatusOf(HappenAll(s.delivered, es))),
         ahead := seen, mistakes := AheadMistakes(es))
    case Exhausts =>
      s.(pool := Exhaust(s.pool), mistakes := EnteredBy(Warm, |Members(s.delivered, Warm)|, s.queue[..s.ahead]))
  }

  /** The available count names only MicroVMs that are warm as far as delivered. */
  ghost predicate Inside(p: Pool, w: World) {
    p.available.Wf() && p.available.named <= Members(w, Warm) && "" !in w
  }

  /** Once `es` are delivered the available count will obey the law. */
  ghost predicate WillObey(p: Pool, w: World, es: seq<Event>, mistakes: nat) {
    Law(RunEvents(p, es).available, TruthOf(HappenAll(w, es), Warm), mistakes)
  }

  ghost predicate Follows(s: Lag) {
    && s.ahead <= |s.queue| && LiveEvents(s.delivered, s.queue) && Inside(s.pool, s.delivered)
    && WillObey(s.pool, s.delivered, s.queue[..s.ahead], s.mistakes)
  }

  // ---------------------------------------------------------------- runs from the front

  lemma {:induction false} RunFront(p: Pool, es: seq<Event>)
    requires es != []
    ensures RunEvents(p, es) == RunEvents(ApplyEvent(p, es[0]), es[1..])
    decreases |es|
  {
    var n := |es| - 1;
    hide ApplyEvent;
    if n == 0 {
      assert es[..0] == [] && RunEvents(p, es[..0]) == p;
    } else {
      RunFront(p, es[..n]);
      assert es[..n][1..] == es[1..][..n - 1] && es[..n][0] == es[0];
    }
  }

  lemma {:induction false} HappenFront(w: World, es: seq<Event>)
    requires es != []
    ensures HappenAll(w, es) == HappenAll(Happen(w, es[0]), es[1..])
    decreases |es|
  {
    var n := |es| - 1;
    hide Happen;
    if n == 0 {
      assert es[..0] == [] && HappenAll(w, es[..0]) == w;
    } else {
      HappenFront(w, es[..n]);
      assert es[..n][1..] == es[1..][..n - 1] && es[..n][0] == es[0];
    }
  }

  lemma {:induction false} LiveFront(w: World, es: seq<Event>)
    requires es != [] && LiveEvents(w, es)
    ensures LiveEvent(w, es[0]) && LiveEvents(Happen(w, es[0]), es[1..])
    decreases |es|
  {
    var n := |es| - 1;
    hide Happen, LiveEvent;
    if n == 0 {
      assert es[..0] == [] && HappenAll(w, es[..0]) == w;
    } else {
      LiveFront(w, es[..n]);
      HappenFront(w, es[..n]);
      assert es[..n][1..] == es[1..][..n - 1] && es[..n][0] == es[0];
    }
  }

  lemma {:induction false} LivePrefix(w: World, es: seq<Event>, n: nat)
    requires LiveEvents(w, es) && n <= |es|
    ensures LiveEvents(w, es[..n])
    decreases |es|
  {
    if n == |es| {
      assert es[..n] == es;
    } else {
      LivePrefix(w, es[..|es| - 1], n);
      assert es[..|es| - 1][..n] == es[..n];
    }
  }

  // ---------------------------------------------------------------- the names stay inside

  lemma InsideStep(p: Pool, w: World, e: Event)
    requires Inside(p, w) && LiveEvent(w, e)
    ensures Inside(ApplyEvent(p, e), Happen(w, e))
  {
    EventWf(p, e, Warm);
    if e.CarriesCounts() {
      CountsFold(p, w, e, Warm);
    } else {
      LiveProjects(w, e, Warm);
      EventProjects(p, e, Warm);
      NamedStep(p.available, OpFor(Warm, e));
    }
    hide ApplyEvent, OpFor, LiveEvent, Apply;
  }

  lemma {:induction false} InsideRun(p: Pool, w: World, es: seq<Event>)
    requires Inside(p, w) && LiveEvents(w, es)
    ensures Inside(RunEvents(p, es), HappenAll(w, es))
    decreases |es|
  {
    if es != [] {
      hide Inside, ApplyEvent, Happen, LiveEvent;
      var n := |es| - 1;
      InsideRun(p, w, es[..n]);
      InsideStep(RunEvents(p, es[..n]), HappenAll(w, es[..n]), es[n]);
    }
  }

  // ---------------------------------------------------------------- folds

  /** Counts among the events settle the count, whatever was folded before. */
  lemma {:induction false} CountsSettle(p: Pool, w: World, es: seq<Event>)
    requires Inside(p, w) && LiveEvents(w, es) && !NoCounts(es)
    ensures WillObey(p, w, es, SinceCounts(es))
    decreases |es|
  {
    var n := |es| - 1;
    var q, v := RunEvents(p, es[..n]), HappenAll(w, es[..n]);
    InsideRun(p, w, es[..n]);
    assert RunEvents(p, es) == ApplyEvent(q, es[n]) && HappenAll(w, es) == Happen(v, es[n]);
    assert LiveEvent(v, es[n]) && LiveEvents(w, es[..n]);
    assert forall x :: x in es <==> x in es[..n] || x == es[n];
    hide RunEvents, HappenAll, LiveEvents, LiveEvent, Law, Inside, ApplyEvent, Happen, Entered;
    if es[n].CarriesCounts() {
      CountsAreExact(q, v, es[n]);
    } else {
      CountsSettle(p, w, es[..n]);
      InsideNamed(q, v);
      EventKeepsLaw(q, v, es[n], Warm, SinceCounts(es[..n]));
    }
  }

  lemma InsideNamed(p: Pool, w: World)
    requires Inside(p, w)
    ensures "" !in w
  {
  }

  lemma CountsAreExact(p: Pool, w: World, e: Event)
    requires Inside(p, w) && LiveEvent(w, e) && e.CarriesCounts()
    ensures Law(ApplyEvent(p, e).available, TruthOf(Happen(w, e), Warm), 0)
  {
    CountsFold(p, w, e, Warm);
    TruthWf(w);
    FoldIsExact(p.available, TruthOf(w, Warm));
    hide ApplyEvent, Happen, LiveEvent, Law, Rebaseline;
  }

  lemma TruthWf(w: World)
    requires "" !in w
    ensures TruthOf(w, Warm).Wf()
  {
  }

  lemma AnswerObeys(p: Pool, w: World, es: seq<Event>, size: int)
    requires Inside(p, w) && LiveEvents(w, es)
    ensures var q := ApplyPoll(p, p.generation, size, StatusOf(HappenAll(w, es)));
            Inside(q, w) && WillObey(q, w, es, AheadMistakes(es))
  {
    var now := HappenAll(w, es);
    var q := ApplyPoll(p, p.generation, size, StatusOf(now));
    PollFolds(p, now, size, Warm);
    assert Inside(q, w);
    hide ApplyPoll, HappenAll, LiveEvents, StatusOf, RunEvents, Law, Rebaseline;
    if NoCounts(es) {
      PollAheadOfStream(p, w, es, size, Warm);
    } else {
      CountsSettle(q, w, es);
    }
  }

  lemma ExhaustObeys(p: Pool, w: World, es: seq<Event>)
    requires "" !in w && LiveEvents(w, es)
    ensures Inside(Exhaust(p), w) && WillObey(Exhaust(p), w, es, EnteredBy(Warm, |Members(w, Warm)|, es))
  {
    var q := Exhaust(p);
    assert Law(q.available, TruthOf(w, Warm), |Members(w, Warm)|) by {
      assert Hidden(q.available, TruthOf(w, Warm)) == Members(w, Warm);
    }
    EventsKeepLaw(q, w, es, Warm, |Members(w, Warm)|);
  }

  // ---------------------------------------------------------------- every run

  lemma DeliverFollows(s: Lag)
    requires Follows(s) && s.queue != []
    ensures Follows(Make(s, Delivers))
  {
    var e := s.queue[0];
    LiveFront(s.delivered, s.queue);
    InsideStep(s.pool, s.delivered, e);
    if s.ahead > 0 {
      var es := s.queue[..s.ahead];
      RunFront(s.pool, es);
      HappenFront(s.delivered, es);
      assert es[0] == e && es[1..] == s.queue[1..][..s.ahead - 1];
    } else {
      assert s.queue[..0] == [] && s.queue[1..][..0] == [];
      EventKeepsLaw(s.pool, s.delivered, e, Warm, s.mistakes);
    }
    hide LiveEvents, LiveEvent, Inside, Law, ApplyEvent, Happen, Entered;
  }

  lemma MoveFollows(s: Lag, a: Move)
    requires Follows(s) && Can(s, a)
    ensures Follows(Make(s, a))
  {
    match a
    case Occurs(e) =>
      assert (s.queue + [e])[..|s.queue|] == s.queue;
      assert (s.queue + [e])[..s.ahead] == s.queue[..s.ahead];
      hide LiveEvent, Inside, WillObey;
    case Delivers =>
      DeliverFollows(s);
    case Answers(size, seen) =>
      LivePrefix(s.delivered, s.queue, seen);
      AnswerObeys(s.pool, s.delivered, s.queue[..seen], size);
      hide LiveEvents, Inside, WillObey, ApplyPoll;
    case Exhausts =>
      assert "" !in s.delivered;
      LivePrefix(s.delivered, s.queue, s.ahead);
      ExhaustObeys(s.pool, s.delivered, s.queue[..s.ahead]);
      hide LiveEvents, Inside, WillObey;
  }

  ghost predicate CanAll(s: Lag, moves: seq<Move>)
    requires Follows(s)
    decreases |moves|
  {
    moves != [] ==>
      && Can(s, moves[0])
      && (MoveFollows(s, moves[0]);
          CanAll(Make(s, moves[0]), moves[1..]))
  }

  ghost function MakeAll(s: Lag, moves: seq<Move>): (s': Lag)
    requires Follows(s) && CanAll(s, moves)
    ensures Follows(s')
    decreases |moves|
  {
    if moves == [] then s
    else
      MoveFollows(s, moves[0]);
      MakeAll(Make(s, moves[0]), moves[1..])
  }

  /** However far the stream lags, whatever is polled and marked exhausted on the way:
      once everything the last folded answer included has been delivered, the
      available count is the number of MicroVMs warm as far as delivered, less the
      mistakes made or what is not named, whichever is less. So it never exceeds that
      number, and is exact iff no mistake was made or every warm MicroVM is named. */
  lemma LaggingTrackerRefinesTruth(s: Lag, moves: seq<Move>)
    requires Follows(s) && CanAll(s, moves)
    ensures var s' := MakeAll(s, moves);
            var c, warm := s'.pool.available, Members(s'.delivered, Warm);
            s'.ahead == 0 ==>
              && c.Total() == |warm| - Min(s'.mistakes, |warm - c.named|)
              && c.Total() <= |warm|
              && (c.Total() == |warm| <==> s'.mistakes == 0 || c.named == warm)
  {
    var s' := MakeAll(s, moves);
    hide MakeAll, CanAll;
    if s'.ahead == 0 {
      assert s'.queue[..0] == [];
      LawTotal(s'.pool.available, TruthOf(s'.delivered, Warm), s'.mistakes);
    }
  }
}
