/**
 What each of a Pool's flags says at the end of a run, told from the run: the last
 step that had a word on it decides.
 */
module LastWords {
  import opened Basics
  import opened UidCounts
  import opened Pools
  import opened Polls
  import GroundTruth

  // What has a word on a Pool.

  /** The Pool Manager has no such Pool. */
  predicate Disowns(t: Tracker, s: Step, ref: PoolRef) {
    s.AnsweredNotFound? && t.Asked(ref)
  }

  /** An answer is folded into the Pool. */
  predicate Folds(t: Tracker, s: Step, ref: PoolRef) {
    s.Answered? && t.Asked(ref) && ref in t.pools && !t.Raced()
  }

  predicate Hears(t: Tracker, s: Step, ref: PoolRef) {
    s.Deliver? && s.e.pool == ref && ref in t.pools
  }

  predicate HearsCounts(t: Tracker, s: Step, ref: PoolRef) {
    Hears(t, s, ref) && s.e.CarriesCounts()
  }

  /** A VM_AVAILABLE for a MicroVM not named or accounted for, while some are
      unnamed: it may or may not be one of those. */
  predicate Guesses(t: Tracker, s: Step, ref: PoolRef) {
    && Hears(t, s, ref) && s.e.kind.Available? && s.e.uid != ""
    && var c := t.pools[ref].available;
       s.e.uid !in c.named && c.unnamed > 0 && s.e.uid !in c.accounted
  }

  // ---------------------------------------------------------------- the words

  ghost predicate SaidDeclared(t: Tracker, ss: seq<Step>, ref: PoolRef)
    requires CanRun(t, ss)
    decreases |ss|
  {
    if ss == [] then t.At(ref).declared
    else
      var n, s := |ss| - 1, ss[|ss| - 1];
      if s.Track? && s.ref == ref then s.declared
      else if s == Untrack(ref) || Disowns(DoAll(t, ss[..n]), s, ref) then false
      else SaidDeclared(t, ss[..n], ref)
  }

  ghost predicate SaidExhausted(t: Tracker, ss: seq<Step>, ref: PoolRef)
    requires CanRun(t, ss)
    decreases |ss|
  {
    if ss == [] then t.At(ref).exhausted
    else
      var n, s := |ss| - 1, ss[|ss| - 1];
      var before := DoAll(t, ss[..n]);
      if s == MarkExhausted(ref) then true
      else if s == Untrack(ref) || Folds(before, s, ref) || HearsCounts(before, s, ref) then false
      else if Hears(before, s, ref) && GroundTruth.Clears(s.e) then false
      else SaidExhausted(t, ss[..n], ref)
  }

  ghost function SaidTarget(t: Tracker, ss: seq<Step>, ref: PoolRef): int
    requires CanRun(t, ss)
    decreases |ss|
  {
    if ss == [] then t.At(ref).size
    else
      var n, s := |ss| - 1, ss[|ss| - 1];
      var before := DoAll(t, ss[..n]);
      if s == Untrack(ref) then 0
      else if Folds(before, s, ref) then s.size
      else if HearsCounts(before, s, ref) then s.e.kind.size
      else SaidTarget(t, ss[..n], ref)
  }

  ghost predicate SaidDoubtful(t: Tracker, ss: seq<Step>, ref: PoolRef)
    requires CanRun(t, ss)
    decreases |ss|
  {
    if ss == [] then t.At(ref).unsettled
    else
      var n, s := |ss| - 1, ss[|ss| - 1];
      var before := DoAll(t, ss[..n]);
      if Guesses(before, s, ref) then true
      else if s == Untrack(ref) || Disowns(before, s, ref) || Folds(before, s, ref) || HearsCounts(before, s, ref)
      then false
      else SaidDoubtful(t, ss[..n], ref)
  }

  ghost predicate SaidOwing(t: Tracker, ss: seq<Step>, ref: PoolRef)
    requires CanRun(t, ss)
    decreases |ss|
  {
    if ss == [] then t.At(ref).needsPoll
    else
      var n, s := |ss| - 1, ss[|ss| - 1];
      var before, after := DoAll(t, ss[..n]), DoAll(t, ss).At(ref).Visible();
      if s == Untrack(ref) || Disowns(before, s, ref) || Folds(before, s, ref) then false
      else if s.Answered? && before.Asked(ref) && before.Raced() then true
      else if Hears(before, s, ref) then
        || (before.At(ref).Visible() > 0 && after == 0)
        || (SaidDoubtful(t, ss, ref) && (SaidTarget(t, ss, ref) <= 0 || after < SaidTarget(t, ss, ref)))
        || (!s.e.CarriesCounts() && SaidOwing(t, ss[..n], ref))
      else SaidOwing(t, ss[..n], ref)
  }

  ghost function SaidWaiting(t: Tracker, ss: seq<Step>, ref: PoolRef): nat
    requires CanRun(t, ss)
    decreases |ss|
  {
    if ss == [] then t.At(ref).waiting
    else
      var n, s := |ss| - 1, ss[|ss| - 1];
      if s == Wait(ref) then SaidWaiting(t, ss[..n], ref) + 1
      else if Wakes(DoAll(t, ss[..n]), s, ref) then 0
      else SaidWaiting(t, ss[..n], ref)
  }

  // ---------------------------------------------------------------- steps

  lemma EventWords(p: Pool, e: Event)
    ensures var q := ApplyEvent(p, e);
            && q.declared == p.declared
            && q.exhausted == (p.exhausted && !GroundTruth.Clears(e) && !e.CarriesCounts())
            && q.size == (if e.CarriesCounts() then e.kind.size else p.size)
            && q.waiting == (if e.kind.Available? && Adds(p.available, e.uid) then 0 else p.waiting)
  {
    hide Add, Leave, Remove, Rebaseline, Takes, Adds, Indebts;
  }

  lemma EventDebts(p: Pool, e: Event)
    ensures var q := ApplyEvent(p, e);
            && q.unsettled == ((e.kind.Available? && Adds(p.available, e.uid) && Takes(p.available, e.uid))
                               || (p.unsettled && !e.CarriesCounts()))
            && q.needsPoll == ((p.Visible() > 0 && q.Visible() == 0)
                               || (q.unsettled && (q.size <= 0 || q.Visible() < q.size))
                               || (p.needsPoll && !e.CarriesCounts()))
  {
    hide Add, Leave, Remove, Rebaseline, Takes, Adds;
  }

  lemma AnswerWords(p: Pool, asked: nat, size: int, st: Status)
    ensures var q := ApplyPoll(p, asked, size, st);
            && q.declared == p.declared
            && (p.generation != asked ==> q == p.(needsPoll := true))
            && (p.generation == asked ==>
                  && !q.exhausted && q.size == size && !q.unsettled && !q.needsPoll
                  && q.waiting == (if Shows(p, st) then 0 else p.waiting))
  {
  }

  lemma DeclaredStep(t: Tracker, s: Step, ref: PoolRef)
    requires Enabled(t, s)
    ensures Do(t, s).At(ref).declared == if s.Track? && s.ref == ref then s.declared
                                         else t.At(ref).declared && s != Untrack(ref) && !Disowns(t, s, ref)
  {
    Words(t, s, ref);
    hide ApplyEvent, ApplyPoll, Adds, Shows, GroundTruth.Clears;
  }

  lemma ExhaustedStep(t: Tracker, s: Step, ref: PoolRef)
    requires Enabled(t, s)
    ensures Do(t, s).At(ref).exhausted
         == (s == MarkExhausted(ref)
             || (t.At(ref).exhausted && s != Untrack(ref) && !Folds(t, s, ref) && !HearsCounts(t, s, ref)
                 && !(Hears(t, s, ref) && GroundTruth.Clears(s.e))))
  {
    Words(t, s, ref);
    hide ApplyEvent, ApplyPoll, Adds, Shows, GroundTruth.Clears;
  }

  lemma TargetStep(t: Tracker, s: Step, ref: PoolRef)
    requires Enabled(t, s)
    ensures Do(t, s).At(ref).size
         == if s == Untrack(ref) then 0 else if Folds(t, s, ref) then s.size
            else if HearsCounts(t, s, ref) then s.e.kind.size else t.At(ref).size
  {
    Words(t, s, ref);
    hide ApplyEvent, ApplyPoll, Adds, Shows, GroundTruth.Clears;
  }

  lemma WaitingStep(t: Tracker, s: Step, ref: PoolRef)
    requires Enabled(t, s)
    ensures Do(t, s).At(ref).waiting
         == if s == Wait(ref) then t.At(ref).waiting + 1 else if Wakes(t, s, ref) then 0 else t.At(ref).waiting
  {
    Words(t, s, ref);
    hide ApplyEvent, ApplyPoll, Adds, Shows, GroundTruth.Clears;
  }

  /** What an event or an answer says to a tracked Pool. */
  lemma Words(t: Tracker, s: Step, ref: PoolRef)
    requires Enabled(t, s)
    ensures ref in t.pools && s.Deliver? ==>
              var p, q := t.pools[ref], ApplyEvent(t.pools[ref], s.e);
              && q.declared == p.declared
              && q.exhausted == (p.exhausted && !GroundTruth.Clears(s.e) && !s.e.CarriesCounts())
              && q.size == (if s.e.CarriesCounts() then s.e.kind.size else p.size)
              && q.waiting == (if s.e.kind.Available? && Adds(p.available, s.e.uid) then 0 else p.waiting)
    ensures ref in t.pools && s.Answered? ==>
              var p, q := t.pools[ref], ApplyPoll(t.pools[ref], t.out.value.asked, s.size, s.st);
              && q.declared == p.declared
              && (p.generation != t.out.value.asked ==> q == p.(needsPoll := true))
              && (p.generation == t.out.value.asked ==>
                    && !q.exhausted && q.size == s.size && !q.unsettled && !q.needsPoll
                    && q.waiting == (if Shows(p, s.st) then 0 else p.waiting))
  {
    if ref in t.pools {
      if s.Deliver? {
        EventWords(t.pools[ref], s.e);
      } else if s.Answered? {
        AnswerWords(t.pools[ref], t.out.value.asked, s.size, s.st);
      }
    }
    hide ApplyEvent, ApplyPoll;
  }

  ghost predicate DoubtWord(t: Tracker, s: Step, ref: PoolRef)
    requires Enabled(t, s)
  {
    Do(t, s).At(ref).unsettled
      == (Guesses(t, s, ref)
          || (t.At(ref).unsettled && s != Untrack(ref) && !Disowns(t, s, ref) && !Folds(t, s, ref)
              && !HearsCounts(t, s, ref)))
  }

  ghost predicate OwingWord(t: Tracker, s: Step, ref: PoolRef)
    requires Enabled(t, s)
  {
    var p, q := t.At(ref), Do(t, s).At(ref);
    q.needsPoll == (if s == Untrack(ref) || Disowns(t, s, ref) || Folds(t, s, ref) then false
                    else if s.Answered? && t.Asked(ref) && t.Raced() then true
                    else if Hears(t, s, ref) then
                      || (p.Visible() > 0 && q.Visible() == 0)
                      || (q.unsettled && (q.size <= 0 || q.Visible() < q.size))
                      || (!s.e.CarriesCounts() && p.needsPoll)
                    else p.needsPoll)
  }

  lemma DebtOnEvent(t: Tracker, s: Step, ref: PoolRef)
    requires Enabled(t, s) && s.Deliver?
    ensures DoubtWord(t, s, ref) && OwingWord(t, s, ref)
  {
    if Hears(t, s, ref) {
      EventDebts(t.pools[ref], s.e);
    }
    hide ApplyEvent;
  }

  lemma DebtOnCall(t: Tracker, s: Step, ref: PoolRef)
    requires Enabled(t, s) && !s.Deliver? && !s.Answers()
    ensures DoubtWord(t, s, ref) && OwingWord(t, s, ref)
  {
  }

  lemma DebtOnAnswer(t: Tracker, s: Step, ref: PoolRef)
    requires Enabled(t, s) && s.Answers()
    ensures DoubtWord(t, s, ref) && OwingWord(t, s, ref)
  {
    if ref in t.pools && s.Answered? {
      AnswerWords(t.pools[ref], t.out.value.asked, s.size, s.st);
    }
    hide ApplyPoll, Shows;
  }

  lemma DebtStep(t: Tracker, s: Step, ref: PoolRef)
    requires Enabled(t, s)
    ensures DoubtWord(t, s, ref) && OwingWord(t, s, ref)
  {
    hide DoubtWord, OwingWord;
    if s.Deliver? {
      DebtOnEvent(t, s, ref);
    } else if s.Answers() {
      DebtOnAnswer(t, s, ref);
    } else {
      DebtOnCall(t, s, ref);
    }
  }

  // ---------------------------------------------------------------- runs

  /** Over every run a Pool is declared iff the last word on it, since it was last
      untracked, was a Track that declared it and not a NOT_FOUND; it is marked
      exhausted iff nothing has been heard of it since MarkExhausted; its target is the
      last one folded; and the callers counted as waiting are those since the last
      wake-up. */
  lemma {:induction false} LastWordDecides(t: Tracker, ss: seq<Step>, ref: PoolRef)
    requires CanRun(t, ss)
    ensures var p := DoAll(t, ss).At(ref);
            && p.declared == SaidDeclared(t, ss, ref)
            && p.exhausted == SaidExhausted(t, ss, ref)
            && p.size == SaidTarget(t, ss, ref)
            && p.waiting == SaidWaiting(t, ss, ref)
    decreases |ss|
  {
    if ss != [] {
      var n := |ss| - 1;
      LastWordDecides(t, ss[..n], ref);
      var before := DoAll(t, ss[..n]);
      DeclaredStep(before, ss[n], ref);
      ExhaustedStep(before, ss[n], ref);
      TargetStep(before, ss[n], ref);
      WaitingStep(before, ss[n], ref);
      hide Do, Enabled, Disowns, Folds, HearsCounts, Hears, Wakes, GroundTruth.Clears;
    }
  }

  /** So what a Pool shows is settled by the run: nothing unless it was declared and
      heard of since it was marked exhausted, and then all it counts. */
  lemma ShownByLastWord(t: Tracker, ss: seq<Step>, ref: PoolRef)
    requires CanRun(t, ss)
    ensures var p := DoAll(t, ss).At(ref);
            p.Visible() == if SaidDeclared(t, ss, ref) && !SaidExhausted(t, ss, ref)
                           then |p.available.named| + p.available.unnamed else 0
  {
    LastWordDecides(t, ss, ref);
    hide DoAll, CanRun, SaidDeclared, SaidExhausted;
  }

  /** Once the Pool Manager has disowned a Pool it shows nothing until it is tracked
      as declared again. */
  lemma DisownedShowsNothing(t: Tracker, ss: seq<Step>, ref: PoolRef)
    requires t.Asked(ref) && CanRun(Do(t, AnsweredNotFound), ss) && Track(ref, true) !in ss
    ensures DoAll(Do(t, AnsweredNotFound), ss).At(ref).Visible() == 0
  {
    var u := Do(t, AnsweredNotFound);
    NeverDeclared(u, ss, ref);
    ShownByLastWord(u, ss, ref);
  }

  lemma {:induction false} NeverDeclared(t: Tracker, ss: seq<Step>, ref: PoolRef)
    requires CanRun(t, ss) && !t.At(ref).declared && Track(ref, true) !in ss
    ensures !SaidDeclared(t, ss, ref)
    decreases |ss|
  {
    if ss != [] {
      hide Do, Enabled, DoAll;
      NeverDeclared(t, ss[..|ss| - 1], ref);
      assert ss[|ss| - 1] in ss;
    }
  }

  /** A Pool is in doubt iff a guess was made since its counts were last settled, and
      owes a poll iff a debt arose since it was last paid. */
  lemma {:induction false} DebtByLastWord(t: Tracker, ss: seq<Step>, ref: PoolRef)
    requires CanRun(t, ss)
    ensures DoAll(t, ss).At(ref).unsettled == SaidDoubtful(t, ss, ref)
    ensures DoAll(t, ss).At(ref).needsPoll == SaidOwing(t, ss, ref)
    decreases |ss|
  {
    if ss != [] {
      var n := |ss| - 1;
      DebtByLastWord(t, ss[..n], ref);
      LastWordDecides(t, ss, ref);
      DebtStep(DoAll(t, ss[..n]), ss[n], ref);
      assert DoAll(t, ss) == Do(DoAll(t, ss[..n]), ss[n]);
      hide Do, Enabled, DoAll, CanRun, Disowns, Folds, HearsCounts, Hears, Guesses, SaidTarget;
    }
  }

  // ---------------------------------------------------------------- requests for a poll

  /** What asks the poll loop for a poll at once. */
  predicate Requests(t: Tracker, s: Step)
    requires Enabled(t, s)
  {
    || (s.Track? && (s.ref !in t.pools || s.declared))
    || (s.Deliver? && Do(t, s).Owes(s.e.pool))
    || (s.Answered? && t.Raced())
  }

  ghost predicate Requested(t: Tracker, ss: seq<Step>)
    requires CanRun(t, ss)
    decreases |ss|
  {
    if ss == [] then t.kick
    else
      var n := |ss| - 1;
      Requests(DoAll(t, ss[..n]), ss[n]) || (!ss[n].TakeKick? && Requested(t, ss[..n]))
  }

  lemma RequestStep(t: Tracker, s: Step)
    requires Enabled(t, s)
    ensures Do(t, s).kick == (Requests(t, s) || (!s.TakeKick? && t.kick))
  {
    hide ApplyEvent, ApplyPoll;
  }

  /** No request is lost and none is made up: a poll is asked for iff, since the poll
      loop last took the request, a Pool was tracked for the first time or as declared,
      an event left its Pool owing, or an answer was discarded. */
  lemma {:induction false} PollAskedForIff(t: Tracker, ss: seq<Step>)
    requires CanRun(t, ss)
    ensures DoAll(t, ss).kick == Requested(t, ss)
    decreases |ss|
  {
    if ss != [] {
      hide Do, Enabled, Requests;
      PollAskedForIff(t, ss[..|ss| - 1]);
      RequestStep(DoAll(t, ss[..|ss| - 1]), ss[|ss| - 1]);
    }
  }

  // ---------------------------------------------------------------- counts

  /** Nothing but its own events, a folded answer, MarkExhausted and Untrack touches
      the counts of a Pool. */
  lemma NothingElseCounts(t: Tracker, s: Step, ref: PoolRef, k: Stage)
    requires Enabled(t, s) && !k.Gone?
    requires !Hears(t, s, ref) && !Folds(t, s, ref) && s != MarkExhausted(ref) && s != Untrack(ref)
    ensures CountOf(Do(t, s).At(ref), k) == CountOf(t.At(ref), k)
  {
    if s.Answered? && ref in t.pools {
      AnswerWords(t.pools[ref], t.out.value.asked, s.size, s.st);
    }
    hide ApplyEvent, ApplyPoll;
  }
}
