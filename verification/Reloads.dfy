/**
 What a caller of the Registry sees over runs: which connection a lease is on and how
 long it lasts, what a reload leaves live, and that closing is final.
 */
module Reloads {
  import opened Basics
  import opened RegistryCore
  import opened RegistryRuns

  // ---------------------------------------------------------------- leases

  /** A lease is given out iff the Host is live: a new one, on a connection of that
      Host that is neither retired nor closed, and no other lease changes. */
  lemma LeaseIsOnTheHost(s: Sys, name: string)
    requires Inv(s)
    ensures var s' := Do(s, TakeLease(name));
            && (s'.r.tokens != s.r.tokens <==> name in s.r.hosts)
            && (name in s.r.hosts ==> exists t :: t !in s.r.tokens && GivenOut(s, s', t, name))
  {
    if name in s.r.hosts {
      var id := s.r.hosts[name];
      assert Good(ViewOf(s, id));
      hide AllGood;
      var s' := Do(s, TakeLease(name));
      assert s'.r.tokens - {s.r.issued} == s.r.tokens;
      assert GivenOut(s, s', s.r.issued, name);
    }
  }

  ghost predicate GivenOut(s: Sys, s': Sys, t: nat, name: string) {
    && t in s'.r.tokens && s'.r.tokens - {t} == s.r.tokens
    && s'.r.tokens[t] < |s.r.entries|
    && var e := s.r.entries[s'.r.tokens[t]];
       e.ep.name == name && !e.retired && !e.closed
  }

  /** What a step does to the leases and their numbering, if it is none of TakeLease
      and GiveBack. */
  lemma TokensUntouched(s: Sys, a: Step)
    requires Inv(s) && Can(s, a) && !a.TakeLease? && !a.GiveBack?
    ensures Do(s, a).r.tokens == s.r.tokens && Do(s, a).r.issued == s.r.issued
  {
    hide AllGood;
    match a {
      case Begin(eps, dials) =>
        if !s.r.closed {
          ScanKeeps(s.r.entries, s.r.hosts, map[], |s.r.entries|, eps, dials, 0);
        }
      case Publish(order) =>
        if !s.r.closed {
          SupersededWithin(s.draft.value.current, s.draft.value.next, order, |s.r.entries|);
          RetireAllForm(Published(s), order, 0);
        }
      case Close(order) =>
        if !s.r.closed {
          OpenWithin(s, order);
          ShutAllForm(s.r, order, 0);
        }
    }
  }

  /** No step takes a lease from its holder or moves it to another connection; only
      giving it back ends it. */
  lemma LeaseKept(s: Sys, a: Step, t: nat)
    requires Inv(s) && Can(s, a) && t in s.r.tokens
    ensures t in Do(s, a).r.tokens <==> a != GiveBack(t)
    ensures t in Do(s, a).r.tokens ==> Do(s, a).r.tokens[t] == s.r.tokens[t]
  {
    hide AllGood;
    if !a.TakeLease? && !a.GiveBack? {
      TokensUntouched(s, a);
    }
  }

  lemma SpentStep(s: Sys, a: Step, t: nat)
    requires Inv(s) && Can(s, a) && t !in s.r.tokens && t < s.r.issued
    ensures t !in Do(s, a).r.tokens && t < Do(s, a).r.issued
  {
    hide AllGood;
    if !a.TakeLease? && !a.GiveBack? {
      TokensUntouched(s, a);
    }
  }

  lemma {:induction false} SpentForGood(s: Sys, steps: seq<Step>, t: nat)
    requires Inv(s) && Possible(s, steps) && t !in s.r.tokens && t < s.r.issued
    ensures t !in Run(s, steps).r.tokens
    decreases |steps|
  {
    if steps != [] {
      hide Inv, Do, Can;
      StepKeeps(s, steps[0]);
      SpentStep(s, steps[0], t);
      SpentForGood(Do(s, steps[0]), steps[1..], t);
    }
  }

  /** Over every run a lease lasts until it is given back, on the connection it was
      taken on, and is then spent for good. */
  lemma {:induction false} HeldUntilGivenBack(s: Sys, steps: seq<Step>, t: nat)
    requires Inv(s) && Possible(s, steps) && t in s.r.tokens
    ensures t in Run(s, steps).r.tokens <==> GiveBack(t) !in steps
    ensures t in Run(s, steps).r.tokens ==> Run(s, steps).r.tokens[t] == s.r.tokens[t]
    decreases |steps|
  {
    hide Inv, Do, Can;
    if steps != [] {
      StepKeeps(s, steps[0]);
      LeaseKept(s, steps[0], t);
      assert GiveBack(t) in steps <==> steps[0] == GiveBack(t) || GiveBack(t) in steps[1..];
      if steps[0] == GiveBack(t) {
        GivenBackIsSpent(s, t);
        SpentForGood(Do(s, steps[0]), steps[1..], t);
      } else {
        HeldUntilGivenBack(Do(s, steps[0]), steps[1..], t);
      }
    }
  }

  lemma GivenBackIsSpent(s: Sys, t: nat)
    requires Inv(s) && t in s.r.tokens
    ensures t !in Do(s, GiveBack(t)).r.tokens && t < Do(s, GiveBack(t)).r.issued
  {
    hide AllGood;
  }

  /** And until then its connection is not closed, unless Close is called. */
  lemma OpenWhileHeld(s: Sys, steps: seq<Step>, t: nat)
    requires Inv(s) && Possible(s, steps) && t in s.r.tokens && GiveBack(t) !in steps
    requires !s.r.closed && forall a :: a in steps ==> !a.Close?
    ensures var s' := Run(s, steps); var id := s.r.tokens[t];
            id < |s'.r.entries| && !s'.r.entries[id].closed && s'.r.closes[id] == 0
  {
    HeldUntilGivenBack(s, steps, t);
    OnlyCloseCloses(s, steps);
    hide Run, Possible;
    var s' := Run(s, steps);
    var id := s.r.tokens[t];
    assert Good(ViewOf(s', id));
    assert t in Holders(s'.r.tokens, id);
    hide AllGood;
  }

  lemma CloseMarks(s: Sys, a: Step)
    requires Inv(s) && Can(s, a)
    ensures Do(s, a).r.closed <==> s.r.closed || a.Close?
  {
    hide AllGood;
    match a {
      case Begin(eps, dials) =>
        if !s.r.closed {
          ScanKeeps(s.r.entries, s.r.hosts, map[], |s.r.entries|, eps, dials, 0);
        }
      case Publish(order) =>
        if !s.r.closed {
          SupersededWithin(s.draft.value.current, s.draft.value.next, order, |s.r.entries|);
          RetireAllForm(Published(s), order, 0);
        }
      case _ =>
    }
  }

  /** The Registry is closed iff Close has been called. */
  lemma {:induction false} OnlyCloseCloses(s: Sys, steps: seq<Step>)
    requires Inv(s) && Possible(s, steps)
    ensures Run(s, steps).r.closed <==> s.r.closed || exists a :: a in steps && a.Close?
    decreases |steps|
  {
    hide Inv, Do, Can;
    if steps != [] {
      StepKeeps(s, steps[0]);
      CloseMarks(s, steps[0]);
      OnlyCloseCloses(Do(s, steps[0]), steps[1..]);
      assert forall a :: a in steps <==> a == steps[0] || a in steps[1..];
    }
  }

  // ---------------------------------------------------------------- reloads

  ghost predicate OnlyLeases(steps: seq<Step>) {
    forall a :: a in steps ==> a.TakeLease? || a.GiveBack?
  }

  ghost predicate SameEndpoints(entries: seq<Entry>, entries': seq<Entry>) {
    |entries'| == |entries| && forall i :: 0 <= i < |entries| ==> entries'[i].ep == entries[i].ep
  }

  lemma LeasesMoveNoHost(s: Sys, a: Step)
    requires Inv(s) && (a.TakeLease? || a.GiveBack?)
    ensures var s' := Do(s, a);
            && s'.r.hosts == s.r.hosts && s'.r.closed == s.r.closed && s'.draft == s.draft
            && SameEndpoints(s.r.entries, s'.r.entries)
  {
    hide AllGood;
  }

  lemma {:induction false} LeasesMoveNoHosts(s: Sys, steps: seq<Step>)
    requires Inv(s) && Possible(s, steps) && OnlyLeases(steps)
    ensures var s' := Run(s, steps);
            && s'.r.hosts == s.r.hosts && s'.r.closed == s.r.closed && s'.draft == s.draft
            && SameEndpoints(s.r.entries, s'.r.entries)
    decreases |steps|
  {
    hide Inv, Do, Can;
    if steps != [] {
      assert steps[0] in steps && forall a :: a in steps[1..] ==> a in steps;
      StepKeeps(s, steps[0]);
      LeasesMoveNoHost(s, steps[0]);
      LeasesMoveNoHosts(Do(s, steps[0]), steps[1..]);
    }
  }

  /** A reload of an open Registry goes on to its second hold iff every endpoint has a
      name not listed before it and whatever had to be dialled answered. */
  lemma ReadyIff(s: Sys, eps: seq<Endpoint>, dials: seq<bool>)
    requires Inv(s) && Can(s, Begin(eps, dials)) && !s.r.closed
    ensures Do(s, Begin(eps, dials)).draft.Some? <==>
              forall k :: 0 <= k < |eps| ==> !StopsAt(s.r.entries, s.r.hosts, eps, dials, k)
    ensures Do(s, Begin(eps, dials)).r.hosts == s.r.hosts && !Do(s, Begin(eps, dials)).r.closed
  {
    ScanKeeps(s.r.entries, s.r.hosts, map[], |s.r.entries|, eps, dials, 0);
    ScanOutcome(s.r.entries, s.r.entries, s.r.hosts, map[], eps, dials, 0);
    var j := FirstStop(s.r.entries, s.r.hosts, eps, dials, 0);
    hide ScanFrom, FirstStop, AllGood, StopsAt;
  }

  /** `hosts` has the endpoints listed and nothing else, each on a connection made with
      its terms: the one it had in `s` if those have not changed, or else a new one. */
  ghost predicate LiveAre(s: Sys, entries: seq<Entry>, hosts: Hosts, eps: seq<Endpoint>)
    requires Within(s.r.hosts, |s.r.entries|)
  {
    SeenBefore(hosts, eps, |eps|) && forall k :: 0 <= k < |eps| ==> LiveOn(s, entries, hosts, eps[k])
  }

  ghost predicate LiveOn(s: Sys, entries: seq<Entry>, hosts: Hosts, ep: Endpoint)
    requires Within(s.r.hosts, |s.r.entries|)
  {
    && ep.name in hosts && hosts[ep.name] < |entries| && entries[hosts[ep.name]].ep == ep
    && (NeedsDial(s.r.entries, s.r.hosts, ep) <==> hosts[ep.name] >= |s.r.entries|)
    && (!NeedsDial(s.r.entries, s.r.hosts, ep) ==> hosts[ep.name] == s.r.hosts[ep.name])
  }

  lemma LiveOnSame(s: Sys, entries: seq<Entry>, entries': seq<Entry>, hosts: Hosts, eps: seq<Endpoint>)
    requires Within(s.r.hosts, |s.r.entries|) && LiveAre(s, entries, hosts, eps) && SameEndpoints(entries, entries')
    ensures LiveAre(s, entries', hosts, eps)
  {
    forall k | 0 <= k < |eps|
      ensures LiveOn(s, entries', hosts, eps[k])
    {
      assert LiveOn(s, entries, hosts, eps[k]);
    }
  }

  lemma ServesIsLive(s: Sys, entries: seq<Entry>, next: Hosts, ep: Endpoint)
    requires s.r.entries <= entries && DraftOk(entries, s.r.hosts, next, |s.r.entries|)
    requires Serves(entries, s.r.hosts, next, ep)
    ensures LiveOn(s, entries, next, ep)
  {
    var id := next[ep.name];
    if id < |s.r.entries| {
      assert s.r.hosts[ep.name] == id && s.r.entries[id] == entries[id];
    }
  }

  lemma BeginDrafts(s: Sys, eps: seq<Endpoint>, dials: seq<bool>)
    requires Inv(s) && Can(s, Begin(eps, dials)) && !s.r.closed && Do(s, Begin(eps, dials)).draft.Some?
    ensures var s' := Do(s, Begin(eps, dials));
            !s'.r.closed && LiveAre(s, s'.r.entries, s'.draft.value.next, eps)
  {
    StepKeeps(s, Begin(eps, dials));
    ScanKeeps(s.r.entries, s.r.hosts, map[], |s.r.entries|, eps, dials, 0);
    ReadyServesEndpoints(s.r.entries, s.r.hosts, map[], eps, dials, 0);
    var x := ScanFrom(s.r.entries, s.r.hosts, map[], eps, dials, 0);
    hide ScanFrom, AllGood, DraftOk, Serves, LiveOn;
    forall k | 0 <= k < |eps|
      ensures LiveOn(s, x.entries, x.next, eps[k])
    {
      ServesIsLive(s, x.entries, x.next, eps[k]);
    }
  }

  lemma PublishTakes(s: Sys, order: seq<nat>)
    requires Inv(s) && Can(s, Publish(order)) && !s.r.closed
    ensures var s' := Do(s, Publish(order));
            s'.r.hosts == s.draft.value.next && SameEndpoints(s.r.entries, s'.r.entries) && s'.draft.None?
  {
    hide AllGood;
    SupersededWithin(s.draft.value.current, s.draft.value.next, order, |s.r.entries|);
    RetireAllForm(Published(s), order, 0);
    var s' := Do(s, Publish(order));
    forall i | 0 <= i < |s.r.entries|
      ensures s'.r.entries[i].ep == s.r.entries[i].ep
    {
      RetireAllForm(Published(s), order, i);
    }
  }

  /** Over every run: once a reload is through, whatever leases were taken or given back
      while it dialled, what is live is what it was given. */
  lemma ReloadServes(s: Sys, eps: seq<Endpoint>, dials: seq<bool>, between: seq<Step>, order: seq<nat>)
    requires Inv(s) && Can(s, Begin(eps, dials)) && !s.r.closed && Do(s, Begin(eps, dials)).draft.Some?
    requires Inv(Do(s, Begin(eps, dials))) && Possible(Do(s, Begin(eps, dials)), between) && OnlyLeases(between)
    requires Can(Run(Do(s, Begin(eps, dials)), between), Publish(order))
    ensures var s' := Do(Run(Do(s, Begin(eps, dials)), between), Publish(order));
            LiveAre(s, s'.r.entries, s'.r.hosts, eps)
  {
    BeginDrafts(s, eps, dials);
    var s1 := Do(s, Begin(eps, dials));
    hide Do, Can, Possible, OnlyLeases, LiveAre, SameEndpoints;
    var s2 := Run(s1, between);
    LeasesMoveNoHosts(s1, between);
    hide Run;
    PublishTakes(s2, order);
    var s3 := Do(s2, Publish(order));
    hide Inv;
    LiveOnSame(s, s1.r.entries, s2.r.entries, s1.draft.value.next, eps);
    LiveOnSame(s, s2.r.entries, s3.r.entries, s3.r.hosts, eps);
  }

  /** A connection the new live set takes the place of is retired, and closed there and
      then iff nobody holds it. */
  lemma SupersededFate(s: Sys, order: seq<nat>, name: string)
    requires Inv(s) && Can(s, Publish(order)) && !s.r.closed && name in s.r.hosts
    requires var d := s.draft.value; !(name in d.next && d.next[name] == s.r.hosts[name])
    ensures var s', id := Do(s, Publish(order)), s.r.hosts[name];
            && id < |s'.r.entries| && s'.r.entries[id].retired
            && (s'.r.closes[id] == 1 <==> Holders(s.r.tokens, id) == {})
  {
    var d, id := s.draft.value, s.r.hosts[name];
    SupersededWithin(d.current, d.next, order, |s.r.entries|);
    RetireAllForm(Published(s), order, id);
    assert Good(ViewOf(s, id));
    hide AllGood, RetireAll;
    assert id in Superseded(d.current, d.next);
    assert Holders(s.r.tokens, id) == {} <==> |Holders(s.r.tokens, id)| == 0;
  }

  // ---------------------------------------------------------------- closing

  /** Closed, with no reload under way. */
  ghost predicate ShutDown(s: Sys) {
    s.r.closed && s.draft.None?
  }

  lemma ShutDownStep(s: Sys, a: Step, id: nat)
    requires Inv(s) && Can(s, a) && ShutDown(s) && id < |s.r.entries|
    ensures var s' := Do(s, a);
            && ShutDown(s') && |s'.r.entries| == |s.r.entries| && s'.leaked == s.leaked
            && s'.r.hosts == map[] && s'.r.closes[id] == s.r.closes[id]
            && (forall t :: t in s'.r.tokens ==> t in s.r.tokens)
  {
    StepKeeps(s, a);
    assert Good(ViewOf(s, id)) && Good(ViewOf(Do(s, a), id));
    hide AllGood;
  }

  /** Closing is final: from then on no run dials anything, gives out a lease or closes
      a connection again. */
  lemma {:induction false} ClosedIsFinal(s: Sys, steps: seq<Step>, id: nat)
    requires Inv(s) && Possible(s, steps) && ShutDown(s) && id < |s.r.entries|
    ensures var s' := Run(s, steps);
            && ShutDown(s') && |s'.r.entries| == |s.r.entries| && s'.r.hosts == map[]
            && s'.r.closes[id] == s.r.closes[id] && (forall t :: t in s'.r.tokens ==> t in s.r.tokens)
    decreases |steps|
  {
    if steps == [] {
      hide AllGood;
    } else {
      hide Inv, Do, Can, ShutDown;
      StepKeeps(s, steps[0]);
      ShutDownStep(s, steps[0], id);
      ClosedIsFinal(Do(s, steps[0]), steps[1..], id);
    }
  }
}
