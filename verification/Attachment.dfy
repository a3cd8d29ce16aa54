/**
 Who stays attached to the claim hub, told by the lengths of their buffers, and what
 they have been sent.
 */
module Attachment {
  import opened Basics
  import opened Pools
  import opened ClaimHub

  ghost predicate Fits(s: Stream, es: seq<Event>) {
    |s.buffered| + |Wanted(s, es)| <= SUBSCRIBER_BUFFER
  }

  /** No buffer holds more than it can, ids are not used again, and a hub that is shut
      has nobody attached. */
  ghost predicate Bounded(h: HubState) {
    && (forall id :: id in h.subs ==> id < h.nextSub && |h.subs[id].buffered| <= SUBSCRIBER_BUFFER)
    && (h.closed ==> h.subs == map[])
  }

  /** A run of events drops a subscriber exactly when those it wants do not fit its
      buffer; one that is left has them all, in order. */
  lemma {:induction false} AttachedIffFits(subs: Streams, es: seq<Event>, id: nat)
    requires id in subs && |subs[id].buffered| <= SUBSCRIBER_BUFFER
    ensures id in PublishAll(subs, es) <==> Fits(subs[id], es)
    ensures id in PublishAll(subs, es) ==>
              PublishAll(subs, es)[id] == subs[id].(buffered := subs[id].buffered + Wanted(subs[id], es))
  {
    var s := subs[id];
    if es == [] {
      assert s.buffered + [] == s.buffered;
    } else {
      var n := |es| - 1;
      AttachedIffFits(subs, es[..n], id);
      var w := if s.Wants(es[n].pool) then [es[n]] else [];
      assert Wanted(s, es) == Wanted(s, es[..n]) + w;
      assert s.buffered + (Wanted(s, es[..n]) + w) == s.buffered + Wanted(s, es[..n]) + w;
      assert s.buffered + Wanted(s, es[..n]) + [] == s.buffered + Wanted(s, es[..n]);
    }
  }

  // ---------------------------------------------------------------- what a step publishes

  function SawEvents(h: HubState, it: Item): seq<Event> {
    if h.closed then [] else MoveEvents(LastOf(h, it.name), PoolRef(it.name, it.namespace), it.count)
  }

  function GoneEvents(h: HubState, name: string): seq<Event> {
    if h.closed || name !in h.available then [] else MoveEvents(h.available[name], h.available[name].ref, 0)
  }

  function SawAllEvents(h: HubState, items: seq<Item>): seq<Event> {
    if items == [] then []
    else SawAllEvents(h, items[..|items| - 1]) + SawEvents(ObserveAll(h, items[..|items| - 1]), items[|items| - 1])
  }

  function GoneAllEvents(h: HubState, names: seq<string>): seq<Event> {
    if names == [] then []
    else GoneAllEvents(h, names[..|names| - 1]) + GoneEvents(ForgetAll(h, names[..|names| - 1]), names[|names| - 1])
  }

  function EventsOf(h: HubState, s: Step): seq<Event> {
    match s
    case Saw(it) => SawEvents(h, it)
    case Deleted(name) => GoneEvents(h, name)
    case Resynced(items, missing) => SawAllEvents(h, items) + GoneAllEvents(ObserveAll(h, items), missing)
    case _ => []
  }

  lemma {:induction false} ObserveAllPublishes(h: HubState, items: seq<Item>)
    ensures ObserveAll(h, items).subs == PublishAll(h.subs, SawAllEvents(h, items))
    ensures ObserveAll(h, items).nextSub == h.nextSub && ObserveAll(h, items).closed == h.closed
  {
    if items != [] {
      var n := |items| - 1;
      ObserveAllPublishes(h, items[..n]);
      hide MoveEvents, Publish;
      PublishConcat(h.subs, SawAllEvents(h, items[..n]), SawEvents(ObserveAll(h, items[..n]), items[n]));
    }
  }

  lemma {:induction false} ForgetAllPublishes(h: HubState, names: seq<string>)
    ensures ForgetAll(h, names).subs == PublishAll(h.subs, GoneAllEvents(h, names))
    ensures ForgetAll(h, names).nextSub == h.nextSub && ForgetAll(h, names).closed == h.closed
  {
    if names != [] {
      var n := |names| - 1;
      ForgetAllPublishes(h, names[..n]);
      hide MoveEvents, Publish;
      PublishConcat(h.subs, GoneAllEvents(h, names[..n]), GoneEvents(ForgetAll(h, names[..n]), names[n]));
    }
  }

  lemma StepPublishes(h: HubState, s: Step)
    requires Enabled(h, s) && (s.Saw? || s.Deleted? || s.Resynced?)
    ensures Do(h, s).subs == PublishAll(h.subs, EventsOf(h, s))
    ensures Do(h, s).nextSub == h.nextSub && Do(h, s).closed == h.closed
  {
    hide MoveEvents, Publish;
    if s.Resynced? {
      ObserveAllPublishes(h, s.items);
      ForgetAllPublishes(ObserveAll(h, s.items), s.missing);
      PublishConcat(h.subs, SawAllEvents(h, s.items), GoneAllEvents(ObserveAll(h, s.items), s.missing));
    }
  }

  // ---------------------------------------------------------------- steps

  /** After any step a subscriber is gone iff it unsubscribed, the hub was shut, or
      what it wants of the events published does not fit its buffer; one that is left
      has been sent exactly those besides what it had, in order. */
  lemma StaysAttachedIff(h: HubState, s: Step, id: nat)
    requires Bounded(h) && Enabled(h, s) && id in h.subs
    ensures id in Do(h, s).subs <==> s != Unsubscribed(id) && !s.ShutDown? && Fits(h.subs[id], EventsOf(h, s))
    ensures id in Do(h, s).subs ==>
              && Do(h, s).subs[id].filter == h.subs[id].filter
              && Do(h, s).subs[id].Log() == h.subs[id].Log() + Wanted(h.subs[id], EventsOf(h, s))
  {
    var q := h.subs[id];
    if s.Saw? || s.Deleted? || s.Resynced? {
      StepPublishes(h, s);
      hide Do, EventsOf, PublishAll;
      AttachedIffFits(h.subs, EventsOf(h, s), id);
      assert q.received + (q.buffered + Wanted(q, EventsOf(h, s))) == q.Log() + Wanted(q, EventsOf(h, s));
    } else {
      assert Wanted(q, []) == [] && q.Log() + [] == q.Log();
      if s == Received(id) && q.buffered != [] {
        assert q.received + [q.buffered[0]] + q.buffered[1..] == q.Log();
      }
      hide Wanted;
    }
  }

  /** Somebody new is attached only by subscribing to a hub that is open, and starts
      with the replay. */
  lemma JoinsIff(h: HubState, s: Step, id: nat)
    requires Bounded(h) && Enabled(h, s) && id !in h.subs
    ensures id in Do(h, s).subs <==> s.Subscribed? && !h.closed && id == h.nextSub
    ensures id in Do(h, s).subs ==>
              Do(h, s).subs[id] == Stream(s.filter, [], Replay(h.available, s.order, s.filter))
  {
    if s.Saw? || s.Deleted? || s.Resynced? {
      StepPublishes(h, s);
      hide Do, EventsOf;
      NobodyJoins(h.subs, EventsOf(h, s), id);
    }
  }

  /** A replay longer than the buffer is cut off where the buffer is full. */
  lemma ReplayFillsBuffer(h: HubState, order: seq<string>, filter: Option<PoolRef>)
    requires !h.closed && forall n :: n in order ==> n in h.available
    ensures h.nextSub in Subscribe(h, order, filter).subs
    ensures var got, all := Subscribe(h, order, filter).subs[h.nextSub].buffered, Replay(h.available, order, filter);
            got <= all && |got| == Min(|all|, SUBSCRIBER_BUFFER)
  {
  }

  lemma {:induction false} NobodyJoins(subs: Streams, es: seq<Event>, id: nat)
    requires id !in subs
    ensures id !in PublishAll(subs, es)
  {
    if es != [] {
      NobodyJoins(subs, es[..|es| - 1], id);
    }
  }

  lemma StepBounded(h: HubState, s: Step)
    requires Bounded(h) && Enabled(h, s)
    ensures Bounded(Do(h, s))
  {
    if s.Saw? || s.Deleted? || s.Resynced? {
      StepPublishes(h, s);
      forall id | id in Do(h, s).subs
        ensures id in h.subs && |Do(h, s).subs[id].buffered| <= SUBSCRIBER_BUFFER
      {
        if id !in h.subs {
          NobodyJoins(h.subs, EventsOf(h, s), id);
        }
        AttachedIffFits(h.subs, EventsOf(h, s), id);
      }
      hide Do, EventsOf, PublishAll;
      if h.closed {
        assert Do(h, s).subs == map[];
      }
    }
  }

  // ---------------------------------------------------------------- runs

  lemma {:induction false} RunBounded(h: HubState, ss: seq<Step>)
    requires Bounded(h) && CanRun(h, ss)
    ensures Bounded(DoAll(h, ss))
    decreases |ss|
  {
    if ss != [] {
      hide Bounded, Do, Enabled;
      StepBounded(h, ss[0]);
      RunBounded(Do(h, ss[0]), ss[1..]);
    }
  }

  /** Nothing in the run takes the subscriber off. */
  ghost predicate KeptThroughout(h: HubState, ss: seq<Step>, id: nat)
    requires CanRun(h, ss)
    decreases |ss|
  {
    ss != [] ==>
      && id in h.subs
      && ss[0] != Unsubscribed(id) && !ss[0].ShutDown? && Fits(h.subs[id], EventsOf(h, ss[0]))
      && KeptThroughout(Do(h, ss[0]), ss[1..], id)
  }

  /** All that the run publishes and the subscriber wants. */
  ghost function Sent(h: HubState, ss: seq<Step>, id: nat): seq<Event>
    requires CanRun(h, ss)
    decreases |ss|
  {
    if ss == [] || id !in h.subs then []
    else Wanted(h.subs[id], EventsOf(h, ss[0])) + Sent(Do(h, ss[0]), ss[1..], id)
  }

  /** Over every run a subscriber is still attached iff it never unsubscribed, the hub
      was never shut, and what it wants of each move fitted its buffer at the time;
      and then it has been sent all it wanted, in order. */
  lemma {:induction false} AttachedIff(h: HubState, ss: seq<Step>, id: nat)
    requires Bounded(h) && CanRun(h, ss) && id in h.subs
    ensures id in DoAll(h, ss).subs <==> KeptThroughout(h, ss, id)
    ensures id in DoAll(h, ss).subs ==> DoAll(h, ss).subs[id].Log() == h.subs[id].Log() + Sent(h, ss, id)
    decreases |ss|
  {
    hide DoAll, CanRun, KeptThroughout, Sent, Do, Enabled, EventsOf, Bounded, Fits, Wanted;
    if ss == [] {
      NothingSent(h, id);
    } else {
      RunFirst(h, ss, id);
      StepBounded(h, ss[0]);
      var next, rest := Do(h, ss[0]), ss[1..];
      if id in next.subs {
        AttachedIff(next, rest, id);
      } else {
        BelowNext(h, id);
        NextGrows(h, ss[0]);
        NeverBack(next, rest, id);
      }
      AttachedFirst(h, ss, id);
    }
  }

  lemma NothingSent(h: HubState, id: nat)
    requires id in h.subs
    ensures CanRun(h, []) && DoAll(h, []) == h && KeptThroughout(h, [], id)
    ensures h.subs[id].Log() == h.subs[id].Log() + Sent(h, [], id)
  {
    assert h.subs[id].Log() + [] == h.subs[id].Log();
  }

  lemma RunFirst(h: HubState, ss: seq<Step>, id: nat)
    requires CanRun(h, ss) && ss != [] && id in h.subs
    ensures Enabled(h, ss[0]) && CanRun(Do(h, ss[0]), ss[1..]) && DoAll(h, ss) == DoAll(Do(h, ss[0]), ss[1..])
    ensures Sent(h, ss, id) == Wanted(h.subs[id], EventsOf(h, ss[0])) + Sent(Do(h, ss[0]), ss[1..], id)
  {
    hide Do, Enabled, EventsOf, Wanted;
  }

  lemma AttachedFirst(h: HubState, ss: seq<Step>, id: nat)
    requires Bounded(h) && CanRun(h, ss) && ss != [] && id in h.subs
    requires Enabled(h, ss[0]) && CanRun(Do(h, ss[0]), ss[1..])
    requires var next, last := Do(h, ss[0]), DoAll(Do(h, ss[0]), ss[1..]);
             if id in next.subs then
               && (id in last.subs <==> KeptThroughout(next, ss[1..], id))
               && (id in last.subs ==> last.subs[id].Log() == next.subs[id].Log() + Sent(next, ss[1..], id))
             else id !in last.subs
    ensures id in DoAll(h, ss).subs <==> KeptThroughout(h, ss, id)
    ensures id in DoAll(h, ss).subs ==> DoAll(h, ss).subs[id].Log() == h.subs[id].Log() + Sent(h, ss, id)
  {
    hide DoAll, CanRun, KeptThroughout, Sent, Do, Enabled, EventsOf, Bounded, Fits, Wanted;
    RunFirst(h, ss, id);
    KeptFirst(h, ss, id);
    StaysAttachedIff(h, ss[0], id);
    var a, b := h.subs[id].Log(), Wanted(h.subs[id], EventsOf(h, ss[0]));
    var c := Sent(Do(h, ss[0]), ss[1..], id);
    assert (a + b) + c == a + (b + c);
  }

  lemma KeptFirst(h: HubState, ss: seq<Step>, id: nat)
    requires CanRun(h, ss) && ss != [] && id in h.subs
    ensures KeptThroughout(h, ss, id) <==>
              && ss[0] != Unsubscribed(id) && !ss[0].ShutDown? && Fits(h.subs[id], EventsOf(h, ss[0]))
              && KeptThroughout(Do(h, ss[0]), ss[1..], id)
  {
  }

  lemma BelowNext(h: HubState, id: nat)
    requires Bounded(h) && id in h.subs
    ensures id < h.nextSub
  {
  }

  lemma NextGrows(h: HubState, s: Step)
    requires Enabled(h, s)
    ensures h.nextSub <= Do(h, s).nextSub
  {
    if s.Saw? || s.Deleted? || s.Resynced? {
      StepPublishes(h, s);
    }
  }

  lemma {:induction false} NeverBack(h: HubState, ss: seq<Step>, id: nat)
    requires Bounded(h) && CanRun(h, ss) && id !in h.subs && id < h.nextSub
    ensures id !in DoAll(h, ss).subs
    decreases |ss|
  {
    if ss != [] {
      JoinsIff(h, ss[0], id);
      StepBounded(h, ss[0]);
      NextGrows(h, ss[0]);
      hide Do, Enabled, Bounded;
      NeverBack(Do(h, ss[0]), ss[1..], id);
    }
  }

  /** A hub that is shut never changes again. */
  lemma {:induction false} ShutIsFinal(h: HubState, ss: seq<Step>)
    requires Bounded(h) && h.closed && CanRun(h, ss)
    ensures DoAll(h, ss) == h
    decreases |ss|
  {
    if ss != [] {
      ShutStays(h, ss[0]);
      hide Do, Enabled;
      ShutIsFinal(h, ss[1..]);
    }
  }

  /** Shutting the hub ends every subscription, for good. */
  lemma ShutForGood(h: HubState, ss: seq<Step>)
    requires Bounded(h) && CanRun(Do(h, ShutDown), ss)
    ensures var shut := Do(h, ShutDown);
            shut.closed && shut.subs == map[] && DoAll(shut, ss) == shut
  {
    StepBounded(h, ShutDown);
    ShutIsFinal(Do(h, ShutDown), ss);
  }

  lemma ShutStays(h: HubState, s: Step)
    requires Bounded(h) && h.closed && Enabled(h, s)
    ensures Do(h, s) == h
  {
    if s.Resynced? {
      ObserveAllShut(h, s.items);
      ForgetAllShut(h, s.missing);
    }
  }

  lemma {:induction false} ObserveAllShut(h: HubState, items: seq<Item>)
    requires h.closed
    ensures ObserveAll(h, items) == h
  {
    if items != [] {
      ObserveAllShut(h, items[..|items| - 1]);
    }
  }

  lemma {:induction false} ForgetAllShut(h: HubState, names: seq<string>)
    requires h.closed
    ensures ForgetAll(h, names) == h
  {
    if names != [] {
      ForgetAllShut(h, names[..|names| - 1]);
    }
  }
}
