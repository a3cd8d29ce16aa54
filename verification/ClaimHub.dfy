/**
 The claim backend's hub. A Pool's status carries a count and no MicroVMs, so
 the hub names stand-ins 1 to n for n available MicroVMs and publishes the
 events that take its subscribers from one count to the next.
 */
module Decimals {

  function Digit(d: nat): char
    requires d < 10
  {
    "0123456789"[d]
  }

  function Natural(n: nat): string {
    if n < 10 then [Digit(n)] else Natural(n / 10) + [Digit(n % 10)]
  }

  /** An integer as %d prints it. */
  function Decimal(n: int): string {
    if n < 0 then "-" + Natural(-n) else Natural(n)
  }

  lemma {:induction false} NaturalInjective(a: nat, b: nat)
    requires Natural(a) == Natural(b)
    ensures a == b
  {
    var s, t := Natural(a), Natural(b);
    assert s[|s| - 1] == Digit(a % 10) && t[|t| - 1] == Digit(b % 10);
    NaturalNonEmpty(a / 10);
    NaturalNonEmpty(b / 10);
    if a >= 10 && b >= 10 {
      assert s[..|s| - 1] == Natural(a / 10) && t[..|t| - 1] == Natural(b / 10);
      NaturalInjective(a / 10, b / 10);
    }
  }

  lemma {:induction false} NaturalNonEmpty(n: nat)
    ensures |Natural(n)| > 0 && '0' <= Natural(n)[0] <= '9'
  {
    if n >= 10 {
      NaturalNonEmpty(n / 10);
    }
  }

  lemma DecimalInjective(a: int, b: int)
    requires Decimal(a) == Decimal(b)
    ensures a == b
  {
    NaturalNonEmpty(if a < 0 then -a else a);
    NaturalNonEmpty(if b < 0 then -b else b);
    if a < 0 && b < 0 {
      assert Decimal(a)[1..] == Natural(-a) && Decimal(b)[1..] == Natural(-b);
      NaturalInjective(-a, -b);
    } else if a >= 0 && b >= 0 {
      NaturalInjective(a, b);
    }
  }
}

module ClaimHub {
  import opened Basics
  import opened UidCounts
  import opened Pools
  import opened Decimals

  const SUBSCRIBER_BUFFER := 1024

  /** What the hub last said about a Pool resource. */
  datatype Reported = Reported(ref: PoolRef, count: int, ready: bool)

  const Nothing := Reported(PoolRef("", ""), 0, false)

  /** One subscription: what it has received and what waits in its buffer. */
  datatype Stream = Stream(filter: Option<PoolRef>, received: seq<Event>, buffered: seq<Event>) {
    predicate Wants(ref: PoolRef) {
      filter.None? || filter.value == ref
    }

    function Log(): seq<Event> {
      received + buffered
    }
  }

  type Streams = map<nat, Stream>

  function StandIn(ref: PoolRef, i: int): Uid {
    ref.name + "/available-" + Decimal(i)
  }

  function Appears(ref: PoolRef, i: int): Event {
    Event(ref, StandIn(ref, i), Available)
  }

  function Withdrawn(ref: PoolRef, i: int): Event {
    Event(ref, StandIn(ref, i), DeletedOnRelease)
  }

  // ---------------------------------------------------------------- publishing

  /** A subscriber whose buffer is full is dropped. */
  predicate Survives(s: Stream, e: Event) {
    s.Wants(e.pool) ==> |s.buffered| < SUBSCRIBER_BUFFER
  }

  function Offer(s: Stream, e: Event): Stream {
    if s.Wants(e.pool) then s.(buffered := s.buffered + [e]) else s
  }

  function Publish(subs: Streams, e: Event): Streams {
    map id | id in subs && Survives(subs[id], e) :: Offer(subs[id], e)
  }

  function PublishAll(subs: Streams, es: seq<Event>): Streams {
    if es == [] then subs else Publish(PublishAll(subs, es[..|es| - 1]), es[|es| - 1])
  }

  /** Stand-ins from..to, ascending. */
  function Rise(ref: PoolRef, from: int, to: int): seq<Event>
    decreases (to - from)
  {
    if to <= from then [] else Rise(ref, from, to - 1) + [Appears(ref, to)]
  }

  /** Stand-ins from down to just above `to`. */
  function Fall(ref: PoolRef, from: int, to: int): seq<Event>
    decreases from - to
  {
    if from <= to then [] else Fall(ref, from, to + 1) + [Withdrawn(ref, to + 1)]
  }

  /** The events that take a Pool from what was last reported to `count`. */
  function MoveEvents(last: Reported, ref: PoolRef, count: int): seq<Event> {
    if last.ref != ref then Fall(last.ref, last.count, 0) + Rise(ref, 0, count) + Fall(ref, 0, count)
    else Rise(ref, last.count, count) + Fall(ref, last.count, count)
  }

  // ---------------------------------------------------------------- the hub

  datatype HubState = HubState(available: map<string, Reported>, subs: Streams, nextSub: nat, closed: bool)

  function LastOf(h: HubState, name: string): Reported {
    if name in h.available then h.available[name] else Nothing
  }

  function Observe(h: HubState, name: string, namespace: string, count: int, ready: bool): HubState {
    var ref := PoolRef(name, namespace);
    if h.closed then h
    else h.(available := h.available[name := Reported(ref, Max(count, 0), ready)],
            subs := PublishAll(h.subs, MoveEvents(LastOf(h, name), ref, count)))
  }

  function Forget(h: HubState, name: string): HubState {
    if h.closed || name !in h.available then h
    else h.(available := h.available - {name},
            subs := PublishAll(h.subs, MoveEvents(h.available[name], h.available[name].ref, 0)))
  }

  /** The Pools available now, as a new subscriber is told of them; `order` is
      the order the hub's table happens to be read in. */
  function Replay(available: map<string, Reported>, order: seq<string>, filter: Option<PoolRef>): seq<Event>
    requires forall n :: n in order ==> n in available
  {
    if order == [] then []
    else
      var n := |order| - 1;
      var last := available[order[n]];
      Replay(available, order[..n], filter)
      + if filter.None? || filter.value == last.ref then Rise(last.ref, 0, last.count) else []
  }

  ghost predicate IsOrder(available: map<string, Reported>, order: seq<string>) {
    && (forall n :: n in order <==> n in available)
    && (forall i, j :: 0 <= i < j < |order| ==> order[i] != order[j])
  }

  function Clip(es: seq<Event>): seq<Event> {
    if |es| <= SUBSCRIBER_BUFFER then es else es[..SUBSCRIBER_BUFFER]
  }

  /** A closed hub refuses new subscribers. */
  function Subscribe(h: HubState, order: seq<string>, filter: Option<PoolRef>): HubState
    requires forall n :: n in order ==> n in h.available
  {
    if h.closed then h
    else h.(subs := h.subs[h.nextSub := Stream(filter, [], Clip(Replay(h.available, order, filter)))],
            nextSub := h.nextSub + 1)
  }

  /** The subscriber takes the oldest buffered event. */
  function Receive(h: HubState, id: nat): HubState {
    if id !in h.subs || h.subs[id].buffered == [] then h
    else
      var s := h.subs[id];
      h.(subs := h.subs[id := Stream(s.filter, s.received + [s.buffered[0]], s.buffered[1..])])
  }

  function Unsubscribe(h: HubState, id: nat): HubState {
    h.(subs := h.subs - {id})
  }

  function Shut(h: HubState): HubState {
    h.(subs := map[], closed := true)
  }

  /** A Pool as a list or a watch reports it. */
  datatype Item = Item(name: string, namespace: string, count: int, ready: bool)

  function AsReported(it: Item): Reported {
    Reported(PoolRef(it.name, it.namespace), Max(it.count, 0), it.ready)
  }

  function ObserveAll(h: HubState, items: seq<Item>): HubState {
    if items == [] then h
    else
      var it := items[|items| - 1];
      Observe(ObserveAll(h, items[..|items| - 1]), it.name, it.namespace, it.count, it.ready)
  }

  function ForgetAll(h: HubState, names: seq<string>): HubState {
    if names == [] then h else Forget(ForgetAll(h, names[..|names| - 1]), names[|names| - 1])
  }

  // ---------------------------------------------------------------- what a Tracker counts from a stream

  /** The available count of a Pool that starts empty and is fed a stream. */
  function Counted(es: seq<Event>, ref: PoolRef): Count {
    if es == [] then Empty
    else
      var c, e := Counted(es[..|es| - 1], ref), es[|es| - 1];
      if e.pool == ref then Apply(c, OpFor(Warm, e)) else c
  }

  function StandIns(ref: PoolRef, n: int): set<Uid> {
    set i | 1 <= i <= n :: StandIn(ref, i)
  }

  function CountFor(available: map<string, Reported>, ref: PoolRef): int {
    if ref.name in available && available[ref.name].ref == ref then available[ref.name].count else 0
  }

  lemma StandInInjective(ref: PoolRef, i: int, j: int)
    ensures StandIn(ref, i) != ""
    ensures StandIn(ref, i) == StandIn(ref, j) ==> i == j
  {
    var prefix := ref.name + "/available-";
    if StandIn(ref, i) == StandIn(ref, j) {
      assert StandIn(ref, i)[|prefix|..] == Decimal(i) && StandIn(ref, j)[|prefix|..] == Decimal(j);
      DecimalInjective(i, j);
    }
  }

  lemma {:induction false} CountedConcat(a: seq<Event>, b: seq<Event>, ref: PoolRef)
    requires b != []
    ensures Counted(a + b, ref) ==
            if b[|b| - 1].pool == ref then Apply(Counted(a + b[..|b| - 1], ref), OpFor(Warm, b[|b| - 1]))
            else Counted(a + b[..|b| - 1], ref)
  {
    assert (a + b)[..|a + b| - 1] == a + b[..|b| - 1];
  }

  ghost predicate Reads(es: seq<Event>, ref: PoolRef, n: int) {
    var c := Counted(es, ref);
    c.named == StandIns(ref, n) && c.unnamed == 0 && c.accounted == {}
  }

  lemma StandInsGrow(ref: PoolRef, n: int)
    requires n >= 0
    ensures StandIns(ref, n + 1) == StandIns(ref, n) + {StandIn(ref, n + 1)}
    ensures StandIn(ref, n + 1) !in StandIns(ref, n) && "" !in StandIns(ref, n)
  {
    forall i | 1 <= i <= n
      ensures StandIn(ref, i) != StandIn(ref, n + 1) && StandIn(ref, i) != ""
    {
      StandInInjective(ref, i, n + 1);
    }
    StandInInjective(ref, n + 1, n + 1);
  }

  lemma AppearReads(log: seq<Event>, ref: PoolRef, to: int)
    requires to > 0 && Reads(log, ref, to - 1)
    ensures Reads(log + [Appears(ref, to)], ref, to)
  {
    var more := log + [Appears(ref, to)];
    assert more[..|more| - 1] == log;
    assert Counted(more, ref) == Add(Counted(log, ref), StandIn(ref, to)) by {
      hide Add, StandIn, StandIns;
    }
    hide Counted, Add;
    AppearStep(ref, to);
  }

  lemma {:induction false} RiseReads(log: seq<Event>, ref: PoolRef, from: int, to: int)
    requires 0 <= from && Reads(log, ref, from)
    ensures Reads(log + Rise(ref, from, to), ref, Max(from, to))
    decreases (to - from)
  {
    if to <= from {
      assert log + Rise(ref, from, to) == log;
    } else {
      RiseReads(log, ref, from, to - 1);
      var before, last := Rise(ref, from, to - 1), Appears(ref, to);
      assert log + Rise(ref, from, to) == log + before + [last];
      hide Rise, Reads, Appears;
      AppearReads(log + before, ref, to);
    }
  }

  lemma AppearStep(ref: PoolRef, to: int)
    requires to > 0
    ensures Add(Count(StandIns(ref, to - 1), 0, {}), StandIn(ref, to)) == Count(StandIns(ref, to), 0, {})
  {
    StandInsGrow(ref, to - 1);
  }

  lemma WithdrawStep(ref: PoolRef, to: int)
    ensures Remove(Count(StandIns(ref, Max(to + 1, 0)), 0, {}), StandIn(ref, to + 1))
         == Count(StandIns(ref, Max(to, 0)), 0, {})
  {
    if to >= 0 {
      StandInsGrow(ref, to);
    } else {
      assert StandIns(ref, 0) == {};
    }
  }

  lemma WithdrawReads(log: seq<Event>, ref: PoolRef, to: int)
    requires Reads(log, ref, Max(to + 1, 0))
    ensures Reads(log + [Withdrawn(ref, to + 1)], ref, Max(to, 0))
  {
    var more := log + [Withdrawn(ref, to + 1)];
    assert more[..|more| - 1] == log;
    assert Counted(more, ref) == Remove(Counted(log, ref), StandIn(ref, to + 1)) by {
      hide Remove, StandIn, StandIns;
    }
    hide Counted, Remove;
    WithdrawStep(ref, to);
  }

  lemma {:induction false} FallReads(log: seq<Event>, ref: PoolRef, from: int, to: int)
    requires 0 <= from && Reads(log, ref, from)
    ensures Reads(log + Fall(ref, from, to), ref, if from <= to then from else Max(to, 0))
    decreases from - to
  {
    if from <= to {
      assert log + Fall(ref, from, to) == log;
    } else {
      FallReads(log, ref, from, to + 1);
      var before, last := Fall(ref, from, to + 1), Withdrawn(ref, to + 1);
      assert log + Fall(ref, from, to) == log + before + [last];
      hide Fall, Reads, Withdrawn;
      WithdrawReads(log + before, ref, to);
    }
  }

  ghost predicate AllOf(es: seq<Event>, ref: PoolRef) {
    forall e :: e in es ==> e.pool == ref && !e.CarriesCounts()
  }

  lemma {:induction false} RiseFallPool(ref: PoolRef, from: int, to: int)
    ensures AllOf(Rise(ref, from, to), ref) && AllOf(Fall(ref, from, to), ref)
    decreases if from < to then to - from else from - to
  {
    if from < to {
      RiseFallPool(ref, from, to - 1);
    } else if to < from {
      RiseFallPool(ref, from, to + 1);
    }
  }

  /** Events of other Pools change nothing. */
  lemma {:induction false} OthersIgnored(log: seq<Event>, es: seq<Event>, ref: PoolRef)
    requires forall e :: e in es ==> e.pool != ref
    ensures Counted(log + es, ref) == Counted(log, ref)
  {
    if es == [] {
      assert log + es == log;
    } else {
      OthersIgnored(log, es[..|es| - 1], ref);
      CountedConcat(log, es, ref);
      assert es[|es| - 1] in es;
    }
  }

  lemma MoveReads(log: seq<Event>, last: Reported, to: PoolRef, count: int, ref: PoolRef)
    requires last.count >= 0 && Reads(log, ref, if last.ref == ref then last.count else 0)
    ensures Reads(log + MoveEvents(last, to, count), ref, if to == ref then Max(count, 0) else 0)
  {
    hide Counted, StandIns, Rise, Fall;
    if last.ref == to {
      StayReads(log, to, last.count, count, ref);
    } else {
      var out := Fall(last.ref, last.count, 0);
      RiseFallPool(last.ref, last.count, 0);
      if last.ref == ref {
        FallReads(log, ref, last.count, 0);
      } else {
        OthersIgnored(log, out, ref);
      }
      StayReads(log + out, to, 0, count, ref);
      assert log + (out + Rise(to, 0, count) + Fall(to, 0, count))
          == log + out + (Rise(to, 0, count) + Fall(to, 0, count));
    }
  }

  lemma StayReads(log: seq<Event>, to: PoolRef, last: int, count: int, ref: PoolRef)
    requires last >= 0 && Reads(log, ref, if to == ref then last else 0)
    ensures Reads(log + (Rise(to, last, count) + Fall(to, last, count)), ref, if to == ref then Max(count, 0) else 0)
  {
    hide Counted, StandIns;
    var rise, fall := Rise(to, last, count), Fall(to, last, count);
    if to != ref {
      RiseFallPool(to, last, count);
      OthersIgnored(log, rise + fall, ref);
    } else if last <= count {
      RiseReads(log, ref, last, count);
      assert rise + fall == rise;
    } else {
      FallReads(log, ref, last, count);
      assert rise + fall == fall;
    }
  }

  // ---------------------------------------------------------------- agreement

  /** Every subscriber still attached has been told exactly the stand-ins of
      every Pool it wants. */
  ghost predicate Agrees(h: HubState) {
    && (forall id :: id in h.subs ==> id < h.nextSub)
    && (forall n :: n in h.available ==> h.available[n].count >= 0 && h.available[n].ref.name == n)
    && (forall id, ref :: id in h.subs && h.subs[id].Wants(ref) ==>
          Reads(h.subs[id].Log(), ref, CountFor(h.available, ref)))
    && (forall id :: id in h.subs ==> NoCounts(h.subs[id].Log()))
  }

  function Wanted(s: Stream, es: seq<Event>): seq<Event> {
    if es == [] then []
    else Wanted(s, es[..|es| - 1]) + if s.Wants(es[|es| - 1].pool) then [es[|es| - 1]] else []
  }

  lemma {:induction false} PublishedLog(subs: Streams, es: seq<Event>, id: nat)
    requires id in PublishAll(subs, es)
    ensures id in subs
    ensures PublishAll(subs, es)[id].filter == subs[id].filter
    ensures PublishAll(subs, es)[id].Log() == subs[id].Log() + Wanted(subs[id], es)
    ensures NoCounts(subs[id].Log()) && NoCounts(es) ==> NoCounts(PublishAll(subs, es)[id].Log())
  {
    if es == [] {
      assert subs[id].Log() + [] == subs[id].Log();
    } else {
      var n := |es| - 1;
      PublishedLog(subs, es[..n], id);
      var s := PublishAll(subs, es[..n])[id];
      if s.Wants(es[n].pool) {
        assert s.received + (s.buffered + [es[n]]) == s.Log() + [es[n]];
        assert PublishAll(subs, es)[id].Log() == s.Log() + [es[n]];
        assert s.Log() + [es[n]] == subs[id].Log() + (Wanted(subs[id], es[..n]) + [es[n]]);
      } else {
        assert Wanted(subs[id], es) == Wanted(subs[id], es[..n]);
      }
    }
  }

  lemma {:induction false} WantedReads(log: seq<Event>, s: Stream, es: seq<Event>, ref: PoolRef)
    requires s.Wants(ref)
    ensures Counted(log + Wanted(s, es), ref) == Counted(log + es, ref)
  {
    if es != [] {
      WantedReads(log, s, es[..|es| - 1], ref);
      CountedConcat(log, es, ref);
      var w := Wanted(s, es);
      if s.Wants(es[|es| - 1].pool) {
        CountedConcat(log, w, ref);
        assert w[..|w| - 1] == Wanted(s, es[..|es| - 1]);
      } else {
        assert w == Wanted(s, es[..|es| - 1]);
      }
    }
  }

  lemma MoveAgrees(h: HubState, name: string, to: PoolRef, count: int, id: nat, ref: PoolRef)
    requires Agrees(h) && to.name == name
    requires id in h.subs && h.subs[id].Wants(ref)
    requires id in PublishAll(h.subs, MoveEvents(LastOf(h, name), to, count))
    ensures var s := PublishAll(h.subs, MoveEvents(LastOf(h, name), to, count))[id];
            && s.filter == h.subs[id].filter && NoCounts(s.Log())
            && Reads(s.Log(), ref,
                     if to == ref then Max(count, 0)
                     else if ref.name == name then 0 else CountFor(h.available, ref))
  {
    var es := MoveEvents(LastOf(h, name), to, count);
    var log := h.subs[id].Log();
    MoveNoCounts(LastOf(h, name), to, count);
    PublishedLog(h.subs, es, id);
    WantedReads(log, h.subs[id], es, ref);
    hide MoveEvents, Counted, PublishAll;
    if ref.name == name {
      var last := LastOf(h, name);
      assert CountFor(h.available, ref) == if last.ref == ref then last.count else 0;
      MoveReads(log, last, to, count, ref);
    } else {
      MoveOthers(LastOf(h, name), name, to, count, ref);
      OthersIgnored(log, es, ref);
    }
  }

  lemma MoveNoCounts(last: Reported, to: PoolRef, count: int)
    ensures NoCounts(MoveEvents(last, to, count))
  {
    RiseFallPool(last.ref, last.count, 0);
    RiseFallPool(to, 0, count);
    RiseFallPool(to, last.count, count);
  }

  lemma MoveOthers(last: Reported, name: string, to: PoolRef, count: int, ref: PoolRef)
    requires last == Nothing || last.ref.name == name
    requires to.name == name && ref.name != name
    ensures forall e :: e in MoveEvents(last, to, count) ==> e.pool != ref
  {
    RiseFallPool(last.ref, last.count, 0);
    RiseFallPool(to, 0, count);
    RiseFallPool(to, last.count, count);
  }

  lemma ObserveAgrees(h: HubState, name: string, namespace: string, count: int, ready: bool)
    requires Agrees(h)
    ensures Agrees(Observe(h, name, namespace, count, ready))
  {
    var h' := Observe(h, name, namespace, count, ready);
    var to := PoolRef(name, namespace);
    if h.closed {
      return;
    }
    hide PublishAll, MoveEvents, Counted;
    forall id, ref | id in h'.subs && h'.subs[id].Wants(ref)
      ensures Reads(h'.subs[id].Log(), ref, CountFor(h'.available, ref))
    {
      PublishedLog(h.subs, MoveEvents(LastOf(h, name), to, count), id);
      MoveAgrees(h, name, to, count, id, ref);
    }
    forall id | id in h'.subs
      ensures id < h'.nextSub && NoCounts(h'.subs[id].Log())
    {
      MoveNoCounts(LastOf(h, name), to, count);
      PublishedLog(h.subs, MoveEvents(LastOf(h, name), to, count), id);
    }
  }

  lemma ForgetAgrees(h: HubState, name: string)
    requires Agrees(h)
    ensures Agrees(Forget(h, name))
  {
    if name in h.available && !h.closed {
      var h' := Forget(h, name);
      var to := h.available[name].ref;
      hide PublishAll, MoveEvents, Counted;
      forall id | id in h'.subs
        ensures id < h'.nextSub && NoCounts(h'.subs[id].Log())
        ensures forall ref :: h'.subs[id].Wants(ref) ==> Reads(h'.subs[id].Log(), ref, CountFor(h'.available, ref))
      {
        MoveNoCounts(LastOf(h, name), to, 0);
        PublishedLog(h.subs, MoveEvents(LastOf(h, name), to, 0), id);
        forall ref | h'.subs[id].Wants(ref)
          ensures Reads(h'.subs[id].Log(), ref, CountFor(h'.available, ref))
        {
          MoveAgrees(h, name, to, 0, id, ref);
        }
      }
    }
  }

  lemma OthersReplayed(before: seq<Event>, other: PoolRef, count: int, ref: PoolRef, n: int)
    requires other != ref && Reads(before, ref, n)
    ensures Reads(before + Rise(other, 0, count), ref, n)
  {
    RiseFallPool(other, 0, count);
    hide Rise, Counted, StandIns;
    OthersIgnored(before, Rise(other, 0, count), ref);
  }

  /** A new subscriber is told of exactly what is available. */
  lemma {:induction false} ReplayReads(h: HubState, order: seq<string>, filter: Option<PoolRef>, ref: PoolRef)
    requires Agrees(h) && (filter.None? || filter.value == ref)
    requires forall n :: n in order ==> n in h.available
    requires forall i, j :: 0 <= i < j < |order| ==> order[i] != order[j]
    ensures Reads(Replay(h.available, order, filter), ref,
                  if ref.name in order then CountFor(h.available, ref) else 0)
  {
    if order == [] {
      assert StandIns(ref, 0) == {};
    } else {
      var n := |order| - 1;
      var last, before := h.available[order[n]], Replay(h.available, order[..n], filter);
      var wanted := filter.None? || filter.value == last.ref;
      assert last.count >= 0;
      ReplayCount(h, order, ref);
      assert Replay(h.available, order, filter) == before + if wanted then Rise(last.ref, 0, last.count) else [];
      hide Counted, StandIns, Rise, Agrees, Reads, Replay, CountFor;
      ReplayReads(h, order[..n], filter, ref);
      ReplayOneMore(before, last, wanted, ref, if ref.name in order[..n] then CountFor(h.available, ref) else 0);
    }
  }

  /** What one more name in the order adds to what a PoolRef reads. */
  lemma ReplayCount(h: HubState, order: seq<string>, ref: PoolRef)
    requires Agrees(h) && order != []
    requires forall n :: n in order ==> n in h.available
    requires forall i, j :: 0 <= i < j < |order| ==> order[i] != order[j]
    ensures var n := |order| - 1;
            var last := h.available[order[n]];
            && (last.ref == ref ==> ref.name !in order[..n])
            && (if ref.name in order then CountFor(h.available, ref) else 0)
               == if last.ref == ref then last.count
                  else if ref.name in order[..n] then CountFor(h.available, ref) else 0
  {
    var n := |order| - 1;
    assert forall x :: x in order <==> x in order[..n] || x == order[n];
    assert order[n] !in order[..n];
    hide Reads;
  }

  lemma ReplayOneMore(before: seq<Event>, last: Reported, wanted: bool, ref: PoolRef, n: int)
    requires last.count >= 0 && Reads(before, ref, n) && (last.ref == ref ==> wanted && n == 0)
    ensures Reads(before + (if wanted then Rise(last.ref, 0, last.count) else []), ref,
                  if last.ref == ref then last.count else n)
  {
    hide Rise, Reads;
    if last.ref == ref {
      RiseReads(before, ref, 0, last.count);
    } else {
      OthersReplayed(before, last.ref, last.count, ref, n);
      assert before + [] == before;
    }
  }

  lemma {:induction false} RiseEvents(ref: PoolRef, from: int, to: int)
    ensures |Rise(ref, from, to)| == Max(to - from, 0)
    ensures forall k :: 0 <= k < |Rise(ref, from, to)| ==> Rise(ref, from, to)[k] == Appears(ref, from + 1 + k)
    decreases (to - from)
  {
    if from < to {
      hide Appears;
      RiseEvents(ref, from, to - 1);
    }
  }

  lemma RiseDistinct(ref: PoolRef, n: nat)
    ensures Distinct(Rise(ref, 0, n))
    ensures forall e :: e in Rise(ref, 0, n) ==> e.pool == ref && exists i :: 1 <= i <= n && e == Appears(ref, i)
  {
    var rise := Rise(ref, 0, n);
    RiseEvents(ref, 0, n);
    hide Rise, StandIn;
    forall i, j | 0 <= i < j < |rise|
      ensures rise[i] != rise[j]
    {
      StandInInjective(ref, i + 1, j + 1);
      assert rise[i] == Appears(ref, i + 1) && rise[j] == Appears(ref, j + 1);
    }
    forall e | e in rise
      ensures e.pool == ref && exists i :: 1 <= i <= n && e == Appears(ref, i)
    {
      var k :| 0 <= k < |rise| && rise[k] == e;
      assert e == Appears(ref, k + 1);
    }
  }

  ghost predicate Distinct(es: seq<Event>) {
    forall i, j :: 0 <= i < j < |es| ==> es[i] != es[j]
  }

  lemma {:induction false} ReplayEvents(h: HubState, order: seq<string>, filter: Option<PoolRef>)
    requires Agrees(h)
    requires forall n :: n in order ==> n in h.available
    requires forall i, j :: 0 <= i < j < |order| ==> order[i] != order[j]
    ensures Distinct(Replay(h.available, order, filter))
    ensures forall e :: e in Replay(h.available, order, filter) ==>
              && e.pool.name in order && h.available[e.pool.name].ref == e.pool
              && (filter.None? || filter.value == e.pool)
              && exists i :: 1 <= i <= h.available[e.pool.name].count && e == Appears(e.pool, i)
  {
    if order != [] {
      var n := |order| - 1;
      ReplayEvents(h, order[..n], filter);
      var last := h.available[order[n]];
      var before, rise := Replay(h.available, order[..n], filter), Rise(last.ref, 0, last.count);
      assert order[n] !in order[..n];
      RiseDistinct(last.ref, last.count);
      hide Appears, Rise;
      forall i, j | 0 <= i < |before| && 0 <= j < |rise|
        ensures before[i] != rise[j]
      {
        assert before[i] in before && rise[j] in rise;
      }
    }
  }

  lemma {:induction false} NamedAppeared(es: seq<Event>, ref: PoolRef, u: Uid)
    requires u in Counted(es, ref).named
    ensures Event(ref, u, Available) in es
  {
    if es != [] {
      var n := |es| - 1;
      var c := Counted(es[..n], ref);
      if u in c.named {
        NamedAppeared(es[..n], ref, u);
      }
      NamedStep(c, OpFor(Warm, es[n]));
      assert es[n] in es;
    }
  }

  lemma FittingReplayAgrees(h: HubState, order: seq<string>, filter: Option<PoolRef>)
    requires Agrees(h) && !h.closed && IsOrder(h.available, order)
    requires |Replay(h.available, order, filter)| <= SUBSCRIBER_BUFFER
    ensures Agrees(Subscribe(h, order, filter))
  {
    var h', r := Subscribe(h, order, filter), Replay(h.available, order, filter);
    ReplayEvents(h, order, filter);
    assert h'.subs[h.nextSub].Log() == r && NoCounts(r);
    var s := Stream(filter, [], r);
    assert h' == h.(subs := h.subs[h.nextSub := s], nextSub := h.nextSub + 1);
    hide Replay, Subscribe, Reads, CountFor, Agrees;
    forall ref | s.Wants(ref)
      ensures Reads(s.Log(), ref, CountFor(h.available, ref))
    {
      ReplayReads(h, order, filter, ref);
      if ref.name !in order {
        CountForOutside(h.available, order, ref);
      }
    }
    JoinAgrees(h, h', s);
  }

  lemma CountForOutside(available: map<string, Reported>, order: seq<string>, ref: PoolRef)
    requires IsOrder(available, order) && ref.name !in order
    ensures CountFor(available, ref) == 0
  {
  }

  lemma JoinAgrees(h: HubState, h': HubState, s: Stream)
    requires Agrees(h) && h' == h.(subs := h.subs[h.nextSub := s], nextSub := h.nextSub + 1)
    requires NoCounts(s.Log()) && forall ref :: s.Wants(ref) ==> Reads(s.Log(), ref, CountFor(h.available, ref))
    ensures Agrees(h')
  {
    hide Reads, CountFor, NoCounts;
    forall id, ref | id in h'.subs && h'.subs[id].Wants(ref)
      ensures Reads(h'.subs[id].Log(), ref, CountFor(h'.available, ref))
    {
      if id != h.nextSub {
        assert h'.subs[id] == h.subs[id];
      }
    }
  }

  lemma ClippedReplayDisagrees(h: HubState, order: seq<string>, filter: Option<PoolRef>)
    requires Agrees(h) && !h.closed && IsOrder(h.available, order)
    requires |Replay(h.available, order, filter)| > SUBSCRIBER_BUFFER
    ensures !Agrees(Subscribe(h, order, filter))
  {
    var h', r := Subscribe(h, order, filter), Replay(h.available, order, filter);
    var s, e := h'.subs[h.nextSub], r[SUBSCRIBER_BUFFER];
    ReplayEvents(h, order, filter);
    assert e in r;
    assert s.Log() == r[..SUBSCRIBER_BUFFER];
    assert e !in s.Log();
    assert e.uid in StandIns(e.pool, CountFor(h.available, e.pool));
    hide Counted, Replay, StandIns, Appears;
    if e.uid in Counted(s.Log(), e.pool).named {
      NamedAppeared(s.Log(), e.pool, e.uid);
    }
    assert s.Wants(e.pool) && !Reads(s.Log(), e.pool, CountFor(h'.available, e.pool));
  }

  /** A new subscriber agrees with the hub exactly when its replay fits its
      buffer; everything else stays as it was. */
  lemma SubscribeAgreesIffFits(h: HubState, order: seq<string>, filter: Option<PoolRef>)
    requires Agrees(h) && !h.closed && IsOrder(h.available, order)
    ensures Agrees(Subscribe(h, order, filter))
       <==> |Replay(h.available, order, filter)| <= SUBSCRIBER_BUFFER
  {
    hide Agrees, Subscribe;
    if |Replay(h.available, order, filter)| <= SUBSCRIBER_BUFFER {
      FittingReplayAgrees(h, order, filter);
    } else {
      ClippedReplayDisagrees(h, order, filter);
    }
  }

  /** One Pool with more MicroVMs than the buffer holds is enough. */
  lemma TooManyAreClipped(name: string, namespace: string, count: int, ready: bool)
    requires count > SUBSCRIBER_BUFFER
    ensures var h := Observe(NewHub, name, namespace, count, ready);
            Agrees(h) && name in h.available && !Agrees(Subscribe(h, [name], None))
  {
    var h := Observe(NewHub, name, namespace, count, ready);
    assert Agrees(NewHub);
    ObserveAgrees(NewHub, name, namespace, count, ready);
    assert h.available == map[name := Reported(PoolRef(name, namespace), count, ready)] && !h.closed;
    assert IsOrder(h.available, [name]);
    hide Observe, Agrees, Subscribe, Rise;
    ReplayOfOne(h.available, name);
    RiseEvents(PoolRef(name, namespace), 0, count);
    SubscribeAgreesIffFits(h, [name], None);
  }

  lemma ReplayOfOne(available: map<string, Reported>, name: string)
    requires name in available
    ensures Replay(available, [name], None) == Rise(available[name].ref, 0, available[name].count)
  {
    hide Rise;
    assert [name][..0] == [] && Replay(available, [name][..0], None) == [];
  }

  // ---------------------------------------------------------------- runs

  datatype Step =
    | Saw(item: Item)
    | Deleted(name: string)
    | Resynced(items: seq<Item>, missing: seq<string>)
    | Subscribed(order: seq<string>, filter: Option<PoolRef>)
    | Received(id: nat)
    | Unsubscribed(id: nat)
    | ShutDown

  /** A resync ends the Pools its list does not have; a subscriber's replay fits
      its buffer. */
  ghost predicate Enabled(h: HubState, s: Step) {
    match s
    case Resynced(items, missing) => IsMissing(ObserveAll(h, items), items, missing)
    case Subscribed(order, filter) =>
      IsOrder(h.available, order) && |Replay(h.available, order, filter)| <= SUBSCRIBER_BUFFER
    case _ => true
  }

  ghost predicate IsMissing(h: HubState, items: seq<Item>, missing: seq<string>) {
    forall n :: n in missing <==> n in h.available && forall it :: it in items ==> it.name != n
  }

  ghost function Do(h: HubState, s: Step): HubState
    requires Enabled(h, s)
  {
    match s
    case Saw(it) => Observe(h, it.name, it.namespace, it.count, it.ready)
    case Deleted(name) => Forget(h, name)
    case Resynced(items, missing) => ForgetAll(ObserveAll(h, items), missing)
    case Subscribed(order, filter) => Subscribe(h, order, filter)
    case Received(id) => Receive(h, id)
    case Unsubscribed(id) => Unsubscribe(h, id)
    case ShutDown => Shut(h)
  }

  lemma {:induction false} ObserveAllAgrees(h: HubState, items: seq<Item>)
    requires Agrees(h)
    ensures Agrees(ObserveAll(h, items))
  {
    if items != [] {
      hide Agrees, Observe;
      var n := |items| - 1;
      ObserveAllAgrees(h, items[..n]);
      ObserveAgrees(ObserveAll(h, items[..n]), items[n].name, items[n].namespace, items[n].count, items[n].ready);
    }
  }

  lemma {:induction false} ForgetAllAgrees(h: HubState, names: seq<string>)
    requires Agrees(h)
    ensures Agrees(ForgetAll(h, names))
  {
    if names != [] {
      hide Agrees, Forget;
      ForgetAllAgrees(h, names[..|names| - 1]);
      ForgetAgrees(ForgetAll(h, names[..|names| - 1]), names[|names| - 1]);
    }
  }

  lemma StepAgrees(h: HubState, s: Step)
    requires Agrees(h) && Enabled(h, s)
    ensures Agrees(Do(h, s))
  {
    match s
    case Saw(it) => ObserveAgrees(h, it.name, it.namespace, it.count, it.ready);
    case Deleted(name) => ForgetAgrees(h, name);
    case Resynced(items, missing) =>
      ObserveAllAgrees(h, items);
      ForgetAllAgrees(ObserveAll(h, items), missing);
    case Subscribed(order, filter) =>
      if !h.closed {
        SubscribeAgreesIffFits(h, order, filter);
      }
    case Received(id) =>
      if id in h.subs && h.subs[id].buffered != [] {
        var q := h.subs[id];
        assert q.received + [q.buffered[0]] + q.buffered[1..] == q.Log();
      }
    case Unsubscribed(id) =>
    case ShutDown =>
  }

  ghost predicate CanRun(h: HubState, ss: seq<Step>)
    decreases |ss|
  {
    ss == [] || (Enabled(h, ss[0]) && CanRun(Do(h, ss[0]), ss[1..]))
  }

  ghost function DoAll(h: HubState, ss: seq<Step>): HubState
    requires CanRun(h, ss)
    decreases |ss|
  {
    if ss == [] then h else DoAll(Do(h, ss[0]), ss[1..])
  }

  const NewHub := HubState(map[], map[], 0, false)

  lemma {:induction false} RunAgrees(h: HubState, ss: seq<Step>)
    requires Agrees(h) && CanRun(h, ss)
    ensures Agrees(DoAll(h, ss))
    decreases |ss|
  {
    if ss != [] {
      hide Agrees, Do;
      StepAgrees(h, ss[0]);
      RunAgrees(Do(h, ss[0]), ss[1..]);
    }
  }

  function OnlyOf(es: seq<Event>, ref: PoolRef): seq<Event> {
    if es == [] then []
    else OnlyOf(es[..|es| - 1], ref) + if es[|es| - 1].pool == ref then [es[|es| - 1]] else []
  }

  lemma EventShows(p: Pool, e: Event)
    requires p.declared && !p.exhausted
    ensures ApplyEvent(p, e).declared && !ApplyEvent(p, e).exhausted
  {
    hide Add, Leave, Remove, Rebaseline, Takes, Adds, Indebts;
  }

  /** The Tracker's Pool, fed the events of its own PoolRef, keeps what
      `Counted` says as its available count and shows it. */
  lemma {:induction false} PoolCounts(p: Pool, es: seq<Event>, ref: PoolRef)
    requires p.available == Empty && p.declared && !p.exhausted && NoCounts(es)
    ensures var q := RunEvents(p, OnlyOf(es, ref));
            q.available == Counted(es, ref) && q.declared && !q.exhausted
  {
    if es != [] {
      hide ApplyEvent, Apply, OpFor;
      var n := |es| - 1;
      PoolCounts(p, es[..n], ref);
      assert es[n] in es;
      if es[n].pool == ref {
        var fed := OnlyOf(es, ref);
        assert fed[..|fed| - 1] == OnlyOf(es[..n], ref);
        EventProjects(RunEvents(p, OnlyOf(es[..n], ref)), es[n], Warm);
        EventShows(RunEvents(p, OnlyOf(es[..n], ref)), es[n]);
      } else {
        assert OnlyOf(es, ref) == OnlyOf(es[..n], ref);
      }
    }
  }

  lemma {:induction false} StandInsSize(ref: PoolRef, n: nat)
    ensures |StandIns(ref, n)| == n
  {
    if n == 0 {
      assert StandIns(ref, 0) == {};
    } else {
      StandInsSize(ref, n - 1);
      StandInsGrow(ref, n - 1);
    }
  }

  /** Hub and Tracker agree: whatever the hub has seen and in whatever order, a
      Pool fed the stream of a subscriber that is still attached shows the count
      the hub last reported under its PoolRef. */
  lemma {:induction false} HubAndTrackerAgree(ss: seq<Step>, id: nat, ref: PoolRef, p: Pool)
    requires CanRun(NewHub, ss)
    requires id in DoAll(NewHub, ss).subs && DoAll(NewHub, ss).subs[id].Wants(ref)
    requires p.available == Empty && p.declared && !p.exhausted
    ensures var h := DoAll(NewHub, ss);
            var q := RunEvents(p, OnlyOf(h.subs[id].Log(), ref));
            && q.available.named == StandIns(ref, CountFor(h.available, ref))
            && q.Visible() == CountFor(h.available, ref)
  {
    RunAgrees(NewHub, ss);
    var h := DoAll(NewHub, ss);
    hide DoAll, CanRun, Counted, RunEvents, StandIns;
    PoolCounts(p, h.subs[id].Log(), ref);
    StandInsSize(ref, CountFor(h.available, ref));
  }

  /** After a resync the hub's table is the list: its Pools and no others. */
  lemma {:induction false} ResyncMatchesList(h: HubState, items: seq<Item>, missing: seq<string>)
    requires !h.closed && IsMissing(ObserveAll(h, items), items, missing)
    requires forall i, j :: 0 <= i < j < |items| ==> items[i].name != items[j].name
    ensures var t := ForgetAll(ObserveAll(h, items), missing).available;
            && (forall n :: n in t <==> exists it :: it in items && it.name == n)
            && (forall it :: it in items ==> t[it.name] == AsReported(it))
  {
    hide PublishAll, MoveEvents;
    ObservedTable(h, items);
    ForgetTable(ObserveAll(h, items), missing);
  }

  lemma {:induction false} ObservedTable(h: HubState, items: seq<Item>)
    requires !h.closed
    requires forall i, j :: 0 <= i < j < |items| ==> items[i].name != items[j].name
    ensures !ObserveAll(h, items).closed
    ensures forall it :: it in items ==>
              && it.name in ObserveAll(h, items).available
              && ObserveAll(h, items).available[it.name] == AsReported(it)
  {
    if items != [] {
      hide PublishAll, MoveEvents, LastOf;
      var n := |items| - 1;
      ObservedTable(h, items[..n]);
      forall it | it in items[..n]
        ensures it.name != items[n].name
      {
        var k :| 0 <= k < n && items[k] == it;
      }
    }
  }

  lemma {:induction false} ForgetTable(h: HubState, names: seq<string>)
    requires !h.closed
    ensures !ForgetAll(h, names).closed
    ensures ForgetAll(h, names).available == h.available - (set n | n in names)
  {
    if names == [] {
      assert h.available - (set n | n in names) == h.available;
    } else {
      hide PublishAll, MoveEvents;
      var n := |names| - 1;
      ForgetTable(h, names[..n]);
      assert (set x | x in names) == (set x | x in names[..n]) + {names[n]};
    }
  }

  // ---------------------------------------------------------------- the object

  lemma {:induction false} PublishConcat(subs: Streams, a: seq<Event>, b: seq<Event>)
    ensures PublishAll(subs, a + b) == PublishAll(PublishAll(subs, a), b)
  {
    if b == [] {
      assert a + b == a;
    } else {
      hide Publish;
      var n := |b| - 1;
      PublishConcat(subs, a, b[..n]);
      assert (a + b)[..|a + b| - 1] == a + b[..n];
    }
  }

  lemma PublishNothing(subs: Streams)
    ensures PublishAll(subs, []) == subs
  {
  }

  lemma PublishNext(subs: Streams, es: seq<Event>, e: Event)
    ensures PublishAll(subs, es + [e]) == Publish(PublishAll(subs, es), e)
  {
    assert (es + [e])[..|es + [e]| - 1] == es;
  }

  lemma OfferLog(s: Stream, e: Event)
    ensures Offer(s, e).Log() == s.Log() + if s.Wants(e.pool) then [e] else []
  {
    assert s.received + (s.buffered + [e]) == s.Log() + [e];
    assert s.Log() + [] == s.Log();
  }

  class Hub {
    var available: map<string, Reported>
    var subs: Streams
    var nextSub: nat
    var closed: bool

    ghost function Value(): HubState
      reads this
    {
      HubState(available, subs, nextSub, closed)
    }

    constructor ()
      ensures Value() == NewHub
    {
      available, subs, nextSub, closed := map[], map[], 0, false;
    }

    method PublishLocked(e: Event)
      modifies this`subs
      ensures subs == Publish(old(subs), e)
      ensures forall id :: id in subs <==>
                id in old(subs) && (old(subs)[id].Wants(e.pool) ==> |old(subs)[id].buffered| < SUBSCRIBER_BUFFER)
      ensures forall id :: id in subs ==>
                subs[id].Log() == old(subs)[id].Log() + if old(subs)[id].Wants(e.pool) then [e] else []
    {
      var rest := subs.Keys;
      while rest != {}
        invariant rest <= old(subs).Keys
        invariant forall id :: id in subs <==> id in old(subs) && (id in rest || Survives(old(subs)[id], e))
        invariant forall id :: id in subs ==>
                    subs[id] == if id in rest then old(subs)[id] else Offer(old(subs)[id], e)
        decreases rest
      {
        var id :| id in rest;
        rest := rest - {id};
        var s := subs[id];
        if s.Wants(e.pool) {
          if |s.buffered| < SUBSCRIBER_BUFFER {
            subs := subs[id := s.(buffered := s.buffered + [e])];
          } else {
            subs := subs - {id};
          }
        }
      }
      forall id | id in subs
        ensures subs[id].Log() == old(subs)[id].Log() + if old(subs)[id].Wants(e.pool) then [e] else []
      {
        OfferLog(old(subs)[id], e);
      }
    }

    method RiseLocked(ref: PoolRef, from: int, count: int)
      modifies this`subs
      ensures subs == PublishAll(old(subs), Rise(ref, from, count))
    {
      hide Publish, PublishAll, Appears;
      var i := from + 1;
      PublishNothing(subs);
      while i <= count
        invariant i <= Max(from, count) + 1
        invariant subs == PublishAll(old(subs), Rise(ref, from, i - 1))
      {
        PublishLocked(Appears(ref, i));
        PublishNext(old(subs), Rise(ref, from, i - 1), Appears(ref, i));
        i := i + 1;
      }
    }

    method FallLocked(ref: PoolRef, from: int, count: int)
      modifies this`subs
      ensures subs == PublishAll(old(subs), Fall(ref, from, count))
    {
      hide Publish, PublishAll;
      var i := from;
      PublishNothing(subs);
      while i > count
        invariant i <= from && (i == from || count <= i)
        invariant subs == PublishAll(old(subs), Fall(ref, from, i))
      {
        PublishLocked(Withdrawn(ref, i));
        PublishNext(old(subs), Fall(ref, from, i), Withdrawn(ref, i));
        i := i - 1;
      }
    }

    method MoveLocked(name: string, ref: PoolRef, count: int)
      modifies this`subs, this`available
      ensures subs == PublishAll(old(subs), MoveEvents(LastOf(old(Value()), name), ref, count))
      ensures available == old(available)[name := Reported(ref, Max(count, 0), false)]
    {
      hide PublishAll, Rise, Fall;
      var last := if name in available then available[name] else Nothing;
      if last.ref != ref {
        FallLocked(last.ref, last.count, 0);
        PublishConcat(old(subs), Fall(last.ref, last.count, 0), Rise(ref, 0, count));
        PublishConcat(old(subs), Fall(last.ref, last.count, 0) + Rise(ref, 0, count), Fall(ref, 0, count));
        last := Reported(ref, 0, false);
      }
      PublishConcat(old(subs), Rise(ref, last.count, count), Fall(ref, last.count, count));
      RiseLocked(ref, last.count, count);
      FallLocked(ref, last.count, count);
      available := available[name := Reported(ref, Max(count, 0), false)];
    }

    method ObservePool(it: Item)
      modifies this`subs, this`available
      ensures Value() == Observe(old(Value()), it.name, it.namespace, it.count, it.ready)
    {
      hide PublishAll, MoveEvents;
      if closed {
        return;
      }
      MoveLocked(it.name, PoolRef(it.name, it.namespace), it.count);
      available := available[it.name := available[it.name].(ready := it.ready)];
    }

    method GonePool(name: string)
      modifies this`subs, this`available
      ensures Value() == Forget(old(Value()), name)
    {
      hide PublishAll, MoveEvents;
      if closed || name !in available {
        return;
      }
      MoveLocked(name, available[name].ref, 0);
      available := available - {name};
    }
  }
}
