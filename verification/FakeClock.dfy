/**
 The clock that moves only when it is told to, and the timers pending on it.

 A timer is named by the number it was made with. Its channel holds one value,
 so the channels together are a map from timers to the value waiting.
 */
module TimerQueue {

  datatype Armed = Armed(id: nat, when: int, order: nat)

  /** Deadline order, ties broken by arming order. */
  predicate Earlier(a: Armed, b: Armed) {
    a.when < b.when || (a.when == b.when && a.order < b.order)
  }

  ghost predicate InOrder(ts: seq<Armed>) {
    forall i, j :: 0 <= i < j < |ts| ==> Earlier(ts[i], ts[j])
  }

  ghost predicate Distinct(ts: seq<Armed>) {
    forall i, j :: 0 <= i < j < |ts| ==> ts[i].id != ts[j].id && ts[i].order < ts[j].order
  }

  /** The active timers are the pending ones, once each and in arming order. */
  ghost predicate Listed(ts: seq<Armed>, active: set<nat>, order: nat, made: nat) {
    && Distinct(ts)
    && (forall i :: 0 <= i < |ts| ==> ts[i].order <= order && ts[i].id in active)
    && (forall id :: id in active ==> id < made && exists i :: 0 <= i < |ts| && ts[i].id == id)
  }

  function Drop(ts: seq<Armed>, i: nat): seq<Armed>
    requires i < |ts|
  {
    ts[..i] + ts[i + 1..]
  }

  lemma DropMembers(ts: seq<Armed>, i: nat)
    requires i < |ts| && Distinct(ts)
    ensures forall a :: a in Drop(ts, i) <==> a in ts && a.id != ts[i].id
    ensures forall a :: a in ts <==> a in Drop(ts, i) || a == ts[i]
  {
    forall a
      ensures a in Drop(ts, i) <==> a in ts && a.id != ts[i].id
      ensures a in ts <==> a in Drop(ts, i) || a == ts[i]
    {
      assert ts == ts[..i] + [ts[i]] + ts[i + 1..];
    }
  }

  lemma DropAt(ts: seq<Armed>, i: nat, j: nat)
    requires i < |ts| && j < |ts| - 1
    ensures |Drop(ts, i)| == |ts| - 1 && Drop(ts, i)[j] == if j < i then ts[j] else ts[j + 1]
  {
  }

  lemma DropDistinct(ts: seq<Armed>, i: nat)
    requires i < |ts| && Distinct(ts)
    ensures Distinct(Drop(ts, i))
  {
    forall j, k | 0 <= j < k < |Drop(ts, i)|
      ensures Drop(ts, i)[j].id != Drop(ts, i)[k].id && Drop(ts, i)[j].order < Drop(ts, i)[k].order
    {
      DropAt(ts, i, j);
      DropAt(ts, i, k);
    }
  }

  lemma DropListed(ts: seq<Armed>, i: nat, active: set<nat>, order: nat, made: nat)
    requires i < |ts| && Listed(ts, active, order, made)
    ensures Listed(Drop(ts, i), active - {ts[i].id}, order, made)
  {
    DropDistinct(ts, i);
    DropMembers(ts, i);
    var less := Drop(ts, i);
    hide Drop, Distinct;
    forall j | 0 <= j < |less|
      ensures less[j].order <= order && less[j].id in active - {ts[i].id}
    {
      assert less[j] in less;
    }
    forall other | other in active - {ts[i].id}
      ensures exists j :: 0 <= j < |less| && less[j].id == other
    {
      var j :| 0 <= j < |ts| && ts[j].id == other;
      assert ts[j] in less;
    }
  }

  lemma ListedMember(ts: seq<Armed>, a: Armed, active: set<nat>, order: nat, made: nat)
    requires Listed(ts, active, order, made) && a in ts
    ensures a.id in active && a.id < made
  {
  }

  lemma DropNamed(ts: seq<Armed>, i: nat, a: Armed)
    requires Distinct(ts) && i < |ts| && a in ts && ts[i].id == a.id
    ensures ts[i] == a && |Drop(ts, i)| == |ts| - 1 && Distinct(Drop(ts, i))
    ensures forall b :: b in Drop(ts, i) ==> b in ts && b.id != a.id
  {
    DropDistinct(ts, i);
    DropMembers(ts, i);
  }

  /** What moving to `t` ought to fire: every timer due by then and no other, earliest first. */
  ghost predicate Fires(ts: seq<Armed>, t: int, fired: seq<Armed>) {
    InOrder(fired) && forall a :: a in fired <==> a in ts && a.when <= t
  }

  function Later(ts: seq<Armed>, t: int): seq<Armed> {
    if ts == [] then []
    else if ts[0].when > t then [ts[0]] + Later(ts[1..], t)
    else Later(ts[1..], t)
  }

  lemma {:induction false} LaterMembers(ts: seq<Armed>, t: int, a: Armed)
    ensures a in Later(ts, t) <==> a in ts && a.when > t
  {
    if ts != [] {
      LaterMembers(ts[1..], t, a);
      assert ts == [ts[0]] + ts[1..];
    }
  }

  lemma {:induction false} LaterOfLate(ts: seq<Armed>, t: int)
    requires forall i :: 0 <= i < |ts| ==> ts[i].when > t
    ensures Later(ts, t) == ts
  {
    if ts != [] {
      LaterOfLate(ts[1..], t);
      assert ts == [ts[0]] + ts[1..];
    }
  }

  lemma {:induction false} LaterDropsDue(ts: seq<Armed>, i: nat, t: int)
    requires i < |ts| && ts[i].when <= t
    ensures Later(Drop(ts, i), t) == Later(ts, t)
  {
    if i == 0 {
      assert ts[..0] + ts[1..] == ts[1..];
    } else {
      var less := Drop(ts, i);
      assert less[0] == ts[0] && less[1..] == Drop(ts[1..], i - 1);
      LaterDropsDue(ts[1..], i - 1, t);
    }
  }

  lemma {:induction false} LaterTwice(ts: seq<Armed>, t: int, t': int)
    requires t <= t'
    ensures Later(Later(ts, t), t') == Later(ts, t')
  {
    if ts != [] {
      LaterTwice(ts[1..], t, t');
      var rest := Later(ts[1..], t);
      assert ([ts[0]] + rest)[1..] == rest;
    }
  }

  /** Part of the way to `t`: what fired came first, what is left is still pending. */
  ghost predicate Progress(before: seq<Armed>, left: seq<Armed>, t: int, fired: seq<Armed>) {
    && InOrder(fired) && Later(left, t) == Later(before, t)
    && (forall a :: a in before <==> a in left || a in fired)
    && (forall a :: a in fired ==> a.when <= t)
    && (forall a, b :: a in fired && b in left ==> Earlier(a, b))
  }

  lemma NotAfter(a: Armed, b: Armed)
    requires Earlier(a, b)
    ensures a.when <= b.when
  {
  }

  lemma LateIsLater(a: Armed, b: Armed, t: int)
    requires a.when <= t < b.when
    ensures Earlier(a, b)
  {
  }

  lemma FiringProgresses(before: seq<Armed>, left: seq<Armed>, t: int, fired: seq<Armed>, i: nat)
    requires Progress(before, left, t, fired) && Distinct(left) && i < |left| && left[i].when <= t
    requires forall a :: a in left && a.when <= t && a != left[i] ==> Earlier(left[i], a)
    ensures Progress(before, Drop(left, i), t, fired + [left[i]])
    ensures fired != [] ==> fired[|fired| - 1].when <= left[i].when
  {
    var next, more, less := left[i], fired + [left[i]], Drop(left, i);
    DropMembers(left, i);
    LaterDropsDue(left, i, t);
    hide Later, Drop, Earlier, Distinct, InOrder;
    assert next in left;
    if fired != [] {
      NotAfter(fired[|fired| - 1], next);
    }
    forall a, b | a in more && b in less
      ensures Earlier(a, b)
    {
      assert b in left && b != next;
      if b.when > t {
        LateIsLater(a, b, t);
      }
    }
    OrderGoesOn(fired, next);
  }

  lemma OrderGoesOn(fired: seq<Armed>, next: Armed)
    requires InOrder(fired) && forall a :: a in fired ==> Earlier(a, next)
    ensures InOrder(fired + [next])
  {
    var more := fired + [next];
    forall j, k | 0 <= j < k < |more|
      ensures Earlier(more[j], more[k])
    {
      assert more[j] in fired;
    }
  }

  lemma NoProgress(before: seq<Armed>, t: int)
    ensures Progress(before, before, t, [])
  {
  }

  lemma ProgressMade(before: seq<Armed>, left: seq<Armed>, t: int, fired: seq<Armed>)
    requires Progress(before, left, t, fired) && forall a :: a in left ==> a.when > t
    ensures Fires(before, t, fired) && left == Later(before, t)
  {
    LaterOfLate(left, t);
  }

  ghost function Ids(ts: seq<Armed>): set<nat> {
    set a | a in ts :: a.id
  }

  /** Every timer that fired left its own deadline on its channel; no other
      channel changed, and those of the timers left are empty. */
  ghost predicate Delivered(before: map<nat, int>, slots: map<nat, int>, fired: seq<Armed>, left: seq<Armed>,
                            made: nat) {
    && (forall a :: a in fired ==> a.id in slots && slots[a.id] == a.when)
    && (forall id :: id in before ==> id in slots && slots[id] == before[id])
    && slots.Keys == before.Keys + Ids(fired)
    && (forall a :: a in left ==> a.id !in slots)
    && (forall id :: id in slots ==> id < made)
  }

  lemma DeliverNext(before: map<nat, int>, slots: map<nat, int>, fired: seq<Armed>, left: seq<Armed>, made: nat,
                    next: Armed, less: seq<Armed>)
    requires Delivered(before, slots, fired, left, made) && next in left && next.id < made
    requires forall b :: b in less ==> b in left && b.id != next.id
    ensures next.id !in slots
    ensures Delivered(before, slots[next.id := next.when], fired + [next], less, made)
  {
    assert Ids(fired + [next]) == Ids(fired) + {next.id};
  }

  lemma DeliveredIsClean(before: map<nat, int>, slots: map<nat, int>, fired: seq<Armed>, left: seq<Armed>, made: nat)
    requires Delivered(before, slots, fired, left, made)
    ensures forall a :: a in left ==> a.id !in slots
    ensures forall id :: id in slots ==> id < made
  {
  }

  lemma DueByThen(ts: seq<Armed>, t: int, fired: seq<Armed>)
    requires Fires(ts, t, fired)
    ensures fired != [] ==> fired[|fired| - 1].when <= t
  {
    if fired != [] {
      assert fired[|fired| - 1] in fired;
    }
  }

  ghost predicate Saw(seen: seq<int>, fired: seq<Armed>) {
    |seen| == |fired| && forall i :: 0 <= i < |fired| ==> seen[i] == fired[i].when
  }

  lemma SawNone()
    ensures Saw([], [])
  {
  }

  lemma SawNext(seen: seq<int>, fired: seq<Armed>, next: Armed)
    requires Saw(seen, fired)
    ensures Saw(seen + [next.when], fired + [next])
  {
  }

  lemma SameEarliest(a: seq<Armed>, b: seq<Armed>)
    requires InOrder(a) && InOrder(b) && forall x :: x in a <==> x in b
    ensures |a| == 0 <==> |b| == 0
    ensures |a| > 0 && |b| > 0 ==> a[0] == b[0]
  {
    if |a| > 0 {
      assert a[0] in b;
    }
    if |b| > 0 {
      assert b[0] in a;
    }
  }

  lemma {:induction false} OrderIsUnique(a: seq<Armed>, b: seq<Armed>)
    requires InOrder(a) && InOrder(b) && forall x :: x in a <==> x in b
    ensures a == b
  {
    SameEarliest(a, b);
    if |a| > 0 {
      forall x
        ensures x in a[1..] <==> x in b[1..]
      {
        assert x in a <==> x == a[0] || x in a[1..];
        assert x in b <==> x == b[0] || x in b[1..];
      }
      OrderIsUnique(a[1..], b[1..]);
      assert a == [a[0]] + a[1..] && b == [b[0]] + b[1..];
    }
  }

  /** What fires, and in which order, is settled by the pending timers alone. */
  lemma FiringIsDetermined(ts: seq<Armed>, t: int, fired: seq<Armed>, other: seq<Armed>)
    requires Fires(ts, t, fired) && Fires(ts, t, other)
    ensures fired == other
  {
    OrderIsUnique(fired, other);
  }

  /** Moving in two steps fires what moving in one does, in the same order, and
      leaves the same timers pending. */
  lemma StopoverChangesNothing(ts: seq<Armed>, t: int, t': int, first: seq<Armed>, second: seq<Armed>,
                               whole: seq<Armed>)
    requires t <= t'
    requires Fires(ts, t, first) && Fires(Later(ts, t), t', second) && Fires(ts, t', whole)
    ensures whole == first + second
    ensures Later(Later(ts, t), t') == Later(ts, t')
  {
    LaterTwice(ts, t, t');
    var both := first + second;
    forall a
      ensures a in both <==> a in ts && a.when <= t'
    {
      LaterMembers(ts, t, a);
    }
    forall i, j | 0 <= i < j < |both|
      ensures Earlier(both[i], both[j])
    {
      if i < |first| <= j {
        assert both[i] in first && both[j] in second;
        LaterMembers(ts, t, both[j]);
      }
    }
    FiringIsDetermined(ts, t', whole, both);
  }
}

module FakeClock {
  import opened Basics
  import opened TimerQueue

  class Fake {
    var now: int
    var timers: seq<Armed>
    var order: nat
    var active: set<nat>
    var slots: map<nat, int>
    var made: nat

    /** Every pending deadline is strictly after Now, and no pending timer has a
        value waiting, so a timer that fires is never dropped. */
    ghost predicate Valid()
      reads this
    {
      && Listed(timers, active, order, made)
      && (forall a :: a in timers ==> now < a.when && a.id !in slots)
      && (forall id :: id in slots ==> id < made)
    }

    constructor (start: int)
      ensures Valid() && now == start && timers == [] && slots == map[] && made == 0
    {
      now, timers, order, active, slots, made := start, [], 0, {}, map[], 0;
    }

    /** A value already waiting is left in place. */
    method Fire(id: nat, at: int)
      modifies `slots
      ensures slots == if id in old(slots) then old(slots) else old(slots)[id := at]
    {
      if id !in slots {
        slots := slots[id := at];
      }
    }

    /** A receive on the timer's channel, when it does not block. */
    method Receive(id: nat) returns (v: Option<int>)
      requires Valid()
      modifies `slots
      ensures Valid() && slots == old(slots) - {id}
      ensures v == if id in old(slots) then Some(old(slots)[id]) else None
    {
      v := if id in slots then Some(slots[id]) else None;
      slots := slots - {id};
    }

    method Arm(id: nat, d: int)
      requires Valid() && id < made && id !in active && id !in slots
      modifies `timers, `order, `active, `slots
      ensures Valid() && order == old(order) + 1
      ensures d <= 0 ==> timers == old(timers) && active == old(active) && slots == old(slots)[id := now]
      ensures d > 0 ==> timers == old(timers) + [Armed(id, now + d, order)] && slots == old(slots)
    {
      order := order + 1;
      if d <= 0 {
        Fire(id, now);
        return;
      }
      ghost var was := timers;
      active := active + {id};
      timers := timers + [Armed(id, now + d, order)];
      assert timers[|was|].id == id;
      assert forall i :: 0 <= i < |was| ==> timers[i] == was[i];
    }

    method NewTimer(d: int) returns (id: nat)
      requires Valid()
      modifies this
      ensures Valid() && now == old(now) && id == old(made) && made == old(made) + 1
      ensures d <= 0 ==> timers == old(timers) && slots == old(slots)[id := now]
      ensures d > 0 ==> timers == old(timers) + [Armed(id, now + d, order)] && slots == old(slots)
    {
      id := made;
      made := made + 1;
      Arm(id, d);
    }

    method Remove(id: nat) returns (was: bool, ghost at: nat)
      requires Listed(timers, active, order, made)
      modifies `timers, `active
      ensures Listed(timers, active, order, made)
      ensures was == (id in old(active)) && active == old(active) - {id}
      ensures !was ==> timers == old(timers)
      ensures was ==> at < |old(timers)| && old(timers)[at].id == id && timers == Drop(old(timers), at)
    {
      if id !in active {
        return false, 0;
      }
      ghost var there :| 0 <= there < |timers| && timers[there].id == id;
      active := active - {id};
      hide Listed;
      var i := 0;
      while timers[i].id != id
        invariant 0 <= i <= there < |timers| && timers == old(timers)
        decreases |timers| - i
      {
        i := i + 1;
      }
      DropListed(timers, i, old(active), order, made);
      timers := timers[..i] + timers[i + 1..];
      return true, i;
    }

    /** Stopping a timer leaves every other one as it was. */
    method Stop(id: nat) returns (was: bool)
      requires Valid()
      modifies `timers, `active
      ensures Valid() && was == (id in old(active)) && id !in active
      ensures forall a :: a in timers <==> a in old(timers) && a.id != id
    {
      ghost var at;
      was, at := Remove(id);
      if was {
        DropMembers(old(timers), at);
        hide Drop;
      }
    }

    /** Resetting drains what an earlier firing left, so the next value received
        is the new deadline's. */
    method Reset(id: nat, d: int) returns (was: bool)
      requires Valid() && id < made
      modifies this
      ensures Valid() && was == (id in old(active)) && now == old(now) && made == old(made)
      ensures d <= 0 ==> id !in active && id in slots && slots[id] == now
      ensures d > 0 ==> id !in slots && Armed(id, now + d, order) in timers
      ensures forall a: Armed :: a.id != id ==> (a in timers <==> a in old(timers))
      ensures slots - {id} == old(slots) - {id}
    {
      was := Stop(id);
      slots := slots - {id};
      Arm(id, d);
    }

    /** The earliest pending timer due by `t`, ties broken by arming order. */
    method NextDue(t: int) returns (best: Option<Armed>)
      requires Distinct(timers)
      ensures best.None? ==> forall a :: a in timers ==> a.when > t
      ensures best.Some? ==> best.value in timers && best.value.when <= t
      ensures best.Some? ==> forall a :: a in timers && a.when <= t && a != best.value ==> Earlier(best.value, a)
    {
      best := None;
      var i := 0;
      while i < |timers|
        invariant 0 <= i <= |timers|
        invariant best.None? ==> forall a :: a in timers[..i] ==> a.when > t
        invariant best.Some? ==> best.value in timers[..i] && best.value.when <= t
        invariant best.Some? ==> forall a :: a in timers[..i] && a.when <= t && a != best.value ==> Earlier(best.value, a)
      {
        var tm := timers[i];
        assert timers[..i + 1] == timers[..i] + [tm];
        if tm.when <= t {
          if best.None? || tm.when < best.value.when || (tm.when == best.value.when && tm.order < best.value.order) {
            best := Some(tm);
          }
        }
        i := i + 1;
      }
      assert timers[..i] == timers;
    }

    /** One turn of the loop in Set: Now moves up to the deadline and the timer fires. */
    method FireNext(next: Armed) returns (ghost at: nat)
      requires Listed(timers, active, order, made) && Distinct(timers) && next in timers && next.id !in slots
      modifies `now, `timers, `active, `slots
      ensures Listed(timers, active, order, made) && Distinct(timers)
      ensures at < |old(timers)| && old(timers)[at] == next && timers == Drop(old(timers), at)
      ensures |timers| < |old(timers)| && forall b :: b in timers ==> b in old(timers) && b.id != next.id
      ensures now == (if next.when > old(now) then next.when else old(now)) && slots == old(slots)[next.id := now]
    {
      hide Drop, Distinct;
      if next.when > now {
        now := next.when;
      }
      ListedMember(timers, next, active, order, made);
      hide Listed;
      var _, i := Remove(next.id);
      at := i;
      DropNamed(old(timers), at, next);
      Fire(next.id, now);
    }

    /** The loop in Set. Now ends at the last deadline reached. */
    method FireDue(t: int) returns (fired: seq<Armed>, seen: seq<int>)
      requires Listed(timers, active, order, made) && Distinct(timers) && Delivered(slots, slots, [], timers, made)
      requires forall a :: a in timers ==> now < a.when
      modifies `now, `timers, `active, `slots
      ensures Listed(timers, active, order, made)
      ensures now == if fired == [] then old(now) else fired[|fired| - 1].when
      ensures Fires(old(timers), t, fired) && timers == Later(old(timers), t)
      ensures Saw(seen, fired) && Delivered(old(slots), slots, fired, timers, made)
    {
      hide Progress, Listed, Fires, Later, Drop, Earlier, Distinct, Delivered, Saw;
      fired, seen := [], [];
      NoProgress(timers, t);
      SawNone();
      while true
        invariant Listed(timers, active, order, made) && Distinct(timers) && Progress(old(timers), timers, t, fired)
        invariant now == if fired == [] then old(now) else fired[|fired| - 1].when
        invariant forall a :: a in timers ==> old(now) < a.when
        invariant Saw(seen, fired) && Delivered(old(slots), slots, fired, timers, made)
        decreases |timers|
      {
        var next := NextDue(t);
        if next.None? {
          break;
        }
        ListedMember(timers, next.value, active, order, made);
        DeliveredIsClean(old(slots), slots, fired, timers, made);
        ghost var left, held := timers, slots;
        ghost var at := FireNext(next.value);
        FiringProgresses(old(timers), left, t, fired, at);
        assert now == next.value.when;
        DeliverNext(old(slots), held, fired, left, made, next.value, timers);
        SawNext(seen, fired, next.value);
        fired, seen := fired + [next.value], seen + [now];
      }
      ProgressMade(old(timers), timers, t, fired);
    }

    /** Moves Now to `t`, firing what falls due on the way. `seen` is what Now was
        at each firing. */
    method Set(t: int) returns (fired: seq<Armed>, seen: seq<int>)
      requires Valid()
      modifies `now, `timers, `active, `slots
      ensures Valid() && now == if t > old(now) then t else old(now)
      ensures Fires(old(timers), t, fired) && timers == Later(old(timers), t)
      ensures Saw(seen, fired) && Delivered(old(slots), slots, fired, timers, made)
    {
      fired, seen := FireDue(t);
      DueByThen(old(timers), t, fired);
      forall a | a in timers
        ensures a.when > t && a in old(timers)
      {
        LaterMembers(old(timers), t, a);
      }
      if t > now {
        now := t;
      }
    }

    method Advance(d: int) returns (fired: seq<Armed>, seen: seq<int>)
      requires Valid()
      modifies `now, `timers, `active, `slots
      ensures Valid() && now == if d > 0 then old(now) + d else old(now)
      ensures Fires(old(timers), old(now) + d, fired) && timers == Later(old(timers), old(now) + d)
      ensures Saw(seen, fired) && Delivered(old(slots), slots, fired, timers, made)
    {
      var target := now + d;
      fired, seen := Set(target);
    }
  }
}
