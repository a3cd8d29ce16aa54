/**
 The live set of Host connections, reloaded while Jobs hold leases on them.

 A connection is named by its place among all those ever dialled. `closes` counts
 the calls to Close on each, and `tokens` are the release functions handed out and
 not yet called. A reload takes the lock twice: Begin is everything before the
 second hold, Publish is the second hold, and any other step can come between.
 */
module RegistryCore {
  import opened Basics

  /** `terms` stands for the address, token and TLS material. */
  datatype Endpoint = Endpoint(name: string, terms: string)

  datatype Entry = Entry(ep: Endpoint, leases: int, retired: bool, closed: bool)

  type Hosts = map<string, nat>

  datatype Reg = Reg(entries: seq<Entry>, hosts: Hosts, retired: seq<nat>, closed: bool,
                     closes: multiset<nat>, tokens: map<nat, nat>, issued: nat)

  predicate Releasable(e: Entry) {
    e.retired && !e.closed && e.leases <= 0
  }

  ghost predicate NoDuplicates(ids: seq<nat>) {
    forall i, j :: 0 <= i < j < |ids| ==> ids[i] != ids[j]
  }

  function Forget(ids: seq<nat>, id: nat): seq<nat> {
    if ids == [] then [] else if ids[0] == id then ids[1..] else [ids[0]] + Forget(ids[1..], id)
  }

  // ---------------------------------------------------------------- leases

  function Lease(r: Reg, name: string): Reg
    requires name in r.hosts ==> r.hosts[name] < |r.entries|
  {
    if name !in r.hosts then r
    else
      var id := r.hosts[name];
      var e := r.entries[id];
      r.(entries := r.entries[id := e.(leases := e.leases + 1)],
         tokens := r.tokens[r.issued := id], issued := r.issued + 1)
  }

  /** One holder lets go; a retired connection goes with its last holder. */
  function LetGo(r: Reg, id: nat): Reg
    requires id < |r.entries|
  {
    var e := r.entries[id].(leases := r.entries[id].leases - 1);
    if Releasable(e) then
      r.(entries := r.entries[id := e.(closed := true)], retired := Forget(r.retired, id),
         closes := r.closes + multiset{id})
    else r.(entries := r.entries[id := e])
  }

  /** A release function acts once. */
  function Release(r: Reg, token: nat): Reg
    requires token in r.tokens ==> r.tokens[token] < |r.entries|
  {
    if token !in r.tokens then r
    else LetGo(r.(tokens := r.tokens - {token}), r.tokens[token])
  }

  // ---------------------------------------------------------------- reloading

  datatype Outcome = Ready | BadName | DialFailed

  datatype Scan = Scan(entries: seq<Entry>, next: Hosts, outcome: Outcome)

  predicate NeedsDial(entries: seq<Entry>, current: Hosts, ep: Endpoint)
    requires ep.name in current ==> current[ep.name] < |entries|
  {
    !(ep.name in current && entries[current[ep.name]].ep == ep)
  }

  predicate Within(current: Hosts, n: nat) {
    forall name :: name in current ==> current[name] < n
  }

  /** The endpoints in order from the `i`th, up to the first that stops the reload.
      `dials[i]` says whether dialling the `i`th would succeed. */
  function ScanFrom(entries: seq<Entry>, current: Hosts, next: Hosts, eps: seq<Endpoint>, dials: seq<bool>,
                    i: nat): Scan
    requires Within(current, |entries|) && i <= |eps| == |dials|
    decreases |eps| - i
  {
    if i == |eps| then Scan(entries, next, Ready)
    else if eps[i].name == "" || eps[i].name in next then Scan(entries, next, BadName)
    else if !NeedsDial(entries, current, eps[i]) then
      ScanFrom(entries, current, next[eps[i].name := current[eps[i].name]], eps, dials, i + 1)
    else if !dials[i] then Scan(entries, next, DialFailed)
    else
      ScanFrom(entries + [Entry(eps[i], 0, false, false)], current, next[eps[i].name := |entries|],
               eps, dials, i + 1)
  }

  /** The connections a new live set takes the place of. */
  function Superseded(current: Hosts, next: Hosts): set<nat> {
    set name | name in current && !(name in next && next[name] == current[name]) :: current[name]
  }

  function RetireOne(r: Reg, id: nat): Reg
    requires id < |r.entries|
  {
    var e := r.entries[id].(retired := true);
    if Releasable(e) then
      r.(entries := r.entries[id := e.(closed := true)], closes := r.closes + multiset{id})
    else r.(entries := r.entries[id := e], retired := r.retired + [id])
  }

  ghost predicate AllWithin(ids: seq<nat>, n: nat) {
    forall i :: 0 <= i < |ids| ==> ids[i] < n
  }

  ghost function RetireAll(r: Reg, ids: seq<nat>): (r': Reg)
    requires AllWithin(ids, |r.entries|)
    ensures |r'.entries| == |r.entries|
  {
    if ids == [] then r
    else RetireOne(RetireAll(r, ids[..|ids| - 1]), ids[|ids| - 1])
  }

  function ShutOne(r: Reg, id: nat): Reg
    requires id < |r.entries|
  {
    if r.entries[id].closed then r
    else r.(entries := r.entries[id := r.entries[id].(closed := true)], closes := r.closes + multiset{id})
  }

  ghost function ShutAll(r: Reg, ids: seq<nat>): (r': Reg)
    requires AllWithin(ids, |r.entries|)
    ensures |r'.entries| == |r.entries|
  {
    if ids == [] then r
    else ShutOne(ShutAll(r, ids[..|ids| - 1]), ids[|ids| - 1])
  }

  // What retiring and shutting a list of connections comes to.

  predicate Unheld(e: Entry) {
    !e.closed && e.leases <= 0
  }

  function RetiredEntry(e: Entry): Entry {
    e.(retired := true, closed := e.closed || e.leases <= 0)
  }

  function Bit(b: bool): nat {
    if b then 1 else 0
  }

  ghost predicate SameOutside(r: Reg, r': Reg) {
    |r'.entries| == |r.entries| && r'.hosts == r.hosts && r'.closed == r.closed && r'.tokens == r.tokens
    && r'.issued == r.issued
  }

  /** What has become of one connection once those in `ids` are retired. */
  ghost predicate RetiredAt(r: Reg, ids: seq<nat>, r': Reg, id: nat) {
    id < |r.entries| == |r'.entries| ==>
      && r'.entries[id] == (if id in ids then RetiredEntry(r.entries[id]) else r.entries[id])
      && r'.closes[id] == r.closes[id] + Bit(id in ids && Unheld(r.entries[id]))
      && (id in r'.retired <==> id in r.retired || (id in ids && !Unheld(r.entries[id])))
  }

  lemma RetireOneAt(r: Reg, last: nat, id: nat)
    requires last < |r.entries|
    ensures SameOutside(r, RetireOne(r, last)) && RetiredAt(r, [last], RetireOne(r, last), id)
  {
  }

  lemma RetireOneMore(r: Reg, front: seq<nat>, r1: Reg, last: nat, r2: Reg, id: nat)
    requires last < |r.entries| == |r1.entries| == |r2.entries| && last !in front
    requires RetiredAt(r, front, r1, id) && RetiredAt(r, front, r1, last) && RetiredAt(r1, [last], r2, id)
    ensures RetiredAt(r, front + [last], r2, id)
  {
    hide RetiredEntry, Unheld;
    assert id in front + [last] <==> id in front || id == last;
  }

  lemma {:induction false} RetireAllForm(r: Reg, ids: seq<nat>, id: nat)
    requires AllWithin(ids, |r.entries|) && NoDuplicates(ids)
    ensures SameOutside(r, RetireAll(r, ids)) && RetiredAt(r, ids, RetireAll(r, ids), id)
  {
    if ids != [] {
      var front, last := ids[..|ids| - 1], ids[|ids| - 1];
      assert ids == front + [last] && last !in front;
      RetireAllForm(r, front, id);
      RetireAllForm(r, front, last);
      hide RetiredAt, RetireOne, NoDuplicates;
      var r1 := RetireAll(r, front);
      RetireOneAt(r1, last, id);
      RetireOneMore(r, front, r1, last, RetireOne(r1, last), id);
    }
  }

  lemma {:induction false} RetireAllDistinct(r: Reg, ids: seq<nat>)
    requires AllWithin(ids, |r.entries|) && NoDuplicates(ids) && NoDuplicates(r.retired)
    requires forall id :: id in ids ==> id !in r.retired
    ensures NoDuplicates(RetireAll(r, ids).retired)
    ensures forall id :: id in RetireAll(r, ids).retired ==> id in r.retired || id in ids
  {
    if ids != [] {
      var front, last := ids[..|ids| - 1], ids[|ids| - 1];
      assert ids == front + [last];
      assert last !in front;
      RetireAllDistinct(r, front);
    }
  }

  ghost predicate ShutAt(r: Reg, ids: seq<nat>, r': Reg, id: nat) {
    id < |r.entries| == |r'.entries| ==>
      && r'.entries[id] == (if id in ids then r.entries[id].(closed := true) else r.entries[id])
      && r'.closes[id] == r.closes[id] + Bit(id in ids && !r.entries[id].closed)
  }

  lemma ShutOneAt(r: Reg, last: nat, id: nat)
    requires last < |r.entries|
    ensures SameOutside(r, ShutOne(r, last)) && ShutOne(r, last).retired == r.retired
    ensures ShutAt(r, [last], ShutOne(r, last), id)
  {
  }

  lemma ShutOneMore(r: Reg, front: seq<nat>, r1: Reg, last: nat, r2: Reg, id: nat)
    requires last < |r.entries| == |r1.entries| == |r2.entries| && last !in front
    requires ShutAt(r, front, r1, id) && ShutAt(r, front, r1, last) && ShutAt(r1, [last], r2, id)
    ensures ShutAt(r, front + [last], r2, id)
  {
    assert id in front + [last] <==> id in front || id == last;
  }

  lemma {:induction false} ShutAllForm(r: Reg, ids: seq<nat>, id: nat)
    requires AllWithin(ids, |r.entries|) && NoDuplicates(ids)
    ensures SameOutside(r, ShutAll(r, ids)) && ShutAll(r, ids).retired == r.retired
    ensures ShutAt(r, ids, ShutAll(r, ids), id)
  {
    if ids != [] {
      var front, last := ids[..|ids| - 1], ids[|ids| - 1];
      assert ids == front + [last] && last !in front;
      ShutAllForm(r, front, id);
      ShutAllForm(r, front, last);
      hide ShutAt, ShutOne, NoDuplicates;
      var r1 := ShutAll(r, front);
      ShutOneAt(r1, last, id);
      ShutOneMore(r, front, r1, last, ShutOne(r1, last), id);
    }
  }
}

/**
 Every run of the Registry's steps.
 */
module RegistryRuns {
  import opened Basics
  import opened RegistryCore

  /** A reload between its two holds of the lock: the live set it copied, the one
      it built, and the first connection it dialled. */
  datatype Draft = Draft(current: Hosts, next: Hosts, base: nat)

  datatype Sys = Sys(r: Reg, draft: Option<Draft>, leaked: set<nat>)

  datatype Step =
    | Begin(eps: seq<Endpoint>, dials: seq<bool>)
    | Publish(order: seq<nat>)
    | TakeLease(name: string)
    | GiveBack(token: nat)
    | Close(order: seq<nat>)

  function Range(lo: nat, hi: nat): seq<nat>
    requires lo <= hi
    decreases hi - lo
  {
    if lo == hi then [] else [lo] + Range(lo + 1, hi)
  }

  ghost predicate Lists(order: seq<nat>, ids: set<nat>) {
    NoDuplicates(order) && forall id :: id in order <==> id in ids
  }

  ghost predicate Can(s: Sys, a: Step) {
    match a
    case Begin(eps, dials) => s.draft.None? && |eps| == |dials|
    case Publish(order) => s.draft.Some? && Lists(order, Superseded(s.draft.value.current, s.draft.value.next))
    case TakeLease(_) => true
    case GiveBack(_) => true
    case Close(order) => Lists(order, Open(s.r))
  }

  /** What Close goes over: the live connections and the retired ones. */
  function Open(r: Reg): set<nat> {
    (set name | name in r.hosts :: r.hosts[name]) + (set id | id in r.retired)
  }

  function AfterScan(s: Sys, x: Scan): Sys
    requires |s.r.entries| <= |x.entries|
  {
    var r, base := s.r.(entries := x.entries), |s.r.entries|;
    match x.outcome
    case Ready => Sys(r, Some(Draft(s.r.hosts, x.next, base)), s.leaked)
    case BadName => Sys(r, None, s.leaked + (set id | id in Range(base, |x.entries|)))
    case DialFailed => Sys(r.(closes := r.closes + multiset(Range(base, |x.entries|))), None, s.leaked)
  }

  ghost function Do(s: Sys, a: Step): Sys
    requires Inv(s) && Can(s, a)
  {
    match a
    case Begin(eps, dials) =>
      if s.r.closed then s
      else
        ScanKeeps(s.r.entries, s.r.hosts, map[], |s.r.entries|, eps, dials, 0);
        AfterScan(s, ScanFrom(s.r.entries, s.r.hosts, map[], eps, dials, 0))
    case Publish(order) =>
      var d := s.draft.value;
      if s.r.closed then
        Sys(s.r.(closes := s.r.closes + multiset(Range(d.base, |s.r.entries|))), None, s.leaked)
      else
        SupersededWithin(d.current, d.next, order, |s.r.entries|);
        Sys(RetireAll(s.r.(hosts := d.next), order), None, s.leaked)
    case TakeLease(name) => s.(r := Lease(s.r, name))
    case GiveBack(token) => s.(r := Release(s.r, token))
    case Close(order) =>
      if s.r.closed then s
      else
        OpenWithin(s, order);
        s.(r := ShutAll(s.r, order).(hosts := map[], retired := [], closed := true))
  }

  // ---------------------------------------------------------------- what every state keeps

  function Holders(tokens: map<nat, nat>, id: nat): set<nat> {
    set t | t in tokens && tokens[t] == id
  }

  /** All there is to know of one connection. */
  datatype View = View(e: Entry, live: bool, kept: bool, drafted: bool, leaked: bool, closes: nat, held: nat,
                       shut: bool)

  predicate IsLive(entries: seq<Entry>, hosts: Hosts, id: nat)
    requires id < |entries|
  {
    entries[id].ep.name in hosts && hosts[entries[id].ep.name] == id
  }

  function ViewOf(s: Sys, id: nat): View
    requires id < |s.r.entries|
  {
    View(s.r.entries[id], IsLive(s.r.entries, s.r.hosts, id), id in s.r.retired,
         s.draft.Some? && s.draft.value.base <= id, id in s.leaked, s.r.closes[id],
         |Holders(s.r.tokens, id)|, s.r.closed)
  }

  /** A connection is live, or retired and leased, or just dialled, or leaked, or
      closed: one of these, closed at most once, and never under a lease except by Close. */
  predicate Good(v: View) {
    && v.closes <= 1 && v.e.leases == v.held
    && Bit(v.live) + Bit(v.kept) + Bit(v.drafted) + Bit(v.leaked) + v.closes == 1
    && (v.live ==> !v.e.retired && !v.e.closed && !v.shut)
    && (v.kept ==> v.e.retired && !v.e.closed && v.e.leases > 0 && !v.shut)
    && (v.drafted || v.leaked ==> !v.e.retired && !v.e.closed && v.e.leases == 0)
    && (v.e.closed ==> v.closes == 1)
    && (v.closes == 1 && (v.e.leases > 0 || v.e.retired) ==> v.e.closed)
    && (v.closes == 1 && v.e.leases > 0 ==> v.shut)
  }

  ghost predicate Named(entries: seq<Entry>, hosts: Hosts) {
    forall name :: name in hosts ==> hosts[name] < |entries| && entries[hosts[name]].ep.name == name
  }

  /** What a reload has built so far, `base` being the first connection it dialled. */
  ghost predicate DraftOk(entries: seq<Entry>, current: Hosts, next: Hosts, base: nat) {
    && base <= |entries| && Named(entries, current) && Named(entries, next) && Within(current, base)
    && (forall name :: name in next && next[name] < base ==> name in current && current[name] == next[name])
    && (forall id :: base <= id < |entries| ==> IsLive(entries, next, id) && entries[id] == Entry(entries[id].ep, 0, false, false))
  }

  ghost predicate RegOk(r: Reg) {
    && Named(r.entries, r.hosts) && NoDuplicates(r.retired) && AllWithin(r.retired, |r.entries|)
    && (r.closed ==> r.hosts == map[] && r.retired == [])
    && (forall t :: t in r.tokens ==> t < r.issued && r.tokens[t] < |r.entries|)
    && (forall id :: id in r.closes ==> id < |r.entries|)
  }

  ghost predicate DraftFits(r: Reg, d: Draft) {
    DraftOk(r.entries, d.current, d.next, d.base) && (r.closed || r.hosts == d.current)
  }

  ghost predicate Structure(s: Sys) {
    && RegOk(s.r)
    && (forall id :: id in s.leaked ==> id < |s.r.entries|)
    && (s.draft.Some? ==> DraftFits(s.r, s.draft.value))
  }

  ghost predicate AllGood(s: Sys) {
    forall id :: 0 <= id < |s.r.entries| ==> Good(ViewOf(s, id))
  }

  ghost predicate Inv(s: Sys) {
    Structure(s) && AllGood(s)
  }

  lemma SupersededWithin(current: Hosts, next: Hosts, order: seq<nat>, n: nat)
    requires Within(current, n) && Lists(order, Superseded(current, next))
    ensures AllWithin(order, n)
  {
    forall i | 0 <= i < |order|
      ensures order[i] < n
    {
      assert order[i] in Superseded(current, next);
    }
  }

  lemma OpenWithin(s: Sys, order: seq<nat>)
    requires Structure(s) && Lists(order, Open(s.r))
    ensures AllWithin(order, |s.r.entries|)
  {
    forall i | 0 <= i < |order|
      ensures order[i] < |s.r.entries|
    {
      assert order[i] in Open(s.r);
    }
  }

  // ---------------------------------------------------------------- the scan

  lemma {:induction false} ScanKeeps(entries: seq<Entry>, current: Hosts, next: Hosts, base: nat,
                                     eps: seq<Endpoint>, dials: seq<bool>, i: nat)
    requires DraftOk(entries, current, next, base) && i <= |eps| == |dials| && Within(current, |entries|)
    ensures var x := ScanFrom(entries, current, next, eps, dials, i);
            entries <= x.entries && DraftOk(x.entries, current, x.next, base)
    decreases |eps| - i
  {
    if i < |eps| && eps[i].name != "" && eps[i].name !in next {
      DraftGrows(entries, current, next, base, eps[i]);
      hide DraftOk;
      if !NeedsDial(entries, current, eps[i]) {
        ScanKeeps(entries, current, next[eps[i].name := current[eps[i].name]], base, eps, dials, i + 1);
      } else if dials[i] {
        var more := entries + [Entry(eps[i], 0, false, false)];
        ScanKeeps(more, current, next[eps[i].name := |entries|], base, eps, dials, i + 1);
      }
    }
  }

  lemma ScanEnds(entries: seq<Entry>, current: Hosts, next: Hosts, eps: seq<Endpoint>, dials: seq<bool>)
    requires Within(current, |entries|) && |eps| == |dials|
    ensures ScanFrom(entries, current, next, eps, dials, |eps|) == Scan(entries, next, Ready)
  {
  }

  /** What the scan does at one endpoint. */
  lemma ScanStep(entries: seq<Entry>, current: Hosts, next: Hosts, eps: seq<Endpoint>, dials: seq<bool>, i: nat)
    requires Within(current, |entries|) && i < |eps| == |dials|
    ensures var ep, x := eps[i], ScanFrom(entries, current, next, eps, dials, i);
            var more := entries + [Entry(ep, 0, false, false)];
            if ep.name == "" || ep.name in next then x == Scan(entries, next, BadName)
            else if ep.name in current && entries[current[ep.name]].ep == ep then
              x == ScanFrom(entries, current, next[ep.name := current[ep.name]], eps, dials, i + 1)
            else if !dials[i] then x == Scan(entries, next, DialFailed)
            else Within(current, |more|) && x == ScanFrom(more, current, next[ep.name := |entries|], eps, dials, i + 1)
  {
  }

  lemma {:induction false} RangeOnce(lo: nat, hi: nat, id: nat)
    requires lo <= hi
    ensures multiset(Range(lo, hi))[id] == Bit(lo <= id < hi) && (id in Range(lo, hi) <==> lo <= id < hi)
    decreases hi - lo
  {
    if lo < hi {
      var rest := Range(lo + 1, hi);
      assert Range(lo, hi) == [lo] + rest;
      hide Range;
      RangeOnce(lo + 1, hi, id);
      OncePlus(lo, rest, id);
    }
  }

  lemma OncePlus(first: nat, rest: seq<nat>, id: nat)
    ensures multiset([first] + rest)[id] == Bit(first == id) + multiset(rest)[id]
    ensures id in [first] + rest <==> id == first || id in rest
  {
    assert multiset([first] + rest) == multiset{first} + multiset(rest);
  }

  // ---------------------------------------------------------------- leases

  lemma HoldersTaken(tokens: map<nat, nat>, t: nat, at: nat, id: nat)
    requires t !in tokens
    ensures |Holders(tokens[t := at], id)| == |Holders(tokens, id)| + Bit(at == id)
  {
    var h := Holders(tokens, id);
    assert Holders(tokens[t := at], id) == if at == id then h + {t} else h;
  }

  lemma HoldersGiven(tokens: map<nat, nat>, t: nat, id: nat)
    requires t in tokens
    ensures |Holders(tokens - {t}, id)| == |Holders(tokens, id)| - Bit(tokens[t] == id)
  {
    var h := Holders(tokens, id);
    assert Holders(tokens - {t}, id) == h - {t};
  }

  lemma {:induction false} ForgetMembers(ids: seq<nat>, id: nat, other: nat)
    requires NoDuplicates(ids)
    ensures other in Forget(ids, id) <==> other in ids && other != id
  {
    if ids != [] {
      assert ids == [ids[0]] + ids[1..];
      assert ids[0] !in ids[1..];
      if ids[0] != id {
        ForgetMembers(ids[1..], id, other);
      }
    }
  }

  lemma {:induction false} ForgetFirst(ids: seq<nat>, i: nat, id: nat)
    requires i < |ids| && ids[i] == id && forall j :: 0 <= j < i ==> ids[j] != id
    ensures Forget(ids, id) == ids[..i] + ids[i + 1..]
  {
    if i == 0 {
      assert ids[..0] + ids[1..] == ids[1..];
    } else {
      ForgetFirst(ids[1..], i - 1, id);
      assert [ids[0]] + (ids[1..][..i - 1] + ids[1..][i..]) == ids[..i] + ids[i + 1..];
    }
  }

  lemma {:induction false} ForgetNone(ids: seq<nat>, id: nat)
    requires forall j :: 0 <= j < |ids| ==> ids[j] != id
    ensures Forget(ids, id) == ids
  {
    if ids != [] {
      ForgetNone(ids[1..], id);
      assert [ids[0]] + ids[1..] == ids;
    }
  }

  lemma {:induction false} ForgetDistinct(ids: seq<nat>, id: nat)
    requires NoDuplicates(ids)
    ensures NoDuplicates(Forget(ids, id))
  {
    if ids != [] && ids[0] != id {
      ForgetDistinct(ids[1..], id);
      ForgetMembers(ids[1..], id, ids[0]);
      assert ids[0] !in ids[1..];
    }
  }

  /** The draft sees endpoints only, and connections dialled since `base` have no holders. */
  lemma DraftUntouched(entries: seq<Entry>, entries': seq<Entry>, d: Draft, id: nat)
    requires DraftOk(entries, d.current, d.next, d.base) && id < |entries| == |entries'|
    requires forall k :: 0 <= k < |entries| && k != id ==> entries'[k] == entries[k]
    requires entries'[id].ep == entries[id].ep && (id < d.base || entries'[id] == entries[id])
    ensures DraftOk(entries', d.current, d.next, d.base)
  {
    DraftStands(entries, entries', d);
  }

  lemma LeaseKeeps(s: Sys, name: string)
    requires Inv(s)
    ensures Inv(s.(r := Lease(s.r, name)))
  {
    if name in s.r.hosts {
      var at, s' := s.r.hosts[name], s.(r := Lease(s.r, name));
      forall id | 0 <= id < |s'.r.entries|
        ensures Good(ViewOf(s', id))
      {
        HoldersTaken(s.r.tokens, s.r.issued, at, id);
        assert Good(ViewOf(s, id));
      }
      LeaseStructure(s, name);
    }
  }

  lemma LeaseStructure(s: Sys, name: string)
    requires Inv(s) && name in s.r.hosts
    ensures Structure(s.(r := Lease(s.r, name)))
  {
    var at := s.r.hosts[name];
    assert Good(ViewOf(s, at));
    assert IsLive(s.r.entries, s.r.hosts, at);
    hide Good;
    if s.draft.Some? {
      DraftUntouched(s.r.entries, Lease(s.r, name).entries, s.draft.value, at);
    }
  }

  lemma ReleaseKeeps(s: Sys, token: nat)
    requires Inv(s)
    ensures Inv(s.(r := Release(s.r, token)))
  {
    if token in s.r.tokens {
      var at, s' := s.r.tokens[token], s.(r := Release(s.r, token));
      forall id | 0 <= id < |s'.r.entries|
        ensures Good(ViewOf(s', id))
      {
        ReleaseView(s, token, id);
      }
      ReleaseStructure(s, token);
    }
  }

  lemma HeldIsLeased(s: Sys, token: nat)
    requires Inv(s) && token in s.r.tokens
    ensures s.r.entries[s.r.tokens[token]].leases > 0
    ensures s.draft.Some? ==> s.r.tokens[token] < s.draft.value.base
  {
    var at := s.r.tokens[token];
    assert token in Holders(s.r.tokens, at);
    assert Good(ViewOf(s, at));
  }

  lemma ReleaseView(s: Sys, token: nat, id: nat)
    requires Inv(s) && token in s.r.tokens && id < |s.r.entries|
    ensures Good(ViewOf(s.(r := Release(s.r, token)), id))
  {
    HeldIsLeased(s, token);
    HoldersGiven(s.r.tokens, token, id);
    ForgetMembers(s.r.retired, s.r.tokens[token], id);
    assert Good(ViewOf(s, id));
    hide Holders, Forget;
  }

  lemma ReleaseStructure(s: Sys, token: nat)
    requires Inv(s) && token in s.r.tokens
    ensures Structure(s.(r := Release(s.r, token)))
  {
    var at, r' := s.r.tokens[token], Release(s.r, token);
    HeldIsLeased(s, token);
    ForgetDistinct(s.r.retired, at);
    forall i | 0 <= i < |Forget(s.r.retired, at)|
      ensures Forget(s.r.retired, at)[i] < |s.r.entries|
    {
      ForgetMembers(s.r.retired, at, Forget(s.r.retired, at)[i]);
    }
    hide Good, Forget;
    if s.draft.Some? {
      DraftUntouched(s.r.entries, r'.entries, s.draft.value, at);
    }
  }

  // ---------------------------------------------------------------- reloads

  lemma NoHolders(s: Sys, id: nat)
    requires Structure(s) && id >= |s.r.entries|
    ensures Holders(s.r.tokens, id) == {} && id !in s.r.retired && s.r.closes[id] == 0 && id !in s.leaked
    ensures forall name :: name in s.r.hosts ==> s.r.hosts[name] != id
  {
  }

  lemma AfterScanAt(s: Sys, x: Scan, id: nat)
    requires |s.r.entries| <= |x.entries|
    ensures var s', young := AfterScan(s, x), |s.r.entries| <= id < |x.entries|;
            && s'.r.entries == x.entries && s'.r.hosts == s.r.hosts && s'.r.retired == s.r.retired
            && s'.r.tokens == s.r.tokens && s'.r.closed == s.r.closed
            && s'.r.closes[id] == s.r.closes[id] + Bit(x.outcome.DialFailed? && young)
            && (id in s'.leaked <==> id in s.leaked || (x.outcome.BadName? && young))
            && (s'.draft.Some? <==> x.outcome.Ready?)
            && (s'.draft.Some? ==> s'.draft.value.base == |s.r.entries|)
  {
    RangeOnce(|s.r.entries|, |x.entries|, id);
    hide Range;
  }

  lemma ScanViewOld(s: Sys, x: Scan, id: nat)
    requires Inv(s) && s.draft.None? && !s.r.closed && s.r.entries <= x.entries && id < |s.r.entries|
    ensures Good(ViewOf(AfterScan(s, x), id))
  {
    AfterScanAt(s, x, id);
    assert Good(ViewOf(s, id)) && x.entries[id] == s.r.entries[id];
    hide Structure, AllGood, Range, Holders, Good, AfterScan;
    assert ViewOf(AfterScan(s, x), id) == ViewOf(s, id);
  }

  lemma ScanViewNew(s: Sys, x: Scan, id: nat)
    requires Inv(s) && s.draft.None? && !s.r.closed && |s.r.entries| <= id < |x.entries|
    requires DraftOk(x.entries, s.r.hosts, x.next, |s.r.entries|)
    ensures Good(ViewOf(AfterScan(s, x), id))
  {
    AfterScanAt(s, x, id);
    NoHolders(s, id);
    assert IsLive(x.entries, x.next, id);
    hide Structure, AllGood, Range, Holders, Named, AfterScan;
    assert ViewOf(AfterScan(s, x), id)
        == View(x.entries[id], false, false, x.outcome.Ready?, x.outcome.BadName?, Bit(x.outcome.DialFailed?), 0, false);
  }

  lemma WithMoreEntries(r: Reg, entries: seq<Entry>)
    requires RegOk(r) && r.entries <= entries
    ensures RegOk(r.(entries := entries))
  {
  }

  lemma WithMoreCloses(r: Reg, lo: nat)
    requires RegOk(r) && lo <= |r.entries|
    ensures RegOk(r.(closes := r.closes + multiset(Range(lo, |r.entries|))))
  {
    forall id: nat
      ensures multiset(Range(lo, |r.entries|))[id] == Bit(lo <= id < |r.entries|)
    {
      RangeOnce(lo, |r.entries|, id);
    }
    hide Range, Named, NoDuplicates, AllWithin;
  }

  lemma ScanStructure(s: Sys, x: Scan)
    requires Inv(s) && s.draft.None? && !s.r.closed && s.r.entries <= x.entries
    requires DraftOk(x.entries, s.r.hosts, x.next, |s.r.entries|)
    ensures Structure(AfterScan(s, x))
  {
    WithMoreEntries(s.r, x.entries);
    WithMoreCloses(s.r.(entries := x.entries), |s.r.entries|);
    forall id: nat
      ensures id in Range(|s.r.entries|, |x.entries|) ==> id < |x.entries|
    {
      RangeOnce(|s.r.entries|, |x.entries|, id);
    }
    hide AllGood, Range, RegOk, DraftOk;
  }

  lemma BeginKeeps(s: Sys, eps: seq<Endpoint>, dials: seq<bool>)
    requires Inv(s) && Can(s, Begin(eps, dials))
    ensures Inv(Do(s, Begin(eps, dials)))
  {
    if !s.r.closed {
      ScanKeeps(s.r.entries, s.r.hosts, map[], |s.r.entries|, eps, dials, 0);
      var x := ScanFrom(s.r.entries, s.r.hosts, map[], eps, dials, 0);
      ScanStructure(s, x);
      forall id | 0 <= id < |x.entries|
        ensures Good(ViewOf(AfterScan(s, x), id))
      {
        if id < |s.r.entries| {
          ScanViewOld(s, x, id);
        } else {
          ScanViewNew(s, x, id);
        }
      }
      hide Good, ViewOf, Structure, ScanFrom;
      assert AllGood(AfterScan(s, x));
    }
  }

  function Withdrawn(s: Sys): Sys
    requires s.draft.Some? && s.draft.value.base <= |s.r.entries|
  {
    Sys(s.r.(closes := s.r.closes + multiset(Range(s.draft.value.base, |s.r.entries|))), None, s.leaked)
  }

  /** A reload that finds the Registry closed takes back what it dialled. */
  lemma WithdrawKeeps(s: Sys)
    requires Inv(s) && s.draft.Some?
    ensures Inv(Withdrawn(s))
  {
    var s', base := Withdrawn(s), s.draft.value.base;
    WithMoreCloses(s.r, base);
    forall id | 0 <= id < |s'.r.entries|
      ensures Good(ViewOf(s', id))
    {
      assert Good(ViewOf(s, id));
      RangeOnce(base, |s.r.entries|, id);
    }
  }

  function Published(s: Sys): Reg
    requires s.draft.Some?
  {
    s.r.(hosts := s.draft.value.next)
  }

  /** Which connections a reload retires, said of each. */
  lemma SupersededAt(s: Sys, order: seq<nat>, id: nat)
    requires Inv(s) && Can(s, Publish(order)) && !s.r.closed && id < |s.r.entries|
    ensures id in order <==> ViewOf(s, id).live && !IsLive(s.r.entries, s.draft.value.next, id)
  {
    var d := s.draft.value;
    if id in order {
      var name :| name in d.current && !(name in d.next && d.next[name] == d.current[name]) && d.current[name] == id;
    } else if ViewOf(s, id).live {
      assert id !in Superseded(d.current, d.next);
    }
  }

  lemma NextAt(s: Sys, id: nat)
    requires Inv(s) && s.draft.Some? && !s.r.closed && id < |s.r.entries|
    ensures IsLive(s.r.entries, s.draft.value.next, id) ==> ViewOf(s, id).live || ViewOf(s, id).drafted
    ensures ViewOf(s, id).drafted ==> IsLive(s.r.entries, s.draft.value.next, id)
  {
  }

  lemma PublishView(s: Sys, order: seq<nat>, id: nat)
    requires Inv(s) && Can(s, Publish(order)) && !s.r.closed && id < |s.r.entries|
    requires AllWithin(order, |s.r.entries|)
    ensures Good(ViewOf(Sys(RetireAll(Published(s), order), None, s.leaked), id))
  {
    SupersededAt(s, order, id);
    NextAt(s, id);
    RetireAllForm(Published(s), order, id);
    assert Good(ViewOf(s, id));
    hide RetireAll, Structure, Lists, Superseded, Holders;
  }

  lemma PublishStructure(s: Sys, order: seq<nat>)
    requires Inv(s) && Can(s, Publish(order)) && !s.r.closed && AllWithin(order, |s.r.entries|)
    ensures Structure(Sys(RetireAll(Published(s), order), None, s.leaked))
  {
    var r, r' := Published(s), RetireAll(Published(s), order);
    forall id | id in order
      ensures id !in s.r.retired
    {
      SupersededAt(s, order, id);
      assert Good(ViewOf(s, id));
    }
    RetireAllDistinct(r, order);
    PublishNamed(r, order);
    ClosesWithin(r, order);
    RetiredWithin(r'.retired, s.r.retired, order, |r.entries|);
    hide RetireAll, AllGood, Superseded, Lists, Named, NoDuplicates;
  }

  lemma RetiredWithin(ids: seq<nat>, a: seq<nat>, b: seq<nat>, n: nat)
    requires AllWithin(a, n) && AllWithin(b, n) && forall id :: id in ids ==> id in a || id in b
    ensures AllWithin(ids, n)
  {
    forall i | 0 <= i < |ids|
      ensures ids[i] < n
    {
      assert ids[i] in ids;
    }
  }

  lemma PublishNamed(r: Reg, order: seq<nat>)
    requires Named(r.entries, r.hosts) && AllWithin(order, |r.entries|) && NoDuplicates(order)
    ensures Named(RetireAll(r, order).entries, r.hosts) && SameOutside(r, RetireAll(r, order))
  {
    var r' := RetireAll(r, order);
    RetireAllForm(r, order, 0);
    forall name | name in r.hosts
      ensures r'.entries[r.hosts[name]].ep.name == name
    {
      RetireAllForm(r, order, r.hosts[name]);
    }
  }

  lemma {:induction false} ClosesWithin(r: Reg, ids: seq<nat>)
    requires AllWithin(ids, |r.entries|)
    requires forall id :: id in r.closes ==> id < |r.entries|
    ensures forall id :: id in RetireAll(r, ids).closes ==> id < |r.entries|
    ensures forall id :: id in ShutAll(r, ids).closes ==> id < |r.entries|
  {
    if ids != [] {
      ClosesWithin(r, ids[..|ids| - 1]);
    }
  }

  lemma PublishKeeps(s: Sys, order: seq<nat>)
    requires Inv(s) && Can(s, Publish(order))
    ensures Inv(Do(s, Publish(order)))
  {
    if s.r.closed {
      WithdrawKeeps(s);
    } else {
      SupersededWithin(s.draft.value.current, s.draft.value.next, order, |s.r.entries|);
      PublishStructure(s, order);
      var s' := Sys(RetireAll(Published(s), order), None, s.leaked);
      forall id | 0 <= id < |s'.r.entries|
        ensures Good(ViewOf(s', id))
      {
        PublishView(s, order, id);
      }
      hide Good, ViewOf, Structure;
      assert AllGood(s');
    }
  }

  // ---------------------------------------------------------------- closing

  function Shut(r: Reg): Reg {
    r.(hosts := map[], retired := [], closed := true)
  }

  lemma OpenAt(s: Sys, order: seq<nat>, id: nat)
    requires Inv(s) && Lists(order, Open(s.r)) && id < |s.r.entries|
    ensures id in order <==> ViewOf(s, id).live || ViewOf(s, id).kept
  {
    assert id in order <==> id in Open(s.r);
    if id in (set name | name in s.r.hosts :: s.r.hosts[name]) {
      var name :| name in s.r.hosts && s.r.hosts[name] == id;
    }
  }

  lemma CloseView(s: Sys, order: seq<nat>, id: nat)
    requires Inv(s) && Lists(order, Open(s.r)) && !s.r.closed && id < |s.r.entries|
    requires AllWithin(order, |s.r.entries|)
    ensures Good(ViewOf(s.(r := Shut(ShutAll(s.r, order))), id))
  {
    OpenAt(s, order, id);
    ShutAllForm(s.r, order, id);
    assert Good(ViewOf(s, id));
    hide ShutAll, Structure, Lists, Open, Holders;
  }

  lemma CloseSpares(s: Sys, order: seq<nat>, id: nat)
    requires Inv(s) && Lists(order, Open(s.r)) && AllWithin(order, |s.r.entries|) && id < |s.r.entries|
    ensures ShutAll(s.r, order).entries[id].ep == s.r.entries[id].ep
    ensures ViewOf(s, id).drafted ==> ShutAll(s.r, order).entries[id] == s.r.entries[id]
  {
    OpenAt(s, order, id);
    assert Good(ViewOf(s, id));
    ShutAllForm(s.r, order, id);
    hide ShutAll, Structure, AllGood, Open, Lists;
  }

  lemma DraftStands(entries: seq<Entry>, entries': seq<Entry>, d: Draft)
    requires DraftOk(entries, d.current, d.next, d.base) && |entries| == |entries'|
    requires forall k :: 0 <= k < |entries| ==> entries'[k].ep == entries[k].ep
    requires forall k :: d.base <= k < |entries| ==> entries'[k] == entries[k]
    ensures DraftOk(entries', d.current, d.next, d.base)
  {
    forall k | d.base <= k < |entries'|
      ensures IsLive(entries', d.next, k) && entries'[k] == entries[k]
    {
      assert IsLive(entries, d.next, k);
    }
  }

  lemma CloseDraft(s: Sys, order: seq<nat>)
    requires Inv(s) && Lists(order, Open(s.r)) && AllWithin(order, |s.r.entries|) && s.draft.Some?
    ensures var d := s.draft.value; DraftOk(ShutAll(s.r, order).entries, d.current, d.next, d.base)
  {
    var r', d := ShutAll(s.r, order), s.draft.value;
    forall id | 0 <= id < |s.r.entries|
      ensures r'.entries[id].ep == s.r.entries[id].ep
      ensures d.base <= id ==> r'.entries[id] == s.r.entries[id]
    {
      CloseSpares(s, order, id);
    }
    hide ShutAll, AllGood, Open, Lists, RegOk, IsLive;
    DraftStands(s.r.entries, r'.entries, d);
  }

  lemma CloseStructure(s: Sys, order: seq<nat>)
    requires Inv(s) && Lists(order, Open(s.r)) && !s.r.closed && AllWithin(order, |s.r.entries|)
    ensures Structure(s.(r := Shut(ShutAll(s.r, order))))
  {
    ShutAllForm(s.r, order, 0);
    ClosesWithin(s.r, order);
    if s.draft.Some? {
      CloseDraft(s, order);
    }
    hide ShutAll, AllGood, Open, Lists, DraftOk;
    ShutOk(s.r, ShutAll(s.r, order));
    hide RegOk;
  }

  lemma ShutOk(r: Reg, r': Reg)
    requires RegOk(r) && SameOutside(r, r') && forall id :: id in r'.closes ==> id < |r.entries|
    ensures RegOk(Shut(r'))
  {
  }

  lemma CloseKeeps(s: Sys, order: seq<nat>)
    requires Inv(s) && Can(s, Close(order))
    ensures Inv(Do(s, Close(order)))
  {
    if !s.r.closed {
      OpenWithin(s, order);
      CloseStructure(s, order);
      var s' := s.(r := Shut(ShutAll(s.r, order)));
      forall id | 0 <= id < |s'.r.entries|
        ensures Good(ViewOf(s', id))
      {
        CloseView(s, order, id);
      }
      hide Good, ViewOf, Structure;
      assert AllGood(s');
    }
  }

  // ---------------------------------------------------------------- whole runs

  lemma StepKeeps(s: Sys, a: Step)
    requires Inv(s) && Can(s, a)
    ensures Inv(Do(s, a))
  {
    hide Inv;
    match a {
      case Begin(eps, dials) => BeginKeeps(s, eps, dials);
      case Publish(order) => PublishKeeps(s, order);
      case TakeLease(name) => LeaseKeeps(s, name);
      case GiveBack(token) => ReleaseKeeps(s, token);
      case Close(order) => CloseKeeps(s, order);
    }
  }

  const EMPTY: Sys := Sys(Reg([], map[], [], false, multiset{}, map[], 0), None, {})

  lemma EmptyIsGood()
    ensures Inv(EMPTY)
  {
  }

  /** Whether each step of a run can be taken where it comes. */
  ghost predicate Possible(s: Sys, steps: seq<Step>)
    requires Inv(s)
    decreases |steps|
  {
    steps != [] ==>
      && Can(s, steps[0])
      && (StepKeeps(s, steps[0]);
          Possible(Do(s, steps[0]), steps[1..]))
  }

  /** Every state a run reaches is sound. */
  ghost function Run(s: Sys, steps: seq<Step>): (s': Sys)
    requires Inv(s) && Possible(s, steps)
    ensures Inv(s')
    decreases |steps|
  {
    if steps == [] then s
    else
      StepKeeps(s, steps[0]);
      Run(Do(s, steps[0]), steps[1..])
  }

  /** `s` is where a run from a new Registry ends. */
  ghost predicate Reaches(steps: seq<Step>, s: Sys) {
    EmptyIsGood();
    Possible(EMPTY, steps) && s == Run(EMPTY, steps)
  }

  /** From a new Registry, whatever the reloads, leases and releases: a connection
      that no reload in progress holds and no reload lost is live, or retired and
      leased, or closed, and only one of these; none is closed twice; and one closed
      under a lease was closed by Close. */
  lemma Conservation(steps: seq<Step>, s: Sys, id: nat)
    requires Reaches(steps, s) && id < |s.r.entries|
    ensures var v := ViewOf(s, id);
            && v.closes <= 1
            && (!v.drafted && !v.leaked ==> Bit(v.live) + Bit(v.kept && v.e.leases > 0) + Bit(v.closes == 1) == 1)
            && (v.drafted || v.leaked ==> !v.live && !v.kept && v.closes == 0)
            && (v.closes == 1 && v.e.leases > 0 ==> s.r.closed)
            && v.e.leases == |Holders(s.r.tokens, id)|
  {
    assert Good(ViewOf(s, id));
  }

  /** Only Close marks the Registry closed, and once it is closed nobody takes a lease. */
  lemma ClosedOnlyByClose(s: Sys, a: Step, id: nat)
    requires Inv(s) && Can(s, a) && !a.Close? && id < |s.r.entries|
    ensures Do(s, a).r.closed == s.r.closed && id < |Do(s, a).r.entries|
    ensures s.r.closed ==> Do(s, a).r.entries[id].leases <= s.r.entries[id].leases
  {
    hide AllGood;
    match a {
      case Begin(eps, dials) =>
        if !s.r.closed {
          ScanKeeps(s.r.entries, s.r.hosts, map[], |s.r.entries|, eps, dials, 0);
        }
      case Publish(order) =>
        if !s.r.closed {
          SupersededWithin(s.draft.value.current, s.draft.value.next, order, |s.r.entries|);
          RetireAllForm(Published(s), order, id);
        }
      case _ =>
    }
  }

  /** While a connection is leased no step but Close closes it. */
  lemma LeasedStaysOpen(s: Sys, a: Step, id: nat)
    requires Inv(s) && Can(s, a) && !a.Close? && id < |s.r.entries|
    requires s.r.closes[id] == 0
    ensures id < |Do(s, a).r.entries|
    ensures Do(s, a).r.entries[id].leases > 0 ==> Do(s, a).r.closes[id] == 0
  {
    StepKeeps(s, a);
    ClosedOnlyByClose(s, a, id);
    assert Good(ViewOf(s, id)) && Good(ViewOf(Do(s, a), id));
    hide Do, AllGood, Structure, Can;
  }

  /** Closed once more than before means closed for good: after Close, with no reload
      in progress and none having lost a connection, every connection ever dialled
      has been closed exactly once. */
  lemma CloseLeavesNothingOpen(s: Sys, order: seq<nat>, id: nat)
    requires Inv(s) && Can(s, Close(order)) && s.draft.None? && s.leaked == {} && id < |s.r.entries|
    ensures id < |Do(s, Close(order)).r.entries| && Do(s, Close(order)).r.closes[id] == 1
  {
    var s' := Do(s, Close(order));
    StepKeeps(s, Close(order));
    if !s.r.closed {
      OpenWithin(s, order);
      ShutAllForm(s.r, order, id);
    }
    hide ShutAll;
    assert Good(ViewOf(s', id));
    assert s'.r.closed && s'.draft.None? && s'.leaked == {};
  }

  // ---------------------------------------------------------------- what a reload does

  predicate BadAt(eps: seq<Endpoint>, j: nat)
    requires j < |eps|
  {
    eps[j].name == "" || exists i :: 0 <= i < j && eps[i].name == eps[j].name
  }

  predicate StopsAt(entries: seq<Entry>, current: Hosts, eps: seq<Endpoint>, dials: seq<bool>, j: nat)
    requires Within(current, |entries|) && j < |eps| == |dials|
  {
    BadAt(eps, j) || (NeedsDial(entries, current, eps[j]) && !dials[j])
  }

  /** The first endpoint a reload stops at, or the number of them. */
  function FirstStop(entries: seq<Entry>, current: Hosts, eps: seq<Endpoint>, dials: seq<bool>, i: nat): (j: nat)
    requires Within(current, |entries|) && i <= |eps| == |dials|
    ensures i <= j <= |eps| && (j < |eps| ==> StopsAt(entries, current, eps, dials, j))
    ensures forall k :: i <= k < j ==> !StopsAt(entries, current, eps, dials, k)
    decreases |eps| - i
  {
    if i == |eps| || StopsAt(entries, current, eps, dials, i) then i
    else FirstStop(entries, current, eps, dials, i + 1)
  }

  ghost predicate SeenBefore(next: Hosts, eps: seq<Endpoint>, i: nat)
    requires i <= |eps|
  {
    forall name :: name in next <==> exists k :: 0 <= k < i && eps[k].name == name
  }

  lemma SeenOneMore(next: Hosts, eps: seq<Endpoint>, i: nat, id: nat)
    requires i < |eps| && SeenBefore(next, eps, i)
    ensures SeenBefore(next[eps[i].name := id], eps, i + 1)
  {
    var next' := next[eps[i].name := id];
    forall name
      ensures name in next' <==> exists k :: 0 <= k < i + 1 && eps[k].name == name
    {
      if name in next && name != eps[i].name {
        var k :| 0 <= k < i && eps[k].name == name;
        assert 0 <= k < i + 1;
      }
    }
  }

  /** How a scan ends, said of its inputs alone. */
  lemma {:induction false} ScanOutcome(entries0: seq<Entry>, entries: seq<Entry>, current: Hosts, next: Hosts,
                                       eps: seq<Endpoint>, dials: seq<bool>, i: nat)
    requires Within(current, |entries0|) && entries0 <= entries && i <= |eps| == |dials|
    requires SeenBefore(next, eps, i)
    ensures Within(current, |entries|)
    ensures var x, j := ScanFrom(entries, current, next, eps, dials, i), FirstStop(entries0, current, eps, dials, i);
            && (x.outcome.Ready? <==> j == |eps|)
            && (x.outcome.BadName? <==> j < |eps| && BadAt(eps, j))
            && |x.entries| >= |entries|
            && (|x.entries| > |entries| <==> exists k :: i <= k < j && NeedsDial(entries0, current, eps[k]))
    decreases |eps| - i
  {
    if i < |eps| {
      assert BadAt(eps, i) <==> eps[i].name == "" || eps[i].name in next;
      assert NeedsDial(entries, current, eps[i]) <==> NeedsDial(entries0, current, eps[i]);
      ScanStep(entries, current, next, eps, dials, i);
      hide ScanFrom, BadAt;
      if !StopsAt(entries0, current, eps, dials, i) {
        if NeedsDial(entries, current, eps[i]) {
          SeenOneMore(next, eps, i, |entries|);
          ScanOutcome(entries0, entries + [Entry(eps[i], 0, false, false)], current, next[eps[i].name := |entries|],
                      eps, dials, i + 1);
        } else {
          SeenOneMore(next, eps, i, current[eps[i].name]);
          ScanOutcome(entries0, entries, current, next[eps[i].name := current[eps[i].name]], eps, dials, i + 1);
        }
      }
    }
  }

  /** A reload loses connections exactly when it stops at an entry with no name, or
      with a name already listed, after dialling something: that return does not
      close what was dialled. */
  lemma LeaksIffBadNameAfterDial(s: Sys, eps: seq<Endpoint>, dials: seq<bool>)
    requires Inv(s) && Can(s, Begin(eps, dials)) && !s.r.closed
    ensures var j := FirstStop(s.r.entries, s.r.hosts, eps, dials, 0);
            Do(s, Begin(eps, dials)).leaked != s.leaked
            <==> (j < |eps| && BadAt(eps, j) && exists k :: 0 <= k < j && NeedsDial(s.r.entries, s.r.hosts, eps[k]))
  {
    ScanKeeps(s.r.entries, s.r.hosts, map[], |s.r.entries|, eps, dials, 0);
    ScanOutcome(s.r.entries, s.r.entries, s.r.hosts, map[], eps, dials, 0);
    var x := ScanFrom(s.r.entries, s.r.hosts, map[], eps, dials, 0);
    assert Do(s, Begin(eps, dials)) == AfterScan(s, x);
    assert forall id :: id in s.leaked ==> id < |s.r.entries|;
    hide ScanFrom, FirstStop, AllGood, Structure, Do, AfterScan, BadAt, NeedsDial;
    LeaksWhatItDialled(s, x);
  }

  lemma LeaksWhatItDialled(s: Sys, x: Scan)
    requires |s.r.entries| <= |x.entries| && forall id :: id in s.leaked ==> id < |s.r.entries|
    ensures AfterScan(s, x).leaked != s.leaked <==> x.outcome.BadName? && |x.entries| > |s.r.entries|
  {
    AfterScanAt(s, x, |s.r.entries|);
    forall id: nat
      ensures id in AfterScan(s, x).leaked <==>
                id in s.leaked || (x.outcome.BadName? && |s.r.entries| <= id < |x.entries|)
    {
      AfterScanAt(s, x, id);
    }
    hide AfterScan;
  }

  /** The first entry with no name or a name already listed, or their number. */
  function FirstBad(eps: seq<Endpoint>, i: nat): (j: nat)
    requires i <= |eps|
    ensures i <= j <= |eps| && (j < |eps| ==> BadAt(eps, j)) && forall k :: i <= k < j ==> !BadAt(eps, k)
    decreases |eps| - i
  {
    if i == |eps| || BadAt(eps, i) then i else FirstBad(eps, i + 1)
  }

  /** Whether an inventory can lose connections at all, whatever the dials answer,
      can be read off it: it does iff an entry before its first bad one is new or
      changed. */
  lemma CanLeakIffChangedBeforeBad(s: Sys, eps: seq<Endpoint>)
    requires Inv(s) && s.draft.None? && !s.r.closed
    ensures var j := FirstBad(eps, 0);
            (exists dials :: |dials| == |eps| && Do(s, Begin(eps, dials)).leaked != s.leaked) <==>
              (j < |eps| && exists k :: 0 <= k < j && NeedsDial(s.r.entries, s.r.hosts, eps[k]))
  {
    var j := FirstBad(eps, 0);
    hide Do, AllGood, Structure, NeedsDial, BadAt;
    forall dials: seq<bool> | |dials| == |eps|
      ensures Do(s, Begin(eps, dials)).leaked != s.leaked ==>
                j < |eps| && exists k :: 0 <= k < j && NeedsDial(s.r.entries, s.r.hosts, eps[k])
    {
      LeaksIffBadNameAfterDial(s, eps, dials);
      StopsNoLater(s, eps, dials);
    }
    var all := seq(|eps|, _ => true);
    LeaksIffBadNameAfterDial(s, eps, all);
    StopsNoLater(s, eps, all);
  }

  /** A reload stops at the first bad entry or at a failed dial before it. */
  lemma StopsNoLater(s: Sys, eps: seq<Endpoint>, dials: seq<bool>)
    requires |dials| == |eps| && Within(s.r.hosts, |s.r.entries|)
    ensures var stop, bad := FirstStop(s.r.entries, s.r.hosts, eps, dials, 0), FirstBad(eps, 0);
            && stop <= bad
            && (stop < |eps| && BadAt(eps, stop) ==> stop == bad)
            && ((forall i :: 0 <= i < |eps| ==> dials[i]) ==> stop == bad)
  {
    var stop, bad := FirstStop(s.r.entries, s.r.hosts, eps, dials, 0), FirstBad(eps, 0);
    hide BadAt, NeedsDial;
    if bad < |eps| {
      assert StopsAt(s.r.entries, s.r.hosts, eps, dials, bad);
    }
    if stop < |eps| && BadAt(eps, stop) {
      assert !(stop < bad);
    }
  }

  // ---------------------------------------------------------------- inventories with distinct names

  ghost predicate ProperNames(eps: seq<Endpoint>) {
    && (forall i :: 0 <= i < |eps| ==> eps[i].name != "")
    && (forall i, j :: 0 <= i < j < |eps| ==> eps[i].name != eps[j].name)
  }

  ghost predicate AllProper(steps: seq<Step>) {
    forall a :: a in steps && a.Begin? ==> ProperNames(a.eps)
  }

  lemma ProperStepLosesNothing(s: Sys, a: Step)
    requires Inv(s) && Can(s, a) && (a.Begin? ==> ProperNames(a.eps))
    ensures Do(s, a).leaked == s.leaked
  {
    hide AllGood;
    if a.Begin? && !s.r.closed {
      var j := FirstStop(s.r.entries, s.r.hosts, a.eps, a.dials, 0);
      assert j < |a.eps| ==> !BadAt(a.eps, j);
      LeaksIffBadNameAfterDial(s, a.eps, a.dials);
    }
  }

  lemma {:induction false} ProperRunLosesNothing(s: Sys, steps: seq<Step>)
    requires Inv(s) && Possible(s, steps) && AllProper(steps)
    ensures Run(s, steps).leaked == s.leaked
    decreases |steps|
  {
    if steps != [] {
      hide Inv, Do, Can, ProperNames;
      assert steps[0] in steps;
      StepKeeps(s, steps[0]);
      ProperStepLosesNothing(s, steps[0]);
      ProperRunLosesNothing(Do(s, steps[0]), steps[1..]);
    }
  }

  /** With distinct non-empty names in every inventory there is no fourth place: each
      connection is live, or retired and leased, or closed, unless a reload is just
      bringing it in. */
  lemma ProperConservation(steps: seq<Step>, s: Sys, id: nat)
    requires Reaches(steps, s) && AllProper(steps) && id < |s.r.entries|
    ensures var v := ViewOf(s, id);
            && Bit(v.live) + Bit(v.kept && v.e.leases > 0) + Bit(v.closes == 1) + Bit(v.drafted) == 1
            && v.closes <= 1
            && (v.closes == 1 && v.e.leases > 0 ==> s.r.closed)
  {
    EmptyIsGood();
    ProperRunLosesNothing(EMPTY, steps);
    Conservation(steps, s, id);
    assert Good(ViewOf(s, id));
  }

  /** And after Close, with no reload under way, everything ever dialled has been
      closed exactly once. */
  lemma ProperCloseLeavesNothingOpen(steps: seq<Step>, s: Sys, order: seq<nat>, id: nat)
    requires Reaches(steps, s) && AllProper(steps) && s.draft.None? && Can(s, Close(order)) && id < |s.r.entries|
    ensures Inv(s) && id < |Do(s, Close(order)).r.entries| && Do(s, Close(order)).r.closes[id] == 1
  {
    EmptyIsGood();
    ProperRunLosesNothing(EMPTY, steps);
    hide Possible, Do, Can;
    CloseLeavesNothingOpen(s, order, id);
  }

  /** Listing a new Host twice loses the connection dialled for it. */
  lemma ListedTwiceLeaks(name: string, terms: string)
    requires name != ""
    ensures var eps := [Endpoint(name, terms), Endpoint(name, terms)];
            Inv(EMPTY) && Do(EMPTY, Begin(eps, [true, true])).leaked != {}
  {
    EmptyIsGood();
    var eps := [Endpoint(name, terms), Endpoint(name, terms)];
    assert BadAt(eps, 1) by {
      assert eps[0].name == eps[1].name;
    }
    assert !BadAt(eps, 0);
    var j := FirstStop([], map[], eps, [true, true], 0);
    assert j == 1 by {
      assert StopsAt([], map[], eps, [true, true], 1);
    }
    assert NeedsDial([], map[], eps[0]);
    LeaksIffBadNameAfterDial(EMPTY, eps, [true, true]);
  }

  /** A reload that a dial refuses changes nothing that was there, and closes
      everything it dialled, once. */
  lemma RefusedReloadChangesNothing(s: Sys, eps: seq<Endpoint>, dials: seq<bool>, id: nat)
    requires Inv(s) && Can(s, Begin(eps, dials)) && !s.r.closed
    requires var j := FirstStop(s.r.entries, s.r.hosts, eps, dials, 0); j < |eps| && !BadAt(eps, j)
    ensures var s' := Do(s, Begin(eps, dials));
            && s'.r.hosts == s.r.hosts && s'.r.retired == s.r.retired && s.r.entries <= s'.r.entries
            && s'.leaked == s.leaked && s'.draft.None?
            && (id < |s.r.entries| ==> s'.r.closes[id] == s.r.closes[id])
            && (|s.r.entries| <= id < |s'.r.entries| ==> s'.r.closes[id] == 1)
  {
    ScanKeeps(s.r.entries, s.r.hosts, map[], |s.r.entries|, eps, dials, 0);
    ScanOutcome(s.r.entries, s.r.entries, s.r.hosts, map[], eps, dials, 0);
    var x := ScanFrom(s.r.entries, s.r.hosts, map[], eps, dials, 0);
    hide ScanFrom, FirstStop, AllGood;
    AfterScanAt(s, x, id);
  }

  /** `ep` is served on a connection made with its terms, the one it had if that fits. */
  ghost predicate Serves(entries: seq<Entry>, current: Hosts, next: Hosts, ep: Endpoint)
    requires Within(current, |entries|)
  {
    && ep.name in next && next[ep.name] < |entries| && entries[next[ep.name]].ep == ep
    && (!NeedsDial(entries, current, ep) ==> next[ep.name] == current[ep.name])
  }

  /** The first `i` endpoints are served, and nothing else. */
  ghost predicate Served(entries: seq<Entry>, current: Hosts, next: Hosts, eps: seq<Endpoint>, i: nat)
    requires Within(current, |entries|) && i <= |eps|
  {
    SeenBefore(next, eps, i) && forall k :: 0 <= k < i ==> Serves(entries, current, next, eps[k])
  }

  lemma ServeOneMore(entries: seq<Entry>, entries': seq<Entry>, current: Hosts, next: Hosts, id: nat,
                     eps: seq<Endpoint>, i: nat)
    requires Within(current, |entries|) && i < |eps| && Served(entries, current, next, eps, i)
    requires entries <= entries' && eps[i].name !in next
    requires Serves(entries', current, next[eps[i].name := id], eps[i])
    ensures Within(current, |entries'|) && Served(entries', current, next[eps[i].name := id], eps, i + 1)
  {
    SeenOneMore(next, eps, i, id);
    var next' := next[eps[i].name := id];
    forall k | 0 <= k < i + 1
      ensures Serves(entries', current, next', eps[k])
    {
      if k < i {
        assert Serves(entries, current, next, eps[k]);
      }
    }
  }

  /** A reload that goes through ends with exactly the endpoints listed, each on a
      connection made with its terms, and an endpoint that did not change on the
      connection it had. */
  lemma {:induction false} ReadyServesEndpoints(entries: seq<Entry>, current: Hosts, next: Hosts,
                                                eps: seq<Endpoint>, dials: seq<bool>, i: nat)
    requires Within(current, |entries|) && i <= |eps| == |dials| && Served(entries, current, next, eps, i)
    ensures var x := ScanFrom(entries, current, next, eps, dials, i);
            && Within(current, |x.entries|)
            && (x.outcome.Ready? ==> Served(x.entries, current, x.next, eps, |eps|))
    decreases |eps| - i
  {
    if i < |eps| && eps[i].name != "" && eps[i].name !in next {
      var name := eps[i].name;
      ScanStep(entries, current, next, eps, dials, i);
      hide ScanFrom;
      if !NeedsDial(entries, current, eps[i]) {
        assert Serves(entries, current, next[name := current[name]], eps[i]);
        hide Served;
        ServeOneMore(entries, entries, current, next, current[name], eps, i);
        ReadyServesEndpoints(entries, current, next[name := current[name]], eps, dials, i + 1);
      } else if dials[i] {
        var more := entries + [Entry(eps[i], 0, false, false)];
        assert Serves(more, current, next[name := |entries|], eps[i]);
        hide Served;
        ServeOneMore(entries, more, current, next, |entries|, eps, i);
        ReadyServesEndpoints(more, current, next[name := |entries|], eps, dials, i + 1);
      }
    }
  }

  // ---------------------------------------------------------------- what a reload will retire

  /** The connections found so far to have no place in `next`: those whose name is
      served by another, and those whose name is missing, `rest` not looked at yet. */
  function Gone(current: Hosts, next: Hosts, rest: set<string>): set<nat> {
    set n | n in current && (if n in next then next[n] != current[n] else n !in rest) :: current[n]
  }

  lemma GoneAt(entries: seq<Entry>, current: Hosts, next: Hosts, rest: set<string>, id: nat)
    requires Named(entries, current)
    ensures id in Gone(current, next, rest) ==> id < |entries|
    ensures id < |entries| ==>
      var n := entries[id].ep.name;
      (id in Gone(current, next, rest)
       <==> n in current && current[n] == id && if n in next then next[n] != id else n !in rest)
  {
    if id in Gone(current, next, rest) {
      var n :| n in current && (if n in next then next[n] != current[n] else n !in rest) && current[n] == id;
    }
  }

  lemma ListsOneMore(order: seq<nat>, ids: set<nat>, id: nat, ids': set<nat>)
    requires Lists(order, ids) && id !in ids && forall x :: x in ids' <==> x in ids || x == id
    ensures Lists(order + [id], ids')
  {
  }

  /** Serving one more name. */
  lemma GoneServing(entries: seq<Entry>, current: Hosts, next: Hosts, name: string, id: nat, retire: seq<nat>)
    requires Named(entries, current) && name !in next && Lists(retire, Gone(current, next, current.Keys))
    ensures var gone := Gone(current, next[name := id], current.Keys);
            if name in current && current[name] != id then Lists(retire + [current[name]], gone)
            else Lists(retire, gone)
  {
    var gone, gone' := Gone(current, next, current.Keys), Gone(current, next[name := id], current.Keys);
    forall x: nat
      ensures x in gone' <==> x in gone || (name in current && current[name] != id && x == current[name])
    {
      GoneAt(entries, current, next, current.Keys, x);
      GoneAt(entries, current, next[name := id], current.Keys, x);
    }
    if name in current && current[name] != id {
      GoneAt(entries, current, next, current.Keys, current[name]);
      hide Gone;
      ListsOneMore(retire, gone, current[name], gone');
    }
  }

  /** Looking at one more of the names there were. */
  lemma GoneLooking(entries: seq<Entry>, current: Hosts, next: Hosts, rest: set<string>, name: string,
                    retire: seq<nat>)
    requires Named(entries, current) && name in rest && name in current && Lists(retire, Gone(current, next, rest))
    ensures var gone := Gone(current, next, rest - {name});
            if name !in next then Lists(retire + [current[name]], gone) else Lists(retire, gone)
  {
    var gone, gone' := Gone(current, next, rest), Gone(current, next, rest - {name});
    forall x: nat
      ensures x in gone' <==> x in gone || (name !in next && x == current[name])
    {
      GoneAt(entries, current, next, rest, x);
      GoneAt(entries, current, next, rest - {name}, x);
    }
    if name !in next {
      GoneAt(entries, current, next, rest, current[name]);
      hide Gone;
      ListsOneMore(retire, gone, current[name], gone');
    }
  }

  lemma GoneWhole(current: Hosts, next: Hosts)
    ensures Gone(current, next, {}) == Superseded(current, next)
    ensures Gone(current, map[], current.Keys) == {}
  {
  }

  lemma DraftGrows(entries: seq<Entry>, current: Hosts, next: Hosts, base: nat, ep: Endpoint)
    requires DraftOk(entries, current, next, base) && ep.name !in next
    ensures DraftOk(entries + [Entry(ep, 0, false, false)], current, next[ep.name := |entries|], base)
    ensures ep.name in current ==> DraftOk(entries, current, next[ep.name := current[ep.name]], base)
    ensures base <= |entries| && Named(entries, current) && Within(current, |entries|)
  {
  }

  lemma DraftNamed(entries: seq<Entry>, current: Hosts, next: Hosts, base: nat)
    requires DraftOk(entries, current, next, base)
    ensures base <= |entries| && Named(entries, current) && Within(current, |entries|)
  {
  }

  lemma LiveListed(entries: seq<Entry>, hosts: Hosts, rest: set<string>, name: string, order: seq<nat>)
    requires Named(entries, hosts) && name in rest && name in hosts && Lists(order, Gone(hosts, map[], rest))
    ensures Lists(order + [hosts[name]], Gone(hosts, map[], rest - {name}))
  {
    GoneLooking(entries, hosts, map[], rest, name, order);
  }

  lemma OpenListed(r: Reg, order: seq<nat>)
    requires Lists(order, Gone(r.hosts, map[], {})) && NoDuplicates(r.retired)
    requires forall name :: name in r.hosts ==> r.hosts[name] !in r.retired
    ensures Lists(order + r.retired, Open(r))
  {
    forall id
      ensures id in order <==> id in (set name | name in r.hosts :: r.hosts[name])
    {
      assert id in order <==> id in Gone(r.hosts, map[], {});
    }
    forall i, j | 0 <= i < j < |order + r.retired|
      ensures (order + r.retired)[i] != (order + r.retired)[j]
    {
      if i < |order| <= j {
        assert order[i] in order && (order + r.retired)[j] in r.retired;
      }
    }
  }

  lemma {:induction false} RangeGrows(lo: nat, hi: nat)
    requires lo <= hi
    ensures Range(lo, hi + 1) == Range(lo, hi) + [hi]
    decreases hi - lo
  {
    if lo < hi {
      RangeGrows(lo + 1, hi);
    }
  }
}

/**
 The Registry as the object it is: each method is one hold of its lock, but for
 Prepare, which is what a reload does between its two.
 */
module RegistryObjects {
  import opened Basics
  import opened RegistryCore
  import RegistryRuns

  class Registry {
    var entries: seq<Entry>
    var hosts: Hosts
    var retired: seq<nat>
    var closed: bool
    var closes: multiset<nat>
    var tokens: map<nat, nat>
    var issued: nat

    ghost function State(): Reg
      reads this
    {
      Reg(entries, hosts, retired, closed, closes, tokens, issued)
    }

    constructor ()
      ensures State() == RegistryRuns.EMPTY.r
    {
      entries, hosts, retired, closed, closes, tokens, issued := [], map[], [], false, multiset{}, map[], 0;
    }

    /** Counts the caller as a holder; an unknown Host changes nothing. */
    method Lease(name: string) returns (token: Option<nat>)
      requires RegistryRuns.RegOk(State())
      modifies this
      ensures token.Some? <==> name in old(hosts)
      ensures token.Some? ==> token.value !in old(tokens) && tokens == old(tokens)[token.value := old(hosts)[name]]
      ensures State() == RegistryCore.Lease(old(State()), name)
    {
      if name !in hosts {
        return None;
      }
      var id := hosts[name];
      var e := entries[id];
      entries := entries[id := e.(leases := e.leases + 1)];
      token := Some(issued);
      tokens := tokens[issued := id];
      issued := issued + 1;
    }

    method ForgetRetired(id: nat)
      modifies `retired
      ensures retired == Forget(old(retired), id)
    {
      hide Forget;
      var i := 0;
      while i < |retired|
        invariant 0 <= i <= |retired| && retired == old(retired)
        invariant forall j :: 0 <= j < i ==> retired[j] != id
      {
        if retired[i] == id {
          RegistryRuns.ForgetFirst(retired, i, id);
          retired := retired[..i] + retired[i + 1..];
          return;
        }
        i := i + 1;
      }
      RegistryRuns.ForgetNone(retired, id);
    }

    /** Calling a release function again does nothing. */
    method Release(token: nat)
      requires RegistryRuns.RegOk(State())
      modifies this
      ensures tokens == old(tokens) - {token}
      ensures State() == RegistryCore.Release(old(State()), token)
    {
      hide Forget;
      if token !in tokens {
        assert tokens - {token} == tokens;
        return;
      }
      var id := tokens[token];
      tokens := tokens - {token};
      var e := entries[id].(leases := entries[id].leases - 1);
      entries := entries[id := e];
      if Releasable(e) {
        entries := entries[id := e.(closed := true)];
        ForgetRetired(id);
        closes := closes + multiset{id};
      }
    }

    /** Builds the next live set from a copy of the live one, dialling what is new
        or changed, and lists what it will retire. */
    method Prepare(current: Hosts, eps: seq<Endpoint>, dials: seq<bool>)
      returns (outcome: Outcome, next: Hosts, retire: seq<nat>)
      requires RegistryRuns.DraftOk(entries, current, map[], |entries|) && |eps| == |dials|
      modifies `entries, `closes
      ensures var x := ScanFrom(old(entries), current, map[], eps, dials, 0);
              entries == x.entries && next == x.next && outcome == x.outcome && |old(entries)| <= |entries|
      ensures closes == if outcome.DialFailed? then old(closes) + multiset(RegistryRuns.Range(|old(entries)|, |entries|))
                        else old(closes)
      ensures outcome.Ready? ==> RegistryRuns.Lists(retire, Superseded(current, next))
    {
      next, retire := map[], [];
      RegistryRuns.GoneWhole(current, next);
      assert RegistryRuns.Lists(retire, {});
      RegistryRuns.DraftNamed(entries, current, next, |entries|);
      hide RegistryRuns.Gone, RegistryRuns.Lists, RegistryRuns.DraftOk, RegistryRuns.Named, Superseded, ScanFrom;
      var dialled: seq<nat> := [];
      var i := 0;
      ghost var base := |entries|;
      while i < |eps|
        invariant 0 <= i <= |eps| && closes == old(closes)
        invariant RegistryRuns.DraftOk(entries, current, next, base) && Within(current, |entries|)
        invariant ScanFrom(entries, current, next, eps, dials, i) == ScanFrom(old(entries), current, map[], eps, dials, 0)
        invariant dialled == RegistryRuns.Range(base, |entries|)
        invariant RegistryRuns.Lists(retire, RegistryRuns.Gone(current, next, current.Keys))
      {
        var ep := eps[i];
        RegistryRuns.ScanStep(entries, current, next, eps, dials, i);
        if ep.name == "" || ep.name in next {
          return BadName, next, retire;
        }
        RegistryRuns.DraftGrows(entries, current, next, base, ep);
        if ep.name in current && entries[current[ep.name]].ep == ep {
          RegistryRuns.GoneServing(entries, current, next, ep.name, current[ep.name], retire);
          next := next[ep.name := current[ep.name]];
        } else if !dials[i] {
          closes := closes + multiset(dialled);
          return DialFailed, next, retire;
        } else {
          RegistryRuns.GoneServing(entries, current, next, ep.name, |entries|, retire);
          if ep.name in current {
            retire := retire + [current[ep.name]];
          }
          RegistryRuns.RangeGrows(base, |entries|);
          next := next[ep.name := |entries|];
          dialled := dialled + [|entries|];
          entries := entries + [Entry(ep, 0, false, false)];
        }
        i := i + 1;
      }
      RegistryRuns.DraftNamed(entries, current, next, base);
      RegistryRuns.ScanEnds(entries, current, next, eps, dials);
      retire := RetireMissing(current, next, retire);
      outcome := Ready;
    }

    method RetireMissing(current: Hosts, next: Hosts, replaced: seq<nat>) returns (retire: seq<nat>)
      requires RegistryRuns.Named(entries, current)
      requires RegistryRuns.Lists(replaced, RegistryRuns.Gone(current, next, current.Keys))
      ensures RegistryRuns.Lists(retire, Superseded(current, next))
    {
      hide RegistryRuns.Gone, RegistryRuns.Lists, Superseded;
      retire := replaced;
      var rest := current.Keys;
      while rest != {}
        invariant rest <= current.Keys
        invariant RegistryRuns.Lists(retire, RegistryRuns.Gone(current, next, rest))
        decreases rest
      {
        var name :| name in rest;
        RegistryRuns.GoneLooking(entries, current, next, rest, name, retire);
        if name !in next {
          retire := retire + [current[name]];
        }
        rest := rest - {name};
      }
      RegistryRuns.GoneWhole(current, next);
    }

    method Retire(id: nat)
      requires id < |entries|
      modifies `entries, `closes, `retired
      ensures State() == RetireOne(old(State()), id) && |entries| == |old(entries)|
    {
      var e := entries[id].(retired := true);
      entries := entries[id := e];
      if Releasable(e) {
        entries := entries[id := e.(closed := true)];
        closes := closes + multiset{id};
      } else {
        retired := retired + [id];
      }
    }

    /** The second hold of the lock: takes the new live set and retires what it
        supersedes, or takes back what was dialled if the Registry is closed. */
    method Publish(next: Hosts, retire: seq<nat>, dialled: seq<nat>) returns (ok: bool)
      requires AllWithin(retire, |entries|)
      modifies this
      ensures ok == !old(closed)
      ensures !ok ==> State() == old(State()).(closes := old(closes) + multiset(dialled))
      ensures ok ==> State() == RetireAll(old(State()).(hosts := next), retire)
    {
      hide RetireOne;
      if closed {
        closes := closes + multiset(dialled);
        return false;
      }
      hosts := next;
      ghost var r := State();
      var i := 0;
      while i < |retire|
        invariant 0 <= i <= |retire| && |entries| == |r.entries|
        invariant State() == RetireAll(r, retire[..i])
      {
        assert retire[..i + 1][..i] == retire[..i];
        Retire(retire[i]);
        i := i + 1;
      }
      assert retire[..i] == retire;
      return true;
    }

    /** Every live entry, then every retired one. */
    method OpenEntries() returns (order: seq<nat>)
      requires RegistryRuns.RegOk(State()) && forall name :: name in hosts ==> hosts[name] !in retired
      ensures RegistryRuns.Lists(order, RegistryRuns.Open(State())) && AllWithin(order, |entries|)
    {
      RegistryRuns.GoneWhole(hosts, map[]);
      assert RegistryRuns.Lists([], {});
      hide RegistryRuns.Gone, RegistryRuns.Lists, RegistryRuns.Open;
      order := [];
      var rest := hosts.Keys;
      while rest != {}
        invariant rest <= hosts.Keys && AllWithin(order, |entries|)
        invariant RegistryRuns.Lists(order, RegistryRuns.Gone(hosts, map[], rest))
        decreases rest
      {
        var name :| name in rest;
        RegistryRuns.LiveListed(entries, hosts, rest, name, order);
        order := order + [hosts[name]];
        rest := rest - {name};
      }
      RegistryRuns.OpenListed(State(), order);
      order := order + retired;
    }

    method CloseEntry(id: nat)
      requires id < |entries|
      modifies `entries, `closes
      ensures State() == ShutOne(old(State()), id) && |entries| == |old(entries)|
    {
      if !entries[id].closed {
        entries := entries[id := entries[id].(closed := true)];
        closes := closes + multiset{id};
      }
    }

    /** Closes what is live and what is retired; a second call does nothing. */
    method Close() returns (ghost order: seq<nat>)
      requires RegistryRuns.RegOk(State()) && forall name :: name in hosts ==> hosts[name] !in retired
      modifies this
      ensures old(closed) ==> State() == old(State())
      ensures !old(closed) ==>
        && RegistryRuns.Lists(order, RegistryRuns.Open(old(State()))) && AllWithin(order, |old(entries)|)
        && State() == RegistryRuns.Shut(ShutAll(old(State()), order))
    {
      order := [];
      if closed {
        return;
      }
      var all := OpenEntries();
      order := all;
      hide RegistryRuns.RegOk, RegistryRuns.Lists, RegistryRuns.Open;
      hide ShutOne;
      var i := 0;
      while i < |all|
        invariant 0 <= i <= |all| && |entries| == |old(entries)| && !closed
        invariant State() == ShutAll(old(State()), all[..i])
      {
        assert all[..i + 1][..i] == all[..i];
        CloseEntry(all[i]);
        i := i + 1;
      }
      assert all[..i] == all;
      closed, hosts, retired := true, map[], [];
    }
  }
}
