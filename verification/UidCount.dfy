/**
 One of a Pool's counts, kept by MicroVM uid: the uids events have named, how
 many MicroVMs of the last folded total no event has named, and the uids that
 have already been taken out of that unnamed part.

 `Count` is the value and its step functions, `UidCount` the object that is
 updated in place. The reference the steps are proved against is a closed form:
 what a whole run of operations leaves depends only on which uids it touched
 and on the last word it said about each of them.
 */
module UidCounts {
  import opened Basics

  type Uid = string

  datatype Count = Count(named: set<Uid>, unnamed: int, accounted: set<Uid>) {

    function Total(): int {
      |named| + unnamed
    }

    ghost predicate Wf() {
      && unnamed >= 0
      && "" !in named
      && "" !in accounted
      && (unnamed == 0 ==> accounted == {})
      && (unnamed > 0 ==> named <= accounted)
    }
  }

  const Empty := Count({}, 0, {})

  /** Whether naming `uid` moves one MicroVM out of the unnamed part. */
  predicate Takes(c: Count, uid: Uid) {
    uid != "" && c.unnamed > 0 && uid !in c.accounted
  }

  function Take(c: Count, uid: Uid): Count {
    if !Takes(c, uid) then c
    else c.(unnamed := c.unnamed - 1,
            accounted := if c.unnamed == 1 then {} else c.accounted + {uid})
  }

  predicate Adds(c: Count, uid: Uid) {
    uid != "" && uid !in c.named
  }

  function Add(c: Count, uid: Uid): Count {
    if !Adds(c, uid) then c else Take(c.(named := c.named + {uid}), uid)
  }

  function Remove(c: Count, uid: Uid): Count {
    c.(named := c.named - (if uid == "" then {} else {uid}))
  }

  /** Takes a MicroVM out of the count, named or not. */
  function Leave(c: Count, uid: Uid): Count {
    if uid in c.named && uid != "" then Remove(c, uid) else Take(c, uid)
  }

  function Rebaseline(c: Count, total: int): Count {
    var unnamed := if total < |c.named| then 0 else total - |c.named|;
    Count(c.named, unnamed, if unnamed == 0 then {} else c.named)
  }

  // ---------------------------------------------------------------- runs

  /** What one event does to one count. `Drop` is a removal that takes nothing
      from the unnamed part; `Keep` leaves the count alone. */
  datatype Op = Name(uid: Uid) | Leaves(uid: Uid) | Drop(uid: Uid) | Keep

  function Apply(c: Count, op: Op): Count {
    match op
    case Name(uid) => Add(c, uid)
    case Leaves(uid) => Leave(c, uid)
    case Drop(uid) => Remove(c, uid)
    case Keep => c
  }

  function Run(c: Count, ops: seq<Op>): Count {
    if ops == [] then c else Apply(Run(c, ops[..|ops| - 1]), ops[|ops| - 1])
  }

  /** The uids a run could take out of the unnamed part. */
  function Touched(ops: seq<Op>): set<Uid> {
    set op | op in ops && (op.Name? || op.Leaves?) && op.uid != "" :: op.uid
  }

  predicate Mentions(ops: seq<Op>, uid: Uid) {
    exists i :: 0 <= i < |ops| && !ops[i].Keep? && ops[i].uid == uid
  }

  /** Membership by the last word: the last operation that mentions `uid`
      decides, and `before` decides when there is none. */
  predicate NamedLast(before: set<Uid>, ops: seq<Op>, uid: Uid) {
    if ops == [] then uid in before
    else
      var op := ops[|ops| - 1];
      if !op.Keep? && op.uid == uid && uid != "" then op.Name?
      else NamedLast(before, ops[..|ops| - 1], uid)
  }

  /** The closed form of a run: independent of how the steps interleave. */
  ghost predicate IsClosedForm(c: Count, ops: seq<Op>, r: Count) {
    && r.Wf()
    && (forall u :: u in r.named <==> NamedLast(c.named, ops, u))
    && r.unnamed == Max(0, c.unnamed - |Touched(ops) - c.accounted|)
    && r.accounted == (if r.unnamed > 0 then c.accounted + Touched(ops) else {})
  }

  function Touches(op: Op): set<Uid> {
    if (op.Name? || op.Leaves?) && op.uid != "" then {op.uid} else {}
  }

  lemma TouchedSplit(ops: seq<Op>)
    requires ops != []
    ensures Touched(ops) == Touched(ops[..|ops| - 1]) + Touches(ops[|ops| - 1])
  {
    var n := |ops| - 1;
    assert forall op :: op in ops <==> op in ops[..n] || op == ops[n];
  }

  lemma NamedStep(r: Count, op: Op)
    ensures forall u :: u in Apply(r, op).named <==>
              if !op.Keep? && op.uid == u && u != "" then op.Name? else u in r.named
  {
  }

  /** On the unnamed part every operation is a `Take` of what it touches. */
  lemma UnnamedStep(r: Count, op: Op)
    requires r.Wf()
    ensures Apply(r, op).Wf()
    ensures var t := if Touches(op) == {} then r else Take(r, op.uid);
            Apply(r, op).unnamed == t.unnamed && Apply(r, op).accounted == t.accounted
  {
  }

  lemma TouchedStep(accounted: set<Uid>, unnamed: int, touched: set<Uid>, r: Count, uid: Uid)
    requires r.Wf() && uid != ""
    requires r.unnamed == Max(0, unnamed - |touched - accounted|)
    requires r.accounted == if r.unnamed > 0 then accounted + touched else {}
    ensures Take(r, uid).unnamed == Max(0, unnamed - |touched + {uid} - accounted|)
    ensures Take(r, uid).accounted
         == if Take(r, uid).unnamed > 0 then accounted + (touched + {uid}) else {}
  {
    var now := touched + {uid};
    if uid in accounted + touched {
      assert now - accounted == touched - accounted;
      assert accounted + now == accounted + touched;
    } else {
      assert now - accounted == (touched - accounted) + {uid};
      assert uid !in touched - accounted;
      assert |now - accounted| == |touched - accounted| + 1;
      if r.unnamed > 1 {
        assert accounted + now == (accounted + touched) + {uid};
      }
    }
  }

  lemma {:induction false} RunNamed(c: Count, ops: seq<Op>, uid: Uid)
    ensures uid in Run(c, ops).named <==> NamedLast(c.named, ops, uid)
  {
    if ops != [] {
      RunNamed(c, ops[..|ops| - 1], uid);
      NamedStep(Run(c, ops[..|ops| - 1]), ops[|ops| - 1]);
    }
  }

  lemma UnnamedGoesOn(c: Count, touched: set<Uid>, r: Count, op: Op)
    requires r.Wf() && r.unnamed == Max(0, c.unnamed - |touched - c.accounted|)
    requires r.accounted == if r.unnamed > 0 then c.accounted + touched else {}
    ensures Apply(r, op).Wf()
    ensures Apply(r, op).unnamed == Max(0, c.unnamed - |touched + Touches(op) - c.accounted|)
    ensures Apply(r, op).accounted
         == if Apply(r, op).unnamed > 0 then c.accounted + (touched + Touches(op)) else {}
  {
    UnnamedStep(r, op);
    hide Apply, Take;
    if Touches(op) == {} {
      assert touched + Touches(op) == touched;
    } else {
      TouchedStep(c.accounted, c.unnamed, touched, r, op.uid);
    }
  }

  lemma {:induction false} RunUnnamed(c: Count, ops: seq<Op>)
    requires c.Wf()
    ensures Run(c, ops).Wf()
    ensures Run(c, ops).unnamed == Max(0, c.unnamed - |Touched(ops) - c.accounted|)
    ensures Run(c, ops).accounted == if Run(c, ops).unnamed > 0 then c.accounted + Touched(ops) else {}
  {
    if ops == [] {
      assert Touched(ops) == {};
    } else {
      hide Touched, Apply, Take;
      var n := |ops| - 1;
      RunUnnamed(c, ops[..n]);
      TouchedSplit(ops);
      UnnamedGoesOn(c, Touched(ops[..n]), Run(c, ops[..n]), ops[n]);
    }
  }

  /** Every run of operations leaves what its closed form says. */
  lemma {:induction false} RunClosedForm(c: Count, ops: seq<Op>)
    requires c.Wf()
    ensures IsClosedForm(c, ops, Run(c, ops))
  {
    RunUnnamed(c, ops);
    forall u
      ensures u in Run(c, ops).named <==> NamedLast(c.named, ops, u)
    {
      RunNamed(c, ops, u);
    }
  }

  // ---------------------------------------------------------------- replay

  lemma {:induction false} NamedLastOfConcat(before: set<Uid>, p: seq<Op>, s: seq<Op>, uid: Uid)
    requires uid != ""
    ensures NamedLast(before, p + s, uid)
         == if Mentions(s, uid) then NamedLast({}, s, uid) else NamedLast(before, p, uid)
  {
    if s == [] {
      assert p + s == p;
    } else {
      var n := |s| - 1;
      assert (p + s)[..|p + s| - 1] == p + s[..n] && (p + s)[|p + s| - 1] == s[n];
      NamedLastOfConcat(before, p, s[..n], uid);
      if s[n].Keep? || s[n].uid != uid {
        assert Mentions(s, uid) <==> Mentions(s[..n], uid) by {
          if Mentions(s, uid) {
            var i :| 0 <= i < |s| && !s[i].Keep? && s[i].uid == uid;
            assert s[..n][i] == s[i];
          }
        }
      }
    }
  }

  /** Folding again what has already been folded changes nothing. */
  lemma {:induction false} ReplayHarmless(c: Count, p: seq<Op>, s: seq<Op>)
    requires c.Wf()
    ensures Run(c, p + s + s) == Run(c, p + s)
  {
    var once, twice := Run(c, p + s), Run(c, p + s + s);
    RunClosedForm(c, p + s);
    RunClosedForm(c, p + s + s);
    assert Touched(p + s + s) == Touched(p + s) by {
      assert forall op :: op in p + s + s <==> op in p + s;
    }
    forall u
      ensures u in once.named <==> u in twice.named
    {
      if u != "" {
        NamedLastOfConcat(c.named, p + s, s, u);
        NamedLastOfConcat(c.named, p, s, u);
      }
    }
    assert once.named == twice.named;
  }

  // ---------------------------------------------------------------- conservation

  lemma SizeOfUnion<T>(a: set<T>, b: set<T>)
    ensures |a + b| == |a| + |b - a|
  {
    assert a + b == a + (b - a);
    assert a !! (b - a);
  }

  /** A folded total is authoritative upward only, and what it left unnamed is
      conserved by every run until the next one is folded. */
  lemma {:induction false} Conservation(c: Count, total: int, ops: seq<Op>)
    requires c.Wf()
    ensures Rebaseline(c, total).Wf()
    ensures Rebaseline(c, total).Total() == Max(total, |c.named|)
    ensures var r := Run(Rebaseline(c, total), ops);
            && (r.unnamed > 0 ==> |r.accounted| + r.unnamed == total)
            && (r.unnamed == 0 ==> r.accounted == {})
            && (r.unnamed == 0 <==> total <= |c.named + Touched(ops)|)
  {
    var base := Rebaseline(c, total);
    RunClosedForm(base, ops);
    SizeOfUnion(c.named, Touched(ops));
    if base.unnamed > 0 {
      assert base.accounted == c.named;
    }
  }

  /** How many times a run takes a MicroVM out of the unnamed part for `uid`. */
  function TakesOf(c: Count, ops: seq<Op>, uid: Uid): nat {
    if ops == [] then 0
    else
      var op, r := ops[|ops| - 1], Run(c, ops[..|ops| - 1]);
      TakesOf(c, ops[..|ops| - 1], uid)
      + if !op.Keep? && op.uid == uid && Apply(r, op).unnamed < r.unnamed then 1 else 0
  }

  /** However many operations mention it, a uid takes at most once between two
      folded totals. */
  lemma {:induction false} TakesAtMostOnce(c: Count, ops: seq<Op>, uid: Uid)
    requires c.Wf()
    ensures TakesOf(c, ops, uid) <= 1
    ensures TakesOf(c, ops, uid) == 1 ==> uid in Touched(ops) - c.accounted
  {
    if ops != [] {
      var n := |ops| - 1;
      var r, op := Run(c, ops[..n]), ops[n];
      TakesAtMostOnce(c, ops[..n], uid);
      TouchedSplit(ops);
      RunUnnamed(c, ops[..n]);
      hide Run, Touched, Apply;
      if Apply(r, op).unnamed < r.unnamed {
        TakesWhatIsNew(c, Touched(ops[..n]), r, op);
      }
    }
  }

  lemma TakesWhatIsNew(c: Count, touched: set<Uid>, r: Count, op: Op)
    requires r.Wf() && r.accounted == if r.unnamed > 0 then c.accounted + touched else {}
    requires Apply(r, op).unnamed < r.unnamed
    ensures Touches(op) == {op.uid} && op.uid !in c.accounted && op.uid !in touched
  {
    UnnamedStep(r, op);
    hide Apply;
    assert op.uid !in c.accounted + touched;
  }

  // ---------------------------------------------------------------- the object

  class UidCount {
    var named: set<Uid>
    var unnamed: int
    var accounted: set<Uid>

    ghost function Value(): Count
      reads this
    {
      Count(named, unnamed, accounted)
    }

    constructor ()
      ensures Value() == Empty
    {
      named, unnamed, accounted := {}, 0, {};
    }

    method TakeUid(uid: Uid) returns (took: bool)
      modifies this
      ensures Value() == Take(old(Value()), uid)
      ensures took == Takes(old(Value()), uid)
    {
      if uid == "" || unnamed <= 0 {
        return false;
      }
      if uid in accounted {
        return false;
      }
      accounted := accounted + {uid};
      unnamed := unnamed - 1;
      if unnamed == 0 {
        accounted := {};
      }
      return true;
    }

    method AddUid(uid: Uid) returns (added: bool, tookUnnamed: bool)
      modifies this
      ensures Value() == Add(old(Value()), uid)
      ensures added == Adds(old(Value()), uid)
      ensures tookUnnamed == (added && Takes(old(Value()), uid))
    {
      if uid == "" || uid in named {
        return false, false;
      }
      named := named + {uid};
      added := true;
      tookUnnamed := TakeUid(uid);
    }

    method RemoveUid(uid: Uid) returns (was: bool)
      modifies this
      ensures Value() == Remove(old(Value()), uid)
      ensures was == (uid != "" && uid in old(named))
    {
      if uid == "" {
        return false;
      }
      if uid in named {
        named := named - {uid};
        return true;
      }
      return false;
    }

    method LeaveUid(uid: Uid)
      modifies this
      ensures Value() == Leave(old(Value()), uid)
    {
      var was := RemoveUid(uid);
      if !was {
        var _ := TakeUid(uid);
      }
    }

    method Fold(total: int)
      modifies this
      ensures Value() == Rebaseline(old(Value()), total)
    {
      unnamed := total - |named|;
      if unnamed < 0 {
        unnamed := 0;
      }
      accounted := {};
      if unnamed == 0 {
        return;
      }
      var rest := named;
      while rest != {}
        invariant rest <= named && accounted == named - rest
        invariant named == old(named) && unnamed == Rebaseline(old(Value()), total).unnamed
        decreases rest
      {
        var uid :| uid in rest;
        accounted := accounted + {uid};
        rest := rest - {uid};
      }
    }

    method Reset()
      modifies this
      ensures Value() == Empty
    {
      named, accounted, unnamed := {}, {}, 0;
    }
  }
}
