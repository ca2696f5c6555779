/** What triggered operations mean, without lists walks or cursors: any queued
    operation whose threshold is met may be released, and releasing it increments or
    sets a counter.  Without set operations the outcome does not depend on the order
    of release, which is proved here; the walk of ct_check is shown to be one such
    order in module Cascade. */
module CascadeSpec {

  import opened TrigList

  type CtId = nat

  /** ptl_ct_event_t */
  datatype Event = Event(success: nat, failure: nat) {
    function Sum(): nat { success + failure }
  }

  /** What releasing an operation does: a triggered ct increment or set, or a
      triggered move, which may count one event on its way out (make_ct_event).  A move
      that counts several is an increment of a counter of its own on which its counts
      wait as counting moves. */
  datatype Effect =
    | IncOp(target: CtId, amt: Event)
    | SetOp(target: CtId, val: Event)
    | MoveOp
    | CountingMoveOp(target: CtId, amt: Event)

  /** A triggered operation, the counter it waits on and its threshold. */
  datatype Op = Op(home: CtId, threshold: nat, effect: Effect)

  /** The observable part of a counting event. */
  datatype ACt = ACt(event: Event, interrupt: bool, trig: seq<OpId>)

  type World = map<CtId, ACt>

  type Ops = map<OpId, Op>

  ghost predicate WellFormed(ops: Ops, w: World) {
    && (forall c, x :: c in w && x in w[c].trig ==> x in ops && ops[x].home == c)
    && (forall x :: x in ops && !ops[x].effect.MoveOp? ==> ops[x].effect.target in w)
    && (forall c :: c in w ==> NoDup(w[c].trig))
  }

  /** ct_inc adds to one of the two fields only. */
  function Added(e: Event, amt: Event): Event {
    if amt.success > 0 then Event(e.success + amt.success, e.failure) else Event(e.success, e.failure + amt.failure)
  }

  function Inc(w: World, c: CtId, amt: Event): World
    requires c in w
  {
    w[c := w[c].(event := Added(w[c].event, amt))]
  }

  function Assign(w: World, c: CtId, val: Event): World
    requires c in w
  {
    w[c := w[c].(event := val)]
  }

  /** An operation leaves the list when its counter reaches the threshold, or when
      the counter is interrupted, and then without effect. */
  predicate Ready(ops: Ops, a: ACt, x: OpId) {
    x in ops && (a.interrupt || a.event.Sum() >= ops[x].threshold)
  }

  predicate Enabled(ops: Ops, w: World, x: OpId) {
    && x in ops && ops[x].home in w
    && x in w[ops[x].home].trig && Ready(ops, w[ops[x].home], x)
    && (!ops[x].effect.MoveOp? ==> ops[x].effect.target in w)
  }

  function Removed(w: World, c: CtId, x: OpId): World
    requires c in w
  {
    w[c := w[c].(trig := Unlink(w[c].trig, x))]
  }

  function Effected(w: World, e: Effect): World
    requires !e.MoveOp? ==> e.target in w
  {
    match e
    case IncOp(d, amt) => if w[d].interrupt then w else Inc(w, d, amt)
    case SetOp(d, val) => if w[d].interrupt then w else Assign(w, d, val)
    case MoveOp => w
    case CountingMoveOp(d, amt) => Inc(w, d, amt)
  }

  /** One operation leaves its list and takes effect. */
  function Release(ops: Ops, w: World, x: OpId): World
    requires Enabled(ops, w, x)
  {
    var c := ops[x].home;
    var w1 := Removed(w, c, x);
    if w[c].interrupt then w1 else Effected(w1, ops[x].effect)
  }

  ghost predicate Legal(ops: Ops, w: World, xs: seq<OpId>, w': World) {
    if xs == [] then w' == w
    else Enabled(ops, w, xs[0]) && Legal(ops, Release(ops, w, xs[0]), xs[1..], w')
  }

  ghost predicate SettledAt(ops: Ops, a: ACt) {
    forall x :: x in a.trig ==> !Ready(ops, a, x)
  }

  ghost predicate Settled(ops: Ops, w: World) {
    forall c :: c in w ==> SettledAt(ops, w[c])
  }

  lemma {:induction false} LegalAppend(ops: Ops, w: World, xs: seq<OpId>, w1: World, ys: seq<OpId>, w2: World)
    requires Legal(ops, w, xs, w1) && Legal(ops, w1, ys, w2)
    ensures Legal(ops, w, xs + ys, w2)
  {
    if xs == [] {
      assert xs + ys == ys;
    } else {
      LegalAppend(ops, Release(ops, w, xs[0]), xs[1..], w1, ys, w2);
      AppendTail(xs, ys);
    }
  }

  lemma AppendTail(xs: seq<OpId>, ys: seq<OpId>)
    requires xs != []
    ensures xs + ys != [] && (xs + ys)[0] == xs[0] && (xs + ys)[1..] == xs[1..] + ys
  {
  }

  // ---------------------------------------------------------------------------
  // What a sequence of releases does to lists and values
  // ---------------------------------------------------------------------------

  function Without(q: seq<OpId>, gone: set<OpId>): (r: seq<OpId>)
    ensures forall x :: x in r <==> x in q && x !in gone
  {
    if q == [] then [] else (if q[0] in gone then [] else [q[0]]) + Without(q[1..], gone)
  }

  function Elems(xs: seq<OpId>): set<OpId> { set x | x in xs }

  lemma {:induction false} WithoutNone(q: seq<OpId>)
    ensures Without(q, {}) == q
  {
    if q == [] {
    } else {
      WithoutNone(q[1..]);
    }
  }

  lemma {:induction false} WithoutUnlink(q: seq<OpId>, x: OpId, gone: set<OpId>)
    requires NoDup(q)
    ensures Without(Unlink(q, x), gone) == Without(q, gone + {x})
  {
    if q == [] {
    } else {
      var t := q[1..];
      if q[0] == x {
        assert Unlink(q, x) == t;
        WithoutOutside(t, x, gone);
      } else {
        WithoutUnlink(t, x, gone);
        UnlinkCons(q, x);
      }
    }
  }

  lemma {:induction false} WithoutOutside(q: seq<OpId>, x: OpId, gone: set<OpId>)
    requires x !in q
    ensures Without(q, gone + {x}) == Without(q, gone)
  {
    if q == [] {
    } else {
      WithoutOutside(q[1..], x, gone);
    }
  }

  /** Operation x counts on counter c, given the flags of world w; meaningful for worlds
      without set operations. */
  predicate CountsOn(ops: Ops, w: World, x: OpId, c: CtId) {
    && x in ops && ops[x].home in w && !w[ops[x].home].interrupt
    && match ops[x].effect
       case IncOp(d, _) => d == c && c in w && !w[c].interrupt
       case CountingMoveOp(d, _) => d == c
       case _ => false
  }

  /** What it adds, field by field: its successes, or its failures if it has none. */
  function Delta(ops: Ops, w: World, x: OpId, c: CtId): Event {
    if !CountsOn(ops, w, x, c) then Event(0, 0)
    else
      var amt := ops[x].effect.amt;
      Event(amt.success, if amt.success == 0 then amt.failure else 0)
  }

  function Plus(a: Event, b: Event): Event { Event(a.success + b.success, a.failure + b.failure) }

  function Total(xs: seq<OpId>, f: OpId -> Event): Event {
    if xs == [] then Event(0, 0) else Plus(f(xs[0]), Total(xs[1..], f))
  }

  /** What each operation adds to counter c, given the flags of world w. */
  function Adds(ops: Ops, w: World, c: CtId): OpId -> Event {
    (x: OpId) => Delta(ops, w, x, c)
  }

  ghost predicate NoSets(ops: Ops) { forall x :: x in ops ==> !ops[x].effect.SetOp? }

  /** The flags and counters of w are those of v: Delta and Total agree on them. */
  ghost predicate SameFlags(v: World, w: World) {
    v.Keys == w.Keys && forall c :: c in v ==> v[c].interrupt == w[c].interrupt
  }

  lemma {:induction false} TotalFlags(ops: Ops, v: World, w: World, xs: seq<OpId>, c: CtId)
    requires SameFlags(v, w)
    ensures Total(xs, Adds(ops, v, c)) == Total(xs, Adds(ops, w, c))
  {
    if xs == [] {
    } else {
      TotalFlags(ops, v, w, xs[1..], c);
      assert Adds(ops, v, c)(xs[0]) == Adds(ops, w, c)(xs[0]);
    }
  }

  lemma RemovedEffect(ops: Ops, w: World, c: CtId, x: OpId)
    requires WellFormed(ops, w) && c in w && x in w[c].trig
    ensures SameFlags(w, Removed(w, c, x)) && WellFormed(ops, Removed(w, c, x))
  {
    UnlinkFacts(w[c].trig, x);
  }

  lemma EffectedEffect(ops: Ops, w: World, e: Effect)
    requires WellFormed(ops, w) && (!e.MoveOp? ==> e.target in w)
    ensures SameFlags(w, Effected(w, e)) && WellFormed(ops, Effected(w, e))
    ensures forall c :: c in w ==> Effected(w, e)[c].trig == w[c].trig
  {
    EffectedLists(w, e);
    var w' := Effected(w, e);
    forall c, x | c in w' && x in w'[c].trig ensures x in ops && ops[x].home == c {
      assert x in w[c].trig;
    }
  }

  lemma EffectedLists(w: World, e: Effect)
    requires !e.MoveOp? ==> e.target in w
    ensures SameFlags(w, Effected(w, e))
    ensures forall c :: c in w ==> Effected(w, e)[c].trig == w[c].trig
  {
  }

  lemma ReleaseEffect(ops: Ops, w: World, x: OpId)
    requires WellFormed(ops, w) && Enabled(ops, w, x)
    ensures var w1 := Release(ops, w, x);
            && SameFlags(w, w1) && WellFormed(ops, w1)
            && forall c :: c in w ==>
                 w1[c].trig == (if c == ops[x].home then Unlink(w[c].trig, x) else w[c].trig)
  {
    var c := ops[x].home;
    RemovedEffect(ops, w, c, x);
    EffectedEffect(ops, Removed(w, c, x), ops[x].effect);
  }

  lemma ReleaseFlags(ops: Ops, w: World, x: OpId)
    requires Enabled(ops, w, x)
    ensures SameFlags(w, Release(ops, w, x))
  {
  }

  lemma ReleaseAdds(ops: Ops, w: World, x: OpId, c: CtId)
    requires NoSets(ops) && Enabled(ops, w, x) && c in w
    ensures Release(ops, w, x)[c].event == Plus(w[c].event, Delta(ops, w, x, c))
  {
    var h := ops[x].home;
    var w1 := Removed(w, h, x);
    assert w1.Keys == w.Keys && w1[c].event == w[c].event && w1[c].interrupt == w[c].interrupt;
    if !w[h].interrupt {
      EffectAdds(w1, ops[x].effect, c);
    }
  }

  lemma EffectAdds(w: World, e: Effect, c: CtId)
    requires c in w && !e.SetOp? && (!e.MoveOp? ==> e.target in w)
    ensures Effected(w, e)[c].event ==
      if (e.IncOp? && e.target == c && !w[c].interrupt) || (e.CountingMoveOp? && e.target == c)
      then Added(w[c].event, e.amt) else w[c].event
  {
  }

  /** After any legal sequence every list has lost exactly the released operations and
      every counter has gained exactly what they add. */
  lemma {:induction false} LegalLists(ops: Ops, w: World, xs: seq<OpId>, w': World, c: CtId)
    requires WellFormed(ops, w) && Legal(ops, w, xs, w') && c in w
    ensures SameFlags(w, w')
    ensures w'[c].trig == Without(w[c].trig, Elems(xs))
  {
    if xs == [] {
      WithoutNone(w[c].trig);
      assert Elems(xs) == {};
    } else {
      var x := xs[0];
      ReleaseEffect(ops, w, x);
      LegalLists(ops, Release(ops, w, x), xs[1..], w', c);
      ReleasedList(ops, w, xs, c);
    }
  }

  lemma ReleasedList(ops: Ops, w: World, xs: seq<OpId>, c: CtId)
    requires WellFormed(ops, w) && xs != [] && Enabled(ops, w, xs[0]) && c in w
    ensures c in Release(ops, w, xs[0])
    ensures Without(Release(ops, w, xs[0])[c].trig, Elems(xs[1..])) == Without(w[c].trig, Elems(xs))
  {
    var x := xs[0];
    ReleaseEffect(ops, w, x);
    assert Elems(xs) == Elems(xs[1..]) + {x};
    if c == ops[x].home {
      WithoutUnlink(w[c].trig, x, Elems(xs[1..]));
    } else {
      WithoutOutside(w[c].trig, x, Elems(xs[1..]));
    }
  }

  lemma {:induction false} LegalValues(ops: Ops, w: World, xs: seq<OpId>, w': World, c: CtId)
    requires NoSets(ops) && Legal(ops, w, xs, w') && c in w
    ensures c in w'
    ensures w'[c].event.success == w[c].event.success + Total(xs, Adds(ops, w, c)).success
    ensures w'[c].event.failure == w[c].event.failure + Total(xs, Adds(ops, w, c)).failure
  {
    if xs == [] {
    } else {
      var w1 := Release(ops, w, xs[0]);
      ReleaseFlags(ops, w, xs[0]);
      ReleaseAdds(ops, w, xs[0], c);
      LegalValues(ops, w1, xs[1..], w', c);
      TotalFlags(ops, w, w1, xs[1..], c);
      assert Adds(ops, w, c)(xs[0]) == Delta(ops, w, xs[0], c);
    }
  }

  predicate WasQueued(ops: Ops, w: World, x: OpId) { x in ops && ops[x].home in w && x in w[ops[x].home].trig }

  lemma StillQueued(ops: Ops, w: World, x: OpId, y: OpId)
    requires WellFormed(ops, w) && Enabled(ops, w, x) && WasQueued(ops, Release(ops, w, x), y)
    ensures WasQueued(ops, w, y) && y != x
  {
    ReleaseEffect(ops, w, x);
    UnlinkFacts(w[ops[x].home].trig, x);
  }

  lemma NoDupCons(x: OpId, xs: seq<OpId>)
    requires NoDup(xs) && x !in xs
    ensures NoDup([x] + xs)
  {
  }

  /** Each operation is released at most once, from its own counter's list. */
  lemma {:induction false} LegalOnce(ops: Ops, w: World, xs: seq<OpId>, w': World)
    requires WellFormed(ops, w) && Legal(ops, w, xs, w')
    ensures NoDup(xs)
    ensures forall x :: x in xs ==> WasQueued(ops, w, x)
  {
    if xs == [] {
    } else {
      var x := xs[0];
      ReleaseEffect(ops, w, x);
      LegalOnce(ops, Release(ops, w, x), xs[1..], w');
      forall y | y in xs[1..] ensures WasQueued(ops, w, y) && y != x {
        StillQueued(ops, w, x, y);
      }
      NoDupCons(x, xs[1..]);
      assert xs == [x] + xs[1..];
    }
  }

  // ---------------------------------------------------------------------------
  // Order does not matter
  // ---------------------------------------------------------------------------

  lemma {:induction false} TotalSplit(xs: seq<OpId>, ys: seq<OpId>, f: OpId -> Event)
    ensures Total(xs + ys, f) == Plus(Total(xs, f), Total(ys, f))
  {
    if xs == [] {
      assert xs + ys == ys;
    } else {
      var zs := xs + ys;
      assert zs[0] == xs[0] && zs[1..] == xs[1..] + ys;
      TotalSplit(xs[1..], ys, f);
    }
  }

  /** Fewer operations add no more. */
  lemma {:induction false} TotalSubset(xs: seq<OpId>, ys: seq<OpId>, f: OpId -> Event)
    requires NoDup(xs) && NoDup(ys) && forall x :: x in xs ==> x in ys
    ensures Total(xs, f).success <= Total(ys, f).success
    ensures Total(xs, f).failure <= Total(ys, f).failure
  {
    if xs == [] {
    } else {
      var x := xs[0];
      var i := Idx(ys, x);
      var rest := Unlink(ys, x);
      UnlinkFacts(ys, x);
      TotalSubset(xs[1..], rest, f);
      assert ys == ys[..i] + ([x] + ys[i + 1..]);
      TotalSplit(ys[..i], [x] + ys[i + 1..], f);
      TotalSplit(ys[..i], ys[i + 1..], f);
      assert ([x] + ys[i + 1..])[1..] == ys[i + 1..];
    }
  }

  lemma {:induction false} LegalPrefix(ops: Ops, w: World, xs: seq<OpId>, w': World, k: nat) returns (wk: World)
    requires Legal(ops, w, xs, w') && k < |xs|
    ensures Legal(ops, w, xs[..k], wk) && Enabled(ops, wk, xs[k])
  {
    if k == 0 {
      wk := w;
      assert xs[..0] == [];
    } else {
      wk := LegalPrefix(ops, Release(ops, w, xs[0]), xs[1..], w', k - 1);
      assert xs[1..][..k - 1] == xs[..k][1..];
    }
  }

  /** Whatever one legal sequence releases, every settled one releases too. */
  lemma {:induction false} ReleasedBySettled(ops: Ops, w: World, xs: seq<OpId>, w1: World,
                                             ys: seq<OpId>, w2: World, k: nat)
    requires NoSets(ops) && WellFormed(ops, w)
    requires Legal(ops, w, xs, w1) && Legal(ops, w, ys, w2) && Settled(ops, w2)
    requires k <= |xs|
    ensures forall x :: x in xs[..k] ==> x in ys
  {
    if k == 0 {
    } else {
      ReleasedBySettled(ops, w, xs, w1, ys, w2, k - 1);
      var x := xs[k - 1];
      assert xs[..k] == xs[..k - 1] + [x];
      var wk := LegalPrefix(ops, w, xs, w1, k - 1);
      LegalKeys(ops, w, xs[..k - 1], wk);
      var c := ops[x].home;
      LegalLists(ops, w, xs[..k - 1], wk, c);
      LegalLists(ops, w, ys, w2, c);
      MoreReleased(ops, w, xs[..k - 1], wk, ys, w2, c);
      assert x in ys by {
        if x !in ys {
          assert x in w2[c].trig && Ready(ops, w2[c], x);
        }
      }
    }
  }

  lemma MoreReleased(ops: Ops, w: World, xs: seq<OpId>, w1: World, ys: seq<OpId>, w2: World, c: CtId)
    requires NoSets(ops) && WellFormed(ops, w) && c in w
    requires Legal(ops, w, xs, w1) && Legal(ops, w, ys, w2) && forall x :: x in xs ==> x in ys
    ensures c in w1 && c in w2
    ensures w1[c].event.success <= w2[c].event.success && w1[c].event.failure <= w2[c].event.failure
  {
    LegalValues(ops, w, xs, w1, c);
    LegalValues(ops, w, ys, w2, c);
    LegalOnce(ops, w, xs, w1);
    LegalOnce(ops, w, ys, w2);
    TotalSubset(xs, ys, Adds(ops, w, c));
  }

  lemma {:induction false} LegalKeys(ops: Ops, w: World, xs: seq<OpId>, w': World)
    requires Legal(ops, w, xs, w')
    ensures w'.Keys == w.Keys
  {
    if xs == [] {
    } else {
      LegalKeys(ops, Release(ops, w, xs[0]), xs[1..], w');
    }
  }

  lemma AllReleased(ops: Ops, w: World, xs: seq<OpId>, w1: World, ys: seq<OpId>, w2: World)
    requires NoSets(ops) && WellFormed(ops, w)
    requires Legal(ops, w, xs, w1) && Legal(ops, w, ys, w2) && Settled(ops, w2)
    ensures Elems(xs) <= Elems(ys)
  {
    ReleasedBySettled(ops, w, xs, w1, ys, w2, |xs|);
    assert xs[..|xs|] == xs;
  }

  /** Confluence: without set operations any two ways of releasing operations until
      none is ready release the same operations and end in the same world. */
  lemma OrderIrrelevant(ops: Ops, w: World, xs: seq<OpId>, w1: World, ys: seq<OpId>, w2: World)
    requires NoSets(ops) && WellFormed(ops, w)
    requires Legal(ops, w, xs, w1) && Settled(ops, w1)
    requires Legal(ops, w, ys, w2) && Settled(ops, w2)
    ensures Elems(xs) == Elems(ys)
    ensures w1 == w2
  {
    AllReleased(ops, w, xs, w1, ys, w2);
    AllReleased(ops, w, ys, w2, xs, w1);
    LegalKeys(ops, w, xs, w1);
    LegalKeys(ops, w, ys, w2);
    forall c | c in w ensures w1[c] == w2[c] {
      SameAt(ops, w, xs, w1, ys, w2, c);
    }
  }

  lemma SameAt(ops: Ops, w: World, xs: seq<OpId>, w1: World, ys: seq<OpId>, w2: World, c: CtId)
    requires NoSets(ops) && WellFormed(ops, w) && c in w
    requires Legal(ops, w, xs, w1) && Legal(ops, w, ys, w2) && Elems(xs) == Elems(ys)
    ensures c in w1 && c in w2 && w1[c] == w2[c]
  {
    LegalLists(ops, w, xs, w1, c);
    LegalLists(ops, w, ys, w2, c);
    assert forall x :: x in xs <==> x in Elems(xs);
    assert forall x :: x in ys <==> x in Elems(ys);
    MoreReleased(ops, w, xs, w1, ys, w2, c);
    MoreReleased(ops, w, ys, w2, xs, w1, c);
  }

  // ---------------------------------------------------------------------------
  // Moves that count several events
  // ---------------------------------------------------------------------------

  ghost predicate NeverSet(ops: Ops, c: CtId) {
    forall x :: x in ops && ops[x].effect.SetOp? ==> ops[x].effect.target != c
  }

  lemma {:induction false} NeverFalls(ops: Ops, w: World, xs: seq<OpId>, w': World, c: CtId)
    requires NeverSet(ops, c) && Legal(ops, w, xs, w') && c in w
    ensures c in w' && w[c].event.Sum() <= w'[c].event.Sum()
  {
    if xs == [] {
    } else {
      NeverFalls(ops, Release(ops, w, xs[0]), xs[1..], w', c);
    }
  }

  /** The own counter of a move x stands at one or more once x has been released. */
  lemma {:induction false} MoveMade(ops: Ops, w: World, xs: seq<OpId>, w': World, x: OpId, p: CtId)
    requires NeverSet(ops, p) && Legal(ops, w, xs, w') && p in w && !w[p].interrupt
    requires x in xs && x in ops && ops[x].effect == IncOp(p, Event(1, 0))
    requires ops[x].home in w && !w[ops[x].home].interrupt
    ensures p in w' && w'[p].event.Sum() >= 1
  {
    var w1 := Release(ops, w, xs[0]);
    ReleaseFlags(ops, w, xs[0]);
    if xs[0] == x {
      assert w1[p].event.Sum() >= 1;
      NeverFalls(ops, w1, xs[1..], w', p);
    } else {
      MoveMade(ops, w1, xs[1..], w', x, p);
    }
  }

  /** All the events a move counts, whatever they release in between: with its own counter
      settled none of the counts waiting there is left out. */
  lemma MoveCounts(ops: Ops, w: World, xs: seq<OpId>, w': World, x: OpId, p: CtId, count: OpId)
    requires WellFormed(ops, w) && NeverSet(ops, p) && p in w && !w[p].interrupt
    requires Legal(ops, w, xs, w') && p in w' && SettledAt(ops, w'[p])
    requires x in xs && x in ops && ops[x].effect == IncOp(p, Event(1, 0))
    requires ops[x].home in w && !w[ops[x].home].interrupt
    requires count in w[p].trig && ops[count].threshold <= 1
    ensures count in xs
  {
    MoveMade(ops, w, xs, w', x, p);
    LegalLists(ops, w, xs, w', p);
    assert count in w'[p].trig ==> Ready(ops, w'[p], count);
  }
}
