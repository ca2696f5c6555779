/** The counting-event engine run by one thread at a time: ct_inc, ct_set and
    make_ct_event update a counter and walk its list; releasing an operation may
    increment or set any counter, including the one being walked, which starts a
    nested walk over the same shared cursor.  Every call is shown to be a legal
    sequence of releases (module CascadeSpec) that ends with nothing left to release. */
module Cascade {

  import opened TrigList
  import opened CascadeSpec

  /** struct ct; listSize is the separate atomic list_size, tmp is trig_list_tmp. */
  datatype Ct = Ct(event: Event, interrupt: bool, listSize: int, trig: seq<OpId>, tmp: Cursor)

  type Cts = map<CtId, Ct>

  function ViewCt(ct: Ct): ACt { ACt(ct.event, ct.interrupt, ct.trig) }

  function View(cts: Cts): World { map c | c in cts :: ViewCt(cts[c]) }

  lemma ViewUpdate(cts: Cts, c: CtId, ct: Ct)
    requires c in cts
    ensures View(cts[c := ct]) == View(cts)[c := ViewCt(ct)]
  {
  }

  /** list_size never exceeds the length of the list. */
  ghost predicate SoundCt(ct: Ct) {
    ct.listSize <= |ct.trig| && (ct.tmp == Unset || Linked(ct.trig, ct.tmp))
  }

  /** By how much list_size falls short of the length of the list. */
  function Short(ct: Ct): int { |ct.trig| - ct.listSize }

  /** Every list_size is the length of its list. */
  ghost predicate Exact(cts: Cts) { forall c :: c in cts ==> Short(cts[c]) == 0 }

  /** What every call but PtlCTFree keeps. */
  ghost predicate Kept(a: Cts, b: Cts) {
    a.Keys == b.Keys && forall c :: c in a ==> Short(b[c]) == Short(a[c]) && (a[c].tmp != Unset ==> b[c].tmp != Unset)
  }

  ghost predicate Sound(ops: Ops, cts: Cts) {
    WellFormed(ops, View(cts)) && forall c :: c in cts ==> SoundCt(cts[c])
  }

  /** A counter a call leaves alone, or leaves with nothing ready.  Only one whose own
      list_size is the length of its list can be relied on for that. */
  ghost predicate CalmCt(ops: Ops, old1: Ct, new1: Ct) {
    Short(old1) == 0 ==> new1 == old1 || SettledAt(ops, ViewCt(new1))
  }

  ghost predicate Calm(ops: Ops, before: Cts, after: Cts) {
    Kept(before, after) && forall c :: c in before ==> CalmCt(ops, before[c], after[c])
  }

  /** Calm except at the counter being walked. */
  ghost predicate CalmBut(ops: Ops, before: Cts, after: Cts, c: CtId) {
    Kept(before, after) && forall d :: d in before && d != c ==> CalmCt(ops, before[d], after[d])
  }

  function Queued(cts: Cts): set<OpId> { set c, x | c in cts && x in cts[c].trig :: x }

  /** list_del(l); atomic_dec(&ct->list_size) */
  function Taken(cts: Cts, c: CtId, x: OpId): Cts
    requires c in cts
  {
    cts[c := cts[c].(trig := Unlink(cts[c].trig, x), listSize := cts[c].listSize - 1)]
  }

  function Pointed(cts: Cts, c: CtId, cur: Cursor): Cts
    requires c in cts
  {
    cts[c := cts[c].(tmp := cur)]
  }

  lemma PointedFacts(ops: Ops, cts: Cts, c: CtId, cur: Cursor)
    requires Sound(ops, cts) && c in cts && Linked(cts[c].trig, cur)
    ensures View(Pointed(cts, c, cur)) == View(cts) && Queued(Pointed(cts, c, cur)) == Queued(cts)
    ensures Sound(ops, Pointed(cts, c, cur))
  {
    ViewUpdate(cts, c, Pointed(cts, c, cur)[c]);
    assert View(cts)[c] == ViewCt(cts[c]);
    SameQueued(cts, Pointed(cts, c, cur));
  }

  lemma SameQueued(a: Cts, b: Cts)
    requires a.Keys == b.Keys && forall c :: c in a ==> a[c].trig == b[c].trig
    ensures Queued(a) == Queued(b)
  {
    forall x ensures x in Queued(a) <==> x in Queued(b) {
      if x in Queued(a) {
        var c :| c in a && x in a[c].trig;
        assert x in b[c].trig;
      }
      if x in Queued(b) {
        var c :| c in b && x in b[c].trig;
        assert x in a[c].trig;
      }
    }
  }

  lemma InView(ops: Ops, cts: Cts, c: CtId, x: OpId)
    requires WellFormed(ops, View(cts)) && c in cts && x in cts[c].trig
    ensures x in ops && ops[x].home == c && NoDup(cts[c].trig)
    ensures !ops[x].effect.MoveOp? ==> ops[x].effect.target in cts
  {
    assert View(cts)[c].trig == cts[c].trig;
  }

  lemma TakenQueued(ops: Ops, cts: Cts, c: CtId, x: OpId)
    requires WellFormed(ops, View(cts)) && c in cts && x in cts[c].trig
    ensures Queued(Taken(cts, c, x)) <= Queued(cts) && x in Queued(cts) && x !in Queued(Taken(cts, c, x))
  {
    var cts1 := Taken(cts, c, x);
    InView(ops, cts, c, x);
    UnlinkFacts(cts[c].trig, x);
    forall y | y in Queued(cts1) ensures y in Queued(cts) && y != x {
      var d :| d in cts1 && y in cts1[d].trig;
      assert y in cts[d].trig;
      InView(ops, cts, d, y);
    }
  }

  /** Taking an operation off the list a walker stands on keeps everything in order,
      the cursor included. */
  lemma TakenFacts(ops: Ops, cts: Cts, c: CtId, x: OpId)
    requires Sound(ops, cts) && c in cts && x in cts[c].trig && cts[c].tmp == Prev(cts[c].trig, At(x))
    ensures Sound(ops, Taken(cts, c, x))
    ensures View(Taken(cts, c, x)) == Removed(View(cts), c, x)
    ensures Linked(Taken(cts, c, x)[c].trig, cts[c].tmp)
    ensures Pos(Taken(cts, c, x)[c].trig, cts[c].tmp) == Idx(cts[c].trig, x)
  {
    var cts1 := Taken(cts, c, x);
    InView(ops, cts, c, x);
    UnlinkFacts(cts[c].trig, x);
    UnlinkCursor(cts[c].trig, x);
    ViewUpdate(cts, c, cts1[c]);
    assert View(cts)[c] == ViewCt(cts[c]);
    RemovedEffect(ops, View(cts), c, x);
    assert SoundCt(cts1[c]);
  }

  lemma Prepend(ops: Ops, w: World, x: OpId, xs: seq<OpId>, w': World)
    requires Enabled(ops, w, x) && Legal(ops, Release(ops, w, x), xs, w')
    ensures Legal(ops, w, [x] + xs, w')
  {
    assert ([x] + xs)[1..] == xs;
  }

  /** Everything there is to know about taking a ready operation off its list. */
  lemma TakeReady(ops: Ops, cts: Cts, c: CtId, x: OpId)
    requires Sound(ops, cts) && c in cts && x in cts[c].trig && cts[c].tmp == Prev(cts[c].trig, At(x))
    requires Ready(ops, ViewCt(cts[c]), x) && Seen(ops, cts, c, At(x))
    ensures Sound(ops, Taken(cts, c, x)) && Queued(Taken(cts, c, x)) < Queued(cts) && x !in Queued(Taken(cts, c, x))
    ensures x in ops && (!ops[x].effect.MoveOp? ==> ops[x].effect.target in cts)
    ensures Seen(ops, Taken(cts, c, x), c, cts[c].tmp) && cts[c].tmp != Unset
    ensures Enabled(ops, View(cts), x)
    ensures Release(ops, View(cts), x) ==
            if cts[c].interrupt then View(Taken(cts, c, x)) else Effected(View(Taken(cts, c, x)), ops[x].effect)
    ensures CalmBut(ops, cts, Taken(cts, c, x), c)
  {
    InView(ops, cts, c, x);
    TakenFacts(ops, cts, c, x);
    TakenQueued(ops, cts, c, x);
    TakenShort(cts, c, x);
    if Short(cts[c]) == 0 {
      TakenSeen(ops, cts[c], x);
    }
    TakenRelease(ops, cts, c, x);
  }

  lemma TakenRelease(ops: Ops, cts: Cts, c: CtId, x: OpId)
    requires c in cts && x in ops && ops[x].home == c && x in cts[c].trig && Ready(ops, ViewCt(cts[c]), x)
    requires !ops[x].effect.MoveOp? ==> ops[x].effect.target in cts
    requires View(Taken(cts, c, x)) == Removed(View(cts), c, x)
    ensures Enabled(ops, View(cts), x)
    ensures Release(ops, View(cts), x) ==
            if cts[c].interrupt then View(Taken(cts, c, x)) else Effected(View(Taken(cts, c, x)), ops[x].effect)
  {
    assert View(cts)[c] == ViewCt(cts[c]);
  }

  class Engine {
    var ops: Ops
    var cts: Cts
    var log: seq<OpId>   // operations taken off the lists, in order

    ghost predicate Valid()
      reads this
    {
      Sound(ops, cts)
    }

    /** ct_check.  The result names the operations that left their lists. */
    method CtCheck(c: CtId) returns (ghost xs: seq<OpId>)
      requires Valid() && c in cts
      modifies this`cts, this`log
      ensures Valid() && log == old(log) + xs && Queued(cts) <= Queued(old(cts))
      ensures Legal(ops, View(old(cts)), xs, View(cts))
      ensures CalmBut(ops, old(cts), cts, c) && cts[c].tmp != Unset
      ensures Short(cts[c]) == 0 || Simple(ops, old(cts)[c]) ==> SettledAt(ops, ViewCt(cts[c]))
      ensures Simple(ops, old(cts)[c]) ==> InOrder(ops, old(cts), cts, c, xs, [])
      ensures FirstGone(ops, old(cts), c, cts)
      ensures Takes(ops, old(cts), c, old(cts)[c].event, cts, xs)
      decreases Queued(cts), 0, 4
    {
      xs := Walk(c);
      Finish(ops, old(cts), old(log), cts, log, c, xs);
    }

    /** The loop of ct_check: list_for_each_prev_safe with the shared cursor. */
    method Walk(c: CtId) returns (ghost xs: seq<OpId>)
      requires Valid() && c in cts
      modifies this`cts, this`log
      ensures Walking(ops, old(cts), old(log), cts, log, c, xs, Head) && Ordered(ops, old(cts), cts, c, xs, Head)
      ensures FirstGone(ops, old(cts), c, cts) && Untouched(ops, old(cts), c, cts, xs)
      decreases Queued(cts), 0, 3
    {
      var pos := Oldest(cts[c].trig);
      Start(ops, cts, log, c);
      cts := Pointed(cts, c, Prev(cts[c].trig, pos));
      xs := [];
      while pos != Head
        invariant Walking(ops, old(cts), old(log), cts, log, c, xs, pos) && Ordered(ops, old(cts), cts, c, xs, pos)
        invariant FirstPassed(ops, old(cts), c, cts, pos) && Untouched(ops, old(cts), c, cts, xs)
        decreases Queued(cts), |cts[c].trig| - Pos(cts[c].trig, pos)
      {
        pos, xs := Follow(c, pos, old(cts), old(log), xs);
      }
    }

    /** One turn of the loop: the element at pos, then the shared cursor. */
    method Follow(c: CtId, pos: Cursor, ghost cts0: Cts, ghost log0: seq<OpId>, ghost xs0: seq<OpId>)
      returns (next: Cursor, ghost xs: seq<OpId>)
      requires Walking(ops, cts0, log0, cts, log, c, xs0, pos) && Ordered(ops, cts0, cts, c, xs0, pos) && pos != Head
      requires FirstPassed(ops, cts0, c, cts, pos) && Untouched(ops, cts0, c, cts, xs0)
      modifies this`cts, this`log
      ensures Walking(ops, cts0, log0, cts, log, c, xs, next) && Ordered(ops, cts0, cts, c, xs, next)
      ensures || Queued(cts) < Queued(old(cts))
              || (&& Queued(cts) == Queued(old(cts)) && |cts[c].trig| == |old(cts)[c].trig|
                  && Pos(cts[c].trig, next) > Pos(old(cts)[c].trig, pos))
      ensures FirstPassed(ops, cts0, c, cts, next) && Untouched(ops, cts0, c, cts, xs)
      decreases Queued(cts), 0, 2
    {
      ghost var ys := Visit(c, pos.op);
      Turn(ops, cts0, log0, old(cts), old(log), c, xs0, pos.op, cts, log, ys);
      xs := xs0 + ys;
      next := cts[c].tmp;
      cts := Pointed(cts, c, Prev(cts[c].trig, next));
    }

    /** One turn of the walk, at element x. */
    method Visit(c: CtId, x: OpId) returns (ghost xs: seq<OpId>)
      requires Valid() && c in cts && x in cts[c].trig && cts[c].tmp == Prev(cts[c].trig, At(x))
      requires Seen(ops, cts, c, At(x))
      modifies this`cts, this`log
      ensures Turned(ops, old(cts), old(log), c, x, cts, log, xs)
      decreases Queued(cts), 0, 1
    {
      InView(ops, cts, c, x);
      xs := [];
      if cts[c].interrupt || cts[c].event.Sum() >= ops[x].threshold {
        xs := Take(c, x);
      } else {
        SeenNext(ops, cts, c, x);
      }
    }

    /** The walk at an element x that is ready: it leaves the list and, unless the
        counter is interrupted, runs.  A nested walk of the same counter may have moved
        the cursor anywhere, but then nothing is left ready; otherwise everything
        before the cursor has been seen to be unready. */
    method Take(c: CtId, x: OpId) returns (ghost xs: seq<OpId>)
      requires Valid() && c in cts && x in cts[c].trig && cts[c].tmp == Prev(cts[c].trig, At(x))
      requires Ready(ops, ViewCt(cts[c]), x) && Seen(ops, cts, c, At(x))
      modifies this`cts, this`log
      ensures Valid() && log == old(log) + xs && Queued(cts) < Queued(old(cts)) && x !in Queued(cts)
      ensures Legal(ops, View(old(cts)), xs, View(cts))
      ensures CalmBut(ops, old(cts), cts, c) && cts[c].tmp != Unset
      ensures Seen(ops, cts, c, cts[c].tmp)
      ensures old(cts)[c].interrupt || ops[x].effect.MoveOp? ==> xs == [x] && cts == Taken(old(cts), c, x)
      decreases Queued(cts), 0, 0
    {
      TakeReady(ops, cts, c, x);
      var discard := cts[c].interrupt;
      cts := Taken(cts, c, x);
      ghost var cts1 := cts;
      log := log + [x];
      xs := [];
      if !discard {
        xs := DoTrigOp(x);
        Ran(ops, old(cts), cts1, cts, c);
      }
      Prepend(ops, View(old(cts)), x, xs, View(cts));
      Assoc(old(log), [x], xs);
      xs := [x] + xs;
    }

    /** do_trig_ct_op, or process_init for a triggered move */
    method DoTrigOp(x: OpId) returns (ghost xs: seq<OpId>)
      requires Valid() && x in ops && (!ops[x].effect.MoveOp? ==> ops[x].effect.target in cts)
      modifies this`cts, this`log
      ensures Valid() && log == old(log) + xs && Queued(cts) <= Queued(old(cts))
      ensures Legal(ops, Effected(View(old(cts)), ops[x].effect), xs, View(cts))
      ensures Calm(ops, old(cts), cts)
      ensures ops[x].effect.MoveOp? ==> xs == [] && cts == old(cts)
      ensures Acts(ops, ops[x].effect, old(cts), cts, xs)
      decreases Queued(cts), 4
    {
      xs := [];
      match ops[x].effect
      case IncOp(d, amt) =>
        if !cts[d].interrupt {
          xs := CtInc(d, amt);
        }
      case SetOp(d, val) =>
        if !cts[d].interrupt {
          xs := CtSet(d, val);
        }
      case MoveOp =>
      case CountingMoveOp(d, amt) =>
        xs := MakeCtEvent(d, amt);
    }

    /** The common part of ct_inc and ct_set: the new value, and the walk if the caller has
        found list_size to ask for one. */
    method Store(c: CtId, e: Event, walk: bool) returns (ghost xs: seq<OpId>)
      requires Valid() && c in cts && (walk || (Short(cts[c]) == 0 ==> cts[c].trig == []))
      modifies this`cts, this`log
      ensures Valid() && log == old(log) + xs && Queued(cts) <= Queued(old(cts))
      ensures Legal(ops, Assign(View(old(cts)), c, e), xs, View(cts))
      ensures Calm(ops, old(cts), cts) && (Short(cts[c]) == 0 ==> SettledAt(ops, ViewCt(cts[c])))
      ensures Heeded(ops, old(cts), c, e, walk, cts, xs) && Takes(ops, old(cts), c, e, cts, xs)
      decreases Queued(cts), 1
    {
      Recounted(ops, cts, c, e);
      cts := cts[c := cts[c].(event := e)];
      ghost var cts1 := cts;
      xs := [];
      if walk {
        xs := CtCheck(c);
      }
      CalmChanged(ops, old(cts), cts1, cts, c);
      SimpleRecounted(ops, old(cts)[c], cts1[c]);
      Stored(ops, old(cts), cts1, c, cts, xs);
    }

    /** ct_inc.  The list is walked exactly when it is longer than list_size falls short. */
    method CtInc(c: CtId, amt: Event) returns (ghost xs: seq<OpId>)
      requires Valid() && c in cts
      modifies this`cts, this`log
      ensures Valid() && log == old(log) + xs && Queued(cts) <= Queued(old(cts))
      ensures Legal(ops, Inc(View(old(cts)), c, amt), xs, View(cts))
      ensures Calm(ops, old(cts), cts) && (Short(cts[c]) == 0 ==> SettledAt(ops, ViewCt(cts[c])))
      ensures Heeded(ops, old(cts), c, Added(old(cts)[c].event, amt), old(|cts[c].trig| > Short(cts[c])), cts, xs)
      ensures OneField(amt) ==> Takes(ops, old(cts), c, Raised(old(cts), c, amt), cts, xs)
      decreases Queued(cts), 2
    {
      RaisedAdded(cts, c, amt);
      xs := Store(c, Added(cts[c].event, amt), cts[c].listSize > 0);
    }

    /** ct_set */
    method CtSet(c: CtId, val: Event) returns (ghost xs: seq<OpId>)
      requires Valid() && c in cts
      modifies this`cts, this`log
      ensures Valid() && log == old(log) + xs && Queued(cts) <= Queued(old(cts))
      ensures Legal(ops, Assign(View(old(cts)), c, val), xs, View(cts))
      ensures Calm(ops, old(cts), cts) && (Short(cts[c]) == 0 ==> SettledAt(ops, ViewCt(cts[c])))
      ensures Heeded(ops, old(cts), c, val, old(|cts[c].trig| != Short(cts[c])), cts, xs)
      ensures Takes(ops, old(cts), c, val, cts, xs)
      decreases Queued(cts), 2
    {
      xs := Store(c, val, cts[c].listSize != 0);
    }

    /** make_ct_event: one field grows, and list_size is tested as in ct_set. */
    method MakeCtEvent(c: CtId, amt: Event) returns (ghost xs: seq<OpId>)
      requires Valid() && c in cts
      modifies this`cts, this`log
      ensures Valid() && log == old(log) + xs && Queued(cts) <= Queued(old(cts))
      ensures Legal(ops, Inc(View(old(cts)), c, amt), xs, View(cts))
      ensures Calm(ops, old(cts), cts)
      ensures OneField(amt) ==> Takes(ops, old(cts), c, Raised(old(cts), c, amt), cts, xs)
      decreases Queued(cts), 3
    {
      RaisedAdded(cts, c, amt);
      xs := CtSet(c, Added(cts[c].event, amt));
    }

    /** PtlCTInc */
    method PtlCtInc(c: CtId, amt: Event) returns (ok: bool, ghost xs: seq<OpId>)
      requires Valid()
      modifies this`cts, this`log
      ensures Valid() && log == old(log) + xs && Kept(old(cts), cts)
      ensures ok <==> c in old(cts) && (amt.success == 0 || amt.failure == 0)
      ensures !ok ==> cts == old(cts) && xs == []
      ensures ok ==> Legal(ops, Inc(View(old(cts)), c, amt), xs, View(cts))
      ensures ok ==> Heeded(ops, old(cts), c, Added(old(cts)[c].event, amt),
                            old(|cts[c].trig| > Short(cts[c])), cts, xs)
      ensures StillSettled(ops, old(cts), ops, cts, {})
      ensures ok && old(Short(cts[c])) == 0 ==> SettledAt(ops, ViewCt(cts[c]))
      ensures ok ==> Takes(ops, old(cts), c, Raised(old(cts), c, amt), cts, xs)
      ensures ok && NoSets(ops) ==> Tallied(ops, old(cts), c, amt, xs, cts)
      ensures ok && old(Short(cts[c])) == 0 && !cts[c].interrupt ==>
                forall x :: x in cts[c].trig ==> x in ops && cts[c].event.Sum() < ops[x].threshold
      ensures ok && NoSets(ops) && Exact(old(cts)) && Settled(ops, View(old(cts))) ==>
                OnlyOutcome(ops, Inc(View(old(cts)), c, amt), View(cts))
    {
      ok := c in cts && !(amt.failure > 0 && amt.success > 0);
      xs := [];
      if ok {
        Recounted(ops, cts, c, Added(cts[c].event, amt));
        xs := CtInc(c, amt);
        SettledKept(ops, old(cts), cts);
        if NoSets(ops) {
          TalliedUp(ops, old(cts), c, amt, xs, cts);
        }
        Waiting(ops, cts, c);
        if NoSets(ops) && Exact(old(cts)) && Settled(ops, View(old(cts))) {
          Only(ops, Inc(View(old(cts)), c, amt), xs, View(cts));
        }
      }
    }

    /** PtlCTSet */
    method PtlCtSet(c: CtId, val: Event) returns (ok: bool, ghost xs: seq<OpId>)
      requires Valid()
      modifies this`cts, this`log
      ensures Valid() && log == old(log) + xs && Kept(old(cts), cts)
      ensures ok <==> c in old(cts)
      ensures !ok ==> cts == old(cts) && xs == []
      ensures ok ==> Legal(ops, Assign(View(old(cts)), c, val), xs, View(cts))
      ensures ok ==> Takes(ops, old(cts), c, val, cts, xs)
      ensures StillSettled(ops, old(cts), ops, cts, {})
      ensures ok && old(Short(cts[c])) == 0 ==> SettledAt(ops, ViewCt(cts[c]))
    {
      ok := c in cts;
      xs := [];
      if ok {
        xs := CtSet(c, val);
        SettledKept(ops, old(cts), cts);
      }
    }

    /** post_ct and post_trig_ct: run the operation if its threshold is already met, else
        queue it as the newest.  With nobody else running, the second test of the
        threshold finds what the first one found; module TriggerSteps is about the
        second test. */
    method Post(x: OpId, op: Op) returns (ghost xs: seq<OpId>)
      requires Valid() && x !in ops && op.home in cts && (!op.effect.MoveOp? ==> op.effect.target in cts)
      modifies this
      ensures Valid() && ops == old(ops)[x := op] && log == old(log) + xs && Kept(old(cts), cts)
      ensures old(cts)[op.home].event.Sum() >= op.threshold ==>
                Legal(ops, Effected(View(old(cts)), op.effect), xs, View(cts))
      ensures old(cts)[op.home].event.Sum() < op.threshold ==>
                xs == [] && View(cts) == Linked1(View(old(cts)), op.home, x)
      ensures old(cts)[op.home].event.Sum() >= op.threshold ==> Acts(ops, op.effect, old(cts), cts, xs)
      ensures old(cts)[op.home].event.Sum() < op.threshold ==>
                cts[op.home].trig == old(cts)[op.home].trig + [x] && cts[op.home].event == old(cts)[op.home].event
      ensures StillSettled(old(ops), old(cts), ops, cts, Discarding(old(cts), op))
    {
      var c := op.home;
      Grown(ops, cts, x, op);
      ops := ops[x := op];
      xs := [];
      if cts[c].event.Sum() >= op.threshold {
        xs := DoTrigOp(x);
        SettledKept(ops, old(cts), cts);
      } else {
        LinkFacts(ops, cts, c, x);
        cts := Appended(cts, c, x);
      }
    }

    /** PtlTriggeredCTInc and PtlTriggeredCTSet.  The test before posting bypasses the
        check for an interrupted target that do_trig_ct_op makes. */
    method TriggeredCt(x: OpId, op: Op, bufAvailable: bool) returns (ok: bool, ghost xs: seq<OpId>)
      requires Valid() && x !in ops && (op.effect.IncOp? || op.effect.SetOp?)
      modifies this
      ensures Valid() && log == old(log) + xs && Kept(old(cts), cts)
      ensures ok <==> && op.home in old(cts) && op.effect.target in old(cts)
                      && (op.effect.IncOp? ==> op.effect.amt.success == 0 || op.effect.amt.failure == 0)
                      && (old(cts)[op.home].event.Sum() >= op.threshold || bufAvailable)
      ensures !ok ==> cts == old(cts) && ops == old(ops) && xs == []
      ensures ok && old(cts)[op.home].event.Sum() >= op.threshold ==>
                ops == old(ops) && Legal(ops, Direct(View(old(cts)), op.effect), xs, View(cts))
      ensures ok && old(cts)[op.home].event.Sum() >= op.threshold ==>
                Takes(ops, old(cts), op.effect.target,
                      if op.effect.IncOp? then Raised(old(cts), op.effect.target, op.effect.amt) else op.effect.val, cts, xs)
      ensures ok && old(cts)[op.home].event.Sum() < op.threshold ==>
                cts[op.home].trig == old(cts)[op.home].trig + [x]
      ensures ok && old(cts)[op.home].event.Sum() < op.threshold ==>
                ops == old(ops)[x := op] && xs == [] && View(cts) == Linked1(View(old(cts)), op.home, x)
      ensures StillSettled(old(ops), old(cts), ops, cts, if ok then Discarding(old(cts), op) else {})
    {
      xs := [];
      ok := op.home in cts && op.effect.target in cts
            && (op.effect.IncOp? ==> op.effect.amt.success == 0 || op.effect.amt.failure == 0);
      if !ok {
        return;
      }
      if cts[op.home].event.Sum() >= op.threshold {
        match op.effect
        case IncOp(d, amt) => xs := CtInc(d, amt);
        case SetOp(d, val) => xs := CtSet(d, val);
        SettledKept(ops, old(cts), cts);
      } else if bufAvailable {
        Grown(ops, cts, x, op);
        xs := Post(x, op);
      } else {
        ok := false;
      }
    }

    /** The counter is interrupted and walked: its list is emptied in issue order and no
        other counter changes. */
    method Discard(c: CtId, size: int) returns (ghost xs: seq<OpId>)
      requires Valid() && c in cts && size <= |cts[c].trig|
      modifies this`cts, this`log
      ensures Valid() && xs == old(cts)[c].trig && log == old(log) + xs
      ensures c in cts && cts == old(cts)[c := cts[c]]
      ensures ViewCt(cts[c]) == ACt(old(cts)[c].event, true, []) && cts[c].listSize == size - |old(cts)[c].trig|
      ensures old(cts)[c].tmp != Unset ==> cts[c].tmp != Unset
    {
      var ct := cts[c].(listSize := size, interrupt := true);
      Replaced(ops, cts, c, ct);
      cts := cts[c := ct];
      ghost var cts1 := cts;
      xs := CtCheck(c);
      Discarded(ops, cts1, cts, c, xs);
      Rewritten(old(cts), cts1, cts, c);
    }

    /** PtlCTCancelTriggered: the list is emptied in issue order and nothing else
        changes: no counter's value, no other list. */
    method CancelTriggered(c: CtId) returns (ghost xs: seq<OpId>)
      requires Valid() && c in cts && !cts[c].interrupt
      modifies this`cts, this`log
      ensures Valid() && xs == old(cts)[c].trig && log == old(log) + xs
      ensures c in cts && cts == old(cts)[c := cts[c]]
      ensures ViewCt(cts[c]) == ACt(old(cts)[c].event, false, []) && Kept(old(cts), cts)
    {
      xs := Discard(c, cts[c].listSize);
      Replaced(ops, cts, c, cts[c].(interrupt := false));
      cts := cts[c := cts[c].(interrupt := false)];
    }

    /** PtlCTFree, up to where ct_new would find the object: list_size is lowered to at
        most one, then once more per pending operation by the walk that discards them, and
        neither ct_cleanup nor ct_new sets it.  So it falls short of the emptied list by
        all pending operations but one, and never by less than before. */
    method Free(c: CtId) returns (ghost xs: seq<OpId>)
      requires Valid() && c in cts
      modifies this`cts, this`log
      ensures Valid() && xs == old(cts)[c].trig && log == old(log) + xs
      ensures c in cts && cts == old(cts)[c := cts[c]]
      ensures ViewCt(cts[c]) == ACt(Event(0, 0), false, []) && Short(cts[c]) == FreedShort(old(cts)[c])
      ensures Short(cts[c]) == 0 <==> old(Short(cts[c]) == 0 && |cts[c].trig| <= 1)
    {
      var size := cts[c].listSize;
      while size > 1
        invariant if cts[c].listSize <= 1 then size == cts[c].listSize else 1 <= size <= cts[c].listSize
      {
        size := size - 1;
      }
      xs := Discard(c, size);
      var ct := cts[c].(interrupt := false, event := Event(0, 0));
      Replaced(ops, cts, c, ct);
      cts := cts[c := ct];
    }
  }

  lemma Rewritten(a: Cts, b: Cts, d: Cts, c: CtId)
    requires c in a && c in b && c in d && b == a[c := b[c]] && d == b[c := d[c]]
    ensures d == a[c := d[c]]
  {
  }

  function FreedShort(ct: Ct): int {
    if |ct.trig| - 1 > Short(ct) then |ct.trig| - 1 else Short(ct)
  }

  /** Counter c takes value e, and if none of its operations is ready for that, nothing else
      happens: no release, no other counter, no change of its list. */
  ghost predicate Takes(ops: Ops, before: Cts, c: CtId, e: Event, after: Cts, xs: seq<OpId>)
    requires c in before
  {
    SettledAt(ops, ViewCt(before[c]).(event := e)) ==>
      xs == [] && c in after && after == before[c := before[c].(event := e, tmp := after[c].tmp)]
  }

  lemma RaisedAdded(cts: Cts, c: CtId, amt: Event)
    requires c in cts
    ensures OneField(amt) ==> Raised(cts, c, amt) == Added(cts[c].event, amt)
    ensures c in View(cts) && Inc(View(cts), c, amt) == Assign(View(cts), c, Added(cts[c].event, amt))
  {
  }

  lemma Stored(ops: Ops, cts0: Cts, cts1: Cts, c: CtId, cts: Cts, xs: seq<OpId>)
    requires c in cts0 && c in cts1 && cts1 == cts0[c := cts0[c].(event := cts1[c].event)]
    requires (xs == [] && cts == cts1) || Takes(ops, cts1, c, cts1[c].event, cts, xs)
    ensures Takes(ops, cts0, c, cts1[c].event, cts, xs)
  {
  }

  /** The value of counter c with the successes and failures of amt on top. */
  function Raised(cts: Cts, c: CtId, amt: Event): Event
    requires c in cts
  {
    Event(cts[c].event.success + amt.success, cts[c].event.failure + amt.failure)
  }

  /** What an operation does to the counter it is about, said of its fields: a set leaves
      its value, an increment or a count adds to it.  A zombie is left alone. */
  ghost predicate Acts(ops: Ops, e: Effect, before: Cts, after: Cts, xs: seq<OpId>)
    requires !e.MoveOp? ==> e.target in before
  {
    match e
    case MoveOp => xs == [] && after == before
    case SetOp(d, val) =>
      if before[d].interrupt then xs == [] && after == before else Takes(ops, before, d, val, after, xs)
    case IncOp(d, amt) =>
      if before[d].interrupt then xs == [] && after == before
      else OneField(amt) ==> Takes(ops, before, d, Raised(before, d, amt), after, xs)
    case CountingMoveOp(d, amt) => OneField(amt) ==> Takes(ops, before, d, Raised(before, d, amt), after, xs)
  }

  /** ct_inc takes an increment for one of successes unless it has none. */
  predicate OneField(amt: Event) { amt.success == 0 || amt.failure == 0 }

  /** Every counter ends at its value plus what the call and the operations released add. */
  ghost predicate Tallied(ops: Ops, before: Cts, c: CtId, amt: Event, xs: seq<OpId>, after: Cts) {
    && before.Keys == after.Keys
    && forall d :: d in before ==>
         after[d].event == Plus(Plus(before[d].event, if d == c then amt else Event(0, 0)),
                                Total(xs, Adds(ops, View(before), d)))
  }

  lemma TalliedUp(ops: Ops, before: Cts, c: CtId, amt: Event, xs: seq<OpId>, after: Cts)
    requires NoSets(ops) && c in before && before.Keys == after.Keys && (amt.success == 0 || amt.failure == 0)
    requires Legal(ops, Inc(View(before), c, amt), xs, View(after))
    ensures Tallied(ops, before, c, amt, xs, after)
  {
    var w := Inc(View(before), c, amt);
    forall d | d in before
      ensures after[d].event == Plus(Plus(before[d].event, if d == c then amt else Event(0, 0)),
                                     Total(xs, Adds(ops, View(before), d)))
    {
      LegalValues(ops, w, xs, View(after), d);
      TotalFlags(ops, View(before), w, xs, d);
    }
  }

  /** What assigning value e to counter c leads to.  Without a walk nothing is released;
      with one the first operation is if it is ready, and, on a counter whose operations
      touch no counter, so is everything that is ready, in issue order. */
  ghost predicate Heeded(ops: Ops, before: Cts, c: CtId, e: Event, walked: bool, after: Cts, xs: seq<OpId>)
    requires c in before
  {
    var counted := before[c := before[c].(event := e)];
    if !walked then xs == [] && after == counted
    else
      && FirstGone(ops, counted, c, after)
      && (Simple(ops, before[c]) ==> InOrder(ops, counted, after, c, xs, []) && SettledAt(ops, ViewCt(after[c])))
  }

  /** A counter freed with two or more operations pending, now or before, does not trigger
      the first operation its next user queues, whatever the increment: it stays queued
      although it is ready.  Freed with at most one, it leaves the list, whatever it does;
      so that is exactly when. */
  method ReusedCounter(e: Engine, c: CtId, y: OpId, op: Op, amt: Event)
    requires e.Valid() && c in e.cts && y !in e.ops && op.home == c
    requires !op.effect.MoveOp? ==> op.effect.target in e.cts
    requires 0 < op.threshold <= amt.Sum() && (amt.success == 0 || amt.failure == 0)
    modifies e
    ensures e.Valid() && c in e.cts
    ensures y in Queued(e.cts) <==> old(Short(e.cts[c]) > 0 || |e.cts[c].trig| > 1)
    ensures y in Queued(e.cts) ==> e.cts[c].trig == [y] && Ready(e.ops, ViewCt(e.cts[c]), y)
    ensures old(e.log + e.cts[c].trig) <= e.log
    ensures y !in Queued(e.cts) ==> e.cts[c].trig == [] && y in e.log[old(|e.log + e.cts[c].trig|)..]
    ensures y !in Queued(e.cts) && op.effect.MoveOp? ==> e.log == old(e.log + e.cts[c].trig) + [y]
  {
    ghost var gone := e.Free(c);
    QueueFirst(e, c, y, op);
    ghost var xs := FirstTrigger(e, c, y, amt);
    assert e.log == old(e.log + e.cts[c].trig) + xs;
  }

  method QueueFirst(e: Engine, c: CtId, y: OpId, op: Op)
    requires e.Valid() && c in e.cts && y !in e.ops && op.home == c && ViewCt(e.cts[c]) == ACt(Event(0, 0), false, [])
    requires op.threshold > 0 && (!op.effect.MoveOp? ==> op.effect.target in e.cts)
    modifies e
    ensures e.Valid() && c in e.cts && e.ops == old(e.ops)[y := op] && e.log == old(e.log)
    ensures ViewCt(e.cts[c]) == ACt(Event(0, 0), false, [y]) && Short(e.cts[c]) == old(Short(e.cts[c]))
  {
    ghost var none := e.Post(y, op);
    assert View(e.cts)[c] == ViewCt(e.cts[c]) && View(old(e.cts))[c] == old(ViewCt(e.cts[c]));
  }

  method FirstTrigger(e: Engine, c: CtId, y: OpId, amt: Event) returns (ghost xs: seq<OpId>)
    requires e.Valid() && c in e.cts && y in e.ops && ViewCt(e.cts[c]) == ACt(Event(0, 0), false, [y])
    requires e.ops[y].threshold <= amt.Sum() && (amt.success == 0 || amt.failure == 0)
    modifies e`cts, e`log
    ensures e.Valid() && c in e.cts && e.log == old(e.log) + xs
    ensures y in Queued(e.cts) <==> old(Short(e.cts[c])) >= 1
    ensures y in Queued(e.cts) ==> e.cts[c].trig == [y] && Ready(e.ops, ViewCt(e.cts[c]), y)
    ensures y !in Queued(e.cts) ==> e.cts[c].trig == [] && y in xs
    ensures y !in Queued(e.cts) && e.ops[y].effect.MoveOp? ==> xs == [y]
  {
    var ok;
    ok, xs := e.PtlCtInc(c, amt);
    Alone(e.ops, old(e.cts), c, y, amt, old(|e.cts[c].trig| > Short(e.cts[c])), xs, e.cts);
  }

  lemma Alone(ops: Ops, cts: Cts, c: CtId, y: OpId, amt: Event, walked: bool, xs: seq<OpId>, cts': Cts)
    requires WellFormed(ops, View(cts)) && c in cts && c in cts' && y in ops && walked == (1 > Short(cts[c]))
    requires ViewCt(cts[c]) == ACt(Event(0, 0), false, [y])
    requires ops[y].threshold <= amt.Sum() && (amt.success == 0 || amt.failure == 0)
    requires Legal(ops, Inc(View(cts), c, amt), xs, View(cts'))
    requires Heeded(ops, cts, c, Added(cts[c].event, amt), walked, cts', xs)
    ensures y in Queued(cts') <==> !walked
    ensures !walked ==> cts'[c].trig == [y] && Ready(ops, ViewCt(cts'[c]), y)
    ensures walked ==> cts'[c].trig == [] && y in xs
    ensures walked && ops[y].effect.MoveOp? ==> xs == [y]
  {
    if walked {
      AloneGone(ops, cts, c, y, amt, xs, cts');
      if ops[y].effect.MoveOp? {
        AloneWalked(ops, cts, c, y, amt, xs, cts');
      }
    } else {
      assert y in cts'[c].trig;
    }
  }

  lemma AloneGone(ops: Ops, cts: Cts, c: CtId, y: OpId, amt: Event, xs: seq<OpId>, cts': Cts)
    requires WellFormed(ops, View(cts)) && c in cts && c in cts' && cts[c].trig == [y] && y !in Queued(cts')
    requires Legal(ops, Inc(View(cts), c, amt), xs, View(cts'))
    ensures cts'[c].trig == [] && y in xs
  {
    assert View(cts)[c].trig == [y] && View(cts')[c].trig == cts'[c].trig;
    LegalLists(ops, Inc(View(cts), c, amt), xs, View(cts'), c);
    assert y !in cts'[c].trig && forall x :: x in cts'[c].trig ==> x == y;
  }

  lemma AloneWalked(ops: Ops, cts: Cts, c: CtId, y: OpId, amt: Event, xs: seq<OpId>, cts': Cts)
    requires c in cts && cts[c].trig == [y]
    requires var ct := cts[c].(event := Added(cts[c].event, amt));
             Ready(ops, ViewCt(ct), y) && InOrder(ops, cts[c := ct], cts', c, xs, [])
    ensures xs == [y]
  {
    ReadyOne(ops, ViewCt(cts[c].(event := Added(cts[c].event, amt))), y);
    assert xs + [] == xs;
  }

  lemma ReadyOne(ops: Ops, a: ACt, y: OpId)
    requires Ready(ops, a, y)
    ensures ReadyOf(ops, a, [y]) == [y]
  {
    assert ReadyOf(ops, a, [y][1..]) == [];
  }

  /** Whatever order operations are released in from w, if none is left ready the world
      is w'. */
  ghost predicate OnlyOutcome(ops: Ops, w: World, w': World) {
    forall ys, w2 :: Legal(ops, w, ys, w2) && Settled(ops, w2) ==> w2 == w'
  }

  /** What is left on a settled counter waits for more than there is. */
  lemma Waiting(ops: Ops, cts: Cts, c: CtId)
    requires Sound(ops, cts) && c in cts
    ensures SettledAt(ops, ViewCt(cts[c])) && !cts[c].interrupt ==>
              forall x :: x in cts[c].trig ==> x in ops && cts[c].event.Sum() < ops[x].threshold
  {
    assert View(cts)[c].trig == cts[c].trig;
  }

  lemma Only(ops: Ops, w: World, xs: seq<OpId>, w': World)
    requires NoSets(ops) && WellFormed(ops, w) && Legal(ops, w, xs, w') && Settled(ops, w')
    ensures OnlyOutcome(ops, w, w')
  {
    forall ys, w2 | Legal(ops, w, ys, w2) && Settled(ops, w2) ensures w2 == w' {
      OrderIrrelevant(ops, w, xs, w', ys, w2);
    }
  }

  /** Every counter with nothing ready and an exact list_size still has nothing ready,
      whatever the list_size of the others; but is left out. */
  ghost predicate StillSettled(ops: Ops, a: Cts, ops': Ops, b: Cts, but: set<CtId>) {
    && a.Keys == b.Keys
    && forall d :: d in a && d !in but && Short(a[d]) == 0 && SettledAt(ops, ViewCt(a[d])) ==>
         SettledAt(ops', ViewCt(b[d]))
  }

  /** An unmet operation queued on an interrupted counter is discarded by the next walk. */
  function Discarding(cts: Cts, op: Op): set<CtId>
    requires op.home in cts
  {
    if cts[op.home].interrupt && cts[op.home].event.Sum() < op.threshold then {op.home} else {}
  }

  lemma SettledKept(ops: Ops, a: Cts, b: Cts)
    requires Calm(ops, a, b)
    ensures StillSettled(ops, a, ops, b, {})
    ensures Exact(a) && Settled(ops, View(a)) ==> Settled(ops, View(b))
  {
    if Exact(a) && Settled(ops, View(a)) {
      forall c | c in View(b) ensures SettledAt(ops, View(b)[c]) {
        assert CalmCt(ops, a[c], b[c]);
        assert SettledAt(ops, View(a)[c]);
      }
    }
  }

  function Linked1(w: World, c: CtId, x: OpId): World
    requires c in w
  {
    w[c := w[c].(trig := w[c].trig + [x])]
  }

  function Direct(w: World, e: Effect): World
    requires (e.IncOp? || e.SetOp?) && e.target in w
  {
    if e.IncOp? then Inc(w, e.target, e.amt) else Assign(w, e.target, e.val)
  }

  lemma GrownWorld(ops: Ops, w: World, x: OpId, op: Op)
    requires WellFormed(ops, w) && x !in ops && (!op.effect.MoveOp? ==> op.effect.target in w)
    ensures WellFormed(ops[x := op], w)
    ensures forall c :: c in w ==> x !in w[c].trig
    ensures forall c :: c in w ==> (SettledAt(ops[x := op], w[c]) <==> SettledAt(ops, w[c]))
  {
    var ops1 := ops[x := op];
    forall c | c in w ensures x !in w[c].trig && (SettledAt(ops1, w[c]) <==> SettledAt(ops, w[c])) {
      assert forall y :: y in w[c].trig ==> y != x && Ready(ops1, w[c], y) == Ready(ops, w[c], y);
    }
  }

  lemma Grown(ops: Ops, cts: Cts, x: OpId, op: Op)
    requires Sound(ops, cts) && x !in ops && (!op.effect.MoveOp? ==> op.effect.target in cts)
    ensures Sound(ops[x := op], cts)
    ensures StillSettled(ops, cts, ops[x := op], cts, {})
    ensures forall c :: c in cts ==> x !in cts[c].trig
  {
    GrownWorld(ops, View(cts), x, op);
    forall c | c in cts
      ensures x !in cts[c].trig && (SettledAt(ops[x := op], ViewCt(cts[c])) <==> SettledAt(ops, ViewCt(cts[c])))
    {
      assert c in View(cts) && View(cts)[c] == ViewCt(cts[c]);
    }
  }

  function Appended(cts: Cts, c: CtId, x: OpId): Cts
    requires c in cts
  {
    cts[c := cts[c].(listSize := cts[c].listSize + 1, trig := cts[c].trig + [x])]
  }

  lemma LinkFacts(ops: Ops, cts: Cts, c: CtId, x: OpId)
    requires Sound(ops, cts) && c in cts && x in ops && ops[x].home == c
    requires x !in cts[c].trig && cts[c].event.Sum() < ops[x].threshold
    ensures Sound(ops, Appended(cts, c, x)) && Kept(cts, Appended(cts, c, x))
    ensures View(Appended(cts, c, x)) == Linked1(View(cts), c, x)
    ensures StillSettled(ops, cts, ops, Appended(cts, c, x), Discarding(cts, ops[x]))
  {
    assert View(cts)[c] == ViewCt(cts[c]);
    ViewUpdate(cts, c, Appended(cts, c, x)[c]);
    LinkWorld(ops, View(cts), c, x);
    if cts[c].tmp != Unset {
      AppendFacts(cts[c].trig, x, cts[c].tmp);
    }
    LinkSettled(ops, cts, c, x);
  }

  lemma LinkWorld(ops: Ops, w: World, c: CtId, x: OpId)
    requires WellFormed(ops, w) && c in w && x in ops && ops[x].home == c && x !in w[c].trig
    ensures WellFormed(ops, Linked1(w, c, x))
  {
    NoDupAppend(w[c].trig, x);
  }

  lemma LinkSettled(ops: Ops, cts: Cts, c: CtId, x: OpId)
    requires c in cts && x in ops && ops[x].home == c && cts[c].event.Sum() < ops[x].threshold
    ensures StillSettled(ops, cts, ops, Appended(cts, c, x), Discarding(cts, ops[x]))
  {
  }

  lemma Replaced(ops: Ops, cts: Cts, c: CtId, ct: Ct)
    requires Sound(ops, cts) && c in cts && ct.trig == cts[c].trig && SoundCt(ct)
    ensures Sound(ops, cts[c := ct])
  {
    ViewUpdate(cts, c, ct);
    assert View(cts)[c] == ViewCt(cts[c]);
  }

  lemma {:induction false} AllReadyOf(ops: Ops, a: ACt, q: seq<OpId>)
    requires a.interrupt && forall x :: x in q ==> x in ops
    ensures ReadyOf(ops, a, q) == q
  {
    if q == [] {
    } else {
      AllReadyOf(ops, a, q[1..]);
    }
  }

  lemma AllReady(ops: Ops, cts: Cts, c: CtId)
    requires Sound(ops, cts) && c in cts && cts[c].interrupt
    ensures ReadyOf(ops, ViewCt(cts[c]), cts[c].trig) == cts[c].trig
  {
    assert View(cts)[c].trig == cts[c].trig;
    AllReadyOf(ops, ViewCt(cts[c]), cts[c].trig);
  }

  /** What a walk of an interrupted counter changes and releases. */
  lemma AllTaken(ops: Ops, cts0: Cts, cts: Cts, c: CtId, xs: seq<OpId>)
    requires InOrder(ops, cts0, cts, c, xs, []) && ReadyOf(ops, ViewCt(cts0[c]), cts0[c].trig) == cts0[c].trig
    ensures xs == cts0[c].trig && cts.Keys == cts0.Keys
    ensures forall d :: d in cts && d != c ==> cts[d] == cts0[d]
    ensures cts[c].event == cts0[c].event
  {
    assert xs + [] == xs;
  }

  lemma Emptied(ops: Ops, cts: Cts, c: CtId)
    requires Sound(ops, cts) && c in cts && cts[c].interrupt && SettledAt(ops, ViewCt(cts[c]))
    ensures cts[c].trig == []
  {
    assert View(cts)[c].trig == cts[c].trig;
    if cts[c].trig != [] {
      assert Ready(ops, ViewCt(cts[c]), cts[c].trig[0]);
    }
  }

  /** What the walk of an interrupted counter leaves. */
  lemma Discarded(ops: Ops, cts0: Cts, cts: Cts, c: CtId, xs: seq<OpId>)
    requires Sound(ops, cts0) && Sound(ops, cts) && c in cts0 && cts0[c].interrupt && Kept(cts0, cts)
    requires InOrder(ops, cts0, cts, c, xs, []) && SettledAt(ops, ViewCt(cts[c]))
    ensures xs == cts0[c].trig && cts == cts0[c := cts[c]]
    ensures ViewCt(cts[c]) == ACt(cts0[c].event, true, []) && cts[c].listSize == -Short(cts0[c])
  {
    AllReady(ops, cts0, c);
    AllTaken(ops, cts0, cts, c, xs);
    Emptied(ops, cts, c);
  }

  /** A counter on which only moves that count nothing wait, or an interrupted one:
      releasing its operations touches no counter. */
  ghost predicate Simple(ops: Ops, ct: Ct) {
    ct.interrupt || forall x :: x in ct.trig ==> x in ops && ops[x].effect.MoveOp?
  }

  lemma SimpleRecounted(ops: Ops, ct: Ct, ct': Ct)
    requires ct'.interrupt == ct.interrupt && ct'.trig == ct.trig
    ensures Simple(ops, ct) <==> Simple(ops, ct')
  {
  }

  function ReadyOf(ops: Ops, a: ACt, q: seq<OpId>): seq<OpId> {
    if q == [] then [] else (if Ready(ops, a, q[0]) then [q[0]] else []) + ReadyOf(ops, a, q[1..])
  }

  /** Only c has changed, its counts have not, and the operations xs released so far are
      those that were ready, in issue order, but for the ones still to come. */
  ghost predicate InOrder(ops: Ops, before: Cts, after: Cts, c: CtId, xs: seq<OpId>, rest: seq<OpId>) {
    && c in before && c in after && before.Keys == after.Keys
    && (forall d :: d in before && d != c ==> after[d] == before[d])
    && after[c].event == before[c].event && after[c].interrupt == before[c].interrupt
    && ReadyOf(ops, ViewCt(before[c]), before[c].trig) == xs + ReadyOf(ops, ViewCt(before[c]), rest)
  }

  lemma SimpleTurn(ops: Ops, before: Cts, cts: Cts, c: CtId, xs: seq<OpId>, x: OpId)
    requires c in cts && x in cts[c].trig && NoDup(cts[c].trig) && Simple(ops, cts[c])
    requires InOrder(ops, before, cts, c, xs, cts[c].trig[Idx(cts[c].trig, x)..])
    ensures var i := Idx(cts[c].trig, x);
            if Ready(ops, ViewCt(cts[c]), x) then
              var cts1 := Taken(cts, c, x);
              && Simple(ops, cts1[c]) && InOrder(ops, before, cts1, c, xs + [x], cts1[c].trig[i..])
            else InOrder(ops, before, cts, c, xs + [], cts[c].trig[i + 1..])
  {
    var i := Idx(cts[c].trig, x);
    var rest := cts[c].trig[i..];
    assert rest[0] == x && rest[1..] == cts[c].trig[i + 1..];
    UnlinkFacts(cts[c].trig, x);
    assert Unlink(cts[c].trig, x)[i..] == cts[c].trig[i + 1..];
    assert Ready(ops, ViewCt(before[c]), x) == Ready(ops, ViewCt(cts[c]), x);
    var tail := ReadyOf(ops, ViewCt(before[c]), rest[1..]);
    Assoc(xs, [x], tail);
    Assoc(xs, [], tail);
  }

  /** The operation queued first, if ready when a walk began, is queued nowhere any more. */
  ghost predicate FirstGone(ops: Ops, before: Cts, c: CtId, after: Cts)
    requires c in before
  {
    var q := before[c].trig;
    q != [] && Ready(ops, ViewCt(before[c]), q[0]) ==> q[0] !in Queued(after)
  }

  /** A walk that began with nothing ready moves the cursor and no more. */
  ghost predicate Untouched(ops: Ops, before: Cts, c: CtId, cts: Cts, xs: seq<OpId>)
    requires c in before && c in cts
  {
    SettledAt(ops, ViewCt(before[c])) ==> xs == [] && cts == Pointed(before, c, cts[c].tmp)
  }

  /** It is gone, or the walk is still at it. */
  ghost predicate FirstPassed(ops: Ops, before: Cts, c: CtId, cts: Cts, pos: Cursor)
    requires c in before && c in cts
  {
    || FirstGone(ops, before, c, cts)
    || (ViewCt(cts[c]) == ViewCt(before[c]) && pos == Oldest(before[c].trig))
  }

  /** The walk has found every operation before cur not ready. */
  ghost predicate Seen(ops: Ops, cts: Cts, c: CtId, cur: Cursor)
    requires c in cts
  {
    Short(cts[c]) == 0 ==> SeenUnready(ops, cts[c], cur)
  }

  ghost predicate SeenUnready(ops: Ops, ct: Ct, cur: Cursor) {
    forall j: nat :: j < Pos(ct.trig, cur) ==> !Ready(ops, ViewCt(ct), ct.trig[j])
  }

  lemma SeenNext(ops: Ops, cts: Cts, c: CtId, x: OpId)
    requires c in cts && NoDup(cts[c].trig) && x in cts[c].trig
    requires Seen(ops, cts, c, At(x)) && !Ready(ops, ViewCt(cts[c]), x)
    ensures Seen(ops, cts, c, Prev(cts[c].trig, At(x)))
    ensures Pos(cts[c].trig, Prev(cts[c].trig, At(x))) == Pos(cts[c].trig, At(x)) + 1
  {
    PrevLinked(cts[c].trig, At(x));
  }

  lemma TakenShort(cts: Cts, c: CtId, x: OpId)
    requires c in cts && NoDup(cts[c].trig) && x in cts[c].trig
    ensures Kept(cts, Taken(cts, c, x))
  {
    UnlinkFacts(cts[c].trig, x);
  }

  lemma TakenSeen(ops: Ops, ct: Ct, x: OpId)
    requires NoDup(ct.trig) && x in ct.trig && SeenUnready(ops, ct, At(x)) && ct.tmp == Prev(ct.trig, At(x))
    ensures var ct1 := ct.(trig := Unlink(ct.trig, x), listSize := ct.listSize - 1);
            SeenUnready(ops, ct1, ct1.tmp)
  {
    UnlinkFacts(ct.trig, x);
    UnlinkCursor(ct.trig, x);
  }

  lemma SettledSeen(ops: Ops, a: Cts, b: Cts, c: CtId)
    requires Calm(ops, a, b) && c in a && Seen(ops, a, c, a[c].tmp)
    ensures Seen(ops, b, c, b[c].tmp)
  {
    assert CalmCt(ops, a[c], b[c]);
  }

  /** From before an operation is taken to after it has run. */
  lemma Ran(ops: Ops, a: Cts, b: Cts, d: Cts, c: CtId)
    requires CalmBut(ops, a, b, c) && Calm(ops, b, d) && c in b && b[c].tmp != Unset && Seen(ops, b, c, b[c].tmp)
    ensures CalmBut(ops, a, d, c) && d[c].tmp != Unset && Seen(ops, d, c, d[c].tmp)
  {
    SettledSeen(ops, b, d, c);
    CalmTrans(ops, a, b, d, c);
  }

  lemma CalmChanged(ops: Ops, a: Cts, b: Cts, d: Cts, c: CtId)
    requires c in a && c in b && b == a[c := a[c].(event := b[c].event)]
    requires (b == d && (Short(b[c]) == 0 ==> b[c].trig == [])) ||
             (CalmBut(ops, b, d, c) && (Short(d[c]) == 0 ==> SettledAt(ops, ViewCt(d[c]))) && d[c].tmp != Unset)
    ensures Calm(ops, a, d) && (Short(d[c]) == 0 ==> SettledAt(ops, ViewCt(d[c])))
  {
    forall e | e in a ensures CalmCt(ops, a[e], d[e]) {
      assert e != c && b != d ==> CalmCt(ops, b[e], d[e]);
    }
  }

  lemma CalmTrans(ops: Ops, a: Cts, b: Cts, d: Cts, c: CtId)
    requires CalmBut(ops, a, b, c) && CalmBut(ops, b, d, c)
    ensures CalmBut(ops, a, d, c)
  {
    forall e | e in a && e != c ensures CalmCt(ops, a[e], d[e]) {
      assert CalmCt(ops, a[e], b[e]) && CalmCt(ops, b[e], d[e]);
    }
  }

  lemma Recounted(ops: Ops, cts: Cts, c: CtId, e: Event)
    requires Sound(ops, cts) && c in cts
    ensures var cts1 := cts[c := cts[c].(event := e)];
            Sound(ops, cts1) && View(cts1) == Assign(View(cts), c, e) && Queued(cts1) == Queued(cts)
  {
    var cts1 := cts[c := cts[c].(event := e)];
    ViewUpdate(cts, c, cts1[c]);
    assert View(cts)[c] == ViewCt(cts[c]);
    SameQueued(cts, cts1);
  }

  /** The invariant of the walk of counter c that started from cts0 and log0 and stands
      at pos, having released xs. */
  ghost predicate Walking(ops: Ops, cts0: Cts, log0: seq<OpId>, cts: Cts, log: seq<OpId>, c: CtId,
                          xs: seq<OpId>, pos: Cursor)
  {
    && Sound(ops, cts) && log == log0 + xs && Queued(cts) <= Queued(cts0)
    && Legal(ops, View(cts0), xs, View(cts))
    && CalmBut(ops, cts0, cts, c) && c in cts && c in cts0
    && Linked(cts[c].trig, pos) && cts[c].tmp == Prev(cts[c].trig, pos)
    && Seen(ops, cts, c, pos)
  }

  ghost predicate Ordered(ops: Ops, cts0: Cts, cts: Cts, c: CtId, xs: seq<OpId>, pos: Cursor)
    requires c in cts0 && c in cts
  {
    Simple(ops, cts0[c]) ==>
      Simple(ops, cts[c]) && InOrder(ops, cts0, cts, c, xs, cts[c].trig[Pos(cts[c].trig, pos)..])
  }

  /** What one turn of the walk at element x does, before the cursor is followed. */
  ghost predicate Turned(ops: Ops, cts: Cts, log: seq<OpId>, c: CtId, x: OpId, cts': Cts, log': seq<OpId>,
                         xs: seq<OpId>)
  {
    && Sound(ops, cts') && log' == log + xs && Legal(ops, View(cts), xs, View(cts'))
    && CalmBut(ops, cts, cts', c) && c in cts && c in cts' && cts'[c].tmp != Unset
    && Seen(ops, cts', c, cts'[c].tmp)
    && (|| Queued(cts') < Queued(cts)
        || (cts' == cts && Pos(cts[c].trig, cts[c].tmp) == Pos(cts[c].trig, At(x)) + 1))
    && (if Ready(ops, ViewCt(cts[c]), x) then x !in Queued(cts') else xs == [] && cts' == cts)
    && (Simple(ops, cts[c]) ==>
          if Ready(ops, ViewCt(cts[c]), x) then xs == [x] && cts' == Taken(cts, c, x)
          else xs == [] && cts' == cts)
  }

  lemma Turn(ops: Ops, cts0: Cts, log0: seq<OpId>, cts: Cts, log: seq<OpId>, c: CtId, xs: seq<OpId>, x: OpId,
             cts': Cts, log': seq<OpId>, ys: seq<OpId>)
    requires Walking(ops, cts0, log0, cts, log, c, xs, At(x)) && Ordered(ops, cts0, cts, c, xs, At(x))
    requires Turned(ops, cts, log, c, x, cts', log', ys)
    ensures var cts1 := Pointed(cts', c, Prev(cts'[c].trig, cts'[c].tmp));
            && Walking(ops, cts0, log0, cts1, log', c, xs + ys, cts'[c].tmp)
            && Ordered(ops, cts0, cts1, c, xs + ys, cts'[c].tmp)
            && (|| Queued(cts1) < Queued(cts)
                || (cts' == cts && Queued(cts1) == Queued(cts)
                    && Pos(cts1[c].trig, cts'[c].tmp) > Pos(cts[c].trig, At(x))))
            && (FirstPassed(ops, cts0, c, cts, At(x)) ==> FirstPassed(ops, cts0, c, cts1, cts'[c].tmp))
            && (Untouched(ops, cts0, c, cts, xs) ==> Untouched(ops, cts0, c, cts1, xs + ys))
  {
    TurnWalk(ops, cts0, log0, cts, log, c, xs, x, cts', log', ys);
    TurnFirst(ops, cts0, cts, c, x, cts');
    TurnUntouched(ops, cts0, cts, c, xs, x, cts', ys);
    TurnLess(ops, cts, log, c, x, cts', log', ys);
    InView(ops, cts, c, x);
    TurnOrder(ops, cts0, cts, c, xs, x, cts', ys);
  }

  lemma TurnUntouched(ops: Ops, cts0: Cts, cts: Cts, c: CtId, xs: seq<OpId>, x: OpId, cts': Cts, ys: seq<OpId>)
    requires c in cts0 && c in cts && c in cts' && x in cts[c].trig
    requires !Ready(ops, ViewCt(cts[c]), x) ==> ys == [] && cts' == cts
    ensures Untouched(ops, cts0, c, cts, xs) ==>
              Untouched(ops, cts0, c, Pointed(cts', c, Prev(cts'[c].trig, cts'[c].tmp)), xs + ys)
  {
  }

  lemma TurnFirst(ops: Ops, cts0: Cts, cts: Cts, c: CtId, x: OpId, cts': Cts)
    requires c in cts0 && c in cts && c in cts' && Queued(cts') <= Queued(cts)
    requires Ready(ops, ViewCt(cts[c]), x) ==> x !in Queued(cts')
    ensures FirstPassed(ops, cts0, c, cts, At(x)) ==> FirstGone(ops, cts0, c, cts')
  {
  }

  lemma TurnWalk(ops: Ops, cts0: Cts, log0: seq<OpId>, cts: Cts, log: seq<OpId>, c: CtId, xs: seq<OpId>, x: OpId,
                 cts': Cts, log': seq<OpId>, ys: seq<OpId>)
    requires Walking(ops, cts0, log0, cts, log, c, xs, At(x)) && Turned(ops, cts, log, c, x, cts', log', ys)
    ensures Walking(ops, cts0, log0, Pointed(cts', c, Prev(cts'[c].trig, cts'[c].tmp)), log', c, xs + ys, cts'[c].tmp)
  {
    Accumulate(ops, cts0, cts, cts', c, log0, xs, ys);
    Advance(ops, cts0, cts', c);
  }

  lemma TurnLess(ops: Ops, cts: Cts, log: seq<OpId>, c: CtId, x: OpId, cts': Cts, log': seq<OpId>, ys: seq<OpId>)
    requires Turned(ops, cts, log, c, x, cts', log', ys)
    ensures var cts1 := Pointed(cts', c, Prev(cts'[c].trig, cts'[c].tmp));
            || Queued(cts1) < Queued(cts)
            || (cts' == cts && Queued(cts1) == Queued(cts) && Pos(cts1[c].trig, cts'[c].tmp) > Pos(cts[c].trig, At(x)))
    ensures Queued(Pointed(cts', c, Prev(cts'[c].trig, cts'[c].tmp))) == Queued(cts')
  {
    SameQueued(cts', Pointed(cts', c, Prev(cts'[c].trig, cts'[c].tmp)));
  }

  lemma TurnOrder(ops: Ops, cts0: Cts, cts: Cts, c: CtId, xs: seq<OpId>, x: OpId, cts': Cts, ys: seq<OpId>)
    requires c in cts0 && c in cts && Ordered(ops, cts0, cts, c, xs, At(x)) && NoDup(cts[c].trig) && x in cts[c].trig
    requires cts[c].tmp == Prev(cts[c].trig, At(x)) && c in cts'
    requires Simple(ops, cts[c]) ==>
               if Ready(ops, ViewCt(cts[c]), x) then ys == [x] && cts' == Taken(cts, c, x) else ys == [] && cts' == cts
    ensures Ordered(ops, cts0, Pointed(cts', c, Prev(cts'[c].trig, cts'[c].tmp)), c, xs + ys, cts'[c].tmp)
  {
    if Simple(ops, cts0[c]) {
      SimpleTurn(ops, cts0, cts, c, xs, x);
      if Ready(ops, ViewCt(cts[c]), x) {
        UnlinkCursor(cts[c].trig, x);
      } else {
        PrevLinked(cts[c].trig, At(x));
      }
      PointedOrder(ops, cts0, cts', c, Prev(cts'[c].trig, cts'[c].tmp), xs + ys,
                   cts'[c].trig[Pos(cts'[c].trig, cts'[c].tmp)..]);
    }
  }

  lemma PointedOrder(ops: Ops, cts0: Cts, cts: Cts, c: CtId, cur: Cursor, xs: seq<OpId>, rest: seq<OpId>)
    requires c in cts && Simple(ops, cts[c]) && InOrder(ops, cts0, cts, c, xs, rest)
    ensures Simple(ops, Pointed(cts, c, cur)[c]) && InOrder(ops, cts0, Pointed(cts, c, cur), c, xs, rest)
  {
  }

  lemma Finish(ops: Ops, cts0: Cts, log0: seq<OpId>, cts: Cts, log: seq<OpId>, c: CtId, xs: seq<OpId>)
    requires Walking(ops, cts0, log0, cts, log, c, xs, Head) && Ordered(ops, cts0, cts, c, xs, Head)
    requires WellFormed(ops, View(cts0))
    ensures cts[c].tmp != Unset
    ensures Short(cts[c]) == 0 || Simple(ops, cts0[c]) ==> SettledAt(ops, ViewCt(cts[c]))
    ensures Simple(ops, cts0[c]) ==> InOrder(ops, cts0, cts, c, xs, [])
  {
    assert cts[c].trig[|cts[c].trig|..] == [];
    if Simple(ops, cts0[c]) {
      InOrderSettles(ops, cts0, cts, c, xs);
    }
  }

  lemma {:induction false} ReadyOfAll(ops: Ops, a: ACt, q: seq<OpId>, x: OpId)
    requires x in q && Ready(ops, a, x)
    ensures x in ReadyOf(ops, a, q)
  {
    if q[0] == x {
    } else {
      ReadyOfAll(ops, a, q[1..], x);
    }
  }

  /** A walk that released everything that was ready and changed no count has settled. */
  lemma InOrderSettles(ops: Ops, cts0: Cts, cts: Cts, c: CtId, xs: seq<OpId>)
    requires WellFormed(ops, View(cts0)) && Legal(ops, View(cts0), xs, View(cts)) && InOrder(ops, cts0, cts, c, xs, [])
    ensures SettledAt(ops, ViewCt(cts[c]))
  {
    assert View(cts0)[c] == ViewCt(cts0[c]) && View(cts)[c] == ViewCt(cts[c]);
    LegalLists(ops, View(cts0), xs, View(cts), c);
    assert xs + [] == xs;
    forall x | x in cts[c].trig ensures !Ready(ops, ViewCt(cts[c]), x) {
      assert x in cts0[c].trig && x !in Elems(xs);
      if Ready(ops, ViewCt(cts[c]), x) {
        ReadyOfAll(ops, ViewCt(cts0[c]), cts0[c].trig, x);
      }
    }
  }

  lemma Advance(ops: Ops, before: Cts, cts: Cts, c: CtId)
    requires Sound(ops, cts) && c in cts && cts[c].tmp != Unset
    requires CalmBut(ops, before, cts, c) && Seen(ops, cts, c, cts[c].tmp)
    ensures var cts1 := Pointed(cts, c, Prev(cts[c].trig, cts[c].tmp));
            && Sound(ops, cts1) && View(cts1) == View(cts) && Queued(cts1) == Queued(cts)
            && CalmBut(ops, before, cts1, c) && Seen(ops, cts1, c, cts[c].tmp)
            && Linked(cts1[c].trig, cts[c].tmp)
  {
    assert View(cts)[c].trig == cts[c].trig;
    PrevLinked(cts[c].trig, cts[c].tmp);
    PointedFacts(ops, cts, c, Prev(cts[c].trig, cts[c].tmp));
  }

  lemma Accumulate(ops: Ops, a: Cts, b: Cts, d: Cts, c: CtId, log: seq<OpId>, xs: seq<OpId>, ys: seq<OpId>)
    requires Legal(ops, View(a), xs, View(b)) && Legal(ops, View(b), ys, View(d))
    requires CalmBut(ops, a, b, c) && CalmBut(ops, b, d, c)
    ensures Legal(ops, View(a), xs + ys, View(d)) && CalmBut(ops, a, d, c)
    ensures log + xs + ys == log + (xs + ys)
  {
    LegalAppend(ops, View(a), xs, View(b), ys, View(d));
    CalmTrans(ops, a, b, d, c);
  }

  lemma Assoc(a: seq<OpId>, b: seq<OpId>, c: seq<OpId>)
    ensures a + b + c == a + (b + c)
  {
  }

  lemma Start(ops: Ops, cts: Cts, log: seq<OpId>, c: CtId)
    requires Sound(ops, cts) && c in cts
    ensures var pos := Oldest(cts[c].trig);
            var cts1 := Pointed(cts, c, Prev(cts[c].trig, pos));
            && Walking(ops, cts, log, cts1, log, c, [], pos) && Ordered(ops, cts, cts1, c, [], pos)
            && FirstPassed(ops, cts, c, cts1, pos) && Untouched(ops, cts, c, cts1, [])
  {
    var pos := Oldest(cts[c].trig);
    assert View(cts)[c].trig == cts[c].trig;
    PrevLinked(cts[c].trig, pos);
    PointedFacts(ops, cts, c, Prev(cts[c].trig, pos));
    assert cts[c].trig[0..] == cts[c].trig;
  }
}
