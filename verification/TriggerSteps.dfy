/** Triggered operations on one counting event, as a step system over any number
    of concurrent activations.

    An activation is one call of ct_inc / make_ct_event, post_ct / post_trig_ct or
    ct_check; a call made while firing an operation is one more activation.  Shared
    memory is sequentially consistent, a counter is a natural number (no 64-bit
    wrap), and every read or write of shared state that another activation can
    observe is a step of its own.  In particular the sum success + failure is read
    in two halves, increments take no lock, and all walkers of the list share the
    single cursor trig_list_tmp. */
module TriggerSteps {

  import opened TrigList

  type Tid = nat

  /** One of the two halves of success + failure, already read. */
  datatype Half = SuccessRead(v: nat) | FailureRead(v: nat)

  datatype Pc =
    | Idle
    | Added                          // counter incremented, list_size not yet read
    | WalkWait                       // entering ct_check, lock not yet taken
    | WalkAt(pos: Cursor)            // in the walk at pos, lock held
    | WalkRead(cur: OpId, half: Half)// half of the threshold test done, lock held
    | Unlinked(op: OpId)             // list_del done, list_size not yet lowered
    | Firing(op: OpId)               // lock dropped, running the operation
    | Relock                         // operation done, about to lock and advance
    | PostWait(op: OpId)             // entering post_ct, lock not yet taken
    | PostTest(op: OpId)             // first test, lock held
    | PostRead(op: OpId, half: Half)
    | PostSize(op: OpId)             // not met: about to raise list_size
    | PostLink(op: OpId)             // about to link the operation
    | PostRetest(op: OpId)           // linked, second test
    | PostReread(op: OpId, half: Half)
    | PostFire(op: OpId)             // met: lock dropped, running the operation

  /** trig holds trig_list from the oldest operation (head->prev) to the newest. */
  datatype State = State(success: nat, failure: nat, listSize: int, trig: seq<OpId>, tmp: Cursor,
                         holder: set<Tid>, thr: map<OpId, nat>, pcs: map<Tid, Pc>, fired: seq<OpId>)
  {
    function Sum(): nat { success + failure }

    function Pc(t: Tid): Pc { if t in pcs then pcs[t] else Idle }

    predicate Met(x: OpId) requires x in thr { thr[x] <= Sum() }
  }

  predicate Init(s: State) {
    && s.success == 0 && s.failure == 0 && s.listSize == 0 && s.trig == [] && s.tmp == Unset
    && s.holder == {} && s.thr == map[] && s.pcs == map[] && s.fired == []
  }

  // ---------------------------------------------------------------------------
  // Steps
  // ---------------------------------------------------------------------------

  datatype Action =
    | Inc(t: Tid, ds: nat, df: nat)
    | ReadListSize(t: Tid)
    | StartWalk(t: Tid)
    | ReadHalf(t: Tid, successFirst: bool)
    | Decide(t: Tid)
    | EndWalk(t: Tid)
    | LowerSize(t: Tid)
    | Fire(t: Tid)
    | Resume(t: Tid)
    | Post(t: Tid, op: OpId, threshold: nat)
    | LockPost(t: Tid)
    | RaiseSize(t: Tid)
    | Link(t: Tid)

  function Half1(s: State, successFirst: bool): Half {
    if successFirst then SuccessRead(s.success) else FailureRead(s.failure)
  }

  function SumOf(s: State, h: Half): nat {
    match h
    case SuccessRead(v) => v + s.failure
    case FailureRead(v) => v + s.success
  }

  predicate Enabled(s: State, a: Action) {
    var p := s.Pc(a.t);
    match a
    case Inc(_, _, _) => p.Idle?
    case ReadListSize(_) => p.Added?
    case StartWalk(_) => p.WalkWait? && s.holder == {}
    case ReadHalf(_, _) => (p.WalkAt? && p.pos.At?) || p.PostTest? || p.PostRetest?
    case Decide(_) =>
      (p.WalkRead? && p.cur in s.thr) || ((p.PostRead? || p.PostReread?) && p.op in s.thr)
    case EndWalk(_) => p.WalkAt? && p.pos == Head
    case LowerSize(_) => p.Unlinked?
    case Fire(_) => p.Firing? || p.PostFire?
    case Resume(_) => p.Relock? && s.holder == {}
    case Post(_, op, _) => p.Idle? && op !in s.thr
    case LockPost(_) => p.PostWait? && s.holder == {}
    case RaiseSize(_) => p.PostSize?
    case Link(_) => p.PostLink?
  }

  function Goto(s: State, t: Tid, p: Pc): State {
    s.(pcs := s.pcs[t := p])
  }

  /** Second half of a threshold test and what the code does on its outcome. */
  function DoDecide(s: State, t: Tid): State
    requires Enabled(s, Decide(t))
  {
    match s.Pc(t)
    case WalkRead(x, h) =>
      if SumOf(s, h) >= s.thr[x] then
        Goto(s, t, Unlinked(x)).(trig := Unlink(s.trig, x))
      else
        Goto(s, t, WalkAt(s.tmp)).(tmp := Prev(s.trig, s.tmp))
    case PostRead(op, h) =>
      if SumOf(s, h) >= s.thr[op] then Goto(s, t, PostFire(op)).(holder := s.holder - {t})
      else Goto(s, t, PostSize(op))
    case PostReread(op, h) =>
      Goto(s, t, if SumOf(s, h) >= s.thr[op] then WalkWait else Idle).(holder := s.holder - {t})
  }

  function Apply(s: State, a: Action): State
    requires Enabled(s, a)
  {
    var t := a.t;
    var p := s.Pc(t);
    match a
    case Inc(_, ds, df) =>
      if ds > 0 then Goto(s, t, Added).(success := s.success + ds)
      else Goto(s, t, Added).(failure := s.failure + df)
    case ReadListSize(_) =>
      Goto(s, t, if s.listSize > 0 then WalkWait else Idle)
    case StartWalk(_) =>
      Goto(s, t, WalkAt(Oldest(s.trig))).(holder := {t}, tmp := Prev(s.trig, Oldest(s.trig)))
    case ReadHalf(_, first) =>
      var h := Half1(s, first);
      Goto(s, t, if p.WalkAt? then WalkRead(p.pos.op, h)
                 else if p.PostTest? then PostRead(p.op, h) else PostReread(p.op, h))
    case Decide(_) => DoDecide(s, t)
    case EndWalk(_) => Goto(s, t, Idle).(holder := s.holder - {t})
    case LowerSize(_) =>
      Goto(s, t, Firing(p.op)).(listSize := s.listSize - 1, holder := s.holder - {t})
    case Fire(_) =>
      Goto(s, t, if p.Firing? then Relock else Idle).(fired := s.fired + [p.op])
    case Resume(_) =>
      Goto(s, t, WalkAt(s.tmp)).(holder := {t}, tmp := Prev(s.trig, s.tmp))
    case Post(_, op, threshold) =>
      Goto(s, t, PostWait(op)).(thr := s.thr[op := threshold])
    case LockPost(_) => Goto(s, t, PostTest(p.op)).(holder := {t})
    case RaiseSize(_) => Goto(s, t, PostLink(p.op)).(listSize := s.listSize + 1)
    case Link(_) => Goto(s, t, PostRetest(p.op)).(trig := s.trig + [p.op])
  }

  /** A run from the initial state: one state more than actions. */
  ghost predicate Run(states: seq<State>, acts: seq<Action>) {
    && |states| == |acts| + 1
    && Init(states[0])
    && forall i :: 0 <= i < |acts| ==> Enabled(states[i], acts[i]) && states[i + 1] == Apply(states[i], acts[i])
  }

  // ---------------------------------------------------------------------------
  // Invariant
  // ---------------------------------------------------------------------------

  /** Inside the critical section of the counter's lock. */
  predicate InCs(p: Pc) {
    p.WalkAt? || p.WalkRead? || p.Unlinked? || p.PostTest? || p.PostRead? || p.PostSize? || p.PostLink?
    || p.PostRetest? || p.PostReread?
  }

  /** Will take the lock and walk the whole list (or has yet to find it empty). */
  predicate IsPending(p: Pc) { p.Added? || p.WalkWait? }

  predicate IsWalker(p: Pc) {
    p.WalkAt? || p.WalkRead? || p.Unlinked? || p.Firing? || p.Relock?
  }

  /** Holding the lock at a position of the list. */
  predicate Standing(p: Pc) { p.WalkAt? || p.WalkRead? }

  /** Holding the lock with its own operation linked but not yet tested again. */
  predicate Posting(p: Pc) { p.PostRetest? || p.PostReread? }

  /** The operation an activation owns: neither linked nor run. */
  function Owned(p: Pc): set<OpId> {
    match p
    case Unlinked(x) => {x}
    case Firing(x) => {x}
    case PostWait(x) => {x}
    case PostTest(x) => {x}
    case PostRead(x, _) => {x}
    case PostSize(x) => {x}
    case PostLink(x) => {x}
    case PostFire(x) => {x}
    case _ => {}
  }

  ghost predicate SomePending(s: State) { exists t :: IsPending(s.Pc(t)) }

  ghost predicate SomeWalker(s: State) { exists t :: IsWalker(s.Pc(t)) }

  ghost predicate LockInv(s: State) {
    && (forall t :: InCs(s.Pc(t)) <==> t in s.holder)
    && (forall t, u :: t in s.holder && u in s.holder ==> t == u)
  }

  /** Every operation is linked, owned by one activation, or run, and only one of these. */
  ghost predicate OwnerInv(s: State) {
    && NoDup(s.trig) && NoDup(s.fired)
    && (forall x :: x in s.trig ==> x in s.thr && x !in s.fired)
    && (forall x :: x in s.fired ==> x in s.thr)
    && (forall t, x :: x in Owned(s.Pc(t)) ==> x in s.thr && x !in s.trig && x !in s.fired)
    && (forall t, u, x :: x in Owned(s.Pc(t)) && x in Owned(s.Pc(u)) ==> t == u)
  }

  ghost predicate HasOwner(s: State, x: OpId) { exists t :: x in Owned(s.Pc(t)) }

  /** Nothing that was posted is forgotten. */
  ghost predicate AccountInv(s: State) {
    forall x :: x in s.thr ==> x in s.trig || x in s.fired || HasOwner(s, x)
  }

  /** Having found its operation's threshold met. */
  predicate Due(p: Pc) { p.Unlinked? || p.Firing? || p.PostFire? }

  /** An operation is being run, or has been run, only with its threshold met. */
  ghost predicate MetInv(s: State) {
    && (forall x :: x in s.fired ==> x in s.thr && s.Met(x))
    && (forall t, x :: x in Owned(s.Pc(t)) && Due(s.Pc(t)) ==> x in s.thr && s.Met(x))
  }

  function PosOf(p: Pc): Cursor {
    match p
    case WalkAt(c) => c
    case WalkRead(x, _) => At(x)
    case _ => Unset
  }

  /** The shared cursor never dangles, and the walker holding the lock has just
      stored the predecessor of its position in it. */
  ghost predicate CursorInv(s: State) {
    && (s.tmp == Unset || Linked(s.trig, s.tmp))
    && (s.tmp == Unset ==> !SomeWalker(s))
    && (forall t :: Standing(s.Pc(t)) ==>
          Linked(s.trig, PosOf(s.Pc(t))) && s.tmp == Prev(s.trig, PosOf(s.Pc(t))))
    && (forall t :: Posting(s.Pc(t)) ==> s.Pc(t).op in s.trig)
  }

  /** list_size counts the list, up to the step between the list and the count. */
  ghost predicate SizeInv(s: State) {
    && (s.holder == {} ==> s.listSize == |s.trig|)
    && (forall t :: t in s.holder ==>
          s.listSize == |s.trig| + if s.Pc(t).Unlinked? || s.Pc(t).PostLink? then 1 else 0)
  }

  predicate HasHalf(p: Pc) { p.WalkRead? || p.PostRead? || p.PostReread? }

  /** A half never overstates the sum; one read with the operation linked is current
      unless an incrementer is still to walk. */
  ghost predicate HalfInv(s: State) {
    forall t :: HasHalf(s.Pc(t)) ==>
      && SumOf(s, s.Pc(t).half) <= s.Sum()
      && (s.Pc(t).PostRead? || SumOf(s, s.Pc(t).half) == s.Sum() || SomePending(s))
  }

  /** Where the walkers will look next: the position of the walker holding the lock,
      else the shared cursor. */
  ghost predicate Ahead(s: State, j: nat)
    requires j < |s.trig|
  {
    && SomeWalker(s)
    && (forall t :: Standing(s.Pc(t)) ==> Pos(s.trig, PosOf(s.Pc(t))) <= j)
    && ((forall t :: !Standing(s.Pc(t))) ==> Pos(s.trig, s.tmp) <= j)
  }

  ghost predicate BeingPosted(s: State, x: OpId) {
    exists t :: Posting(s.Pc(t)) && s.Pc(t).op == x
  }

  ghost predicate Covered(s: State, j: nat)
    requires j < |s.trig|
  {
    SomePending(s) || BeingPosted(s, s.trig[j]) || Ahead(s, j)
  }

  /** No met operation on the list is out of everybody's way. */
  ghost predicate CoverInv(s: State) {
    forall j: nat :: j < |s.trig| ==> s.trig[j] in s.thr && (s.Met(s.trig[j]) ==> Covered(s, j))
  }

  ghost predicate Inv(s: State) {
    LockInv(s) && OwnerInv(s) && AccountInv(s) && MetInv(s) && CursorInv(s) && SizeInv(s) && HalfInv(s) && CoverInv(s)
  }

  // ---------------------------------------------------------------------------
  // Preservation
  // ---------------------------------------------------------------------------

  lemma WalkedLinked(s: State, t: Tid)
    requires CursorInv(s)
    ensures s.Pc(t).WalkRead? ==> s.Pc(t).cur in s.trig
  {
    assert s.Pc(t).WalkRead? ==> Standing(s.Pc(t)) && PosOf(s.Pc(t)) == At(s.Pc(t).cur);
  }

  lemma LockKept(s: State, a: Action)
    requires LockInv(s) && Enabled(s, a)
    ensures LockInv(Apply(s, a))
  {
    var s' := Apply(s, a);
    assert forall u :: u != a.t ==> s'.Pc(u) == s.Pc(u);
  }

  ghost predicate OthersStay(s: State, s': State, t: Tid) {
    forall u :: u != t ==> s'.Pc(u) == s.Pc(u)
  }

  lemma OnlyActor(s: State, a: Action)
    requires Enabled(s, a)
    ensures OthersStay(s, Apply(s, a), a.t)
  {
  }

  /** A step that changes neither list nor log and gives its activation at most the
      operation it owned. */
  lemma OwnerStays(s: State, s': State, t: Tid)
    requires OwnerInv(s) && OthersStay(s, s', t) && Owned(s'.Pc(t)) <= Owned(s.Pc(t))
    requires s'.trig == s.trig && s'.fired == s.fired && s'.thr == s.thr
    ensures OwnerInv(s')
  {
    forall u, v, x | x in Owned(s'.Pc(u)) && x in Owned(s'.Pc(v)) ensures u == v {
      assert x in Owned(s.Pc(u)) && x in Owned(s.Pc(v));
    }
    forall u, x | x in Owned(s'.Pc(u)) ensures x in s'.thr && x !in s'.trig && x !in s'.fired {
      assert x in Owned(s.Pc(u));
    }
  }

  /** A step that moves the operation its activation owned onto the list or the log. */
  lemma OwnerGives(s: State, s': State, t: Tid, x: OpId)
    requires OwnerInv(s) && OthersStay(s, s', t) && Owned(s.Pc(t)) == {x} && Owned(s'.Pc(t)) == {}
    requires s'.thr == s.thr
    requires (s'.trig == s.trig + [x] && s'.fired == s.fired) || (s'.fired == s.fired + [x] && s'.trig == s.trig)
    ensures OwnerInv(s')
  {
    assert x in Owned(s.Pc(t));
    NoDupAppend(s.trig, x);
    NoDupAppend(s.fired, x);
    forall u, v, y | y in Owned(s'.Pc(u)) && y in Owned(s'.Pc(v)) ensures u == v {
      assert y in Owned(s.Pc(u)) && y in Owned(s.Pc(v));
    }
    forall u, y | y in Owned(s'.Pc(u)) ensures y in s'.thr && y !in s'.trig && y !in s'.fired {
      assert u != t && y in Owned(s.Pc(u));
    }
  }

  /** A step that takes a linked operation, or a new one, into ownership. */
  lemma OwnerTakes(s: State, s': State, t: Tid, x: OpId)
    requires OwnerInv(s) && OthersStay(s, s', t) && Owned(s.Pc(t)) == {} && Owned(s'.Pc(t)) == {x}
    requires s'.fired == s.fired
    requires (x in s.trig && s'.trig == Unlink(s.trig, x) && s'.thr == s.thr)
             || (x !in s.thr && s'.trig == s.trig && s'.thr.Keys == s.thr.Keys + {x})
    ensures OwnerInv(s')
  {
    if x in s.trig {
      UnlinkFacts(s.trig, x);
    }
    forall u, v, y | y in Owned(s'.Pc(u)) && y in Owned(s'.Pc(v)) ensures u == v {
      assert u != t ==> y in Owned(s.Pc(u));
      assert v != t ==> y in Owned(s.Pc(v));
    }
    forall u, y | y in Owned(s'.Pc(u)) ensures y in s'.thr && y !in s'.trig && y !in s'.fired {
      assert u != t ==> y in Owned(s.Pc(u));
    }
  }

  lemma OwnerKept(s: State, a: Action)
    requires OwnerInv(s) && Enabled(s, a)
    requires s.Pc(a.t).WalkRead? ==> s.Pc(a.t).cur in s.trig
    ensures OwnerInv(Apply(s, a))
  {
    var s' := Apply(s, a);
    var t, p := a.t, s.Pc(a.t);
    OnlyActor(s, a);
    if a.Decide? && p.WalkRead? && s'.Pc(t).Unlinked? {
      OwnerTakes(s, s', t, p.cur);
    } else if a.Post? {
      OwnerTakes(s, s', t, a.op);
    } else if a.Fire? || a.Link? {
      OwnerGives(s, s', t, p.op);
    } else {
      OwnerStays(s, s', t);
    }
  }

  lemma AccountLocal(s: State, a: Action, x: OpId)
    requires NoDup(s.trig) && Enabled(s, a)
    requires s.Pc(a.t).WalkRead? ==> s.Pc(a.t).cur in s.trig
    requires x in Owned(s.Pc(a.t)) || x in s.trig || x in s.fired
    ensures var s' := Apply(s, a); x in Owned(s'.Pc(a.t)) || x in s'.trig || x in s'.fired
  {
    var p := s.Pc(a.t);
    if p.WalkRead? {
      UnlinkFacts(s.trig, p.cur);
    }
  }

  lemma AccountKept(s: State, a: Action)
    requires NoDup(s.trig) && AccountInv(s) && Enabled(s, a)
    requires s.Pc(a.t).WalkRead? ==> s.Pc(a.t).cur in s.trig
    ensures AccountInv(Apply(s, a))
  {
    var s' := Apply(s, a);
    OnlyActor(s, a);
    forall x | x in s'.thr
      ensures x in s'.trig || x in s'.fired || HasOwner(s', x)
    {
      if x !in s.thr {
        assert x in Owned(s'.Pc(a.t));
      } else if x in s.trig || x in s.fired || x in Owned(s.Pc(a.t)) {
        AccountLocal(s, a, x);
      } else {
        var u :| x in Owned(s.Pc(u));
        assert x in Owned(s'.Pc(u));
      }
    }
  }

  lemma MetKept(s: State, a: Action)
    requires OwnerInv(s) && MetInv(s) && HalfInv(s) && Enabled(s, a)
    ensures MetInv(Apply(s, a))
  {
    var s' := Apply(s, a);
    assert s.Sum() <= s'.Sum();
    assert forall x :: x in s.thr ==> x in s'.thr && s'.thr[x] == s.thr[x];
    forall t, x | x in Owned(s'.Pc(t)) && Due(s'.Pc(t)) ensures x in s'.thr && s'.Met(x) {
      MetOwned(s, a, t, x);
    }
    forall x | x in s'.fired ensures x in s'.thr && s'.Met(x) {
      if x !in s.fired {
        assert a.Fire? && x in Owned(s.Pc(a.t)) && Due(s.Pc(a.t));
      }
    }
  }

  lemma MetOwned(s: State, a: Action, t: Tid, x: OpId)
    requires OwnerInv(s) && MetInv(s) && HalfInv(s) && Enabled(s, a)
    requires x in Owned(Apply(s, a).Pc(t)) && Due(Apply(s, a).Pc(t))
    ensures x in Apply(s, a).thr && Apply(s, a).Met(x)
  {
    if t != a.t {
      assert Apply(s, a).Pc(t) == s.Pc(t);
    } else if !a.Decide? {
      assert s.Pc(t).Unlinked? && x in Owned(s.Pc(t));
    }
  }

  lemma SizeKept(s: State, a: Action)
    requires LockInv(s) && SizeInv(s) && Enabled(s, a)
    requires NoDup(s.trig) && (s.Pc(a.t).WalkRead? ==> s.Pc(a.t).cur in s.trig)
    ensures SizeInv(Apply(s, a))
  {
    var s' := Apply(s, a);
    OnlyActor(s, a);
    if a.Decide? && s.Pc(a.t).WalkRead? {
      UnlinkFacts(s.trig, s.Pc(a.t).cur);
    }
  }

  lemma HalfKept(s: State, a: Action)
    requires LockInv(s) && CursorInv(s) && SizeInv(s) && HalfInv(s) && Enabled(s, a)
    ensures HalfInv(Apply(s, a))
  {
    var s' := Apply(s, a);
    OnlyActor(s, a);
    forall t | HasHalf(s'.Pc(t))
      ensures SumOf(s', s'.Pc(t).half) <= s'.Sum()
      ensures s'.Pc(t).PostRead? || SumOf(s', s'.Pc(t).half) == s'.Sum() || SomePending(s')
    {
      if t == a.t {
        assert a.ReadHalf?;
      } else {
        HalfElsewhere(s, a, t);
      }
    }
  }

  lemma HalfElsewhere(s: State, a: Action, t: Tid)
    requires LockInv(s) && CursorInv(s) && SizeInv(s) && HalfInv(s) && Enabled(s, a)
    requires t != a.t && HasHalf(s.Pc(t))
    ensures var s' := Apply(s, a);
            && SumOf(s', s.Pc(t).half) <= s'.Sum()
            && (s.Pc(t).PostRead? || SumOf(s', s.Pc(t).half) == s'.Sum() || SomePending(s'))
  {
    var s' := Apply(s, a);
    if a.Inc? {
      assert IsPending(s'.Pc(a.t));
    } else if !s.Pc(t).PostRead? && SomePending(s) {
      assert Standing(s.Pc(t)) || Posting(s.Pc(t));
      PendingKept(s, a, t);
    }
  }

  /** While the list is not empty nobody who has incremented goes idle unwalked. */
  lemma PendingKept(s: State, a: Action, t: Tid)
    requires LockInv(s) && CursorInv(s) && SizeInv(s) && Enabled(s, a)
    requires t in s.holder && t != a.t && SomePending(s) && s.trig != []
    ensures SomePending(Apply(s, a))
  {
    var s' := Apply(s, a);
    var u :| IsPending(s.Pc(u));
    assert IsPending(s'.Pc(u));
  }

  lemma CursorKept(s: State, a: Action)
    requires LockInv(s) && OwnerInv(s) && CursorInv(s) && Enabled(s, a)
    ensures CursorInv(Apply(s, a))
  {
    var s' := Apply(s, a);
    var t, p := a.t, s.Pc(a.t);
    OnlyActor(s, a);
    if a.StartWalk? || a.Resume? || (a.Decide? && p.WalkRead?) || a.Link? {
      CursorMoved(s, a);
    } else {
      CursorUntouched(s, s', t);
    }
  }

  lemma CursorUntouched(s: State, s': State, t: Tid)
    requires CursorInv(s) && OthersStay(s, s', t) && s'.trig == s.trig && s'.tmp == s.tmp
    requires Standing(s'.Pc(t)) ==> Standing(s.Pc(t)) && PosOf(s'.Pc(t)) == PosOf(s.Pc(t))
    requires Posting(s'.Pc(t)) ==> s'.Pc(t).op in s.trig
    requires IsWalker(s'.Pc(t)) ==> IsWalker(s.Pc(t))
    ensures CursorInv(s')
  {
    assert forall u :: IsWalker(s'.Pc(u)) ==> IsWalker(s.Pc(u));
  }

  lemma CursorAlone(s: State, a: Action)
    requires LockInv(s) && Enabled(s, a)
    requires a.StartWalk? || a.Resume? || (a.Decide? && s.Pc(a.t).WalkRead?) || a.Link?
    ensures OthersStay(s, Apply(s, a), a.t)
    ensures forall u :: u != a.t ==> !InCs(Apply(s, a).Pc(u))
  {
    var s' := Apply(s, a);
    OnlyActor(s, a);
    assert forall u :: u != a.t ==> s'.Pc(u) == s.Pc(u);
  }

  lemma CursorDecided(s: State, a: Action)
    requires LockInv(s) && OwnerInv(s) && CursorInv(s) && Enabled(s, a) && a.Decide? && s.Pc(a.t).WalkRead?
    ensures CursorInv(Apply(s, a))
  {
    var s', p := Apply(s, a), s.Pc(a.t);
    CursorAlone(s, a);
    assert Standing(p) && IsWalker(s'.Pc(a.t));
    if s'.Pc(a.t).Unlinked? {
      UnlinkCursor(s.trig, p.cur);
    } else {
      PrevLinked(s.trig, At(p.cur));
      PrevLinked(s.trig, s.tmp);
    }
    CursorSet(s', a.t);
  }

  lemma CursorMoved(s: State, a: Action)
    requires LockInv(s) && OwnerInv(s) && CursorInv(s) && Enabled(s, a)
    requires a.StartWalk? || a.Resume? || (a.Decide? && s.Pc(a.t).WalkRead?) || a.Link?
    ensures CursorInv(Apply(s, a))
  {
    var s' := Apply(s, a);
    if a.Decide? {
      CursorDecided(s, a);
    } else {
      CursorAlone(s, a);
      if a.Link? {
        assert s.Pc(a.t).op in Owned(s.Pc(a.t));
        CursorLinked(s, s', a.t);
      } else {
        PrevLinked(s.trig, Head);
        if a.StartWalk? {
          PrevLinked(s.trig, Oldest(s.trig));
        } else {
          assert IsWalker(s.Pc(a.t));
          PrevLinked(s.trig, s.tmp);
        }
        CursorSet(s', a.t);
      }
    }
  }

  /** The activation that holds the lock is the only one with a position. */
  lemma CursorSet(s: State, t: Tid)
    requires forall u :: u != t ==> !InCs(s.Pc(u))
    requires !Posting(s.Pc(t)) && Linked(s.trig, s.tmp)
    requires Standing(s.Pc(t)) ==> Linked(s.trig, PosOf(s.Pc(t))) && s.tmp == Prev(s.trig, PosOf(s.Pc(t)))
    ensures CursorInv(s)
  {
  }

  lemma CursorLinked(s: State, s': State, t: Tid)
    requires CursorInv(s) && OthersStay(s, s', t) && NoDup(s.trig) && s.Pc(t).PostLink? && s.Pc(t).op !in s.trig
    requires s'.trig == s.trig + [s.Pc(t).op] && s'.tmp == s.tmp && s'.Pc(t) == PostRetest(s.Pc(t).op)
    requires forall u :: u != t ==> !InCs(s'.Pc(u))
    ensures CursorInv(s')
  {
    if s.tmp == Unset {
      assert forall u :: IsWalker(s'.Pc(u)) ==> IsWalker(s.Pc(u));
    } else {
      AppendFacts(s.trig, s.Pc(t).op, s.tmp);
    }
  }

  lemma CoverKept(s: State, a: Action)
    requires Inv(s) && Enabled(s, a)
    ensures CoverInv(Apply(s, a))
  {
    var s' := Apply(s, a);
    WalkedLinked(s, a.t);
    OwnerKept(s, a);
    forall j: nat | j < |s'.trig| && s'.Met(s'.trig[j]) ensures Covered(s', j) {
      CoverAt(s, a, j);
    }
  }

  /** A step that moves nobody along the list keeps every operation covered. */
  lemma CoverUnmoved(s: State, s': State, t: Tid, j: nat)
    requires j < |s.trig| && s'.trig == s.trig && s'.tmp == s.tmp && OthersStay(s, s', t)
    requires Covered(s, j)
    requires IsPending(s.Pc(t)) ==> IsPending(s'.Pc(t))
    requires IsWalker(s.Pc(t)) ==> IsWalker(s'.Pc(t))
    requires Standing(s.Pc(t)) <==> Standing(s'.Pc(t))
    requires PosOf(s.Pc(t)) == PosOf(s'.Pc(t))
    requires Posting(s.Pc(t)) ==> Posting(s'.Pc(t)) && s'.Pc(t).op == s.Pc(t).op
    ensures Covered(s', j)
  {
    if SomePending(s) {
      var u :| IsPending(s.Pc(u));
      assert IsPending(s'.Pc(u));
    } else if BeingPosted(s, s.trig[j]) {
      var u :| Posting(s.Pc(u)) && s.Pc(u).op == s.trig[j];
      assert Posting(s'.Pc(u)) && s'.Pc(u).op == s.trig[j];
    } else {
      var u :| IsWalker(s.Pc(u));
      assert IsWalker(s'.Pc(u));
      forall v | Standing(s'.Pc(v)) ensures Pos(s'.trig, PosOf(s'.Pc(v))) <= j {
        assert Standing(s.Pc(v));
      }
      if forall v :: !Standing(s'.Pc(v)) {
        assert forall v :: !Standing(s.Pc(v)) by {
          assert forall v :: v != t ==> s.Pc(v) == s'.Pc(v);
        }
      }
    }
  }

  lemma CoverAt(s: State, a: Action, j: nat)
    requires Inv(s) && Enabled(s, a)
    requires j < |Apply(s, a).trig| && Apply(s, a).trig[j] in Apply(s, a).thr && Apply(s, a).Met(Apply(s, a).trig[j])
    ensures Covered(Apply(s, a), j)
  {
    var s' := Apply(s, a);
    var p := s.Pc(a.t);
    if a.Inc? || a.ReadListSize? {
      assert IsPending(s'.Pc(a.t));
    } else if a.StartWalk? {
      CoverStart(s, a.t, j);
    } else if a.Decide? && p.WalkRead? {
      CoverWalk(s, a.t, j);
    } else if a.Decide? && p.PostReread? {
      CoverRepost(s, a.t, j);
    } else if a.EndWalk? {
      CoverEnd(s, a.t, j);
    } else if a.Resume? {
      CoverResume(s, a.t, j);
    } else if a.Link? {
      CoverLink(s, a.t, j);
    } else {
      CoverOther(s, a, j);
    }
  }

  predicate MovesNobody(s: State, a: Action) {
    a.ReadHalf? || a.LowerSize? || a.Fire? || a.Post? || a.LockPost? || a.RaiseSize?
    || (a.Decide? && s.Pc(a.t).PostRead?)
  }

  lemma CoverOther(s: State, a: Action, j: nat)
    requires CoverInv(s) && Enabled(s, a) && MovesNobody(s, a)
    requires j < |s.trig| && s.trig[j] in Apply(s, a).thr && Apply(s, a).Met(s.trig[j])
    ensures Covered(Apply(s, a), j)
  {
    var s' := Apply(s, a);
    OnlyActor(s, a);
    assert s'.trig == s.trig && s'.tmp == s.tmp;
    assert s.trig[j] in s.thr && s.Met(s.trig[j]);
    CoverUnmoved(s, s', a.t, j);
  }

  lemma CoverStart(s: State, t: Tid, j: nat)
    requires LockInv(s) && Enabled(s, StartWalk(t)) && j < |s.trig|
    ensures Covered(Apply(s, StartWalk(t)), j)
  {
    var s' := Apply(s, StartWalk(t));
    assert IsWalker(s'.Pc(t));
    assert Pos(s'.trig, Oldest(s'.trig)) == 0;
    assert OthersStay(s, s', t);
    assert forall u :: Standing(s'.Pc(u)) ==> u == t by {
      assert forall u :: !InCs(s.Pc(u));
    }
  }

  lemma CoverEnd(s: State, t: Tid, j: nat)
    requires Inv(s) && Enabled(s, EndWalk(t)) && j < |s.trig| && s.Met(s.trig[j])
    ensures Covered(Apply(s, EndWalk(t)), j)
  {
    var s' := Apply(s, EndWalk(t));
    assert OthersStay(s, s', t);
    assert Covered(s, j);
    assert SomePending(s) by {
      assert Standing(s.Pc(t)) && Pos(s.trig, PosOf(s.Pc(t))) == |s.trig|;
      assert forall u :: InCs(s.Pc(u)) ==> u == t;
    }
    var u :| IsPending(s.Pc(u));
    assert IsPending(s'.Pc(u));
  }

  lemma CoverResume(s: State, t: Tid, j: nat)
    requires LockInv(s) && CoverInv(s) && Enabled(s, Resume(t)) && j < |s.trig| && s.trig[j] in s.thr && s.Met(s.trig[j])
    ensures Covered(Apply(s, Resume(t)), j)
  {
    var s' := Apply(s, Resume(t));
    assert OthersStay(s, s', t);
    assert Covered(s, j);
    if SomePending(s) {
      PendingStays(s, s', t);
    } else {
      assert forall u :: !InCs(s.Pc(u));
      assert Ahead(s, j);
      assert IsWalker(s'.Pc(t));
    }
  }

  lemma PendingStays(s: State, s': State, t: Tid)
    requires SomePending(s) && OthersStay(s, s', t) && !IsPending(s.Pc(t))
    ensures SomePending(s')
  {
    var u :| IsPending(s.Pc(u));
    assert IsPending(s'.Pc(u));
  }

  lemma WalkerStays(s: State, s': State, t: Tid)
    requires SomeWalker(s) && OthersStay(s, s', t) && !IsWalker(s.Pc(t))
    ensures SomeWalker(s')
  {
    var u :| IsWalker(s.Pc(u));
    assert IsWalker(s'.Pc(u));
  }

  lemma CoverLink(s: State, t: Tid, j: nat)
    requires LockInv(s) && OwnerInv(s) && CursorInv(s) && CoverInv(s) && Enabled(s, Link(t)) && j <= |s.trig|
    requires j < |s.trig| ==> s.trig[j] in s.thr && s.Met(s.trig[j])
    ensures Covered(Apply(s, Link(t)), j)
  {
    var s' := Apply(s, Link(t));
    assert OthersStay(s, s', t);
    if j == |s.trig| {
      assert Posting(s'.Pc(t)) && s'.Pc(t).op == s'.trig[j];
    } else {
      assert Covered(s, j);
      if SomePending(s) {
        PendingStays(s, s', t);
      } else {
        assert forall u :: InCs(s.Pc(u)) ==> u == t;
        assert Ahead(s, j);
        WalkerStays(s, s', t);
        assert s.Pc(t).op in Owned(s.Pc(t));
        AppendFacts(s.trig, s.Pc(t).op, s.tmp);
      }
    }
  }

  lemma CoverRepost(s: State, t: Tid, j: nat)
    requires LockInv(s) && HalfInv(s) && CoverInv(s) && Enabled(s, Decide(t)) && s.Pc(t).PostReread?
    requires j < |s.trig| && s.trig[j] in s.thr && s.Met(s.trig[j])
    ensures Covered(Apply(s, Decide(t)), j)
  {
    var s' := Apply(s, Decide(t));
    assert OthersStay(s, s', t);
    assert Covered(s, j);
    if s'.Pc(t).WalkWait? {
      assert IsPending(s'.Pc(t));
    } else if SomePending(s) {
      PendingStays(s, s', t);
    } else {
      assert forall u :: InCs(s.Pc(u)) ==> u == t;
      assert Ahead(s, j) by {
        assert HasHalf(s.Pc(t));
      }
      WalkerStays(s, s', t);
    }
  }

  lemma CoverWalk(s: State, t: Tid, j: nat)
    requires Inv(s) && Enabled(s, Decide(t)) && s.Pc(t).WalkRead?
    requires j < |Apply(s, Decide(t)).trig| && Apply(s, Decide(t)).trig[j] in s.thr && s.Met(Apply(s, Decide(t)).trig[j])
    ensures Covered(Apply(s, Decide(t)), j)
  {
    var s' := Apply(s, Decide(t));
    if SomePending(s) {
      assert OthersStay(s, s', t);
      PendingStays(s, s', t);
    } else {
      assert Standing(s.Pc(t)) && HasHalf(s.Pc(t));
      if s'.Pc(t).Unlinked? {
        CoverUnlink(s, t, j);
      } else {
        CoverPass(s, t, j);
      }
    }
  }

  lemma CoverUnlink(s: State, t: Tid, j: nat)
    requires LockInv(s) && CoverInv(s) && NoDup(s.trig) && !SomePending(s) && s.Pc(t).WalkRead?
    requires var x := s.Pc(t).cur;
             x in s.trig && s.tmp == Prev(s.trig, At(x)) && x in s.thr && SumOf(s, s.Pc(t).half) >= s.thr[x]
    requires j < |Apply(s, Decide(t)).trig| && Apply(s, Decide(t)).trig[j] in s.thr && s.Met(Apply(s, Decide(t)).trig[j])
    ensures Covered(Apply(s, Decide(t)), j)
  {
    var s' := Apply(s, Decide(t));
    var x := s.Pc(t).cur;
    assert OthersStay(s, s', t);
    UnlinkFacts(s.trig, x);
    UnlinkCursor(s.trig, x);
    StandingCovers(s, t, if j < Idx(s.trig, x) then j else j + 1);
    assert IsWalker(s'.Pc(t));
    assert forall u :: !Standing(s'.Pc(u)) by {
      assert forall u :: InCs(s.Pc(u)) ==> u == t;
    }
  }

  lemma CoverPass(s: State, t: Tid, j: nat)
    requires LockInv(s) && CoverInv(s) && NoDup(s.trig) && !SomePending(s) && s.Pc(t).WalkRead?
    requires var x := s.Pc(t).cur;
             x in s.trig && s.tmp == Prev(s.trig, At(x)) && x in s.thr && SumOf(s, s.Pc(t).half) < s.thr[x] && !s.Met(x)
    requires j < |s.trig| && s.trig[j] in s.thr && s.Met(s.trig[j])
    ensures Covered(Apply(s, Decide(t)), j)
  {
    var s' := Apply(s, Decide(t));
    var x := s.Pc(t).cur;
    assert OthersStay(s, s', t);
    PrevLinked(s.trig, At(x));
    StandingCovers(s, t, j);
    assert IsWalker(s'.Pc(t)) && Standing(s'.Pc(t));
    assert forall u :: Standing(s'.Pc(u)) ==> u == t by {
      assert forall u :: InCs(s.Pc(u)) ==> u == t;
    }
  }

  lemma StandingCovers(s: State, t: Tid, j: nat)
    requires LockInv(s) && CoverInv(s) && !SomePending(s) && s.Pc(t).WalkRead?
    requires j < |s.trig| && s.trig[j] in s.thr && s.Met(s.trig[j])
    ensures Idx(s.trig, s.Pc(t).cur) <= j
  {
    assert Standing(s.Pc(t)) && t in s.holder;
    assert forall u :: InCs(s.Pc(u)) ==> u == t;
    assert Covered(s, j);
  }

  // ---------------------------------------------------------------------------
  // Theorems
  // ---------------------------------------------------------------------------

  lemma InvInit(s: State)
    requires Init(s)
    ensures Inv(s)
  {
    assert forall t :: s.Pc(t) == Idle;
  }

  lemma InvStep(s: State, a: Action)
    requires Inv(s) && Enabled(s, a)
    ensures Inv(Apply(s, a))
  {
    LockKept(s, a);
    WalkedLinked(s, a.t);
    OwnerKept(s, a);
    AccountKept(s, a);
    MetKept(s, a);
    CursorKept(s, a);
    SizeKept(s, a);
    HalfKept(s, a);
    CoverKept(s, a);
  }

  lemma {:induction false} InvRun(states: seq<State>, acts: seq<Action>, k: nat)
    requires Run(states, acts) && k < |states|
    ensures Inv(states[k])
  {
    if k == 0 {
      InvInit(states[0]);
    } else {
      InvRun(states, acts, k - 1);
      InvStep(states[k - 1], acts[k - 1]);
    }
  }

  ghost predicate Quiescent(s: State) {
    forall t :: s.Pc(t).Idle?
  }

  /** What the increments among the actions come to, field by field, and which operations
      they post with which threshold. */
  function Successes(acts: seq<Action>): nat {
    if acts == [] then 0
    else
      var a := acts[|acts| - 1];
      Successes(acts[..|acts| - 1]) + if a.Inc? then a.ds else 0
  }

  function Failures(acts: seq<Action>): nat {
    if acts == [] then 0
    else
      var a := acts[|acts| - 1];
      Failures(acts[..|acts| - 1]) + if a.Inc? && a.ds == 0 then a.df else 0
  }

  ghost predicate Posted(acts: seq<Action>, x: OpId, threshold: nat) {
    exists i :: 0 <= i < |acts| && acts[i].Post? && acts[i].op == x && acts[i].threshold == threshold
  }

  lemma PostedSnoc(acts: seq<Action>, a: Action, x: OpId, threshold: nat)
    ensures Posted(acts + [a], x, threshold) <==>
            Posted(acts, x, threshold) || (a.Post? && a.op == x && a.threshold == threshold)
  {
    var now := acts + [a];
    if Posted(acts, x, threshold) {
      var i :| 0 <= i < |acts| && acts[i].Post? && acts[i].op == x && acts[i].threshold == threshold;
      assert now[i] == acts[i];
    }
    assert now[|acts|] == a;
  }

  lemma CountedSnoc(acts: seq<Action>, a: Action)
    ensures Successes(acts + [a]) == Successes(acts) + if a.Inc? then a.ds else 0
    ensures Failures(acts + [a]) == Failures(acts) + if a.Inc? && a.ds == 0 then a.df else 0
  {
    assert (acts + [a])[..|acts|] == acts;
  }

  /** The counter is what the increments made so far come to, and a threshold is the one
      its operation was posted with. */
  lemma {:induction false} Counted(states: seq<State>, acts: seq<Action>, k: nat)
    requires Run(states, acts) && k < |states|
    ensures states[k].success == Successes(acts[..k]) && states[k].failure == Failures(acts[..k])
    ensures forall x, n: nat :: Posted(acts[..k], x, n) <==> x in states[k].thr && states[k].thr[x] == n
  {
    if k == 0 {
      assert acts[..0] == [];
    } else {
      Counted(states, acts, k - 1);
      var s, a, before := states[k - 1], acts[k - 1], acts[..k - 1];
      assert acts[..k] == before + [a];
      CountedSnoc(before, a);
      CountedStep(s, a);
      forall x, n: nat ensures Posted(acts[..k], x, n) <==> x in states[k].thr && states[k].thr[x] == n {
        PostedSnoc(before, a, x, n);
      }
    }
  }

  lemma CountedStep(s: State, a: Action)
    requires Enabled(s, a)
    ensures Apply(s, a).success == s.success + if a.Inc? then a.ds else 0
    ensures Apply(s, a).failure == s.failure + if a.Inc? && a.ds == 0 then a.df else 0
    ensures Apply(s, a).thr == if a.Post? then s.thr[a.op := a.threshold] else s.thr
    ensures a.Post? ==> a.op !in s.thr
  {
  }

  /** No lost trigger: whenever every activation has returned, the operations that have been
      run are exactly those posted with a threshold that the increments made reach, each
      once; the others are still queued and list_size counts them. */
  lemma NoLostTrigger(states: seq<State>, acts: seq<Action>, k: nat)
    requires Run(states, acts) && k < |states| && Quiescent(states[k])
    ensures var s, sum := states[k], Successes(acts[..k]) + Failures(acts[..k]);
            && NoDup(s.fired) && NoDup(s.trig)
            && (forall x :: x in s.fired <==> exists n: nat :: Posted(acts[..k], x, n) && n <= sum)
            && (forall x :: x in s.trig <==> exists n: nat :: Posted(acts[..k], x, n) && n > sum)
            && s.listSize == |s.trig| && s.holder == {}
  {
    NoneLeft(states, acts, k);
    Counted(states, acts, k);
    var s := states[k];
    forall x
      ensures x in s.fired <==> exists n: nat :: Posted(acts[..k], x, n) && n <= s.Sum()
      ensures x in s.trig <==> exists n: nat :: Posted(acts[..k], x, n) && n > s.Sum()
    {
      if x in s.thr {
        assert Posted(acts[..k], x, s.thr[x]);
      }
    }
  }

  /** The same in terms of the state. */
  lemma NoneLeft(states: seq<State>, acts: seq<Action>, k: nat)
    requires Run(states, acts) && k < |states| && Quiescent(states[k])
    ensures var s := states[k];
            && NoDup(s.fired) && NoDup(s.trig)
            && (forall x :: x in s.fired <==> x in s.thr && s.Met(x))
            && (forall x :: x in s.trig <==> x in s.thr && !s.Met(x))
            && s.listSize == |s.trig| && s.holder == {}
  {
    InvRun(states, acts, k);
    var s := states[k];
    forall x | x in s.trig ensures x in s.thr && !s.Met(x) {
      var j := Idx(s.trig, x);
      assert s.trig[j] == x;
      assert !Covered(s, j);
    }
    forall x ensures !HasOwner(s, x) {
      assert forall t :: Owned(s.Pc(t)) == {};
    }
    assert forall t :: t !in s.holder;
  }

  /** The next step of an activation that has not returned. */
  function NextStep(s: State, t: Tid): Action
    requires !s.Pc(t).Idle?
  {
    match s.Pc(t)
    case Added => ReadListSize(t)
    case WalkWait => StartWalk(t)
    case WalkAt(pos) => if pos == Head then EndWalk(t) else ReadHalf(t, true)
    case Unlinked(_) => LowerSize(t)
    case Firing(_) => Fire(t)
    case PostFire(_) => Fire(t)
    case Relock => Resume(t)
    case PostWait(_) => LockPost(t)
    case PostTest(_) => ReadHalf(t, true)
    case PostRetest(_) => ReadHalf(t, true)
    case PostSize(_) => RaiseSize(t)
    case PostLink(_) => Link(t)
    case _ => Decide(t)
  }

  /** Whoever has not returned can go on, or the holder of the lock can. */
  lemma NeverStuck(states: seq<State>, acts: seq<Action>, k: nat, t: Tid)
    requires Run(states, acts) && k < |states| && !states[k].Pc(t).Idle?
    ensures var s := states[k];
            || Enabled(s, NextStep(s, t))
            || exists u :: u in s.holder && !s.Pc(u).Idle? && Enabled(s, NextStep(s, u))
  {
    InvRun(states, acts, k);
    var s := states[k];
    if s.holder == {} {
      GoesOn(s, t);
    } else {
      var u :| u in s.holder;
      GoesOn(s, u);
    }
  }

  lemma GoesOn(s: State, t: Tid)
    requires LockInv(s) && OwnerInv(s) && CursorInv(s) && !s.Pc(t).Idle? && (t in s.holder || s.holder == {})
    ensures Enabled(s, NextStep(s, t))
  {
    var p := s.Pc(t);
    WalkedLinked(s, t);
    assert Standing(p) ==> Linked(s.trig, PosOf(p));
    assert Posting(p) ==> p.op in s.trig;
    assert forall x :: x in Owned(p) ==> x in s.thr;
  }

  /** At every step of every run the shared cursor is unset or points into the list,
      at most one activation holds the lock, and a step that runs an operation runs
      one that has not run before and whose threshold is met. */
  lemma SafeWalks(states: seq<State>, acts: seq<Action>, k: nat)
    requires Run(states, acts) && k < |acts|
    ensures var s, s' := states[k], states[k + 1];
            && (s'.tmp == Unset || Linked(s'.trig, s'.tmp))
            && (forall t, u :: InCs(s'.Pc(t)) && InCs(s'.Pc(u)) ==> t == u)
            && (s'.fired == s.fired
                || exists x :: s'.fired == s.fired + [x] && x !in s.fired && x in s.thr && s.Met(x))
  {
    InvRun(states, acts, k);
    InvRun(states, acts, k + 1);
    var s, a := states[k], acts[k];
    if a.Fire? {
      assert s.Pc(a.t).op in Owned(s.Pc(a.t));
    }
  }
}
