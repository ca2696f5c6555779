/** Object pools: allocation from a free list that grows by slabs, reference counts, and
    the index map that resolves handles, with any number of threads in between the steps.
    The free list is taken as a set, its pushes and pops as atomic.  Parents of objects are
    not part of this model. */
module ObjPool {

  type Tid = nat
  type Addr = nat
  type Pool = nat

  datatype Option<T> = None | Some(value: T)

  const MAX_INDEX := 256 * 1024

  /** The handle keeps the type of the pool above 24 bits of index. */
  const INDEX_RANGE := 0x100_0000

  function Handle(kind: nat, index: nat): nat { kind * INDEX_RANGE + index }
  function HandleIndex(handle: nat): nat { handle % INDEX_RANGE }
  function HandleKind(handle: nat): nat { handle / INDEX_RANGE }

  lemma HandleRoundTrip(kind: nat, index: nat)
    requires index < MAX_INDEX
    ensures HandleIndex(Handle(kind, index)) == index && HandleKind(Handle(kind, index)) == kind
  {
  }

  /** obj_t; the pool is named by its type.  born counts how often the object has been
      handed out. */
  datatype Obj = Obj(pool: Pool, index: nat, free: bool, refs: nat, born: nat)

  /** Where a thread is in obj_alloc (Counted to Marked, with Filling and Filled for
      pool_alloc_slab) or in obj_release (Dropped to Queued). */
  datatype Pc = Counted(pool: Pool)
              | Filling(pool: Pool)
              | Filled(pool: Pool, a: Addr)
              | Popped(pool: Pool, a: Addr)
              | Marked(pool: Pool, a: Addr)
              | Dropped(pool: Pool, a: Addr)
              | Freed(pool: Pool, a: Addr)
              | Queued(pool: Pool)
  {
    predicate Holds() { Filled? || Popped? || Marked? || Dropped? || Freed? }
  }

  /** live records the objects handed out by obj_alloc and not yet put for the last time,
      held the references that were handed out and not yet put; checked the threads that
      are in to_obj, between its checks and obj_get. */
  datatype State = State(objs: map<Addr, Obj>, indexMap: map<nat, Addr>, next: nat, freeList: set<Addr>,
                         live: set<Addr>, held: multiset<Addr>, count: map<Pool, int>, pcs: map<Tid, Pc>,
                         checked: map<Tid, Addr>)

  const EMPTY := State(map[], map[], 0, {}, {}, multiset{}, map[], map[], map[])

  function CountOf(count: map<Pool, int>, p: Pool): int { if p in count then count[p] else 0 }

  datatype Action =
    | Reserve(t: Tid, p: Pool)
    | Pop(t: Tid, a: Addr)
    | PopNone(t: Tid)
    | Create(t: Tid, a: Addr)
    | Enqueue(t: Tid)
    | Retry(t: Tid)
    | GiveUp(t: Tid)
    | Mark(t: Tid)
    | SetRef(t: Tid, setupOk: bool)
    | Get(a: Addr)
    | Put(t: Tid, a: Addr)
    | Free(t: Tid)
    | Uncount(t: Tid)
    | Check(t: Tid, a: Addr, kind: Option<nat>, handle: nat)
    | Take(t: Tid)

  /** The checks of to_obj; kind None is POOL_ANY.  Where the pool's type differs from the
      requested one the source aborts. */
  function Resolve(s: State, kind: Option<nat>, handle: nat): Option<Addr> {
    var i, k := HandleIndex(handle), HandleKind(handle);
    if kind.Some? && k != 0 && kind.value != k then None
    else if i >= MAX_INDEX || i !in s.indexMap then None
    else
      var a := s.indexMap[i];
      if a !in s.objs || s.objs[a].free || s.objs[a].index != i || (kind.Some? && kind.value != s.objs[a].pool) then None
      else Some(a)
  }

  predicate Enabled(s: State, x: Action) {
    match x
    case Reserve(t, _) => t !in s.pcs
    case Pop(t, a) =>
      t in s.pcs && s.pcs[t].Counted? && a in s.freeList && a in s.objs && s.objs[a].pool == s.pcs[t].pool
    case PopNone(t) =>
      t in s.pcs && s.pcs[t].Counted?
      && forall a :: a in s.freeList && a in s.objs ==> s.objs[a].pool != s.pcs[t].pool
    case Create(t, a) => t in s.pcs && s.pcs[t].Filling? && a !in s.objs && s.next < MAX_INDEX
    case Enqueue(t) => t in s.pcs && (s.pcs[t].Filled? || s.pcs[t].Freed?)
    case Retry(t) => t in s.pcs && s.pcs[t].Filling?
    case GiveUp(t) => t in s.pcs && s.pcs[t].Filling?
    case Mark(t) => t in s.pcs && s.pcs[t].Popped? && s.pcs[t].a in s.objs
    case SetRef(t, _) => t in s.pcs && s.pcs[t].Marked? && s.pcs[t].a in s.objs
    case Get(a) => a in s.held && a in s.objs
    case Put(t, a) => t !in s.pcs && a in s.held && a in s.objs && s.objs[a].refs > 0
    case Free(t) => t in s.pcs && s.pcs[t].Dropped? && s.pcs[t].a in s.objs
    case Uncount(t) => t in s.pcs && s.pcs[t].Queued?
    case Check(t, _, _, _) => t !in s.checked
    case Take(t) => t in s.checked && s.checked[t] in s.objs
  }

  /** A thread that passes the checks of to_obj has the object its handle resolves to. */
  predicate Resolved(s: State, x: Action) {
    x.Check? ==> Resolve(s, x.kind, x.handle) == Some(x.a)
  }

  function AddCount(s: State, p: Pool, d: int): map<Pool, int> { s.count[p := CountOf(s.count, p) + d] }

  /** obj_get: whoever calls it, it only counts. */
  function Referenced(s: State, a: Addr): State
    requires a in s.objs
  {
    s.(objs := s.objs[a := s.objs[a].(refs := s.objs[a].refs + 1)], held := s.held + multiset{a})
  }

  function Unreferenced(s: State, a: Addr): State
    requires a in s.objs && s.objs[a].refs > 0
  {
    s.(objs := s.objs[a := s.objs[a].(refs := s.objs[a].refs - 1)], held := s.held - multiset{a})
  }

  /** The last obj_put goes on to obj_release. */
  function LastPut(s: State, t: Tid, a: Addr): State
    requires a in s.objs && s.objs[a].refs > 0
  {
    Unreferenced(s, a).(live := s.live - {a}, pcs := s.pcs[t := Dropped(s.objs[a].pool, a)])
  }

  /** The end of obj_alloc; where the setup fails, the object is released. */
  function HandOut(s: State, t: Tid, ok: bool): State
    requires t in s.pcs && s.pcs[t].Marked? && s.pcs[t].a in s.objs
  {
    var a := s.pcs[t].a;
    var objs := s.objs[a := s.objs[a].(refs := 1, born := s.objs[a].born + 1)];
    if ok then s.(objs := objs, live := s.live + {a}, held := s.held + multiset{a}, pcs := s.pcs - {t})
    else s.(objs := objs, pcs := s.pcs[t := Dropped(s.pcs[t].pool, a)])
  }

  function Apply(s: State, x: Action): State
    requires Enabled(s, x)
  {
    match x
    case Reserve(t, p) => s.(count := AddCount(s, p, 1), pcs := s.pcs[t := Counted(p)])
    case Pop(t, a) => s.(freeList := s.freeList - {a}, pcs := s.pcs[t := Popped(s.pcs[t].pool, a)])
    case PopNone(t) => s.(pcs := s.pcs[t := Filling(s.pcs[t].pool)])
    case Create(t, a) =>
      s.(objs := s.objs[a := Obj(s.pcs[t].pool, s.next, true, 0, 0)], indexMap := s.indexMap[s.next := a],
         next := s.next + 1, pcs := s.pcs[t := Filled(s.pcs[t].pool, a)])
    case Enqueue(t) =>
      s.(freeList := s.freeList + {s.pcs[t].a},
         pcs := s.pcs[t := if s.pcs[t].Filled? then Filling(s.pcs[t].pool) else Queued(s.pcs[t].pool)])
    case Retry(t) => s.(pcs := s.pcs[t := Counted(s.pcs[t].pool)])
    case GiveUp(t) =>
      s.(count := AddCount(s, s.pcs[t].pool, -1), pcs := s.pcs - {t},
         next := if s.next >= MAX_INDEX then s.next + 1 else s.next)
    case Mark(t) =>
      var a := s.pcs[t].a;
      s.(objs := s.objs[a := s.objs[a].(free := false)], pcs := s.pcs[t := Marked(s.pcs[t].pool, a)])
    case SetRef(t, ok) => HandOut(s, t, ok)
    case Get(a) => Referenced(s, a)
    case Put(t, a) => if s.objs[a].refs > 1 then Unreferenced(s, a) else LastPut(s, t, a)
    case Free(t) =>
      var a := s.pcs[t].a;
      s.(objs := s.objs[a := s.objs[a].(free := true)], pcs := s.pcs[t := Freed(s.pcs[t].pool, a)])
    case Uncount(t) => s.(count := AddCount(s, s.pcs[t].pool, -1), pcs := s.pcs - {t})
    case Check(t, a, _, _) => s.(checked := s.checked[t := a])
    case Take(t) => Referenced(s, s.checked[t]).(checked := s.checked - {t})
  }

  predicate Stepped(states: seq<State>, acts: seq<Action>, i: nat)
    requires |states| == |acts| + 1 && i < |acts|
  {
    Enabled(states[i], acts[i]) && Resolved(states[i], acts[i]) && states[i + 1] == Apply(states[i], acts[i])
  }

  predicate Run(states: seq<State>, acts: seq<Action>) {
    && |states| == |acts| + 1
    && states[0] == EMPTY
    && forall i :: 0 <= i < |acts| ==> Stepped(states, acts, i)
  }

  // ---------------------------------------------------------------------------
  // The invariant
  // ---------------------------------------------------------------------------

  /** The index map and the objects' indices are inverse to each other. */
  ghost predicate Indexed(s: State) {
    && (forall a :: a in s.objs ==>
          s.objs[a].index < s.next && s.objs[a].index < MAX_INDEX
          && s.objs[a].index in s.indexMap && s.indexMap[s.objs[a].index] == a)
    && (forall i :: i in s.indexMap ==> s.indexMap[i] in s.objs && s.objs[s.indexMap[i]].index == i)
  }

  /** An object a thread is allocating or releasing is in that thread's hands only. */
  ghost predicate Owned(s: State) {
    forall t :: t in s.pcs && s.pcs[t].Holds() ==> OwnedBy(s, s.pcs[t])
  }

  predicate OwnedBy(s: State, pc: Pc)
    requires pc.Holds()
  {
    && pc.a in s.objs && s.objs[pc.a].pool == pc.pool && pc.a !in s.freeList && pc.a !in s.live
    && s.objs[pc.a].free == !(pc.Marked? || pc.Dropped?)
  }

  ghost predicate Alone(s: State) {
    forall t, u :: t in s.pcs && u in s.pcs && s.pcs[t].Holds() && s.pcs[u].Holds() && s.pcs[t].a == s.pcs[u].a ==> t == u
  }

  ghost predicate Listed(s: State) {
    && (forall a :: a in s.freeList ==> a in s.objs && s.objs[a].free && a !in s.live)
    && (forall a :: a in s.live ==> a in s.objs && !s.objs[a].free && s.objs[a].refs > 0)
  }

  predicate InHand(s: State, t: Tid, a: Addr) { t in s.pcs && s.pcs[t].Holds() && s.pcs[t].a == a }

  /** No longer or not yet free, and not live. */
  ghost predicate InWindow(s: State, a: Addr) {
    exists t :: InHand(s, t, a) && (s.pcs[t].Marked? || s.pcs[t].Dropped?)
  }

  /** No object is lost. */
  ghost predicate Placed(s: State) {
    forall a :: a in s.objs ==> a in s.freeList || a in s.live || exists t :: InHand(s, t, a)
  }

  function LiveIn(objs: map<Addr, Obj>, live: set<Addr>, p: Pool): set<Addr> {
    set a | a in live && a in objs && objs[a].pool == p
  }

  function BusyIn(pcs: map<Tid, Pc>, p: Pool): set<Tid> { set t | t in pcs && pcs[t].pool == p }

  /** count is the number of live objects and of threads allocating or releasing one. */
  ghost predicate Counts(s: State) {
    forall p :: CountsAt(s, p)
  }

  /** References are to live objects, and a live object's count is their number. */
  ghost predicate Backed(s: State) {
    && (forall a :: a in s.held <==> a in s.live)
    && (forall a :: a in s.live ==> a in s.objs && s.objs[a].refs == s.held[a])
  }

  ghost predicate Inv(s: State) {
    Indexed(s) && Owned(s) && Alone(s) && Listed(s) && Placed(s) && Counts(s) && Backed(s)
  }

  /** A thread in to_obj takes its reference while another one is held. */
  predicate Careful(s: State, x: Action) {
    x.Take? && x.t in s.checked ==> s.checked[x.t] in s.held
  }

  /** Steps that move a thread, change the object it has in hand, or count references. */
  predicate Moves(x: Action) {
    x.Reserve? || x.Pop? || x.PopNone? || x.Enqueue? || x.Retry? || x.GiveUp? || x.Uncount? || x.Check?
  }

  predicate Changes(x: Action) { x.Create? || x.Mark? || x.Free? }

  predicate References(x: Action) { x.SetRef? || x.Get? || x.Put? || x.Take? }

  lemma BackedChanges(s: State, x: Action)
    requires Backed(s) && Owned(s) && Enabled(s, x) && (Moves(x) || Changes(x))
    ensures Backed(Apply(s, x))
  {
  }

  lemma BackedReferenced(s: State, a: Addr)
    requires Backed(s) && Owned(s) && a in s.objs && a in s.held
    ensures Backed(Referenced(s, a))
  {
  }

  lemma BackedPut(s: State, t: Tid, a: Addr)
    requires Backed(s) && Owned(s) && Enabled(s, Put(t, a))
    ensures Backed(Apply(s, Put(t, a)))
  {
  }

  lemma BackedHandOut(s: State, t: Tid, ok: bool)
    requires Backed(s) && Owned(s) && Enabled(s, SetRef(t, ok))
    ensures Backed(HandOut(s, t, ok))
  {
  }

  lemma BackedReferences(s: State, x: Action)
    requires Backed(s) && Owned(s) && Enabled(s, x) && Careful(s, x) && References(x)
    ensures Backed(Apply(s, x))
  {
    match x
    case Get(a) => BackedReferenced(s, a);
    case Take(t) => BackedReferenced(s, s.checked[t]);
    case Put(t, a) => BackedPut(s, t, a);
    case SetRef(t, ok) => BackedHandOut(s, t, ok);
  }

  lemma BackedStep(s: State, x: Action)
    requires Backed(s) && Owned(s) && Enabled(s, x) && Careful(s, x)
    ensures Backed(Apply(s, x))
  {
    if References(x) {
      BackedReferences(s, x);
    } else {
      BackedChanges(s, x);
    }
  }

  lemma IndexedCreate(s: State, t: Tid, a: Addr)
    requires Indexed(s) && Enabled(s, Create(t, a))
    ensures Indexed(Apply(s, Create(t, a)))
  {
    assert s.next !in s.indexMap;
  }

  ghost predicate SameIndices(s: State, s': State) {
    && s'.indexMap == s.indexMap && s.next <= s'.next && s'.objs.Keys == s.objs.Keys
    && forall a :: a in s.objs ==> s'.objs[a].index == s.objs[a].index
  }

  lemma IndexedSame(s: State, s': State)
    requires Indexed(s) && SameIndices(s, s')
    ensures Indexed(s')
  {
  }

  lemma SameByReference(s: State, x: Action)
    requires Enabled(s, x) && References(x)
    ensures SameIndices(s, Apply(s, x))
  {
    match x
    case Get(a) => SameReferenced(s, a);
    case Take(t) => SameReferenced(s, s.checked[t]);
    case Put(t, a) => OneChanged(s.objs, a, s.objs[a].(refs := s.objs[a].refs - 1));
    case SetRef(t, ok) =>
      var a := s.pcs[t].a;
      OneChanged(s.objs, a, s.objs[a].(refs := 1, born := s.objs[a].born + 1));
  }

  lemma SameReferenced(s: State, a: Addr)
    requires a in s.objs
    ensures SameIndices(s, Referenced(s, a))
  {
    OneChanged(s.objs, a, s.objs[a].(refs := s.objs[a].refs + 1));
  }

  lemma OneChanged(objs: map<Addr, Obj>, a: Addr, o: Obj)
    requires a in objs && o.index == objs[a].index
    ensures objs[a := o].Keys == objs.Keys
    ensures forall b :: b in objs ==> objs[a := o][b].index == objs[b].index
  {
  }

  lemma IndexedStep(s: State, x: Action)
    requires Indexed(s) && Enabled(s, x)
    ensures Indexed(Apply(s, x))
  {
    if x.Create? {
      IndexedCreate(s, x.t, x.a);
    } else {
      if References(x) {
        SameByReference(s, x);
      }
      IndexedSame(s, Apply(s, x));
    }
  }

  lemma OwnedMoves(s: State, x: Action)
    requires Owned(s) && Alone(s) && Listed(s) && Enabled(s, x) && Moves(x)
    ensures Owned(Apply(s, x))
  {
  }

  lemma OwnedChanges(s: State, x: Action)
    requires Owned(s) && Alone(s) && Listed(s) && Enabled(s, x) && Changes(x)
    ensures Owned(Apply(s, x))
  {
  }

  lemma OwnedReferenced(s: State, a: Addr)
    requires Owned(s) && Alone(s) && Listed(s) && Backed(s) && a in s.objs
    ensures Owned(Referenced(s, a))
  {
  }

  lemma OwnedUnreferenced(s: State, a: Addr)
    requires Owned(s) && Alone(s) && Listed(s) && Backed(s) && a in s.held && a in s.objs && s.objs[a].refs > 1
    ensures Owned(Unreferenced(s, a))
  {
  }

  lemma OwnedLastPut(s: State, t: Tid, a: Addr)
    requires Owned(s) && Alone(s) && Listed(s) && Backed(s) && t !in s.pcs
    requires a in s.held && a in s.objs && s.objs[a].refs == 1
    ensures Owned(LastPut(s, t, a))
  {
  }

  lemma OwnedPut(s: State, t: Tid, a: Addr)
    requires Owned(s) && Alone(s) && Listed(s) && Backed(s) && Enabled(s, Put(t, a))
    ensures Owned(Apply(s, Put(t, a)))
  {
    if s.objs[a].refs > 1 {
      OwnedUnreferenced(s, a);
    } else {
      OwnedLastPut(s, t, a);
    }
  }

  lemma OwnedHandOut(s: State, t: Tid, ok: bool)
    requires Owned(s) && Alone(s) && Listed(s) && Backed(s) && Enabled(s, SetRef(t, ok))
    ensures Owned(HandOut(s, t, ok))
  {
  }

  lemma OwnedReferences(s: State, x: Action)
    requires Owned(s) && Alone(s) && Listed(s) && Backed(s) && Enabled(s, x) && References(x)
    ensures Owned(Apply(s, x))
  {
    match x
    case Get(a) => OwnedReferenced(s, a);
    case Take(t) => OwnedReferenced(s, s.checked[t]);
    case Put(t, a) => OwnedPut(s, t, a);
    case SetRef(t, ok) => OwnedHandOut(s, t, ok);
  }

  lemma OwnedStep(s: State, x: Action)
    requires Owned(s) && Alone(s) && Listed(s) && Backed(s) && Enabled(s, x)
    ensures Owned(Apply(s, x))
  {
    if Moves(x) {
      OwnedMoves(s, x);
    } else if Changes(x) {
      OwnedChanges(s, x);
    } else {
      OwnedReferences(s, x);
    }
  }

  lemma AloneStep(s: State, x: Action)
    requires Owned(s) && Alone(s) && Backed(s) && Enabled(s, x)
    ensures Alone(Apply(s, x))
  {
    if Moves(x) {
      AloneMoves(s, x);
    } else if Changes(x) {
      AloneChanges(s, x);
    } else if x.Put? {
      AlonePut(s, x.t, x.a);
    } else {
      AloneReferences(s, x);
    }
  }

  lemma AloneMoves(s: State, x: Action)
    requires Owned(s) && Alone(s) && Enabled(s, x) && Moves(x)
    ensures Alone(Apply(s, x))
  {
  }

  lemma AloneChanges(s: State, x: Action)
    requires Owned(s) && Alone(s) && Enabled(s, x) && Changes(x)
    ensures Alone(Apply(s, x))
  {
  }

  lemma AloneReferences(s: State, x: Action)
    requires Alone(s) && Enabled(s, x) && References(x) && !x.Put?
    ensures Alone(Apply(s, x))
  {
  }

  lemma AlonePut(s: State, t: Tid, a: Addr)
    requires Owned(s) && Alone(s) && Backed(s) && Enabled(s, Put(t, a))
    ensures Alone(Apply(s, Put(t, a)))
  {
  }

  lemma ListedMoves(s: State, x: Action)
    requires Owned(s) && Listed(s) && Enabled(s, x) && Moves(x)
    ensures Listed(Apply(s, x))
  {
  }

  lemma ListedChanges(s: State, x: Action)
    requires Owned(s) && Listed(s) && Enabled(s, x) && Changes(x)
    ensures Listed(Apply(s, x))
  {
  }

  lemma ListedReferenced(s: State, a: Addr)
    requires Owned(s) && Listed(s) && Backed(s) && a in s.objs
    ensures Listed(Referenced(s, a))
  {
  }

  lemma ListedUnreferenced(s: State, a: Addr)
    requires Owned(s) && Listed(s) && Backed(s) && a in s.held && a in s.objs && s.objs[a].refs > 1
    ensures Listed(Unreferenced(s, a))
  {
  }

  lemma ListedLastPut(s: State, t: Tid, a: Addr)
    requires Owned(s) && Listed(s) && Backed(s) && t !in s.pcs && a in s.held && a in s.objs && s.objs[a].refs == 1
    ensures Listed(LastPut(s, t, a))
  {
  }

  lemma ListedPut(s: State, t: Tid, a: Addr)
    requires Owned(s) && Listed(s) && Backed(s) && Enabled(s, Put(t, a))
    ensures Listed(Apply(s, Put(t, a)))
  {
    if s.objs[a].refs > 1 {
      ListedUnreferenced(s, a);
    } else {
      ListedLastPut(s, t, a);
    }
  }

  lemma ListedHandOut(s: State, t: Tid, ok: bool)
    requires Owned(s) && Listed(s) && Backed(s) && Enabled(s, SetRef(t, ok))
    ensures Listed(HandOut(s, t, ok))
  {
  }

  lemma ListedReferences(s: State, x: Action)
    requires Owned(s) && Listed(s) && Backed(s) && Enabled(s, x) && References(x)
    ensures Listed(Apply(s, x))
  {
    match x
    case Get(a) => ListedReferenced(s, a);
    case Take(t) => ListedReferenced(s, s.checked[t]);
    case Put(t, a) => ListedPut(s, t, a);
    case SetRef(t, ok) => ListedHandOut(s, t, ok);
  }

  lemma ListedStep(s: State, x: Action)
    requires Owned(s) && Listed(s) && Backed(s) && Enabled(s, x)
    ensures Listed(Apply(s, x))
  {
    if Moves(x) {
      ListedMoves(s, x);
    } else if Changes(x) {
      ListedChanges(s, x);
    } else {
      ListedReferences(s, x);
    }
  }

  lemma PlacedStep(s: State, x: Action)
    requires Owned(s) && Listed(s) && Placed(s) && Enabled(s, x)
    ensures Placed(Apply(s, x))
  {
    var s' := Apply(s, x);
    forall a | a in s'.objs
      ensures a in s'.freeList || a in s'.live || exists t :: InHand(s', t, a)
    {
      PlacedAt(s, x, a);
    }
  }

  lemma PlacedAt(s: State, x: Action, a: Addr)
    requires Owned(s) && Listed(s) && Placed(s) && Enabled(s, x) && a in Apply(s, x).objs
    ensures var s' := Apply(s, x);
      a in s'.freeList || a in s'.live || exists t :: InHand(s', t, a)
  {
    if a !in s.objs || a in s.freeList || a in s.live {
      PlaceLeft(s, x, a);
    } else {
      var t :| InHand(s, t, a);
      HandLeft(s, x, t, a);
    }
  }

  /** What a thread has in hand stays there or goes to the free list or to the caller. */
  lemma HandLeft(s: State, x: Action, t: Tid, a: Addr)
    requires Enabled(s, x) && InHand(s, t, a)
    ensures InHand(Apply(s, x), t, a) || a in Apply(s, x).freeList || a in Apply(s, x).live
  {
  }

  /** An object that leaves the free list or is put for the last time is in the hands of
      the thread that does it. */
  lemma PlaceLeft(s: State, x: Action, a: Addr)
    requires Enabled(s, x) && a in Apply(s, x).objs && (a !in s.objs || a in s.freeList || a in s.live)
    ensures var s' := Apply(s, x);
      a in s'.freeList || a in s'.live || exists t :: InHand(s', t, a)
  {
    if x.Pop? || x.Create? || x.Put? {
      assert InHand(Apply(s, x), x.t, a) || a in Apply(s, x).freeList || a in Apply(s, x).live;
    }
  }

  // ---------------------------------------------------------------------------
  // Counting
  // ---------------------------------------------------------------------------

  /** A thread starts, moves on within its pool, or ends. */
  lemma BusyStart(pcs: map<Tid, Pc>, t: Tid, pc: Pc, p: Pool)
    requires t !in pcs
    ensures |BusyIn(pcs[t := pc], p)| == |BusyIn(pcs, p)| + if pc.pool == p then 1 else 0
  {
    assert BusyIn(pcs[t := pc], p) == BusyIn(pcs, p) + if pc.pool == p then {t} else {};
  }

  lemma BusyMove(pcs: map<Tid, Pc>, t: Tid, pc: Pc, p: Pool)
    requires t in pcs && pc.pool == pcs[t].pool
    ensures BusyIn(pcs[t := pc], p) == BusyIn(pcs, p)
  {
  }

  lemma BusyEnd(pcs: map<Tid, Pc>, t: Tid, p: Pool)
    requires t in pcs
    ensures |BusyIn(pcs - {t}, p)| == |BusyIn(pcs, p)| - if pcs[t].pool == p then 1 else 0
  {
    assert BusyIn(pcs - {t}, p) == BusyIn(pcs, p) - {t};
  }

  /** Changing an object without moving it to another pool. */
  lemma LiveSame(objs: map<Addr, Obj>, live: set<Addr>, a: Addr, o: Obj, p: Pool)
    requires a in objs ==> o.pool == objs[a].pool
    requires a in live ==> a in objs
    ensures LiveIn(objs[a := o], live, p) == LiveIn(objs, live, p)
  {
  }

  lemma LiveAdd(objs: map<Addr, Obj>, live: set<Addr>, a: Addr, p: Pool)
    requires a in objs && a !in live
    ensures |LiveIn(objs, live + {a}, p)| == |LiveIn(objs, live, p)| + if objs[a].pool == p then 1 else 0
  {
    assert LiveIn(objs, live + {a}, p) == LiveIn(objs, live, p) + if objs[a].pool == p then {a} else {};
  }

  lemma LiveDrop(objs: map<Addr, Obj>, live: set<Addr>, a: Addr, p: Pool)
    requires a in objs && a in live
    ensures |LiveIn(objs, live - {a}, p)| == |LiveIn(objs, live, p)| - if objs[a].pool == p then 1 else 0
  {
    assert LiveIn(objs, live - {a}, p) == LiveIn(objs, live, p) - {a};
  }

  ghost predicate CountsAt(s: State, p: Pool) {
    CountOf(s.count, p) == |LiveIn(s.objs, s.live, p)| + |BusyIn(s.pcs, p)|
  }

  lemma CountsThread(s: State, x: Action, p: Pool)
    requires CountsAt(s, p) && Enabled(s, x)
    requires x.Reserve? || x.Pop? || x.PopNone? || x.Enqueue? || x.Retry? || x.GiveUp? || x.Uncount?
    ensures CountsAt(Apply(s, x), p)
  {
    if x.Reserve? {
      BusyStart(s.pcs, x.t, Counted(x.p), p);
    } else if x.GiveUp? || x.Uncount? {
      BusyEnd(s.pcs, x.t, p);
    } else {
      BusyMove(s.pcs, x.t, Apply(s, x).pcs[x.t], p);
    }
  }

  lemma CountsObject(s: State, x: Action, p: Pool)
    requires CountsAt(s, p) && Enabled(s, x) && Owned(s) && Listed(s) && Backed(s)
    requires x.Create? || x.Mark? || x.Free? || x.Get? || x.Take?
    ensures CountsAt(Apply(s, x), p)
  {
    var s' := Apply(s, x);
    var a := if x.Create? || x.Get? then x.a else if x.Take? then s.checked[x.t] else s.pcs[x.t].a;
    LiveSame(s.objs, s.live, a, s'.objs[a], p);
    if !x.Get? && !x.Take? {
      BusyMove(s.pcs, x.t, s'.pcs[x.t], p);
    }
  }

  lemma CountsSetRef(s: State, t: Tid, ok: bool, p: Pool)
    requires CountsAt(s, p) && Enabled(s, SetRef(t, ok)) && Owned(s) && Listed(s)
    ensures CountsAt(Apply(s, SetRef(t, ok)), p)
  {
    var s', a := Apply(s, SetRef(t, ok)), s.pcs[t].a;
    LiveSame(s.objs, s.live, a, s'.objs[a], p);
    if ok {
      LiveAdd(s'.objs, s.live, a, p);
      BusyEnd(s.pcs, t, p);
    } else {
      BusyMove(s.pcs, t, s'.pcs[t], p);
    }
  }

  lemma CountsPut(s: State, t: Tid, a: Addr, p: Pool)
    requires CountsAt(s, p) && Enabled(s, Put(t, a)) && Listed(s) && Backed(s)
    ensures CountsAt(Apply(s, Put(t, a)), p)
  {
    var s' := Apply(s, Put(t, a));
    LiveSame(s.objs, s.live, a, s'.objs[a], p);
    if s.objs[a].refs == 1 {
      LiveDrop(s'.objs, s.live, a, p);
      BusyStart(s.pcs, t, s'.pcs[t], p);
    }
  }

  lemma CountsStep(s: State, x: Action)
    requires Owned(s) && Listed(s) && Backed(s) && Counts(s) && Enabled(s, x)
    ensures Counts(Apply(s, x))
  {
    forall p
      ensures CountsAt(Apply(s, x), p)
    {
      assert CountsAt(s, p);
      match x
      case SetRef(t, ok) => CountsSetRef(s, t, ok, p);
      case Put(t, a) => CountsPut(s, t, a, p);
      case Create(_, _) => CountsObject(s, x, p);
      case Mark(_) => CountsObject(s, x, p);
      case Free(_) => CountsObject(s, x, p);
      case Get(_) => CountsObject(s, x, p);
      case Take(_) => CountsObject(s, x, p);
      case Check(_, _, _, _) =>
      case _ => CountsThread(s, x, p);
    }
  }

  lemma InvStep(s: State, x: Action)
    requires Inv(s) && Enabled(s, x) && Careful(s, x)
    ensures Inv(Apply(s, x))
  {
    IndexedStep(s, x);
    OwnedStep(s, x);
    AloneStep(s, x);
    ListedStep(s, x);
    PlacedStep(s, x);
    CountsStep(s, x);
    BackedStep(s, x);
  }

  /** The first k steps take no reference but while another one is held. */
  ghost predicate CarefulTo(states: seq<State>, acts: seq<Action>, k: nat)
    requires Run(states, acts) && k < |states|
  {
    forall i :: 0 <= i < k ==> Careful(states[i], acts[i])
  }

  lemma {:induction false} InvRun(states: seq<State>, acts: seq<Action>, k: nat)
    requires Run(states, acts) && k < |states| && CarefulTo(states, acts, k)
    ensures Inv(states[k])
  {
    if k == 0 {
      assert forall p :: LiveIn(EMPTY.objs, EMPTY.live, p) == {} && BusyIn(EMPTY.pcs, p) == {};
    } else {
      InvRun(states, acts, k - 1);
      assert Stepped(states, acts, k - 1);
      InvStep(states[k - 1], acts[k - 1]);
    }
  }

  // ---------------------------------------------------------------------------
  // Results
  // ---------------------------------------------------------------------------

  /** Every object created is on the free list, live with a positive reference count, or
      in the hands of one thread, and in one of these places only; the references handed
      out are to live objects and the counts are their numbers. */
  lemma Partition(states: seq<State>, acts: seq<Action>, k: nat, a: Addr)
    requires Run(states, acts) && k < |states| && CarefulTo(states, acts, k) && a in states[k].objs
    ensures var s := states[k];
      && (a in s.freeList ==> s.objs[a].free && a !in s.live)
      && (a in s.live ==> !s.objs[a].free && s.objs[a].refs > 0)
      && (forall t :: InHand(s, t, a) ==> a !in s.freeList && a !in s.live)
      && (forall t, u :: InHand(s, t, a) && InHand(s, u, a) ==> t == u)
      && (a in s.freeList || a in s.live || exists t :: InHand(s, t, a))
      && (a in s.held <==> a in s.live) && (a in s.live ==> s.objs[a].refs == s.held[a])
  {
    InvRun(states, acts, k);
  }

  /** count is never below the number of live objects, and equal to it when no thread is
      in between. */
  lemma CountBounds(states: seq<State>, acts: seq<Action>, k: nat, p: Pool)
    requires Run(states, acts) && k < |states| && CarefulTo(states, acts, k)
    ensures CountOf(states[k].count, p) >= |LiveIn(states[k].objs, states[k].live, p)|
    ensures states[k].pcs == map[] ==> CountOf(states[k].count, p) == |LiveIn(states[k].objs, states[k].live, p)|
  {
    InvRun(states, acts, k);
    assert CountsAt(states[k], p);
    assert states[k].pcs == map[] ==> BusyIn(states[k].pcs, p) == {};
  }

  /** No two objects, of whatever pools, share an index. */
  lemma IndexUnique(states: seq<State>, acts: seq<Action>, k: nat, a: Addr, b: Addr)
    requires Run(states, acts) && k < |states| && a in states[k].objs && b in states[k].objs
    requires states[k].objs[a].index == states[k].objs[b].index
    ensures a == b
  {
    IndexedRun(states, acts, k);
  }

  lemma {:induction false} IndexedRun(states: seq<State>, acts: seq<Action>, k: nat)
    requires Run(states, acts) && k < |states|
    ensures Indexed(states[k])
  {
    if k == 0 {
    } else {
      IndexedRun(states, acts, k - 1);
      assert Stepped(states, acts, k - 1);
      IndexedStep(states[k - 1], acts[k - 1]);
    }
  }

  /** A live object's handle resolves to it; a free object's resolves to nothing; whatever
      resolves is the object with that index, and is live unless a thread is just
      allocating it or has just dropped its last reference. */
  lemma HandleResolves(states: seq<State>, acts: seq<Action>, k: nat, a: Addr, kind: Option<nat>)
    requires Run(states, acts) && k < |states| && CarefulTo(states, acts, k) && a in states[k].objs
    requires kind.Some? ==> kind.value == states[k].objs[a].pool
    ensures var s := states[k];
      var r := Resolve(s, kind, Handle(s.objs[a].pool, s.objs[a].index));
      && (a in s.live ==> r == Some(a))
      && (s.objs[a].free ==> r == None)
      && (r != None ==> r == Some(a) && (a in s.live || InWindow(s, a)))
  {
    InvRun(states, acts, k);
    var s := states[k];
    HandleRoundTrip(s.objs[a].pool, s.objs[a].index);
    if !s.objs[a].free && a !in s.live {
      var t :| InHand(s, t, a);
      assert OwnedBy(s, s.pcs[t]);
      assert InWindow(s, a);
    }
  }

  /** In every state of every run, for any kind asked for and any handle: the handle resolves
      to an object exactly if that object has its index and is not free and, where a kind is
      asked for, is of that kind and the handle's own type is that kind or zero.  So a handle
      of another type than the one asked for resolves to nothing. */
  lemma ResolvesExactly(states: seq<State>, acts: seq<Action>, k: nat, kind: Option<nat>, handle: nat, a: Addr)
    requires Run(states, acts) && k < |states|
    ensures var s := states[k];
      Resolve(s, kind, handle) == Some(a) <==>
        && a in s.objs && s.objs[a].index == HandleIndex(handle) && !s.objs[a].free
        && (kind.Some? ==> s.objs[a].pool == kind.value && (HandleKind(handle) == 0 || HandleKind(handle) == kind.value))
    ensures kind.Some? && HandleKind(handle) != 0 && HandleKind(handle) != kind.value ==>
              Resolve(states[k], kind, handle) == None
  {
    IndexedRun(states, acts, k);
  }

  // ---------------------------------------------------------------------------
  // The reference to_obj takes
  // ---------------------------------------------------------------------------

  /** Taking the reference keeps references backed by live objects, and everything else,
      exactly when the object is still live. */
  lemma TakeExact(s: State, t: Tid)
    requires Inv(s) && Enabled(s, Take(t))
    ensures Inv(Apply(s, Take(t))) <==> s.checked[t] in s.live
    ensures Backed(Apply(s, Take(t))) <==> s.checked[t] in s.live
  {
    var a := s.checked[t];
    if a in s.live {
      InvStep(s, Take(t));
    } else {
      assert a in Apply(s, Take(t)).held;
    }
  }

  /** Over runs, up to any state: references are backed by live objects throughout exactly
      when every thread in to_obj has taken its reference while another one was held. */
  lemma BackedExactlyIfCareful(states: seq<State>, acts: seq<Action>, n: nat)
    requires Run(states, acts) && n < |states|
    ensures (forall k :: 0 <= k <= n ==> Backed(states[k])) <==> CarefulTo(states, acts, n)
  {
    if CarefulTo(states, acts, n) {
      forall k | 0 <= k <= n ensures Backed(states[k]) {
        InvRun(states, acts, k);
      }
    }
    if forall k :: 0 <= k <= n ==> Backed(states[k]) {
      forall i | 0 <= i < n ensures Careful(states[i], acts[i]) {
        assert Stepped(states, acts, i);
        assert Backed(states[i]) && Backed(states[i + 1]);
        if acts[i].Take? {
          assert states[i].checked[acts[i].t] in states[i + 1].held;
        }
      }
    }
  }

  /** The caller's side of it: while some reference to the object is held from the check to
      the take, the object is live at the take and still the one the handle stood for, not
      one handed out anew in between. */
  lemma {:induction false} HeldThroughout(states: seq<State>, acts: seq<Action>, i: nat, j: nat, a: Addr)
    requires Run(states, acts) && i <= j < |states| && CarefulTo(states, acts, j)
    requires forall k :: i <= k <= j ==> a in states[k].held
    ensures a in states[j].live && a in states[i].objs && a in states[j].objs
    ensures states[j].objs[a].born == states[i].objs[a].born
  {
    LiveIfHeld(states, acts, j, a);
    if i == j {
    } else {
      HeldThroughout(states, acts, i, j - 1, a);
      BirthStep(states, acts, j - 1, a);
    }
  }

  lemma BirthStep(states: seq<State>, acts: seq<Action>, k: nat, a: Addr)
    requires Run(states, acts) && k < |acts| && CarefulTo(states, acts, k) && a in states[k].held
    ensures a in states[k].objs && a in states[k + 1].objs && states[k + 1].objs[a].born == states[k].objs[a].born
  {
    LiveIfHeld(states, acts, k, a);
    assert Stepped(states, acts, k);
    SameBirth(states[k], acts[k], a);
  }

  lemma LiveIfHeld(states: seq<State>, acts: seq<Action>, k: nat, a: Addr)
    requires Run(states, acts) && k < |states| && CarefulTo(states, acts, k) && a in states[k].held
    ensures a in states[k].live && a in states[k].objs && Owned(states[k])
  {
    InvRun(states, acts, k);
  }

  lemma SameBirth(s: State, x: Action, a: Addr)
    requires Owned(s) && Enabled(s, x) && a in s.live && a in s.objs
    ensures a in Apply(s, x).objs && Apply(s, x).objs[a].born == s.objs[a].born
  {
    if Changes(x) {
      BirthChanges(s, x, a);
    } else if References(x) {
      BirthReferences(s, x, a);
    }
  }

  lemma BirthChanges(s: State, x: Action, a: Addr)
    requires Owned(s) && Enabled(s, x) && Changes(x) && a in s.live && a in s.objs
    ensures a in Apply(s, x).objs && Apply(s, x).objs[a].born == s.objs[a].born
  {
  }

  lemma BirthReferences(s: State, x: Action, a: Addr)
    requires Owned(s) && Enabled(s, x) && References(x) && a in s.live && a in s.objs
    ensures a in Apply(s, x).objs && Apply(s, x).objs[a].born == s.objs[a].born
  {
  }

  /** The race, for every live object with one reference, in every such state: thread t
      passes the checks of to_obj, thread u puts the reference and releases the object, and
      t counts its reference on an object that is on the free list. */
  lemma ToObjRace(s: State, t: Tid, u: Tid, a: Addr) returns (s1: State, s2: State, s3: State, s4: State, s5: State)
    requires Indexed(s) && Listed(s) && Backed(s) && a in s.live && s.objs[a].refs == 1 && t !in s.checked && u !in s.pcs
    ensures var check := Check(t, a, None, Handle(s.objs[a].pool, s.objs[a].index));
      && Enabled(s, check) && Resolved(s, check) && s1 == Apply(s, check)
      && Enabled(s1, Put(u, a)) && s2 == Apply(s1, Put(u, a))
      && Enabled(s2, Free(u)) && s3 == Apply(s2, Free(u))
      && Enabled(s3, Enqueue(u)) && s4 == Apply(s3, Enqueue(u))
      && Enabled(s4, Take(t)) && s5 == Apply(s4, Take(t))
    ensures a in s5.objs && a in s5.freeList && s5.objs[a].free && s5.objs[a].refs == 1 && a in s5.held && !Backed(s5)
  {
    Checks(s, t, a);
    s1 := s.(checked := s.checked[t := a]);
    s2, s3, s4 := Released(s1, u, a);
    s5 := Referenced(s4, a).(checked := s4.checked - {t});
    assert a in s5.held && a !in s5.live;
  }

  /** A live object passes the checks of to_obj by its own handle. */
  lemma Checks(s: State, t: Tid, a: Addr)
    requires Indexed(s) && Listed(s) && Backed(s) && a in s.live && t !in s.checked
    ensures var check := Check(t, a, None, Handle(s.objs[a].pool, s.objs[a].index));
      Enabled(s, check) && Resolved(s, check)
    ensures s.objs[a].refs == s.held[a] && a in s.held
  {
    HandleRoundTrip(s.objs[a].pool, s.objs[a].index);
  }

  lemma Released(s: State, u: Tid, a: Addr) returns (s2: State, s3: State, s4: State)
    requires a in s.objs && s.objs[a].refs == 1 && a in s.held && s.held[a] == 1 && u !in s.pcs
    ensures Enabled(s, Put(u, a)) && s2 == Apply(s, Put(u, a))
    ensures Enabled(s2, Free(u)) && s3 == Apply(s2, Free(u))
    ensures Enabled(s3, Enqueue(u)) && s4 == Apply(s3, Enqueue(u))
    ensures a in s4.objs && a in s4.freeList && s4.objs[a].free && s4.objs[a].refs == 0 && a !in s4.live
    ensures s4.checked == s.checked
  {
    var o := s.objs[a];
    s2 := LastPut(s, u, a);
    s3 := s2.(objs := s2.objs[a := o.(refs := 0, free := true)], pcs := s2.pcs[u := Freed(o.pool, a)]);
    s4 := s3.(freeList := s3.freeList + {a}, pcs := s3.pcs[u := Queued(o.pool)]);
  }

  /** One step more. */
  lemma Extend(states: seq<State>, acts: seq<Action>, x: Action) returns (states': seq<State>, acts': seq<Action>)
    requires Run(states, acts) && Enabled(states[|acts|], x) && Resolved(states[|acts|], x)
    ensures Run(states', acts') && |acts'| == |acts| + 1 && acts' == acts + [x]
    ensures states'[|acts'|] == Apply(states[|acts|], x)
  {
    states', acts' := states + [Apply(states[|acts|], x)], acts + [x];
    forall i | 0 <= i < |acts'| ensures Stepped(states', acts', i) {
      assert i < |acts| ==> Stepped(states, acts, i);
    }
  }

  /** Such states are reached: the first allocation of a pool ends in one. */
  lemma Allocates(p: Pool, a: Addr) returns (states: seq<State>, acts: seq<Action>)
    ensures Run(states, acts) && CarefulTo(states, acts, |acts|)
    ensures var s := states[|acts|];
      a in s.live && a in s.objs && s.objs[a].refs == 1 && s.checked == map[] && s.pcs == map[]
  {
    states, acts := Filled1(p, a);
    states, acts := Extend(states, acts, Retry(0));
    states, acts := Extend(states, acts, Pop(0, a));
    states, acts := Extend(states, acts, Mark(0));
    states, acts := Extend(states, acts, SetRef(0, true));
    assert states[|acts|].pcs == map[];
  }

  lemma Filled1(p: Pool, a: Addr) returns (states: seq<State>, acts: seq<Action>)
    ensures Run(states, acts) && forall i :: 0 <= i < |acts| ==> !acts[i].Take?
    ensures var s := states[|acts|];
      && s.pcs == map[0 := Filling(p)] && s.freeList == {a} && a in s.objs && s.objs[a] == Obj(p, 0, true, 0, 0)
      && s.checked == map[]
  {
    states, acts := [EMPTY], [];
    states, acts := Extend(states, acts, Reserve(0, p));
    states, acts := Extend(states, acts, PopNone(0));
    states, acts := Extend(states, acts, Create(0, a));
    states, acts := Extend(states, acts, Enqueue(0));
  }
}
