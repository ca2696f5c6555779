/** The lock-free free list: a linked stack whose head is a pointer and a counter that
    are compared and swapped together (the 16-byte compare-and-swap variant).

    Any number of threads in any number of processes run ll_enqueue_obj_alien and
    ll_dequeue_obj_alien.  The list lives in the address space of one process, mapped
    at alien; the process of thread t maps the same memory at base[t].  Pointers stored
    in the list are addresses of the owning process.  The first read of the head is not
    atomic: pointer and counter are read one after the other, in either order.  The
    counter is a natural number (no 64-bit wrap). */
module CountedStack {

  type Tid = nat
  /** An object, by its offset in the shared memory. */
  type Obj = int
  type Addr = int

  const NULL: Addr := 0

  datatype Call = Push(obj: Obj) | Pop

  datatype Result = Done | Empty | Got(obj: Obj)

  /** A history: calls, the compare-and-swap that takes effect, returns. */
  datatype Event = Called(t: Tid, call: Call) | Took(t: Tid, call: Call, res: Result) | Returned(t: Tid, res: Result)

  /** union counted_ptr */
  datatype Counted = Counted(head: Addr, counter: nat)

  /** What a non-atomic read of the head has seen so far. */
  datatype Half = HeadSeen(h: Addr) | CounterSeen(n: nat)

  datatype Pc =
    | Idle
    | First(call: Call)                       // about to read one half of the list head
    | Second(call: Call, half: Half)          // about to read the other half
    | Prepare(call: Call, oldv: Counted)      // about to read or write a next pointer
    | Swap(call: Call, oldv: Counted, newHead: Addr) // about to compare and swap
    | Return(call: Call, res: Result)

  datatype State = State(
    alien: Addr,                 // where the owning process maps the memory
    base: map<Tid, Addr>,        // where each thread's process maps it
    list: Counted,               // free_list
    next: map<Obj, Addr>,        // first word of every object
    owner: map<Obj, Tid>,        // objects handed out, and to whom
    pcs: map<Tid, Pc>,
    log: seq<Event>)
  {
    function Pc(t: Tid): Pc { if t in pcs then pcs[t] else Idle }

    function Base(t: Tid): Addr { if t in base then base[t] else alien }

    /** Memory access by thread t at an address of its own process. */
    predicate Mapped(t: Tid, a: Addr) { a - Base(t) in next }

    function Load(t: Tid, a: Addr): Addr requires Mapped(t, a) { next[a - Base(t)] }
  }

  /** Everything handed out, the list empty (ll_init), every object at a real address in
      the owning process. */
  ghost predicate Init(s: State) {
    && s.list == Counted(NULL, 0) && s.pcs == map[] && s.log == []
    && s.owner.Keys == s.next.Keys
    && forall o :: o in s.next ==> s.alien + o != NULL
  }

  datatype Action =
    | StartPush(t: Tid, obj: Obj)
    | StartPop(t: Tid)
    | ReadFirst(t: Tid, headFirst: bool)
    | ReadSecond(t: Tid)
    | WriteNext(t: Tid)
    | ReadNext(t: Tid)
    | Cas(t: Tid)
    | Finish(t: Tid)
    | Scribble(t: Tid, obj: Obj, v: Addr)     // the owner uses the object's first word
    | Give(t: Tid, obj: Obj, u: Tid)

  /** The address arithmetic of the two functions. */
  function ToLocal(s: State, t: Tid, alienAddr: Addr): Addr { alienAddr + (s.Base(t) - s.alien) }

  function ToAlien(s: State, t: Tid, localAddr: Addr): Addr { localAddr + (s.alien - s.Base(t)) }

  predicate Enabled(s: State, a: Action) {
    var p := s.Pc(a.t);
    match a
    case StartPush(t, obj) => p.Idle? && obj in s.owner && s.owner[obj] == t
    case StartPop(_) => p.Idle?
    case ReadFirst(_, _) => p.First?
    case ReadSecond(_) => p.Second?
    case WriteNext(_) => p.Prepare? && p.call.Push?
    case ReadNext(t) =>
      p.Prepare? && p.call.Pop? && (p.oldv.head == NULL || s.Mapped(t, ToLocal(s, t, p.oldv.head)))
    case Cas(_) => p.Swap?
    case Finish(_) => p.Return?
    case Scribble(t, obj, _) => p.Idle? && obj in s.owner && s.owner[obj] == t
    case Give(t, obj, u) => p.Idle? && obj in s.owner && s.owner[obj] == t
  }

  function Goto(s: State, t: Tid, p: Pc): State { s.(pcs := s.pcs[t := p]) }

  function DoCas(s: State, t: Tid): State
    requires s.Pc(t).Swap?
  {
    var p := s.Pc(t);
    if s.list != p.oldv then Goto(s, t, Prepare(p.call, s.list))
    else
      var s1 := s.(list := Counted(p.newHead, s.list.counter + 1));
      match p.call
      case Push(obj) =>
        Goto(s1, t, Return(p.call, Done)).(owner := s.owner - {obj}, log := s.log + [Took(t, p.call, Done)])
      case Pop =>
        if p.oldv.head == NULL then Goto(s1, t, Return(Pop, Empty)).(log := s.log + [Took(t, Pop, Empty)])
        else
          var o := ToLocal(s, t, p.oldv.head) - s.Base(t);
          Goto(s1, t, Return(Pop, Got(o))).(owner := s.owner[o := t], log := s.log + [Took(t, Pop, Got(o))])
  }

  function Apply(s: State, a: Action): State
    requires Enabled(s, a)
  {
    var t := a.t;
    var p := s.Pc(t);
    match a
    case StartPush(_, obj) => Goto(s, t, First(Push(obj))).(log := s.log + [Called(t, Push(obj))])
    case StartPop(_) => Goto(s, t, First(Pop)).(log := s.log + [Called(t, Pop)])
    case ReadFirst(_, headFirst) =>
      Goto(s, t, Second(p.call, if headFirst then HeadSeen(s.list.head) else CounterSeen(s.list.counter)))
    case ReadSecond(_) =>
      Goto(s, t, Prepare(p.call, if p.half.HeadSeen? then Counted(p.half.h, s.list.counter)
                                 else Counted(s.list.head, p.half.n)))
    case WriteNext(_) =>
      var local := s.Base(t) + p.call.obj;
      Goto(s, t, Swap(p.call, p.oldv, ToAlien(s, t, local))).(next := s.next[p.call.obj := p.oldv.head])
    case ReadNext(_) =>
      Goto(s, t, Swap(p.call, p.oldv, if p.oldv.head == NULL then NULL else s.Load(t, ToLocal(s, t, p.oldv.head))))
    case Cas(_) => DoCas(s, t)
    case Finish(_) => Goto(s, t, Idle).(log := s.log + [Returned(t, p.res)])
    case Scribble(_, obj, v) => s.(next := s.next[obj := v])
    case Give(_, obj, u) => s.(owner := s.owner[obj := u])
  }

  ghost predicate Run(states: seq<State>, acts: seq<Action>) {
    && |states| == |acts| + 1 && Init(states[0])
    && forall i :: 0 <= i < |acts| ==> Enabled(states[i], acts[i]) && states[i + 1] == Apply(states[i], acts[i])
  }

  // ---------------------------------------------------------------------------
  // The sequential specification and the shape of a linearizable history
  // ---------------------------------------------------------------------------

  datatype Option<T> = None | Some(value: T)

  /** A sequential stack: the top comes first. */
  function StackStep(st: seq<Obj>, call: Call, res: Result): Option<seq<Obj>> {
    match call
    case Push(o) => if res == Done && o !in st then Some([o] + st) else None
    case Pop =>
      if st == [] then (if res == Empty then Some(st) else None)
      else if res == Got(st[0]) then Some(st[1..]) else None
  }

  /** Playing the effects in the order they happened, if a sequential stack allows it. */
  function Replay(log: seq<Event>): Option<seq<Obj>> {
    if log == [] then Some([])
    else
      var before := Replay(log[..|log| - 1]);
      match log[|log| - 1]
      case Took(_, call, res) => if before.Some? then StackStep(before.value, call, res) else None
      case _ => before
  }

  datatype Phase = Outside | Open(call: Call) | Effective(call: Call, res: Result)

  /** Thread t calls, takes effect once, and returns what took effect. */
  function PhaseOf(log: seq<Event>, t: Tid): Option<Phase> {
    if log == [] then Some(Outside)
    else
      var before := PhaseOf(log[..|log| - 1], t);
      var e := log[|log| - 1];
      if e.t != t || before.None? then before
      else match e
        case Called(_, call) => if before.value.Outside? then Some(Open(call)) else None
        case Took(_, call, res) => if before.value == Open(call) then Some(Effective(call, res)) else None
        case Returned(_, res) => if before.value.Effective? && before.value.res == res then Some(Outside) else None
  }

  /** The effects form a legal sequential history, each inside its own call. */
  ghost predicate Linearizable(log: seq<Event>) {
    Replay(log).Some? && forall t :: PhaseOf(log, t).Some?
  }

  // ---------------------------------------------------------------------------
  // Invariant
  // ---------------------------------------------------------------------------

  function TopAddr(s: State, st: seq<Obj>): Addr {
    if st == [] then NULL else s.alien + st[0]
  }

  /** The links in memory spell the stack st. */
  ghost predicate Spells(s: State, st: seq<Obj>) {
    && s.list.head == TopAddr(s, st)
    && (forall o :: o in st ==> o in s.next)
    && (forall i, j :: 0 <= i < |st| && j == i + 1 && j < |st| ==> s.next[st[i]] == s.alien + st[j])
    && (st != [] ==> s.next[st[|st| - 1]] == NULL)
  }

  ghost predicate OwnInv(s: State, st: seq<Obj>) {
    && (forall i, j :: 0 <= i < j < |st| ==> st[i] != st[j])
    && (forall o :: o in s.next <==> o in st || o in s.owner)
    && (forall o :: o in st ==> o !in s.owner)
    && (forall o :: o in s.next ==> s.alien + o != NULL)
  }

  /** A pointer read from the head at any time is null or an object. */
  predicate Plausible(s: State, a: Addr) {
    a == NULL || a - s.alien in s.next
  }

  /** What an operation in progress knows. */
  ghost predicate ThreadInv(s: State, t: Tid) {
    match s.Pc(t)
    case Idle => true
    case First(call) => Holds(s, t, call)
    case Second(call, half) =>
      Holds(s, t, call) && (if half.HeadSeen? then Plausible(s, half.h) else half.n <= s.list.counter)
    case Prepare(call, oldv) => Holds(s, t, call) && Plausible(s, oldv.head) && oldv.counter <= s.list.counter
    case Swap(call, oldv, newHead) =>
      && Holds(s, t, call) && Plausible(s, oldv.head) && oldv.counter <= s.list.counter
      && (call.Push? ==> call.obj in s.next && newHead == s.alien + call.obj && s.next[call.obj] == oldv.head)
      && (call.Pop? && s.list == oldv ==>
            if oldv.head == NULL then newHead == NULL
            else oldv.head - s.alien in s.next && newHead == s.next[oldv.head - s.alien])
    case Return(call, res) => true
  }

  predicate Holds(s: State, t: Tid, call: Call) {
    call.Push? ==> call.obj in s.owner && s.owner[call.obj] == t
  }

  predicate PhaseMatches(p: Pc, ph: Option<Phase>) {
    match p
    case Idle => ph == Some(Outside)
    case Return(call, res) => ph == Some(Effective(call, res))
    case _ => ph == Some(Open(p.call))
  }

  ghost predicate Inv(s: State) {
    && Replay(s.log).Some? && Spells(s, Replay(s.log).value) && OwnInv(s, Replay(s.log).value)
    && (forall t :: ThreadInv(s, t))
    && (forall t :: PhaseMatches(s.Pc(t), PhaseOf(s.log, t)))
  }

  // ---------------------------------------------------------------------------
  // Preservation
  // ---------------------------------------------------------------------------

  lemma ReplayAppend(log: seq<Event>, e: Event)
    ensures Replay(log + [e]) ==
            if e.Took? then (if Replay(log).Some? then StackStep(Replay(log).value, e.call, e.res) else None)
            else Replay(log)
  {
    assert (log + [e])[..|log|] == log;
  }

  lemma PhaseAppend(log: seq<Event>, e: Event, t: Tid)
    ensures e.t != t ==> PhaseOf(log + [e], t) == PhaseOf(log, t)
    ensures e.t == t && PhaseOf(log, t).Some? ==>
              var ph := PhaseOf(log, t).value;
              PhaseOf(log + [e], t) ==
              match e
              case Called(_, call) => if ph.Outside? then Some(Open(call)) else None
              case Took(_, call, res) => if ph == Open(call) then Some(Effective(call, res)) else None
              case Returned(_, res) => if ph.Effective? && ph.res == res then Some(Outside) else None
  {
    assert (log + [e])[..|log|] == log;
  }

  ghost predicate OthersStay(s: State, s': State, t: Tid) {
    forall u :: u != t ==> s'.Pc(u) == s.Pc(u)
  }

  lemma PhaseKept(s: State, a: Action, u: Tid)
    requires Enabled(s, a) && PhaseMatches(s.Pc(u), PhaseOf(s.log, u))
    ensures PhaseMatches(Apply(s, a).Pc(u), PhaseOf(Apply(s, a).log, u))
  {
    var s' := Apply(s, a);
    var p := s.Pc(a.t);
    match a
    case StartPush(t, obj) => PhaseAppend(s.log, Called(t, Push(obj)), u);
    case StartPop(t) => PhaseAppend(s.log, Called(t, Pop), u);
    case Finish(t) => PhaseAppend(s.log, Returned(t, p.res), u);
    case Cas(t) =>
      if s.list == p.oldv {
        PhaseAppend(s.log, Took(t, p.call, s'.Pc(t).res), u);
      }
    case _ =>
  }

  ghost predicate StackInv(s: State, st: seq<Obj>) {
    Spells(s, st) && OwnInv(s, st)
  }

  lemma PushTakesTop(s: State, t: Tid, st: seq<Obj>, s': State, o: Obj)
    requires StackInv(s, st) && o in s.owner && s.next[o] == s.list.head
    requires s'.alien == s.alien && s'.next == s.next && s'.owner == s.owner - {o} && s'.list.head == s.alien + o
    ensures StackInv(s', [o] + st)
  {
    var st' := [o] + st;
    assert forall x :: x in st' <==> x == o || x in st;
    forall i, j | 0 <= i < |st'| && j == i + 1 && j < |st'| ensures s'.next[st'[i]] == s'.alien + st'[j] {
      if i > 0 {
        assert st'[i] == st[i - 1] && st'[j] == st[j - 1];
      }
    }
  }

  lemma PopTakesTop(s: State, t: Tid, st: seq<Obj>, s': State)
    requires StackInv(s, st) && st != []
    requires s'.alien == s.alien && s'.next == s.next && s'.owner == s.owner[st[0] := t]
    requires s'.list.head == s.next[st[0]]
    ensures StackInv(s', st[1..])
  {
    PopSpells(s, st, s');
    PopOwns(s, t, st, s');
  }

  lemma PopSpells(s: State, st: seq<Obj>, s': State)
    requires Spells(s, st) && st != []
    requires s'.alien == s.alien && s'.next == s.next && s'.list.head == s.next[st[0]]
    ensures Spells(s', st[1..])
  {
    var st' := st[1..];
    assert forall x :: x in st' ==> x in st;
    forall i, j | 0 <= i < |st'| && j == i + 1 && j < |st'| ensures s'.next[st'[i]] == s'.alien + st'[j] {
      assert st'[i] == st[i + 1] && st'[j] == st[j + 1];
    }
    if |st| > 1 {
      assert s.next[st[0]] == s.alien + st[1];
    }
  }

  lemma PopOwns(s: State, t: Tid, st: seq<Obj>, s': State)
    requires OwnInv(s, st) && st != []
    requires s'.alien == s.alien && s'.next == s.next && s'.owner == s.owner[st[0] := t]
    ensures OwnInv(s', st[1..])
  {
    assert forall x :: x in st <==> x == st[0] || x in st[1..];
  }

  /** The stack after a step. */
  function After(s: State, a: Action, st: seq<Obj>): seq<Obj> {
    if a.Cas? && s.Pc(a.t).Swap? && s.list == s.Pc(a.t).oldv then
      match s.Pc(a.t).call
      case Push(o) => [o] + st
      case Pop => if st == [] then [] else st[1..]
    else st
  }

  /** A successful compare-and-swap acts on the true top of the stack. */
  lemma CasTakesTop(s: State, t: Tid, st: seq<Obj>)
    requires StackInv(s, st) && ThreadInv(s, t) && s.Pc(t).Swap? && s.list == s.Pc(t).oldv
    ensures var s', p := Apply(s, Cas(t)), s.Pc(t);
            && s'.Pc(t).Return? && s'.log == s.log + [Took(t, p.call, s'.Pc(t).res)]
            && StackStep(st, p.call, s'.Pc(t).res) == Some(After(s, Cas(t), st))
    ensures StackInv(Apply(s, Cas(t)), After(s, Cas(t), st))
  {
    match s.Pc(t).call
    case Push(o) => CasPushes(s, t, st, o);
    case Pop =>
      if st == [] {
        CasPopsNone(s, t);
      } else {
        CasPopsTop(s, t, st);
      }
  }

  lemma CasPushes(s: State, t: Tid, st: seq<Obj>, o: Obj)
    requires StackInv(s, st) && ThreadInv(s, t) && s.Pc(t).Swap? && s.list == s.Pc(t).oldv && s.Pc(t).call == Push(o)
    ensures var s' := Apply(s, Cas(t));
            s'.Pc(t) == Return(Push(o), Done) && s'.log == s.log + [Took(t, Push(o), Done)] && o !in st
    ensures StackInv(Apply(s, Cas(t)), [o] + st)
  {
    PushTakesTop(s, t, st, Apply(s, Cas(t)), o);
  }

  lemma CasPopsNone(s: State, t: Tid)
    requires StackInv(s, []) && ThreadInv(s, t) && s.Pc(t).Swap? && s.list == s.Pc(t).oldv && s.Pc(t).call.Pop?
    ensures var s' := Apply(s, Cas(t));
            s'.Pc(t) == Return(Pop, Empty) && s'.log == s.log + [Took(t, Pop, Empty)]
    ensures StackInv(Apply(s, Cas(t)), [])
  {
  }

  lemma CasPopsTop(s: State, t: Tid, st: seq<Obj>)
    requires StackInv(s, st) && st != []
    requires ThreadInv(s, t) && s.Pc(t).Swap? && s.list == s.Pc(t).oldv && s.Pc(t).call.Pop?
    ensures var s' := Apply(s, Cas(t));
            s'.Pc(t) == Return(Pop, Got(st[0])) && s'.log == s.log + [Took(t, Pop, Got(st[0]))]
    ensures StackInv(Apply(s, Cas(t)), st[1..])
  {
    HeadIsTop(s, st);
    PopEffect(s, t);
    PopTakesTop(s, t, st, Apply(s, Cas(t)));
  }

  lemma HeadIsTop(s: State, st: seq<Obj>)
    requires StackInv(s, st) && st != []
    ensures s.list.head == s.alien + st[0] != NULL && st[0] in s.next
  {
    assert st[0] in st;
  }

  /** What a successful compare-and-swap of a pop from a stack that is not empty changes. */
  lemma PopEffect(s: State, t: Tid)
    requires ThreadInv(s, t) && s.Pc(t).Swap? && s.list == s.Pc(t).oldv && s.Pc(t).call.Pop? && s.list.head != NULL
    ensures var s', o := Apply(s, Cas(t)), s.list.head - s.alien;
            && s'.alien == s.alien && s'.next == s.next && o in s.next && s'.list.head == s.next[o]
            && s'.owner == s.owner[o := t]
            && s'.Pc(t) == Return(Pop, Got(o)) && s'.log == s.log + [Took(t, Pop, Got(o))]
  {
  }

  lemma StackFrame(s: State, s': State, st: seq<Obj>)
    requires StackInv(s, st) && s'.alien == s.alien && s'.list == s.list
    requires s'.owner.Keys == s.owner.Keys && s'.next.Keys == s.next.Keys
    requires forall o :: o in s.next && o !in s.owner ==> s'.next[o] == s.next[o]
    ensures StackInv(s', st)
  {
  }

  lemma StackKept(s: State, a: Action, st: seq<Obj>)
    requires StackInv(s, st) && ThreadInv(s, a.t) && Enabled(s, a)
    ensures StackInv(Apply(s, a), After(s, a, st))
  {
    if a.Cas? && s.list == s.Pc(a.t).oldv {
      CasTakesTop(s, a.t, st);
    } else {
      var s' := Apply(s, a);
      assert s'.owner.Keys == s.owner.Keys;
      KeysStay(s, a, st);
      StackFrame(s, s', st);
    }
  }

  lemma ReplayKept(s: State, a: Action, st: seq<Obj>)
    requires StackInv(s, st) && ThreadInv(s, a.t) && Enabled(s, a) && Replay(s.log) == Some(st)
    ensures Replay(Apply(s, a).log) == Some(After(s, a, st))
  {
    var p := s.Pc(a.t);
    match a
    case StartPush(t, obj) => ReplayAppend(s.log, Called(t, Push(obj)));
    case StartPop(t) => ReplayAppend(s.log, Called(t, Pop));
    case Finish(t) => ReplayAppend(s.log, Returned(t, p.res));
    case Cas(t) =>
      if s.list == p.oldv {
        CasTakesTop(s, t, st);
        ReplayAppend(s.log, Took(t, p.call, Apply(s, a).Pc(t).res));
      }
    case _ =>
  }

  /** Nobody touches an object another thread owns. */
  lemma OwnedFrame(s: State, a: Action, st: seq<Obj>, o: Obj)
    requires StackInv(s, st) && ThreadInv(s, a.t) && Enabled(s, a) && o in s.owner && s.owner[o] != a.t
    ensures var s' := Apply(s, a);
            o in s'.owner && s'.owner[o] == s.owner[o] && o in s'.next && s'.next[o] == s.next[o]
  {
    if a.Cas? && st != [] {
      assert st[0] !in s.owner;
    }
  }

  /** While the head stays, so does the link of the object it points to. */
  lemma TopFrame(s: State, a: Action, st: seq<Obj>)
    requires StackInv(s, st) && ThreadInv(s, a.t) && Enabled(s, a) && Apply(s, a).list == s.list && s.list.head != NULL
    ensures var o := s.list.head - s.alien;
            o in s.next && o in Apply(s, a).next && Apply(s, a).next[o] == s.next[o]
  {
    assert st != [] && st[0] == s.list.head - s.alien && st[0] in s.next && st[0] !in s.owner;
  }

  lemma KeysStay(s: State, a: Action, st: seq<Obj>)
    requires StackInv(s, st) && ThreadInv(s, a.t) && Enabled(s, a)
    ensures Apply(s, a).next.Keys == s.next.Keys && Apply(s, a).alien == s.alien
    ensures Apply(s, a).list == s.list || Apply(s, a).list.counter == s.list.counter + 1
  {
  }

  lemma ThreadKept(s: State, a: Action, st: seq<Obj>, u: Tid)
    requires StackInv(s, st) && ThreadInv(s, a.t) && ThreadInv(s, u) && Enabled(s, a)
    ensures ThreadInv(Apply(s, a), u)
  {
    KeysStay(s, a, st);
    if u == a.t {
      OwnThreadKept(s, a, st);
    } else {
      var p := s.Pc(u);
      if (p.First? || p.Second? || p.Prepare? || p.Swap?) && p.call.Push? {
        OwnedFrame(s, a, st, p.call.obj);
      }
      if Apply(s, a).list == s.list && s.list.head != NULL {
        TopFrame(s, a, st);
      }
      OtherThreadKept(s, Apply(s, a), u);
    }
  }

  /** What a thread knows stays true while its own object and the top's link stay. */
  lemma OtherThreadKept(s: State, s': State, u: Tid)
    requires ThreadInv(s, u) && s'.Pc(u) == s.Pc(u) && s'.alien == s.alien && s'.next.Keys == s.next.Keys
    requires s'.list == s.list || s'.list.counter == s.list.counter + 1
    requires var p := s.Pc(u);
             (p.First? || p.Second? || p.Prepare? || p.Swap?) && p.call.Push? ==>
               var o := p.call.obj;
               o in s'.owner && s'.owner[o] == u && o in s.next && s'.next[o] == s.next[o]
    requires s'.list == s.list && s.list.head != NULL ==>
               var o := s.list.head - s.alien;
               o in s.next && s'.next[o] == s.next[o]
    ensures ThreadInv(s', u)
  {
  }

  lemma OwnThreadKept(s: State, a: Action, st: seq<Obj>)
    requires StackInv(s, st) && ThreadInv(s, a.t) && Enabled(s, a)
    ensures ThreadInv(Apply(s, a), a.t)
  {
    KeysStay(s, a, st);
    assert Plausible(s, s.list.head) by {
      if st != [] {
        assert st[0] in s.next;
      }
    }
  }

  lemma InvStep(s: State, a: Action)
    requires Inv(s) && Enabled(s, a)
    ensures Inv(Apply(s, a))
  {
    var st := Replay(s.log).value;
    assert ThreadInv(s, a.t);
    StackKept(s, a, st);
    ReplayKept(s, a, st);
    forall u ensures ThreadInv(Apply(s, a), u) {
      assert ThreadInv(s, u);
      ThreadKept(s, a, st, u);
    }
    forall u ensures PhaseMatches(Apply(s, a).Pc(u), PhaseOf(Apply(s, a).log, u)) {
      assert PhaseMatches(s.Pc(u), PhaseOf(s.log, u));
      PhaseKept(s, a, u);
    }
  }

  lemma {:induction false} InvRun(states: seq<State>, acts: seq<Action>, k: nat)
    requires Run(states, acts) && k < |states|
    ensures Inv(states[k])
  {
    if k == 0 {
      assert Replay(states[0].log) == Some([]);
      assert forall t :: PhaseOf(states[0].log, t) == Some(Outside);
    } else {
      InvRun(states, acts, k - 1);
      InvStep(states[k - 1], acts[k - 1]);
    }
  }

  /** Every run of pushes and pops is linearizable, and in every state the links in
      memory spell the stack that the effects so far produce. */
  lemma LinearizableRuns(states: seq<State>, acts: seq<Action>, k: nat)
    requires Run(states, acts) && k < |states|
    ensures Linearizable(states[k].log)
    ensures Spells(states[k], Replay(states[k].log).value)
  {
    InvRun(states, acts, k);
    var s := states[k];
    forall t ensures PhaseOf(s.log, t).Some? {
      assert PhaseMatches(s.Pc(t), PhaseOf(s.log, t));
    }
  }

  /** In every reachable state each object is on the list once and owned by nobody, or
      off the list and owned by one thread; and no read of a next pointer faults. */
  lemma SafeObjects(states: seq<State>, acts: seq<Action>, k: nat) returns (st: seq<Obj>)
    requires Run(states, acts) && k < |states|
    ensures Replay(states[k].log) == Some(st) && Spells(states[k], st)
    ensures forall i, j :: 0 <= i < j < |st| ==> st[i] != st[j]
    ensures forall o :: o in states[k].next ==> (o in st <==> o !in states[k].owner)
    ensures forall t :: states[k].Pc(t).Prepare? && states[k].Pc(t).call.Pop? ==> Enabled(states[k], ReadNext(t))
  {
    InvRun(states, acts, k);
    var s := states[k];
    st := Replay(s.log).value;
    forall t | s.Pc(t).Prepare? && s.Pc(t).call.Pop? ensures Enabled(s, ReadNext(t)) {
      assert ThreadInv(s, t);
    }
  }
}
