/** The ticket spin lock used where the platform has no spin lock of its own: lock, unlock
    and trylock by any number of threads, step by step.  Tickets do not wrap here. */
module TicketLock {

  type Tid = nat

  /** A thread spinning with its ticket, between the two accesses of a trylock, or inside. */
  datatype Pc = Spinning(v: nat) | Trying(v: nat) | Inside(v: nat)

  /** lost holds the tickets of failed trylocks, entries the tickets in order of entry. */
  datatype State = State(enter: nat, exit: nat, pcs: map<Tid, Pc>, lost: set<nat>, entries: seq<nat>)

  const FREE := State(0, 0, map[], {}, [])

  datatype Action = Lock(t: Tid) | TryLock(t: Tid) | Compare(t: Tid) | Unlock(t: Tid)

  predicate Enabled(s: State, x: Action) {
    match x
    case Lock(t) => t !in s.pcs
    case TryLock(t) => t !in s.pcs
    case Compare(t) => t in s.pcs && !s.pcs[t].Inside?
    case Unlock(t) => t in s.pcs && s.pcs[t].Inside?
  }

  function OnCompare(s: State, t: Tid, pc: Pc): State {
    if pc.v == s.exit then s.(pcs := s.pcs[t := Inside(pc.v)], entries := s.entries + [pc.v])
    else if pc.Spinning? then s
    else s.(pcs := s.pcs - {t}, lost := s.lost + {pc.v})
  }

  function Apply(s: State, x: Action): State
    requires Enabled(s, x)
  {
    match x
    case Lock(t) => s.(enter := s.enter + 1, pcs := s.pcs[t := Spinning(s.enter)])
    case TryLock(t) => s.(enter := s.enter + 1, pcs := s.pcs[t := Trying(s.enter)])
    case Compare(t) => OnCompare(s, t, s.pcs[t])
    case Unlock(t) => s.(exit := s.exit + 1, pcs := s.pcs - {t})
  }

  predicate Stepped(states: seq<State>, acts: seq<Action>, i: nat)
    requires |states| == |acts| + 1 && i < |acts|
  {
    Enabled(states[i], acts[i]) && states[i + 1] == Apply(states[i], acts[i])
  }

  /** Steps from any state on. */
  predicate Path(states: seq<State>, acts: seq<Action>) {
    |states| == |acts| + 1 && forall i :: 0 <= i < |acts| ==> Stepped(states, acts, i)
  }

  predicate Run(states: seq<State>, acts: seq<Action>) {
    Path(states, acts) && states[0] == FREE
  }

  // ---------------------------------------------------------------------------
  // The invariant
  // ---------------------------------------------------------------------------

  predicate Holds(s: State, t: Tid, v: nat) { t in s.pcs && s.pcs[t].v == v }

  /** Tickets in use lie between exit and enter, no two threads have the same, and only
      ticket exit is inside. */
  ghost predicate Tickets(s: State) {
    && s.exit <= s.enter
    && (forall t :: t in s.pcs ==> s.exit <= s.pcs[t].v < s.enter && s.pcs[t].v !in s.lost)
    && (forall t, u :: t in s.pcs && u in s.pcs && s.pcs[t].v == s.pcs[u].v ==> t == u)
    && (forall t :: t in s.pcs && s.pcs[t].Inside? ==> s.pcs[t].v == s.exit)
    && (forall v :: v in s.lost ==> s.exit <= v < s.enter)
  }

  /** Every ticket not yet served is in use or lost. */
  ghost predicate Served(s: State) {
    forall v :: s.exit <= v < s.enter && v !in s.lost ==> exists t :: Holds(s, t, v)
  }

  ghost predicate AnyInside(s: State) { exists t :: t in s.pcs && s.pcs[t].Inside? }

  ghost predicate Entered(s: State) {
    && |s.entries| == s.exit + (if AnyInside(s) then 1 else 0)
    && forall i :: 0 <= i < |s.entries| ==> s.entries[i] == i
  }

  ghost predicate Inv(s: State) { Tickets(s) && Served(s) && Entered(s) }

  lemma TicketsTaken(s: State, t: Tid, pc: Pc)
    requires Tickets(s) && t !in s.pcs && !pc.Inside? && pc.v == s.enter
    ensures Tickets(s.(enter := s.enter + 1, pcs := s.pcs[t := pc]))
  {
  }

  lemma TicketsCompared(s: State, t: Tid)
    requires Tickets(s) && t in s.pcs && !s.pcs[t].Inside?
    ensures Tickets(OnCompare(s, t, s.pcs[t]))
  {
  }

  lemma TicketsUnlocked(s: State, t: Tid)
    requires Tickets(s) && t in s.pcs && s.pcs[t].Inside?
    ensures Tickets(s.(exit := s.exit + 1, pcs := s.pcs - {t}))
  {
  }

  lemma TicketsStep(s: State, x: Action)
    requires Tickets(s) && Enabled(s, x)
    ensures Tickets(Apply(s, x))
  {
    match x
    case Lock(t) => TicketsTaken(s, t, Spinning(s.enter));
    case TryLock(t) => TicketsTaken(s, t, Trying(s.enter));
    case Compare(t) => TicketsCompared(s, t);
    case Unlock(t) => TicketsUnlocked(s, t);
  }

  lemma ServedStep(s: State, x: Action)
    requires Tickets(s) && Served(s) && Enabled(s, x)
    ensures Served(Apply(s, x))
  {
    var s' := Apply(s, x);
    forall v | s'.exit <= v < s'.enter && v !in s'.lost
      ensures exists t :: Holds(s', t, v)
    {
      if v < s.enter {
        var t :| Holds(s, t, v);
        assert Holds(s', t, v);
      } else {
        assert Holds(s', x.t, v);
      }
    }
  }

  lemma EnteredStep(s: State, x: Action)
    requires Tickets(s) && Entered(s) && Enabled(s, x)
    ensures Entered(Apply(s, x))
  {
    var s' := Apply(s, x);
    match x
    case Unlock(t) =>
      assert s.pcs[t].Inside?;
      assert !AnyInside(s');
    case Compare(t) =>
      if s.pcs[t].v == s.exit {
        assert !AnyInside(s);
        assert s'.pcs[t].Inside?;
      } else {
        SameInside(s, s');
      }
    case _ =>
      SameInside(s, s');
  }

  lemma SameInside(s: State, s': State)
    requires forall t :: t in s.pcs && s.pcs[t].Inside? <==> t in s'.pcs && s'.pcs[t].Inside?
    ensures AnyInside(s) <==> AnyInside(s')
  {
  }

  lemma InvStep(s: State, x: Action)
    requires Inv(s) && Enabled(s, x)
    ensures Inv(Apply(s, x)) && s.lost <= Apply(s, x).lost
  {
    TicketsStep(s, x);
    ServedStep(s, x);
    EnteredStep(s, x);
  }

  /** From any state that keeps the invariant, every later one does, and lost tickets stay
      lost. */
  lemma {:induction false} InvPath(states: seq<State>, acts: seq<Action>, k: nat)
    requires Path(states, acts) && Inv(states[0]) && k < |states|
    ensures Inv(states[k]) && states[0].lost <= states[k].lost
  {
    if k == 0 {
    } else {
      InvPath(states, acts, k - 1);
      assert Stepped(states, acts, k - 1);
      InvStep(states[k - 1], acts[k - 1]);
    }
  }

  lemma InvRun(states: seq<State>, acts: seq<Action>, k: nat)
    requires Run(states, acts) && k < |states|
    ensures Inv(states[k])
  {
    InvPath(states, acts, k);
  }

  // ---------------------------------------------------------------------------
  // Results
  // ---------------------------------------------------------------------------

  /** At most one thread is inside; threads enter in ticket order, leaving out none; and
      as long as no trylock has failed, the lock is free exactly when enter equals exit. */
  lemma MutualExclusion(states: seq<State>, acts: seq<Action>, k: nat)
    requires Run(states, acts) && k < |states|
    ensures var s := states[k];
      && (forall t, u :: t in s.pcs && u in s.pcs && s.pcs[t].Inside? && s.pcs[u].Inside? ==> t == u)
      && (forall i :: 0 <= i < |s.entries| ==> s.entries[i] == i)
      && (s.lost == {} ==> (s.enter == s.exit <==> forall t :: t !in s.pcs))
  {
    InvRun(states, acts, k);
    var s := states[k];
    if s.lost == {} && s.exit < s.enter {
      assert s.exit !in s.lost;
      var t :| Holds(s, t, s.exit);
      assert t in s.pcs;
    }
  }

  // ---------------------------------------------------------------------------
  // Failed trylocks
  // ---------------------------------------------------------------------------

  /** A trylock does fail: on a lock that is held its ticket is lost. */
  lemma TryFails(t: Tid, u: Tid) returns (states: seq<State>, acts: seq<Action>)
    requires t != u
    ensures Run(states, acts) && states[|acts|].lost == {1} && states[|acts|].exit == 0
  {
    acts := [Lock(t), Compare(t), TryLock(u), Compare(u)];
    states := [FREE, State(1, 0, map[t := Spinning(0)], {}, []), State(1, 0, map[t := Inside(0)], {}, [0]),
               State(2, 0, map[t := Inside(0), u := Trying(1)], {}, [0]), State(2, 0, map[t := Inside(0)], {1}, [0])];
    assert Stepped(states, acts, 0) && Stepped(states, acts, 1) && Stepped(states, acts, 2);
    assert states[3].pcs - {u} == states[4].pcs;
    assert Stepped(states, acts, 3);
  }

  /** A failed trylock wedges the lock: whatever follows, exit never passes its ticket and
      no later ticket gets inside. */
  lemma FailedTryWedges(states: seq<State>, acts: seq<Action>, k: nat, v: nat)
    requires Path(states, acts) && Inv(states[0]) && k < |states| && v in states[0].lost
    ensures v in states[k].lost && states[k].exit <= v
    ensures forall t :: t in states[k].pcs && states[k].pcs[t].Inside? ==> states[k].pcs[t].v < v
  {
    InvPath(states, acts, k);
  }

  /** No ticket before v is lost. */
  predicate Clear(s: State, v: nat) {
    forall w :: s.exit <= w < v ==> w !in s.lost
  }

  /** Thread t holds the lock with ticket v. */
  predicate HasLock(s: State, t: Tid, v: nat) {
    t in s.pcs && s.pcs[t] == Inside(v)
  }

  /** Some continuation gets thread t inside with the ticket it has. */
  ghost predicate CanEnter(s: State, t: Tid, v: nat) {
    exists states, acts :: Path(states, acts) && states[0] == s && HasLock(states[|acts|], t, v)
  }

  lemma Stay(s: State, t: Tid, v: nat)
    requires HasLock(s, t, v)
    ensures CanEnter(s, t, v)
  {
    assert Path([s], []);
  }

  lemma Precede(s: State, x: Action, t: Tid, v: nat)
    requires Enabled(s, x) && CanEnter(Apply(s, x), t, v)
    ensures CanEnter(s, t, v)
  {
    var states, acts :| Path(states, acts) && states[0] == Apply(s, x) && HasLock(states[|acts|], t, v);
    var states', acts' := [s] + states, [x] + acts;
    forall i | 0 <= i < |acts'| ensures Stepped(states', acts', i) {
      if i > 0 {
        assert Stepped(states, acts, i - 1);
      }
    }
    assert Path(states', acts') && states'[|acts'|] == states[|acts|];
  }

  /** With no ticket before it lost, a ticket can be served: those before it enter and
      leave in turn. */
  lemma {:induction false} ClearEnters(s: State, t: Tid, v: nat)
    requires Inv(s) && Holds(s, t, v) && Clear(s, v)
    ensures CanEnter(s, t, v)
    decreases v - s.exit, !s.pcs[t].Inside?
  {
    if s.pcs[t].Inside? {
      Stay(s, t, v);
    } else if v == s.exit {
      Stay(Apply(s, Compare(t)), t, v);
      Precede(s, Compare(t), t, v);
    } else {
      assert s.exit !in s.lost;
      var u :| Holds(s, u, s.exit);
      var s1 := if s.pcs[u].Inside? then s else Apply(s, Compare(u));
      if !s.pcs[u].Inside? {
        InvStep(s, Compare(u));
      }
      InvStep(s1, Unlock(u));
      ClearEnters(Apply(s1, Unlock(u)), t, v);
      Precede(s1, Unlock(u), t, v);
      if !s.pcs[u].Inside? {
        Precede(s, Compare(u), t, v);
      }
    }
  }

  /** A thread with a ticket can still get inside exactly when no ticket before its own has
      been lost to a failed trylock. */
  lemma EntersExactlyIfClear(s: State, t: Tid, v: nat)
    requires Inv(s) && Holds(s, t, v)
    ensures CanEnter(s, t, v) <==> Clear(s, v)
  {
    if Clear(s, v) {
      ClearEnters(s, t, v);
    } else if CanEnter(s, t, v) {
      var w :| s.exit <= w < v && w in s.lost;
      var states, acts :| Path(states, acts) && states[0] == s && HasLock(states[|acts|], t, v);
      FailedTryWedges(states, acts, |acts|, w);
    }
  }
}
