/** The event queue: a ring of slots with generation numbers whose producer may lap the
    consumer, and the flow control that disables portal table entries into reserved slots.
    Every operation runs under the queue's lock.  Generations do not wrap here. */
module EventRing {
  import opened Arith

  datatype Event = Plain(id: nat) | PtDisabled(ptIndex: nat)

  /** eqe_t */
  datatype Slot = Slot(generation: nat, event: Event)

  datatype PtState = Enabled | Disabled | AutoDisabled

  datatype Pt = Pt(index: nat, state: PtState)

  /** PTL_EQ_EMPTY, PTL_OK and PTL_EQ_DROPPED. */
  datatype Got = Empty | Next(event: Event) | Dropped(event: Event)

  // ---------------------------------------------------------------------------
  // Positions in the log and positions in the ring
  // ---------------------------------------------------------------------------

  /** Advancing an index and its generation by one slot. */
  lemma Step(n: nat, count: nat)
    requires count > 0
    ensures (n + 1) % count == (if n % count + 1 == count then 0 else n % count + 1)
    ensures (n + 1) / count == (if n % count + 1 == count then n / count + 1 else n / count)
  {
    var q := n / count;
    if n % count + 1 == count {
      assert (q + 1) * count == q * count + count;
      DivModUnique(n + 1, q + 1, 0, count);
    } else {
      DivModUnique(n + 1, q, n % count + 1, count);
    }
  }

  /** Positions less than a lap apart use different slots. */
  lemma Near(n: nat, m: nat, count: nat)
    requires n < m < n + count
    ensures n % count != m % count
  {
    if n % count == m % count {
      CloseMultiples(n / count, m / count, count);
    }
  }

  /** A position more than a lap behind p has been overwritten, by a later generation. */
  lemma Lapped(c: nat, p: nat, count: nat) returns (n: nat)
    requires count > 0 && c + count < p
    ensures p - count <= n < p && n % count == c % count && n / count > c / count
  {
    var m := (p - 1 - c) / count;
    n := c + m * count;
    DivPositive(p - 1 - c, count);
    Distribute(c / count, m, count);
    DivModUnique(n, c / count + m, c % count, count);
  }

  /** The position get_event reads from: the oldest unread one still in the ring. */
  function Oldest(c: nat, p: nat, count: nat): nat
  {
    if p - c > count then p - count else c
  }

  // ---------------------------------------------------------------------------
  // Flow control on the list of attached portal table entries
  // ---------------------------------------------------------------------------

  predicate AnyEnabled(pts: seq<Pt>) {
    exists i :: 0 <= i < |pts| && pts[i].state == Enabled
  }

  function Notices(pts: seq<Pt>): (evs: seq<Event>)
    ensures |evs| <= |pts|
    ensures evs == [] <==> !AnyEnabled(pts)
  {
    if pts == [] then [] else
      var n := |pts| - 1;
      var evs := Notices(pts[..n]);
      assert AnyEnabled(pts) <==> AnyEnabled(pts[..n]) || pts[n].state == Enabled by {
        if pts[n].state == Enabled {
        } else {
          assert forall i :: 0 <= i < n ==> pts[..n][i] == pts[i];
          if AnyEnabled(pts) {
            var i :| 0 <= i < |pts| && pts[i].state == Enabled;
            assert pts[..n][i].state == Enabled;
          }
        }
      }
      if pts[n].state == Enabled then evs + [PtDisabled(pts[n].index)] else evs
  }

  function Stop(pt: Pt): Pt {
    if pt.state == Enabled then pt.(state := AutoDisabled) else pt
  }

  /** The first n entries stopped. */
  function StoppedTo(pts: seq<Pt>, n: nat): (r: seq<Pt>)
    ensures |r| == |pts|
  {
    seq(|pts|, i requires 0 <= i < |pts| => if i < n then Stop(pts[i]) else pts[i])
  }

  function Stopped(pts: seq<Pt>): (r: seq<Pt>)
    ensures |r| == |pts| && !AnyEnabled(r)
  {
    StoppedTo(pts, |pts|)
  }

  /** No portal table entry is attached twice, and none has an index above the limit. */
  predicate Distinct(pts: seq<Pt>, maxPtIndex: nat) {
    && (forall i :: 0 <= i < |pts| ==> pts[i].index <= maxPtIndex)
    && (forall i, j :: 0 <= i < j < |pts| ==> pts[i].index != pts[j].index)
  }

  /** Pigeonhole: the reserved slots suffice for one notice per entry. */
  lemma {:induction false} Reserved(pts: seq<Pt>, maxPtIndex: nat)
    requires Distinct(pts, maxPtIndex)
    ensures |pts| <= maxPtIndex + 1
  {
    var used := set i | 0 <= i < |pts| :: pts[i].index;
    Distinguished(pts, maxPtIndex, |pts|, used);
    Below(maxPtIndex + 1, used);
  }

  lemma {:induction false} Distinguished(pts: seq<Pt>, maxPtIndex: nat, n: nat, used: set<nat>)
    requires Distinct(pts, maxPtIndex) && n <= |pts|
    requires used == set i | 0 <= i < n :: pts[i].index
    ensures |used| == n
  {
    if n == 0 {
      assert used == {};
    } else {
      var less := set i | 0 <= i < n - 1 :: pts[i].index;
      Distinguished(pts, maxPtIndex, n - 1, less);
      assert used == less + {pts[n - 1].index};
    }
  }

  lemma {:induction false} Below(bound: nat, s: set<nat>)
    requires forall x :: x in s ==> x < bound
    ensures |s| <= bound
  {
    if bound == 0 {
      assert s == {};
    } else {
      Below(bound - 1, s - {bound - 1});
    }
  }

  lemma StoppedStep(pts: seq<Pt>, n: nat)
    requires n < |pts|
    ensures StoppedTo(pts, n)[n] == pts[n]
    ensures StoppedTo(pts, n + 1) == StoppedTo(pts, n)[n := Stop(pts[n])]
  {
  }

  function Notice(pt: Pt): seq<Event> {
    if pt.state == Enabled then [PtDisabled(pt.index)] else []
  }

  lemma NoticeStep(log: seq<Event>, pts: seq<Pt>, n: nat)
    requires n < |pts|
    ensures log + Notices(pts[..n]) + Notice(pts[n]) == log + Notices(pts[..n + 1])
  {
    NoticesSnoc(pts, n);
  }

  lemma NoticesSnoc(pts: seq<Pt>, n: nat)
    requires n < |pts|
    ensures Notices(pts[..n + 1]) ==
      Notices(pts[..n]) + Notice(pts[n])
  {
    assert pts[..n + 1][..n] == pts[..n];
  }

  /** Each enabled entry is named by exactly one notice, and nothing else is. */
  lemma {:induction false} NoticesExactly(pts: seq<Pt>, maxPtIndex: nat, e: Event)
    requires Distinct(pts, maxPtIndex)
    ensures multiset(Notices(pts))[e] == if e.PtDisabled? && Pt(e.ptIndex, Enabled) in pts then 1 else 0
  {
    if pts == [] {
    } else {
      var n := |pts| - 1;
      assert pts == pts[..n] + [pts[n]];
      NoticesExactly(pts[..n], maxPtIndex, e);
      NoticesSnoc(pts, n);
      assert pts[..n + 1] == pts;
    }
  }

  // ---------------------------------------------------------------------------
  // The queue
  // ---------------------------------------------------------------------------

  /** The last count posted events are in the ring, each in its slot with its generation. */
  ghost predicate Holds(eqe: seq<Slot>, log: seq<Event>) {
    forall n :: 0 <= n < |log| && |log| - |eqe| <= n ==>
      eqe[n % |eqe|] == Slot(n / |eqe|, log[n])
  }

  lemma HoldsPost(eqe: seq<Slot>, log: seq<Event>, ev: Event)
    requires |eqe| > 0 && Holds(eqe, log)
    ensures Holds(eqe[|log| % |eqe| := Slot(|log| / |eqe|, ev)], log + [ev])
  {
    var p, count := |log|, |eqe|;
    var eqe', log' := eqe[p % count := Slot(p / count, ev)], log + [ev];
    forall n | 0 <= n < |log'| && |log'| - |eqe'| <= n
      ensures eqe'[n % count] == Slot(n / count, log'[n])
    {
      if n < p {
        Near(n, p, count);
      }
    }
  }

  /** get_event's loop test: the slot of an unread event carries a later generation
      exactly when the producer is more than a lap ahead. */
  lemma Behind(eqe: seq<Slot>, log: seq<Event>, c: nat)
    requires |eqe| > 0 && Holds(eqe, log) && c < |log|
    ensures c / |eqe| < eqe[c % |eqe|].generation <==> |log| - c > |eqe|
    ensures |log| - c <= |eqe| ==> eqe[c % |eqe|].event == log[c]
  {
    if |log| - c > |eqe| {
      var n := Lapped(c, |log|, |eqe|);
      assert eqe[n % |eqe|] == Slot(n / |eqe|, log[n]);
    } else {
      assert eqe[c % |eqe|] == Slot(c / |eqe|, log[c]);
    }
  }

  /** The log is every event ever posted; c counts those read or dropped. */
  class EventQueue {
    const countSimple: nat
    const maxPtIndex: nat
    const count: nat
    const eqe: array<Slot>
    var producer: nat
    var consumer: nat
    var prodGen: nat
    var consGen: nat
    var used: int
    var overflowing: bool
    var pts: seq<Pt>
    ghost var log: seq<Event>
    ghost var c: nat

    ghost predicate Valid()
      reads this, eqe
    {
      && count == eqe.Length == countSimple + maxPtIndex + 1
      && c <= |log|
      && producer == |log| % count && prodGen == |log| / count
      && consumer == c % count && consGen == c / count
      && used == |log| - c
      && Holds(eqe[..], log)
      && Distinct(pts, maxPtIndex)
    }

    /** While an attached entry is enabled there is room before the reserved slots. */
    ghost predicate Armed()
      reads this
    {
      AnyEnabled(pts) ==> used < countSimple
    }

    constructor (size: nat, maxIndex: nat)
      ensures Valid() && Armed() && fresh(eqe)
      ensures countSimple == size && maxPtIndex == maxIndex
      ensures log == [] && c == 0 && pts == [] && !overflowing
    {
      countSimple, maxPtIndex := size, maxIndex;
      count := size + maxIndex + 1;
      eqe := new Slot[size + maxIndex + 1](_ => Slot(0, Plain(0)));
      producer, consumer, prodGen, consGen, used := 0, 0, 0, 0, 0;
      overflowing, pts, log, c := false, [], [], 0;
    }

    /** reserve_ev together with the caller's write of the event. */
    method ReserveEv(ev: Event)
      requires Valid()
      modifies this`producer, this`prodGen, this`used, this`overflowing, this`log, eqe
      ensures Valid() && log == old(log) + [ev]
      ensures overflowing == (old(overflowing) || (used == countSimple && pts != []))
    {
      HoldsPost(eqe[..], log, ev);
      Step(|log|, count);
      eqe[producer] := Slot(prodGen, ev);
      producer := producer + 1;
      if producer >= count {
        producer := 0;
        prodGen := prodGen + 1;
      }
      used := used + 1;
      if used == countSimple && pts != [] {
        overflowing := true;
      }
      log := log + [ev];
    }

    /** The loop body of process_overflowing. */
    method StopOne(i: nat)
      requires Valid() && i < |pts|
      modifies this`producer, this`prodGen, this`used, this`overflowing, this`log, this`pts, eqe
      ensures Valid() && pts == old(pts)[i := Stop(old(pts)[i])]
      ensures log == old(log) + Notice(old(pts)[i])
    {
      if pts[i].state == Enabled {
        pts := pts[i := Stop(pts[i])];
        ReserveEv(PtDisabled(pts[i].index));
      }
    }

    /** Every enabled entry on the flow-control list gets one notice and is disabled. */
    method ProcessOverflowing()
      requires Valid() && overflowing
      modifies this`producer, this`prodGen, this`used, this`overflowing, this`log, this`pts, eqe
      ensures Valid() && !overflowing
      ensures log == old(log) + Notices(old(pts))
      ensures pts == Stopped(old(pts))
    {
      ghost var pts0, log0 := pts, log;
      assert StoppedTo(pts, 0) == pts;
      for i := 0 to |pts|
        invariant Valid() && |pts| == |pts0|
        invariant log == log0 + Notices(pts0[..i])
        invariant pts == StoppedTo(pts0, i)
      {
        StoppedStep(pts0, i);
        NoticeStep(log0, pts0, i);
        StopOne(i);
      }
      assert pts0[..|pts|] == pts0;
      overflowing := false;
    }

    /** An event made by make_init_event and its siblings: reserve, then, if that
        filled the unreserved slots, process the overflow. */
    method MakeEvent(ev: Event)
      requires Valid() && !overflowing
      modifies this`producer, this`prodGen, this`used, this`overflowing, this`log, this`pts, eqe
      ensures Valid() && !overflowing
      ensures if old(used) + 1 == countSimple
              then log == old(log) + [ev] + Notices(old(pts)) && pts == Stopped(old(pts)) && used <= count
              else log == old(log) + [ev] && pts == old(pts)
      ensures old(Armed()) ==> Armed()
      ensures old(Armed()) && old(AnyEnabled(pts)) ==> used <= count
    {
      Reserved(pts, maxPtIndex);
      ReserveEv(ev);
      if overflowing {
        ProcessOverflowing();
      }
    }

    /** get_event against the log: it returns the oldest unread event still in the ring,
        and says so when unread events before it were overwritten. */
    method GetEvent() returns (r: Got)
      requires Valid()
      modifies this`consumer, this`consGen, this`used, this`c
      ensures Valid()
      ensures r.Empty? <==> old(c) == |log|
      ensures r.Dropped? <==> |log| - old(c) > count
      ensures r.Empty? ==> c == old(c)
      ensures !r.Empty? ==>
        && r.event == log[Oldest(old(c), |log|, count)]
        && c == Oldest(old(c), |log|, count) + 1
      ensures old(Armed()) ==> Armed()
    {
      SamePosition(c, |log|, count);
      if producer == consumer && prodGen == consGen {
        return Empty;
      }
      var dropped := false;
      Behind(eqe[..], log, c);
      while consGen < eqe[consumer].generation
        invariant Valid() && c < |log| && old(c) <= c
        invariant consGen < eqe[consumer].generation <==> |log| - c > count
        invariant |log| - c <= count ==> eqe[consumer].event == log[c]
        invariant dropped <==> old(c) < c
        invariant dropped ==> |log| - old(c) > count && c <= |log| - count
        decreases |log| - c
      {
        Advance();
        dropped := true;
        Behind(eqe[..], log, c);
      }
      var event := eqe[consumer].event;
      Advance();
      r := if dropped then Dropped(event) else Next(event);
    }

    /** One slot forward, with the generation counted at the end of the ring. */
    method Advance()
      requires Valid() && c < |log|
      modifies this`consumer, this`consGen, this`used, this`c
      ensures Valid() && c == old(c) + 1
    {
      Step(c, count);
      consumer := consumer + 1;
      if consumer == count {
        consumer := 0;
        consGen := consGen + 1;
      }
      used := used - 1;
      c := c + 1;
    }

    /** PtlPTAlloc with PTL_PT_FLOWCTRL: the entry starts enabled. */
    method Attach(index: nat)
      requires Valid() && index <= maxPtIndex
      requires forall i :: 0 <= i < |pts| ==> pts[i].index != index
      modifies this`pts
      ensures Valid() && pts == old(pts) + [Pt(index, Enabled)]
      ensures Armed() <==> used < countSimple
    {
      pts := pts + [Pt(index, Enabled)];
      assert pts[|pts| - 1].state == Enabled;
    }

    /** PtlPTEnable (or PtlPTDisable) of the i-th attached entry.  Enabling keeps the
        queue armed exactly when it is done before the reserved slots are in use. */
    method SetState(i: nat, enable: bool)
      requires Valid() && i < |pts|
      modifies this`pts
      ensures Valid() && pts == old(pts)[i := Pt(old(pts)[i].index, if enable then Enabled else Disabled)]
      ensures enable ==> (Armed() <==> used < countSimple)
      ensures !enable && old(Armed()) ==> Armed()
    {
      pts := pts[i := Pt(pts[i].index, if enable then Enabled else Disabled)];
      assert enable ==> pts[i].state == Enabled;
    }
  }

  lemma OneNotice(pt: Pt)
    requires pt.state == Enabled
    ensures Notices([pt]) == [PtDisabled(pt.index)]
    ensures Stopped([pt]) == [Pt(pt.index, AutoDisabled)]
  {
    NoticesSnoc([pt], 0);
    assert [pt][..1] == [pt];
  }

  /** A queue of one unreserved slot, filled. */
  method Filled() returns (q: EventQueue)
    ensures fresh(q) && fresh(q.eqe) && q.Valid() && !q.overflowing && q.countSimple == 1 && q.count == 2
    ensures q.pts == [Pt(0, AutoDisabled)] && q.log == [Plain(1), PtDisabled(0)] && q.c == 0
  {
    q := new EventQueue(1, 0);
    q.Attach(0);
    OneNotice(Pt(0, Enabled));
    assert q.pts == [Pt(0, Enabled)];
    q.MakeEvent(Plain(1));
  }

  /** Every queue that is not armed can lose an unread event with an entry still enabled:
      a burst of events laps it and disables none.  With MakeEvent's promise for armed
      queues this makes Armed the exact condition. */
  method Overrun(q: EventQueue) returns (r: Got)
    requires q.Valid() && !q.overflowing && !q.Armed()
    modifies q, q.eqe
    ensures q.Valid() && r.Dropped? && q.pts == old(q.pts) && AnyEnabled(q.pts)
  {
    while q.used <= q.count
      invariant q.Valid() && !q.overflowing && q.used >= q.countSimple && q.pts == old(q.pts)
    {
      q.MakeEvent(Plain(0));
    }
    r := q.GetEvent();
  }

  /** The smallest such queue: an entry enabled again while the reserved slots are in use
      is not disabled when the ring is lapped. */
  method ReenabledTooEarly() returns (r: Got, state: PtState)
    ensures r == Dropped(PtDisabled(0)) && state == Enabled
  {
    var q := Filled();
    q.SetState(0, true);
    state := q.pts[0].state;
    q.MakeEvent(Plain(2));
    r := q.GetEvent();
  }

  /** is_queue_empty: same slot and same generation is the same position. */
  lemma SamePosition(c: nat, p: nat, count: nat)
    requires count > 0
    ensures c % count == p % count && c / count == p / count <==> c == p
  {
  }
}
