/** The lists of a portal table entry: messages that find no priority entry wait as
    headers on the unexpected list, and an entry is appended to the priority list only
    once no waiting header matches it, although the lock is dropped while the headers it
    does match are processed.  Entries with both PTL_ME_MANAGE_LOCAL and
    PTL_ME_LOCAL_INC_UH_RLENGTH and the unordered hash are not part of this model. */
module Unexpected {

  datatype Option<T> = None | Some(value: T)

  /** A request header; id counts arrivals. */
  datatype Hdr = Hdr(id: nat, nid: nat, pid: nat, rlength: nat, roffset: nat, bits: bv64)

  /** A list entry (le) or a match entry; None stands for PTL_NID_ANY and PTL_PID_ANY. */
  datatype Entry = Entry(id: nat, le: bool, nid: Option<nat>, pid: Option<nat>, bits: bv64, ignore: bv64,
                         length: nat, offset: nat, manageLocal: bool, noTruncate: bool, useOnce: bool, hdrDisable: bool)

  /** check_match; a list entry matches everything. */
  predicate Matches(h: Hdr, m: Entry) {
    || m.le
    || (&& (m.nid.Some? ==> m.nid.value == h.nid)
        && (m.pid.Some? ==> m.pid.value == h.pid)
        && (m.noTruncate ==> (if m.manageLocal then m.offset else h.roffset) + h.rlength <= m.length)
        && SameBits(h.bits, m.bits, m.ignore))
  }

  predicate SameBits(x: bv64, y: bv64, ignore: bv64) { x | ignore == y | ignore }

  /** An entry whose local offset has moved on matches no more than before. */
  lemma MatchesShrink(h: Hdr, m: Entry, more: nat)
    requires Matches(h, m.(offset := m.offset + more))
    ensures Matches(h, m)
  {
  }

  // ---------------------------------------------------------------------------
  // Match bits, bit by bit
  // ---------------------------------------------------------------------------

  /** A word with one bit set. */
  predicate OneBit(o: bv64) { o != 0 && o & (o - 1) == 0 }

  /** Every bit that is not ignored is the same in both words. */
  ghost predicate SameOutside(x: bv64, y: bv64, ignore: bv64) {
    forall o :: OneBit(o) && o & ignore == 0 ==> x & o == y & o
  }

  function Lowest(d: bv64): bv64 { d & (0 - d) }

  lemma LowestIsBit(d: bv64)
    requires d != 0
    ensures OneBit(Lowest(d)) && d & Lowest(d) != 0
  {
  }

  /** Bit o counts and is not the same in both words. */
  predicate Tells(x: bv64, y: bv64, ignore: bv64, o: bv64) {
    OneBit(o) && o & ignore == 0 && x & o != y & o
  }

  lemma Differs(x: bv64, y: bv64, ignore: bv64, d: bv64, o: bv64)
    requires d == (x ^ y) & !ignore && o & d != 0 && OneBit(o)
    ensures Tells(x, y, ignore, o)
  {
  }

  lemma DiffersAt(x: bv64, y: bv64, ignore: bv64)
    requires x | ignore != y | ignore
    ensures Tells(x, y, ignore, Lowest((x ^ y) & !ignore))
  {
    var d := (x ^ y) & !ignore;
    assert d != 0;
    LowestIsBit(d);
    Differs(x, y, ignore, d, Lowest(d));
  }

  lemma Agrees(x: bv64, y: bv64, ignore: bv64, o: bv64)
    requires x | ignore == y | ignore && o & ignore == 0
    ensures x & o == y & o
  {
  }

  lemma AgreesOutside(x: bv64, y: bv64, ignore: bv64)
    requires SameBits(x, y, ignore)
    ensures SameOutside(x, y, ignore)
  {
    forall o | OneBit(o) && o & ignore == 0 ensures x & o == y & o {
      Agrees(x, y, ignore, o);
    }
  }

  lemma DiffersOutside(x: bv64, y: bv64, ignore: bv64, o: bv64)
    requires Tells(x, y, ignore, o)
    ensures !SameOutside(x, y, ignore)
  {
  }

  lemma BitByBit(x: bv64, y: bv64, ignore: bv64)
    ensures SameBits(x, y, ignore) <==> SameOutside(x, y, ignore)
  {
    if SameBits(x, y, ignore) {
      AgreesOutside(x, y, ignore);
    } else {
      DiffersAt(x, y, ignore);
      DiffersOutside(x, y, ignore, Lowest((x ^ y) & !ignore));
    }
  }

  /** The source's id is the entry's, or the entry takes any. */
  predicate SourceFits(h: Hdr, m: Entry) {
    (m.nid == None || m.nid == Some(h.nid)) && (m.pid == None || m.pid == Some(h.pid))
  }

  /** The message ends within the entry, counted from where it would be put. */
  predicate LengthFits(h: Hdr, m: Entry) {
    h.rlength <= m.length - if m.manageLocal then m.offset else h.roffset
  }

  /** What a match is: for a list entry anything; for a match entry a message from the right
      source, that fits if it must not be truncated, with the same match bits but for those
      ignored. */
  lemma MatchesExactly(h: Hdr, m: Entry)
    ensures m.le ==> Matches(h, m)
    ensures !m.le ==> (Matches(h, m) <==>
              SourceFits(h, m) && (m.noTruncate ==> LengthFits(h, m)) && SameOutside(h.bits, m.bits, m.ignore))
  {
    BitByBit(h.bits, m.bits, m.ignore);
  }

  predicate AnyMatch(hs: seq<Hdr>, m: Entry) {
    exists i :: 0 <= i < |hs| && Matches(hs[i], m)
  }

  // ---------------------------------------------------------------------------
  // Splitting the unexpected list
  // ---------------------------------------------------------------------------

  /** The headers an entry takes: all that match, or the first for PTL_ME_USE_ONCE. */
  function Taken(hs: seq<Hdr>, m: Entry): seq<Hdr> {
    if hs == [] then []
    else if Matches(hs[0], m) then [hs[0]] + (if m.useOnce then [] else Taken(hs[1..], m))
    else Taken(hs[1..], m)
  }

  function Left(hs: seq<Hdr>, m: Entry): seq<Hdr> {
    if hs == [] then []
    else if Matches(hs[0], m) then (if m.useOnce then hs[1..] else Left(hs[1..], m))
    else [hs[0]] + Left(hs[1..], m)
  }

  predicate InArrivalOrder(hs: seq<Hdr>) {
    forall i, j :: 0 <= i < j < |hs| ==> hs[i].id < hs[j].id
  }

  /** Nothing is lost or duplicated. */
  lemma {:induction false} SplitAll(hs: seq<Hdr>, m: Entry)
    ensures multiset(Taken(hs, m)) + multiset(Left(hs, m)) == multiset(hs)
  {
    if hs == [] {
    } else {
      SplitAll(hs[1..], m);
      assert hs == [hs[0]] + hs[1..];
    }
  }

  /** What is taken matches; it is empty exactly when nothing matches; without USE_ONCE
      nothing that matches is left. */
  lemma {:induction false} SplitMatches(hs: seq<Hdr>, m: Entry)
    ensures forall h :: h in Taken(hs, m) ==> Matches(h, m)
    ensures Taken(hs, m) == [] <==> !AnyMatch(hs, m)
    ensures Taken(hs, m) == [] ==> Left(hs, m) == hs
    ensures m.useOnce ==> |Taken(hs, m)| <= 1
    ensures !m.useOnce ==> !AnyMatch(Left(hs, m), m)
  {
    if hs == [] {
    } else {
      SplitMatches(hs[1..], m);
      assert hs == [hs[0]] + hs[1..];
      assert Matches(hs[0], m) ==> AnyMatch(hs, m);
      if AnyMatch(hs[1..], m) {
        var i :| 0 <= i < |hs[1..]| && Matches(hs[1..][i], m);
        assert Matches(hs[i + 1], m);
      }
    }
  }

  /** Members of both parts come from the list. */
  lemma {:induction false} SplitFrom(hs: seq<Hdr>, m: Entry)
    ensures forall h :: h in Taken(hs, m) ==> h in hs
    ensures forall h :: h in Left(hs, m) ==> h in hs
  {
    if hs == [] {
    } else {
      SplitFrom(hs[1..], m);
      assert hs == [hs[0]] + hs[1..];
    }
  }

  lemma OrderCons(h: Hdr, hs: seq<Hdr>)
    requires InArrivalOrder(hs) && forall g :: g in hs ==> h.id < g.id
    ensures InArrivalOrder([h] + hs)
  {
    var all := [h] + hs;
    assert forall i :: 0 < i < |all| ==> all[i] == hs[i - 1];
  }

  lemma OrderTail(hs: seq<Hdr>)
    requires InArrivalOrder(hs) && hs != []
    ensures InArrivalOrder(hs[1..]) && forall g :: g in hs[1..] ==> hs[0].id < g.id
  {
    assert forall i :: 0 <= i < |hs[1..]| ==> hs[1..][i] == hs[i + 1];
  }

  /** Both parts keep the order of arrival. */
  lemma {:induction false} SplitOrder(hs: seq<Hdr>, m: Entry)
    requires InArrivalOrder(hs)
    ensures InArrivalOrder(Taken(hs, m)) && InArrivalOrder(Left(hs, m))
  {
    if hs == [] {
    } else {
      OrderTail(hs);
      SplitOrder(hs[1..], m);
      SplitFrom(hs[1..], m);
      OrderCons(hs[0], Taken(hs[1..], m));
      OrderCons(hs[0], Left(hs[1..], m));
    }
  }

  /** With USE_ONCE it is the oldest header that matches which is taken. */
  lemma {:induction false} OldestTaken(hs: seq<Hdr>, m: Entry, h: Hdr)
    requires InArrivalOrder(hs) && m.useOnce && h in hs && Matches(h, m)
    ensures Taken(hs, m) != [] && Taken(hs, m)[0].id <= h.id
  {
    var rest := hs[1..];
    assert hs == [hs[0]] + rest;
    if Matches(hs[0], m) {
    } else {
      assert forall i :: 0 <= i < |rest| ==> rest[i] == hs[i + 1];
      OldestTaken(rest, m, h);
    }
  }

  // ---------------------------------------------------------------------------
  // The lists, updated in place under the lock
  // ---------------------------------------------------------------------------

  /** The first entry of a list that h matches, or the length of the list. */
  function FirstMatch(es: seq<Entry>, h: Hdr): (i: nat)
    ensures i <= |es| && (i < |es| ==> Matches(h, es[i]))
    ensures forall j :: 0 <= j < i ==> !Matches(h, es[j])
  {
    if es == [] || Matches(h, es[0]) then 0 else 1 + FirstMatch(es[1..], h)
  }

  lemma FirstUnique(es: seq<Entry>, h: Hdr, i: nat)
    requires i <= |es| && (i < |es| ==> Matches(h, es[i])) && forall j :: 0 <= j < i ==> !Matches(h, es[j])
    ensures i == FirstMatch(es, h)
  {
  }

  /** A walk of the list all: bufs taken and kept left so far, rest to come. */
  ghost predicate Splitting(all: seq<Hdr>, m: Entry, bufs: seq<Hdr>, kept: seq<Hdr>, rest: seq<Hdr>) {
    bufs + Taken(rest, m) == Taken(all, m) && kept + Left(rest, m) == Left(all, m)
  }

  lemma SplitTake(all: seq<Hdr>, m: Entry, bufs: seq<Hdr>, kept: seq<Hdr>, rest: seq<Hdr>)
    requires Splitting(all, m, bufs, kept, rest) && rest != [] && Matches(rest[0], m)
    ensures if m.useOnce then bufs + [rest[0]] == Taken(all, m) && kept + rest[1..] == Left(all, m)
            else Splitting(all, m, bufs + [rest[0]], kept, rest[1..])
  {
    assert bufs + ([rest[0]] + Taken(rest[1..], m)) == bufs + [rest[0]] + Taken(rest[1..], m);
  }

  lemma SplitSkip(all: seq<Hdr>, m: Entry, bufs: seq<Hdr>, kept: seq<Hdr>, rest: seq<Hdr>)
    requires Splitting(all, m, bufs, kept, rest) && rest != [] && !Matches(rest[0], m)
    ensures Splitting(all, m, bufs, kept + [rest[0]], rest[1..])
  {
    assert kept + ([rest[0]] + Left(rest[1..], m)) == kept + [rest[0]] + Left(rest[1..], m);
  }

  class Pt {
    var priority: seq<Entry>
    var overflow: seq<Entry>
    var unexpected: seq<Hdr>

    /** __match_le_unexpected: move the headers m takes off the unexpected list. */
    method MatchLeUnexpected(m: Entry) returns (bufs: seq<Hdr>)
      modifies this`unexpected
      ensures bufs == Taken(old(unexpected), m) && unexpected == Left(old(unexpected), m)
    {
      ghost var all, kept, rest: seq<Hdr> := unexpected, [], unexpected;
      bufs := [];
      var i := 0;
      while i < |unexpected|
        invariant i == |kept| && unexpected == kept + rest && Splitting(all, m, bufs, kept, rest)
        decreases |rest|
      {
        if Matches(unexpected[i], m) {
          SplitTake(all, m, bufs, kept, rest);
          bufs := bufs + [unexpected[i]];
          unexpected := unexpected[..i] + unexpected[i + 1..];
          rest := rest[1..];
          if m.useOnce {
            break;
          }
        } else {
          SplitSkip(all, m, bufs, kept, rest);
          kept, rest := kept + [rest[0]], rest[1..];
          i := i + 1;
        }
      }
    }

    /** check_overflow_search_only: the headers reported by search events. */
    method CheckOverflowSearchOnly(m: Entry) returns (found: seq<Hdr>)
      ensures found == Taken(unexpected, m)
    {
      found := [];
      var i := 0;
      assert unexpected[0..] == unexpected;
      while i < |unexpected|
        invariant i <= |unexpected|
        invariant found + Taken(unexpected[i..], m) == Taken(unexpected, m)
      {
        assert unexpected[i..][1..] == unexpected[i + 1..];
        if Matches(unexpected[i], m) {
          found := found + [unexpected[i]];
          if m.useOnce {
            return;
          }
        }
        i := i + 1;
      }
    }

    /** check_overflow_search_delete: removes what a search-only would report. */
    method CheckOverflowSearchDelete(m: Entry) returns (found: seq<Hdr>)
      modifies this`unexpected
      ensures found == Taken(old(unexpected), m) && unexpected == Left(old(unexpected), m)
    {
      found := MatchLeUnexpected(m);
    }

    /** The list walks of tgt_get_match: the first match on the priority list, failing
        that the first on the overflow list. */
    method GetMatch(h: Hdr) returns (onPriority: bool, found: Option<Entry>)
      ensures var p, o := FirstMatch(priority, h), FirstMatch(overflow, h);
        if p < |priority| then onPriority && found == Some(priority[p])
        else !onPriority && found == if o < |overflow| then Some(overflow[o]) else None
    {
      for i := 0 to |priority|
        invariant forall j :: 0 <= j < i ==> !Matches(h, priority[j])
      {
        if Matches(h, priority[i]) {
          FirstUnique(priority, h, i);
          return true, Some(priority[i]);
        }
      }
      FirstUnique(priority, h, |priority|);
      for i := 0 to |overflow|
        invariant forall j :: 0 <= j < i ==> !Matches(h, overflow[j])
      {
        if Matches(h, overflow[i]) {
          FirstUnique(overflow, h, i);
          return false, Some(overflow[i]);
        }
      }
      FirstUnique(overflow, h, |overflow|);
      onPriority, found := false, None;
    }
  }

  // ---------------------------------------------------------------------------
  // Arrivals and appends interleaved
  // ---------------------------------------------------------------------------

  type Tid = nat

  /** An appending thread: about to check the unexpected list, or processing what it took
      with the lock dropped. */
  datatype Pc = Checking(m: Entry) | Flushing(m: Entry)

  /** What became of a message: matched on arrival, dropped, or taken off the unexpected
      list by an append or a search. */
  datatype Fate = Delivered(entry: nat) | Refused | Claimed(entry: nat)

  datatype State = State(priority: seq<Entry>, overflow: seq<Entry>, unexpected: seq<Hdr>, arrived: nat,
                         pcs: map<Tid, Pc>, fates: map<nat, Fate>)

  const EMPTY := State([], [], [], 0, map[], map[])

  /** The critical sections.  permitted and room are the answers of check_perm and of the
      size limits; more is how far a local offset moves, in a flush that of the entry not
      linked yet. */
  datatype Action =
    | Arrive(h: Hdr, permitted: bool, room: bool)
    | Append(t: Tid, m: Entry)
    | AppendOverflow(m: Entry)
    | Check(t: Tid, room: bool)
    | Flushed(t: Tid, more: nat)
    | SearchDelete(m: Entry)
    | Unlink(i: nat)
    | UnlinkOverflow(i: nat)
    | Advance(i: nat, more: nat)

  predicate Enabled(s: State, x: Action) {
    match x
    case Arrive(h, _, _) => h.id == s.arrived
    case Append(t, _) => t !in s.pcs
    case AppendOverflow(_) => true
    case Check(t, _) => t in s.pcs && s.pcs[t].Checking?
    case Flushed(t, _) => t in s.pcs && s.pcs[t].Flushing?
    case SearchDelete(_) => true
    case Unlink(i) => i < |s.priority|
    case UnlinkOverflow(i) => i < |s.overflow|
    case Advance(i, _) => i < |s.priority|
  }

  /** The messages hs, taken by entry e. */
  function Claim(fates: map<nat, Fate>, hs: seq<Hdr>, e: nat): map<nat, Fate> {
    fates + map h | h in hs :: h.id := Claimed(e)
  }

  /** What tgt_get_match decides; None puts the header on the unexpected list. */
  function Decide(priority: seq<Entry>, overflow: seq<Entry>, h: Hdr, permitted: bool, room: bool): (r: Option<Fate>)
    ensures r.None? ==> FirstMatch(priority, h) == |priority|
  {
    var p, o := FirstMatch(priority, h), FirstMatch(overflow, h);
    if p < |priority| then Some(if permitted then Delivered(priority[p].id) else Refused)
    else if o == |overflow| || !permitted then Some(Refused)
    else if overflow[o].hdrDisable then Some(Delivered(overflow[o].id))
    else if !room then Some(Refused)
    else None
  }

  function Receive(s: State, h: Hdr, fate: Option<Fate>): State {
    match fate
    case Some(f) => s.(arrived := s.arrived + 1, fates := s.fates[h.id := f])
    case None => s.(arrived := s.arrived + 1, unexpected := s.unexpected + [h])
  }

  function OnCheck(s: State, t: Tid, m: Entry, room: bool): State {
    var hs := Taken(s.unexpected, m);
    if hs != [] then
      s.(unexpected := Left(s.unexpected, m), fates := Claim(s.fates, hs, m.id), pcs := s.pcs[t := Flushing(m)])
    else
      s.(priority := if room then s.priority + [m] else s.priority, pcs := s.pcs - {t})
  }

  function Apply(s: State, x: Action): State
    requires Enabled(s, x)
  {
    match x
    case Arrive(h, permitted, room) => Receive(s, h, Decide(s.priority, s.overflow, h, permitted, room))
    case Append(t, m) => s.(pcs := s.pcs[t := Checking(m)])
    case AppendOverflow(m) => s.(overflow := s.overflow + [m])
    case Check(t, room) => OnCheck(s, t, s.pcs[t].m, room)
    case Flushed(t, more) =>
      var m := s.pcs[t].m;
      if m.useOnce then s.(pcs := s.pcs - {t}) else s.(pcs := s.pcs[t := Checking(m.(offset := m.offset + more))])
    case SearchDelete(m) =>
      s.(unexpected := Left(s.unexpected, m), fates := Claim(s.fates, Taken(s.unexpected, m), m.id))
    case Unlink(i) => s.(priority := s.priority[..i] + s.priority[i + 1..])
    case UnlinkOverflow(i) => s.(overflow := s.overflow[..i] + s.overflow[i + 1..])
    case Advance(i, more) => s.(priority := s.priority[i := s.priority[i].(offset := s.priority[i].offset + more)])
  }

  predicate Run(states: seq<State>, acts: seq<Action>) {
    && |states| == |acts| + 1
    && states[0] == EMPTY
    && forall i :: 0 <= i < |acts| ==> Enabled(states[i], acts[i]) && states[i + 1] == Apply(states[i], acts[i])
  }

  /** No waiting header matches a linked priority entry. */
  ghost predicate Settled(s: State) {
    forall h, e :: h in s.unexpected && e in s.priority ==> !Matches(h, e)
  }

  /** Every message that arrived waits on the unexpected list, in order of arrival, or has
      met its fate, and not both. */
  ghost predicate Conserved(s: State) { Sorted(s.unexpected, s.fates, s.arrived) }

  ghost predicate Sorted(waiting: seq<Hdr>, fates: map<nat, Fate>, arrived: nat) {
    && InArrivalOrder(waiting)
    && (forall h :: h in waiting ==> h.id < arrived && h.id !in fates)
    && (forall i :: i in fates ==> i < arrived)
    && (forall i :: 0 <= i < arrived && i !in fates ==> exists h :: h in waiting && h.id == i)
  }

  lemma SettledReceive(s: State, h: Hdr, fate: Option<Fate>)
    requires Settled(s) && (fate.None? ==> forall e :: e in s.priority ==> !Matches(h, e))
    ensures Settled(Receive(s, h, fate))
  {
  }

  lemma SettledCheck(s: State, t: Tid, m: Entry, room: bool)
    requires Settled(s)
    ensures Settled(OnCheck(s, t, m, room))
  {
    SplitFrom(s.unexpected, m);
    SplitMatches(s.unexpected, m);
  }

  lemma SettledAdvance(s: State, i: nat, more: nat)
    requires Settled(s) && i < |s.priority|
    ensures Settled(s.(priority := s.priority[i := s.priority[i].(offset := s.priority[i].offset + more)]))
  {
    forall h | h in s.unexpected
      ensures !Matches(h, s.priority[i].(offset := s.priority[i].offset + more))
    {
      if Matches(h, s.priority[i].(offset := s.priority[i].offset + more)) {
        MatchesShrink(h, s.priority[i], more);
      }
    }
  }

  lemma SettledStep(s: State, x: Action)
    requires Settled(s) && Enabled(s, x)
    ensures Settled(Apply(s, x))
  {
    match x
    case Arrive(h, permitted, room) => SettledReceive(s, h, Decide(s.priority, s.overflow, h, permitted, room));
    case Check(t, room) => SettledCheck(s, t, s.pcs[t].m, room);
    case SearchDelete(m) => SplitFrom(s.unexpected, m);
    case Advance(i, more) => SettledAdvance(s, i, more);
    case _ =>
  }

  /** Taking headers off the list moves exactly those to their fate. */
  lemma ConservedClaim(s: State, m: Entry)
    requires Conserved(s)
    ensures Conserved(s.(unexpected := Left(s.unexpected, m), fates := Claim(s.fates, Taken(s.unexpected, m), m.id)))
  {
    var taken, left := Taken(s.unexpected, m), Left(s.unexpected, m);
    var fates := Claim(s.fates, taken, m.id);
    SplitFrom(s.unexpected, m);
    SplitOrder(s.unexpected, m);
    forall h | h in left
      ensures h.id !in fates
    {
      Apart(s.unexpected, m, h);
    }
    forall i | 0 <= i < s.arrived && i !in fates
      ensures exists h :: h in left && h.id == i
    {
      var h :| h in s.unexpected && h.id == i;
      Either(s.unexpected, m, h);
    }
  }

  /** A header that is left is not, by its id, among those taken. */
  lemma {:induction false} Apart(hs: seq<Hdr>, m: Entry, h: Hdr)
    requires InArrivalOrder(hs) && h in Left(hs, m)
    ensures forall g :: g in Taken(hs, m) ==> g.id != h.id
  {
    var rest := hs[1..];
    OrderTail(hs);
    SplitFrom(rest, m);
    if h !in Left(rest, m) {
    } else {
      Apart(rest, m, h);
    }
  }

  lemma Either(hs: seq<Hdr>, m: Entry, h: Hdr)
    requires h in hs
    ensures h in Taken(hs, m) || h in Left(hs, m)
  {
    SplitAll(hs, m);
    assert h in multiset(hs);
  }

  lemma SortedQueue(waiting: seq<Hdr>, fates: map<nat, Fate>, h: Hdr)
    requires Sorted(waiting, fates, h.id)
    ensures Sorted(waiting + [h], fates, h.id + 1)
  {
    var now := waiting + [h];
    assert h in now && forall g :: g in waiting ==> g in now;
    assert forall i :: 0 <= i < |waiting| ==> now[i] == waiting[i];
  }

  lemma SortedFate(waiting: seq<Hdr>, fates: map<nat, Fate>, arrived: nat, f: Fate)
    requires Sorted(waiting, fates, arrived)
    ensures Sorted(waiting, fates[arrived := f], arrived + 1)
  {
  }

  lemma ConservedReceive(s: State, h: Hdr, fate: Option<Fate>)
    requires Conserved(s) && h.id == s.arrived
    ensures Conserved(Receive(s, h, fate))
  {
    match fate
    case Some(f) => SortedFate(s.unexpected, s.fates, s.arrived, f);
    case None => SortedQueue(s.unexpected, s.fates, h);
  }

  lemma ConservedStep(s: State, x: Action)
    requires Conserved(s) && Enabled(s, x)
    ensures Conserved(Apply(s, x))
  {
    match x
    case Arrive(h, permitted, room) => ConservedReceive(s, h, Decide(s.priority, s.overflow, h, permitted, room));
    case Check(t, _) => ConservedClaim(s, s.pcs[t].m);
    case SearchDelete(m) => ConservedClaim(s, m);
    case _ =>
  }

  /** In every reachable state, whatever arrived while a thread had dropped the lock: no
      waiting header matches a linked priority entry, the headers wait in order of arrival,
      and every message that arrived is waiting or has met its one fate. */
  lemma {:induction false} NoneOverlooked(states: seq<State>, acts: seq<Action>, k: nat)
    requires Run(states, acts) && k < |states|
    ensures Settled(states[k]) && Conserved(states[k])
  {
    if k == 0 {
    } else {
      NoneOverlooked(states, acts, k - 1);
      assert Enabled(states[k - 1], acts[k - 1]) && states[k] == Apply(states[k - 1], acts[k - 1]);
      SettledStep(states[k - 1], acts[k - 1]);
      ConservedStep(states[k - 1], acts[k - 1]);
    }
  }

  /** A message's fate is sealed. */
  lemma FateSealed(s: State, x: Action, i: nat)
    requires Conserved(s) && Enabled(s, x) && i in s.fates
    ensures i in Apply(s, x).fates && Apply(s, x).fates[i] == s.fates[i]
  {
    match x
    case Check(t, _) => SplitFrom(s.unexpected, s.pcs[t].m);
    case SearchDelete(m) => SplitFrom(s.unexpected, m);
    case _ =>
  }

  // ---------------------------------------------------------------------------
  // What becomes of arrivals and of appends
  // ---------------------------------------------------------------------------

  /** Entry i is the first of es that h matches. */
  ghost predicate FirstAt(es: seq<Entry>, h: Hdr, i: nat) {
    i < |es| && Matches(h, es[i]) && forall j :: 0 <= j < i ==> !Matches(h, es[j])
  }

  ghost predicate NoneAt(es: seq<Entry>, h: Hdr) { forall e :: e in es ==> !Matches(h, e) }

  /** A message is delivered to the first priority entry it matches, failing that to the first
      overflow entry, where it also waits as a header unless headers are disabled; it is
      refused if it matches none, is not permitted, or has no room to wait. */
  lemma ArrivalFate(s: State, h: Hdr, permitted: bool, room: bool)
    requires h.id == s.arrived
    ensures var s' := Apply(s, Arrive(h, permitted, room));
      && (forall i: nat :: FirstAt(s.priority, h, i) ==>
            s'.fates == s.fates[h.id := if permitted then Delivered(s.priority[i].id) else Refused])
      && (forall i: nat :: NoneAt(s.priority, h) && FirstAt(s.overflow, h, i) ==>
            if !permitted then s'.fates == s.fates[h.id := Refused]
            else if s.overflow[i].hdrDisable then s'.fates == s.fates[h.id := Delivered(s.overflow[i].id)]
            else if !room then s'.fates == s.fates[h.id := Refused]
            else s'.fates == s.fates && s'.unexpected == s.unexpected + [h])
      && (NoneAt(s.priority, h) && NoneAt(s.overflow, h) ==> s'.fates == s.fates[h.id := Refused])
      && (s'.unexpected == s.unexpected || s'.fates == s.fates)
      && s'.priority == s.priority && s'.overflow == s.overflow
  {
    forall i: nat | FirstAt(s.priority, h, i) ensures i == FirstMatch(s.priority, h) {
      FirstUnique(s.priority, h, i);
    }
    forall i: nat | FirstAt(s.overflow, h, i) ensures i == FirstMatch(s.overflow, h) {
      FirstUnique(s.overflow, h, i);
    }
    if NoneAt(s.priority, h) {
      FirstUnique(s.priority, h, |s.priority|);
    }
    if NoneAt(s.overflow, h) {
      FirstUnique(s.overflow, h, |s.overflow|);
    }
  }

  /** A message met its fate on arrival, or waited and matched the entry that took it. */
  lemma FateFrom(s: State, x: Action, i: nat)
    requires Enabled(s, x) && i !in s.fates && i in Apply(s, x).fates
    ensures || (x.Arrive? && x.h.id == i)
            || ((x.Check? || x.SearchDelete?) &&
                var m := if x.Check? then s.pcs[x.t].m else x.m;
                && Apply(s, x).fates[i] == Claimed(m.id)
                && exists h :: h in s.unexpected && h.id == i && Matches(h, m))
  {
    if x.Check? || x.SearchDelete? {
      var m := if x.Check? then s.pcs[x.t].m else x.m;
      SplitMatches(s.unexpected, m);
      SplitFrom(s.unexpected, m);
      var h :| h in Taken(s.unexpected, m) && h.id == i;
      assert h in s.unexpected && Matches(h, m);
    }
  }

  /** A search that deletes and a check take every header that matches, or the oldest one if
      the entry is to be used once, and leave every other. */
  lemma MatchingTaken(s: State, x: Action, h: Hdr)
    requires Conserved(s) && Enabled(s, x) && (x.Check? || x.SearchDelete?) && h in s.unexpected
    ensures var m := if x.Check? then s.pcs[x.t].m else x.m;
      var s' := Apply(s, x);
      && (Matches(h, m) && (!m.useOnce || forall g :: g in s.unexpected && Matches(g, m) ==> h.id <= g.id) ==>
            h.id in s'.fates && s'.fates[h.id] == Claimed(m.id) && h !in s'.unexpected)
      && (!Matches(h, m) ==> h in s'.unexpected && h.id !in s'.fates)
  {
    var m := if x.Check? then s.pcs[x.t].m else x.m;
    SplitMatches(s.unexpected, m);
    SplitFrom(s.unexpected, m);
    Either(s.unexpected, m, h);
    if h in Left(s.unexpected, m) {
      Apart(s.unexpected, m, h);
      if Matches(h, m) && m.useOnce {
        OldestTaken(s.unexpected, m, h);
        var g := Taken(s.unexpected, m)[0];
        assert g in Taken(s.unexpected, m);
      }
    }
    if h in Taken(s.unexpected, m) {
      TakenApart(s.unexpected, m, h);
    }
  }

  lemma TakenApart(hs: seq<Hdr>, m: Entry, h: Hdr)
    requires InArrivalOrder(hs) && h in Taken(hs, m)
    ensures h !in Left(hs, m)
  {
    if h in Left(hs, m) {
      Apart(hs, m, h);
    }
  }

  /** From any state, an entry appended while nothing that waits matches it, with room, gets
      the next message that is permitted and that no earlier entry matches. */
  lemma AppendedReceives(s: State, t: Tid, m: Entry, h: Hdr, room: bool)
    requires t !in s.pcs && !AnyMatch(s.unexpected, m) && h.id == s.arrived && h.id !in s.fates
    requires Matches(h, m) && NoneAt(s.priority, h)
    ensures var s1 := Apply(s, Append(t, m));
      var s2 := Apply(s1, Check(t, true));
      var s3 := Apply(s2, Arrive(h, true, room));
      && Enabled(s, Append(t, m)) && Enabled(s1, Check(t, true)) && Enabled(s2, Arrive(h, true, room))
      && s3.fates == s.fates[h.id := Delivered(m.id)] && t !in s3.pcs && s3.unexpected == s.unexpected
  {
    SplitMatches(s.unexpected, m);
    var s2 := Apply(Apply(s, Append(t, m)), Check(t, true));
    assert s2.priority == s.priority + [m];
    assert FirstAt(s2.priority, h, |s.priority|);
    ArrivalFate(s2, h, true, room);
  }

  /** A message that only an overflow entry matches waits there, and an append that matches it
      takes it, before the entry can be linked. */
  lemma OverflowReceives(s: State, t: Tid, o: Entry, m: Entry, h: Hdr)
    requires t !in s.pcs && h.id == s.arrived && NoneAt(s.priority, h) && NoneAt(s.overflow, h)
    requires Matches(h, o) && !o.hdrDisable && Matches(h, m) && !AnyMatch(s.unexpected, m)
    ensures var s1 := Apply(s, AppendOverflow(o));
      var s2 := Apply(s1, Arrive(h, true, true));
      var s3 := Apply(Apply(s2, Append(t, m)), Check(t, true));
      && s2.unexpected == s.unexpected + [h]
      && s3.unexpected == s.unexpected && s3.fates == s.fates[h.id := Claimed(m.id)] && s3.priority == s.priority
  {
    var s1 := Apply(s, AppendOverflow(o));
    assert FirstAt(s1.overflow, h, |s.overflow|);
    ArrivalFate(s1, h, true, true);
    SplitLast(s.unexpected, h, m);
  }

  lemma {:induction false} SplitLast(hs: seq<Hdr>, h: Hdr, m: Entry)
    requires Matches(h, m) && !AnyMatch(hs, m)
    ensures Taken(hs + [h], m) == [h] && Left(hs + [h], m) == hs
  {
    if hs == [] {
    } else {
      assert forall i :: 0 <= i < |hs[1..]| ==> hs[1..][i] == hs[i + 1];
      SplitLast(hs[1..], h, m);
      assert (hs + [h])[1..] == hs[1..] + [h];
    }
  }

  /** Entry n is m, with its local offset moved on. */
  predicate SameEntry(m: Entry, n: Entry) { n == m.(offset := n.offset) && m.offset <= n.offset }

  /** Thread t has been appending m since state lo, up to state hi. */
  ghost predicate Appending(states: seq<State>, t: Tid, m: Entry, lo: nat, hi: nat)
    requires hi < |states|
  {
    forall j :: lo <= j <= hi ==> t in states[j].pcs && SameEntry(m, states[j].pcs[t].m)
  }

  /** How an append of m by t ends in step x: it is linked, or denied room, when nothing that
      waits matches it; or it is to be used once and has taken a header. */
  ghost predicate EndsIn(s: State, x: Action, t: Tid, m: Entry) {
    && Enabled(s, x) && t in s.pcs
    && var n := s.pcs[t].m;
       || (&& x.Check? && x.t == t && !AnyMatch(s.unexpected, n)
           && Apply(s, x).priority == s.priority + if x.room then [n] else [])
       || (x.Flushed? && x.t == t && m.useOnce && exists i :: i in s.fates && s.fates[i] == Claimed(m.id))
  }

  /** Whoever flushes has taken a header. */
  ghost predicate Flushes(s: State) {
    forall t :: t in s.pcs && s.pcs[t].Flushing? ==> exists i :: i in s.fates && s.fates[i] == Claimed(s.pcs[t].m.id)
  }

  lemma FlushesCheck(s: State, t: Tid, m: Entry, room: bool)
    requires Conserved(s) && Flushes(s)
    ensures Flushes(OnCheck(s, t, m, room))
  {
    var s', hs := OnCheck(s, t, m, room), Taken(s.unexpected, m);
    SplitFrom(s.unexpected, m);
    if hs != [] {
      assert hs[0] in hs && hs[0].id in s'.fates;
      forall u | u in s'.pcs && s'.pcs[u].Flushing?
        ensures exists i :: i in s'.fates && s'.fates[i] == Claimed(s'.pcs[u].m.id)
      {
        if u == t {
          assert s'.fates[hs[0].id] == Claimed(m.id);
        } else {
          var i :| i in s.fates && s.fates[i] == Claimed(s.pcs[u].m.id);
          assert s'.fates[i] == s.fates[i];
        }
      }
    }
  }

  lemma FlushesStep(s: State, x: Action)
    requires Conserved(s) && Flushes(s) && Enabled(s, x)
    ensures Flushes(Apply(s, x))
  {
    if x.Check? {
      FlushesCheck(s, x.t, s.pcs[x.t].m, x.room);
    } else {
      var s' := Apply(s, x);
      forall u | u in s'.pcs && s'.pcs[u].Flushing?
        ensures exists i :: i in s'.fates && s'.fates[i] == Claimed(s'.pcs[u].m.id)
      {
        var i :| i in s.fates && s.fates[i] == Claimed(s.pcs[u].m.id);
        FateSealed(s, x, i);
      }
    }
  }

  lemma {:induction false} FlushesRun(states: seq<State>, acts: seq<Action>, k: nat)
    requires Run(states, acts) && k < |states|
    ensures Flushes(states[k])
  {
    if k == 0 {
    } else {
      FlushesRun(states, acts, k - 1);
      NoneOverlooked(states, acts, k - 1);
      assert Enabled(states[k - 1], acts[k - 1]) && states[k] == Apply(states[k - 1], acts[k - 1]);
      FlushesStep(states[k - 1], acts[k - 1]);
    }
  }

  /** A step of an append goes on with it or ends it. */
  lemma AppendStep(s: State, x: Action, t: Tid, m: Entry)
    requires Flushes(s) && Enabled(s, x) && t in s.pcs && SameEntry(m, s.pcs[t].m)
    ensures (t in Apply(s, x).pcs && SameEntry(m, Apply(s, x).pcs[t].m)) || EndsIn(s, x, t, m)
  {
    if x.Check? {
      SplitMatches(s.unexpected, s.pcs[x.t].m);
    }
  }

  /** No append is forgotten: in every run, from an append on, the entry is with its appender,
      or its append has ended in one of these ways. */
  lemma {:induction false} AppendOutcome(states: seq<State>, acts: seq<Action>, i: nat, k: nat)
    requires Run(states, acts) && i < k < |states| && acts[i].Append?
    ensures var (t, m) := (acts[i].t, acts[i].m);
      || Appending(states, t, m, i + 1, k)
      || exists j :: i < j < k && Appending(states, t, m, i + 1, j) && EndsIn(states[j], acts[j], t, m)
  {
    var t, m := acts[i].t, acts[i].m;
    assert Enabled(states[k - 1], acts[k - 1]) && states[k] == Apply(states[k - 1], acts[k - 1]);
    if k == i + 1 {
    } else {
      AppendOutcome(states, acts, i, k - 1);
      if Appending(states, t, m, i + 1, k - 1) {
        FlushesRun(states, acts, k - 1);
        AppendStep(states[k - 1], acts[k - 1], t, m);
      }
    }
  }

  /** Only its unlinking takes an entry off the priority list, and only the end of an append
      puts one on it; otherwise at most a local offset moves on.  The overflow list grows and
      shrinks as it is asked to. */
  lemma ListsKept(s: State, x: Action)
    requires Enabled(s, x)
    ensures var now := Apply(s, x).priority;
      if x.Unlink? then now == s.priority[..x.i] + s.priority[x.i + 1..]
      else
        && |s.priority| <= |now| <= |s.priority| + 1
        && (forall j :: 0 <= j < |s.priority| ==> SameEntry(s.priority[j], now[j]))
        && (|now| > |s.priority| ==> x.Check? && x.room && now[|now| - 1] == s.pcs[x.t].m)
    ensures var now := Apply(s, x).overflow;
      if x.AppendOverflow? then now == s.overflow + [x.m]
      else if x.UnlinkOverflow? then now == s.overflow[..x.i] + s.overflow[x.i + 1..]
      else now == s.overflow
  {
    match x
    case Check(t, room) => assert t in s.pcs;
    case Advance(i, more) => assert SameEntry(s.priority[i], s.priority[i].(offset := s.priority[i].offset + more));
    case _ =>
  }
}
