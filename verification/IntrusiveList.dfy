/** The circular doubly linked list of ptl_list.h on the heap: a head node and its entries,
    linked in place, against the sequence of the entries. */
module IntrusiveList {

  /** struct list_head; null stands for the poison values. */
  class Node {
    var next: Node?
    var prev: Node?

    constructor ()
      ensures next == null && prev == null
    {
      next, prev := null, null;
    }
  }

  ghost predicate Distinct(r: seq<Node>) {
    forall i, j :: 0 <= i < j < |r| ==> r[i] != r[j]
  }

  ghost predicate Linked(a: Node, b: Node)
    reads a, b
  {
    a.next == b && b.prev == a
  }

  /** Each node is linked to the one after it. */
  ghost predicate Chain(r: seq<Node>)
    reads r
  {
    forall i, j :: 0 <= i && j == i + 1 < |r| ==> Linked(r[i], r[j])
  }

  /** The nodes of r, once around. */
  ghost predicate Ring(r: seq<Node>)
    reads r
  {
    r != [] && Distinct(r) && Chain(r) && Linked(r[|r| - 1], r[0])
  }

  /** The entries behind head are xs, in order. */
  ghost predicate ListIs(head: Node, xs: seq<Node>)
    reads head, xs
  {
    Ring([head] + xs)
  }

  /** The entry after the first part of a ring. */
  function After(p: seq<Node>, q: seq<Node>): Node
    requires p != []
  {
    if q == [] then p[0] else q[0]
  }

  lemma ChainJoin(p: seq<Node>, q: seq<Node>)
    requires Chain(p) && Chain(q) && (p != [] && q != [] ==> Linked(p[|p| - 1], q[0]))
    ensures Chain(p + q)
  {
  }

  lemma ChainSplit(p: seq<Node>, q: seq<Node>)
    requires Chain(p + q)
    ensures Chain(p) && Chain(q) && (p != [] && q != [] ==> Linked(p[|p| - 1], q[0]))
  {
    var r := p + q;
    assert forall i :: 0 <= i < |p| ==> p[i] == r[i];
    assert forall i :: 0 <= i < |q| ==> q[i] == r[|p| + i];
    if p != [] && q != [] {
      assert Linked(r[|p| - 1], r[|p|]);
    }
  }

  ghost predicate Apart(p: seq<Node>, q: seq<Node>) {
    forall i, j :: 0 <= i < |p| && 0 <= j < |q| ==> p[i] != q[j]
  }

  lemma DistinctJoin(p: seq<Node>, q: seq<Node>)
    requires Distinct(p) && Distinct(q) && Apart(p, q)
    ensures Distinct(p + q)
  {
  }

  lemma DistinctSplit(p: seq<Node>, q: seq<Node>)
    requires Distinct(p + q)
    ensures Distinct(p) && Distinct(q) && Apart(p, q)
  {
    var r := p + q;
    assert forall i :: 0 <= i < |p| ==> p[i] == r[i];
    assert forall i :: 0 <= i < |q| ==> q[i] == r[|p| + i];
  }

  function Last(p: seq<Node>): Node
    requires p != []
  {
    p[|p| - 1]
  }

  /** A ring from two chains linked at both ends. */
  lemma RingJoin(p: seq<Node>, q: seq<Node>)
    requires p != [] && q != [] && Chain(p) && Chain(q) && Linked(Last(p), q[0]) && Linked(Last(q), p[0])
    requires Distinct(p) && Distinct(q) && Apart(p, q)
    ensures Ring(p + q)
  {
    ChainJoin(p, q);
    DistinctJoin(p, q);
  }

  lemma RingSplit(p: seq<Node>, q: seq<Node>)
    requires Ring(p + q) && p != []
    ensures Chain(p) && Chain(q) && Distinct(p) && Distinct(q) && Apart(p, q)
    ensures Linked(Last(p), After(p, q))
    ensures q != [] ==> Linked(Last(q), p[0])
  {
    ChainSplit(p, q);
    DistinctSplit(p, q);
    if q == [] {
      assert p + q == p;
    }
  }

  /** __list_add: put entry between the two parts of a ring. */
  method Insert(entry: Node, prev: Node, next: Node, ghost p: seq<Node>, ghost q: seq<Node>)
    requires Ring(p + q) && p != [] && prev == Last(p) && next == After(p, q)
    requires entry !in p && entry !in q
    modifies entry, prev, next
    ensures Ring(p + [entry] + q)
  {
    RingSplit(p, q);
    next.prev := entry;
    entry.next := next;
    entry.prev := prev;
    prev.next := entry;
    ChainJoin([entry], q);
    DistinctJoin([entry], q);
    RingJoin(p, [entry] + q);
    assert p + ([entry] + q) == p + [entry] + q;
  }

  /** __list_del: take entry out from between its neighbours. */
  method Remove(prev: Node, next: Node, ghost p: seq<Node>, ghost entry: Node, ghost q: seq<Node>)
    requires Ring(p + [entry] + q) && p != [] && prev == Last(p) && next == After(p, q)
    modifies prev, next
    ensures Ring(p + q)
  {
    assert p + ([entry] + q) == p + [entry] + q;
    RingSplit(p, [entry] + q);
    ChainSplit([entry], q);
    DistinctSplit([entry], q);
    assert forall j :: 0 <= j < |q| ==> ([entry] + q)[j + 1] == q[j];
    next.prev := prev;
    prev.next := next;
    if q == [] {
      assert p + q == p;
    } else {
      RingJoin(p, q);
    }
  }

  /** What head and the ends of the list point at. */
  lemma Ends(head: Node, xs: seq<Node>)
    requires ListIs(head, xs)
    ensures head.next == After([head], xs)
    ensures head.prev == Last([head] + xs)
    ensures Distinct(xs) && head !in xs
  {
    RingSplit([head], xs);
    RingSplit([head] + xs, []);
    assert [head] + xs + [] == [head] + xs;
  }

  // ---------------------------------------------------------------------------
  // The operations against sequences
  // ---------------------------------------------------------------------------

  /** INIT_LIST_HEAD */
  method Init(head: Node)
    modifies head
    ensures ListIs(head, [])
  {
    head.next := head;
    head.prev := head;
    assert [head] + [] == [head];
  }

  method Add(entry: Node, head: Node, ghost xs: seq<Node>)
    requires ListIs(head, xs) && entry != head && entry !in xs
    modifies entry, head, xs
    ensures ListIs(head, [entry] + xs)
  {
    Ends(head, xs);
    Insert(entry, head, head.next, [head], xs);
    assert [head] + [entry] + xs == [head] + ([entry] + xs);
  }

  method AddTail(entry: Node, head: Node, ghost xs: seq<Node>)
    requires ListIs(head, xs) && entry != head && entry !in xs
    modifies entry, head, xs
    ensures ListIs(head, xs + [entry])
  {
    Ends(head, xs);
    assert [head] + xs + [] == [head] + xs;
    Insert(entry, head.prev, head, [head] + xs, []);
    assert [head] + xs + [entry] + [] == [head] + (xs + [entry]);
  }

  lemma Neighbours(head: Node, xs: seq<Node>, i: nat)
    requires ListIs(head, xs) && i < |xs|
    ensures var p, q := [head] + xs[..i], xs[i + 1..];
      && Ring(p + [xs[i]] + q) && xs[i].prev == Last(p) && xs[i].next == After(p, q)
      && xs[i] !in p && xs[i] !in q
  {
    var p, q := [head] + xs[..i], xs[i + 1..];
    assert p + [xs[i]] + q == [head] + xs;
    RingSplit(p + [xs[i]], q);
    assert p + ([xs[i]] + q) == [head] + xs;
    RingSplit(p, [xs[i]] + q);
    DistinctSplit([xs[i]], q);
    assert Apart(p, [xs[i]] + q);
    assert ([xs[i]] + q)[0] == xs[i];
  }

  /** list_del; the entry's own links are poisoned. */
  method Del(entry: Node, ghost head: Node, ghost xs: seq<Node>, ghost i: nat)
    requires ListIs(head, xs) && i < |xs| && xs[i] == entry
    modifies head, xs
    ensures ListIs(head, xs[..i] + xs[i + 1..])
    ensures entry.next == null && entry.prev == null
  {
    Neighbours(head, xs, i);
    ghost var p, q := [head] + xs[..i], xs[i + 1..];
    Remove(entry.prev, entry.next, p, entry, q);
    entry.next := null;
    entry.prev := null;
    assert p + q == [head] + (xs[..i] + xs[i + 1..]);
  }

  /** list_del_init; the entry becomes an empty list of its own. */
  method DelInit(entry: Node, ghost head: Node, ghost xs: seq<Node>, ghost i: nat)
    requires ListIs(head, xs) && i < |xs| && xs[i] == entry
    modifies head, xs
    ensures ListIs(head, xs[..i] + xs[i + 1..]) && ListIs(entry, [])
  {
    Neighbours(head, xs, i);
    ghost var p, q := [head] + xs[..i], xs[i + 1..];
    Remove(entry.prev, entry.next, p, entry, q);
    assert p + q == [head] + (xs[..i] + xs[i + 1..]);
    Init(entry);
  }

  method IsEmpty(head: Node, ghost xs: seq<Node>) returns (r: bool)
    requires ListIs(head, xs)
    ensures r <==> xs == []
  {
    Ends(head, xs);
    r := head.next == head;
  }

  method IsSingular(head: Node, ghost xs: seq<Node>) returns (r: bool)
    requires ListIs(head, xs)
    ensures r <==> |xs| == 1
  {
    Ends(head, xs);
    var e := IsEmpty(head, xs);
    r := !e && head.next == head.prev;
    assert |xs| > 1 ==> xs[0] != xs[|xs| - 1];
  }

  /** __list_splice: the entries of list between the two parts of a ring. */
  method SpliceBetween(list: Node, prev: Node, next: Node, ghost ys: seq<Node>, ghost p: seq<Node>, ghost q: seq<Node>)
    requires Ring([list] + ys) && ys != [] && Ring(p + q) && p != [] && prev == Last(p) && next == After(p, q)
    requires Apart(ys, p + q)
    modifies ys, prev, next
    ensures Ring(p + ys + q)
  {
    RingSplit([list], ys);
    RingSplit([list] + ys, []);
    assert [list] + ys + [] == [list] + ys;
    RingSplit(p, q);
    assert forall i :: 0 <= i < |p| ==> p[i] == (p + q)[i];
    assert forall i :: 0 <= i < |q| ==> q[i] == (p + q)[|p| + i];
    var first, last := list.next, list.prev;
    first.prev := prev;
    prev.next := first;
    last.next := next;
    next.prev := last;
    ChainJoin(ys, q);
    DistinctJoin(ys, q);
    RingJoin(p, ys + q);
    assert p + (ys + q) == p + ys + q;
  }

  method Splice(list: Node, head: Node, ghost ys: seq<Node>, ghost xs: seq<Node>)
    requires ListIs(list, ys) && ListIs(head, xs) && Apart(ys, [head] + xs)
    modifies ys, head, xs
    ensures ListIs(head, ys + xs)
  {
    var empty := IsEmpty(list, ys);
    if empty {
      assert ys + xs == xs;
    } else {
      Ends(head, xs);
      SpliceBetween(list, head, head.next, ys, [head], xs);
      assert [head] + ys + xs == [head] + (ys + xs);
    }
  }

  /** list_splice_init; list is left empty. */
  method SpliceInit(list: Node, head: Node, ghost ys: seq<Node>, ghost xs: seq<Node>)
    requires ListIs(list, ys) && ListIs(head, xs) && Apart(ys, [head] + xs) && list != head && list !in xs
    modifies list, ys, head, xs
    ensures ListIs(head, ys + xs) && ListIs(list, [])
  {
    Ends(list, ys);
    var empty := IsEmpty(list, ys);
    if empty {
      assert ys + xs == xs;
    } else {
      Splice(list, head, ys, xs);
      assert list !in ys + xs;
      Init(list);
    }
  }

  method SpliceTail(list: Node, head: Node, ghost ys: seq<Node>, ghost xs: seq<Node>)
    requires ListIs(list, ys) && ListIs(head, xs) && Apart(ys, [head] + xs)
    modifies ys, head, xs
    ensures ListIs(head, xs + ys)
  {
    var empty := IsEmpty(list, ys);
    if empty {
      assert xs + ys == xs;
    } else {
      Ends(head, xs);
      assert [head] + xs + [] == [head] + xs;
      SpliceBetween(list, head.prev, head, ys, [head] + xs, []);
      assert [head] + xs + ys + [] == [head] + (xs + ys);
    }
  }

  /** __list_cut_position: list takes the entries up to and including entry. */
  method CutBehind(list: Node, head: Node, entry: Node, ghost xs: seq<Node>, ghost i: nat)
    requires ListIs(head, xs) && i < |xs| && xs[i] == entry && list != head && list !in xs
    modifies list, head, xs
    ensures ListIs(list, xs[..i + 1]) && ListIs(head, xs[i + 1..])
  {
    ghost var a, b := xs[..i + 1], xs[i + 1..];
    CutFacts(head, xs, i);
    var newFirst := entry.next;
    list.next := head.next;
    list.next.prev := list;
    list.prev := entry;
    entry.next := list;
    head.next := newFirst;
    newFirst.prev := head;
    RingJoin([list], a);
    if b == [] {
      assert [head] + b == [head];
    } else {
      RingJoin([head], b);
    }
  }

  lemma CutFacts(head: Node, xs: seq<Node>, i: nat)
    requires ListIs(head, xs) && i < |xs|
    ensures var a, b := xs[..i + 1], xs[i + 1..];
      && Chain(a) && Chain(b) && Distinct(a) && Distinct(b) && Apart(a, b) && head !in a && head !in b
      && Linked(head, a[0]) && Last(a) == xs[i] && xs[i].next == (if b == [] then head else b[0])
      && (b != [] ==> Linked(Last(b), head) && Linked(xs[i], b[0]))
  {
    var a, b := xs[..i + 1], xs[i + 1..];
    assert [head] + a + b == [head] + xs && [head] + (a + b) == [head] + xs && a + b == xs;
    RingSplit([head] + a, b);
    RingSplit([head], xs);
    ChainSplit(a, b);
    DistinctSplit(a, b);
    assert Last([head] + a) == xs[i];
    assert ([head] + a)[0] == head;
  }

  /** list_cut_position.  entry is the head or one of the entries; a stranger is put up
      with only where the list has at most one entry, and then nothing happens. */
  method Cut(list: Node, head: Node, entry: Node, ghost ys: seq<Node>, ghost xs: seq<Node>, ghost i: nat)
    requires ListIs(head, xs) && ListIs(list, ys) && list != head && list !in xs && Apart(ys, [head] + xs)
    requires if entry == head || entry in xs then i <= |xs| && entry == (if i == |xs| then head else xs[i]) else |xs| <= 1
    modifies list, ys, head, xs
    ensures xs == [] || (entry != head && entry !in xs) ==> ListIs(list, ys) && ListIs(head, xs)
    ensures xs != [] && entry == head ==> ListIs(list, []) && ListIs(head, xs)
    ensures entry in xs ==> i < |xs| && ListIs(list, xs[..i + 1]) && ListIs(head, xs[i + 1..])
  {
    Ends(head, xs);
    var empty := IsEmpty(head, xs);
    if empty {
      return;
    }
    var singular := IsSingular(head, xs);
    if singular && head.next != entry && head != entry {
      return;
    }
    if entry == head {
      Init(list);
    } else {
      CutBehind(list, head, entry, xs, i);
    }
  }

  // ---------------------------------------------------------------------------
  // The reverse safe walk
  // ---------------------------------------------------------------------------

  function Reversed(xs: seq<Node>): seq<Node> {
    if xs == [] then [] else Reversed(xs[1..]) + [xs[0]]
  }

  ghost function Kept(xs: seq<Node>, drop: set<Node>): seq<Node> {
    if xs == [] then [] else (if xs[0] in drop then [] else [xs[0]]) + Kept(xs[1..], drop)
  }

  lemma {:induction false} KeptFrom(xs: seq<Node>, drop: set<Node>)
    ensures forall x :: x in Kept(xs, drop) ==> x in xs
  {
    if xs == [] {
    } else {
      KeptFrom(xs[1..], drop);
    }
  }

  lemma KeptCons(x: Node, xs: seq<Node>, drop: set<Node>)
    ensures Kept([x] + xs, drop) == (if x in drop then [] else [x]) + Kept(xs, drop)
    ensures Reversed([x] + xs) == Reversed(xs) + [x]
  {
    assert ([x] + xs)[1..] == xs;
  }

  lemma Within(rest: seq<Node>, done: seq<Node>, kept: seq<Node>, xs: seq<Node>)
    requires xs == rest + done && forall x :: x in kept ==> x in done
    ensures forall i :: 0 <= i < |rest| ==> rest[i] in xs
    ensures forall i :: 0 <= i < |kept| ==> kept[i] in xs
  {
  }

  lemma Shift(rest: seq<Node>, done: seq<Node>)
    requires rest != []
    ensures rest + done == rest[..|rest| - 1] + ([Last(rest)] + done)
  {
  }

  /** One turn of the walk at pos, the last of rest; n is read before pos is deleted. */
  method VisitPrev(pos: Node, head: Node, drop: set<Node>, ghost rest: seq<Node>, ghost kept: seq<Node>) returns (n: Node)
    requires ListIs(head, rest + kept) && rest != [] && pos == Last(rest)
    modifies head, rest, kept
    ensures ListIs(head, rest[..|rest| - 1] + ((if pos in drop then [] else [pos]) + kept))
    ensures n == Last([head] + rest[..|rest| - 1])
  {
    ghost var all, k := rest + kept, |rest| - 1;
    Neighbours(head, all, k);
    assert all[..k] == rest[..k] && all[k + 1..] == kept;
    n := pos.prev;
    if pos in drop {
      Del(pos, head, all, k);
      assert all[..k] + all[k + 1..] == rest[..k] + ([] + kept);
    } else {
      assert all == rest[..k] + ([pos] + kept);
    }
  }

  /** list_for_each_prev_safe with a body that deletes the current entry when it is in
      drop: entries added at the head are visited oldest first, each once, whatever is
      deleted, and the others stay in place. */
  method WalkPrevSafe(head: Node, drop: set<Node>, ghost xs: seq<Node>) returns (visited: seq<Node>)
    requires ListIs(head, xs)
    modifies head, xs
    ensures visited == Reversed(xs)
    ensures ListIs(head, Kept(xs, drop))
  {
    visited := [];
    ghost var rest: seq<Node>, done: seq<Node>, kept: seq<Node> := xs, [], [];
    Ends(head, xs);
    assert xs + [] == xs;
    var pos: Node := head.prev;
    while pos != head
      invariant xs == rest + done && visited == Reversed(done) && kept == Kept(done, drop)
      invariant ListIs(head, rest + kept)
      invariant pos == Last([head] + rest)
      decreases |rest|
    {
      KeptFrom(done, drop);
      Within(rest, done, kept, xs);
      KeptCons(pos, done, drop);
      Shift(rest, done);
      var n := VisitPrev(pos, head, drop, rest, kept);
      visited := visited + [pos];
      rest, done, kept := rest[..|rest| - 1], [pos] + done, (if pos in drop then [] else [pos]) + kept;
      pos := n;
    }
    if rest != [] {
      NotHead(head, rest, kept);
    }
    assert rest + done == done && rest + kept == kept;
  }

  lemma NotHead(head: Node, rest: seq<Node>, kept: seq<Node>)
    requires ListIs(head, rest + kept) && rest != []
    ensures Last([head] + rest) != head
  {
    Ends(head, rest + kept);
    assert Last([head] + rest) in rest + kept;
  }
}
