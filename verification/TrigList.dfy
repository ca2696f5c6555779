/** A counting event's trig_list (struct list_head, walked with
    list_for_each_prev_safe) as a sequence of operations from the oldest, head->prev,
    to the newest, head->next, together with the pointers a walk uses. */
module TrigList {

  type OpId = nat

  /** A struct list_head pointer: the list head, a linked or unlinked element, the
      value before the first walk, or what list_del leaves in an unlinked element. */
  datatype Cursor = Unset | Head | At(op: OpId) | Poison

  /** The index of x from k on, or the length. */
  function IdxFrom(trig: seq<OpId>, x: OpId, k: nat): (r: nat)
    requires k <= |trig|
    ensures k <= r <= |trig|
    ensures r < |trig| ==> trig[r] == x
    ensures forall j :: k <= j < r ==> trig[j] != x
    decreases |trig| - k
  {
    if k == |trig| || trig[k] == x then k else IdxFrom(trig, x, k + 1)
  }

  function Idx(trig: seq<OpId>, x: OpId): (r: nat)
    ensures r <= |trig|
    ensures r < |trig| ==> trig[r] == x
    ensures forall j :: 0 <= j < r ==> trig[j] != x
  {
    IdxFrom(trig, x, 0)
  }

  function Pos(trig: seq<OpId>, c: Cursor): (r: nat)
    ensures r <= |trig|
  {
    if c.At? then Idx(trig, c.op) else |trig|
  }

  /** head->prev */
  function Oldest(trig: seq<OpId>): Cursor {
    if trig == [] then Head else At(trig[0])
  }

  /** pos->prev: list_del poisons the links of an unlinked element. */
  function Prev(trig: seq<OpId>, c: Cursor): Cursor {
    match c
    case Unset => Poison
    case Poison => Poison
    case Head => Oldest(trig)
    case At(x) =>
      var i := Idx(trig, x);
      if i == |trig| then Poison else if i + 1 == |trig| then Head else At(trig[i + 1])
  }

  function Unlink(trig: seq<OpId>, x: OpId): seq<OpId> {
    var i := Idx(trig, x);
    if i == |trig| then trig else trig[..i] + trig[i + 1..]
  }

  ghost predicate NoDup(q: seq<OpId>) {
    forall i, j :: 0 <= i < j < |q| ==> q[i] != q[j]
  }

  ghost predicate Linked(trig: seq<OpId>, c: Cursor) {
    c == Head || (c.At? && c.op in trig)
  }

  lemma IdxIs(trig: seq<OpId>, k: nat)
    requires NoDup(trig) && k < |trig|
    ensures Idx(trig, trig[k]) == k
  {
  }

  lemma UnlinkAt(trig: seq<OpId>, x: OpId)
    requires x in trig
    ensures |Unlink(trig, x)| == |trig| - 1 && Idx(trig, x) < |trig|
    ensures forall j :: 0 <= j < |trig| - 1 ==> Unlink(trig, x)[j] == trig[if j < Idx(trig, x) then j else j + 1]
  {
  }

  lemma UnlinkFacts(trig: seq<OpId>, x: OpId)
    requires NoDup(trig) && x in trig
    ensures NoDup(Unlink(trig, x)) && |Unlink(trig, x)| == |trig| - 1
    ensures forall y :: y in Unlink(trig, x) <==> y in trig && y != x
    ensures forall j :: 0 <= j < |trig| - 1 ==> Unlink(trig, x)[j] == trig[if j < Idx(trig, x) then j else j + 1]
  {
    var i := Idx(trig, x);
    var u := Unlink(trig, x);
    UnlinkAt(trig, x);
    forall y ensures y in u <==> y in trig && y != x {
      if y in u {
        var k :| 0 <= k < |u| && u[k] == y;
        assert trig[if k < i then k else k + 1] == y;
      }
      if y in trig && y != x {
        var k := Idx(trig, y);
        assert u[if k < i then k else k - 1] == y;
      }
    }
  }

  lemma UnlinkCons(q: seq<OpId>, x: OpId)
    requires q != [] && q[0] != x
    ensures Unlink(q, x) == [q[0]] + Unlink(q[1..], x)
  {
    var t := q[1..];
    var i := Idx(t, x);
    assert forall j :: 0 <= j < |t| ==> t[j] == q[j + 1];
    assert Idx(q, x) == i + 1;
    if i < |t| {
      assert q[..i + 1] == [q[0]] + t[..i] && q[i + 2..] == t[i + 1..];
    }
  }

  /** Removing the element a walker stands on leaves its saved predecessor linked,
      at the removed element's index. */
  lemma UnlinkCursor(trig: seq<OpId>, x: OpId)
    requires NoDup(trig) && x in trig
    ensures Linked(Unlink(trig, x), Prev(trig, At(x)))
    ensures Pos(Unlink(trig, x), Prev(trig, At(x))) == Idx(trig, x)
  {
    UnlinkFacts(trig, x);
    var i := Idx(trig, x);
    var u := Unlink(trig, x);
    if i + 1 < |trig| {
      assert u[i] == trig[i + 1];
      IdxIs(u, i);
    }
  }

  lemma PrevLinked(trig: seq<OpId>, c: Cursor)
    requires NoDup(trig) && Linked(trig, c)
    ensures Linked(trig, Prev(trig, c))
    ensures c.At? ==> Pos(trig, Prev(trig, c)) == Pos(trig, c) + 1
    ensures c == Head ==> Pos(trig, Prev(trig, c)) == 0
  {
    if c.At? && Idx(trig, c.op) + 1 < |trig| {
      IdxIs(trig, Idx(trig, c.op) + 1);
    }
  }

  lemma NoDupAppend(q: seq<OpId>, x: OpId)
    requires NoDup(q) && x !in q
    ensures NoDup(q + [x])
  {
  }

  lemma AppendFacts(trig: seq<OpId>, x: OpId, c: Cursor)
    requires NoDup(trig) && x !in trig && Linked(trig, c)
    ensures NoDup(trig + [x])
    ensures Linked(trig + [x], c)
    ensures c.At? ==> Pos(trig + [x], c) == Pos(trig, c)
  {
    if c.At? {
      IdxIs(trig + [x], Idx(trig, c.op));
    }
  }
}
