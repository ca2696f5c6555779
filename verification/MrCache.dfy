/** The memory-registration cache of mr_lookup: page-aligned regions in a search tree
    ordered by address.  A request that fits an existing region reuses it; otherwise
    the request is merged with every region it touches into one new region.  Addresses
    are natural numbers (no wrap at the top of the address space).

    The tree is a search tree of any shape: the colours and rotations of the red-black
    tree change the shape only, and nothing here depends on the shape. */
module MrCache {
  import opened Arith

  /** struct mr; cookie is umn_cookie. */
  datatype Mr = Mr(addr: nat, length: nat, cookie: nat) {
    function End(): nat { addr + length }

    predicate Fits(start: nat, len: nat) { addr <= start && start + len <= End() }

    predicate Has(a: nat) { addr <= a < End() }
  }

  datatype Tree = Leaf | Node(left: Tree, mr: Mr, right: Tree)

  datatype Option<T> = None | Some(value: T)

  function InOrder(t: Tree): seq<Mr> {
    match t
    case Leaf => []
    case Node(l, m, r) => InOrder(l) + [m] + InOrder(r)
  }

  // ---------------------------------------------------------------------------
  // Page rounding
  // ---------------------------------------------------------------------------

  /** The source masks with ~(pagesize - 1), pagesize being a power of two. */
  function Down(a: nat, page: nat): (r: nat)
    requires page > 0
    ensures r <= a < r + page
  {
    a / page * page
  }

  function Up(a: nat, page: nat): (r: nat)
    requires page > 0
    ensures a <= r < a + page
  {
    Down(a + page - 1, page)
  }

  predicate Aligned(a: nat, page: nat)
    requires page > 0
  {
    a / page * page == a
  }

  lemma DownAligned(a: nat, page: nat)
    requires page > 0
    ensures Aligned(Down(a, page), page)
  {
    var d := Down(a, page);
    CloseMultiples(a / page, d / page, page);
  }

  lemma DivMonotone(a: nat, b: nat, page: nat)
    requires page > 0 && a <= b
    ensures a / page <= b / page
  {
    if b / page < a / page {
      MulMonotone(b / page + 1, a / page, page);
    }
  }

  /** Down is the greatest multiple of the page size not above its argument. */
  lemma DownGreatest(x: nat, a: nat, page: nat)
    requires page > 0 && Aligned(x, page) && x <= a
    ensures x <= Down(a, page)
  {
    DivMonotone(x, a, page);
    MulMonotone(x / page, a / page, page);
  }

  /** Up is the least multiple of the page size not below its argument. */
  lemma UpLeast(x: nat, a: nat, page: nat)
    requires page > 0 && Aligned(x, page) && a <= x
    ensures Up(a, page) <= x
  {
    DownAligned(a + page - 1, page);
    var u := Up(a, page);
    if u > x {
      if u / page <= x / page {
        MulMonotone(u / page, x / page, page);
      } else {
        MulMonotone(x / page + 1, u / page, page);
      }
    }
  }

  lemma UpAligned(a: nat, page: nat)
    requires page > 0
    ensures Aligned(Up(a, page), page)
  {
    DownAligned(a + page - 1, page);
  }

  // ---------------------------------------------------------------------------
  // The search tree (tree.h) and its in-order sequence
  // ---------------------------------------------------------------------------

  /** mr_compare orders by address. */
  predicate Keyed(rs: seq<Mr>) {
    forall i, j :: 0 <= i < j < |rs| ==> rs[i].addr < rs[j].addr
  }

  /** rs[..k] start at or before a, rs[k..] after it. */
  predicate Splits(rs: seq<Mr>, a: nat, k: nat) {
    && k <= |rs|
    && (forall i :: 0 <= i < k ==> rs[i].addr <= a)
    && (forall i :: k <= i < |rs| ==> a < rs[i].addr)
  }

  function Join(l: Tree, r: Tree): Tree {
    match l
    case Leaf => r
    case Node(ll, m, lr) => Node(ll, m, Join(lr, r))
  }

  /** RB_REMOVE; a node is named by its address, unique in the tree. */
  function Remove(t: Tree, key: nat): Tree {
    match t
    case Leaf => Leaf
    case Node(l, m, r) =>
      if key < m.addr then Node(Remove(l, key), m, r)
      else if m.addr < key then Node(l, m, Remove(r, key))
      else Join(l, r)
  }

  /** RB_INSERT: a node whose key is already present is not inserted. */
  function Insert(t: Tree, mr: Mr): Tree {
    match t
    case Leaf => Node(Leaf, mr, Leaf)
    case Node(l, m, r) =>
      if mr.addr < m.addr then Node(Insert(l, mr), m, r)
      else if m.addr < mr.addr then Node(l, m, Insert(r, mr))
      else t
  }

  /** RB_MIN, and RB_NEXT as the least node above an address. */
  function Min(t: Tree): Option<Mr> {
    match t
    case Leaf => None
    case Node(l, m, _) => if l.Leaf? then Some(m) else Min(l)
  }

  function Next(t: Tree, key: nat): Option<Mr> {
    match t
    case Leaf => None
    case Node(l, m, r) =>
      if m.addr <= key then Next(r, key)
      else
        var below := Next(l, key);
        if below.Some? then below else Some(m)
  }

  function Nth(rs: seq<Mr>, i: nat): Option<Mr> {
    if i < |rs| then Some(rs[i]) else None
  }

  lemma KeyedParts(l: Tree, m: Mr, r: Tree)
    requires Keyed(InOrder(Node(l, m, r)))
    ensures Keyed(InOrder(l)) && Keyed(InOrder(r))
    ensures forall x :: x in InOrder(l) ==> x.addr < m.addr
    ensures forall x :: x in InOrder(r) ==> m.addr < x.addr
  {
    KeyedSplit(InOrder(l), m, InOrder(r));
  }

  lemma KeyedSplit(a: seq<Mr>, m: Mr, b: seq<Mr>)
    requires Keyed(a + [m] + b)
    ensures Keyed(a) && Keyed(b)
    ensures forall x :: x in a ==> x.addr < m.addr
    ensures forall x :: x in b ==> m.addr < x.addr
  {
    var s := a + [m] + b;
    assert s[|a|] == m;
    assert forall i :: 0 <= i < |a| ==> s[i] == a[i];
    forall i | 0 <= i < |b|
      ensures m.addr < b[i].addr && forall j :: i < j < |b| ==> b[i].addr < b[j].addr
    {
      assert s[|a| + 1 + i] == b[i];
      assert forall j :: i < j < |b| ==> s[|a| + 1 + j] == b[j];
    }
  }

  lemma {:induction false} JoinInOrder(l: Tree, r: Tree)
    ensures InOrder(Join(l, r)) == InOrder(l) + InOrder(r)
  {
    match l
    case Leaf =>
    case Node(ll, m, lr) =>
      JoinInOrder(lr, r);
      assert InOrder(ll) + [m] + (InOrder(lr) + InOrder(r)) == InOrder(l) + InOrder(r);
  }

  lemma Cut<T>(a: seq<T>, m: T, b: seq<T>, i: nat)
    requires i < |a| + 1 + |b|
    ensures var s := a + [m] + b;
      s[..i] + s[i + 1..] ==
        if i < |a| then a[..i] + a[i + 1..] + [m] + b
        else if i == |a| then a + b
        else a + [m] + (b[..i - |a| - 1] + b[i - |a|..])
  {
  }

  lemma {:induction false} RemoveAt(t: Tree, i: nat)
    requires Keyed(InOrder(t)) && i < |InOrder(t)|
    ensures InOrder(Remove(t, InOrder(t)[i].addr)) == InOrder(t)[..i] + InOrder(t)[i + 1..]
  {
    match t
    case Node(l, m, r) =>
      KeyedParts(l, m, r);
      Cut(InOrder(l), m, InOrder(r), i);
      var n := |InOrder(l)|;
      if i < n {
        assert InOrder(t)[i] == InOrder(l)[i];
        RemoveAt(l, i);
      } else if i == n {
        JoinInOrder(l, r);
      } else {
        assert InOrder(t)[i] == InOrder(r)[i - n - 1];
        RemoveAt(r, i - n - 1);
      }
  }

  lemma SplitParts(a: seq<Mr>, m: Mr, b: seq<Mr>, key: nat, i: nat)
    requires Splits(a + [m] + b, key, i)
    ensures key < m.addr ==> i <= |a| && Splits(a, key, i)
    ensures m.addr <= key ==> i > |a| && Splits(b, key, i - |a| - 1)
  {
    var s := a + [m] + b;
    assert s[|a|] == m;
    if key < m.addr {
      assert forall j :: 0 <= j < |a| ==> a[j] == s[j];
    } else {
      assert forall j :: 0 <= j < |b| ==> b[j] == s[|a| + 1 + j];
    }
  }

  lemma PasteLeft<T>(a: seq<T>, m: T, b: seq<T>, x: T, i: nat)
    requires i <= |a|
    ensures var s := a + [m] + b; s[..i] + [x] + s[i..] == (a[..i] + [x] + a[i..]) + [m] + b
  {
  }

  lemma PasteRight<T>(a: seq<T>, m: T, b: seq<T>, x: T, i: nat)
    requires |a| < i <= |a| + 1 + |b|
    ensures var s, j := a + [m] + b, i - |a| - 1; s[..i] + [x] + s[i..] == a + [m] + (b[..j] + [x] + b[j..])
  {
  }

  lemma {:induction false} InsertAt(t: Tree, mr: Mr, i: nat)
    requires Keyed(InOrder(t)) && Splits(InOrder(t), mr.addr, i)
    requires forall x :: x in InOrder(t) ==> x.addr != mr.addr
    ensures InOrder(Insert(t, mr)) == InOrder(t)[..i] + [mr] + InOrder(t)[i..]
  {
    match t
    case Leaf =>
    case Node(l, m, r) =>
      KeyedParts(l, m, r);
      SplitParts(InOrder(l), m, InOrder(r), mr.addr, i);
      assert m in InOrder(t);
      if mr.addr < m.addr {
        InsertAt(l, mr, i);
        PasteLeft(InOrder(l), m, InOrder(r), mr, i);
      } else {
        InsertAt(r, mr, i - |InOrder(l)| - 1);
        PasteRight(InOrder(l), m, InOrder(r), mr, i);
      }
  }

  lemma {:induction false} MinIs(t: Tree)
    ensures Min(t) == Nth(InOrder(t), 0)
  {
    match t
    case Leaf =>
    case Node(l, _, _) => MinIs(l);
  }

  lemma {:induction false} NextIs(t: Tree, key: nat, i: nat)
    requires Keyed(InOrder(t)) && Splits(InOrder(t), key, i)
    ensures Next(t, key) == Nth(InOrder(t), i)
  {
    match t
    case Leaf =>
    case Node(l, m, r) =>
      KeyedParts(l, m, r);
      SplitParts(InOrder(l), m, InOrder(r), key, i);
      if m.addr <= key {
        NextIs(r, key, i - |InOrder(l)| - 1);
      } else {
        NextIs(l, key, i);
      }
  }

  // ---------------------------------------------------------------------------
  // The descent
  // ---------------------------------------------------------------------------

  /** Regions do not overlap; they may touch. */
  predicate Apart(rs: seq<Mr>) {
    forall i, j :: 0 <= i < j < |rs| ==> rs[i].End() <= rs[j].addr
  }

  function Last(rs: seq<Mr>): Option<Mr> {
    if rs == [] then None else Some(rs[|rs| - 1])
  }

  lemma Here(t: Tree, link: Tree, pre: seq<Mr>, post: seq<Mr>)
    requires InOrder(t) == pre + InOrder(link) + post && link.Node?
    ensures link.mr in InOrder(t)
  {
    assert link.mr in InOrder(link);
  }

  ghost predicate Misses(rs: seq<Mr>, start: nat, length: nat) {
    forall i :: 0 <= i < |rs| ==> !rs[i].Fits(start, length)
  }

  /** What is left of link starts at or before the request, what is right of it after. */
  ghost predicate Descended(t: Tree, link: Tree, pre: seq<Mr>, post: seq<Mr>, start: nat, length: nat) {
    && InOrder(t) == pre + InOrder(link) + post
    && (forall i :: 0 <= i < |pre| ==> pre[i].addr <= start)
    && Misses(pre, start, length)
    && (forall i :: 0 <= i < |post| ==> start < post[i].addr)
  }

  lemma GoLeft(t: Tree, link: Tree, pre: seq<Mr>, post: seq<Mr>, start: nat, length: nat)
    returns (post': seq<Mr>)
    requires Keyed(InOrder(t)) && link.Node? && start < link.mr.addr
    requires Descended(t, link, pre, post, start, length)
    ensures Descended(t, link.left, pre, post', start, length)
  {
    post' := [link.mr] + InOrder(link.right) + post;
    assert InOrder(t) == pre + InOrder(link.left) + post';
    var n := |pre| + |InOrder(link.left)|;
    assert InOrder(t)[n] == link.mr;
    forall i | 0 <= i < |post'|
      ensures start < post'[i].addr
    {
      assert post'[i] == InOrder(t)[n + i];
    }
  }

  lemma GoRight(t: Tree, link: Tree, pre: seq<Mr>, post: seq<Mr>, start: nat, length: nat)
    returns (pre': seq<Mr>)
    requires Keyed(InOrder(t)) && Apart(InOrder(t))
    requires link.Node? && link.mr.addr <= start && !link.mr.Fits(start, length)
    requires Descended(t, link, pre, post, start, length)
    ensures Descended(t, link.right, pre', post, start, length)
    ensures Last(pre') == Some(link.mr)
  {
    pre' := pre + InOrder(link.left) + [link.mr];
    assert InOrder(t) == pre' + InOrder(link.right) + post;
    var n := |pre| + |InOrder(link.left)|;
    assert InOrder(t)[n] == link.mr;
    forall i | 0 <= i < |pre'|
      ensures pre'[i].addr <= start && !pre'[i].Fits(start, length)
    {
      assert pre'[i] == InOrder(t)[i];
    }
  }

  lemma Missed(t: Tree, link: Tree, pre: seq<Mr>, post: seq<Mr>, start: nat, length: nat)
    requires Descended(t, link, pre, post, start, length) && link == Leaf
    ensures Misses(InOrder(t), start, length) && Splits(InOrder(t), start, |pre|)
    ensures Last(pre) == Last(InOrder(t)[..|pre|])
  {
    assert InOrder(t)[..|pre|] == pre;
    assert forall i :: 0 <= i < |InOrder(t)| ==>
      InOrder(t)[i] == if i < |pre| then pre[i] else post[i - |pre|];
  }

  /** Descent to a region holding the request.  It finds one exactly when some region of
      the tree holds it; on a miss left is the last region starting at or before start. */
  method Find(t: Tree, start: nat, length: nat) returns (hit: Option<Mr>, left: Option<Mr>, ghost k: nat)
    requires Keyed(InOrder(t)) && Apart(InOrder(t))
    ensures hit.Some? ==> hit.value in InOrder(t) && hit.value.Fits(start, length)
    ensures hit.None? ==> Misses(InOrder(t), start, length)
    ensures hit.None? ==> Splits(InOrder(t), start, k)
    ensures hit.None? ==> left == Last(InOrder(t)[..k])
  {
    var link := t;
    left := None;
    ghost var pre, post: seq<Mr> := [], [];
    while link.Node?
      decreases link
      invariant Descended(t, link, pre, post, start, length)
      invariant left == Last(pre)
    {
      if start < link.mr.addr {
        post := GoLeft(t, link, pre, post, start, length);
        link := link.left;
      } else {
        if link.mr.End() >= start + length {
          Here(t, link, pre, post);
          return Some(link.mr), left, 0;
        }
        pre := GoRight(t, link, pre, post, start, length);
        left := Some(link.mr);
        link := link.right;
      }
    }
    hit := None;
    k := |pre|;
    Missed(t, link, pre, post, start, length);
  }

  // ---------------------------------------------------------------------------
  // Merging
  // ---------------------------------------------------------------------------

  predicate Within(start: nat, length: nat, a: nat) { start <= a < start + length }

  ghost predicate CoveredIn(rs: seq<Mr>, lo: nat, hi: nat, a: nat)
    requires hi <= |rs|
  {
    exists i :: lo <= i < hi && rs[i].Has(a)
  }

  ghost predicate Covered(rs: seq<Mr>, a: nat) {
    CoveredIn(rs, 0, |rs|, a)
  }

  /** Page-aligned, nonempty, disjoint regions in address order. */
  ghost predicate Regions(rs: seq<Mr>, page: nat)
    requires page > 0
  {
    && (forall i :: 0 <= i < |rs| ==>
          rs[i].length > 0 && Aligned(rs[i].addr, page) && Aligned(rs[i].End(), page))
    && Apart(rs)
  }

  lemma RegionsKeyed(rs: seq<Mr>, page: nat)
    requires page > 0 && Regions(rs, page)
    ensures Keyed(rs)
  {
    forall i, j | 0 <= i < j < |rs|
      ensures rs[i].addr < rs[j].addr
    {
      assert rs[i].length > 0 && rs[i].End() <= rs[j].addr;
    }
  }

  /** [s, s + len) is the request together with rs[lo..hi], and leaves no gap. */
  ghost predicate Span(rs: seq<Mr>, start: nat, length: nat, s: nat, len: nat, lo: nat, hi: nat) {
    && lo <= hi <= |rs|
    && s <= start && start + length <= s + len
    && (s == start || (lo < hi && s == rs[lo].addr))
    && (s + len == start + length || (lo < hi && s + len == rs[hi - 1].End()))
    && (forall i :: 0 <= i < lo ==> rs[i].End() <= s)
    && (forall i :: lo <= i < hi ==> s <= rs[i].addr && rs[i].End() <= s + len)
    && (forall a :: Within(s, len, a) ==> Within(start, length, a) || CoveredIn(rs, lo, hi, a))
  }

  lemma SpanLeft(rs: seq<Mr>, start: nat, length: nat, k: nat)
    requires Apart(rs) && Splits(rs, start, k) && Misses(rs, start, length)
    requires 0 < k && start <= rs[k - 1].End()
    ensures Span(rs, start, length, rs[k - 1].addr, length + (start - rs[k - 1].addr), k - 1, k)
  {
    var m := rs[k - 1];
    assert !m.Fits(start, length);
    var len: nat := length + (start - m.addr);
    forall a: nat | Within(m.addr, len, a)
      ensures Within(start, length, a) || CoveredIn(rs, k - 1, k, a)
    {
      assert a < start ==> m.Has(a);
    }
  }

  lemma SpanAlone(rs: seq<Mr>, start: nat, length: nat, k: nat)
    requires Apart(rs) && Splits(rs, start, k)
    requires k == 0 || rs[k - 1].End() < start
    ensures Span(rs, start, length, start, length, k, k)
  {
    forall i | 0 <= i < k
      ensures rs[i].End() <= start
    {
      assert i < k - 1 ==> rs[i].End() <= rs[k - 1].addr;
    }
  }

  lemma SpanRight(rs: seq<Mr>, start: nat, length: nat, s: nat, len: nat, lo: nat, hi: nat)
    requires Apart(rs) && Span(rs, start, length, s, len, lo, hi)
    requires hi < |rs| && start < rs[hi].addr <= s + len && rs[hi].length > 0
    ensures var newLength := rs[hi].End() - s;
      Span(rs, start, length, s, if newLength > len then newLength else len, lo, hi + 1)
  {
    var newLength: nat := rs[hi].End() - s;
    var len' := if newLength > len then newLength else len;
    assert lo < hi ==> rs[hi - 1].End() <= rs[hi].addr;
    forall a | Within(s, len', a)
      ensures Within(start, length, a) || CoveredIn(rs, lo, hi + 1, a)
    {
      if Within(s, len, a) {
        if CoveredIn(rs, lo, hi, a) {
          var i :| lo <= i < hi && rs[i].Has(a);
          assert rs[i].Has(a);
        }
      } else {
        assert rs[hi].Has(a);
      }
    }
  }

  lemma SplitAt(rs: seq<Mr>, i: nat)
    requires Keyed(rs) && i < |rs|
    ensures Splits(rs, rs[i].addr, i + 1)
  {
  }

  /** The merge loop before it looks at rb: rs[lo..hi] is merged, its first region is in
      mr and the others are in gone. */
  ghost predicate Merging(rs: seq<Mr>, start: nat, length: nat, s: nat, len: nat, lo: nat, hi: nat,
                          mr: Option<Mr>, gone: seq<Mr>)
  {
    && Span(rs, start, length, s, len, lo, hi)
    && (forall i :: hi <= i < |rs| ==> start < rs[i].addr && rs[i].length > 0)
    && mr == (if lo < hi then Some(rs[lo]) else None)
    && gone == if lo < hi then rs[lo + 1..hi] else []
  }

  lemma MergeTurn(rs: seq<Mr>, start: nat, length: nat, s: nat, len: nat, lo: nat, hi: nat,
                  mr: Option<Mr>, gone: seq<Mr>, len': nat)
    requires Apart(rs) && Merging(rs, start, length, s, len, lo, hi, mr, gone)
    requires hi < |rs| && rs[hi].addr <= s + len
    requires len' == if rs[hi].End() - s > len then rs[hi].End() - s else len
    ensures Merging(rs, start, length, s, len', lo, hi + 1,
                    if mr.Some? then mr else Some(rs[hi]), if mr.Some? then gone + [rs[hi]] else gone)
  {
    SpanRight(rs, start, length, s, len, lo, hi);
    if lo < hi {
      assert rs[lo + 1..hi] + [rs[hi]] == rs[lo + 1..hi + 1];
    }
  }

  method MergeRight(t: Tree, ghost rs: seq<Mr>, ghost start: nat, ghost length: nat, s: nat, len0: nat,
                    left: Option<Mr>, rb0: Option<Mr>, ghost lo: nat, ghost k: nat)
    returns (len: nat, gone: seq<Mr>, ghost hi: nat)
    requires rs == InOrder(t) && Keyed(rs) && Apart(rs)
    requires k <= |rs| && rb0 == Nth(rs, k)
    requires Merging(rs, start, length, s, len0, lo, k, left, [])
    ensures Span(rs, start, length, s, len, lo, hi) && k <= hi
    ensures hi < |rs| ==> s + len < rs[hi].addr
    ensures gone == if lo < hi then rs[lo + 1..hi] + [rs[lo]] else []
  {
    var mr, rb := left, rb0;
    len, gone, hi := len0, [], k;
    while rb.Some?
      invariant k <= hi <= |rs| && rb == Nth(rs, hi)
      invariant Merging(rs, start, length, s, len, lo, hi, mr, gone)
      decreases |rs| - hi
    {
      SplitAt(rs, hi);
      NextIs(t, rb.value.addr, hi + 1);
      var next := Next(t, rb.value.addr);
      if s + len < rb.value.addr {
        break;
      }
      ghost var was := len;
      var newLength := rb.value.End() - s;
      if newLength > len {
        len := newLength;
      }
      MergeTurn(rs, start, length, s, was, lo, hi, mr, gone, len);
      if mr.Some? {
        gone := gone + [rb.value];
      } else {
        mr := rb;
      }
      hi := hi + 1;
      rb := next;
    }
    if mr.Some? {
      gone := gone + [mr.value];
    }
  }

  /** The extension to the left, then to the right.  gone is the list of regions to be
      removed, with the first merged region at its end. */
  method Merge(t: Tree, ghost rs: seq<Mr>, start: nat, length: nat, left: Option<Mr>, ghost k: nat)
    returns (s: nat, len: nat, gone: seq<Mr>, ghost lo: nat, ghost hi: nat)
    requires rs == InOrder(t) && Keyed(rs) && Apart(rs)
    requires forall i :: 0 <= i < |rs| ==> rs[i].length > 0
    requires Misses(rs, start, length) && Splits(rs, start, k)
    requires left == Last(rs[..k])
    ensures Span(rs, start, length, s, len, lo, hi) && lo <= k <= hi
    ensures hi < |rs| ==> s + len < rs[hi].addr
    ensures gone == if lo < hi then rs[lo + 1..hi] + [rs[lo]] else []
  {
    s, len, lo := start, length, k;
    var mr: Option<Mr> := None;
    if left.Some? && start <= left.value.End() {
      SpanLeft(rs, start, length, k);
      len := len + (start - left.value.addr);
      s := left.value.addr;
      mr := left;
      lo := k - 1;
    } else {
      SpanAlone(rs, start, length, k);
    }
    var rb: Option<Mr>;
    if left.Some? {
      SplitAt(rs, k - 1);
      NextIs(t, left.value.addr, k);
      rb := Next(t, left.value.addr);
    } else {
      MinIs(t);
      rb := Min(t);
    }
    len, gone, hi := MergeRight(t, rs, start, length, s, len, mr, rb, lo, k);
  }

  // ---------------------------------------------------------------------------
  // Replacing the merged regions by one
  // ---------------------------------------------------------------------------

  function Replaced(rs: seq<Mr>, lo: nat, hi: nat, mr: Mr): seq<Mr>
    requires lo <= hi <= |rs|
  {
    rs[..lo] + [mr] + rs[hi..]
  }

  /** mr_create's rounding of the merged range. */
  function Rounded(s: nat, len: nat, page: nat, cookie: nat): (mr: Mr)
    requires page > 0
    ensures mr.Fits(s, len) && Aligned(mr.addr, page) && Aligned(mr.End(), page)
  {
    DownAligned(s, page);
    UpAligned(s + len, page);
    Mr(Down(s, page), Up(s + len, page) - Down(s, page), cookie)
  }

  /** The regions kept on either side stay clear of the rounded region. */
  lemma Clear(rs: seq<Mr>, page: nat, start: nat, length: nat, s: nat, len: nat, lo: nat, hi: nat, mr: Mr)
    requires page > 0 && Regions(rs, page) && Span(rs, start, length, s, len, lo, hi)
    requires hi < |rs| ==> s + len < rs[hi].addr
    requires mr == Rounded(s, len, page, mr.cookie)
    ensures forall i :: 0 <= i < lo ==> rs[i].End() <= mr.addr
    ensures forall i :: hi <= i < |rs| ==> mr.End() <= rs[i].addr
  {
    forall i | 0 <= i < lo
      ensures rs[i].End() <= mr.addr
    {
      DownGreatest(rs[i].End(), s, page);
    }
    forall i | hi <= i < |rs|
      ensures mr.End() <= rs[i].addr
    {
      assert rs[hi].addr <= rs[i].addr;
      UpLeast(rs[i].addr, s + len, page);
    }
  }

  lemma ReplacedRegions(rs: seq<Mr>, page: nat, lo: nat, hi: nat, mr: Mr)
    requires page > 0 && Regions(rs, page) && lo <= hi <= |rs|
    requires Aligned(mr.addr, page) && Aligned(mr.End(), page) && mr.length > 0
    requires forall i :: 0 <= i < lo ==> rs[i].End() <= mr.addr
    requires forall i :: hi <= i < |rs| ==> mr.End() <= rs[i].addr
    ensures Regions(Replaced(rs, lo, hi, mr), page)
  {
    var rs' := Replaced(rs, lo, hi, mr);
    forall i | 0 <= i < |rs'|
      ensures rs'[i] == if i < lo then rs[i] else if i == lo then mr else rs[i + hi - lo - 1]
    {
    }
    forall i, j | 0 <= i < j < |rs'|
      ensures rs'[i].End() <= rs'[j].addr
    {
      if i < lo && lo < j {
        assert rs[i].End() <= mr.addr && mr.End() <= rs[j + hi - lo - 1].addr;
      }
    }
  }

  /** The new region covers the old ones it replaces and the rounded request, no more. */
  lemma RoundedCover(rs: seq<Mr>, page: nat, start: nat, length: nat, s: nat, len: nat, lo: nat, hi: nat, mr: Mr, a: nat)
    requires page > 0 && Regions(rs, page) && Span(rs, start, length, s, len, lo, hi)
    requires mr == Rounded(s, len, page, mr.cookie)
    ensures mr.Has(a) <==> Down(start, page) <= a < Up(start + length, page) || CoveredIn(rs, lo, hi, a)
  {
    DownAligned(start, page);
    UpAligned(start + length, page);
    DownAligned(s, page);
    UpAligned(s + len, page);
    DownGreatest(Down(s, page), start, page);
    UpLeast(Up(s + len, page), start + length, page);
    if s != start {
      DownGreatest(s, s, page);
    }
    if s + len != start + length {
      UpLeast(s + len, s + len, page);
    }
    if mr.Has(a) && !(Down(start, page) <= a < Up(start + length, page)) {
      assert Within(s, len, a);
    }
  }

  lemma ReplacedCover(rs: seq<Mr>, lo: nat, hi: nat, mr: Mr, a: nat)
    requires lo <= hi <= |rs|
    requires CoveredIn(rs, lo, hi, a) ==> mr.Has(a)
    ensures Covered(Replaced(rs, lo, hi, mr), a) <==> mr.Has(a) || Covered(rs, a)
  {
    var rs' := Replaced(rs, lo, hi, mr);
    assert rs'[lo] == mr;
    if i :| 0 <= i < |rs'| && rs'[i].Has(a) {
      if i < lo {
        assert rs[i].Has(a);
      } else if i > lo {
        assert rs[i + hi - lo - 1].Has(a);
      }
    }
    if i :| 0 <= i < |rs| && rs[i].Has(a) {
      if i < lo {
        assert rs'[i].Has(a);
      } else if i >= hi {
        assert rs'[i - hi + lo + 1].Has(a);
      }
    }
  }

  /** What RB_REMOVE over the first j entries of the removal list leaves. */
  function Kept(rs: seq<Mr>, lo: nat, hi: nat, j: nat): seq<Mr>
    requires lo < hi <= |rs| && j <= hi - lo
  {
    if j < hi - lo then rs[..lo + 1] + rs[lo + 1 + j..] else rs[..lo] + rs[hi..]
  }

  lemma KeptKeyed(rs: seq<Mr>, lo: nat, hi: nat, j: nat)
    requires Keyed(rs) && lo < hi <= |rs| && j < hi - lo
    ensures Keyed(Kept(rs, lo, hi, j))
  {
    var was := Kept(rs, lo, hi, j);
    assert forall i :: 0 <= i < |was| ==> was[i] == rs[if i <= lo then i else i + j];
  }

  lemma KeptMiddle(rs: seq<Mr>, lo: nat, hi: nat, j: nat)
    requires lo < hi <= |rs| && j + 1 < hi - lo
    ensures var was := Kept(rs, lo, hi, j);
      was[..lo + 1] + was[lo + 2..] == Kept(rs, lo, hi, j + 1) && was[lo + 1] == rs[lo + 1 + j]
  {
    var was := Kept(rs, lo, hi, j);
    assert was[..lo + 1] == rs[..lo + 1];
    assert was[lo + 2..] == rs[lo + 2 + j..];
  }

  lemma KeptLast(rs: seq<Mr>, lo: nat, hi: nat)
    requires lo < hi <= |rs|
    ensures var was := Kept(rs, lo, hi, hi - lo - 1);
      was[..lo] + was[lo + 1..] == Kept(rs, lo, hi, hi - lo) && was[lo] == rs[lo]
  {
    var was := Kept(rs, lo, hi, hi - lo - 1);
    assert was[..lo] == rs[..lo];
    assert was[lo + 1..] == rs[hi..];
  }

  /** RB_REMOVE of the j-th entry of the removal list. */
  lemma KeptStep(t: Tree, rs: seq<Mr>, gone: seq<Mr>, lo: nat, hi: nat, j: nat)
    requires Keyed(rs) && lo < hi <= |rs| && j < hi - lo
    requires gone == rs[lo + 1..hi] + [rs[lo]]
    requires InOrder(t) == Kept(rs, lo, hi, j)
    ensures InOrder(Remove(t, gone[j].addr)) == Kept(rs, lo, hi, j + 1)
  {
    KeptKeyed(rs, lo, hi, j);
    GoneAt(rs, gone, lo, hi, j);
    if j + 1 < hi - lo {
      KeptMiddle(rs, lo, hi, j);
      RemoveAt(t, lo + 1);
    } else {
      KeptLast(rs, lo, hi);
      RemoveAt(t, lo);
    }
  }

  lemma GoneAt(rs: seq<Mr>, gone: seq<Mr>, lo: nat, hi: nat, j: nat)
    requires lo < hi <= |rs| && j < hi - lo && gone == rs[lo + 1..hi] + [rs[lo]]
    ensures gone[j] == rs[if j + 1 < hi - lo then lo + 1 + j else lo]
  {
  }

  method RemoveAll(t0: Tree, ghost rs: seq<Mr>, gone: seq<Mr>, ghost lo: nat, ghost hi: nat) returns (t: Tree)
    requires rs == InOrder(t0) && Keyed(rs) && lo <= hi <= |rs|
    requires gone == if lo < hi then rs[lo + 1..hi] + [rs[lo]] else []
    ensures InOrder(t) == rs[..lo] + rs[hi..]
  {
    t := t0;
    if |gone| == 0 {
      assert rs[..lo] + rs[hi..] == rs;
      return;
    }
    assert Kept(rs, lo, hi, 0) == rs;
    for j := 0 to |gone|
      invariant InOrder(t) == Kept(rs, lo, hi, j)
    {
      KeptStep(t, rs, gone, lo, hi, j);
      t := Remove(t, gone[j].addr);
    }
  }

  // ---------------------------------------------------------------------------
  // The cache
  // ---------------------------------------------------------------------------

  ghost predicate Cookies(rs: seq<Mr>, next: nat) {
    && (forall i :: 0 <= i < |rs| ==> rs[i].cookie < next)
    && (forall i, j :: 0 <= i < j < |rs| ==> rs[i].cookie != rs[j].cookie)
  }

  lemma ReplacedCookies(rs: seq<Mr>, lo: nat, hi: nat, mr: Mr, next: nat)
    requires Cookies(rs, next) && lo <= hi <= |rs| && mr.cookie == next
    ensures Cookies(Replaced(rs, lo, hi, mr), next + 1)
  {
    var rs' := Replaced(rs, lo, hi, mr);
    assert forall i :: 0 <= i < |rs'| ==>
      rs'[i] == if i < lo then rs[i] else if i == lo then mr else rs[i + hi - lo - 1];
  }

  ghost predicate Hit(rs: seq<Mr>, start: nat, length: nat) {
    exists i :: 0 <= i < |rs| && rs[i].Fits(start, length)
  }

  lemma KeptSplits(rs: seq<Mr>, lo: nat, hi: nat, mr: Mr, kept: seq<Mr>)
    requires Keyed(rs) && lo <= hi <= |rs| && kept == rs[..lo] + rs[hi..]
    requires forall i :: 0 <= i < lo ==> rs[i].addr < mr.addr
    requires forall i :: hi <= i < |rs| ==> mr.addr < rs[i].addr
    ensures Keyed(kept) && Splits(kept, mr.addr, lo)
    ensures forall x :: x in kept ==> x.addr != mr.addr
    ensures kept[..lo] == rs[..lo] && kept[lo..] == rs[hi..]
  {
    assert forall i :: 0 <= i < |kept| ==> kept[i] == rs[if i < lo then i else i + hi - lo];
  }

  /** Inserting the rounded region into what RemoveAll left never meets its own key. */
  lemma InsertMerged(t: Tree, rs: seq<Mr>, page: nat, start: nat, length: nat, s: nat, len: nat, lo: nat, hi: nat, mr: Mr)
    requires page > 0 && Regions(rs, page) && Span(rs, start, length, s, len, lo, hi)
    requires hi < |rs| ==> s + len < rs[hi].addr
    requires mr == Rounded(s, len, page, mr.cookie)
    requires InOrder(t) == rs[..lo] + rs[hi..]
    ensures InOrder(Insert(t, mr)) == Replaced(rs, lo, hi, mr)
  {
    Clear(rs, page, start, length, s, len, lo, hi, mr);
    RegionsKeyed(rs, page);
    forall i | hi <= i < |rs|
      ensures mr.addr < rs[i].addr
    {
      assert rs[hi].addr <= rs[i].addr;
    }
    forall i | 0 <= i < lo
      ensures rs[i].addr < mr.addr
    {
      assert rs[i].length > 0;
    }
    KeptSplits(rs, lo, hi, mr, InOrder(t));
    InsertAt(t, mr, lo);
  }

  /** A zero-length request that touches a region is held by it. */
  lemma TouchedHolds(rs: seq<Mr>, start: nat, s: nat, len: nat, lo: nat, hi: nat)
    requires Span(rs, start, 0, s, len, lo, hi) && len > 0
    ensures !Misses(rs, start, 0)
  {
    var a := if start < s + len then start else start - 1;
    assert Within(s, len, a);
    var i :| lo <= i < hi && rs[i].Has(a);
    assert rs[i].Fits(start, 0);
  }

  lemma EmptyWhen(rs: seq<Mr>, page: nat, start: nat, length: nat, s: nat, len: nat, lo: nat, hi: nat, mr: Mr)
    requires page > 0 && Regions(rs, page) && Span(rs, start, length, s, len, lo, hi)
    requires Misses(rs, start, length)
    requires mr == Rounded(s, len, page, mr.cookie)
    ensures mr.length == 0 <==> length == 0 && Aligned(start, page)
  {
    if length == 0 && Aligned(start, page) {
      if len > 0 {
        TouchedHolds(rs, start, s, len, lo, hi);
      }
      UpLeast(start, start, page);
    }
  }

  class Cache {
    const page: nat
    var tree: Tree
    var nextCookie: nat

    ghost predicate Valid()
      reads this
    {
      && page > 0
      && Regions(InOrder(tree), page)
      && Cookies(InOrder(tree), nextCookie)
    }

    constructor (pageSize: nat)
      requires pageSize > 0
      ensures Valid() && page == pageSize && InOrder(tree) == []
    {
      page := pageSize;
      tree := Leaf;
      nextCookie := 1;
    }

    /** mr_lookup on its cached path; registered is whether mr_create succeeds.  The only
        lookup that breaks the invariant is a zero-length one at a page boundary which no
        region holds: it registers an empty region. */
    method Lookup(start: nat, length: nat, registered: bool) returns (mr: Option<Mr>)
      requires Valid()
      modifies this
      ensures var was, now := old(InOrder(tree)), InOrder(tree);
        if Hit(was, start, length) || !registered
        then now == was && (Hit(was, start, length) <==> mr.Some?)
        else && mr.Some?
             && (exists lo: nat, hi: nat :: lo <= hi <= |was| && now == Replaced(was, lo, hi, mr.value))
             && mr.value.cookie == old(nextCookie)
             && forall a: nat :: Covered(now, a) <==>
                  Covered(was, a) || Down(start, page) <= a < Up(start + length, page)
      ensures mr.Some? ==> mr.value in InOrder(tree) && mr.value.Fits(start, length)
      ensures Valid() <==> length > 0 || !Aligned(start, page) || old(Hit(InOrder(tree), start, length)) || !registered
    {
      ghost var rs := InOrder(tree);
      RegionsKeyed(rs, page);
      var left;
      ghost var k;
      mr, left, k := Find(tree, start, length);
      if mr.Some? {
        return;
      }
      var s, len, gone;
      ghost var lo, hi;
      s, len, gone, lo, hi := Merge(tree, rs, start, length, left, k);
      if !registered {
        return;
      }
      var newMr := Rounded(s, len, page, nextCookie);
      nextCookie := nextCookie + 1;
      tree := RemoveAll(tree, rs, gone, lo, hi);
      InsertMerged(tree, rs, page, start, length, s, len, lo, hi, newMr);
      tree := Insert(tree, newMr);
      mr := Some(newMr);
      assert InOrder(tree)[lo] == newMr;
      Grown(rs, page, start, length, s, len, lo, hi, newMr, nextCookie);
    }

    /** Removal of the region named by a ummunotify cookie. */
    method Invalidate(cookie: nat) returns (ghost i: nat)
      requires Valid()
      modifies this`tree
      ensures Valid()
      ensures var was, now := old(InOrder(tree)), InOrder(tree);
        if i < |was| then
          && was[i].cookie == cookie
          && now == was[..i] + was[i + 1..]
          && forall a: nat :: Covered(now, a) <==> Covered(was, a) && !was[i].Has(a)
        else now == was && forall j :: 0 <= j < |was| ==> was[j].cookie != cookie
    {
      ghost var rs := InOrder(tree);
      RegionsKeyed(rs, page);
      MinIs(tree);
      var mr := Min(tree);
      i := 0;
      while mr.Some?
        invariant i <= |rs| && mr == Nth(rs, i) && tree == old(tree)
        invariant forall j :: 0 <= j < i ==> rs[j].cookie != cookie
        decreases |rs| - i
      {
        if mr.value.cookie == cookie {
          RemoveAt(tree, i);
          tree := Remove(tree, mr.value.addr);
          Shrunk(rs, page, i, nextCookie);
          break;
        }
        SplitAt(rs, i);
        NextIs(tree, mr.value.addr, i + 1);
        mr := Next(tree, mr.value.addr);
        i := i + 1;
      }
    }
  }

  lemma Shrunk(rs: seq<Mr>, page: nat, i: nat, next: nat)
    requires page > 0 && Regions(rs, page) && Cookies(rs, next) && i < |rs|
    ensures var now := rs[..i] + rs[i + 1..];
      && Regions(now, page) && Cookies(now, next)
      && forall a: nat :: Covered(now, a) <==> Covered(rs, a) && !rs[i].Has(a)
  {
    var now := rs[..i] + rs[i + 1..];
    assert forall j :: 0 <= j < |now| ==> now[j] == rs[if j < i then j else j + 1];
    forall a: nat
      ensures Covered(now, a) <==> Covered(rs, a) && !rs[i].Has(a)
    {
      ShrunkCover(rs, i, a);
    }
  }

  lemma ShrunkCover(rs: seq<Mr>, i: nat, a: nat)
    requires Apart(rs) && i < |rs|
    ensures Covered(rs[..i] + rs[i + 1..], a) <==> Covered(rs, a) && !rs[i].Has(a)
  {
    var now := rs[..i] + rs[i + 1..];
    if j :| 0 <= j < |now| && now[j].Has(a) {
      assert rs[if j < i then j else j + 1].Has(a);
    }
    if j :| 0 <= j < |rs| && j != i && rs[j].Has(a) {
      assert now[if j < i then j else j - 1].Has(a);
    }
  }

  lemma DownIs(base: nat, a: nat, page: nat)
    requires page > 0 && Aligned(base, page) && base <= a < base + page
    ensures Down(a, page) == base
  {
    DownGreatest(base, a, page);
    CloseMultiples(base / page, a / page, page);
  }

  /** Why an empty region must not get in.  On any cache, a zero-length lookup at a page
      boundary registers one; a later request from inside its page then misses it, is not
      merged with it, rounds to the same key, and is not inserted. */
  method EmptyRegionCollides(page: nat, base: nat, start: nat, length: nat) returns (tree: Tree, held: Mr)
    requires page > 0 && Aligned(base, page) && base < start < base + page && length > 0
    ensures held.addr == base && held.length == 0 && tree == Node(Leaf, held, Leaf)
    ensures Misses(InOrder(tree), start, length) && held.End() < start
    ensures forall cookie :: Insert(tree, Rounded(start, length, page, cookie)) == tree
    ensures !Covered(InOrder(tree), start)
  {
    var cache := new Cache(page);
    var mr := cache.Lookup(base, 0, true);
    tree, held := cache.tree, mr.value;
    assert InOrder(tree) == [held];
    DownIs(base, base, page);
    UpLeast(base, base, page);
    Singleton(tree, held);
    assert held.Has(held.addr) ==> Covered(InOrder(tree), held.addr);
    DownIs(base, start, page);
  }

  lemma Singleton(t: Tree, mr: Mr)
    requires InOrder(t) == [mr]
    ensures t == Node(Leaf, mr, Leaf)
  {
    assert InOrder(t)[|InOrder(t.left)|] == t.mr;
    NoRegions(t.left);
    NoRegions(t.right);
  }

  lemma NoRegions(t: Tree)
    requires InOrder(t) == []
    ensures t == Leaf
  {
  }

  /** The whole effect of a miss on the list of regions. */
  lemma Grown(rs: seq<Mr>, page: nat, start: nat, length: nat, s: nat, len: nat, lo: nat, hi: nat, mr: Mr, next: nat)
    requires page > 0 && Regions(rs, page) && Span(rs, start, length, s, len, lo, hi)
    requires Misses(rs, start, length) && Cookies(rs, mr.cookie) && next == mr.cookie + 1
    requires hi < |rs| ==> s + len < rs[hi].addr
    requires mr == Rounded(s, len, page, mr.cookie)
    ensures var now := Replaced(rs, lo, hi, mr);
      && (Regions(now, page) <==> length > 0 || !Aligned(start, page))
      && Cookies(now, next)
      && forall a: nat :: Covered(now, a) <==> Covered(rs, a) || Down(start, page) <= a < Up(start + length, page)
  {
    EmptyWhen(rs, page, start, length, s, len, lo, hi, mr);
    ReplacedCookies(rs, lo, hi, mr, mr.cookie);
    if mr.length > 0 {
      Clear(rs, page, start, length, s, len, lo, hi, mr);
      ReplacedRegions(rs, page, lo, hi, mr);
    } else {
      assert Replaced(rs, lo, hi, mr)[lo] == mr;
    }
    forall a: nat
      ensures Covered(Replaced(rs, lo, hi, mr), a) <==> Covered(rs, a) || Down(start, page) <= a < Up(start + length, page)
    {
      RoundedCover(rs, page, start, length, s, len, lo, hi, mr, a);
      ReplacedCover(rs, lo, hi, mr, a);
    }
  }
}
