/** The iovec copies between scattered user memory and a linear buffer, and the count of
    the elements a range needs. */
module Iovec {
  import opened Segments

  function Min(a: nat, b: nat): nat { if a < b then a else b }

  /** The bytes a copy at offset moves. */
  function Room(segs: seq<Seg>, offset: nat, length: nat): (n: nat)
    ensures (offset + n <= Total(segs) || n == 0) && n <= length
  {
    if offset > Total(segs) then 0 else Min(length, Total(segs) - offset)
  }

  function Part(segs: seq<Seg>, offset: nat, length: nat): (r: seq<nat>)
    ensures |r| == Room(segs, offset, length)
  {
    var n := Room(segs, offset, length);
    if offset > Total(segs) then [] else Addrs(segs)[offset..offset + n]
  }

  /** Where the copy loops stand: d bytes done, len to go, next at offset off of segment i. */
  ghost predicate Cursor(segs: seq<Seg>, offset: nat, length: nat, i: nat, off: nat, d: nat, len: nat) {
    && i <= |segs| && d + len == length
    && (i < |segs| ==> off <= segs[i].len)
    && (i == |segs| ==> off == 0)
    && offset + d <= Total(segs)
    && (len > 0 ==> Off(segs, i) + off == offset + d)
  }

  lemma CursorStep(segs: seq<Seg>, offset: nat, length: nat, i: nat, off: nat, d: nat, len: nat, bytes: nat)
    requires Cursor(segs, offset, length, i, off, d, len) && i < |segs| && len > 0
    requires bytes == Min(segs[i].len - off, len)
    ensures Cursor(segs, offset, length, i + 1, 0, d + bytes, len - bytes)
    ensures d + bytes <= Room(segs, offset, length)
  {
    OffGrows(segs, i + 1, |segs|);
    assert Off(segs, i + 1) == Off(segs, i) + segs[i].len;
  }

  /** The next bytes of the range are consecutive in segment i, and in the linear buffer. */
  lemma NextPiece(segs: seq<Seg>, offset: nat, length: nat, i: nat, off: nat, d: nat, n: nat)
    requires i < |segs| && off + n <= segs[i].len && Off(segs, i) + off == offset + d
    requires d + n <= Room(segs, offset, length) <= length
    ensures Consecutive(Part(segs, offset, length), d, segs[i].base + off, n)
    ensures Consecutive(Range(0, length), d, d, n)
  {
    Piece(segs, i, off, n);
    var part := Part(segs, offset, length);
    forall k | d <= k < d + n
      ensures part[k] == segs[i].base + off + k - d
    {
      assert part[k] == Addrs(segs)[offset + k];
    }
  }

  lemma PartInside(segs: seq<Seg>, offset: nat, length: nat, size: nat)
    requires Fits(segs, size)
    ensures Inside(Part(segs, offset, length), size)
  {
    FitsInside(segs, |segs|, size);
  }

  lemma CursorEnd(segs: seq<Seg>, offset: nat, length: nat, i: nat, off: nat, d: nat, len: nat)
    requires Cursor(segs, offset, length, i, off, d, len) && (i == |segs| || len == 0)
    ensures len == 0 <==> offset + length <= Total(segs)
    ensures d == Room(segs, offset, length)
  {
  }

  /** The first segment that reaches offset; its end will do. */
  method SkipOut(segs: seq<Seg>, offset: nat) returns (i: nat, off: nat)
    ensures i <= |segs| && Off(segs, i) + off == offset
    ensures i < |segs| <==> segs != [] && offset <= Total(segs)
    ensures i < |segs| ==> off <= segs[i].len
  {
    i, off := 0, offset;
    while i < |segs| && off > segs[i].len
      invariant i <= |segs| && Off(segs, i) + off == offset && (i > 0 ==> off > 0)
    {
      off := off - segs[i].len;
      i := i + 1;
    }
    if i < |segs| {
      OffGrows(segs, i + 1, |segs|);
    }
  }

  /** The segment that holds the byte at offset. */
  method SkipIn(segs: seq<Seg>, offset: nat) returns (i: nat, off: nat)
    ensures i <= |segs| && Off(segs, i) + off == offset
    ensures i < |segs| <==> offset < Total(segs)
    ensures i < |segs| ==> off < segs[i].len
  {
    i, off := 0, offset;
    while i < |segs| && off >= segs[i].len
      invariant i <= |segs| && Off(segs, i) + off == offset
    {
      off := off - segs[i].len;
      i := i + 1;
    }
    if i < |segs| {
      OffGrows(segs, i + 1, |segs|);
    }
  }

  /** iov_copy_out: a range of an iovec into dst.  It fails, after copying what there is,
      exactly when the range does not fit. */
  method CopyOut(dst: array<Byte>, mem: array<Byte>, segs: seq<Seg>, offset: nat, length: nat) returns (ok: bool)
    requires dst != mem && Fits(segs, mem.Length) && length <= dst.Length
    modifies dst
    ensures ok <==> segs != [] && offset + length <= Total(segs)
    ensures Inside(Part(segs, offset, length), mem.Length)
    ensures dst[..] == Copied(old(dst[..]), Range(0, length), mem[..], Part(segs, offset, length), Room(segs, offset, length))
  {
    ghost var was, from, line, part := dst[..], mem[..], Range(0, length), Part(segs, offset, length);
    PartInside(segs, offset, length, mem.Length);
    var i, off := SkipOut(segs, offset);
    if i >= |segs| {
      return false;
    }
    var d, len: nat := 0, length;
    while i < |segs| && len > 0
      invariant 0 <= d <= |part| && Cursor(segs, offset, length, i, off, d, len)
      invariant mem[..] == from && dst[..] == Copied(was, line, from, part, d)
    {
      var bytes := Min(segs[i].len - off, len);
      CursorStep(segs, offset, length, i, off, d, len, bytes);
      NextPiece(segs, offset, length, i, off, d, bytes);
      Memcpy(dst, d, mem, segs[i].base + off, bytes, was, line, from, part, d);
      i, off, d, len := i + 1, 0, d + bytes, len - bytes;
    }
    CursorEnd(segs, offset, length, i, off, d, len);
    ok := len == 0;
  }

  /** iov_copy_in: src into a range of an iovec.  Unlike iov_copy_out it refuses a range
      that starts at the very end, even an empty one. */
  method CopyIn(src: array<Byte>, mem: array<Byte>, segs: seq<Seg>, offset: nat, length: nat) returns (ok: bool)
    requires src != mem && Fits(segs, mem.Length) && length <= src.Length
    modifies mem
    ensures ok <==> offset < Total(segs) && offset + length <= Total(segs)
    ensures Inside(Part(segs, offset, length), mem.Length)
    ensures mem[..] == Copied(old(mem[..]), Part(segs, offset, length), src[..], Range(0, length), Room(segs, offset, length))
  {
    ghost var was, from, line, part := mem[..], src[..], Range(0, length), Part(segs, offset, length);
    PartInside(segs, offset, length, mem.Length);
    var i, off := SkipIn(segs, offset);
    if i >= |segs| {
      return false;
    }
    var d, len: nat := 0, length;
    while i < |segs| && len > 0
      invariant 0 <= d <= |part| && Cursor(segs, offset, length, i, off, d, len)
      invariant src[..] == from && mem[..] == Copied(was, part, from, line, d)
    {
      var bytes := Min(segs[i].len - off, len);
      CursorStep(segs, offset, length, i, off, d, len, bytes);
      NextPiece(segs, offset, length, i, off, d, bytes);
      Memcpy(mem, segs[i].base + off, src, d, bytes, was, part, from, line, d);
      i, off, d, len := i + 1, 0, d + bytes, len - bytes;
    }
    CursorEnd(segs, offset, length, i, off, d, len);
    ok := len == 0;
  }

  /** The byte at offset lies in segment i. */
  predicate Holds(segs: seq<Seg>, i: nat, offset: nat) {
    i < |segs| && Off(segs, i) <= offset < Off(segs, i) + segs[i].len
  }

  lemma HoldsUnique(segs: seq<Seg>, i: nat, j: nat, offset: nat)
    requires Holds(segs, i, offset) && Holds(segs, j, offset)
    ensures i == j
  {
    if i < j {
      OffGrows(segs, i + 1, j);
    } else if j < i {
      OffGrows(segs, j + 1, i);
    }
  }

  /** iov_count_elem: the element holding the start of the range, the offset in it, and
      the least number of elements from there that cover the range; -1 exactly when the
      range does not lie in the iovec. */
  method CountElem(segs: seq<Seg>, offset: nat, length: nat) returns (count: int, start: nat, base: nat)
    ensures count == -1 <==> !(offset < Total(segs) && offset + length <= Total(segs))
    ensures count != -1 ==>
      && Holds(segs, start, offset) && Off(segs, start) + base == offset
      && count >= 1 && start + count <= |segs| && offset + length <= Off(segs, start + count)
      && forall n :: start < n < start + count ==> Off(segs, n) < offset + length
  {
    start, base := SkipIn(segs, offset);
    if start == |segs| {
      return -1, start, base;
    }
    var len: nat := length + base;
    var stop := start;
    while stop < |segs|
      invariant start <= stop <= |segs|
      invariant Off(segs, stop) + len == offset + length
      invariant forall n :: start < n <= stop ==> Off(segs, n) < offset + length
    {
      if len <= segs[stop].len {
        OffGrows(segs, stop + 1, |segs|);
        return stop - start + 1, start, base;
      }
      len := len - segs[stop].len;
      stop := stop + 1;
    }
    count := -1;
  }

  // ---------------------------------------------------------------------------
  // The two copies undo each other
  // ---------------------------------------------------------------------------

  /** Bytes copied into an iovec with no address twice are spliced into its flat view: the
      range holds them. */
  lemma CopyInSplices(mem: seq<Byte>, src: seq<Byte>, segs: seq<Seg>, offset: nat, length: nat, k: nat)
    requires Fits(segs, |mem|) && Distinct(Addrs(segs)) && offset + length <= Total(segs) && length <= |src|
    requires k < length
    ensures Inside(Addrs(segs), |mem|) && Inside(Part(segs, offset, length), |mem|)
    ensures var mem' := Copied(mem, Part(segs, offset, length), src, Range(0, length), length);
      mem'[Addrs(segs)[offset + k]] == src[k]
  {
    FitsInside(segs, |segs|, |mem|);
    PartInside(segs, offset, length, |mem|);
    SpliceIn(mem, Addrs(segs), offset, Part(segs, offset, length), src, k);
  }

  /** The flat view is unchanged outside the range, and so is memory outside the iovec. */
  lemma CopyInKeeps(mem: seq<Byte>, src: seq<Byte>, segs: seq<Seg>, offset: nat, length: nat, a: nat)
    requires Fits(segs, |mem|) && offset + length <= Total(segs) && length <= |src| && a < |mem|
    requires a !in Part(segs, offset, length)
    ensures Inside(Part(segs, offset, length), |mem|)
    ensures Copied(mem, Part(segs, offset, length), src, Range(0, length), length)[a] == mem[a]
  {
    PartInside(segs, offset, length, |mem|);
    CopiedMiss(mem, Part(segs, offset, length), src, Range(0, length), length, a);
  }

  /** Copied out again, they are what was copied in. */
  lemma RoundTrip(mem: seq<Byte>, src: seq<Byte>, segs: seq<Seg>, offset: nat, length: nat, dst: seq<Byte>)
    requires Fits(segs, |mem|) && Distinct(Addrs(segs)) && offset + length <= Total(segs)
    requires length <= |src| && length <= |dst|
    ensures Inside(Part(segs, offset, length), |mem|)
    ensures var mem' := Copied(mem, Part(segs, offset, length), src, Range(0, length), length);
      Copied(dst, Range(0, length), mem', Part(segs, offset, length), length) == src[..length] + dst[length..]
  {
    PartInside(segs, offset, length, |mem|);
    var part := Part(segs, offset, length);
    StretchDistinct(part, Addrs(segs), offset);
    var mem' := Copied(mem, part, src, Range(0, length), length);
    Back(mem, part, src, dst, mem', Copied(dst, Range(0, length), mem', part, length));
  }
}
