/** Scattered memory: lists of segments, the flat list of addresses they stand for, and
    reading and writing through such a list. */
module Segments {

  newtype Byte = x: int | 0 <= x < 256

  /** ptl_iovec_t */
  datatype Seg = Seg(base: nat, len: nat)

  function Range(base: nat, len: nat): (r: seq<nat>)
    ensures |r| == len && forall i :: 0 <= i < len ==> r[i] == base + i
  {
    seq(len, i requires 0 <= i => base + i)
  }

  /** The bytes before segment i. */
  function Off(segs: seq<Seg>, i: nat): nat
    requires i <= |segs|
  {
    if i == 0 then 0 else Off(segs, i - 1) + segs[i - 1].len
  }

  function Total(segs: seq<Seg>): nat { Off(segs, |segs|) }

  /** The addresses of the first i segments, in order. */
  function AddrsTo(segs: seq<Seg>, i: nat): (r: seq<nat>)
    requires i <= |segs|
    ensures |r| == Off(segs, i)
  {
    if i == 0 then [] else AddrsTo(segs, i - 1) + Range(segs[i - 1].base, segs[i - 1].len)
  }

  function Addrs(segs: seq<Seg>): seq<nat> { AddrsTo(segs, |segs|) }

  lemma {:induction false} OffGrows(segs: seq<Seg>, i: nat, j: nat)
    requires i <= j <= |segs|
    ensures Off(segs, i) <= Off(segs, j)
  {
    if i == j {
    } else {
      OffGrows(segs, i, j - 1);
    }
  }

  lemma {:induction false} AddrsPrefix(segs: seq<Seg>, i: nat, j: nat)
    requires i <= j <= |segs|
    ensures AddrsTo(segs, i) <= AddrsTo(segs, j)
  {
    if i == j {
    } else {
      AddrsPrefix(segs, i, j - 1);
    }
  }

  /** n entries of a flat list from d on are the addresses a, a + 1, ... */
  ghost predicate Consecutive(r: seq<nat>, d: nat, a: nat, n: nat) {
    d + n <= |r| && forall k :: d <= k < d + n ==> r[k] == a + k - d
  }

  /** n bytes at offset o of segment i are consecutive in the flat list. */
  lemma Piece(segs: seq<Seg>, i: nat, o: nat, n: nat)
    requires i < |segs| && o + n <= segs[i].len
    ensures Consecutive(Addrs(segs), Off(segs, i) + o, segs[i].base + o, n)
  {
    AddrsPrefix(segs, i + 1, |segs|);
    var a, b := Addrs(segs), AddrsTo(segs, i + 1);
    assert forall k :: 0 <= k < |b| ==> a[k] == b[k];
  }

  predicate Fits(segs: seq<Seg>, size: nat) {
    forall i :: 0 <= i < |segs| ==> segs[i].base + segs[i].len <= size
  }

  predicate Inside(addrs: seq<nat>, size: nat) {
    forall i :: 0 <= i < |addrs| ==> addrs[i] < size
  }

  lemma {:induction false} FitsInside(segs: seq<Seg>, i: nat, size: nat)
    requires Fits(segs, size) && i <= |segs|
    ensures Inside(AddrsTo(segs, i), size)
  {
    if i == 0 {
    } else {
      FitsInside(segs, i - 1, size);
    }
  }

  // ---------------------------------------------------------------------------
  // Copying through lists of addresses
  // ---------------------------------------------------------------------------

  /** was after the first d bytes of the flat source have been copied, byte by byte, to the
      flat destination: where addresses repeat, the last write stays. */
  function Copied(was: seq<Byte>, dst: seq<nat>, from: seq<Byte>, src: seq<nat>, d: nat): (r: seq<Byte>)
    requires d <= |dst| && d <= |src| && Inside(dst, |was|) && Inside(src, |from|)
    ensures |r| == |was|
  {
    if d == 0 then was else Copied(was, dst, from, src, d - 1)[dst[d - 1] := from[src[d - 1]]]
  }

  predicate Distinct(addrs: seq<nat>) {
    forall i, j :: 0 <= i < j < |addrs| ==> addrs[i] != addrs[j]
  }

  /** With no destination address twice, each one copied to holds its source byte. */
  lemma {:induction false} CopiedHit(was: seq<Byte>, dst: seq<nat>, from: seq<Byte>, src: seq<nat>, d: nat, i: nat)
    requires d <= |dst| && d <= |src| && Inside(dst, |was|) && Inside(src, |from|)
    requires Distinct(dst) && i < d
    ensures Copied(was, dst, from, src, d)[dst[i]] == from[src[i]]
  {
    if i == d - 1 {
    } else {
      CopiedHit(was, dst, from, src, d - 1, i);
    }
  }

  /** No other address changes. */
  lemma {:induction false} CopiedMiss(was: seq<Byte>, dst: seq<nat>, from: seq<Byte>, src: seq<nat>, d: nat, a: nat)
    requires d <= |dst| && d <= |src| && Inside(dst, |was|) && Inside(src, |from|) && a < |was|
    requires forall i :: 0 <= i < d ==> dst[i] != a
    ensures Copied(was, dst, from, src, d)[a] == was[a]
  {
    if d == 0 {
    } else {
      CopiedMiss(was, dst, from, src, d - 1, a);
    }
  }

  /** part is the stretch of all from off on. */
  predicate Stretch(part: seq<nat>, all: seq<nat>, off: nat) {
    off + |part| <= |all| && forall k :: 0 <= k < |part| ==> part[k] == all[off + k]
  }

  lemma StretchDistinct(part: seq<nat>, all: seq<nat>, off: nat)
    requires Stretch(part, all, off) && Distinct(all)
    ensures Distinct(part)
  {
  }

  /** Bytes copied from the front of src are read back. */
  lemma SpliceHit(mem: seq<Byte>, part: seq<nat>, src: seq<Byte>, k: nat)
    requires Inside(part, |mem|) && Distinct(part) && |part| <= |src| && k < |part|
    ensures Copied(mem, part, src, Range(0, |part|), |part|)[part[k]] == src[k]
  {
    CopiedHit(mem, part, src, Range(0, |part|), |part|, k);
  }

  /** The flat view of a copy into a stretch of it, where it was copied to. */
  lemma SpliceIn(mem: seq<Byte>, all: seq<nat>, off: nat, part: seq<nat>, src: seq<Byte>, k: nat)
    requires Inside(all, |mem|) && Inside(part, |mem|) && Distinct(all) && k < |part|
    requires Stretch(part, all, off) && |part| <= |src|
    ensures Copied(mem, part, src, Range(0, |part|), |part|)[all[off + k]] == src[k]
  {
    StretchDistinct(part, all, off);
    SpliceHit(mem, part, src, k);
  }

  /** Copied out to the front of dst again, they are what was copied in. */
  lemma BackAt(mem: seq<Byte>, part: seq<nat>, src: seq<Byte>, dst: seq<Byte>, mem': seq<Byte>, i: nat)
    requires Inside(part, |mem|) && Distinct(part) && |part| <= |src| && |part| <= |dst| && i < |dst|
    requires mem' == Copied(mem, part, src, Range(0, |part|), |part|)
    ensures Copied(dst, Range(0, |part|), mem', part, |part|)[i] == if i < |part| then src[i] else dst[i]
  {
    if i < |part| {
      CopiedHit(dst, Range(0, |part|), mem', part, |part|, i);
      CopiedHit(mem, part, src, Range(0, |part|), |part|, i);
    } else {
      CopiedMiss(dst, Range(0, |part|), mem', part, |part|, i);
    }
  }

  lemma Front(x: seq<Byte>, a: seq<Byte>, b: seq<Byte>, n: nat)
    requires |x| == |b| && n <= |a| && n <= |b|
    requires forall i :: 0 <= i < |x| ==> x[i] == if i < n then a[i] else b[i]
    ensures x == a[..n] + b[n..]
  {
  }

  lemma Back(mem: seq<Byte>, part: seq<nat>, src: seq<Byte>, dst: seq<Byte>, mem': seq<Byte>, dst': seq<Byte>)
    requires Inside(part, |mem|) && Distinct(part) && |part| <= |src| && |part| <= |dst|
    requires mem' == Copied(mem, part, src, Range(0, |part|), |part|)
    requires dst' == Copied(dst, Range(0, |part|), mem', part, |part|)
    ensures dst' == src[..|part|] + dst[|part|..]
  {
    forall i | 0 <= i < |dst'|
      ensures dst'[i] == if i < |part| then src[i] else dst[i]
    {
      BackAt(mem, part, src, dst, mem', i);
    }
    Front(dst', src, dst, |part|);
  }

  /** memcpy of the next n bytes of a copy, consecutive on both sides. */
  method Memcpy(into: array<Byte>, x: nat, of: array<Byte>, y: nat, n: nat,
                ghost was: seq<Byte>, ghost dst: seq<nat>, ghost from: seq<Byte>, ghost src: seq<nat>, ghost d: nat)
    requires into != of && x + n <= into.Length == |was| && y + n <= of.Length && of[..] == from
    requires Inside(dst, |was|) && Inside(src, |from|)
    requires Consecutive(dst, d, x, n) && Consecutive(src, d, y, n)
    requires into[..] == Copied(was, dst, from, src, d)
    modifies into
    ensures into[..] == Copied(was, dst, from, src, d + n) && of[..] == from
  {
    for i := 0 to n
      invariant of[..] == from && into[..] == Copied(was, dst, from, src, d + i)
    {
      assert dst[d + i] == x + i && src[d + i] == y + i;
      into[x + i] := of[y + i];
    }
  }
}
