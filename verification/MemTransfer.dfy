/** The two-sided copy of mem_do_transfer: scattered local memory on one side, the remote
    segments of the peer on the other, in either direction, with a cursor on each side.
    The registration lookups succeed here. */
module MemTransfer {
  import opened Segments

  /** rdma_dir */
  datatype Dir = DataIn | DataOut

  /** The build: KNEM copies through an offset that includes the remote cursor; the PPE
      copies from the start of the current remote segment. */
  datatype Build = Knem | Ppe

  function Min(a: nat, b: nat): nat { if a < b then a else b }

  /** A cursor at offset off of segment i. */
  predicate At(segs: seq<Seg>, i: nat, off: nat) {
    && i <= |segs|
    && (if i < |segs| then off <= segs[i].len else off == 0)
  }

  function Pos(segs: seq<Seg>, i: nat, off: nat): nat
    requires At(segs, i, off)
  {
    Off(segs, i) + off
  }

  /** The flat list from a cursor on. */
  function Rest(segs: seq<Seg>, p: nat): (r: seq<nat>)
    requires p <= Total(segs)
    ensures |r| == Total(segs) - p
  {
    Addrs(segs)[p..]
  }

  lemma RestPiece(segs: seq<Seg>, p: nat, i: nat, off: nat, d: nat, n: nat)
    requires p <= Total(segs) && i < |segs| && off + n <= segs[i].len && Off(segs, i) + off == p + d
    ensures Consecutive(Rest(segs, p), d, segs[i].base + off, n)
  {
    Piece(segs, i, off, n);
    forall k | d <= k < d + n
      ensures Rest(segs, p)[k] == segs[i].base + off + k - d
    {
      assert Rest(segs, p)[k] == Addrs(segs)[p + k];
    }
  }

  /** Both memories after d bytes have crossed, from one side's flat list to the other's. */
  function Crossed(dir: Dir, loc0: seq<Byte>, rem0: seq<Byte>, l: seq<nat>, r: seq<nat>, d: nat): (seq<Byte>, seq<Byte>)
    requires d <= |l| && d <= |r| && Inside(l, |loc0|) && Inside(r, |rem0|)
  {
    match dir
    case DataIn => (Copied(loc0, l, rem0, r, d), rem0)
    case DataOut => (loc0, Copied(rem0, r, loc0, l, d))
  }

  /** The arrays hold both memories after d bytes have crossed. */
  ghost predicate Carried(dir: Dir, loc: array<Byte>, rem: array<Byte>, loc0: seq<Byte>, rem0: seq<Byte>,
                          l: seq<nat>, r: seq<nat>, d: nat)
    reads loc, rem
  {
    && loc != rem && loc.Length == |loc0| && rem.Length == |rem0|
    && Inside(l, |loc0|) && Inside(r, |rem0|) && d <= |l| && d <= |r|
    && (loc[..], rem[..]) == Crossed(dir, loc0, rem0, l, r, d)
  }

  /** copy_mem_to_mem of n bytes that are consecutive on both sides. */
  method CopyMemToMem(dir: Dir, loc: array<Byte>, x: nat, rem: array<Byte>, y: nat, n: nat, ghost loc0: seq<Byte>,
                      ghost rem0: seq<Byte>, ghost l: seq<nat>, ghost r: seq<nat>, ghost d: nat)
    requires x + n <= loc.Length && y + n <= rem.Length && Carried(dir, loc, rem, loc0, rem0, l, r, d)
    requires Consecutive(l, d, x, n) && Consecutive(r, d, y, n)
    modifies loc, rem
    ensures Carried(dir, loc, rem, loc0, rem0, l, r, d + n)
  {
    match dir
    case DataIn => Memcpy(loc, x, rem, y, n, loc0, l, rem0, r, d);
    case DataOut => Memcpy(rem, y, loc, x, n, rem0, r, loc0, l, d);
  }

  // ---------------------------------------------------------------------------
  // One remote segment
  // ---------------------------------------------------------------------------

  /** Both cursors after d bytes of a transfer: the local one at offset off of segment i,
      the remote one a run of len addresses from a on.  Without an iovec (num_iov == 0) the
      local side is one region, and large enough. */
  ghost predicate Cursors(iov: bool, segs: seq<Seg>, r: seq<nat>, p: nat, d: nat, i: nat, off: nat, a: nat, len: nat) {
    && At(segs, i, off) && Pos(segs, i, off) == p + d
    && Consecutive(r, d, a, len)
    && (!iov ==> |segs| == 1 && i == 0 && off + len <= segs[0].len)
  }

  lemma CursorsPiece(iov: bool, segs: seq<Seg>, r: seq<nat>, p: nat, d: nat, i: nat, off: nat, a: nat, len: nat, n: nat)
    requires Cursors(iov, segs, r, p, d, i, off, a, len) && i < |segs|
    requires n == Min(len, segs[i].len - off) && p <= Total(segs)
    ensures Consecutive(Rest(segs, p), d, segs[i].base + off, n)
    ensures Consecutive(r, d, a, n)
    ensures Cursors(iov, segs, r, p, d + n, i, off + n, a + n, len - n)
  {
    RestPiece(segs, p, i, off, d, n);
  }

  lemma CursorsNext(iov: bool, segs: seq<Seg>, r: seq<nat>, p: nat, d: nat, i: nat, off: nat, a: nat, len: nat)
    requires Cursors(iov, segs, r, p, d, i, off, a, len) && i < |segs| && off == segs[i].len && len > 0
    ensures Cursors(iov, segs, r, p, d, i + 1, 0, a, len)
  {
  }

  /** One turn of the loop in do_mem_copy. */
  method CopyTurn(dir: Dir, ghost iov: bool, segs: seq<Seg>, loc: array<Byte>, rem: array<Byte>, i: nat, off: nat,
                  a: nat, len: nat, ghost loc0: seq<Byte>, ghost rem0: seq<Byte>, ghost l: seq<nat>, ghost r: seq<nat>,
                  ghost p: nat, ghost d: nat)
    returns (left: nat, i': nat, off': nat, at: nat, ghost e: nat)
    requires Fits(segs, loc.Length) && a + len <= rem.Length && Carried(dir, loc, rem, loc0, rem0, l, r, d)
    requires Cursors(iov, segs, r, p, d, i, off, a, len) && i < |segs| && len > 0
    requires p <= Total(segs) && l == Rest(segs, p)
    modifies loc, rem
    ensures left <= len && i <= i' && (left < len || i < i') && e + left == d + len && at + left == a + len
    ensures Cursors(iov, segs, r, p, e, i', off', at, left)
    ensures Carried(dir, loc, rem, loc0, rem0, l, r, e)
  {
    var n := len;
    if n > segs[i].len - off {
      n := segs[i].len - off;
    }
    CursorsPiece(iov, segs, r, p, d, i, off, a, len, n);
    CopyMemToMem(dir, loc, segs[i].base + off, rem, a, n, loc0, rem0, l, r, d);
    i', off', left, at, e := i, off + n, len - n, a + n, d + n;
    if n < len && off' >= segs[i].len {
      CursorsNext(iov, segs, r, p, d + n, i, off', a + n, len - n);
      i', off' := i + 1, 0;
    }
  }

  /** do_mem_copy: a run of remote addresses against the local segments.  It stops short
      only at the end of the local iovec. */
  method DoMemCopy(dir: Dir, ghost iov: bool, segs: seq<Seg>, loc: array<Byte>, rem: array<Byte>, i0: nat, off0: nat,
                   a: nat, len: nat, ghost loc0: seq<Byte>, ghost rem0: seq<Byte>, ghost l: seq<nat>, ghost r: seq<nat>,
                   ghost p: nat, ghost d: nat)
    returns (done: nat, i: nat, off: nat)
    requires Fits(segs, loc.Length) && a + len <= rem.Length && Carried(dir, loc, rem, loc0, rem0, l, r, d)
    requires Cursors(iov, segs, r, p, d, i0, off0, a, len)
    requires p <= Total(segs) && l == Rest(segs, p)
    modifies loc, rem
    ensures done <= len && Cursors(iov, segs, r, p, d + done, i, off, a + done, len - done)
    ensures done < len ==> p + d + done == Total(segs)
    ensures Carried(dir, loc, rem, loc0, rem0, l, r, d + done)
  {
    i, off := i0, off0;
    var left, at := len, a;
    ghost var e := d;
    while left > 0
      invariant e + left == d + len && at + left == a + len
      invariant Cursors(iov, segs, r, p, e, i, off, at, left)
      invariant Carried(dir, loc, rem, loc0, rem0, l, r, e)
      decreases left, |segs| - i
    {
      if i >= |segs| {
        assert p + e == Total(segs);
        break;
      }
      left, i, off, at, e := CopyTurn(dir, iov, segs, loc, rem, i, off, at, left, loc0, rem0, l, r, p, e);
    }
    done := len - left;
  }

  // ---------------------------------------------------------------------------
  // The whole transfer
  // ---------------------------------------------------------------------------

  /** The remote addresses a transfer meets from offset off of segment c on.  The PPE build
      takes the rest of segment c from its start. */
  function Remote(build: Build, segs: seq<Seg>, c: nat, off: nat): (r: seq<nat>)
    requires c < |segs| && off <= segs[c].len
    ensures Off(segs, c + 1) <= Total(segs) && |r| == Total(segs) - (Off(segs, c) + off)
  {
    OffGrows(segs, c + 1, |segs|);
    Range(segs[c].base + (if build == Knem then off else 0), segs[c].len - off) + Addrs(segs)[Off(segs, c + 1)..]
  }

  /** What it should meet is the flat list from its remote cursor on.  KNEM always does;
      the PPE exactly when the cursor stands at the start of a segment. */
  lemma RemoteFlat(build: Build, segs: seq<Seg>, c: nat, off: nat)
    requires c < |segs| && off < segs[c].len
    ensures Off(segs, c) + off <= Total(segs)
    ensures Remote(build, segs, c, off) == Rest(segs, Off(segs, c) + off) <==> build == Knem || off == 0
  {
    OffGrows(segs, c + 1, |segs|);
    Piece(segs, c, off, segs[c].len - off);
    var p := Off(segs, c) + off;
    var r, want := Remote(build, segs, c, off), Rest(segs, p);
    assert want[0] == Addrs(segs)[p] == segs[c].base + off;
    assert r[0] == segs[c].base + if build == Knem then off else 0;
    if build == Knem || off == 0 {
      forall k | 0 <= k < |r|
        ensures r[k] == want[k]
      {
        RemoteAtKnem(build, segs, c, off, k);
      }
    }
  }

  lemma RemoteAtKnem(build: Build, segs: seq<Seg>, c: nat, off: nat, k: nat)
    requires c < |segs| && off < segs[c].len && (build == Knem || off == 0)
    requires k < |Remote(build, segs, c, off)|
    ensures Off(segs, c) + off + k < Total(segs)
    ensures Remote(build, segs, c, off)[k] == Addrs(segs)[Off(segs, c) + off + k]
  {
    OffGrows(segs, c + 1, |segs|);
    Piece(segs, c, off, segs[c].len - off);
  }

  /** The current segment's rest, and later segments in full. */
  lemma RemoteFirst(build: Build, segs: seq<Seg>, c: nat, off: nat, n: nat)
    requires c < |segs| && off + n <= segs[c].len
    ensures Consecutive(Remote(build, segs, c, off), 0, segs[c].base + (if build == Knem then off else 0), n)
  {
  }

  lemma RemoteLater(build: Build, segs: seq<Seg>, c: nat, off: nat, j: nat, n: nat)
    requires c < j < |segs| && off <= segs[c].len && n <= segs[j].len
    ensures Off(segs, c) + off <= Off(segs, j)
    ensures Consecutive(Remote(build, segs, c, off), Off(segs, j) - Off(segs, c) - off, segs[j].base, n)
  {
    OffGrows(segs, c + 1, j);
    Piece(segs, j, 0, n);
    var r, d := Remote(build, segs, c, off), Off(segs, j) - Off(segs, c) - off;
    forall k | d <= k < d + n
      ensures r[k] == segs[j].base + k - d
    {
      assert r[k] == Addrs(segs)[Off(segs, c) + off + k];
    }
  }

  lemma {:induction false} RemoteInside(build: Build, segs: seq<Seg>, c: nat, off: nat, size: nat)
    requires c < |segs| && off <= segs[c].len && Fits(segs, size)
    ensures Inside(Remote(build, segs, c, off), size)
  {
    FitsInside(segs, |segs|, size);
  }

  /** The remote cursor of a transfer begun at (c0, off0), after d bytes. */
  predicate RemoteAt(segs: seq<Seg>, c0: nat, off0: nat, c: nat, off: nat, d: nat) {
    && c0 <= c < |segs| && off0 <= segs[c0].len
    && (if c == c0 then off == off0 && d == 0 else off == 0 && Off(segs, c) == Off(segs, c0) + off0 + d)
  }

  lemma RemoteRun(build: Build, segs: seq<Seg>, c0: nat, off0: nat, c: nat, off: nat, d: nat, n: nat)
    requires RemoteAt(segs, c0, off0, c, off, d) && off + n <= segs[c].len
    ensures Consecutive(Remote(build, segs, c0, off0), d, segs[c].base + (if build == Knem then off else 0), n)
  {
    if c == c0 {
      RemoteFirst(build, segs, c0, off0, n);
    } else {
      RemoteLater(build, segs, c0, off0, c, n);
    }
  }

  /** The next segment, with bytes still to come. */
  lemma RemoteNext(segs: seq<Seg>, c0: nat, off0: nat, c: nat, off: nat, d: nat)
    requires RemoteAt(segs, c0, off0, c, off, d)
    requires Off(segs, c0) + off0 + (d + segs[c].len - off) < Total(segs)
    ensures RemoteAt(segs, c0, off0, c + 1, 0, d + segs[c].len - off)
  {
    assert Off(segs, c + 1) == Off(segs, c) + segs[c].len;
  }

  /** A transfer: what stays fixed, and where both cursors and the residue were at first. */
  datatype Task = Task(build: Build, dir: Dir, iov: bool, more: bool, local: seq<Seg>, remote: seq<Seg>,
                       index: nat, off: nat, c: nat, cOff: nat, total: nat) {
    /** Room for all the bytes at both cursors. */
    ghost predicate Ready() {
      && At(local, index, off) && Pos(local, index, off) + total <= Total(local)
      && (!iov ==> |local| == 1 && index == 0)
      && c < |remote| && cOff <= remote[c].len
      && Off(remote, c) + cOff + total <= Total(remote)
    }

    /** The flat position where the bytes end on the remote side. */
    ghost function End(): nat
      requires c < |remote|
    {
      Off(remote, c) + cOff + total
    }

    /** From offset ko of segment k, with d bytes gone: no remote segment that starts
        before the last byte is empty, and num_rem_iovecs (more) is set unless the current
        segment suffices. */
    ghost predicate SmoothFrom(k: nat, ko: nat, d: nat)
      requires c < |remote| && k < |remote|
    {
      && ko < remote[k].len
      && (forall i :: k < i < |remote| && Off(remote, i) < End() ==> remote[i].len > 0)
      && (more || d + remote[k].len - ko >= total)
    }

    ghost predicate Smooth()
      requires c < |remote|
    {
      total == 0 || SmoothFrom(c, cOff, 0)
    }

    ghost function Start(): nat
      requires Ready()
    {
      Pos(local, index, off)
    }

    /** The flat lists the bytes cross between. */
    ghost function Here(): (l: seq<nat>)
      requires Ready()
      ensures |l| >= total
    {
      Rest(local, Start())
    }

    ghost function There(): (r: seq<nat>)
      requires Ready()
      ensures |r| >= total
    {
      Remote(build, remote, c, cOff)
    }
  }

  /** After d bytes: the local cursor at (i, o), the remote one at (k, ko). */
  ghost predicate Reached(t: Task, d: nat, i: nat, o: nat, k: nat, ko: nat)
    requires t.Ready()
  {
    && d <= t.total
    && At(t.local, i, o) && Pos(t.local, i, o) == t.Start() + d && (!t.iov ==> i == 0)
    && k < |t.remote| && Off(t.remote, k) + ko == Off(t.remote, t.c) + t.cOff + d
  }

  /** Before a turn: the remote cursor is where a segment's bytes are still to come. */
  ghost predicate Going(t: Task, d: nat, i: nat, o: nat, k: nat, ko: nat)
    requires t.Ready()
  {
    && Reached(t, d, i, o, k, ko) && d < t.total
    && RemoteAt(t.remote, t.c, t.cOff, k, ko, d) && ko <= t.remote[k].len
    && (t.Smooth() <==> t.SmoothFrom(k, ko, d))
  }

  /** Before a turn or at the end: stopped short of an obstacle, under way, or done. */
  ghost predicate Status(t: Task, stop: bool, resid: nat, d: nat, i: nat, o: nat, k: nat, ko: nat)
    requires t.Ready()
  {
    && d + resid == t.total && Reached(t, d, i, o, k, ko)
    && if stop then resid > 0 && !t.Smooth() else if resid > 0 then Going(t, d, i, o, k, ko) else t.Smooth()
  }

  lemma GoReach(t: Task, d: nat, i: nat, o: nat, k: nat, ko: nat, n: nat, i': nat, o': nat)
    requires t.Ready() && Going(t, d, i, o, k, ko) && d + n <= t.total
    requires At(t.local, i', o') && Pos(t.local, i', o') == t.Start() + d + n && (!t.iov ==> i' == 0)
    ensures Reached(t, d + n, i', o', k, ko + n)
  {
  }

  lemma GoNext(t: Task, d: nat, i: nat, o: nat, k: nat, ko: nat, n: nat, i': nat, o': nat)
    requires t.Ready() && Going(t, d, i, o, k, ko) && d + n < t.total && n == t.remote[k].len - ko > 0 && t.more
    requires At(t.local, i', o') && Pos(t.local, i', o') == t.Start() + d + n && (!t.iov ==> i' == 0)
    ensures Going(t, d + n, i', o', k + 1, 0)
  {
    RemoteNext(t.remote, t.c, t.cOff, k, ko, d);
    SmoothNext(t, d, k, ko);
  }

  /** The next segment starts before the last byte. */
  lemma SmoothNext(t: Task, d: nat, k: nat, ko: nat)
    requires t.c < |t.remote| && k + 1 < |t.remote| && ko < t.remote[k].len && t.more
    requires Off(t.remote, k + 1) < t.End()
    ensures t.SmoothFrom(k, ko, d) <==> t.SmoothFrom(k + 1, 0, d + t.remote[k].len - ko)
  {
  }

  /** The last byte is in the current segment: whatever lay on the way was no obstacle. */
  lemma SmoothLast(t: Task, d: nat, i: nat, o: nat, k: nat, ko: nat)
    requires t.Ready() && Going(t, d, i, o, k, ko) && ko < t.remote[k].len && d + t.remote[k].len - ko >= t.total
    ensures t.Smooth()
  {
    forall j | k < j < |t.remote| ensures Off(t.remote, j) >= t.End() {
      OffGrows(t.remote, k + 1, j);
    }
  }

  /** The bytes to copy from a remote segment, and the segment's run in the flat list. */
  lemma GoRun(t: Task, d: nat, i: nat, o: nat, k: nat, ko: nat, n: nat)
    requires t.Ready() && Going(t, d, i, o, k, ko) && n == Min(t.remote[k].len - ko, t.total - d)
    ensures d + n <= t.total && t.Start() + d + n <= Total(t.local)
    ensures Consecutive(t.There(), d, t.remote[k].base + (if t.build == Knem then ko else 0), n)
    ensures Cursors(t.iov, t.local, t.There(), t.Start(), d, i, o, t.remote[k].base + (if t.build == Knem then ko else 0), n)
  {
    RemoteRun(t.build, t.remote, t.c, t.cOff, k, ko, d, n);
  }

  lemma TaskInside(t: Task, locSize: nat, remSize: nat)
    requires t.Ready() && Fits(t.local, locSize) && Fits(t.remote, remSize)
    ensures Inside(t.Here(), locSize) && Inside(t.There(), remSize)
  {
    FitsInside(t.local, |t.local|, locSize);
    RemoteInside(t.build, t.remote, t.c, t.cOff, remSize);
  }

  /** One remote segment, or what is left of it, or what is left to copy. */
  method CopySegment(t: Task, loc: array<Byte>, rem: array<Byte>, i: nat, o: nat, k: nat, ko: nat, length: nat,
                     ghost d: nat, ghost loc0: seq<Byte>, ghost rem0: seq<Byte>)
    returns (bytes: nat, i': nat, o': nat)
    requires t.Ready() && Fits(t.local, loc.Length) && Fits(t.remote, rem.Length)
    requires Going(t, d, i, o, k, ko) && length == Min(t.remote[k].len - ko, t.total - d)
    requires Carried(t.dir, loc, rem, loc0, rem0, t.Here(), t.There(), d)
    modifies loc, rem
    ensures bytes == length && d + bytes <= t.total
    ensures At(t.local, i', o') && Pos(t.local, i', o') == t.Start() + d + bytes && (!t.iov ==> i' == 0)
    ensures Carried(t.dir, loc, rem, loc0, rem0, t.Here(), t.There(), d + bytes)
  {
    GoRun(t, d, i, o, k, ko, length);
    var addr := t.remote[k].base;
    if t.build == Knem {
      addr := addr + ko;
    }
    bytes, i', o' := DoMemCopy(t.dir, t.iov, t.local, loc, rem, i, o, addr, length, loc0, rem0,
                               t.Here(), t.There(), t.Start(), d);
  }

  /** One turn of the loop in mem_do_transfer; stop is its failure return. */
  method TransferTurn(t: Task, loc: array<Byte>, rem: array<Byte>, i: nat, o: nat, k: nat, ko: nat, resid: nat,
                      ghost d: nat, ghost loc0: seq<Byte>, ghost rem0: seq<Byte>)
    returns (stop: bool, resid': nat, i': nat, o': nat, k': nat, ko': nat, ghost d': nat)
    requires t.Ready() && Fits(t.local, loc.Length) && Fits(t.remote, rem.Length)
    requires Status(t, false, resid, d, i, o, k, ko) && resid > 0
    requires Carried(t.dir, loc, rem, loc0, rem0, t.Here(), t.There(), d)
    modifies loc, rem
    ensures Status(t, stop, resid', d', i', o', k', ko') && resid' <= resid && (stop || resid' < resid)
    ensures Carried(t.dir, loc, rem, loc0, rem0, t.Here(), t.There(), d')
  {
    var length: nat := t.remote[k].len - ko;
    if length > resid {
      length := resid;
    }
    var bytes;
    bytes, i', o' := CopySegment(t, loc, rem, i, o, k, ko, length, d, loc0, rem0);
    d' := d + bytes;
    stop, resid', k', ko' := NextSegment(t, resid, d, i, o, k, ko, length, bytes, i', o');
  }

  /** What a turn does with the bytes copied: fail on none, stay in the segment or go to
      the next, if there is one. */
  method NextSegment(t: Task, resid: nat, ghost d: nat, ghost i: nat, ghost o: nat, k: nat, ko: nat, length: nat,
                     bytes: nat, ghost i': nat, ghost o': nat)
    returns (stop: bool, resid': nat, k': nat, ko': nat)
    requires t.Ready() && Status(t, false, resid, d, i, o, k, ko) && resid > 0
    requires bytes == length == Min(t.remote[k].len - ko, resid)
    requires At(t.local, i', o') && Pos(t.local, i', o') == t.Start() + d + bytes && (!t.iov ==> i' == 0)
    ensures Status(t, stop, resid', d + bytes, i', o', k', ko') && resid' <= resid && (stop || resid' < resid)
  {
    TurnStatus(t, resid, d, i, o, k, ko, bytes, i', o');
    resid' := resid - bytes;
    k', ko', stop := k, ko + bytes, bytes == 0;
    if bytes > 0 && resid' > 0 && ko' >= length {
      if !t.more {
        stop := true;
      } else {
        k', ko' := k + 1, 0;
      }
    }
  }

  lemma TurnStatus(t: Task, resid: nat, d: nat, i: nat, o: nat, k: nat, ko: nat, bytes: nat, i': nat, o': nat)
    requires t.Ready() && Status(t, false, resid, d, i, o, k, ko) && resid > 0
    requires bytes == Min(t.remote[k].len - ko, resid)
    requires At(t.local, i', o') && Pos(t.local, i', o') == t.Start() + d + bytes && (!t.iov ==> i' == 0)
    ensures if bytes == resid then Status(t, false, 0, d + bytes, i', o', k, ko + bytes)
            else if bytes > 0 && t.more then Status(t, false, resid - bytes, d + bytes, i', o', k + 1, 0)
            else Status(t, true, resid - bytes, d + bytes, i', o', k, ko + bytes)
  {
    GoReach(t, d, i, o, k, ko, bytes, i', o');
    if bytes == resid {
      SmoothLast(t, d, i, o, k, ko);
    } else if bytes > 0 && t.more {
      GoNext(t, d, i, o, k, ko, bytes, i', o');
    }
  }

  /** mem_do_transfer, from the cursors and the residue of t.  Whatever it returns, the
      bytes it reports as gone have crossed, both cursors have moved on by as many, and
      nothing else changed; it succeeds on all of them exactly when no remote segment that
      starts before the last byte is empty and further ones are there if needed. */
  method MemDoTransfer(t: Task, loc: array<Byte>, rem: array<Byte>)
    returns (ok: bool, resid: nat, i: nat, o: nat, k: nat, ko: nat, ghost d: nat)
    requires t.Ready() && loc != rem && Fits(t.local, loc.Length) && Fits(t.remote, rem.Length)
    modifies loc, rem
    ensures d + resid == t.total && (ok <==> resid == 0) && (ok <==> t.Smooth())
    ensures Reached(t, d, i, o, k, ko)
    ensures Carried(t.dir, loc, rem, old(loc[..]), old(rem[..]), t.Here(), t.There(), d)
  {
    ghost var loc0, rem0 := loc[..], rem[..];
    TaskInside(t, loc.Length, rem.Length);
    d, resid, i, o, k, ko := 0, t.total, t.index, t.off, t.c, t.cOff;
    var stop := false;
    while resid > 0 && !stop
      invariant Status(t, stop, resid, d, i, o, k, ko)
      invariant Carried(t.dir, loc, rem, loc0, rem0, t.Here(), t.There(), d)
      decreases resid, !stop
    {
      stop, resid, i, o, k, ko, d := TransferTurn(t, loc, rem, i, o, k, ko, resid, d, loc0, rem0);
    }
    ok := !stop;
  }

  /** With no address twice on the receiving side, each byte that crossed is where the flat
      copy puts it: the j-th from one cursor is the j-th from the other. */
  lemma FlatCopyIn(t: Task, loc0: seq<Byte>, rem0: seq<Byte>, d: nat, j: nat)
    requires t.Ready() && t.dir == DataIn && j < d <= t.total && Distinct(t.Here())
    requires Inside(t.Here(), |loc0|) && Inside(t.There(), |rem0|)
    requires t.cOff < t.remote[t.c].len && (t.build == Knem || t.cOff == 0)
    ensures Off(t.remote, t.c) + t.cOff + j < Total(t.remote)
    ensures Addrs(t.remote)[Off(t.remote, t.c) + t.cOff + j] < |rem0|
    ensures Crossed(t.dir, loc0, rem0, t.Here(), t.There(), d).0[t.Here()[j]]
            == rem0[Addrs(t.remote)[Off(t.remote, t.c) + t.cOff + j]]
  {
    RemoteAtKnem(t.build, t.remote, t.c, t.cOff, j);
    assert t.There()[j] == Addrs(t.remote)[Off(t.remote, t.c) + t.cOff + j];
    CopiedHit(loc0, t.Here(), rem0, t.There(), d, j);
  }

  lemma FlatCopyOut(t: Task, loc0: seq<Byte>, rem0: seq<Byte>, d: nat, j: nat)
    requires t.Ready() && t.dir == DataOut && j < d <= t.total && Distinct(t.There())
    requires Inside(t.Here(), |loc0|) && Inside(t.There(), |rem0|)
    requires t.cOff < t.remote[t.c].len && (t.build == Knem || t.cOff == 0)
    ensures Off(t.remote, t.c) + t.cOff + j < Total(t.remote)
    ensures Addrs(t.remote)[Off(t.remote, t.c) + t.cOff + j] < |rem0|
    ensures Crossed(t.dir, loc0, rem0, t.Here(), t.There(), d).1[Addrs(t.remote)[Off(t.remote, t.c) + t.cOff + j]]
            == loc0[t.Here()[j]]
  {
    RemoteAtKnem(t.build, t.remote, t.c, t.cOff, j);
    assert t.There()[j] == Addrs(t.remote)[Off(t.remote, t.c) + t.cOff + j];
    CopiedHit(rem0, t.There(), loc0, t.Here(), d, j);
  }
}
