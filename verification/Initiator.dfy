/** The initiator's request buffer updated in place, handler by handler, and the loop of
    process_init, proved against the transition system of InitiatorSpec. */
module Initiator {
  import opened InitiatorSpec

  /** process_init run to where it next waits. */
  function Settle(q: Request, b: Buf, a: Answers): (r: Buf)
    ensures Step(q, r, a) == r
    decreases 13 - Rank(b.state)
  {
    Progress(q, b, a);
    if Step(q, b, a) == b then b else Settle(q, Step(q, b, a), a)
  }

  /** The buffer is as some run of the transition system leaves it. */
  ghost predicate Reachable(q: Request, b: Buf) {
    exists bufs, acts :: Run(q, bufs, acts) && bufs[|acts|] == b
  }

  lemma ReachCreated(q: Request)
    ensures Reachable(q, Created(q))
  {
    assert Run(q, [Created(q)], []);
  }

  lemma ReachApply(q: Request, b: Buf, x: Action)
    requires Reachable(q, b) && Enabled(b, x)
    ensures Reachable(q, Apply(q, b, x))
  {
    var bufs, acts :| Run(q, bufs, acts) && bufs[|acts|] == b;
    var bufs', acts' := bufs + [Apply(q, b, x)], acts + [x];
    forall i | 0 <= i < |acts'| ensures Stepped(q, bufs', acts', i) {
      assert i < |acts| ==> Stepped(q, bufs, acts, i);
    }
    assert Run(q, bufs', acts') && bufs'[|acts'|] == Apply(q, b, x);
  }

  /** What the handlers rely on. */
  lemma ReachReady(q: Request, b: Buf)
    requires Reachable(q, b)
    ensures b.state == Start ==> b == Created(q)
    ensures b.state == PrepReq ==> b == Created(q).(state := PrepReq, mask := StartMask(q))
    ensures b.state == EarlySend ==> b.refs.put
    ensures b.state == ReplyEvent ==> b.refs.get
  {
    var bufs, acts :| Run(q, bufs, acts) && bufs[|acts|] == b;
    InvRun(q, bufs, acts, |acts|);
  }

  lemma Turn(q: Request, b: Buf, a: Answers)
    requires Reachable(q, b)
    ensures Reachable(q, Step(q, b, a))
    ensures Settle(q, Step(q, b, a), a) == Settle(q, b, a)
    ensures Step(q, b, a).state == b.state ==>
      Settle(q, b, a) == b && (b.state == Done || b.state == WaitComp || b.state == WaitRecv)
    ensures Step(q, b, a).state != b.state ==> Rank(b.state) < Rank(Step(q, b, a).state)
    ensures b.state == Done ==> Settle(q, b, a) == b
    ensures b.state == Cleanup ==> Settle(q, b, a) == Step(q, b, a) && Step(q, b, a).state == Done
  {
    Progress(q, b, a);
    ReachApply(q, b, Do(a));
    if b.state == Cleanup {
      Progress(q, Step(q, b, a), a);
    }
  }

  lemma StepErred(q: Request, b: Buf, a: Answers)
    ensures Step(q, b, a).past.erred <==> b.past.erred || b.state == Error
  {
    RecordedStep(q, b, a);
  }

  /** The bits start copies from the descriptors. */
  method OptionBits(q: Request) returns (m: Mask)
    ensures forall f: Flag :: f in m <==> f in OPTIONS && StartBit(q, f)
  {
    m := {};
    if q.HasPut() {
      if q.put.successDisable { m := m + {PutSuccessDisable}; }
      if q.put.sendDisable { m := m + {PutSendDisable}; }
      if q.put.countBytes { m := m + {PutCtBytes}; }
    }
    if q.HasGet() {
      if q.get.successDisable { m := m + {GetSuccessDisable}; }
      if q.get.countBytes { m := m + {GetCtBytes}; }
    }
  }

  const OPTIONS: set<Flag> := {PutSuccessDisable, PutSendDisable, PutCtBytes, GetSuccessDisable, GetCtBytes}

  /** The bits start sets for the operation. */
  method EventBits(q: Request) returns (m: Mask)
    ensures forall f: Flag :: f in m <==> f !in OPTIONS && StartBit(q, f)
  {
    m := {};
    match q.op {
      case Put | Atomic =>
        if q.put.eq { m := m + {MaskSend}; }
        if q.ackReq != NoAck {
          m := m + {ReceiveExpected};
          if q.ackReq == AckReq.AckReq && q.put.eq { m := m + {MaskAck}; }
          if q.put.ct && q.put.countAck { m := m + {MaskCtAck}; }
        }
        if q.put.ct && q.put.countSend { m := m + {MaskCtSend}; }
      case Get =>
        m := m + {ReceiveExpected};
        if q.get.eq { m := m + {MaskReply}; }
        if q.get.ct && q.get.countReply { m := m + {MaskCtReply}; }
      case _ =>
        m := m + {ReceiveExpected};
        if q.put.eq { m := m + {MaskSend}; }
        if q.get.eq { m := m + {MaskReply}; }
        if q.put.ct && q.put.countSend { m := m + {MaskCtSend}; }
        if q.get.ct && q.get.countReply { m := m + {MaskCtReply}; }
    }
  }

  /** The bits prepare_req adds, and whether it changes the header's ack_req. */
  method SendBits(q: Request, m0: Mask) returns (m: Mask, forced: bool)
    requires m0 == StartMask(q)
    ensures m == PrepMask(q) && forced == ForcesAck(q)
  {
    m := m0;
    forced := (q.HasPut() && !q.immediate && (MaskSend in m || MaskCtSend in m)) || q.mrs;
    assert SendKinds(q) != [] <==> MaskSend in m0 || MaskCtSend in m0;
    if forced {
      m := m + {ReceiveExpected};
    }
    if (MaskSend in m || MaskCtSend in m) && q.HasPut() && q.immediate {
      m := m + {EarlySendOk};
    }
    if q.fits {
      m := m + {Inlined};
    }
    if Inlined !in m && (EarlySendOk in m || ReceiveExpected !in m) {
      m := m + {Signaled};
    }
  }

  /** Clearing an event's own bit does not change what another event shows. */
  lemma SameEv(b: Buf, b': Buf, k: Kind, f: Flag)
    requires f == MaskSend || f == MaskAck || f == MaskReply
    requires b'.niFail == b.niFail && (b'.mask == b.mask || b'.mask == b.mask - {f})
    ensures MakeEv(b', k) == MakeEv(b, k)
  {
  }

  class InitBuf {
    const q: Request
    var initState: State
    var mask: Mask
    var putMd: bool
    var getMd: bool
    var ackReq: AckReq
    var niFail: Fail
    var completed: bool
    var recvBuf: Option<Response>
    ghost var putDrops: nat
    ghost var getDrops: nat
    ghost var ended: nat
    ghost var log: seq<Ev>
    ghost var past: Past

    ghost function Held(): Refs
      reads this
    {
      Refs(putMd, getMd, putDrops, getDrops, ended)
    }

    /** The buffer as a value, in state s. */
    ghost function Now(s: State): Buf
      reads this
    {
      Buf(s, mask, Held(), ackReq, niFail, completed, recvBuf, log, past)
    }

    constructor (request: Request)
      ensures q == request && Now(initState) == Created(q) && Reachable(q, Now(initState))
    {
      ReachCreated(request);
      q := request;
      initState, mask, putMd, getMd, ackReq := State.Start, {}, request.HasPut(), request.HasGet(), request.ackReq;
      niFail, completed, recvBuf := Fine, false, None;
      putDrops, getDrops, ended, log, past := 0, 0, 0, [], Past(false, false, false, false, false, None);
    }

    /** md_put of the put descriptor, which must be held. */
    method PutMdPut()
      requires putMd
      modifies this`putMd, this`putDrops
      ensures !putMd && putDrops == old(putDrops) + 1
    {
      putMd := false;
      putDrops := putDrops + 1;
    }

    method ReleasePut()
      modifies this`putMd, this`putDrops
      ensures Held() == DropPut(old(Held()))
    {
      if putMd {
        PutMdPut();
      }
    }

    method PutMdGet()
      requires getMd
      modifies this`getMd, this`getDrops
      ensures !getMd && getDrops == old(getDrops) + 1
    {
      getMd := false;
      getDrops := getDrops + 1;
    }

    /** make_send_event, make_ack_event and make_reply_event up to the posting. */
    method MakeEvent(k: Kind, flag: Flag)
      requires (k == Kind.Send && flag == MaskSend) || (k == Kind.Ack && flag == MaskAck)
               || (k == Kind.Reply && flag == MaskReply)
      modifies this`mask, this`log
      ensures mask == old(mask) - {flag}
      ensures forall s :: log == old(log) + [MakeEv(old(Now(s)), k)]
    {
      var disabled :=
        if k == Kind.Send then PutSendDisable in mask || PutSuccessDisable in mask
        else if k == Kind.Ack then PutSuccessDisable in mask
        else GetSuccessDisable in mask;
      var effect := Suppressed;
      if niFail != Fine || !disabled {
        // make_init_event drops a send event whose descriptor disables it
        if !(PutSendDisable in mask && k == Kind.Send) {
          if k == Kind.Send {
            effect := if niFail == Undeliverable then Post(niFail) else Post(Fine);
          } else {
            effect := Post(niFail);
          }
        }
      }
      log := log + [Ev(k, niFail, effect)];
      mask := mask - {flag};
    }

    method MakeCtEvent(k: Kind, flag: Flag)
      requires (k == Kind.CtSend && flag == MaskCtSend) || (k == Kind.CtAck && flag == MaskCtAck)
               || (k == Kind.CtReply && flag == MaskCtReply)
      modifies this`mask, this`log
      ensures mask == old(mask) - {flag}
      ensures forall s :: log == old(log) + [MakeEv(old(Now(s)), k)]
    {
      var bytes := CountOne;
      if k == Kind.CtReply {
        bytes := if GetCtBytes in mask then CountModified else CountOne;
      } else {
        bytes := if PutCtBytes !in mask then CountOne else if k == Kind.CtSend then CountRequested else CountModified;
      }
      log := log + [Ev(k, niFail, if niFail != Fine then CountFailure else bytes)];
      mask := mask - {flag};
    }

    /** The tail shared by the early and late send states. */
    method SendEvents(ghost s: State)
      modifies this`mask, this`log
      ensures Now(s) == MakeSends(old(Now(s)))
    {
      if MaskSend in mask {
        MakeEvent(Kind.Send, MaskSend);
      }
      SameEv(old(Now(s)), Now(s), Kind.CtSend, MaskSend);
      if MaskCtSend in mask {
        MakeCtEvent(Kind.CtSend, MaskCtSend);
      }
      assert mask == Cleared(old(mask));
    }

    /** start: the event mask from the operation and the descriptors. */
    method Start(ghost a: Answers) returns (s: State)
      requires Now(State.Start) == Created(q)
      modifies this`mask
      ensures Now(s) == Step(q, old(Now(State.Start)), a)
    {
      var options := OptionBits(q);
      var events := EventBits(q);
      mask := mask + options + events;
      assert mask == StartMask(q);
      s := PrepReq;
    }

    /** prepare_req after init_prepare_transfer: may the send event be early, must a
        response be asked for, is a send completion needed. */
    method PrepareReq(a: Answers) returns (s: State)
      requires Now(PrepReq) == Created(q).(state := PrepReq, mask := StartMask(q))
      modifies this`mask, this`ackReq
      ensures Now(s) == Step(q, old(Now(PrepReq)), a)
    {
      if !a.prepared {
        return Error;
      }
      var forced;
      mask, forced := SendBits(q, mask);
      if forced {
        ackReq := AckReq.AckReq;
      }
      s := if a.connected then SendReq else WaitConn;
    }

    method SendRequest(a: Answers) returns (s: State)
      modifies this`past
      ensures Now(s) == Step(q, old(Now(SendReq)), a)
    {
      if Signaled in mask {
        s := WaitComp;
      } else if EarlySendOk in mask {
        s := EarlySend;
      } else if ReceiveExpected in mask {
        s := WaitRecv;
      } else {
        s := Cleanup;
      }
      if !a.sends {
        return SendError;
      }
      past := past.(sent := true);
    }

    method SendErrorState(ghost a: Answers) returns (s: State)
      modifies this`putMd, this`putDrops, this`niFail, this`past
      ensures Now(s) == Step(q, old(Now(SendError)), a)
    {
      ReleasePut();
      niFail := Undeliverable;
      past := past.(failed := true);
      s := if MaskSend in mask || MaskCtSend in mask then LateSend else Cleanup;
    }

    method EarlySendEvent(ghost a: Answers) returns (s: State)
      requires putMd
      modifies this`putMd, this`putDrops, this`mask, this`log
      ensures Now(s) == Step(q, old(Now(EarlySend)), a)
    {
      PutMdPut();
      SendEvents(EarlySend);
      s := if ReceiveExpected in mask && niFail != Undeliverable then WaitRecv else Cleanup;
    }

    method WaitReceive(ghost a: Answers) returns (s: State)
      modifies this`putMd, this`putDrops, this`niFail, this`past
      ensures Now(s) == Step(q, old(Now(WaitRecv)), a)
    {
      if niFail == Undeliverable {
        return SendError;
      }
      if recvBuf.None? {
        return WaitRecv;
      }
      s := TakeResponse();
    }

    method TakeResponse() returns (s: State)
      requires niFail != Undeliverable && recvBuf.Some?
      modifies this`putMd, this`putDrops, this`niFail, this`past
      ensures Now(s) == DoWaitRecv(old(Now(WaitRecv)))
    {
      TakeFields(WaitRecv);
      if recvBuf.value.data && getMd {
        return DataIn;
      }
      s := NextEvent();
    }

    method TakeFields(ghost s: State)
      requires recvBuf.Some?
      modifies this`putMd, this`putDrops, this`niFail, this`past
      ensures Now(s) == TakeIn(old(Now(s)))
    {
      ReleasePut();
      niFail := recvBuf.value.fail;
      past := past.(failed := past.failed || niFail == Undeliverable);
    }

    method NextEvent() returns (s: State)
      ensures s == AfterResponse(mask)
    {
      if MaskSend in mask || MaskCtSend in mask {
        return LateSend;
      }
      if MaskAck in mask || MaskCtAck in mask {
        return AckEvent;
      }
      if MaskReply in mask || MaskCtReply in mask {
        return ReplyEvent;
      }
      s := Cleanup;
    }

    method DataInState(a: Answers) returns (s: State)
      modifies this`past
      ensures Now(s) == Step(q, old(Now(DataIn)), a)
    {
      if !a.copies {
        return Error;
      }
      past := past.(copied := true);
      if MaskSend in mask || MaskCtSend in mask {
        return LateSend;
      }
      if MaskReply in mask || MaskCtReply in mask {
        return ReplyEvent;
      }
      s := Cleanup;
    }

    method LateSendEvent(ghost a: Answers) returns (s: State)
      modifies this`mask, this`log
      ensures Now(s) == Step(q, old(Now(LateSend)), a)
    {
      SendEvents(LateSend);
      if niFail != Undeliverable {
        if MaskAck in mask || MaskCtAck in mask {
          return AckEvent;
        } else if MaskReply in mask || MaskCtReply in mask {
          return ReplyEvent;
        }
      }
      s := Cleanup;
    }

    method AckState(ghost a: Answers) returns (s: State)
      modifies this`putMd, this`putDrops, this`mask, this`log
      ensures Now(s) == Step(q, old(Now(AckEvent)), a)
    {
      ReleasePut();
      AckEvents(AckEvent);
      s := Cleanup;
    }

    method AckEvents(ghost s: State)
      modifies this`mask, this`log
      ensures Now(s) == MakeAcks(old(Now(s)))
    {
      if MaskAck in mask {
        MakeEvent(Kind.Ack, MaskAck);
      }
      SameEv(old(Now(s)), Now(s), Kind.CtAck, MaskAck);
      if MaskCtAck in mask {
        MakeCtEvent(Kind.CtAck, MaskCtAck);
      }
      assert mask == old(mask) - {MaskAck, MaskCtAck};
    }

    method ReplyState(ghost a: Answers) returns (s: State)
      requires getMd
      modifies this`getMd, this`getDrops, this`mask, this`log
      ensures Now(s) == Step(q, old(Now(ReplyEvent)), a)
    {
      PutMdGet();
      ReplyEvents(ReplyEvent);
      s := Cleanup;
    }

    method ReplyEvents(ghost s: State)
      modifies this`mask, this`log
      ensures Now(s) == MakeReplies(old(Now(s)))
    {
      if MaskReply in mask {
        MakeEvent(Kind.Reply, MaskReply);
      }
      SameEv(old(Now(s)), Now(s), Kind.CtReply, MaskReply);
      if MaskCtReply in mask {
        MakeCtEvent(Kind.CtReply, MaskCtReply);
      }
      assert mask == old(mask) - {MaskReply, MaskCtReply};
    }

    /** cleanup and the end of the CLEANUP case. */
    method CleanupState(ghost a: Answers)
      modifies this
      ensures Now(initState) == Step(q, old(Now(Cleanup)), a) && initState == Done
    {
      if getMd {
        PutMdGet();
      }
      ReleasePut();
      recvBuf := None;
      ended := ended + 1;
      initState := Done;
    }

    /** One case of the switch in process_init. */
    method Dispatch(state: State, a: Answers) returns (s: State)
      requires Reachable(q, Now(state)) && state != Cleanup && state != Done
      modifies this`mask, this`ackReq, this`past, this`putMd, this`putDrops, this`getMd, this`getDrops,
               this`niFail, this`log
      ensures Now(s) == Step(q, old(Now(state)), a)
    {
      ReachReady(q, Now(state));
      match state
      case Start => s := Start(a);
      case PrepReq => s := PrepareReq(a);
      case WaitConn => s := if a.connects then SendReq else Error;
      case SendReq => s := SendRequest(a);
      case WaitComp => s := if completed || recvBuf.Some? then EarlySend else WaitComp;
      case EarlySend => s := EarlySendEvent(a);
      case WaitRecv => s := WaitReceive(a);
      case SendError => s := SendErrorState(a);
      case DataIn => s := DataInState(a);
      case LateSend => s := LateSendEvent(a);
      case AckEvent => s := AckState(a);
      case ReplyEvent => s := ReplyState(a);
      case Error =>
        past := past.(erred := true);
        s := Cleanup;
    }

    /** process_init: run until the request waits or is done.  err is PTL_FAIL. */
    method ProcessInit(a: Answers) returns (err: bool)
      requires Reachable(q, Now(initState))
      modifies this
      ensures Now(initState) == Settle(q, old(Now(initState)), a)
      ensures Reachable(q, Now(initState))
      ensures initState == Done || initState == WaitComp || initState == WaitRecv
      ensures past.erred <==> err || old(past.erred)
    {
      ghost var b := Now(initState);
      err := false;
      var state := initState;
      while true
        invariant Reachable(q, Now(state)) && Settle(q, Now(state), a) == Settle(q, b, a)
        invariant past.erred <==> err || old(past.erred)
        decreases 13 - Rank(state)
      {
        Turn(q, Now(state), a);
        StepErred(q, Now(state), a);
        if state == Cleanup {
          CleanupState(a);
          return;
        }
        if state == Done {
          break;
        }
        if state == Error {
          err := true;
        }
        var next := Dispatch(state, a);
        if next == state {
          break;
        }
        state := next;
      }
      initState := state;
    }

    /** send_comp: a send completion, in error or not. */
    method Complete(failed: bool)
      requires Reachable(q, Now(initState)) && past.sent
      modifies this`completed, this`niFail, this`past
      ensures Now(initState) == Apply(q, old(Now(initState)), Completion(failed)) && Reachable(q, Now(initState))
    {
      ReachApply(q, Now(initState), Completion(failed));
      completed := true;
      if failed {
        niFail := Undeliverable;
        past := past.(failed := true);
      }
    }

    /** recv_init: a response from the target. */
    method Respond(r: Response)
      requires Reachable(q, Now(initState)) && past.sent && past.heard.None?
      modifies this`recvBuf, this`past
      ensures Now(initState) == Apply(q, old(Now(initState)), Arrive(r)) && Reachable(q, Now(initState))
    {
      ReachApply(q, Now(initState), Arrive(r));
      recvBuf := Some(r);
      past := past.(heard := Some(r));
    }
  }
}
