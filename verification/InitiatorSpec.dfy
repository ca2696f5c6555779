/** The initiator state machine of one request, as a transition system: the steps of
    process_init, interleaved with send completions and responses.  The UDP branches and
    the bounce-buffer states of builds without KNEM are not part of this model. */
module InitiatorSpec {

  datatype Op = Put | Atomic | Get | Fetch | Swap

  /** hdr->ack_req: PTL_NO_ACK_REQ, PTL_ACK_REQ, PTL_CT_ACK_REQ, PTL_OC_ACK_REQ. */
  datatype AckReq = NoAck | AckReq | CtAckReq | OcAckReq

  /** What the state machine reads of a memory descriptor. */
  datatype Md = Md(eq: bool, ct: bool, successDisable: bool, sendDisable: bool,
                   countSend: bool, countAck: bool, countReply: bool, countBytes: bool)

  /** A request.  immediate: the outgoing data travels in the message; mrs: the target
      will read or write through registered regions; fits: the message can be inlined. */
  datatype Request = Request(op: Op, put: Md, get: Md, ackReq: AckReq,
                             immediate: bool, mrs: bool, fits: bool) {
    predicate HasPut() { op != Get }
    predicate HasGet() { op == Get || op == Fetch || op == Swap }
    predicate Acked() { op == Put || op == Atomic }
  }

  /** The bits of buf->event_mask. */
  datatype Flag = PutSuccessDisable | PutSendDisable | PutCtBytes | GetSuccessDisable | GetCtBytes
                | MaskSend | MaskCtSend | MaskAck | MaskCtAck | MaskReply | MaskCtReply
                | ReceiveExpected | EarlySendOk | Inlined | Signaled

  type Mask = set<Flag>

  datatype Fail = Fine | Undeliverable | Other

  datatype Kind = Send | CtSend | Ack | CtAck | Reply | CtReply

  /** What the user sees of an event: a full event with its ni_fail_type, nothing when an
      option suppresses it; a count of one failure, one event, or of the requested or the
      modified length. */
  datatype Effect = Post(code: Fail) | Suppressed | CountFailure | CountOne | CountRequested | CountModified

  /** A generated event; seen is the buffer's ni_fail at that time. */
  datatype Ev = Ev(kind: Kind, seen: Fail, effect: Effect)

  datatype State = Start | PrepReq | WaitConn | SendReq | WaitComp | EarlySend | WaitRecv | SendError
                 | DataIn | LateSend | AckEvent | ReplyEvent | Error | Cleanup | Done

  datatype Response = Response(data: bool, fail: Fail)

  datatype Option<T> = None | Some(value: T)

  /** The references of the buffer: the two descriptors, how often each was dropped, and
      how often the buffer was given up (conn_put and buf_put). */
  datatype Refs = Refs(put: bool, get: bool, putDrops: nat, getDrops: nat, ended: nat)

  /** copied says that the data of a response was copied in, heard is the response. */
  datatype Past = Past(sent: bool, failed: bool, erred: bool, cancelled: bool, copied: bool, heard: Option<Response>)

  /** The request buffer; past records what happened to it. */
  datatype Buf = Buf(state: State, mask: Mask, refs: Refs, ackReq: AckReq, niFail: Fail, completed: bool,
                     recv: Option<Response>, log: seq<Ev>, past: Past)

  /** What the transport and the connection answer during one entry. */
  datatype Answers = Answers(prepared: bool, connected: bool, connects: bool, sends: bool, copies: bool)

  // ---------------------------------------------------------------------------
  // What a request selects, from its descriptors alone
  // ---------------------------------------------------------------------------

  function If<T>(c: bool, x: T): seq<T> { if c then [x] else [] }

  function SendKinds(q: Request): seq<Kind> {
    if q.HasPut() then If(q.put.eq, Send) + If(q.put.ct && q.put.countSend, CtSend) else []
  }

  function ResponseKinds(q: Request): seq<Kind> {
    if q.Acked() then
      If(q.ackReq == AckReq && q.put.eq, Ack) + If(q.ackReq != NoAck && q.put.ct && q.put.countAck, CtAck)
    else
      If(q.get.eq, Reply) + If(q.get.ct && q.get.countReply, CtReply)
  }

  /** The code a send event carries: once the message is delivered, sending it was fine,
      whatever the target answered. */
  function SendCode(seen: Fail): Fail { if seen == Undeliverable then Undeliverable else Fine }

  /** What the user is to see of an event, from the descriptors' options. */
  function Shows(q: Request, k: Kind, seen: Fail): Effect {
    match k
    case Send => if q.put.sendDisable || (seen == Fine && q.put.successDisable) then Suppressed else Post(SendCode(seen))
    case Ack => if seen == Fine && q.put.successDisable then Suppressed else Post(seen)
    case Reply => if seen == Fine && q.get.successDisable then Suppressed else Post(seen)
    case _ =>
      if seen != Fine then CountFailure
      else if !(if k == CtReply then q.get.countBytes else q.put.countBytes) then CountOne
      else if k == CtSend then CountRequested else CountModified
  }

  // ---------------------------------------------------------------------------
  // The handlers
  // ---------------------------------------------------------------------------

  function Created(q: Request): Buf {
    Buf(Start, {}, Refs(q.HasPut(), q.HasGet(), 0, 0, 0), q.ackReq, Fine, false, None, [],
        Past(false, false, false, false, false, None))
  }

  /** The bits set by start. */
  predicate StartBit(q: Request, f: Flag) {
    var p, g, a := q.HasPut(), q.HasGet(), q.Acked();
    match f
    case PutSuccessDisable => p && q.put.successDisable
    case PutSendDisable => p && q.put.sendDisable
    case PutCtBytes => p && q.put.countBytes
    case GetSuccessDisable => g && q.get.successDisable
    case GetCtBytes => g && q.get.countBytes
    case MaskSend => p && q.put.eq
    case MaskCtSend => p && q.put.ct && q.put.countSend
    case MaskAck => a && q.ackReq == AckReq && q.put.eq
    case MaskCtAck => a && q.ackReq != NoAck && q.put.ct && q.put.countAck
    case MaskReply => g && q.get.eq
    case MaskCtReply => g && q.get.ct && q.get.countReply
    case ReceiveExpected => g || (a && q.ackReq != NoAck)
    case _ => false
  }

  function StartMask(q: Request): Mask { set f: Flag | StartBit(q, f) }

  /** The target will be asked for a response whatever the user asked for. */
  predicate ForcesAck(q: Request) {
    (q.HasPut() && !q.immediate && SendKinds(q) != []) || q.mrs
  }

  /** The bits set once prepare_req is through. */
  predicate PrepBit(q: Request, f: Flag) {
    var expected := StartBit(q, ReceiveExpected) || ForcesAck(q);
    var early := q.immediate && (StartBit(q, MaskSend) || StartBit(q, MaskCtSend));
    match f
    case ReceiveExpected => expected
    case EarlySendOk => early
    case Inlined => q.fits
    case Signaled => !q.fits && (early || !expected)
    case _ => StartBit(q, f)
  }

  function PrepMask(q: Request): Mask { set f: Flag | PrepBit(q, f) }

  function DropPut(r: Refs): Refs {
    if r.put then r.(put := false, putDrops := r.putDrops + 1) else r
  }

  function DropGet(r: Refs): Refs {
    if r.get then r.(get := false, getDrops := r.getDrops + 1) else r
  }

  /** make_init_event, called unless the event is successful and such events are disabled. */
  function MakeFull(b: Buf, k: Kind, disabled: bool): Effect {
    if b.niFail == Fine && disabled then Suppressed
    else if PutSendDisable in b.mask && k == Send then Suppressed
    else if k == Send then Post(if b.niFail == Undeliverable then b.niFail else Fine)
    else Post(b.niFail)
  }

  /** make_ct_event */
  function MakeCount(b: Buf, bytes: bool, amount: Effect): Effect {
    if b.niFail != Fine then CountFailure else if bytes then amount else CountOne
  }

  function MakeEv(b: Buf, k: Kind): Ev {
    var m := b.mask;
    Ev(k, b.niFail,
       match k
       case Send => MakeFull(b, k, PutSendDisable in m || PutSuccessDisable in m)
       case Ack => MakeFull(b, k, PutSuccessDisable in m)
       case Reply => MakeFull(b, k, GetSuccessDisable in m)
       case CtSend => MakeCount(b, PutCtBytes in m, CountRequested)
       case CtAck => MakeCount(b, PutCtBytes in m, CountModified)
       case CtReply => MakeCount(b, GetCtBytes in m, CountModified))
  }

  /** make_send_event then make_ct_send_event, as the mask selects. */
  function MakeSends(b: Buf): Buf {
    b.(log := b.log + If(MaskSend in b.mask, MakeEv(b, Send)) + If(MaskCtSend in b.mask, MakeEv(b, CtSend)),
       mask := Cleared(b.mask))
  }

  function MakeAcks(b: Buf): Buf {
    b.(log := b.log + If(MaskAck in b.mask, MakeEv(b, Ack)) + If(MaskCtAck in b.mask, MakeEv(b, CtAck)),
       mask := b.mask - {MaskAck, MaskCtAck})
  }

  function MakeReplies(b: Buf): Buf {
    b.(log := b.log + If(MaskReply in b.mask, MakeEv(b, Reply)) + If(MaskCtReply in b.mask, MakeEv(b, CtReply)),
       mask := b.mask - {MaskReply, MaskCtReply})
  }

  function SendNext(m: Mask): State {
    if Signaled in m then WaitComp
    else if EarlySendOk in m then EarlySend
    else if ReceiveExpected in m then WaitRecv
    else Cleanup
  }

  function DoPrepReq(q: Request, b: Buf, a: Answers): Buf {
    if !a.prepared then b.(state := Error) else
      b.(mask := PrepMask(q), ackReq := if ForcesAck(q) then AckReq else b.ackReq,
         state := if a.connected then SendReq else WaitConn)
  }

  function DoSendReq(b: Buf, a: Answers): Buf {
    if a.sends then b.(state := SendNext(b.mask), past := b.past.(sent := true)) else b.(state := SendError)
  }

  function DoSendError(b: Buf): Buf {
    b.(refs := DropPut(b.refs), niFail := Undeliverable, past := b.past.(failed := true),
       state := if MaskSend in b.mask || MaskCtSend in b.mask then LateSend else Cleanup)
  }

  function DoEarlySend(b: Buf): Buf {
    MakeSends(b).(refs := DropPut(b.refs),
                  state := if ReceiveExpected in b.mask && b.niFail != Undeliverable then WaitRecv else Cleanup)
  }

  function AfterResponse(m: Mask): State {
    if MaskSend in m || MaskCtSend in m then LateSend
    else if MaskAck in m || MaskCtAck in m then AckEvent
    else if MaskReply in m || MaskCtReply in m then ReplyEvent
    else Cleanup
  }

  function DoWaitRecv(b: Buf): Buf {
    if b.niFail == Undeliverable then b.(state := SendError)
    else if b.recv.None? then b
    else
      TakeIn(b).(state := if b.recv.value.data && b.refs.get then DataIn else AfterResponse(b.mask))
  }

  /** What is taken over from a response. */
  function TakeIn(b: Buf): Buf
    requires b.recv.Some?
  {
    b.(refs := DropPut(b.refs), niFail := b.recv.value.fail,
       past := b.past.(failed := b.past.failed || b.recv.value.fail == Undeliverable))
  }

  function AfterData(m: Mask): State {
    if MaskSend in m || MaskCtSend in m then LateSend else if MaskReply in m || MaskCtReply in m then ReplyEvent else Cleanup
  }

  function DoDataIn(b: Buf, a: Answers): Buf {
    if a.copies then b.(state := AfterData(b.mask), past := b.past.(copied := true)) else b.(state := Error)
  }

  function AfterSends(m: Mask): State {
    if MaskAck in m || MaskCtAck in m then AckEvent else if MaskReply in m || MaskCtReply in m then ReplyEvent else Cleanup
  }

  function DoLateSend(b: Buf): Buf {
    MakeSends(b).(state := if b.niFail == Undeliverable then Cleanup else AfterSends(b.mask))
  }

  function DoCleanup(b: Buf): Buf {
    var r := DropPut(DropGet(b.refs));
    b.(refs := r.(ended := r.ended + 1), recv := None, state := Done)
  }

  /** One pass of the loop in process_init. */
  function Step(q: Request, b: Buf, a: Answers): Buf {
    match b.state
    case Start => b.(mask := StartMask(q), state := PrepReq)
    case PrepReq => DoPrepReq(q, b, a)
    case WaitConn => b.(state := if a.connects then SendReq else Error)
    case SendReq => DoSendReq(b, a)
    case WaitComp => if b.completed || b.recv.Some? then b.(state := EarlySend) else b
    case EarlySend => DoEarlySend(b)
    case WaitRecv => DoWaitRecv(b)
    case SendError => DoSendError(b)
    case DataIn => DoDataIn(b, a)
    case LateSend => DoLateSend(b)
    case AckEvent => MakeAcks(b).(refs := DropPut(b.refs), state := Cleanup)
    case ReplyEvent => MakeReplies(b).(refs := DropGet(b.refs), state := Cleanup)
    case Error => b.(past := b.past.(erred := true), state := Cleanup)
    case Cleanup => DoCleanup(b)
    case Done => b
  }

  /** The steps of the machine, and what reaches it from outside: a send completion that
      may have failed and one response, once the request is sent; a cancelled triggered
      operation starts at cleanup. */
  datatype Action = Do(answers: Answers) | Completion(failed: bool) | Arrive(response: Response) | Cancel

  predicate Enabled(b: Buf, x: Action) {
    match x
    case Do(_) => true
    case Completion(_) => b.past.sent
    case Arrive(_) => b.past.sent && b.past.heard.None?
    case Cancel => b.state == Start
  }

  function Apply(q: Request, b: Buf, x: Action): Buf {
    match x
    case Do(a) => Step(q, b, a)
    case Completion(f) =>
      if f then b.(completed := true, niFail := Undeliverable, past := b.past.(failed := true))
      else b.(completed := true)
    case Arrive(r) => b.(recv := Some(r), past := b.past.(heard := Some(r)))
    case Cancel => b.(state := Cleanup, past := b.past.(cancelled := true))
  }

  predicate Stepped(q: Request, bufs: seq<Buf>, acts: seq<Action>, i: nat)
    requires |bufs| == |acts| + 1 && i < |acts|
  {
    Enabled(bufs[i], acts[i]) && bufs[i + 1] == Apply(q, bufs[i], acts[i])
  }

  predicate Run(q: Request, bufs: seq<Buf>, acts: seq<Action>) {
    && |bufs| == |acts| + 1
    && bufs[0] == Created(q)
    && forall i :: 0 <= i < |acts| ==> Stepped(q, bufs, acts, i)
  }

  // ---------------------------------------------------------------------------
  // The invariant
  // ---------------------------------------------------------------------------

  function Kinds(log: seq<Ev>): seq<Kind> {
    seq(|log|, i requires 0 <= i < |log| => log[i].kind)
  }

  /** The events a mask selects. */
  function Sends(m: Mask): seq<Kind> { If(MaskSend in m, Send) + If(MaskCtSend in m, CtSend) }

  function Responses(m: Mask): seq<Kind> {
    If(MaskAck in m, Ack) + If(MaskCtAck in m, CtAck) + (If(MaskReply in m, Reply) + If(MaskCtReply in m, CtReply))
  }

  predicate Working(s: State) { s != Error && s != Cleanup && s != Done }

  function Cleared(n: Mask): Mask { n - {MaskSend, MaskCtSend} }

  /** No selected send event is lost or repeated: all are still to come, or all are
      generated; every selected acknowledgement or reply is still to come. */
  predicate Conserved(m: Mask, n: Mask, kinds: seq<Kind>) {
    (m == n && kinds == []) || (m == Cleared(n) && kinds == Sends(n))
  }

  /** Every way out of the machine. */
  predicate Finished(n: Mask, kinds: seq<Kind>, past: Past) {
    || kinds == Sends(n) + Responses(n)
    || (past.failed && kinds == Sends(n))
    || ((past.erred || past.cancelled) && (kinds == [] || kinds == Sends(n)))
  }

  /** Each descriptor reference is held or has been dropped, once. */
  predicate Owned(q: Request, r: Refs, s: State) {
    && r.putDrops + (if r.put then 1 else 0) == (if q.HasPut() then 1 else 0)
    && r.getDrops + (if r.get then 1 else 0) == (if q.HasGet() then 1 else 0)
    && (if s == Done then !r.put && !r.get && r.ended == 1 else r.ended == 0)
  }

  predicate PostedEv(q: Request, e: Ev) {
    e.effect == Shows(q, e.kind, e.seen)
  }

  predicate Posted(q: Request, log: seq<Ev>) {
    forall i :: 0 <= i < |log| ==> PostedEv(q, log[i])
  }

  /** What the mask n says about the request, as far as the later states need it. */
  predicate Plan(q: Request, n: Mask) {
    && (MaskSend in n || MaskCtSend in n || Signaled in n || EarlySendOk in n ==> q.HasPut())
    && (MaskAck in n || MaskCtAck in n ==> q.Acked())
    && (MaskReply in n || MaskCtReply in n ==> q.HasGet())
    && (ReceiveExpected !in n ==> Responses(n) == [])
    && (Signaled in n || EarlySendOk in n || ReceiveExpected in n || Sends(n) == [])
    && (q.HasPut() ==> (PutSuccessDisable in n <==> q.put.successDisable)
                       && (PutSendDisable in n <==> q.put.sendDisable)
                       && (PutCtBytes in n <==> q.put.countBytes))
    && (q.HasGet() ==> (GetSuccessDisable in n <==> q.get.successDisable)
                       && (GetCtBytes in n <==> q.get.countBytes))
  }

  lemma Planned(q: Request)
    ensures Plan(q, PrepMask(q))
    ensures Sends(PrepMask(q)) == SendKinds(q)
    ensures Responses(PrepMask(q)) == ResponseKinds(q)
  {
    PlannedMask(q);
    PlannedSends(q);
    PlannedResponses(q);
  }

  lemma PlannedMask(q: Request)
    ensures Plan(q, PrepMask(q))
  {
  }

  lemma PlannedSends(q: Request)
    ensures Sends(PrepMask(q)) == SendKinds(q)
  {
  }

  lemma PlannedResponses(q: Request)
    ensures Responses(PrepMask(q)) == ResponseKinds(q)
  {
    var n := PrepMask(q);
    if q.Acked() {
      assert MaskReply !in n && MaskCtReply !in n;
      assert If(MaskReply in n, Reply) + If(MaskCtReply in n, CtReply) == [];
    } else {
      assert MaskAck !in n && MaskCtAck !in n;
      assert If(MaskAck in n, Ack) + If(MaskCtAck in n, CtAck) == [];
    }
  }

  /** Until the request is on its way the mask is as prepared and nothing has happened. */
  predicate Unsent(q: Request, n: Mask, b: Buf) {
    b.mask == n && b.log == [] && b.refs.put == q.HasPut() && b.refs.get == q.HasGet() && Asks(q, n, b)
  }

  /** A response is expected only if the header asks the target for one. */
  predicate Asks(q: Request, n: Mask, b: Buf) {
    ReceiveExpected in n ==> b.ackReq != NoAck || q.HasGet()
  }

  predicate Answered(q: Request, n: Mask, b: Buf) {
    b.mask == Cleared(n) && b.recv.Some? && b.refs.get == q.HasGet()
  }

  /** What holds on entry to each state. */
  predicate Placed(q: Request, n: Mask, b: Buf) {
    match b.state
    case Start => b == Created(q)
    case PrepReq => b == Created(q).(state := PrepReq, mask := StartMask(q))
    case WaitConn => Unsent(q, n, b) && !b.past.sent
    case SendReq => Unsent(q, n, b) && !b.past.sent
    case WaitComp => Unsent(q, n, b) && Signaled in n
    case EarlySend => Unsent(q, n, b) && b.refs.put
    case WaitRecv => ReceiveExpected in n && b.refs.get == q.HasGet() && Asks(q, n, b)
    case SendError => b.refs.get == q.HasGet()
    case DataIn => b.recv.Some? && b.refs.get && q.HasGet()
    case LateSend => (b.recv.Some? || b.niFail == Undeliverable) && b.refs.get == q.HasGet()
    case AckEvent => Answered(q, n, b) && q.Acked()
    case ReplyEvent => Answered(q, n, b) && q.HasGet()
    case _ => true
  }

  /** Where the events stand. */
  predicate Accounted(n: Mask, b: Buf) {
    var kinds := Kinds(b.log);
    if b.state == Start || b.state == PrepReq then true
    else if b.state == Error then kinds == [] || kinds == Sends(n)
    else if b.state == Cleanup || b.state == Done then Finished(n, kinds, b.past)
    else Conserved(b.mask, n, kinds)
  }

  predicate Core(q: Request, n: Mask, b: Buf) {
    && Owned(q, b.refs, b.state)
    && (b.niFail == Undeliverable ==> b.past.failed)
    && Placed(q, n, b)
    && Accounted(n, b)
  }

  predicate Inv(q: Request, n: Mask, b: Buf) {
    Core(q, n, b) && Posted(q, b.log)
  }

  // ---------------------------------------------------------------------------
  // Steps
  // ---------------------------------------------------------------------------

  lemma Logged(q: Request, log: seq<Ev>, c: bool, e: Ev, d: bool, f: Ev)
    requires Posted(q, log)
    requires (c ==> PostedEv(q, e)) && (d ==> PostedEv(q, f))
    ensures var log' := log + If(c, e) + If(d, f);
      Kinds(log') == Kinds(log) + (If(c, e.kind) + If(d, f.kind)) && Posted(q, log')
  {
  }

  lemma SendsMade(q: Request, n: Mask, b: Buf)
    requires Plan(q, n) && Posted(q, b.log) && Conserved(b.mask, n, Kinds(b.log))
    ensures Posted(q, MakeSends(b).log)
    ensures Kinds(MakeSends(b).log) == Sends(n)
  {
    Logged(q, b.log, MaskSend in b.mask, MakeEv(b, Send), MaskCtSend in b.mask, MakeEv(b, CtSend));
  }

  lemma AcksMade(q: Request, n: Mask, b: Buf)
    requires Plan(q, n) && b.mask == Cleared(n) && Posted(q, b.log) && q.Acked()
    ensures Posted(q, MakeAcks(b).log)
    ensures Kinds(MakeAcks(b).log) == Kinds(b.log) + Responses(n)
  {
    Logged(q, b.log, MaskAck in b.mask, MakeEv(b, Ack), MaskCtAck in b.mask, MakeEv(b, CtAck));
  }

  lemma RepliesMade(q: Request, n: Mask, b: Buf)
    requires Plan(q, n) && b.mask == Cleared(n) && Posted(q, b.log) && q.HasGet()
    ensures Posted(q, MakeReplies(b).log)
    ensures Kinds(MakeReplies(b).log) == Kinds(b.log) + Responses(n)
  {
    Logged(q, b.log, MaskReply in b.mask, MakeEv(b, Reply), MaskCtReply in b.mask, MakeEv(b, CtReply));
  }

  lemma KeepsStart(q: Request, n: Mask, b: Buf, a: Answers)
    requires n == PrepMask(q) && Inv(q, n, b) && b.state == Start
    ensures Inv(q, n, Step(q, b, a))
  {
  }

  lemma KeepsPrepReq(q: Request, n: Mask, b: Buf, a: Answers)
    requires n == PrepMask(q) && Inv(q, n, b) && b.state == PrepReq
    ensures Inv(q, n, Step(q, b, a))
  {
  }

  lemma KeepsWaitConn(q: Request, n: Mask, b: Buf, a: Answers)
    requires Plan(q, n) && Inv(q, n, b) && b.state == WaitConn
    ensures Inv(q, n, Step(q, b, a))
  {
  }

  lemma KeepsSendReq(q: Request, n: Mask, b: Buf, a: Answers)
    requires Plan(q, n) && Inv(q, n, b) && b.state == SendReq
    ensures Inv(q, n, Step(q, b, a))
  {
  }

  lemma KeepsWaitComp(q: Request, n: Mask, b: Buf, a: Answers)
    requires Plan(q, n) && Inv(q, n, b) && b.state == WaitComp
    ensures Inv(q, n, Step(q, b, a))
  {
  }

  lemma KeepsEarlySend(q: Request, n: Mask, b: Buf, a: Answers)
    requires Plan(q, n) && Inv(q, n, b) && b.state == EarlySend
    ensures Inv(q, n, Step(q, b, a))
  {
    SendsMade(q, n, b);
  }

  /** Where a response leads, with no send event pending and with some. */
  lemma KeepsResponse(q: Request, n: Mask, b: Buf)
    requires Plan(q, n) && Core(q, n, b) && b.state == WaitRecv
    requires b.niFail != Undeliverable && b.recv.Some?
    ensures Core(q, n, DoWaitRecv(b))
  {
    var s := DoWaitRecv(b).state;
    assert s == DataIn || s == AfterResponse(b.mask);
    if s == AckEvent || s == ReplyEvent || s == Cleanup {
      assert MaskSend !in b.mask && MaskCtSend !in b.mask;
      assert b.mask == Cleared(n);
    }
  }

  lemma KeepsWaitRecv(q: Request, n: Mask, b: Buf, a: Answers)
    requires Plan(q, n) && Inv(q, n, b) && b.state == WaitRecv
    ensures Inv(q, n, Step(q, b, a))
  {
    if b.niFail != Undeliverable && b.recv.Some? {
      KeepsResponse(q, n, b);
    }
  }

  lemma KeepsSendError(q: Request, n: Mask, b: Buf, a: Answers)
    requires Plan(q, n) && Inv(q, n, b) && b.state == SendError
    ensures Inv(q, n, Step(q, b, a))
  {
  }

  lemma KeepsDataIn(q: Request, n: Mask, b: Buf, a: Answers)
    requires Plan(q, n) && Inv(q, n, b) && b.state == DataIn
    ensures Inv(q, n, Step(q, b, a))
  {
  }

  lemma KeepsLateSend(q: Request, n: Mask, b: Buf, a: Answers)
    requires Plan(q, n) && Inv(q, n, b) && b.state == LateSend
    ensures Inv(q, n, Step(q, b, a))
  {
    SendsMade(q, n, b);
  }

  lemma KeepsAckEvent(q: Request, n: Mask, b: Buf, a: Answers)
    requires Plan(q, n) && Inv(q, n, b) && b.state == AckEvent
    ensures Inv(q, n, Step(q, b, a))
  {
    AcksMade(q, n, b);
  }

  lemma KeepsReplyEvent(q: Request, n: Mask, b: Buf, a: Answers)
    requires Plan(q, n) && Inv(q, n, b) && b.state == ReplyEvent
    ensures Inv(q, n, Step(q, b, a))
  {
    RepliesMade(q, n, b);
  }

  lemma KeepsError(q: Request, n: Mask, b: Buf, a: Answers)
    requires Plan(q, n) && Inv(q, n, b) && b.state == Error
    ensures Inv(q, n, Step(q, b, a))
  {
  }

  lemma KeepsCleanup(q: Request, n: Mask, b: Buf, a: Answers)
    requires Plan(q, n) && Inv(q, n, b) && b.state == Cleanup
    ensures Inv(q, n, Step(q, b, a))
  {
  }

  lemma InvStep(q: Request, n: Mask, b: Buf, a: Answers)
    requires n == PrepMask(q) && Inv(q, n, b)
    ensures Inv(q, n, Step(q, b, a))
  {
    Planned(q);
    match b.state
    case Start => KeepsStart(q, n, b, a);
    case PrepReq => KeepsPrepReq(q, n, b, a);
    case WaitConn => KeepsWaitConn(q, n, b, a);
    case SendReq => KeepsSendReq(q, n, b, a);
    case WaitComp => KeepsWaitComp(q, n, b, a);
    case EarlySend => KeepsEarlySend(q, n, b, a);
    case WaitRecv => KeepsWaitRecv(q, n, b, a);
    case SendError => KeepsSendError(q, n, b, a);
    case DataIn => KeepsDataIn(q, n, b, a);
    case LateSend => KeepsLateSend(q, n, b, a);
    case AckEvent => KeepsAckEvent(q, n, b, a);
    case ReplyEvent => KeepsReplyEvent(q, n, b, a);
    case Error => KeepsError(q, n, b, a);
    case Cleanup => KeepsCleanup(q, n, b, a);
    case Done =>
  }

  lemma InvOutside(q: Request, n: Mask, b: Buf, x: Action)
    requires Inv(q, n, b) && !x.Do? && Enabled(b, x)
    ensures Inv(q, n, Apply(q, b, x))
  {
    match x
    case Completion(failed) => InvCompletion(q, n, b, failed);
    case Arrive(r) => InvArrive(q, n, b, r);
    case Cancel =>
  }

  lemma InvCompletion(q: Request, n: Mask, b: Buf, failed: bool)
    requires Inv(q, n, b) && Enabled(b, Completion(failed))
    ensures Inv(q, n, Apply(q, b, Completion(failed)))
  {
  }

  lemma InvArrive(q: Request, n: Mask, b: Buf, r: Response)
    requires Inv(q, n, b) && Enabled(b, Arrive(r))
    ensures Inv(q, n, Apply(q, b, Arrive(r)))
  {
  }

  lemma InvCreated(q: Request)
    ensures Inv(q, PrepMask(q), Created(q))
  {
  }

  lemma InvApply(q: Request, n: Mask, b: Buf, x: Action)
    requires n == PrepMask(q) && Inv(q, n, b)
    ensures Enabled(b, x) ==> Inv(q, n, Apply(q, b, x))
  {
    match x
    case Do(a) => InvStep(q, n, b, a);
    case _ =>
      if Enabled(b, x) {
        InvOutside(q, n, b, x);
      }
  }

  lemma {:induction false} InvRun(q: Request, bufs: seq<Buf>, acts: seq<Action>, k: nat)
    requires Run(q, bufs, acts) && k < |bufs|
    ensures Inv(q, PrepMask(q), bufs[k])
  {
    if k == 0 {
      InvCreated(q);
    } else {
      InvRun(q, bufs, acts, k - 1);
      InvApply(q, PrepMask(q), bufs[k - 1], acts[k - 1]);
      assert Stepped(q, bufs, acts, k - 1);
    }
  }

  // ---------------------------------------------------------------------------
  // Results
  // ---------------------------------------------------------------------------

  /** A run that reaches the end without an error generates each selected send event once,
      then each selected acknowledgement or reply event once; only an undeliverable message
      leaves those out. */
  lemma ExactlyOnce(q: Request, bufs: seq<Buf>, acts: seq<Action>, k: nat)
    requires Run(q, bufs, acts) && k < |bufs| && bufs[k].state == Done
    requires !bufs[k].past.erred && !bufs[k].past.cancelled
    ensures var kinds := Kinds(bufs[k].log);
      || kinds == SendKinds(q) + ResponseKinds(q)
      || (bufs[k].past.failed && kinds == SendKinds(q))
    ensures Posted(q, bufs[k].log)
  {
    InvRun(q, bufs, acts, k);
    Planned(q);
  }

  /** In every state of every run the events so far are the first of the selected ones. */
  lemma InOrderAtMostOnce(q: Request, bufs: seq<Buf>, acts: seq<Action>, k: nat)
    requires Run(q, bufs, acts) && k < |bufs|
    ensures Kinds(bufs[k].log) <= SendKinds(q) + ResponseKinds(q)
  {
    InvRun(q, bufs, acts, k);
    Planned(q);
    SoFar(q, PrepMask(q), bufs[k]);
  }

  lemma SoFar(q: Request, n: Mask, b: Buf)
    requires Inv(q, n, b)
    ensures Kinds(b.log) <= Sends(n) + Responses(n)
  {
    var kinds := Kinds(b.log);
    assert kinds == [] || kinds == Sends(n) || kinds == Sends(n) + Responses(n);
    Prefix(Sends(n), Responses(n));
  }

  lemma Prefix<T>(x: seq<T>, y: seq<T>)
    ensures [] <= x + y && x <= x + y
  {
  }

  /** Each descriptor reference is dropped at most once, and exactly once by the end. */
  lemma ReleasedOnce(q: Request, bufs: seq<Buf>, acts: seq<Action>, k: nat)
    requires Run(q, bufs, acts) && k < |bufs|
    ensures var r := bufs[k].refs;
      && r.putDrops <= (if q.HasPut() then 1 else 0) && r.getDrops <= (if q.HasGet() then 1 else 0)
      && (bufs[k].state == Done ==>
            && r.putDrops == (if q.HasPut() then 1 else 0)
            && r.getDrops == (if q.HasGet() then 1 else 0)
            && r.ended == 1)
  {
    InvRun(q, bufs, acts, k);
  }

  /** The early send state holds the put descriptor it drops; the response states hold a
      response; whoever waits has asked for what it waits for. */
  lemma Disciplined(q: Request, bufs: seq<Buf>, acts: seq<Action>, k: nat)
    requires Run(q, bufs, acts) && k < |bufs|
    ensures var b := bufs[k];
      && (b.state == EarlySend ==> b.refs.put)
      && (b.state == DataIn || b.state == AckEvent || b.state == ReplyEvent ==> b.recv.Some?)
      && (b.state == DataIn || b.state == ReplyEvent ==> b.refs.get)
      && (b.state == WaitComp ==> Signaled in b.mask)
      && (b.state == WaitRecv ==> b.ackReq != NoAck || q.HasGet())
  {
    InvRun(q, bufs, acts, k);
  }

  // ---------------------------------------------------------------------------
  // The failure code events carry
  // ---------------------------------------------------------------------------

  predicate IsSend(k: Kind) { k == Send || k == CtSend }

  predicate IsCount(k: Kind) { k == CtSend || k == CtAck || k == CtReply }

  /** An ack or reply event carries the response's code, or undeliverable if delivery
      failed meanwhile.  A send event carries no failure but an undeliverable message,
      whatever the response says.  A counting event counts a failure exactly when the
      buffer's code is one: the response's, or undeliverable, or for a send event made
      before the response none. */
  predicate EvTold(e: Ev, past: Past) {
    && (e.seen == Undeliverable ==> past.failed)
    && (|| e.seen == Undeliverable
        || (past.heard.Some? && e.seen == past.heard.value.fail)
        || (IsSend(e.kind) && e.seen == Fine))
    && (IsCount(e.kind) ==> !e.effect.Post? && (e.effect == CountFailure <==> e.seen != Fine))
    && (!IsCount(e.kind) ==> e.effect.Post? || e.effect.Suppressed?)
    && (e.kind == Send && e.effect.Post? ==>
          e.effect.code != Other && (e.effect.code == Undeliverable <==> e.seen == Undeliverable))
    && ((e.kind == Ack || e.kind == Reply) && e.effect.Post? ==> e.effect.code == e.seen)
  }

  predicate Answering(s: State) { s == DataIn || s == LateSend || s == AckEvent || s == ReplyEvent }

  predicate Heard(b: Buf) {
    && (b.recv.Some? ==> b.past.heard == b.recv)
    && (b.niFail == Undeliverable ==> b.past.failed)
    && (Answering(b.state) ==> b.niFail == Undeliverable || (b.past.heard.Some? && b.niFail == b.past.heard.value.fail))
    && (!Answering(b.state) && Working(b.state) ==> b.niFail == Fine || b.niFail == Undeliverable)
  }

  predicate Told(b: Buf) {
    Heard(b) && AllTold(b.log, b.past)
  }

  /** A step that leaves the codes alone and does not go back from answering. */
  predicate Onward(b: Buf, b': Buf) {
    && b'.niFail == b.niFail && (b'.recv == b.recv || b'.recv == None)
    && b'.past.heard == b.past.heard && b'.past.failed == b.past.failed
    && (Answering(b'.state) ==> Answering(b.state))
    && (Working(b'.state) && !Answering(b'.state) ==> Working(b.state) && !Answering(b.state))
  }

  lemma HeardOnward(b: Buf, b': Buf)
    requires Heard(b) && Onward(b, b')
    ensures Heard(b')
  {
  }

  lemma StartOnward(q: Request, b: Buf, a: Answers)
    requires b.state == Start || b.state == PrepReq || b.state == WaitConn || b.state == SendReq || b.state == WaitComp
    ensures Onward(b, Step(q, b, a)) && Step(q, b, a).log == b.log
  {
  }

  lemma AnswerOnward(q: Request, b: Buf, a: Answers)
    requires b.state == EarlySend || b.state == LateSend || b.state == AckEvent || b.state == ReplyEvent
    ensures Onward(b, Step(q, b, a))
  {
  }

  lemma EndOnward(q: Request, b: Buf, a: Answers)
    requires b.state == DataIn || b.state == Error || b.state == Cleanup || b.state == Done
    ensures Onward(b, Step(q, b, a)) && Step(q, b, a).log == b.log
  {
  }

  lemma HeardResponse(b: Buf)
    requires Heard(b) && (b.state == WaitRecv || b.state == SendError)
    ensures Heard(if b.state == WaitRecv then DoWaitRecv(b) else DoSendError(b))
  {
  }

  predicate AllTold(log: seq<Ev>, past: Past) {
    forall i :: 0 <= i < |log| ==> EvTold(log[i], past)
  }

  lemma ToldLog(log: seq<Ev>, c: bool, e: Ev, d: bool, f: Ev, past: Past)
    requires AllTold(log, past) && EvTold(e, past) && EvTold(f, past)
    ensures AllTold(log + If(c, e) + If(d, f), past)
  {
  }

  /** The events a handler generates carry the buffer's code. */
  lemma ToldMade(b: Buf, k: Kind)
    requires Heard(b) && Working(b.state) && (Answering(b.state) || IsSend(k))
    ensures EvTold(MakeEv(b, k), b.past)
  {
  }

  lemma ToldEvents(q: Request, b: Buf, a: Answers)
    requires Told(b)
    requires b.state == EarlySend || b.state == LateSend || b.state == AckEvent || b.state == ReplyEvent
    ensures AllTold(Step(q, b, a).log, b.past) && Step(q, b, a).past == b.past
  {
    match b.state
    case AckEvent =>
      ToldMade(b, Ack);
      ToldMade(b, CtAck);
      ToldLog(b.log, MaskAck in b.mask, MakeEv(b, Ack), MaskCtAck in b.mask, MakeEv(b, CtAck), b.past);
    case ReplyEvent =>
      ToldMade(b, Reply);
      ToldMade(b, CtReply);
      ToldLog(b.log, MaskReply in b.mask, MakeEv(b, Reply), MaskCtReply in b.mask, MakeEv(b, CtReply), b.past);
    case _ =>
      ToldMade(b, Send);
      ToldMade(b, CtSend);
      ToldLog(b.log, MaskSend in b.mask, MakeEv(b, Send), MaskCtSend in b.mask, MakeEv(b, CtSend), b.past);
  }

  /** Later failures and the response itself do not make a told event untold. */
  lemma ToldLater(log: seq<Ev>, past: Past, past': Past)
    requires AllTold(log, past) && (past.failed ==> past'.failed)
    requires past'.heard == past.heard || past.heard.None?
    ensures AllTold(log, past')
  {
  }

  lemma ToldStep(q: Request, b: Buf, a: Answers)
    requires Told(b)
    ensures Told(Step(q, b, a))
  {
    var b' := Step(q, b, a);
    if b.state == WaitRecv || b.state == SendError {
      HeardResponse(b);
      ToldLater(b.log, b.past, b'.past);
    } else if b.state == EarlySend || b.state == LateSend || b.state == AckEvent || b.state == ReplyEvent {
      AnswerOnward(q, b, a);
      HeardOnward(b, b');
      ToldEvents(q, b, a);
    } else {
      if b.state == DataIn || !Working(b.state) {
        EndOnward(q, b, a);
      } else {
        StartOnward(q, b, a);
      }
      HeardOnward(b, b');
      ToldLater(b.log, b.past, b'.past);
    }
  }

  lemma ToldOutside(q: Request, b: Buf, x: Action)
    requires Told(b) && !x.Do? && Enabled(b, x)
    ensures Told(Apply(q, b, x))
  {
    ToldLater(b.log, b.past, Apply(q, b, x).past);
  }

  lemma {:induction false} ToldRun(q: Request, bufs: seq<Buf>, acts: seq<Action>, k: nat)
    requires Run(q, bufs, acts) && k < |bufs|
    ensures Told(bufs[k])
  {
    if k == 0 {
    } else {
      ToldRun(q, bufs, acts, k - 1);
      assert Stepped(q, bufs, acts, k - 1);
      match acts[k - 1]
      case Do(a) => ToldStep(q, bufs[k - 1], a);
      case _ => ToldOutside(q, bufs[k - 1], acts[k - 1]);
    }
  }

  // ---------------------------------------------------------------------------
  // What a request has been through
  // ---------------------------------------------------------------------------

  predicate IsReply(k: Kind) { k == Reply || k == CtReply }

  predicate Replied(log: seq<Ev>) { exists e :: e in log && IsReply(e.kind) }

  /** Whatever data the response brought has been copied in. */
  predicate Brought(past: Past) { past.heard.Some? && (past.heard.value.data ==> past.copied) }

  /** A reply is told only of data that is there. */
  predicate CopiedFirst(q: Request, b: Buf) {
    && (b.state == LateSend && q.HasGet() && b.niFail != Undeliverable ==> Brought(b.past))
    && (b.state == ReplyEvent || Replied(b.log) ==> Brought(b.past))
  }

  predicate Onboard(s: State) {
    s == WaitComp || s == EarlySend || s == WaitRecv || s == DataIn || s == AckEvent || s == ReplyEvent
  }

  /** Events of a message that could not be sent say so. */
  predicate SentFirst(b: Buf) {
    && (Onboard(b.state) ==> b.past.sent)
    && (b.state == LateSend ==> b.past.sent || b.niFail == Undeliverable)
    && (!b.past.sent ==> forall e :: e in b.log ==> e.seen == Undeliverable)
    && (b.state == Cleanup || b.state == Done ==> b.past.sent || b.past.failed || b.past.erred || b.past.cancelled)
    && (b.past.cancelled ==> !b.past.sent && b.log == [] && (b.state == Cleanup || b.state == Done))
  }

  /** Who asked for a completion or a response has waited for it. */
  predicate Waited(n: Mask, b: Buf) {
    && (b.past.sent && Signaled in n && b.state != WaitComp ==> b.completed || b.past.heard.Some?)
    && (b.past.sent && ReceiveExpected in n && b.state != WaitComp && b.state != EarlySend && b.state != WaitRecv ==>
          b.past.failed || b.past.heard.Some?)
    && (b.state == EarlySend ==> Signaled in n || EarlySendOk in n)
  }

  /** A send event that tells of no failure before there is a response. */
  predicate Early(b: Buf) { b.log != [] && b.past.heard.None? && !b.past.failed }

  /** It tells the user that the data may be overwritten: the data was in the message, and the
      message was inlined or its sending is complete. */
  predicate SafeEarly(q: Request, b: Buf) {
    Early(b) ==> q.immediate && (q.fits || b.completed)
  }

  predicate Lived(q: Request, n: Mask, b: Buf) {
    CopiedFirst(q, b) && SentFirst(b) && Waited(n, b) && SafeEarly(q, b)
  }

  lemma MadeKinds(log: seq<Ev>, c: bool, e: Ev, d: bool, f: Ev)
    ensures forall g :: g in log + If(c, e) + If(d, f) ==> g in log || g == e || g == f
  {
  }

  lemma MadeLog(q: Request, b: Buf, a: Answers, e: Ev)
    requires e in Step(q, b, a).log && e !in b.log
    ensures e.seen == b.niFail
    ensures b.state == EarlySend || b.state == LateSend || b.state == AckEvent || b.state == ReplyEvent
    ensures b.state != ReplyEvent ==> !IsReply(e.kind)
  {
    MadeWhere(q, b, a);
    match b.state
    case AckEvent => MadeKinds(b.log, MaskAck in b.mask, MakeEv(b, Ack), MaskCtAck in b.mask, MakeEv(b, CtAck));
    case ReplyEvent => MadeKinds(b.log, MaskReply in b.mask, MakeEv(b, Reply), MaskCtReply in b.mask, MakeEv(b, CtReply));
    case _ => MadeKinds(b.log, MaskSend in b.mask, MakeEv(b, Send), MaskCtSend in b.mask, MakeEv(b, CtSend));
  }

  lemma MadeWhere(q: Request, b: Buf, a: Answers)
    ensures Step(q, b, a).log ==
      match b.state
      case EarlySend => MakeSends(b).log
      case LateSend => MakeSends(b).log
      case AckEvent => MakeAcks(b).log
      case ReplyEvent => MakeReplies(b).log
      case _ => b.log
  {
  }

  /** What a step adds to the record. */
  function Recorded(b: Buf, a: Answers): Past {
    match b.state
    case SendReq => if a.sends then b.past.(sent := true) else b.past
    case SendError => b.past.(failed := true)
    case WaitRecv =>
      if b.niFail != Undeliverable && b.recv.Some? then
        b.past.(failed := b.past.failed || b.recv.value.fail == Undeliverable)
      else b.past
    case DataIn => if a.copies then b.past.(copied := true) else b.past
    case Error => b.past.(erred := true)
    case _ => b.past
  }

  lemma RecordedStep(q: Request, b: Buf, a: Answers)
    ensures Step(q, b, a).past == Recorded(b, a)
  {
  }

  lemma KeptPast(q: Request, b: Buf, a: Answers)
    ensures var p, p' := b.past, Step(q, b, a).past;
      && p'.heard == p.heard && (p.copied ==> p'.copied) && (p.failed ==> p'.failed) && (p.sent ==> p'.sent)
      && p'.cancelled == p.cancelled && (p'.sent != p.sent ==> b.state == SendReq)
  {
    RecordedStep(q, b, a);
  }

  lemma CopiedStep(q: Request, n: Mask, b: Buf, a: Answers)
    requires Plan(q, n) && Inv(q, n, b) && Heard(b) && CopiedFirst(q, b)
    ensures CopiedFirst(q, Step(q, b, a))
  {
    var b' := Step(q, b, a);
    KeptPast(q, b, a);
    CopiedState(q, n, b, a);
    if Replied(b'.log) {
      var e :| e in b'.log && IsReply(e.kind);
      if e in b.log {
        assert Replied(b.log);
      } else {
        MadeLog(q, b, a, e);
      }
    }
  }

  lemma CopiedState(q: Request, n: Mask, b: Buf, a: Answers)
    requires Plan(q, n) && Inv(q, n, b) && Heard(b) && CopiedFirst(q, b)
    ensures var b' := Step(q, b, a);
      && (b'.state == LateSend && q.HasGet() && b'.niFail != Undeliverable ==> Brought(b'.past))
      && (b'.state == ReplyEvent ==> Brought(b'.past))
  {
    match b.state
    case WaitRecv =>
      assert b.refs.get == q.HasGet() && (MaskReply in b.mask || MaskCtReply in b.mask ==> q.HasGet());
      CopiedResponse(q, b);
    case DataIn => assert b.past.heard.Some?;
    case LateSend =>
      assert MaskReply in b.mask || MaskCtReply in b.mask ==> q.HasGet();
      CopiedLate(q, b);
    case _ => CopiedOther(q, b, a);
  }

  lemma CopiedResponse(q: Request, b: Buf)
    requires Heard(b) && b.state == WaitRecv && b.refs.get == q.HasGet()
    requires MaskReply in b.mask || MaskCtReply in b.mask ==> q.HasGet()
    ensures var b' := DoWaitRecv(b);
      (b'.state == LateSend && q.HasGet()) || b'.state == ReplyEvent ==> Brought(b'.past)
  {
  }

  lemma CopiedLate(q: Request, b: Buf)
    requires CopiedFirst(q, b) && b.state == LateSend
    requires MaskReply in b.mask || MaskCtReply in b.mask ==> q.HasGet()
    ensures DoLateSend(b).state == ReplyEvent ==> Brought(b.past)
    ensures DoLateSend(b).state != LateSend && DoLateSend(b).past == b.past
  {
  }

  lemma CopiedOther(q: Request, b: Buf, a: Answers)
    requires b.state != WaitRecv && b.state != DataIn && b.state != LateSend
    ensures var b' := Step(q, b, a);
      b'.state != ReplyEvent && (b'.state == LateSend ==> b'.niFail == Undeliverable)
  {
  }

  lemma SentStep(q: Request, n: Mask, b: Buf, a: Answers)
    requires Inv(q, n, b) && SentFirst(b)
    ensures SentFirst(Step(q, b, a))
  {
    var b' := Step(q, b, a);
    KeptPast(q, b, a);
    SentState(q, b, a);
    SentEnd(q, b, a);
    forall e | e in b'.log && !b'.past.sent ensures e.seen == Undeliverable {
      if e !in b.log {
        MadeLog(q, b, a, e);
      }
    }
  }

  lemma SentState(q: Request, b: Buf, a: Answers)
    requires SentFirst(b)
    ensures var b' := Step(q, b, a);
      && (Onboard(b'.state) ==> b'.past.sent)
      && (b'.state == LateSend ==> b'.past.sent || b'.niFail == Undeliverable)
  {
    RecordedStep(q, b, a);
  }

  lemma SentEnd(q: Request, b: Buf, a: Answers)
    requires SentFirst(b) && (b.niFail == Undeliverable ==> b.past.failed)
    ensures var b' := Step(q, b, a);
      && (b'.state == Cleanup || b'.state == Done ==>
            b'.past.sent || b'.past.failed || b'.past.erred || b'.past.cancelled)
      && (b'.past.cancelled ==> !b'.past.sent && b'.log == [] && (b'.state == Cleanup || b'.state == Done))
  {
    RecordedStep(q, b, a);
  }

  lemma WaitedStep(q: Request, n: Mask, b: Buf, a: Answers)
    requires n == PrepMask(q) && Inv(q, n, b) && Heard(b) && Waited(n, b)
    ensures Waited(n, Step(q, b, a))
  {
    match b.state
    case Start => assert !b.past.sent;
    case PrepReq => assert !b.past.sent;
    case WaitConn => assert !b.past.sent;
    case SendReq =>
      assert b.mask == n && !b.past.sent;
      WaitedSend(n, b, a);
    case EarlySend =>
      assert b.mask == n;
      WaitedEarly(n, b);
    case WaitComp =>
    case WaitRecv => WaitedRecv(n, b);
    case _ => WaitedOther(q, n, b, a);
  }

  lemma WaitedSend(n: Mask, b: Buf, a: Answers)
    requires b.state == SendReq && b.mask == n && !b.past.sent
    ensures Waited(n, DoSendReq(b, a))
  {
  }

  lemma WaitedEarly(n: Mask, b: Buf)
    requires b.state == EarlySend && b.mask == n && Heard(b) && Waited(n, b)
    ensures Waited(n, DoEarlySend(b))
  {
  }

  lemma WaitedRecv(n: Mask, b: Buf)
    requires b.state == WaitRecv && Heard(b) && Waited(n, b)
    ensures Waited(n, DoWaitRecv(b))
  {
  }

  lemma WaitedOther(q: Request, n: Mask, b: Buf, a: Answers)
    requires !(b.state == Start || b.state == PrepReq || b.state == WaitConn || b.state == SendReq)
    requires b.state != EarlySend && b.state != WaitComp && b.state != WaitRecv && Waited(n, b)
    ensures Waited(n, Step(q, b, a))
  {
    RecordedStep(q, b, a);
    SameCompleted(q, b, a);
  }

  lemma PlannedEarly(q: Request)
    ensures var n := PrepMask(q);
      && (Signaled in n || EarlySendOk in n ==> q.immediate || Sends(n) == [])
      && (Signaled !in n && EarlySendOk in n ==> q.fits)
  {
    PlannedSends(q);
  }

  lemma SafeStep(q: Request, n: Mask, b: Buf, a: Answers)
    requires n == PrepMask(q) && Inv(q, n, b) && Heard(b) && Waited(n, b) && SentFirst(b) && SafeEarly(q, b)
    ensures SafeEarly(q, Step(q, b, a))
  {
    var b' := Step(q, b, a);
    KeptPast(q, b, a);
    SameCompleted(q, b, a);
    if Early(b') && b.log == [] {
      MadeLog(q, b, a, b'.log[0]);
      FirstEvents(q, n, b, a);
    }
  }

  lemma SameCompleted(q: Request, b: Buf, a: Answers)
    ensures Step(q, b, a).completed == b.completed
  {
  }

  lemma EarlyState(b: Buf)
    requires Heard(b) && b.past.heard.None? && !b.past.failed
    requires b.state == EarlySend || b.state == LateSend || b.state == AckEvent || b.state == ReplyEvent
    ensures b.state == EarlySend
  {
  }

  lemma EarlyMask(b: Buf)
    requires b.log == [] && DoEarlySend(b).log != []
    ensures Sends(b.mask) != []
  {
  }

  /** The first events are made early only where they may be. */
  lemma FirstEvents(q: Request, n: Mask, b: Buf, a: Answers)
    requires n == PrepMask(q) && Inv(q, n, b) && Heard(b) && Waited(n, b) && SentFirst(b)
    requires b.log == [] && Step(q, b, a).log != [] && b.past.heard.None? && !b.past.failed
    requires b.state == EarlySend || b.state == LateSend || b.state == AckEvent || b.state == ReplyEvent
    ensures q.immediate && (q.fits || b.completed)
  {
    EarlyState(b);
    EarlyMask(b);
    assert b.mask == n && b.past.sent;
    PlannedEarly(q);
  }

  lemma LivedOutside(q: Request, n: Mask, b: Buf, x: Action)
    requires Inv(q, n, b) && Lived(q, n, b) && !x.Do? && Enabled(b, x)
    ensures Lived(q, n, Apply(q, b, x))
  {
  }

  lemma {:induction false} LivedRun(q: Request, bufs: seq<Buf>, acts: seq<Action>, k: nat)
    requires Run(q, bufs, acts) && k < |bufs|
    ensures Lived(q, PrepMask(q), bufs[k])
  {
    if k == 0 {
      LivedCreated(q);
    } else {
      LivedRun(q, bufs, acts, k - 1);
      LivedNext(q, bufs, acts, k - 1);
    }
  }

  lemma LivedNext(q: Request, bufs: seq<Buf>, acts: seq<Action>, k: nat)
    requires Run(q, bufs, acts) && k < |acts| && Lived(q, PrepMask(q), bufs[k])
    ensures Lived(q, PrepMask(q), bufs[k + 1])
  {
    InvRun(q, bufs, acts, k);
    ToldRun(q, bufs, acts, k);
    LivedApply(q, PrepMask(q), bufs[k], acts[k]);
    assert Stepped(q, bufs, acts, k);
  }

  lemma LivedCreated(q: Request)
    ensures Lived(q, PrepMask(q), Created(q))
  {
  }

  lemma LivedApply(q: Request, n: Mask, b: Buf, x: Action)
    requires n == PrepMask(q) && Inv(q, n, b) && Told(b) && Lived(q, n, b)
    ensures Enabled(b, x) ==> Lived(q, n, Apply(q, b, x))
  {
    Planned(q);
    match x
    case Do(a) => LivedStep(q, n, b, a);
    case _ =>
      if Enabled(b, x) {
        LivedOutside(q, n, b, x);
      }
  }

  lemma LivedStep(q: Request, n: Mask, b: Buf, a: Answers)
    requires n == PrepMask(q) && Plan(q, n) && Inv(q, n, b) && Heard(b) && Lived(q, n, b)
    ensures Lived(q, n, Step(q, b, a))
  {
    CopiedStep(q, n, b, a);
    SentStep(q, n, b, a);
    WaitedStep(q, n, b, a);
    SafeStep(q, n, b, a);
  }

  lemma {:induction false} FailedFor(q: Request, bufs: seq<Buf>, acts: seq<Action>, k: nat)
    requires Run(q, bufs, acts) && k < |bufs|
    ensures bufs[k].past.failed <==> bufs[k].niFail == Undeliverable
  {
    if k == 0 {
    } else {
      FailedFor(q, bufs, acts, k - 1);
      assert Stepped(q, bufs, acts, k - 1);
      if acts[k - 1].Do? {
        FailedStep(q, bufs[k - 1], acts[k - 1].answers);
      }
    }
  }

  lemma FailedStep(q: Request, b: Buf, a: Answers)
    requires b.past.failed <==> b.niFail == Undeliverable
    ensures Step(q, b, a).past.failed <==> Step(q, b, a).niFail == Undeliverable
  {
    RecordedStep(q, b, a);
    CodeStep(q, b, a);
  }

  lemma CodeStep(q: Request, b: Buf, a: Answers)
    ensures Step(q, b, a).niFail ==
      if b.state == SendError then Undeliverable
      else if b.state == WaitRecv && b.niFail != Undeliverable && b.recv.Some? then b.recv.value.fail
      else b.niFail
  {
  }

  /** A failure sticks: from then on the buffer is undeliverable, whatever else arrives, and
      so is every event made. */
  lemma FailureSticks(q: Request, bufs: seq<Buf>, acts: seq<Action>, k: nat)
    requires Run(q, bufs, acts) && k < |acts| && bufs[k].past.failed
    ensures bufs[k + 1].past.failed && bufs[k + 1].niFail == Undeliverable
    ensures forall e :: e in bufs[k + 1].log ==> e in bufs[k].log || e.seen == Undeliverable
  {
    FailedFor(q, bufs, acts, k);
    FailedFor(q, bufs, acts, k + 1);
    assert Stepped(q, bufs, acts, k);
    if acts[k].Do? {
      var a := acts[k].answers;
      KeptPast(q, bufs[k], a);
      forall e | e in bufs[k + 1].log && e !in bufs[k].log ensures e.seen == Undeliverable {
        MadeLog(q, bufs[k], a, e);
      }
    }
  }

  /** The target has a reason to respond: it returns data, was asked to, or works on regions
      that stay registered until it says so. */
  predicate Responds(q: Request) { q.HasGet() || q.mrs || (q.Acked() && q.ackReq != NoAck) }

  lemma PlannedWaits(q: Request)
    ensures var n := PrepMask(q);
      && (Responds(q) ==> ReceiveExpected in n)
      && (ReceiveExpected in n ==> Responds(q) || (q.HasPut() && !q.immediate && SendKinds(q) != []))
      && (Signaled in n ==> !q.fits)
      && (q.fits || Signaled in n || ReceiveExpected in n)
  {
  }

  /** In every state of every run: a reply event has its data copied in; the events of a
      message that was not sent say undeliverable; a send event made before any response and
      failure is one of data that may be overwritten. */
  lemma Truthful(q: Request, bufs: seq<Buf>, acts: seq<Action>, k: nat)
    requires Run(q, bufs, acts) && k < |bufs|
    ensures var b := bufs[k];
      && (Replied(b.log) ==> b.past.heard.Some? && (b.past.heard.value.data ==> b.past.copied))
      && (!b.past.sent ==> forall e :: e in b.log ==> e.seen == Undeliverable)
      && (b.past.cancelled ==> b.log == [])
      && (b.log != [] && b.past.heard.None? && !b.past.failed ==> q.immediate && (q.fits || b.completed))
  {
    LivedRun(q, bufs, acts, k);
  }

  /** Nothing is given up too early: a request that was sent is done only when its message
      was inlined, has left, has failed or was answered, and, where the target has a reason
      to respond, only when it has failed or was answered.  And nothing waits in vain: for a
      completion only if the message was not inlined, for a response only with a reason. */
  lemma Patient(q: Request, bufs: seq<Buf>, acts: seq<Action>, k: nat)
    requires Run(q, bufs, acts) && k < |bufs|
    ensures var b := bufs[k];
      && (b.state == Done && b.past.sent ==> q.fits || b.completed || b.past.failed || b.past.heard.Some?)
      && (b.state == Done && b.past.sent && Responds(q) ==> b.past.failed || b.past.heard.Some?)
      && (b.state == WaitComp ==> !q.fits)
      && (b.state == WaitRecv ==> Responds(q) || (q.HasPut() && !q.immediate && SendKinds(q) != []))
  {
    LivedRun(q, bufs, acts, k);
    PlannedWaits(q);
    WaitsAsked(q, bufs, acts, k);
  }

  lemma WaitsAsked(q: Request, bufs: seq<Buf>, acts: seq<Action>, k: nat)
    requires Run(q, bufs, acts) && k < |bufs|
    ensures bufs[k].state == WaitComp ==> Signaled in PrepMask(q)
    ensures bufs[k].state == WaitRecv ==> ReceiveExpected in PrepMask(q)
  {
    InvRun(q, bufs, acts, k);
  }

  // ---------------------------------------------------------------------------
  // Outcomes from the answers
  // ---------------------------------------------------------------------------

  predicate Errs(b: Buf, x: Action) {
    && x.Do?
    && (|| (b.state == PrepReq && !x.answers.prepared)
        || (b.state == WaitConn && !x.answers.connects)
        || (b.state == DataIn && !x.answers.copies))
  }

  predicate TakesUndeliverable(b: Buf, x: Action) {
    x.Do? && b.state == WaitRecv && b.niFail != Undeliverable && b.recv.Some? && b.recv.value.fail == Undeliverable
  }

  predicate Fails(b: Buf, x: Action) {
    || (x.Do? && b.state == SendReq && !x.answers.sends)
    || (x.Completion? && x.failed)
    || TakesUndeliverable(b, x)
  }

  predicate SendsIt(b: Buf, x: Action) { x.Do? && b.state == SendReq && x.answers.sends }

  predicate CopiesIt(b: Buf, x: Action) { x.Do? && b.state == DataIn && x.answers.copies }

  predicate FindsConn(b: Buf, x: Action) {
    x.Do? && ((b.state == PrepReq && x.answers.connected) || (b.state == WaitConn && x.answers.connects))
  }

  predicate LacksConn(b: Buf, x: Action) { x.Do? && b.state == PrepReq && !x.answers.connected }

  /** Some step before k is as p says. */
  ghost predicate Ever(bufs: seq<Buf>, acts: seq<Action>, k: nat, p: (Buf, Action) -> bool)
    requires |bufs| == |acts| + 1 && k <= |acts|
  {
    exists i :: 0 <= i < k && p(bufs[i], acts[i])
  }

  /** Step i is where f becomes true if p holds of it, and never false again. */
  ghost predicate Marks(bufs: seq<Buf>, acts: seq<Action>, i: nat, p: (Buf, Action) -> bool, f: Buf -> bool)
    requires |bufs| == |acts| + 1 && i < |acts|
  {
    f(bufs[i + 1]) <==> f(bufs[i]) || p(bufs[i], acts[i])
  }

  lemma {:induction false} EverMarked(bufs: seq<Buf>, acts: seq<Action>, k: nat, p: (Buf, Action) -> bool,
                                      f: Buf -> bool)
    requires |bufs| == |acts| + 1 && k <= |acts| && !f(bufs[0])
    requires forall i :: 0 <= i < k ==> Marks(bufs, acts, i, p, f)
    ensures f(bufs[k]) <==> Ever(bufs, acts, k, p)
  {
    if k == 0 {
    } else {
      EverMarked(bufs, acts, k - 1, p, f);
      assert Marks(bufs, acts, k - 1, p, f);
    }
  }

  /** Where the handlers turn to error, to the send error and to sending. */
  lemma TurnsStep(q: Request, b: Buf, a: Answers)
    ensures var t := Step(q, b, a).state;
      && (t == Error <==> Errs(b, Do(a)))
      && (t == SendError <==> (b.state == SendReq && !a.sends) || (b.state == WaitRecv && b.niFail == Undeliverable))
      && (t == SendReq ==> FindsConn(b, Do(a)))
      && (t == WaitConn ==> LacksConn(b, Do(a)))
  {
  }

  lemma HistoryDo(q: Request, b: Buf, a: Answers)
    requires Heard(b)
    ensures Historic(b, Do(a), Apply(q, b, Do(a)))
  {
    RecordedStep(q, b, a);
    TurnsStep(q, b, a);
  }

  predicate Erring(b: Buf) { b.past.erred || b.state == Error }

  predicate Failing(b: Buf) { b.past.failed || b.state == SendError }

  predicate WasSent(b: Buf) { b.past.sent }

  predicate WasCopied(b: Buf) { b.past.copied }

  /** One step of the history. */
  predicate Historic(b: Buf, x: Action, b': Buf) {
    && (Erring(b') <==> Erring(b) || Errs(b, x))
    && (Failing(b') <==> Failing(b) || Fails(b, x))
    && (WasSent(b') <==> WasSent(b) || SendsIt(b, x))
    && (WasCopied(b') <==> WasCopied(b) || CopiesIt(b, x))
    && (b'.past.cancelled <==> b.past.cancelled || x.Cancel?)
    && (b'.past.heard != b.past.heard ==> x.Arrive? && b'.past.heard == Some(x.response))
    && (b'.state == SendReq && b.state != SendReq ==> FindsConn(b, x))
    && (b'.state == WaitConn && b.state != WaitConn ==> LacksConn(b, x))
  }

  lemma HistoryStep(q: Request, bufs: seq<Buf>, acts: seq<Action>, i: nat)
    requires Run(q, bufs, acts) && i < |acts|
    ensures Historic(bufs[i], acts[i], bufs[i + 1])
  {
    ToldRun(q, bufs, acts, i);
    assert Stepped(q, bufs, acts, i);
    if acts[i].Do? {
      HistoryDo(q, bufs[i], acts[i].answers);
    }
  }

  /** What the buffer records is what has happened: an error exactly if preparing, connecting
      or copying was answered no where it was asked; a failure exactly if sending was, or a
      completion was in error, or an undeliverable response was taken. */
  lemma History(q: Request, bufs: seq<Buf>, acts: seq<Action>, k: nat)
    requires Run(q, bufs, acts) && k < |bufs|
    ensures var b := bufs[k];
      && (b.past.erred || b.state == Error <==> Ever(bufs, acts, k, Errs))
      && (b.past.failed || b.state == SendError <==> Ever(bufs, acts, k, Fails))
      && (b.past.sent <==> Ever(bufs, acts, k, SendsIt))
      && (b.past.copied <==> Ever(bufs, acts, k, CopiesIt))
  {
    forall i | 0 <= i < k
      ensures Marks(bufs, acts, i, Errs, Erring) && Marks(bufs, acts, i, Fails, Failing)
      ensures Marks(bufs, acts, i, SendsIt, WasSent) && Marks(bufs, acts, i, CopiesIt, WasCopied)
    {
      HistoryStep(q, bufs, acts, i);
    }
    EverMarked(bufs, acts, k, Errs, Erring);
    EverMarked(bufs, acts, k, Fails, Failing);
    EverMarked(bufs, acts, k, SendsIt, WasSent);
    EverMarked(bufs, acts, k, CopiesIt, WasCopied);
    assert Erring(bufs[k]) == (bufs[k].past.erred || bufs[k].state == Error);
    assert Failing(bufs[k]) == (bufs[k].past.failed || bufs[k].state == SendError);
    assert WasSent(bufs[k]) == bufs[k].past.sent && WasCopied(bufs[k]) == bufs[k].past.copied;
  }

  lemma {:induction false} HistoryActs(q: Request, bufs: seq<Buf>, acts: seq<Action>, k: nat)
    requires Run(q, bufs, acts) && k < |bufs|
    ensures bufs[k].past.cancelled <==> Cancel in acts[..k]
    ensures bufs[k].past.heard.Some? ==> Arrive(bufs[k].past.heard.value) in acts[..k]
  {
    if k == 0 {
    } else {
      HistoryActs(q, bufs, acts, k - 1);
      HistoryStep(q, bufs, acts, k - 1);
      assert acts[..k] == acts[..k - 1] + [acts[k - 1]];
    }
  }

  lemma {:induction false} HistoryConn(q: Request, bufs: seq<Buf>, acts: seq<Action>, k: nat)
    requires Run(q, bufs, acts) && k < |bufs|
    ensures bufs[k].state == SendReq ==> Ever(bufs, acts, k, FindsConn)
    ensures bufs[k].state == WaitConn ==> Ever(bufs, acts, k, LacksConn)
  {
    if k == 0 {
    } else {
      HistoryConn(q, bufs, acts, k - 1);
      HistoryStep(q, bufs, acts, k - 1);
      EverLater(bufs, acts, k - 1, FindsConn);
      EverLater(bufs, acts, k - 1, LacksConn);
    }
  }

  lemma EverLater(bufs: seq<Buf>, acts: seq<Action>, k: nat, p: (Buf, Action) -> bool)
    requires |bufs| == |acts| + 1 && k < |acts|
    ensures Ever(bufs, acts, k, p) || p(bufs[k], acts[k]) ==> Ever(bufs, acts, k + 1, p)
  {
  }

  /** What an entry into the machine may ask the transport and the connection. */
  datatype Question = Preparing | Finding | Connecting | Sending | Copying

  predicate Yes(a: Answers, what: Question) {
    match what
    case Preparing => a.prepared
    case Finding => a.connected
    case Connecting => a.connects
    case Sending => a.sends
    case Copying => a.copies
  }

  predicate AnsweredNo(acts: seq<Action>, what: Question) { exists x :: x in acts && x.Do? && !Yes(x.answers, what) }

  /** From the answers alone: a failure was answered, completed or received; an error was
      answered, and a connection missed only where there was none; what was sent had one. */
  lemma OnlyIfAnswered(q: Request, bufs: seq<Buf>, acts: seq<Action>, k: nat)
    requires Run(q, bufs, acts) && k < |bufs|
    ensures bufs[k].past.failed ==>
      || AnsweredNo(acts[..k], Sending)
      || Completion(true) in acts[..k]
      || exists data :: Arrive(Response(data, Undeliverable)) in acts[..k]
    ensures bufs[k].past.erred ==>
      || AnsweredNo(acts[..k], Preparing)
      || AnsweredNo(acts[..k], Copying)
      || (AnsweredNo(acts[..k], Connecting) && AnsweredNo(acts[..k], Finding))
    ensures bufs[k].past.sent ==>
      exists x :: x in acts[..k] && x.Do? && (x.answers.connected || x.answers.connects)
  {
    History(q, bufs, acts, k);
    if bufs[k].past.failed {
      FailedHow(q, bufs, acts, k);
    }
    if bufs[k].past.erred {
      ErredHow(q, bufs, acts, k);
    }
    if bufs[k].past.sent {
      var i :| 0 <= i < k && SendsIt(bufs[i], acts[i]);
      HistoryConn(q, bufs, acts, i);
      var j :| 0 <= j < i && FindsConn(bufs[j], acts[j]);
      assert acts[j] in acts[..k];
    }
  }

  lemma FailedHow(q: Request, bufs: seq<Buf>, acts: seq<Action>, k: nat)
    requires Run(q, bufs, acts) && k < |bufs| && Ever(bufs, acts, k, Fails)
    ensures || AnsweredNo(acts[..k], Sending)
            || Completion(true) in acts[..k]
            || exists data :: Arrive(Response(data, Undeliverable)) in acts[..k]
  {
    var i :| 0 <= i < k && Fails(bufs[i], acts[i]);
    assert acts[i] in acts[..k];
    if TakesUndeliverable(bufs[i], acts[i]) {
      ToldRun(q, bufs, acts, i);
      HistoryActs(q, bufs, acts, i);
      var r := bufs[i].recv.value;
      assert Arrive(r) in acts[..k] && r == Response(r.data, Undeliverable);
    }
  }

  lemma ErredHow(q: Request, bufs: seq<Buf>, acts: seq<Action>, k: nat)
    requires Run(q, bufs, acts) && k < |bufs| && Ever(bufs, acts, k, Errs)
    ensures || AnsweredNo(acts[..k], Preparing)
            || AnsweredNo(acts[..k], Copying)
            || (AnsweredNo(acts[..k], Connecting) && AnsweredNo(acts[..k], Finding))
  {
    var i :| 0 <= i < k && Errs(bufs[i], acts[i]);
    assert acts[i] in acts[..k];
    if bufs[i].state == WaitConn {
      HistoryConn(q, bufs, acts, i);
      var j :| 0 <= j < i && LacksConn(bufs[j], acts[j]);
      assert acts[j] in acts[..k];
    }
  }

  /** With every answer yes, no failure and no cancellation, a request that is done has
      generated all its events. */
  lemma AllYes(q: Request, bufs: seq<Buf>, acts: seq<Action>, k: nat)
    requires Run(q, bufs, acts) && k < |bufs| && bufs[k].state == Done
    requires !AnsweredNo(acts[..k], Preparing) && !AnsweredNo(acts[..k], Sending) && !AnsweredNo(acts[..k], Copying)
    requires !AnsweredNo(acts[..k], Finding) || !AnsweredNo(acts[..k], Connecting)
    requires Completion(true) !in acts[..k] && Cancel !in acts[..k]
    requires forall data :: Arrive(Response(data, Undeliverable)) !in acts[..k]
    ensures Kinds(bufs[k].log) == SendKinds(q) + ResponseKinds(q) && bufs[k].past.sent
  {
    OnlyIfAnswered(q, bufs, acts, k);
    HistoryActs(q, bufs, acts, k);
    ExactlyOnce(q, bufs, acts, k);
    LivedRun(q, bufs, acts, k);
  }

  function Rank(s: State): nat {
    match s
    case Start => 0
    case PrepReq => 1
    case WaitConn => 2
    case SendReq => 3
    case WaitComp => 4
    case EarlySend => 5
    case WaitRecv => 6
    case SendError => 7
    case DataIn => 8
    case LateSend => 9
    case AckEvent => 10
    case ReplyEvent => 10
    case Error => 11
    case Cleanup => 12
    case Done => 13
  }

  /** The machine stays in place exactly when it waits for something that has not come or
      is done, and then nothing changes; otherwise its rank grows. */
  lemma Progress(q: Request, b: Buf, a: Answers)
    ensures var waits := || b.state == Done
                         || (b.state == WaitComp && !b.completed && b.recv.None?)
                         || (b.state == WaitRecv && b.niFail != Undeliverable && b.recv.None?);
      if waits then Step(q, b, a) == b else Rank(b.state) < Rank(Step(q, b, a).state)
  {
  }
}
