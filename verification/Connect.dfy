/** Two peers that may both try to connect: the handlers of the connection manager's
    events, the requests, replies and refusals between them in any order, and the rule
    that settles crossing requests by comparing ids.  No operation of the connection
    manager fails here, and a peer does not connect to itself. */
module Connect {

  // ---------------------------------------------------------------------------
  // compare_id
  // ---------------------------------------------------------------------------

  const WORD := 0x1_0000_0000

  datatype Id = Id(nid: nat, pid: nat) {
    predicate Valid() { nid < WORD && pid < WORD }
  }

  /** A difference of two unsigned words, returned as an int. */
  function Signed(d: int): int {
    var u := d % WORD;
    if u >= WORD / 2 then u - WORD else u
  }

  function CompareId(a: Id, b: Id): int {
    if a.nid != b.nid then Signed(a.nid - b.nid) else Signed(a.pid - b.pid)
  }

  /** The components compare_id subtracts. */
  function Pair(a: Id, b: Id): (nat, nat) {
    if a.nid != b.nid then (a.nid, b.nid) else (a.pid, b.pid)
  }

  /** The deciding components are exactly half the range apart. */
  predicate Opposite(a: Id, b: Id) {
    var (x, y) := Pair(a, b);
    x - y == WORD / 2 || y - x == WORD / 2
  }

  lemma SignedDifference(x: nat, y: nat)
    requires x < WORD && y < WORD && x != y
    ensures Signed(x - y) != 0
    ensures if x - y == WORD / 2 || y - x == WORD / 2 then Signed(x - y) < 0 && Signed(y - x) < 0
            else Signed(x - y) > 0 <==> Signed(y - x) < 0
    ensures Signed(x - y) > 0 <==> 0 < x - y < WORD / 2 || x - y < -(WORD / 2)
  {
    if x > y {
      assert (y - x) % WORD == y - x + WORD;
    } else {
      assert (x - y) % WORD == x - y + WORD;
    }
  }

  /** Of two distinct ids exactly one is the higher, unless they are opposite: then each
      takes the other for the lower.  Less than half the range apart it is the one with the
      larger deciding component, further apart the one with the smaller. */
  lemma Decides(a: Id, b: Id)
    requires a.Valid() && b.Valid() && a != b
    ensures CompareId(a, b) != 0
    ensures if Opposite(a, b) then CompareId(a, b) < 0 && CompareId(b, a) < 0
            else CompareId(a, b) > 0 <==> CompareId(b, a) < 0
    ensures var (x, y) := Pair(a, b);
            CompareId(a, b) > 0 <==> if -(WORD / 2) <= x - y <= WORD / 2 then y < x < y + WORD / 2 else x < y
  {
    var (x, y) := Pair(a, b);
    SignedDifference(x, y);
    SignedDifference(y, x);
  }

  // ---------------------------------------------------------------------------
  // One end of a connection
  // ---------------------------------------------------------------------------

  datatype State = Disconnected | ResolvingAddr | ResolvingRoute | Connecting | Connected

  /** conn->rdma.cm_id: none, the id of the own request, or that of the peer's. */
  datatype CmId = NoId | Own | Peers

  /** conn_t; live says that the own request's id still has the connection as its context. */
  datatype Conn = Conn(state: State, cm: CmId, live: bool)

  function OnInit(c: Conn): Conn { Conn(ResolvingAddr, Own, true) }

  /** ADDR_RESOLVED and ROUTE_RESOLVED: go on, unless the peer's request took over. */
  predicate Proceeds(c: Conn, expected: State) { c.live && c.state == expected }

  function OnAddr(c: Conn): Conn {
    if Proceeds(c, ResolvingAddr) then c.(state := ResolvingRoute) else c
  }

  function OnRoute(c: Conn): Conn {
    if Proceeds(c, ResolvingRoute) then c.(state := Connecting) else c
  }

  /** process_connect_request; higher: the requester's id compares above ours. */
  predicate Accepts(c: Conn, higher: bool) {
    c.state == Disconnected || (c.state != Connected && higher)
  }

  function OnRequest(c: Conn, higher: bool): Conn {
    if Accepts(c, higher) then Conn(Connecting, Peers, false) else c
  }

  /** ESTABLISHED on the own request's id or on the accepted one. */
  function OnEstablished(c: Conn, own: bool): Conn {
    if (own && !c.live) || c.state != Connecting then c else c.(state := Connected)
  }

  // ---------------------------------------------------------------------------
  // Two ends
  // ---------------------------------------------------------------------------

  /** How far a peer's own request has come: resolving, on the wire, its refusal or its
      reply on the way back, its confirmation on the way, and the ways it can end. */
  datatype Req = Unsent | Addr | Route | Wire | Refused | Granted | Confirmed
               | Dropped | Rejected | Joined

  datatype Peer = Peer(conn: Conn, req: Req)

  datatype World = World(left: Peer, right: Peer) {
    function At(p: bool): Peer { if p then left else right }
    function With(p: bool, x: Peer): World { if p then this.(left := x) else this.(right := x) }
  }

  const START := World(Peer(Conn(Disconnected, NoId, false), Unsent), Peer(Conn(Disconnected, NoId, false), Unsent))

  /** What happens next; p names the peer whose request it concerns.  Begin: PtlPut or the
      like on a disconnected peer.  Arrive: the request reaches the other peer. */
  datatype Action = Begin(p: bool) | AddrResolved(p: bool) | RouteResolved(p: bool) | Arrive(p: bool)
                  | Refusal(p: bool) | Reply(p: bool) | Ready(p: bool)

  predicate Enabled(w: World, x: Action) {
    var peer := w.At(x.p);
    match x
    case Begin(_) => peer.conn.state == Disconnected
    case AddrResolved(_) => peer.req == Addr
    case RouteResolved(_) => peer.req == Route
    case Arrive(_) => peer.req == Wire
    case Refusal(_) => peer.req == Refused
    case Reply(_) => peer.req == Granted
    case Ready(_) => peer.req == Confirmed
  }

  /** higher: the requester's id is above the other's. */
  function Apply(w: World, x: Action, higher: bool): World {
    var p := x.p;
    var me, other := w.At(p), w.At(!p);
    match x
    case Begin(_) => w.With(p, Peer(OnInit(me.conn), Addr))
    case AddrResolved(_) => w.With(p, Peer(OnAddr(me.conn), if Proceeds(me.conn, ResolvingAddr) then Route else Dropped))
    case RouteResolved(_) => w.With(p, Peer(OnRoute(me.conn), if Proceeds(me.conn, ResolvingRoute) then Wire else Dropped))
    case Arrive(_) =>
      w.With(p, me.(req := if Accepts(other.conn, higher) then Granted else Refused))
       .With(!p, other.(conn := OnRequest(other.conn, higher)))
    case Refusal(_) => w.With(p, me.(req := Rejected))
    case Reply(_) => w.With(p, Peer(OnEstablished(me.conn, true), Confirmed))
    case Ready(_) => w.With(p, me.(req := Joined)).With(!p, other.(conn := OnEstablished(other.conn, false)))
  }

  /** The ids of the peers on the left and on the right. */
  datatype Ids = Ids(left: Id, right: Id) {
    predicate Valid() { left.Valid() && right.Valid() && left != right }

    /** compare_id(src, own) > 0 when p's request arrives at the other peer. */
    predicate Higher(p: bool) {
      (if p then CompareId(left, right) else CompareId(right, left)) > 0
    }
  }

  function Next(ids: Ids, w: World, x: Action): World { Apply(w, x, ids.Higher(x.p)) }

  predicate Stepped(ids: Ids, ws: seq<World>, acts: seq<Action>, i: nat)
    requires |ws| == |acts| + 1 && i < |acts|
  {
    Enabled(ws[i], acts[i]) && ws[i + 1] == Next(ids, ws[i], acts[i])
  }

  predicate Run(ids: Ids, ws: seq<World>, acts: seq<Action>) {
    && |ws| == |acts| + 1
    && ws[0] == START
    && forall i :: 0 <= i < |acts| ==> Stepped(ids, ws, acts, i)
  }

  // ---------------------------------------------------------------------------
  // The invariant
  // ---------------------------------------------------------------------------

  predicate Accepted(r: Req) { r == Granted || r == Confirmed || r == Joined }

  /** A peer whose connection rides on its own request. */
  predicate OwnRide(me: Peer) {
    me.conn.live &&
    match me.req
    case Addr => me.conn.state == ResolvingAddr
    case Route => me.conn.state == ResolvingRoute
    case Wire => me.conn.state == Connecting
    case Refused => me.conn.state == Connecting
    case Rejected => me.conn.state == Connecting
    case Granted => me.conn.state == Connecting
    case Confirmed => me.conn.state == Connected
    case Joined => me.conn.state == Connected
    case _ => false
  }

  /** A peer whose connection rides on the other's request. */
  predicate PeersRide(me: Peer, other: Peer) {
    && !me.conn.live
    && !Accepted(me.req)
    && (if other.req == Joined then me.conn.state == Connected
        else (other.req == Granted || other.req == Confirmed) && me.conn.state == Connecting)
  }

  /** wins: the other peer's id is above mine. */
  predicate Consistent(me: Peer, other: Peer, wins: bool) {
    && (match me.conn.cm
        case NoId => me.conn.state == Disconnected && me.req == Unsent && !me.conn.live
        case Own => OwnRide(me)
        case Peers => PeersRide(me, other))
    && (me.conn.state == Disconnected ==> me.conn.cm == NoId)
    && (Accepted(other.req) ==> me.conn.cm == Peers)
    && (me.req == Dropped ==> me.conn.cm == Peers)
    && (me.conn.cm == Peers && me.req != Unsent ==> wins)
  }

  /** A peer that was refused knows the other's request to be still on its way. */
  predicate Yields(me: Peer, other: Peer, wins: bool) {
    (me.req == Refused || me.req == Rejected) && me.conn.cm == Own ==>
      wins && other.conn.cm == Own && (other.req == Addr || other.req == Route || other.req == Wire)
  }

  predicate Inv(w: World, leftHigher: bool, rightHigher: bool) {
    Consistent(w.left, w.right, rightHigher) && Consistent(w.right, w.left, leftHigher)
  }

  predicate Yielding(w: World, leftHigher: bool, rightHigher: bool) {
    Yields(w.left, w.right, rightHigher) && Yields(w.right, w.left, leftHigher)
  }

  /** What every world of a run keeps; the second part needs ids that are not opposite. */
  predicate Sound(ids: Ids, w: World) {
    && Inv(w, ids.Higher(true), ids.Higher(false))
    && (!Opposite(ids.left, ids.right) ==> Yielding(w, ids.Higher(true), ids.Higher(false)))
  }

  lemma InvStep(w: World, x: Action, leftHigher: bool, rightHigher: bool)
    requires Inv(w, leftHigher, rightHigher) && !(leftHigher && rightHigher) && Enabled(w, x)
    ensures Inv(Apply(w, x, if x.p then leftHigher else rightHigher), leftHigher, rightHigher)
  {
  }

  lemma YieldStep(w: World, x: Action, leftHigher: bool)
    requires Inv(w, leftHigher, !leftHigher) && Yielding(w, leftHigher, !leftHigher) && Enabled(w, x)
    ensures Yielding(Apply(w, x, if x.p then leftHigher else !leftHigher), leftHigher, !leftHigher)
  {
  }

  lemma SoundStep(ids: Ids, w: World, x: Action)
    requires ids.Valid() && Sound(ids, w) && Enabled(w, x)
    ensures Sound(ids, Next(ids, w, x))
  {
    Decides(ids.left, ids.right);
    Decides(ids.right, ids.left);
    InvStep(w, x, ids.Higher(true), ids.Higher(false));
    if !Opposite(ids.left, ids.right) {
      YieldStep(w, x, ids.Higher(true));
    }
  }

  lemma {:induction false} SoundRun(ids: Ids, ws: seq<World>, acts: seq<Action>, k: nat)
    requires ids.Valid() && Run(ids, ws, acts) && k < |ws|
    ensures Sound(ids, ws[k])
  {
    if k == 0 {
    } else {
      SoundRun(ids, ws, acts, k - 1);
      assert Stepped(ids, ws, acts, k - 1);
      SoundStep(ids, ws[k - 1], acts[k - 1]);
    }
  }

  // ---------------------------------------------------------------------------
  // Results
  // ---------------------------------------------------------------------------

  /** At most one of two crossing requests is accepted, that of the peer with the higher id,
      and two connected peers are connected by the same one. */
  lemma OneRequest(ids: Ids, ws: seq<World>, acts: seq<Action>, k: nat)
    requires ids.Valid() && Run(ids, ws, acts) && k < |ws|
    ensures !(Accepted(ws[k].left.req) && Accepted(ws[k].right.req))
    ensures ws[k].left.conn.state == Connected && ws[k].right.conn.state == Connected ==>
      if ws[k].left.conn.cm == Own
      then ws[k].right.conn.cm == Peers && Accepted(ws[k].left.req)
      else ws[k].left.conn.cm == Peers && ws[k].right.conn.cm == Own && Accepted(ws[k].right.req)
    ensures ws[k].left.req != Unsent && Accepted(ws[k].right.req) ==> CompareId(ids.right, ids.left) > 0
    ensures ws[k].right.req != Unsent && Accepted(ws[k].left.req) ==> CompareId(ids.left, ids.right) > 0
  {
    SoundRun(ids, ws, acts, k);
  }

  ghost predicate Quiet(w: World) {
    forall x: Action :: Enabled(w, x) ==> x.Begin?
  }

  lemma QuietConnected(ids: Ids, w: World)
    requires !Opposite(ids.left, ids.right) && Sound(ids, w) && Quiet(w)
    ensures w == START || (w.left.conn.state == Connected && w.right.conn.state == Connected)
  {
    forall p: bool
      ensures w.At(p).req in {Unsent, Dropped, Rejected, Joined}
    {
      assert !Enabled(w, AddrResolved(p)) && !Enabled(w, RouteResolved(p)) && !Enabled(w, Arrive(p));
      assert !Enabled(w, Refusal(p)) && !Enabled(w, Reply(p)) && !Enabled(w, Ready(p));
    }
    assert w.At(true) == w.left && w.At(false) == w.right;
  }

  /** When nothing is under way, either nothing was begun or both peers are connected. */
  lemma NotStuck(ids: Ids, ws: seq<World>, acts: seq<Action>, k: nat)
    requires ids.Valid() && !Opposite(ids.left, ids.right) && Run(ids, ws, acts) && k < |ws| && Quiet(ws[k])
    ensures ws[k] == START || (ws[k].left.conn.state == Connected && ws[k].right.conn.state == Connected)
  {
    SoundRun(ids, ws, acts, k);
    QuietConnected(ids, ws[k]);
  }

  function Progress(r: Req): nat {
    match r
    case Unsent => 0
    case Addr => 1
    case Route => 2
    case Wire => 3
    case Refused => 4
    case Granted => 4
    case Confirmed => 5
    case _ => 6
  }

  function Done(w: World): nat { Progress(w.left.req) + Progress(w.right.req) }

  lemma Advances(ids: Ids, w: World, x: Action)
    requires Sound(ids, w) && Enabled(w, x)
    ensures Done(w) < Done(Next(ids, w, x))
  {
    assert w.At(true) == w.left && w.At(false) == w.right;
    assert Progress(w.At(x.p).req) < Progress(Next(ids, w, x).At(x.p).req);
  }

  /** Every exchange ends: a run has at most twelve steps. */
  lemma {:induction false} Bounded(ids: Ids, ws: seq<World>, acts: seq<Action>, k: nat)
    requires ids.Valid() && Run(ids, ws, acts) && k < |ws|
    ensures k <= Done(ws[k]) <= 12
  {
    if k == 0 {
    } else {
      Bounded(ids, ws, acts, k - 1);
      SoundRun(ids, ws, acts, k - 1);
      assert Stepped(ids, ws, acts, k - 1);
      Advances(ids, ws[k - 1], acts[k - 1]);
    }
  }

  /** Opposite ids: each peer refuses the other, and both stay connecting for good. */
  lemma OppositeStuck(ids: Ids) returns (ws: seq<World>, acts: seq<Action>)
    requires ids.Valid() && Opposite(ids.left, ids.right)
    ensures Run(ids, ws, acts)
    ensures var w := ws[|acts|];
      && (forall x: Action :: !Enabled(w, x))
      && w.left.conn.state == Connecting && w.right.conn.state == Connecting
  {
    Decides(ids.left, ids.right);
    Decides(ids.right, ids.left);
    var d := START.left;
    var a, r, c := Riding(ResolvingAddr, Addr), Riding(ResolvingRoute, Route), Riding(Connecting, Wire);
    var f, j := Riding(Connecting, Refused), Riding(Connecting, Rejected);
    acts := [Begin(true), Begin(false), AddrResolved(true), AddrResolved(false), RouteResolved(true),
             RouteResolved(false), Arrive(true), Arrive(false), Refusal(true), Refusal(false)];
    ws := [START, World(a, d), World(a, a), World(r, a), World(r, r), World(c, r), World(c, c),
           World(f, c), World(f, f), World(j, f), World(j, j)];
  }

  function Riding(s: State, r: Req): Peer { Peer(Conn(s, Own, true), r) }

  // ---------------------------------------------------------------------------
  // The handlers, updating a connection in place
  // ---------------------------------------------------------------------------

  class Endpoint {
    var state: State
    var cmId: CmId
    var ownContext: bool

    function Now(): Conn
      reads this
    {
      Conn(state, cmId, ownContext)
    }

    constructor ()
      ensures Now() == START.left.conn
    {
      state, cmId, ownContext := Disconnected, NoId, false;
    }

    method InitConnect()
      requires state == Disconnected
      modifies this
      ensures Now() == OnInit(old(Now()))
    {
      state := ResolvingAddr;
      cmId := Own;
      ownContext := true;
    }

    /** go: the connection manager is asked for the route. */
    method AddressResolved() returns (go: bool)
      modifies this
      ensures Now() == OnAddr(old(Now())) && go == Proceeds(old(Now()), ResolvingAddr)
    {
      if !ownContext || state != ResolvingAddr {
        return false;
      }
      state := ResolvingRoute;
      go := true;
    }

    /** go: the request is sent. */
    method RouteResolved() returns (go: bool)
      modifies this
      ensures Now() == OnRoute(old(Now())) && go == Proceeds(old(Now()), ResolvingRoute)
    {
      if !ownContext || state != ResolvingRoute {
        return false;
      }
      state := Connecting;
      go := true;
    }

    /** accept_connection_request: cancel the own attempt and ride on the peer's. */
    method Accept()
      modifies this
      ensures Now() == Conn(Connecting, Peers, false)
    {
      state := Connecting;
      ownContext := false;
      cmId := Peers;
    }

    method ConnectRequest(src: Id, own: Id) returns (accepted: bool)
      requires src.Valid() && own.Valid() && src != own
      modifies this
      ensures Now() == OnRequest(old(Now()), CompareId(src, own) > 0)
      ensures accepted == Accepts(old(Now()), CompareId(src, own) > 0)
    {
      match state
      case Connected =>
        accepted := false;
      case Disconnected =>
        Accept();
        accepted := true;
      case _ =>
        accepted := CompareId(src, own) > 0;
        if accepted {
          Accept();
        }
    }

    method Established(onOwn: bool)
      modifies this
      ensures Now() == OnEstablished(old(Now()), onOwn)
    {
      if onOwn && !ownContext {
        return;
      }
      if state == Connecting {
        state := Connected;
      }
    }
  }

  /** The request has an event to come. */
  predicate Pending(r: Req) {
    r == Addr || r == Route || r == Wire || r == Refused || r == Granted || r == Confirmed
  }

  function EventOf(p: bool, r: Req): Action
    requires Pending(r)
  {
    match r
    case Addr => AddrResolved(p)
    case Route => RouteResolved(p)
    case Wire => Arrive(p)
    case Refused => Refusal(p)
    case Granted => Reply(p)
    case Confirmed => Ready(p)
  }

  lemma NonePending(w: World)
    requires !Pending(w.left.req) && !Pending(w.right.req)
    ensures Quiet(w)
  {
  }

  /** Two ends in place, with the requests between them. */
  class Exchange {
    const ids: Ids
    const left: Endpoint
    const right: Endpoint
    var leftReq: Req
    var rightReq: Req

    function Now(): World
      reads this, left, right
    {
      World(Peer(left.Now(), leftReq), Peer(right.Now(), rightReq))
    }

    ghost predicate Valid()
      reads this, left, right
    {
      left != right && ids.Valid() && Sound(ids, Now())
    }

    constructor (ids: Ids)
      requires ids.Valid()
      ensures Valid() && Now() == START && this.ids == ids
    {
      this.ids := ids;
      left := new Endpoint();
      right := new Endpoint();
      leftReq, rightReq := Unsent, Unsent;
    }

    method SetReq(p: bool, r: Req)
      modifies this
      ensures leftReq == (if p then r else old(leftReq)) && rightReq == (if p then old(rightReq) else r)
    {
      if p {
        leftReq := r;
      } else {
        rightReq := r;
      }
    }

    /** One event of the connection manager. */
    method Deliver(x: Action)
      requires Valid() && Enabled(Now(), x)
      modifies this, left, right
      ensures Valid() && Now() == Next(ids, old(Now()), x) && Done(old(Now())) < Done(Now())
    {
      SoundStep(ids, Now(), x);
      Advances(ids, Now(), x);
      Handle(x);
    }

    /** The end that x is for runs its handler. */
    method Handle(x: Action)
      requires left != right && ids.Valid() && Enabled(Now(), x)
      modifies this, left, right
      ensures Now() == Next(ids, old(Now()), x)
    {
      var p := x.p;
      var mine, others := if p then left else right, if p then right else left;
      match x
      case Begin(_) =>
        mine.InitConnect();
        SetReq(p, Addr);
      case AddrResolved(_) =>
        var go := mine.AddressResolved();
        SetReq(p, if go then Route else Dropped);
      case RouteResolved(_) =>
        var go := mine.RouteResolved();
        SetReq(p, if go then Wire else Dropped);
      case Arrive(_) =>
        var ok := others.ConnectRequest(if p then ids.left else ids.right, if p then ids.right else ids.left);
        SetReq(p, if ok then Granted else Refused);
      case Refusal(_) =>
        SetReq(p, Rejected);
      case Reply(_) =>
        mine.Established(true);
        SetReq(p, Confirmed);
      case Ready(_) =>
        others.Established(false);
        SetReq(p, Joined);
    }

    /** Whatever is under way is delivered, one event at a time and in the order asked for,
        until nothing is.  If anything was begun, both ends are then connected. */
    method Settle(order: seq<bool>)
      requires Valid()
      modifies this, left, right
      ensures Valid() && Quiet(Now())
      ensures !Opposite(ids.left, ids.right) && old(Now()) != START ==>
                Now().left.conn.state == Connected && Now().right.conn.state == Connected
    {
      var i := 0;
      while Pending(leftReq) || Pending(rightReq)
        invariant Valid() && (old(Now()) != START ==> Now() != START)
        decreases 12 - Done(Now())
      {
        var p := if i < |order| && !order[i] then !Pending(rightReq) else Pending(leftReq);
        Deliver(EventOf(p, if p then leftReq else rightReq));
        i := i + 1;
      }
      NonePending(Now());
      if !Opposite(ids.left, ids.right) {
        QuietConnected(ids, Now());
      }
    }
  }
}
