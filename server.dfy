/** The current broker, packages/server/src/server.js.

    Each socket.io handler of `serve` and `makeBridge` is a step function on
    `State`. The class `Broker` at the end runs the same handlers as in-place
    updates of its tables, and each method is proved to agree with its step
    function.

    Bridge label tables (`sockets_by_label`) are shared objects: the
    `sockets_by_bridgenum` entry and the closures of every socket of the
    bridge refer to the same table. They live in `labelTables` and are
    referred to by index, so a closure still sees its table after the entry
    in `sockets_by_bridgenum` has been deleted. socket.io keeps a namespace
    and its connection handler after `delete nsps_by_bridgenum[n]`, so
    `namespaces` (numbers with a registered handler) is kept apart from
    `nspsByBridgenum`. */
module Server {
  import opened Wrappers
  import opened JsObject
  import opened Decimal
  import opened Transport
  import OtherKey

  const MAX_NUM_BRIDGES: nat := 100

  const TAKEN_PREFIX := "Another client is already logged in with uid "
  const SANITY_MSG := "Server logic screwed up and must be revised"
  const NOT_YET_MSG := "Other socket not yet connected. You should wait for the peer_connected event."

  type Uid = string
  type TableId = nat

  /** An entry of `clients_by_id`. */
  datatype Client = Client(socket: SocketId, uuid: string)

  /** An entry of `waiting_conns[target]`, keyed by the requester's id. */
  datatype Waiting = Waiting(uuid: string, socket: SocketId, bridgenum: nat)

  /** What the handlers registered on one admitted bridge socket capture: its
      bridge number, its label table, and the label it sent with `start`
      once that has run (which is also when its forwarding and disconnect
      handlers exist). The label is stored under its property key. */
  datatype BridgeSocket = BridgeSocket(bridgenum: nat, table: TableId, started: Option<Value>)

  datatype State = State(
    clientsById: map<Uid, Client>,
    waitingConns: map<Uid, Dict<Waiting>>,
    socketsByBridgenum: map<nat, TableId>,
    nspsByBridgenum: set<nat>,
    numBridges: nat,
    labelTables: seq<Dict<SocketId>>,
    namespaces: set<nat>,                      // bridge namespaces with a connection handler
    nspSockets: map<nat, seq<SocketId>>,       // sockets connected to each bridge namespace
    bridgeSockets: map<SocketId, BridgeSocket>,
    outbox: seq<Action>)

  /** A handler's effect, and the message of the exception it threw, if any.
      Updates made before the throw are kept. */
  datatype Step = Step(state: State, thrown: Option<string>)

  /** The broker as `BridgeServer` leaves it: all tables empty, `num_bridges = 0`. */
  function Init(): State {
    State(map[], map[], map[], {}, 0, [], {}, map[], map[], [])
  }

  /** Every table handle in use refers to an existing table. */
  ghost predicate Wf(s: State) {
    && (forall n :: n in s.socketsByBridgenum ==> s.socketsByBridgenum[n] < |s.labelTables|)
    && (forall x :: x in s.bridgeSockets ==> s.bridgeSockets[x].table < |s.labelTables|)
  }

  /** The invariant every reachable state keeps: tables well formed, at most
      `MAX_NUM_BRIDGES` bridges with sockets, bridge numbers in use below the
      counter, and the label tables consistent with the started sockets. */
  ghost predicate Valid(s: State) {
    && Wf(s)
    && |s.socketsByBridgenum| <= MAX_NUM_BRIDGES
    && Numbered(s)
    && (forall id :: id in s.waitingConns ==> DistinctKeys(s.waitingConns[id]) && Ordered(s.waitingConns[id]))
    && LabelsKept(s)
  }

  /** Every bridge number in use (with a namespace, or parked in a waiting
      entry) is below `num_bridges`. */
  ghost predicate Numbered(s: State) {
    && s.nspsByBridgenum <= s.namespaces
    && (forall n :: n in s.namespaces ==> n < s.numBridges)
    && (forall id, e :: id in s.waitingConns && e in s.waitingConns[id] ==> e.1.bridgenum < s.numBridges)
  }

  /** Each label table holds every label once, and a started socket's label
      is in its bridge's table. */
  ghost predicate LabelsKept(s: State)
    requires Wf(s)
  {
    && (forall t :: 0 <= t < |s.labelTables| ==> DistinctKeys(s.labelTables[t]) && Ordered(s.labelTables[t]))
    && (forall x :: x in s.bridgeSockets ==> Holds(s.labelTables[s.bridgeSockets[x].table], s.bridgeSockets[x]))
  }

  /** Table `t` holds the label of socket `b`, if it has started. */
  ghost predicate Holds(t: Dict<SocketId>, b: BridgeSocket) {
    b.started.Some? ==> Get(t, PropertyKey(b.started.value)).Some?
  }

  function ConnectToBridge(to: SocketId, uuid: string, bridgenum: nat): Action {
    Emit(to, "connect_to_bridge", [Str(uuid), Num(bridgenum)])
  }

  /** `waiting_conns[id]`, an absent table read as empty. */
  function WaitingFor(s: State, id: Uid): Dict<Waiting> {
    if id in s.waitingConns then s.waitingConns[id] else []
  }

  function NspSockets(s: State, n: nat): seq<SocketId> {
    if n in s.nspSockets then s.nspSockets[n] else []
  }

  /** The labels of the sockets among `xs` that have sent `start`. */
  function StartedLabels(bs: map<SocketId, BridgeSocket>, xs: seq<SocketId>): set<Uid> {
    set x | x in xs && x in bs && bs[x].started.Some? :: PropertyKey(bs[x].started.value)
  }

  // ---------------------------------------------------------------------------
  // makeBridge

  datatype Made = Made(state: State, err: Option<string>)

  /** `makeBridge(bridgenum)`: refuses a number that already has a namespace,
      otherwise creates one and registers its connection handler. */
  function MakeBridge(s: State, bridgenum: nat): (r: Made)
    ensures r.err.Some? <==> bridgenum in s.nspsByBridgenum
    ensures r.err.Some? ==> r.state == s
    ensures r.err.None? ==> r.state == s.(nspsByBridgenum := s.nspsByBridgenum + {bridgenum},
                                          namespaces := s.namespaces + {bridgenum})
  {
    if bridgenum in s.nspsByBridgenum then
      Made(s, Some("Server logic error: " + Show(bridgenum) + " already existing"))
    else
      Made(s.(nspsByBridgenum := s.nspsByBridgenum + {bridgenum}, namespaces := s.namespaces + {bridgenum}), None)
  }

  // ---------------------------------------------------------------------------
  // serve(): login and request_bridge on a control socket

  /** `login(uuid, myid)` on control socket `socket`. */
  function Login(s: State, socket: SocketId, uuid: string, myid: Uid): State {
    if myid in s.clientsById then
      s.(outbox := s.outbox + [Emit(socket, "internal_error", [Str(uuid), Str(TAKEN_PREFIX + myid)])])
    else
      var s1 := s.(clientsById := s.clientsById[myid := Client(socket, uuid)],
                   outbox := s.outbox + [Emit(socket, "logged_in", [Str(uuid)])]);
      DrainWaiting(s1, socket, uuid, myid, Keys(WaitingFor(s1, myid)))
  }

  /** The `for (let wid of waiting_clientids)` loop of `login`. */
  function DrainWaiting(s: State, socket: SocketId, uuid: string, myid: Uid, wids: seq<Uid>): State
    decreases |wids|
  {
    if wids == [] then s
    else match Get(WaitingFor(s, myid), wids[0])
      case None =>
        s.(outbox := s.outbox + [Emit(socket, "internal_error", [Str(uuid), Str(SANITY_MSG)])])
      case Some(w) => DrainWaiting(DrainStep(s, socket, uuid, myid, wids[0], w), socket, uuid, myid, wids[1..])
  }

  /** One turn of that loop for the entry `wid -> w`: create the bridge, tell
      both sides, delete the entry. */
  function DrainStep(s: State, socket: SocketId, uuid: string, myid: Uid, wid: Uid, w: Waiting): (r: State)
    ensures r == s.(waitingConns := s.waitingConns[myid := Delete(WaitingFor(s, myid), wid)],
                    nspsByBridgenum := s.nspsByBridgenum + {w.bridgenum},
                    namespaces := if w.bridgenum in s.nspsByBridgenum then s.namespaces else s.namespaces + {w.bridgenum},
                    outbox := s.outbox + [ConnectToBridge(socket, uuid, w.bridgenum),
                                          ConnectToBridge(w.socket, w.uuid, w.bridgenum)])
  {
    var s1 := MakeBridge(s, w.bridgenum).state;
    s1.(outbox := s1.outbox + [ConnectToBridge(socket, uuid, w.bridgenum),
                               ConnectToBridge(w.socket, w.uuid, w.bridgenum)],
        waitingConns := s1.waitingConns[myid := Delete(WaitingFor(s1, myid), wid)])
  }

  /** `request_bridge(uuid, myid, otherid)` on control socket `socket`. */
  function RequestBridge(s: State, socket: SocketId, uuid: string, myid: Uid, otherid: Uid): (r: State)
    ensures r.numBridges == s.numBridges + 1
  {
    var bridgenum := s.numBridges;
    var s0 := s.(numBridges := s.numBridges + 1);
    if otherid !in s0.clientsById then
      s0.(waitingConns := s0.waitingConns[otherid := Put(WaitingFor(s0, otherid), myid, Waiting(uuid, socket, bridgenum))])
    else
      var other := s0.clientsById[otherid];
      var made := MakeBridge(s0, bridgenum);
      if made.err.Some? then
        made.state.(outbox := made.state.outbox + [Emit(socket, "internal_error", [Str(uuid), Str(made.err.value)])])
      else
        made.state.(outbox := made.state.outbox + [ConnectToBridge(socket, uuid, bridgenum),
                                                   ConnectToBridge(other.socket, other.uuid, bridgenum)])
  }

  // ---------------------------------------------------------------------------
  // makeBridge(): handlers of one bridge namespace

  /** A socket `sock` connects to the namespace of bridge `bridgenum`. */
  function BridgeConnection(s: State, bridgenum: nat, sock: SocketId): State
  {
    if bridgenum !in s.namespaces then s
    else
      var s1 := if bridgenum in s.socketsByBridgenum then s
                else s.(labelTables := s.labelTables + [[]],
                        socketsByBridgenum := s.socketsByBridgenum[bridgenum := |s.labelTables|]);
      var table := s1.socketsByBridgenum[bridgenum];
      if |s1.socketsByBridgenum| > MAX_NUM_BRIDGES then
        s1.(outbox := s1.outbox + [Disconnect(sock)],
            socketsByBridgenum := s1.socketsByBridgenum - {bridgenum},
            nspsByBridgenum := s1.nspsByBridgenum - {bridgenum})
      else
        s1.(bridgeSockets := s1.bridgeSockets[sock := BridgeSocket(bridgenum, table, None)],
            nspSockets := s1.nspSockets[bridgenum := NspSockets(s1, bridgenum) + [sock]])
  }

  /** An event `event(...args)` arrives on bridge socket `sock`: the first
      `start` runs the `once('start')` handler, after it every event goes to
      the wildcard forwarder, and before it nothing listens. */
  function BridgeEvent(s: State, sock: SocketId, event: string, args: seq<Value>): Step
    requires Wf(s)
  {
    if sock !in s.bridgeSockets then Step(s, None)
    else if s.bridgeSockets[sock].started.None? then
      if event == "start" then Start(s, sock, FirstArg(args)) else Step(s, None)
    else Forward(s, sock, event, args)
  }

  /** The `start(myid)` handler. */
  function Start(s: State, sock: SocketId, myid: Value): Step
    requires Wf(s) && sock in s.bridgeSockets
  {
    var s1 := Register(s, sock, myid);
    var (out, thrown) := Announce(s1.labelTables[s.bridgeSockets[sock].table], sock, myid);
    Step(s1.(outbox := s1.outbox + out), thrown)
  }

  /** `sockets_by_label[myid] = socket; started = myid`: the label goes into
      the bridge's table under its property key. */
  function Register(s: State, sock: SocketId, myid: Value): State
    requires Wf(s) && sock in s.bridgeSockets
  {
    var b := s.bridgeSockets[sock];
    s.(labelTables := s.labelTables[b.table := Put(s.labelTables[b.table], PropertyKey(myid), sock)],
       bridgeSockets := s.bridgeSockets[sock := b.(started := Some(myid))])
  }

  /** What `start` emits once the label is registered in `table`, and what it
      throws: `peer_connected` to both sides when the other label is there. */
  function Announce(table: Dict<SocketId>, sock: SocketId, myid: Value): (seq<Action>, Option<string>) {
    match OtherKey.GetOtherKeyVal(table, myid)
    case Err(msg) => ([], Some(msg))
    case Ok(other) =>
      if other.val.Some? then ([Emit(sock, "peer_connected", []), Emit(other.val.value, "peer_connected", [])], None)
      else ([], None)
  }

  /** The wildcard handler of a started socket: re-emit on the other label's socket. */
  function Forward(s: State, sock: SocketId, event: string, args: seq<Value>): Step
    requires Wf(s) && sock in s.bridgeSockets && s.bridgeSockets[sock].started.Some?
  {
    var b := s.bridgeSockets[sock];
    var myid := b.started.value;
    match OtherKey.GetOtherKeyVal(s.labelTables[b.table], myid)
    case Err(msg) => Step(s, Some(msg))
    case Ok(other) =>
      if other.val.Some? then Step(s.(outbox := s.outbox + [Emit(other.val.value, event, args)]), None)
      else Step(s.(outbox := s.outbox + [Emit(sock, "internal_error", [myid, Str(NOT_YET_MSG)])]), None)
  }

  /** Bridge socket `sock` disconnects. A started socket's handler disconnects
      every other socket of the namespace; each of those that has started runs
      the same handler at once, so all their labels are released too. */
  function BridgeDisconnect(s: State, sock: SocketId): (r: State) {
    if sock !in s.bridgeSockets then s
    else
      var b := s.bridgeSockets[sock];
      var n := b.bridgenum;
      var rest := Without(NspSockets(s, n), sock);
      if b.started.None? then
        s.(bridgeSockets := s.bridgeSockets - {sock}, nspSockets := s.nspSockets[n := rest])
      else
        var released := {PropertyKey(b.started.value)} + StartedLabels(s.bridgeSockets, rest);
        s.(outbox := s.outbox + DisconnectAll(rest),
           bridgeSockets := s.bridgeSockets - ({sock} + Members(rest)),
           nspSockets := s.nspSockets[n := []],
           socketsByBridgenum := s.socketsByBridgenum - {n},
           nspsByBridgenum := s.nspsByBridgenum - {n},
           clientsById := s.clientsById - released,
           waitingConns := s.waitingConns - released)
  }

  // ---------------------------------------------------------------------------
  // Control socket disconnect

  /** What the `disconnect` handler of a control socket throws as written: its
      log call names `myid`, which is a parameter of the `login` and
      `request_bridge` handlers only, so evaluating the call's arguments
      raises a ReferenceError. */
  const CONTROL_DISCONNECT_ERROR := "ReferenceError: myid is not defined"

  /** The control socket `disconnect` handler as written: it changes nothing
      and throws. */
  function ControlDisconnect(s: State, socket: SocketId): (r: Step)
    ensures r.state == s
  {
    Step(s, Some(CONTROL_DISCONNECT_ERROR))
  }

  /** The handler as evidently intended: it only logs, so it changes nothing
      and throws nothing. The broker's runs use this one. */
  function ControlDisconnectLogged(s: State, socket: SocketId): (r: Step)
    ensures r.state == s
  {
    Step(s, None)
  }

  /** Every disconnect of a control socket throws out of the handler as
      written, whatever the state; the corrected handler never throws. Neither
      releases the identity bound by `login` (only a bridge socket's
      disconnect does). */
  lemma ControlDisconnectThrows(s: State, socket: SocketId)
    ensures ControlDisconnect(s, socket).thrown.Some?
    ensures ControlDisconnectLogged(s, socket).thrown.None?
    ensures forall id :: id in s.clientsById ==> id in ControlDisconnectLogged(s, socket).state.clientsById
  {
  }

  // ---------------------------------------------------------------------------
  // Runs of the broker

  /** One event delivered to the broker. */
  datatype Event =
    | LoginEvent(socket: SocketId, uuid: string, myid: Uid)
    | RequestBridgeEvent(socket: SocketId, uuid: string, myid: Uid, otherid: Uid)
    | ConnectionEvent(bridgenum: nat, sock: SocketId)
    | PacketEvent(sock: SocketId, event: string, args: seq<Value>)
    | DisconnectEvent(sock: SocketId)
    | ControlDisconnectEvent(socket: SocketId)

  function Apply(s: State, e: Event): State
    requires Valid(s)
  {
    match e
    case LoginEvent(socket, uuid, myid) => Login(s, socket, uuid, myid)
    case RequestBridgeEvent(socket, uuid, myid, otherid) => RequestBridge(s, socket, uuid, myid, otherid)
    case ConnectionEvent(bridgenum, sock) => BridgeConnection(s, bridgenum, sock)
    case PacketEvent(sock, event, args) => BridgeEvent(s, sock, event, args).state
    case DisconnectEvent(sock) => BridgeDisconnect(s, sock)
    case ControlDisconnectEvent(socket) => ControlDisconnectLogged(s, socket).state
  }

  /** The state after the events `es`, in order. */
  function Run(s: State, es: seq<Event>): State
    requires Valid(s)
    decreases |es|
  {
    if es == [] then s
    else
      ApplyKeepsValid(s, es[0]);
      Run(Apply(s, es[0]), es[1..])
  }

  // ---------------------------------------------------------------------------
  // The invariant

  lemma InitValid()
    ensures Valid(Init())
  {
  }

  /** Every bridge number handed out so far is below the counter, so the next
      one is new: no number is handed out twice. */
  lemma FreshBridgenum(s: State)
    requires Valid(s)
    ensures s.numBridges !in s.namespaces && s.numBridges !in s.nspsByBridgenum
    ensures forall id, e :: id in s.waitingConns && e in s.waitingConns[id] ==> e.1.bridgenum != s.numBridges
  {
  }

  lemma {:induction false} ApplyKeepsValid(s: State, e: Event)
    requires Valid(s)
    ensures Valid(Apply(s, e))
  {
    match e
    case LoginEvent(socket, uuid, myid) => LoginKeepsValid(s, socket, uuid, myid);
    case RequestBridgeEvent(socket, uuid, myid, otherid) => RequestBridgeKeepsValid(s, socket, uuid, myid, otherid);
    case ConnectionEvent(bridgenum, sock) => BridgeConnectionKeepsValid(s, bridgenum, sock);
    case PacketEvent(sock, event, args) => BridgeEventKeepsValid(s, sock, event, args);
    case DisconnectEvent(sock) => BridgeDisconnectKeepsValid(s, sock);
    case ControlDisconnectEvent(socket) =>
  }

  /** Every state the broker reaches from a valid one is valid; in particular
      it never holds more than `MAX_NUM_BRIDGES` bridges. */
  lemma {:induction false} RunKeepsValid(s: State, es: seq<Event>)
    requires Valid(s)
    ensures Valid(Run(s, es))
    ensures |Run(s, es).socketsByBridgenum| <= MAX_NUM_BRIDGES
    decreases |es|
  {
    if es != [] {
      ApplyKeepsValid(s, es[0]);
      RunKeepsValid(Apply(s, es[0]), es[1..]);
    }
  }

  // ---------------------------------------------------------------------------
  // login

  /** A taken identity is refused: the socket is told `internal_error` and no
      table changes. */
  lemma LoginTakenRefused(s: State, socket: SocketId, uuid: string, myid: Uid)
    requires myid in s.clientsById
    ensures Login(s, socket, uuid, myid)
         == s.(outbox := s.outbox + [Emit(socket, "internal_error", [Str(uuid), Str(TAKEN_PREFIX + myid)])])
  {
  }

  /** A free identity nobody is waiting for is bound and told `logged_in`;
      nothing else changes. */
  lemma LoginFresh(s: State, socket: SocketId, uuid: string, myid: Uid)
    requires myid !in s.clientsById && WaitingFor(s, myid) == []
    ensures Login(s, socket, uuid, myid)
         == s.(clientsById := s.clientsById[myid := Client(socket, uuid)],
               outbox := s.outbox + [Emit(socket, "logged_in", [Str(uuid)])])
  {
  }

  /** What the drain sends for the waiting entries `t`, in order: the newly
      logged-in socket with its own uuid, then the requester with its uuid,
      both with the entry's bridge number. */
  function Notices(socket: SocketId, uuid: string, t: Dict<Waiting>): (r: seq<Action>)
    ensures |r| == 2 * |t|
  {
    if t == [] then []
    else [ConnectToBridge(socket, uuid, t[0].1.bridgenum), ConnectToBridge(t[0].1.socket, t[0].1.uuid, t[0].1.bridgenum)]
         + Notices(socket, uuid, t[1..])
  }

  /** The bridge numbers of the entries `t`. */
  function BridgeNums(t: Dict<Waiting>): set<nat> {
    set e | e in t :: e.1.bridgenum
  }

  /** The state after `login` of `myid` has drained `waiting_conns[myid]`:
      a bridge for each entry, both sides of each notified, the table empty. */
  function Drained(s: State, socket: SocketId, uuid: string, myid: Uid): State {
    var t := WaitingFor(s, myid);
    s.(waitingConns := Emptied(s.waitingConns, myid),
       nspsByBridgenum := s.nspsByBridgenum + BridgeNums(t),
       namespaces := s.namespaces + BridgeNums(t),
       outbox := s.outbox + Notices(socket, uuid, t))
  }

  /** The first turn of the drain leaves exactly the other entries. */
  lemma DrainStepRest(s: State, socket: SocketId, uuid: string, myid: Uid)
    requires WaitingFor(s, myid) != [] && DistinctKeys(WaitingFor(s, myid))
    ensures var t := WaitingFor(s, myid);
      WaitingFor(DrainStep(s, socket, uuid, myid, t[0].0, t[0].1), myid) == t[1..]
  {
    DeleteFirst(WaitingFor(s, myid));
  }

  lemma DrainedWaiting(s: State, socket: SocketId, uuid: string, myid: Uid)
    requires WaitingFor(s, myid) != [] && DistinctKeys(WaitingFor(s, myid))
    ensures var t := WaitingFor(s, myid);
      Drained(DrainStep(s, socket, uuid, myid, t[0].0, t[0].1), socket, uuid, myid).waitingConns
      == Emptied(s.waitingConns, myid)
  {
    DrainStepRest(s, socket, uuid, myid);
  }

  lemma DrainedNums(s: State, socket: SocketId, uuid: string, myid: Uid)
    requires WaitingFor(s, myid) != [] && DistinctKeys(WaitingFor(s, myid))
    requires s.nspsByBridgenum <= s.namespaces
    ensures var t := WaitingFor(s, myid);
            var r := Drained(DrainStep(s, socket, uuid, myid, t[0].0, t[0].1), socket, uuid, myid);
      r.nspsByBridgenum == s.nspsByBridgenum + BridgeNums(t) && r.namespaces == s.namespaces + BridgeNums(t)
  {
    var t := WaitingFor(s, myid);
    DrainStepRest(s, socket, uuid, myid);
    assert BridgeNums(t) == {t[0].1.bridgenum} + BridgeNums(t[1..]);
  }

  lemma DrainedOutbox(s: State, socket: SocketId, uuid: string, myid: Uid)
    requires WaitingFor(s, myid) != [] && DistinctKeys(WaitingFor(s, myid))
    ensures var t := WaitingFor(s, myid);
      Drained(DrainStep(s, socket, uuid, myid, t[0].0, t[0].1), socket, uuid, myid).outbox
      == s.outbox + Notices(socket, uuid, t)
  {
    var t := WaitingFor(s, myid);
    var w := t[0].1;
    DrainStepRest(s, socket, uuid, myid);
    var s2 := DrainStep(s, socket, uuid, myid, t[0].0, w);
    var pair := [ConnectToBridge(socket, uuid, w.bridgenum), ConnectToBridge(w.socket, w.uuid, w.bridgenum)];
    assert s2.outbox == s.outbox + pair;
    assert Drained(s2, socket, uuid, myid).outbox == s2.outbox + Notices(socket, uuid, t[1..]);
    assert Notices(socket, uuid, t) == pair + Notices(socket, uuid, t[1..]);
    Regroup(s.outbox, pair, Notices(socket, uuid, t[1..]));
  }

  /** Taking the first entry and draining the rest drains the whole table. */
  lemma DrainedStep(s: State, socket: SocketId, uuid: string, myid: Uid)
    requires WaitingFor(s, myid) != [] && DistinctKeys(WaitingFor(s, myid))
    requires s.nspsByBridgenum <= s.namespaces
    ensures var t := WaitingFor(s, myid);
      Drained(DrainStep(s, socket, uuid, myid, t[0].0, t[0].1), socket, uuid, myid) == Drained(s, socket, uuid, myid)
  {
    DrainedOutbox(s, socket, uuid, myid);
    DrainedNums(s, socket, uuid, myid);
    DrainedWaiting(s, socket, uuid, myid);
  }

  /** Draining the whole table `waiting_conns[myid]` creates a bridge for each
      entry, notifies both sides of each, and leaves the table empty. */
  lemma {:induction false} DrainAll(s: State, socket: SocketId, uuid: string, myid: Uid)
    requires DistinctKeys(WaitingFor(s, myid))
    requires s.nspsByBridgenum <= s.namespaces
    ensures DrainWaiting(s, socket, uuid, myid, Keys(WaitingFor(s, myid))) == Drained(s, socket, uuid, myid)
    decreases |WaitingFor(s, myid)|
  {
    var t := WaitingFor(s, myid);
    if t == [] {
      assert Emptied(s.waitingConns, myid) == s.waitingConns;
      assert BridgeNums(t) == {};
    } else {
      var w := t[0].1;
      KeysTail(t);
      GetEntry(t, t[0].0, w);
      var s2 := DrainStep(s, socket, uuid, myid, t[0].0, w);
      DeleteFirst(t);
      assert WaitingFor(s2, myid) == t[1..];
      assert DrainWaiting(s, socket, uuid, myid, Keys(t)) == DrainWaiting(s2, socket, uuid, myid, Keys(t[1..]));
      DrainAll(s2, socket, uuid, myid);
      DrainedStep(s, socket, uuid, myid);
    }
  }

  /** A successful login binds the identity to its socket and uuid, tells it
      `logged_in`, and drains every request parked for it. */
  lemma LoginBindsAndDrains(s: State, socket: SocketId, uuid: string, myid: Uid)
    requires myid !in s.clientsById
    requires DistinctKeys(WaitingFor(s, myid)) && s.nspsByBridgenum <= s.namespaces
    ensures Login(s, socket, uuid, myid)
         == Drained(s.(clientsById := s.clientsById[myid := Client(socket, uuid)],
                       outbox := s.outbox + [Emit(socket, "logged_in", [Str(uuid)])]), socket, uuid, myid)
  {
    var s1 := s.(clientsById := s.clientsById[myid := Client(socket, uuid)],
                 outbox := s.outbox + [Emit(socket, "logged_in", [Str(uuid)])]);
    assert WaitingFor(s1, myid) == WaitingFor(s, myid);
    DrainAll(s1, socket, uuid, myid);
  }

  lemma DrainedKeepsValid(s: State, socket: SocketId, uuid: string, myid: Uid)
    requires Valid(s)
    ensures Valid(Drained(s, socket, uuid, myid))
  {
    var t := WaitingFor(s, myid);
    var r := Drained(s, socket, uuid, myid);
    forall n | n in BridgeNums(t) ensures n < s.numBridges {
      var e :| e in t && e.1.bridgenum == n;
    }
    assert Numbered(r);
  }

  lemma LoginKeepsValid(s: State, socket: SocketId, uuid: string, myid: Uid)
    requires Valid(s)
    ensures Valid(Login(s, socket, uuid, myid))
  {
    if myid !in s.clientsById {
      var s1 := s.(clientsById := s.clientsById[myid := Client(socket, uuid)],
                   outbox := s.outbox + [Emit(socket, "logged_in", [Str(uuid)])]);
      LoginBindsAndDrains(s, socket, uuid, myid);
      DrainedKeepsValid(s1, socket, uuid, myid);
    }
  }

  // ---------------------------------------------------------------------------
  // request_bridge

  /** To an offline target: park the request under the fresh bridge number;
      nothing is created and nobody is told. */
  lemma RequestOffline(s: State, socket: SocketId, uuid: string, myid: Uid, otherid: Uid)
    requires otherid !in s.clientsById
    ensures RequestBridge(s, socket, uuid, myid, otherid)
         == s.(numBridges := s.numBridges + 1,
               waitingConns := s.waitingConns[otherid := Put(WaitingFor(s, otherid), myid, Waiting(uuid, socket, s.numBridges))])
  {
  }

  /** To an online target, when the fresh number has no namespace yet (which
      `FreshBridgenum` guarantees in every valid state): the bridge is created
      and both sides get the same fresh bridge number, each with its own uuid. */
  lemma RequestOnline(s: State, socket: SocketId, uuid: string, myid: Uid, otherid: Uid)
    requires otherid in s.clientsById && s.numBridges !in s.nspsByBridgenum
    ensures var n := s.numBridges; var other := s.clientsById[otherid];
      RequestBridge(s, socket, uuid, myid, otherid)
      == s.(numBridges := n + 1,
            nspsByBridgenum := s.nspsByBridgenum + {n},
            namespaces := s.namespaces + {n},
            outbox := s.outbox + [ConnectToBridge(socket, uuid, n), ConnectToBridge(other.socket, other.uuid, n)])
  {
  }

  lemma RequestBridgeKeepsValid(s: State, socket: SocketId, uuid: string, myid: Uid, otherid: Uid)
    requires Valid(s)
    ensures Valid(RequestBridge(s, socket, uuid, myid, otherid))
  {
    var r := RequestBridge(s, socket, uuid, myid, otherid);
    if otherid !in s.clientsById {
      var w := Waiting(uuid, socket, s.numBridges);
      RequestOffline(s, socket, uuid, myid, otherid);
      PutKeepsDistinct(WaitingFor(s, otherid), myid, w);
      PutKeepsOrdered(WaitingFor(s, otherid), myid, w);
      assert forall id, e :: id in r.waitingConns && e in r.waitingConns[id] ==>
        e == (myid, w) || e in s.waitingConns[id];
    } else {
      FreshBridgenum(s);
      RequestOnline(s, socket, uuid, myid, otherid);
    }
  }

  // ---------------------------------------------------------------------------
  // Symmetric arrival order

  /** The target is online first: B logs in, A logs in, A requests B. */
  function TargetFirst(s: State, a: Uid, sa: SocketId, ua: string, b: Uid, sb: SocketId, ub: string): State {
    RequestBridge(Login(Login(s, sb, ub, b), sa, ua, a), sa, ua, a, b)
  }

  /** The target comes late: A logs in, A requests B, B logs in. */
  function TargetLate(s: State, a: Uid, sa: SocketId, ua: string, b: Uid, sb: SocketId, ub: string): State {
    Login(RequestBridge(Login(s, sa, ua, a), sa, ua, a, b), sb, ub, b)
  }

  lemma TargetFirstForm(s: State, a: Uid, sa: SocketId, ua: string, b: Uid, sb: SocketId, ub: string)
    requires s.numBridges !in s.nspsByBridgenum && a != b
    requires a !in s.clientsById && b !in s.clientsById
    requires WaitingFor(s, a) == [] && WaitingFor(s, b) == []
    ensures var n := s.numBridges;
      TargetFirst(s, a, sa, ua, b, sb, ub)
      == s.(clientsById := s.clientsById[b := Client(sb, ub)][a := Client(sa, ua)],
            numBridges := n + 1,
            nspsByBridgenum := s.nspsByBridgenum + {n},
            namespaces := s.namespaces + {n},
            outbox := s.outbox + [Emit(sb, "logged_in", [Str(ub)]), Emit(sa, "logged_in", [Str(ua)]),
                                  ConnectToBridge(sa, ua, n), ConnectToBridge(sb, ub, n)])
  {
    LoginFresh(s, sb, ub, b);
    var p1 := Login(s, sb, ub, b);
    LoginFresh(p1, sa, ua, a);
    var p2 := Login(p1, sa, ua, a);
    RequestOnline(p2, sa, ua, a, b);
  }

  /** A login that finds exactly one parked request creates that bridge and
      tells both sides its number. */
  lemma LoginDrainsOne(s: State, socket: SocketId, uuid: string, myid: Uid, wid: Uid, w: Waiting)
    requires myid !in s.clientsById && WaitingFor(s, myid) == [(wid, w)]
    requires s.nspsByBridgenum <= s.namespaces
    ensures Login(s, socket, uuid, myid)
         == s.(clientsById := s.clientsById[myid := Client(socket, uuid)],
               waitingConns := s.waitingConns[myid := []],
               nspsByBridgenum := s.nspsByBridgenum + {w.bridgenum},
               namespaces := s.namespaces + {w.bridgenum},
               outbox := s.outbox + [Emit(socket, "logged_in", [Str(uuid)]),
                                     ConnectToBridge(socket, uuid, w.bridgenum), ConnectToBridge(w.socket, w.uuid, w.bridgenum)])
  {
    var t := [(wid, w)];
    LoginBindsAndDrains(s, socket, uuid, myid);
    assert BridgeNums(t) == {w.bridgenum};
    assert Notices(socket, uuid, t) == [ConnectToBridge(socket, uuid, w.bridgenum), ConnectToBridge(w.socket, w.uuid, w.bridgenum)];
  }

  lemma TargetLateForm(s: State, a: Uid, sa: SocketId, ua: string, b: Uid, sb: SocketId, ub: string)
    requires s.nspsByBridgenum <= s.namespaces && a != b
    requires a !in s.clientsById && b !in s.clientsById
    requires WaitingFor(s, a) == [] && WaitingFor(s, b) == []
    ensures var n := s.numBridges;
      TargetLate(s, a, sa, ua, b, sb, ub)
      == s.(clientsById := s.clientsById[a := Client(sa, ua)][b := Client(sb, ub)],
            waitingConns := s.waitingConns[b := []],
            numBridges := n + 1,
            nspsByBridgenum := s.nspsByBridgenum + {n},
            namespaces := s.namespaces + {n},
            outbox := s.outbox + [Emit(sa, "logged_in", [Str(ua)]), Emit(sb, "logged_in", [Str(ub)]),
                                  ConnectToBridge(sb, ub, n), ConnectToBridge(sa, ua, n)])
  {
    var n := s.numBridges;
    var q2 := RequestBridge(Login(s, sa, ua, a), sa, ua, a, b);
    LoginThenPark(s, a, sa, ua, b);
    LoginDrainsOne(q2, sb, ub, b, a, Waiting(ua, sa, n));
    Overwrite(s.waitingConns, b, [(a, Waiting(ua, sa, n))], []);
    assert s.outbox + [Emit(sa, "logged_in", [Str(ua)])]
                    + [Emit(sb, "logged_in", [Str(ub)]), ConnectToBridge(sb, ub, n), ConnectToBridge(sa, ua, n)]
        == s.outbox + [Emit(sa, "logged_in", [Str(ua)]), Emit(sb, "logged_in", [Str(ub)]),
                       ConnectToBridge(sb, ub, n), ConnectToBridge(sa, ua, n)];
  }

  lemma Overwrite<K, V>(m: map<K, V>, k: K, v1: V, v2: V)
    ensures m[k := v1][k := v2] == m[k := v2]
  {
  }

  /** A logs in and asks for B, who is offline: the request is the only one
      parked for B. */
  lemma LoginThenPark(s: State, a: Uid, sa: SocketId, ua: string, b: Uid)
    requires a != b && a !in s.clientsById && b !in s.clientsById
    requires WaitingFor(s, a) == [] && WaitingFor(s, b) == []
    ensures var q2 := RequestBridge(Login(s, sa, ua, a), sa, ua, a, b);
      && q2 == s.(clientsById := s.clientsById[a := Client(sa, ua)],
                  waitingConns := s.waitingConns[b := [(a, Waiting(ua, sa, s.numBridges))]],
                  numBridges := s.numBridges + 1,
                  outbox := s.outbox + [Emit(sa, "logged_in", [Str(ua)])])
      && WaitingFor(q2, b) == [(a, Waiting(ua, sa, s.numBridges))]
  {
    LoginFresh(s, sa, ua, a);
    RequestOffline(Login(s, sa, ua, a), sa, ua, a, b);
  }

  /** Requests parked for one target are kept in `Object.keys` order, which
      is the order the target's login drains them in: a request from "10"
      followed by one from "9" is listed "9" first. */
  lemma ParkedInKeysOrder(s: State, s10: SocketId, u10: string, s9: SocketId, u9: string, b: Uid)
    requires b !in s.clientsById && WaitingFor(s, b) == []
    ensures var q := RequestBridge(RequestBridge(s, s10, u10, "10", b), s9, u9, "9", b);
      WaitingFor(q, b) == [("9", Waiting(u9, s9, s.numBridges + 1)), ("10", Waiting(u10, s10, s.numBridges))]
  {
    var q1 := RequestBridge(s, s10, u10, "10", b);
    RequestOffline(s, s10, u10, "10", b);
    RequestOffline(q1, s9, u9, "9", b);
    IndexKeysAscend(Waiting(u10, s10, s.numBridges), Waiting(u9, s9, s.numBridges + 1));
  }

  /** Both arrival orders end alike: the same identities bound, one new bridge
      under the same number, the same parked requests, and the same
      notifications (each side told `logged_in`, then that bridge number with
      its own uuid); only the order of the emits differs. */
  lemma ArrivalOrderSymmetric(s: State, a: Uid, sa: SocketId, ua: string, b: Uid, sb: SocketId, ub: string)
    requires Valid(s) && a != b
    requires a !in s.clientsById && b !in s.clientsById
    requires WaitingFor(s, a) == [] && WaitingFor(s, b) == []
    ensures var p := TargetFirst(s, a, sa, ua, b, sb, ub);
            var q := TargetLate(s, a, sa, ua, b, sb, ub);
            var n := s.numBridges;
      && p.clientsById == q.clientsById == s.clientsById[a := Client(sa, ua)][b := Client(sb, ub)]
      && p.nspsByBridgenum == q.nspsByBridgenum == s.nspsByBridgenum + {n}
      && p.namespaces == q.namespaces == s.namespaces + {n}
      && p.numBridges == q.numBridges == n + 1
      && LiveWaiting(p.waitingConns) == LiveWaiting(q.waitingConns) == LiveWaiting(s.waitingConns)
      && p.socketsByBridgenum == q.socketsByBridgenum && p.labelTables == q.labelTables
      && p.nspSockets == q.nspSockets && p.bridgeSockets == q.bridgeSockets
      && p.outbox == s.outbox + [Emit(sb, "logged_in", [Str(ub)]), Emit(sa, "logged_in", [Str(ua)]),
                                 ConnectToBridge(sa, ua, n), ConnectToBridge(sb, ub, n)]
      && q.outbox == s.outbox + [Emit(sa, "logged_in", [Str(ua)]), Emit(sb, "logged_in", [Str(ub)]),
                                 ConnectToBridge(sb, ub, n), ConnectToBridge(sa, ua, n)]
      && multiset(p.outbox) == multiset(q.outbox)
  {
    var n := s.numBridges;
    FreshBridgenum(s);
    TargetFirstForm(s, a, sa, ua, b, sb, ub);
    TargetLateForm(s, a, sa, ua, b, sb, ub);
    BindingsCommute(s.clientsById, a, Client(sa, ua), b, Client(sb, ub));
    LiveWaitingIgnoresEmpty(s.waitingConns, b);
    OutboxReorder(s.outbox, Emit(sa, "logged_in", [Str(ua)]), Emit(sb, "logged_in", [Str(ub)]),
                  ConnectToBridge(sa, ua, n), ConnectToBridge(sb, ub, n));
  }

  lemma BindingsCommute(m: map<Uid, Client>, a: Uid, x: Client, b: Uid, y: Client)
    requires a != b
    ensures m[b := y][a := x] == m[a := x][b := y]
  {
  }

  /** Both pairs swapped: the same emits in another order. */
  lemma OutboxReorder<T>(o: seq<T>, la: T, lb: T, ca: T, cb: T)
    ensures multiset(o + [lb, la, ca, cb]) == multiset(o + [la, lb, cb, ca])
  {
    PairsSwap(o, la, lb, ca, cb);
    Flatten(o, lb, la, ca, cb);
    Flatten(o, la, lb, cb, ca);
  }

  lemma PairsSwap<T>(o: seq<T>, la: T, lb: T, ca: T, cb: T)
    ensures multiset(o + [lb, la] + [ca, cb]) == multiset(o + [la, lb] + [cb, ca])
  {
    PairSwap(lb, la);
    PairSwap(ca, cb);
  }

  lemma PairSwap<T>(x: T, y: T)
    ensures multiset([x, y]) == multiset([y, x])
  {
    assert [x, y] == [x] + [y];
    assert [y, x] == [y] + [x];
  }

  lemma Flatten<T>(o: seq<T>, w: T, x: T, y: T, z: T)
    ensures o + [w, x] + [y, z] == o + [w, x, y, z]
  {
  }

  // ---------------------------------------------------------------------------
  // Bridge connections: the ceiling

  /** A connection that would open bridge number `MAX_NUM_BRIDGES + 1` is
      disconnected and that bridge's entries are deleted; the other bridges
      are untouched. */
  lemma CeilingRefuses(s: State, bridgenum: nat, sock: SocketId)
    requires bridgenum in s.namespaces && bridgenum !in s.socketsByBridgenum
    requires |s.socketsByBridgenum| == MAX_NUM_BRIDGES
    ensures BridgeConnection(s, bridgenum, sock)
         == s.(labelTables := s.labelTables + [[]],
               outbox := s.outbox + [Disconnect(sock)],
               nspsByBridgenum := s.nspsByBridgenum - {bridgenum})
  {
    var m := s.socketsByBridgenum;
    var m1 := m[bridgenum := |s.labelTables|];
    assert m1.Keys == m.Keys + {bridgenum};
    assert |m1| == |m| + 1;
    assert m1 - {bridgenum} == m;
  }

  /** Below the ceiling a connection is admitted: it is registered with the
      bridge's label table, created empty by the first connection. */
  lemma ConnectionAdmitted(s: State, bridgenum: nat, sock: SocketId)
    requires bridgenum in s.namespaces
    requires bridgenum in s.socketsByBridgenum || |s.socketsByBridgenum| < MAX_NUM_BRIDGES
    requires |s.socketsByBridgenum| <= MAX_NUM_BRIDGES
    ensures var r := BridgeConnection(s, bridgenum, sock);
      && bridgenum in r.socketsByBridgenum
      && r.bridgeSockets == s.bridgeSockets[sock := BridgeSocket(bridgenum, r.socketsByBridgenum[bridgenum], None)]
      && r.nspSockets == s.nspSockets[bridgenum := NspSockets(s, bridgenum) + [sock]]
      && (bridgenum in s.socketsByBridgenum ==> r == s.(bridgeSockets := r.bridgeSockets, nspSockets := r.nspSockets))
      && (bridgenum !in s.socketsByBridgenum ==>
            r == s.(labelTables := s.labelTables + [[]],
                    socketsByBridgenum := s.socketsByBridgenum[bridgenum := |s.labelTables|],
                    bridgeSockets := r.bridgeSockets, nspSockets := r.nspSockets))
  {
    if bridgenum !in s.socketsByBridgenum {
      var m := s.socketsByBridgenum;
      var m1 := m[bridgenum := |s.labelTables|];
      assert m1.Keys == m.Keys + {bridgenum};
      assert |m1| == |m| + 1;
    }
  }

  lemma AdmittedKeepsValid(s: State, bridgenum: nat, sock: SocketId)
    requires Valid(s) && bridgenum in s.namespaces
    requires bridgenum in s.socketsByBridgenum || |s.socketsByBridgenum| < MAX_NUM_BRIDGES
    ensures Valid(BridgeConnection(s, bridgenum, sock))
  {
    ConnectionAdmitted(s, bridgenum, sock);
    if bridgenum !in s.socketsByBridgenum {
      NewTableKeepsValid(s, bridgenum, sock);
    }
  }

  /** The first connection to a bridge creates its empty label table. */
  lemma NewTableKeepsValid(s: State, bridgenum: nat, sock: SocketId)
    requires Valid(s) && bridgenum in s.namespaces
    requires bridgenum !in s.socketsByBridgenum && |s.socketsByBridgenum| < MAX_NUM_BRIDGES
    ensures Valid(BridgeConnection(s, bridgenum, sock))
  {
    ConnectionAdmitted(s, bridgenum, sock);
    var r := BridgeConnection(s, bridgenum, sock);
    TableAddedKeepsValid(s, r, bridgenum, sock);
  }

  /** A state that differs from a valid one by a new empty label table, the
      bridge entry for it, and one unstarted socket on it, is valid. */
  lemma TableAddedKeepsValid(s: State, r: State, bridgenum: nat, sock: SocketId)
    requires Valid(s) && bridgenum !in s.socketsByBridgenum && |s.socketsByBridgenum| < MAX_NUM_BRIDGES
    requires r == s.(labelTables := s.labelTables + [[]],
                     socketsByBridgenum := s.socketsByBridgenum[bridgenum := |s.labelTables|],
                     bridgeSockets := s.bridgeSockets[sock := BridgeSocket(bridgenum, |s.labelTables|, None)],
                     nspSockets := r.nspSockets)
    ensures Valid(r)
  {
    var m := s.socketsByBridgenum;
    assert r.socketsByBridgenum.Keys == m.Keys + {bridgenum};
    assert r.nspsByBridgenum == s.nspsByBridgenum && r.namespaces == s.namespaces;
    assert r.numBridges == s.numBridges && r.waitingConns == s.waitingConns;
    TableAddedWf(s, r, bridgenum, sock);
    TableAddedKeepsLabels(s, r, bridgenum, sock);
  }

  lemma TableAddedWf(s: State, r: State, bridgenum: nat, sock: SocketId)
    requires Wf(s)
    requires r.labelTables == s.labelTables + [[]]
    requires r.socketsByBridgenum == s.socketsByBridgenum[bridgenum := |s.labelTables|]
    requires r.bridgeSockets == s.bridgeSockets[sock := BridgeSocket(bridgenum, |s.labelTables|, None)]
    ensures Wf(r)
  {
  }

  lemma TableAddedKeepsLabels(s: State, r: State, bridgenum: nat, sock: SocketId)
    requires Valid(s) && Wf(r)
    requires r.labelTables == s.labelTables + [[]]
    requires r.bridgeSockets == s.bridgeSockets[sock := BridgeSocket(bridgenum, |s.labelTables|, None)]
    ensures LabelsKept(r)
  {
    forall t | 0 <= t < |r.labelTables|
      ensures DistinctKeys(r.labelTables[t])
    {
      if t < |s.labelTables| {
        assert r.labelTables[t] == s.labelTables[t];
      }
    }
    forall x | x in r.bridgeSockets
      ensures Holds(r.labelTables[r.bridgeSockets[x].table], r.bridgeSockets[x])
    {
      if x != sock {
        assert r.labelTables[r.bridgeSockets[x].table] == s.labelTables[s.bridgeSockets[x].table];
      }
    }
  }

  lemma BridgeConnectionKeepsValid(s: State, bridgenum: nat, sock: SocketId)
    requires Valid(s)
    ensures Valid(BridgeConnection(s, bridgenum, sock))
  {
    if bridgenum in s.namespaces {
      if bridgenum in s.socketsByBridgenum || |s.socketsByBridgenum| < MAX_NUM_BRIDGES {
        AdmittedKeepsValid(s, bridgenum, sock);
      } else {
        CeilingRefuses(s, bridgenum, sock);
        var r := BridgeConnection(s, bridgenum, sock);
        assert forall t :: 0 <= t < |s.labelTables| ==> r.labelTables[t] == s.labelTables[t];
      }
    }
  }

  // ---------------------------------------------------------------------------
  // Bridge events: start and forwarding

  /** `start(myid)` registers the socket under its label in the bridge's
      table and records the label; only the outbox changes besides, and it
      only grows. */
  lemma StartRegisters(s: State, sock: SocketId, myid: Value)
    requires Wf(s) && sock in s.bridgeSockets
    ensures var b := s.bridgeSockets[sock];
            var r := Start(s, sock, myid).state;
      && r.labelTables == s.labelTables[b.table := Put(s.labelTables[b.table], PropertyKey(myid), sock)]
      && r.bridgeSockets == s.bridgeSockets[sock := b.(started := Some(myid))]
      && r == s.(labelTables := r.labelTables, bridgeSockets := r.bridgeSockets, outbox := r.outbox)
      && s.outbox <= r.outbox
  {
  }

  /** A string label: `start` throws exactly when a third label arrives;
      otherwise it announces nothing unless a second label is there. */
  lemma StartThrowsOnThird(s: State, sock: SocketId, myid: string)
    requires Wf(s) && sock in s.bridgeSockets
    ensures var t := Put(s.labelTables[s.bridgeSockets[sock].table], myid, sock);
            var r := Start(s, sock, Str(myid));
      && (r.thrown.None? <==> |t| <= 2)
      && (|t| != 2 ==> r.state.outbox == s.outbox)
  {
    var t := Put(s.labelTables[s.bridgeSockets[sock].table], myid, sock);
    StartAnnouncesOn(s, sock, Str(myid));
    AnnounceThrowsOnThird(t, sock, myid);
  }

  /** `start` announces on the bridge's table with the label registered. */
  lemma StartAnnouncesOn(s: State, sock: SocketId, myid: Value)
    requires Wf(s) && sock in s.bridgeSockets
    ensures var t := Put(s.labelTables[s.bridgeSockets[sock].table], PropertyKey(myid), sock);
      && Start(s, sock, myid).thrown == Announce(t, sock, myid).1
      && Start(s, sock, myid).state.outbox == s.outbox + Announce(t, sock, myid).0
  {
  }

  lemma AnnounceThrowsOnThird(t: Dict<SocketId>, sock: SocketId, myid: string)
    requires myid in Keys(t)
    ensures var (out, thrown) := Announce(t, sock, Str(myid));
      (thrown.None? <==> |t| <= 2) && (|t| != 2 ==> out == [])
  {
    match OtherKey.GetOtherKeyVal(t, Str(myid))
    case Err(_) =>
    case Ok(_) =>
  }

  /** A label that is not a string is stored under its property key but never
      found again by `getOtherKeyVal`, whose `indexOf` compares with `===`:
      its `start` always throws. */
  lemma StartNonStringThrows(s: State, sock: SocketId, myid: Value)
    requires Wf(s) && sock in s.bridgeSockets && !myid.Str?
    ensures Start(s, sock, myid).thrown.Some?
  {
  }

  /** When a second string label arrives, both sockets are told
      `peer_connected`, unless the first label is the empty string (a falsy
      key). */
  lemma StartAnnounces(s: State, sock: SocketId, myid: string, l: string, x: SocketId)
    requires Wf(s) && sock in s.bridgeSockets
    requires DistinctKeys(s.labelTables[s.bridgeSockets[sock].table])
    requires var t := Put(s.labelTables[s.bridgeSockets[sock].table], myid, sock);
      |t| == 2 && (l, x) in t && l != myid
    ensures var r := Start(s, sock, Str(myid));
      && r.thrown == None
      && r.state.outbox == s.outbox + (if l != "" then [Emit(sock, "peer_connected", []), Emit(x, "peer_connected", [])] else [])
  {
    var t := Put(s.labelTables[s.bridgeSockets[sock].table], myid, sock);
    PutKeepsDistinct(s.labelTables[s.bridgeSockets[sock].table], myid, sock);
    assert myid in Keys(t) && l in Keys(t);
    GetEntry(t, l, x);
  }

  /** Registering a label keeps every table's keys distinct and every started
      socket's label in its table. */
  lemma RegisterKeepsLabels(s: State, sock: SocketId, myid: Value)
    requires Wf(s) && LabelsKept(s) && sock in s.bridgeSockets
    ensures Wf(Register(s, sock, myid)) && LabelsKept(Register(s, sock, myid))
  {
    var b := s.bridgeSockets[sock];
    var r := Register(s, sock, myid);
    PutKeepsDistinct(s.labelTables[b.table], PropertyKey(myid), sock);
    PutKeepsOrdered(s.labelTables[b.table], PropertyKey(myid), sock);
    forall t | 0 <= t < |r.labelTables| ensures DistinctKeys(r.labelTables[t]) && Ordered(r.labelTables[t]) {
      if t != b.table {
        assert r.labelTables[t] == s.labelTables[t];
      }
    }
    forall x | x in r.bridgeSockets
      ensures Holds(r.labelTables[r.bridgeSockets[x].table], r.bridgeSockets[x])
    {
      if x != sock {
        var c := s.bridgeSockets[x];
        assert r.bridgeSockets[x] == c && Holds(s.labelTables[c.table], c);
        if c.table == b.table {
          PutHolds(s.labelTables[b.table], PropertyKey(myid), sock, c);
        } else {
          assert r.labelTables[c.table] == s.labelTables[c.table];
        }
      }
    }
  }

  lemma PutHolds(t: Dict<SocketId>, k: string, v: SocketId, c: BridgeSocket)
    requires Holds(t, c)
    ensures Holds(Put(t, k, v), c)
  {
  }

  /** The invariant does not depend on the outbox nor, given the label
      conditions, on the label tables and bridge sockets. */
  lemma ValidFromLabels(s: State, r: State)
    requires Valid(s) && Wf(r) && LabelsKept(r)
    requires r == s.(labelTables := r.labelTables, bridgeSockets := r.bridgeSockets, outbox := r.outbox)
    ensures Valid(r)
  {
    assert Numbered(r) by {
      assert r.nspsByBridgenum == s.nspsByBridgenum && r.namespaces == s.namespaces;
      assert r.waitingConns == s.waitingConns && r.numBridges == s.numBridges;
    }
  }

  lemma StartKeepsValid(s: State, sock: SocketId, myid: Value)
    requires Valid(s) && sock in s.bridgeSockets
    ensures Valid(Start(s, sock, myid).state)
  {
    RegisterKeepsLabels(s, sock, myid);
    var r := Start(s, sock, myid).state;
    var s1 := Register(s, sock, myid);
    assert r == s1.(outbox := r.outbox);
    assert LabelsKept(r) by {
      assert r.labelTables == s1.labelTables && r.bridgeSockets == s1.bridgeSockets;
    }
    ValidFromLabels(s, r);
  }

  /** A started socket's events go to the other label's socket, with the same
      name and arguments; when it is alone the sender gets `internal_error`;
      with more than two labels, or a label that is not a string, the
      forwarder throws. Nothing else changes. */
  lemma ForwardGoesToOther(s: State, sock: SocketId, event: string, args: seq<Value>)
    requires Valid(s) && sock in s.bridgeSockets && s.bridgeSockets[sock].started.Some?
    ensures var b := s.bridgeSockets[sock];
            var t := s.labelTables[b.table];
            var myid := b.started.value;
            var r := Forward(s, sock, event, args);
      && (|t| > 2 || !myid.Str? ==> r.state == s && r.thrown.Some?)
      && (|t| == 1 && myid.Str? ==>
            r == Step(s.(outbox := s.outbox + [Emit(sock, "internal_error", [myid, Str(NOT_YET_MSG)])]), None))
      && (|t| == 2 && myid.Str? ==> forall l, x :: (l, x) in t && l != myid.s && l != "" ==>
            r == Step(s.(outbox := s.outbox + [Emit(x, event, args)]), None))
      && (|t| == 2 && myid.Str? && myid.s != "" && "" in Keys(t) ==>
            r == Step(s.(outbox := s.outbox + [Emit(sock, "internal_error", [myid, Str(NOT_YET_MSG)])]), None))
  {
    var b := s.bridgeSockets[sock];
    var t := s.labelTables[b.table];
    var myid := b.started.value;
    assert PropertyKey(myid) in Keys(t);
    if |t| == 2 && myid.Str? {
      forall l, x | (l, x) in t && l != myid.s && l != ""
        ensures Forward(s, sock, event, args) == Step(s.(outbox := s.outbox + [Emit(x, event, args)]), None)
      {
        assert l in Keys(t);
        GetEntry(t, l, x);
      }
    }
  }

  /** Forwarding changes nothing but the outbox. */
  lemma ForwardOnlyEmits(s: State, sock: SocketId, event: string, args: seq<Value>)
    requires Wf(s) && sock in s.bridgeSockets && s.bridgeSockets[sock].started.Some?
    ensures var r := Forward(s, sock, event, args).state;
      r == s.(outbox := r.outbox) && |r.outbox| >= |s.outbox|
  {
  }

  lemma BridgeEventKeepsValid(s: State, sock: SocketId, event: string, args: seq<Value>)
    requires Valid(s)
    ensures Valid(BridgeEvent(s, sock, event, args).state)
  {
    if sock in s.bridgeSockets {
      if s.bridgeSockets[sock].started.None? {
        if event == "start" {
          StartKeepsValid(s, sock, FirstArg(args));
        }
      } else {
        ForwardOnlyEmits(s, sock, event, args);
      }
    }
  }

  // ---------------------------------------------------------------------------
  // Bridge disconnect

  /** Either side leaving tears the whole bridge down: every other socket of
      the namespace is disconnected, the bridge's entries are deleted, and the
      leaving label is released from `clients_by_id` and `waiting_conns`. No
      identity is bound afresh and the counter and namespaces are untouched. */
  lemma TeardownIsJoint(s: State, sock: SocketId)
    requires sock in s.bridgeSockets && s.bridgeSockets[sock].started.Some?
    ensures var b := s.bridgeSockets[sock];
            var n := b.bridgenum;
            var key := PropertyKey(b.started.value);
            var r := BridgeDisconnect(s, sock);
      && n !in r.socketsByBridgenum && n !in r.nspsByBridgenum
      && key !in r.clientsById && key !in r.waitingConns
      && NspSockets(r, n) == [] && sock !in r.bridgeSockets
      && (forall x :: x in NspSockets(s, n) && x != sock ==> Disconnect(x) in r.outbox && x !in r.bridgeSockets)
      && (forall id :: id in r.clientsById ==> id in s.clientsById && r.clientsById[id] == s.clientsById[id])
      && r.numBridges == s.numBridges && r.namespaces == s.namespaces && r.labelTables == s.labelTables
  {
    var b := s.bridgeSockets[sock];
    var rest := Without(NspSockets(s, b.bridgenum), sock);
    var r := BridgeDisconnect(s, sock);
    forall x | x in NspSockets(s, b.bridgenum) && x != sock
      ensures Disconnect(x) in r.outbox
    {
      var i :| 0 <= i < |rest| && rest[i] == x;
      assert r.outbox[|s.outbox| + i] == Disconnect(x);
    }
  }

  lemma BridgeDisconnectKeepsValid(s: State, sock: SocketId)
    requires Valid(s)
    ensures Valid(BridgeDisconnect(s, sock))
  {
    if sock in s.bridgeSockets && s.bridgeSockets[sock].started.Some? {
      TeardownKeepsValid(s, sock);
    }
  }

  lemma TeardownKeepsValid(s: State, sock: SocketId)
    requires Valid(s) && sock in s.bridgeSockets && s.bridgeSockets[sock].started.Some?
    ensures Valid(BridgeDisconnect(s, sock))
  {
    ShrinkKeepsValid(s, BridgeDisconnect(s, sock));
  }

  /** Dropping entries from the tables, and nothing else, keeps the invariant. */
  lemma ShrinkKeepsValid(s: State, r: State)
    requires Valid(s)
    requires r.labelTables == s.labelTables && r.numBridges == s.numBridges && r.namespaces == s.namespaces
    requires r.nspsByBridgenum <= s.nspsByBridgenum
    requires r.socketsByBridgenum.Keys <= s.socketsByBridgenum.Keys
    requires forall n :: n in r.socketsByBridgenum ==> r.socketsByBridgenum[n] == s.socketsByBridgenum[n]
    requires forall x :: x in r.bridgeSockets ==> x in s.bridgeSockets && r.bridgeSockets[x] == s.bridgeSockets[x]
    requires forall id :: id in r.waitingConns ==> id in s.waitingConns && r.waitingConns[id] == s.waitingConns[id]
    ensures Valid(r)
  {
    SubsetCard(r.socketsByBridgenum.Keys, s.socketsByBridgenum.Keys);
    assert Wf(r);
    assert LabelsKept(r);
  }

  // ---------------------------------------------------------------------------
  // The broker as an object updated in place

  /** The tables of `BridgeServer`, updated in place by its handlers. Each
      handler is proved to leave the tables as its step function says; the
      invariant then follows from `ApplyKeepsValid`. */
  class Broker {
    var clientsById: map<Uid, Client>
    var waitingConns: map<Uid, Dict<Waiting>>
    var socketsByBridgenum: map<nat, TableId>
    var nspsByBridgenum: set<nat>
    var numBridges: nat
    var labelTables: seq<Dict<SocketId>>
    var namespaces: set<nat>
    var nspSockets: map<nat, seq<SocketId>>
    var bridgeSockets: map<SocketId, BridgeSocket>
    var outbox: seq<Action>

    function Snapshot(): State
      reads this
    {
      State(clientsById, waitingConns, socketsByBridgenum, nspsByBridgenum, numBridges,
            labelTables, namespaces, nspSockets, bridgeSockets, outbox)
    }

    constructor ()
      ensures Snapshot() == Init() && Valid(Snapshot())
    {
      clientsById, waitingConns, socketsByBridgenum, nspsByBridgenum := map[], map[], map[], {};
      numBridges, labelTables, namespaces, nspSockets := 0, [], {}, map[];
      bridgeSockets, outbox := map[], [];
    }

    /** `makeBridge(bridgenum)`. */
    method NewBridge(bridgenum: nat) returns (err: Option<string>)
      modifies this
      ensures Made(Snapshot(), err) == MakeBridge(old(Snapshot()), bridgenum)
    {
      if bridgenum in nspsByBridgenum {
        err := Some("Server logic error: " + Show(bridgenum) + " already existing");
      } else {
        nspsByBridgenum := nspsByBridgenum + {bridgenum};
        namespaces := namespaces + {bridgenum};
        err := None;
      }
    }

    /** `login(uuid, myid)`, with its loop over the waiting entries. */
    method OnLogin(socket: SocketId, uuid: string, myid: Uid)
      modifies this
      ensures Snapshot() == Login(old(Snapshot()), socket, uuid, myid)
    {
      if myid in clientsById {
        outbox := outbox + [Emit(socket, "internal_error", [Str(uuid), Str(TAKEN_PREFIX + myid)])];
        return;
      }
      clientsById := clientsById[myid := Client(socket, uuid)];
      outbox := outbox + [Emit(socket, "logged_in", [Str(uuid)])];
      var wids := Keys(WaitingFor(Snapshot(), myid));
      ghost var target := DrainWaiting(Snapshot(), socket, uuid, myid, wids);
      var i := 0;
      while i < |wids|
        invariant 0 <= i <= |wids|
        invariant DrainWaiting(Snapshot(), socket, uuid, myid, wids[i..]) == target
      {
        assert wids[i..][1..] == wids[i + 1..];
        var stopped := DrainOne(socket, uuid, myid, wids[i]);
        if stopped {
          return;
        }
        i := i + 1;
      }
    }

    /** One turn of the loop of `login` for the waiting entry `wid`; it
        reports whether the sanity check stopped the handler. */
    method DrainOne(socket: SocketId, uuid: string, myid: Uid, wid: Uid) returns (stopped: bool)
      modifies this
      ensures var s := old(Snapshot());
        stopped <==> Get(WaitingFor(s, myid), wid).None?
      ensures var s := old(Snapshot());
        stopped ==> Snapshot() == s.(outbox := s.outbox + [Emit(socket, "internal_error", [Str(uuid), Str(SANITY_MSG)])])
      ensures var s := old(Snapshot());
        !stopped ==> Snapshot() == DrainStep(s, socket, uuid, myid, wid, Get(WaitingFor(s, myid), wid).value)
    {
      var conns := if myid in waitingConns then waitingConns[myid] else [];
      match Get(conns, wid)
      case None =>
        outbox := outbox + [Emit(socket, "internal_error", [Str(uuid), Str(SANITY_MSG)])];
        stopped := true;
      case Some(w) =>
        var _ := NewBridge(w.bridgenum);
        outbox := outbox + [ConnectToBridge(socket, uuid, w.bridgenum), ConnectToBridge(w.socket, w.uuid, w.bridgenum)];
        waitingConns := waitingConns[myid := Delete(conns, wid)];
        stopped := false;
    }

    /** `request_bridge(uuid, myid, otherid)`. */
    method OnRequestBridge(socket: SocketId, uuid: string, myid: Uid, otherid: Uid)
      modifies this
      ensures Snapshot() == RequestBridge(old(Snapshot()), socket, uuid, myid, otherid)
    {
      var bridgenum := numBridges;
      numBridges := numBridges + 1;
      if otherid !in clientsById {
        var conns := if otherid in waitingConns then waitingConns[otherid] else [];
        waitingConns := waitingConns[otherid := Put(conns, myid, Waiting(uuid, socket, bridgenum))];
      } else {
        var other := clientsById[otherid];
        var err := NewBridge(bridgenum);
        if err.Some? {
          outbox := outbox + [Emit(socket, "internal_error", [Str(uuid), Str(err.value)])];
        } else {
          outbox := outbox + [ConnectToBridge(socket, uuid, bridgenum), ConnectToBridge(other.socket, other.uuid, bridgenum)];
        }
      }
    }

    /** The connection handler of bridge namespace `bridgenum`. */
    method OnConnection(bridgenum: nat, sock: SocketId)
      modifies this
      ensures Snapshot() == BridgeConnection(old(Snapshot()), bridgenum, sock)
    {
      if bridgenum !in namespaces {
        return;
      }
      if bridgenum !in socketsByBridgenum {
        socketsByBridgenum := socketsByBridgenum[bridgenum := |labelTables|];
        labelTables := labelTables + [[]];
      }
      var table := socketsByBridgenum[bridgenum];
      if |socketsByBridgenum| > MAX_NUM_BRIDGES {
        outbox := outbox + [Disconnect(sock)];
        socketsByBridgenum := socketsByBridgenum - {bridgenum};
        nspsByBridgenum := nspsByBridgenum - {bridgenum};
      } else {
        var sockets := if bridgenum in nspSockets then nspSockets[bridgenum] else [];
        bridgeSockets := bridgeSockets[sock := BridgeSocket(bridgenum, table, None)];
        nspSockets := nspSockets[bridgenum := sockets + [sock]];
      }
    }

    /** An event on bridge socket `sock`: `start` before the socket has
        started, the forwarder after; what it throws is returned. */
    method OnPacket(sock: SocketId, event: string, args: seq<Value>) returns (thrown: Option<string>)
      requires Wf(Snapshot())
      modifies this
      ensures Step(Snapshot(), thrown) == BridgeEvent(old(Snapshot()), sock, event, args)
    {
      thrown := None;
      if sock !in bridgeSockets {
        return;
      }
      var b := bridgeSockets[sock];
      if b.started.None? {
        if event == "start" {
          var myid := FirstArg(args);
          labelTables := labelTables[b.table := Put(labelTables[b.table], PropertyKey(myid), sock)];
          bridgeSockets := bridgeSockets[sock := b.(started := Some(myid))];
          var (out, err) := Announce(labelTables[b.table], sock, myid);
          outbox := outbox + out;
          thrown := err;
        }
      } else {
        var myid := b.started.value;
        match OtherKey.GetOtherKeyVal(labelTables[b.table], myid)
        case Err(msg) =>
          thrown := Some(msg);
        case Ok(other) =>
          if other.val.Some? {
            outbox := outbox + [Emit(other.val.value, event, args)];
          } else {
            outbox := outbox + [Emit(sock, "internal_error", [myid, Str(NOT_YET_MSG)])];
          }
      }
    }

    /** The `disconnect` handler of bridge socket `sock`, with the
        `forEach` over the namespace's other sockets. */
    method OnBridgeDisconnect(sock: SocketId)
      modifies this
      ensures Snapshot() == BridgeDisconnect(old(Snapshot()), sock)
    {
      if sock !in bridgeSockets {
        return;
      }
      var b := bridgeSockets[sock];
      var n := b.bridgenum;
      var rest := Without(if n in nspSockets then nspSockets[n] else [], sock);
      if b.started.None? {
        bridgeSockets := bridgeSockets - {sock};
        nspSockets := nspSockets[n := rest];
      } else {
        TearDown(sock);
      }
    }

    /** The handler of a started socket: close the others, delete the bridge's
        entries and release the labels. */
    method TearDown(sock: SocketId)
      requires sock in bridgeSockets && bridgeSockets[sock].started.Some?
      modifies this
      ensures Snapshot() == BridgeDisconnect(old(Snapshot()), sock)
    {
      var b := bridgeSockets[sock];
      var n := b.bridgenum;
      var rest := Without(if n in nspSockets then nspSockets[n] else [], sock);
      ghost var s0 := Snapshot();
      var out, gone, released := CloseOthers(bridgeSockets, rest);
      released := {PropertyKey(b.started.value)} + released;
      assert BridgeDisconnect(s0, sock) ==
        s0.(outbox := s0.outbox + out, bridgeSockets := s0.bridgeSockets - ({sock} + gone),
            nspSockets := s0.nspSockets[n := []], socketsByBridgenum := s0.socketsByBridgenum - {n},
            nspsByBridgenum := s0.nspsByBridgenum - {n},
            clientsById := s0.clientsById - released, waitingConns := s0.waitingConns - released);
      Forget(n, out, {sock} + gone, released);
    }

    /** The updates of a teardown: emit `out`, forget the sockets `gone`,
        delete bridge `n`'s entries and release the identities `released`. */
    method Forget(n: nat, out: seq<Action>, gone: set<SocketId>, released: set<Uid>)
      modifies this
      ensures var s := old(Snapshot());
        Snapshot() == s.(outbox := s.outbox + out, bridgeSockets := s.bridgeSockets - gone,
                         nspSockets := s.nspSockets[n := []], socketsByBridgenum := s.socketsByBridgenum - {n},
                         nspsByBridgenum := s.nspsByBridgenum - {n},
                         clientsById := s.clientsById - released, waitingConns := s.waitingConns - released)
    {
      outbox, bridgeSockets, nspSockets := outbox + out, bridgeSockets - gone, nspSockets[n := []];
      socketsByBridgenum, nspsByBridgenum := socketsByBridgenum - {n}, nspsByBridgenum - {n};
      clientsById, waitingConns := clientsById - released, waitingConns - released;
    }

    /** The `forEach` over the other sockets: each is disconnected, and the
        label of each that has started is released by its own handler. */
    static method CloseOthers(bs: map<SocketId, BridgeSocket>, rest: seq<SocketId>)
      returns (out: seq<Action>, gone: set<SocketId>, released: set<Uid>)
      ensures out == DisconnectAll(rest)
      ensures gone == Members(rest)
      ensures released == StartedLabels(bs, rest)
    {
      out, gone, released := [], {}, {};
      var i := 0;
      while i < |rest|
        invariant 0 <= i <= |rest|
        invariant out == DisconnectAll(rest[..i])
        invariant gone == Members(rest[..i])
        invariant released == StartedLabels(bs, rest[..i])
      {
        var x := rest[i];
        out := out + [Disconnect(x)];
        gone := gone + {x};
        if x in bs && bs[x].started.Some? {
          released := released + {PropertyKey(bs[x].started.value)};
        }
        assert rest[..i + 1] == rest[..i] + [x];
        i := i + 1;
      }
      assert rest[..|rest|] == rest;
    }
  }
}
