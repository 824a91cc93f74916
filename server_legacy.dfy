/** The older broker, packages/server/server.js.

    Its protocol differs from the current one: `login(myid)` and
    `request_bridge(myid, otherid)` carry no request id, a second login under
    an identity replaces the first, every login registers a `disconnect`
    handler on the control socket that forgets that identity, the
    logging-in side's `connect_to_bridge` is sent from a timer, and a bridge
    socket's `disconnect` handler exists from its connection on, releasing
    only its own label. As in the current broker, each handler is a step
    function on `State`, and the class `LegacyBroker` runs the same
    handlers in place. */
module LegacyServer {
  import opened Wrappers
  import opened JsObject
  import opened Decimal
  import opened Transport
  import OtherKey

  const MAX_NUM_BRIDGES: nat := 100

  const SAFETY_MSG := "Safety limit reached"

  type Uid = string
  type TableId = nat

  /** An entry of `clients`: `{socket, myid}`. */
  datatype Client = Client(socket: SocketId, myid: Uid)

  /** An entry of `clients_waiting[target]`: `{id, socket, bridgenum}`. */
  datatype Waiting = Waiting(id: Uid, socket: SocketId, bridgenum: nat)

  /** A socket admitted to bridge `bridgenum`, with the label table its
      handlers captured; `started` is `mysock.__mylabel` once `start` has run
      (`Some(Undefined)` when it ran without an argument), and `forwarding`
      says whether the `'*'` forwarder was registered, which `start` does
      only when its `getOtherKeyVal` did not throw. */
  datatype BridgeSocket = BridgeSocket(bridgenum: nat, table: TableId, started: Option<Value>, forwarding: bool)

  datatype State = State(
    clients: map<Uid, Client>,
    clientsWaiting: map<Uid, Dict<Waiting>>,
    numBridges: nat,
    socksByBridgenum: map<nat, TableId>,
    bridgesByNum: set<nat>,
    labelTables: seq<Dict<SocketId>>,
    namespaces: set<nat>,                      // bridge namespaces with a connection handler
    nspSockets: map<nat, seq<SocketId>>,       // sockets connected to each bridge namespace
    bridgeSockets: map<SocketId, BridgeSocket>,
    logins: map<SocketId, seq<Uid>>,           // identities whose disconnect handler a control socket holds
    timers: seq<Action>,                       // emits scheduled with setTimeout, in firing order
    outbox: seq<Action>)

  datatype Step = Step(state: State, thrown: Option<string>)

  /** The broker as `SocketIoBridgeServer` leaves it. */
  function Init(): State {
    State(map[], map[], 0, map[], {}, [], {}, map[], map[], map[], [], [])
  }

  ghost predicate Wf(s: State) {
    && (forall n :: n in s.socksByBridgenum ==> s.socksByBridgenum[n] < |s.labelTables|)
    && (forall x :: x in s.bridgeSockets ==> s.bridgeSockets[x].table < |s.labelTables|)
  }

  /** The invariant: tables well formed, at most `MAX_NUM_BRIDGES` bridges
      with sockets, every table with distinct keys in `Object.keys` order,
      bridge numbers in use below the counter. */
  ghost predicate Valid(s: State) {
    && Wf(s)
    && |s.socksByBridgenum| <= MAX_NUM_BRIDGES
    && AllKept(s.labelTables)
    && (forall id :: id in s.clientsWaiting ==> DistinctKeys(s.clientsWaiting[id]) && Ordered(s.clientsWaiting[id]))
    && Numbered(s)
  }

  /** Every bridge number in use (with a namespace, or parked in a waiting
      entry) is below `num_bridges`, and `bridges_by_num` only holds numbers
      with a namespace. */
  ghost predicate Numbered(s: State) {
    && s.bridgesByNum <= s.namespaces
    && (forall n :: n in s.namespaces ==> n < s.numBridges)
    && (forall id, e :: id in s.clientsWaiting && e in s.clientsWaiting[id] ==> e.1.bridgenum < s.numBridges)
  }

  function ConnectToBridge(to: SocketId, id: Uid, bridgenum: nat): Action {
    Emit(to, "connect_to_bridge", [Str(id), Num(bridgenum)])
  }

  function WaitingFor(s: State, id: Uid): Dict<Waiting> {
    if id in s.clientsWaiting then s.clientsWaiting[id] else []
  }

  function Logins(s: State, socket: SocketId): seq<Uid> {
    if socket in s.logins then s.logins[socket] else []
  }

  function NspSockets(s: State, n: nat): seq<SocketId> {
    if n in s.nspSockets then s.nspSockets[n] else []
  }

  /** The identities listed in `ids`. */
  function Ids(ids: seq<Uid>): (r: set<Uid>)
    ensures forall id :: id in r <==> id in ids
  {
    set id | id in ids
  }

  // ---------------------------------------------------------------------------
  // makeBridge

  datatype Made = Made(state: State, err: Option<string>)

  /** `makeBridge(bridgenum)`: refuses a number already in `bridges_by_num`,
      otherwise creates the namespace and registers its handlers. */
  function MakeBridge(s: State, bridgenum: nat): (r: Made)
    ensures r.err.Some? <==> bridgenum in s.bridgesByNum
    ensures r.err.Some? ==> r.state == s
    ensures r.err.None? ==> r.state == s.(bridgesByNum := s.bridgesByNum + {bridgenum},
                                          namespaces := s.namespaces + {bridgenum})
  {
    if bridgenum in s.bridgesByNum then
      Made(s, Some("SERVER  " + Show(bridgenum) + " already existing"))
    else
      Made(s.(bridgesByNum := s.bridgesByNum + {bridgenum}, namespaces := s.namespaces + {bridgenum}), None)
  }

  // ---------------------------------------------------------------------------
  // runBridgeNamespace(): the control namespace

  /** A control socket connects: it is told `connected`. */
  function ControlConnection(s: State, socket: SocketId): State {
    s.(outbox := s.outbox + [Emit(socket, "connected", [])])
  }

  /** `login(myid)`: binds the identity whether or not it is bound already,
      drains the entries waiting for it, then registers a `disconnect`
      handler for it on the control socket. */
  function Login(s: State, socket: SocketId, myid: Uid): State {
    var s1 := s.(clients := s.clients[myid := Client(socket, myid)],
                 outbox := s.outbox + [Emit(socket, "logged_in", [Str(myid)])]);
    Registered(DrainWaiting(s1, socket, myid, Keys(WaitingFor(s1, myid))), socket, myid)
  }

  /** After the drain: the `disconnect` handler for `myid` is registered on
      the control socket unless the sanity check returned early. */
  function Registered(d: Drain, socket: SocketId, myid: Uid): State {
    if d.completed then d.state.(logins := d.state.logins[socket := Logins(d.state, socket) + [myid]])
    else d.state
  }

  /** The state after the drain loop, and whether it ran to its end (the
      sanity check returns from the handler). */
  datatype Drain = Drain(state: State, completed: bool)

  function DrainWaiting(s: State, socket: SocketId, myid: Uid, wids: seq<Uid>): Drain
    decreases |wids|
  {
    if wids == [] then Drain(s, true)
    else match Get(WaitingFor(s, myid), wids[0])
      case None => Drain(s, false)
      case Some(w) => DrainWaiting(DrainStep(s, socket, myid, wids[0], w), socket, myid, wids[1..])
  }

  /** One turn of the loop for the entry `wid -> w`: create the bridge,
      schedule the logging-in side's `connect_to_bridge`, send the waiting
      side's, delete the entry. */
  function DrainStep(s: State, socket: SocketId, myid: Uid, wid: Uid, w: Waiting): (r: State)
    ensures r == s.(clientsWaiting := s.clientsWaiting[myid := Delete(WaitingFor(s, myid), wid)],
                    bridgesByNum := s.bridgesByNum + {w.bridgenum},
                    namespaces := if w.bridgenum in s.bridgesByNum then s.namespaces else s.namespaces + {w.bridgenum},
                    timers := s.timers + [ConnectToBridge(socket, myid, w.bridgenum)],
                    outbox := s.outbox + [ConnectToBridge(w.socket, wid, w.bridgenum)])
  {
    var s1 := MakeBridge(s, w.bridgenum).state;
    s1.(timers := s1.timers + [ConnectToBridge(socket, myid, w.bridgenum)],
        outbox := s1.outbox + [ConnectToBridge(w.socket, wid, w.bridgenum)],
        clientsWaiting := s1.clientsWaiting[myid := Delete(WaitingFor(s1, myid), wid)])
  }

  /** The first pending timer fires. */
  function FireTimer(s: State): State {
    if s.timers == [] then s else s.(timers := s.timers[1..], outbox := s.outbox + [s.timers[0]])
  }

  /** A control socket disconnects: each `disconnect` handler its logins
      registered deletes its identity from `clients` and `clients_waiting`,
      whoever that identity is bound to now. */
  function ControlDisconnect(s: State, socket: SocketId): State {
    var ids := Ids(Logins(s, socket));
    s.(clients := s.clients - ids, clientsWaiting := s.clientsWaiting - ids, logins := s.logins - {socket})
  }

  /** `request_bridge(myid, otherid)`. */
  function RequestBridge(s: State, socket: SocketId, myid: Uid, otherid: Uid): (r: State)
    ensures r.numBridges == s.numBridges + 1
  {
    var bridgenum := s.numBridges;
    var s0 := s.(numBridges := s.numBridges + 1);
    if otherid !in s0.clients then
      s0.(clientsWaiting := s0.clientsWaiting[otherid := Put(WaitingFor(s0, otherid), myid, Waiting(myid, socket, bridgenum))])
    else
      var other := s0.clients[otherid];
      var made := MakeBridge(s0, bridgenum);
      if made.err.Some? then
        made.state.(outbox := made.state.outbox + [Emit(socket, "internal_error", [Str(made.err.value)])])
      else
        made.state.(outbox := made.state.outbox + [ConnectToBridge(socket, myid, bridgenum),
                                                   ConnectToBridge(other.socket, otherid, bridgenum)])
  }

  // ---------------------------------------------------------------------------
  // makeBridge(): handlers of one bridge namespace

  function BridgeConnection(s: State, bridgenum: nat, sock: SocketId): State {
    if bridgenum !in s.namespaces then s
    else
      var s1 := if bridgenum in s.socksByBridgenum then s
                else s.(labelTables := s.labelTables + [[]],
                        socksByBridgenum := s.socksByBridgenum[bridgenum := |s.labelTables|]);
      var table := s1.socksByBridgenum[bridgenum];
      if |s1.socksByBridgenum| > MAX_NUM_BRIDGES then
        s1.(outbox := s1.outbox + [Emit(sock, "internal_error", [Str(SAFETY_MSG)]), Disconnect(sock)],
            socksByBridgenum := s1.socksByBridgenum - {bridgenum},
            bridgesByNum := s1.bridgesByNum - {bridgenum})
      else
        s1.(outbox := s1.outbox + [Emit(sock, "connected", [])],
            bridgeSockets := s1.bridgeSockets[sock := BridgeSocket(bridgenum, table, None, false)],
            nspSockets := s1.nspSockets[bridgenum := NspSockets(s1, bridgenum) + [sock]])
  }

  /** An event on bridge socket `sock`: the first `start` runs the
      `once('start')` handler; afterwards the forwarder, if `start`
      registered it, handles every event. */
  function BridgeEvent(s: State, sock: SocketId, event: string, args: seq<Value>): Step
    requires Wf(s)
  {
    if sock !in s.bridgeSockets then Step(s, None)
    else
      var b := s.bridgeSockets[sock];
      if b.started.None? then
        if event == "start" then Start(s, sock, FirstArg(args)) else Step(s, None)
      else if b.forwarding then Forward(s, sock, event, args)
      else Step(s, None)
  }

  /** The `start(mylabel)` handler: record and register the label, announce
      the peer, then register the forwarder; a throw of `getOtherKeyVal`
      leaves the forwarder unregistered. */
  function Start(s: State, sock: SocketId, mylabel: Value): Step
    requires Wf(s) && sock in s.bridgeSockets
  {
    var b := s.bridgeSockets[sock];
    var table := Put(s.labelTables[b.table], PropertyKey(mylabel), sock);
    var (out, thrown) := Announce(table, sock, mylabel);
    var s1 := Register(s, sock, mylabel, thrown.None?);
    Step(s1.(outbox := s1.outbox + out), thrown)
  }

  /** `Start` as the three updates its handler makes. */
  lemma StartUpdates(s: State, sock: SocketId, mylabel: Value, table: Dict<SocketId>,
                     out: seq<Action>, thrown: Option<string>)
    requires Wf(s) && sock in s.bridgeSockets
    requires table == Put(s.labelTables[s.bridgeSockets[sock].table], PropertyKey(mylabel), sock)
    requires (out, thrown) == Announce(table, sock, mylabel)
    ensures var b := s.bridgeSockets[sock];
      Start(s, sock, mylabel)
      == Step(s.(labelTables := s.labelTables[b.table := table],
                 bridgeSockets := s.bridgeSockets[sock := b.(started := Some(mylabel), forwarding := thrown.None?)],
                 outbox := s.outbox + out), thrown)
  {
  }

  /** `socks_by_label[mylabel] = mysock; mysock.__mylabel = mylabel`, and
      whether the forwarder got registered. */
  function Register(s: State, sock: SocketId, mylabel: Value, forwarding: bool): State
    requires Wf(s) && sock in s.bridgeSockets
  {
    var b := s.bridgeSockets[sock];
    s.(labelTables := s.labelTables[b.table := Put(s.labelTables[b.table], PropertyKey(mylabel), sock)],
       bridgeSockets := s.bridgeSockets[sock := b.(started := Some(mylabel), forwarding := forwarding)])
  }

  /** What `start` emits once the label is registered in `table`, and what it
      throws: `peer_connected` to both sides when the other label's socket is
      there. */
  function Announce(table: Dict<SocketId>, sock: SocketId, mylabel: Value): (seq<Action>, Option<string>) {
    match OtherKey.GetOtherKeyVal(table, mylabel)
    case Err(msg) => ([], Some(msg))
    case Ok(other) =>
      if other.val.Some? then ([Emit(sock, "peer_connected", []), Emit(other.val.value, "peer_connected", [])], None)
      else ([], None)
  }

  /** The `'*'` forwarder: re-emit on the other label's socket, or drop the
      event with a warning when it is not there. */
  function Forward(s: State, sock: SocketId, event: string, args: seq<Value>): Step
    requires Wf(s) && sock in s.bridgeSockets && s.bridgeSockets[sock].started.Some?
  {
    var b := s.bridgeSockets[sock];
    var (out, thrown) := Relay(s.labelTables[b.table], b.started.value, event, args);
    Step(s.(outbox := s.outbox + out), thrown)
  }

  /** What the forwarder of the socket labelled `mylabel` emits and throws. */
  function Relay(table: Dict<SocketId>, mylabel: Value, event: string, args: seq<Value>): (seq<Action>, Option<string>) {
    match OtherKey.GetOtherKeyVal(table, mylabel)
    case Err(msg) => ([], Some(msg))
    case Ok(other) =>
      if other.val.Some? then ([Emit(other.val.value, event, args)], None) else ([], None)
  }

  /** The property key `delete socks_by_label[mysock.__mylabel]` removes:
      "undefined" for a socket that never started. */
  function LabelKey(b: BridgeSocket): string {
    PropertyKey(if b.started.Some? then b.started.value else Undefined)
  }

  /** `x` deletes its label from its own table. */
  function ReleaseLabel(tables: seq<Dict<SocketId>>, bs: map<SocketId, BridgeSocket>, x: SocketId): (r: seq<Dict<SocketId>>)
    ensures |r| == |tables|
  {
    if x in bs && bs[x].table < |tables| then tables[bs[x].table := Delete(tables[bs[x].table], LabelKey(bs[x]))]
    else tables
  }

  /** Each socket of `xs` deletes its label from its own table, the last one
      first: the handler of `xs[0]` finishes last. */
  function ReleaseLabels(tables: seq<Dict<SocketId>>, bs: map<SocketId, BridgeSocket>, xs: seq<SocketId>): (r: seq<Dict<SocketId>>)
    ensures |r| == |tables|
    decreases |xs|
  {
    if xs == [] then tables
    else ReleaseLabel(ReleaseLabels(tables, bs, xs[1..]), bs, xs[0])
  }

  /** Bridge socket `sock` disconnects. Its handler disconnects every other
      socket of the namespace, whose handlers run in turn, nested: the
      innermost cleanup runs first. Each cleanup deletes the bridge's entries
      and its own label. */
  function BridgeDisconnect(s: State, sock: SocketId): State {
    if sock !in s.bridgeSockets then s
    else
      var n := s.bridgeSockets[sock].bridgenum;
      var rest := Without(NspSockets(s, n), sock);
      s.(outbox := s.outbox + DisconnectAll(rest),
         labelTables := ReleaseLabels(s.labelTables, s.bridgeSockets, [sock] + rest),
         bridgeSockets := s.bridgeSockets - ({sock} + Members(rest)),
         nspSockets := s.nspSockets[n := []],
         socksByBridgenum := s.socksByBridgenum - {n},
         bridgesByNum := s.bridgesByNum - {n})
  }

  // ---------------------------------------------------------------------------
  // Runs

  datatype Event =
    | ControlConnectionEvent(socket: SocketId)
    | LoginEvent(socket: SocketId, myid: Uid)
    | RequestBridgeEvent(socket: SocketId, myid: Uid, otherid: Uid)
    | ControlDisconnectEvent(socket: SocketId)
    | TimerEvent
    | ConnectionEvent(bridgenum: nat, sock: SocketId)
    | PacketEvent(sock: SocketId, event: string, args: seq<Value>)
    | DisconnectEvent(sock: SocketId)

  function Apply(s: State, e: Event): State
    requires Valid(s)
  {
    match e
    case ControlConnectionEvent(socket) => ControlConnection(s, socket)
    case LoginEvent(socket, myid) => Login(s, socket, myid)
    case RequestBridgeEvent(socket, myid, otherid) => RequestBridge(s, socket, myid, otherid)
    case ControlDisconnectEvent(socket) => ControlDisconnect(s, socket)
    case TimerEvent => FireTimer(s)
    case ConnectionEvent(bridgenum, sock) => BridgeConnection(s, bridgenum, sock)
    case PacketEvent(sock, event, args) => BridgeEvent(s, sock, event, args).state
    case DisconnectEvent(sock) => BridgeDisconnect(s, sock)
  }

  function Run(s: State, es: seq<Event>): State
    requires Valid(s)
    decreases |es|
  {
    if es == [] then s
    else
      ApplyKeepsValid(s, es[0]);
      Run(Apply(s, es[0]), es[1..])
  }

  // ---------------------------------------------------------------------------
  // The invariant

  lemma InitValid()
    ensures Valid(Init())
  {
  }

  /** The next bridge number has no namespace and is in no waiting entry. */
  lemma FreshBridgenum(s: State)
    requires Valid(s)
    ensures s.numBridges !in s.namespaces && s.numBridges !in s.bridgesByNum
    ensures forall id, e :: id in s.clientsWaiting && e in s.clientsWaiting[id] ==> e.1.bridgenum != s.numBridges
  {
  }

  lemma {:induction false} ApplyKeepsValid(s: State, e: Event)
    requires Valid(s)
    ensures Valid(Apply(s, e))
  {
    match e
    case ControlConnectionEvent(socket) =>
    case LoginEvent(socket, myid) => LoginKeepsValid(s, socket, myid);
    case RequestBridgeEvent(socket, myid, otherid) => RequestBridgeKeepsValid(s, socket, myid, otherid);
    case ControlDisconnectEvent(socket) => ControlDisconnectKeepsValid(s, socket);
    case TimerEvent =>
    case ConnectionEvent(bridgenum, sock) => BridgeConnectionKeepsValid(s, bridgenum, sock);
    case PacketEvent(sock, event, args) => BridgeEventKeepsValid(s, sock, event, args);
    case DisconnectEvent(sock) => BridgeDisconnectKeepsValid(s, sock);
  }

  /** Every state reached from a valid one is valid; in particular it never
      holds more than `MAX_NUM_BRIDGES` bridges. */
  lemma {:induction false} RunKeepsValid(s: State, es: seq<Event>)
    requires Valid(s)
    ensures Valid(Run(s, es))
    ensures |Run(s, es).socksByBridgenum| <= MAX_NUM_BRIDGES
    decreases |es|
  {
    if es != [] {
      ApplyKeepsValid(s, es[0]);
      RunKeepsValid(Apply(s, es[0]), es[1..]);
    }
  }

  // ---------------------------------------------------------------------------
  // login

  /** The `connect_to_bridge` the drain sends at once, in order: each waiting
      socket with the requester's id, as the entry's key, and its number. */
  function PeerNotices(t: Dict<Waiting>): (r: seq<Action>)
    ensures |r| == |t|
  {
    if t == [] then [] else [ConnectToBridge(t[0].1.socket, t[0].0, t[0].1.bridgenum)] + PeerNotices(t[1..])
  }

  /** The `connect_to_bridge` the drain schedules for the logging-in socket. */
  function SelfNotices(socket: SocketId, myid: Uid, t: Dict<Waiting>): (r: seq<Action>)
    ensures |r| == |t|
  {
    if t == [] then [] else [ConnectToBridge(socket, myid, t[0].1.bridgenum)] + SelfNotices(socket, myid, t[1..])
  }

  function BridgeNums(t: Dict<Waiting>): set<nat> {
    set e | e in t :: e.1.bridgenum
  }

  /** The state after the drain of `clients_waiting[myid]`: a bridge for each
      entry, the waiting side of each told now and the logging-in side
      scheduled, the table empty. */
  function Drained(s: State, socket: SocketId, myid: Uid): State {
    var t := WaitingFor(s, myid);
    s.(clientsWaiting := Emptied(s.clientsWaiting, myid),
       bridgesByNum := s.bridgesByNum + BridgeNums(t),
       namespaces := s.namespaces + BridgeNums(t),
       timers := s.timers + SelfNotices(socket, myid, t),
       outbox := s.outbox + PeerNotices(t))
  }

  lemma DrainStepRest(s: State, socket: SocketId, myid: Uid)
    requires WaitingFor(s, myid) != [] && DistinctKeys(WaitingFor(s, myid))
    ensures var t := WaitingFor(s, myid);
      WaitingFor(DrainStep(s, socket, myid, t[0].0, t[0].1), myid) == t[1..]
  {
    DeleteFirst(WaitingFor(s, myid));
  }

  lemma DrainedWaiting(s: State, socket: SocketId, myid: Uid)
    requires WaitingFor(s, myid) != [] && DistinctKeys(WaitingFor(s, myid))
    ensures var t := WaitingFor(s, myid);
      Drained(DrainStep(s, socket, myid, t[0].0, t[0].1), socket, myid).clientsWaiting
      == Emptied(s.clientsWaiting, myid)
  {
    DrainStepRest(s, socket, myid);
  }

  lemma DrainedNums(s: State, socket: SocketId, myid: Uid)
    requires WaitingFor(s, myid) != [] && DistinctKeys(WaitingFor(s, myid))
    requires s.bridgesByNum <= s.namespaces
    ensures var t := WaitingFor(s, myid);
            var r := Drained(DrainStep(s, socket, myid, t[0].0, t[0].1), socket, myid);
      r.bridgesByNum == s.bridgesByNum + BridgeNums(t) && r.namespaces == s.namespaces + BridgeNums(t)
  {
    var t := WaitingFor(s, myid);
    DrainStepRest(s, socket, myid);
    assert BridgeNums(t) == {t[0].1.bridgenum} + BridgeNums(t[1..]);
  }

  lemma DrainedOutbox(s: State, socket: SocketId, myid: Uid)
    requires WaitingFor(s, myid) != [] && DistinctKeys(WaitingFor(s, myid))
    ensures var t := WaitingFor(s, myid);
      Drained(DrainStep(s, socket, myid, t[0].0, t[0].1), socket, myid).outbox == s.outbox + PeerNotices(t)
  {
    var t := WaitingFor(s, myid);
    DrainStepRest(s, socket, myid);
    var s2 := DrainStep(s, socket, myid, t[0].0, t[0].1);
    var peer := [ConnectToBridge(t[0].1.socket, t[0].0, t[0].1.bridgenum)];
    assert s2.outbox == s.outbox + peer;
    assert Drained(s2, socket, myid).outbox == s2.outbox + PeerNotices(t[1..]);
    assert PeerNotices(t) == peer + PeerNotices(t[1..]);
    Regroup(s.outbox, peer, PeerNotices(t[1..]));
  }

  lemma DrainedTimers(s: State, socket: SocketId, myid: Uid)
    requires WaitingFor(s, myid) != [] && DistinctKeys(WaitingFor(s, myid))
    ensures var t := WaitingFor(s, myid);
      Drained(DrainStep(s, socket, myid, t[0].0, t[0].1), socket, myid).timers == s.timers + SelfNotices(socket, myid, t)
  {
    var t := WaitingFor(s, myid);
    DrainStepRest(s, socket, myid);
    var s2 := DrainStep(s, socket, myid, t[0].0, t[0].1);
    var self := [ConnectToBridge(socket, myid, t[0].1.bridgenum)];
    assert s2.timers == s.timers + self;
    assert Drained(s2, socket, myid).timers == s2.timers + SelfNotices(socket, myid, t[1..]);
    assert SelfNotices(socket, myid, t) == self + SelfNotices(socket, myid, t[1..]);
    Regroup(s.timers, self, SelfNotices(socket, myid, t[1..]));
  }

  lemma DrainedStep(s: State, socket: SocketId, myid: Uid)
    requires WaitingFor(s, myid) != [] && DistinctKeys(WaitingFor(s, myid))
    requires s.bridgesByNum <= s.namespaces
    ensures var t := WaitingFor(s, myid);
      Drained(DrainStep(s, socket, myid, t[0].0, t[0].1), socket, myid) == Drained(s, socket, myid)
  {
    DrainedOutbox(s, socket, myid);
    DrainedTimers(s, socket, myid);
    DrainedNums(s, socket, myid);
    DrainedWaiting(s, socket, myid);
  }

  /** Draining the whole of `clients_waiting[myid]` runs to the end, creates
      each entry's bridge, tells each waiting side, schedules the logging-in
      side's notices, and leaves the table empty. */
  lemma {:induction false} DrainAll(s: State, socket: SocketId, myid: Uid)
    requires DistinctKeys(WaitingFor(s, myid))
    requires s.bridgesByNum <= s.namespaces
    ensures DrainWaiting(s, socket, myid, Keys(WaitingFor(s, myid))) == Drain(Drained(s, socket, myid), true)
    decreases |WaitingFor(s, myid)|
  {
    var t := WaitingFor(s, myid);
    if t == [] {
      assert Emptied(s.clientsWaiting, myid) == s.clientsWaiting;
      assert BridgeNums(t) == {};
    } else {
      var w := t[0].1;
      KeysTail(t);
      GetEntry(t, t[0].0, w);
      var s2 := DrainStep(s, socket, myid, t[0].0, w);
      DeleteFirst(t);
      assert WaitingFor(s2, myid) == t[1..];
      assert DrainWaiting(s, socket, myid, Keys(t)) == DrainWaiting(s2, socket, myid, Keys(t[1..]));
      DrainAll(s2, socket, myid);
      DrainedStep(s, socket, myid);
    }
  }

  /** `login` never refuses: whether or not the identity is bound, it is
      (re)bound to this socket, told `logged_in`, everything parked for it
      is drained, and the control socket gets a `disconnect` handler for it. */
  lemma LoginBindsAndDrains(s: State, socket: SocketId, myid: Uid)
    requires DistinctKeys(WaitingFor(s, myid)) && s.bridgesByNum <= s.namespaces
    ensures var d := Drained(s.(clients := s.clients[myid := Client(socket, myid)],
                                outbox := s.outbox + [Emit(socket, "logged_in", [Str(myid)])]), socket, myid);
      Login(s, socket, myid) == d.(logins := d.logins[socket := Logins(s, socket) + [myid]])
  {
    var s1 := s.(clients := s.clients[myid := Client(socket, myid)],
                 outbox := s.outbox + [Emit(socket, "logged_in", [Str(myid)])]);
    assert WaitingFor(s1, myid) == WaitingFor(s, myid);
    DrainAll(s1, socket, myid);
  }

  /** In particular a second login under a bound identity replaces the
      binding. */
  lemma LoginOverwrites(s: State, socket: SocketId, myid: Uid)
    requires DistinctKeys(WaitingFor(s, myid)) && s.bridgesByNum <= s.namespaces
    ensures var r := Login(s, socket, myid);
      && r.clients == s.clients[myid := Client(socket, myid)]
      && Logins(r, socket) == Logins(s, socket) + [myid]
      && (forall x :: x != socket ==> Logins(r, x) == Logins(s, x))
      && WaitingFor(r, myid) == []
      && r.numBridges == s.numBridges
  {
    LoginBindsAndDrains(s, socket, myid);
  }

  lemma DrainedKeepsValid(s: State, socket: SocketId, myid: Uid)
    requires Valid(s)
    ensures Valid(Drained(s, socket, myid))
  {
    var t := WaitingFor(s, myid);
    var r := Drained(s, socket, myid);
    forall n | n in BridgeNums(t) ensures n < s.numBridges {
      var e :| e in t && e.1.bridgenum == n;
    }
    assert Numbered(r);
  }

  lemma LoginKeepsValid(s: State, socket: SocketId, myid: Uid)
    requires Valid(s)
    ensures Valid(Login(s, socket, myid))
  {
    var s1 := s.(clients := s.clients[myid := Client(socket, myid)],
                 outbox := s.outbox + [Emit(socket, "logged_in", [Str(myid)])]);
    LoginBindsAndDrains(s, socket, myid);
    DrainedKeepsValid(s1, socket, myid);
  }

  // ---------------------------------------------------------------------------
  // Control socket disconnect

  /** Each identity a login registered on the socket is deleted from
      `clients` and `clients_waiting`; other identities stay as they are. */
  lemma ControlDisconnectForgets(s: State, socket: SocketId)
    ensures var r := ControlDisconnect(s, socket);
      && (forall id :: id in Logins(s, socket) ==> id !in r.clients && id !in r.clientsWaiting)
      && (forall id :: id in s.clients && id !in Logins(s, socket) ==> id in r.clients && r.clients[id] == s.clients[id])
      && (forall id :: id in s.clientsWaiting && id !in Logins(s, socket) ==>
            id in r.clientsWaiting && r.clientsWaiting[id] == s.clientsWaiting[id])
      && r.numBridges == s.numBridges && r.bridgesByNum == s.bridgesByNum
  {
  }

  /** The handler deletes the identity even when a later login from another
      socket has rebound it: A logs in as `id`, B logs in as `id`, A
      disconnects, and `id` is unbound although B is still connected. */
  lemma StaleDisconnectUnbinds(s: State, a: SocketId, b: SocketId, id: Uid)
    requires Valid(s) && a != b
    ensures var r := Login(Login(s, a, id), b, id);
      && id in r.clients && r.clients[id] == Client(b, id)
      && id !in ControlDisconnect(r, a).clients
  {
    LoginKeepsValid(s, a, id);
    LoginOverwrites(s, a, id);
    var s1 := Login(s, a, id);
    LoginOverwrites(s1, b, id);
    var r := Login(s1, b, id);
    assert id in Logins(r, a);
    ControlDisconnectForgets(r, a);
  }

  lemma ControlDisconnectKeepsValid(s: State, socket: SocketId)
    requires Valid(s)
    ensures Valid(ControlDisconnect(s, socket))
  {
    var r := ControlDisconnect(s, socket);
    assert forall id :: id in r.clientsWaiting ==> r.clientsWaiting[id] == s.clientsWaiting[id];
  }

  // ---------------------------------------------------------------------------
  // request_bridge

  /** To an offline target: the request is parked under the fresh number,
      keyed by the requester's id; nothing is created and nobody is told. */
  lemma RequestOffline(s: State, socket: SocketId, myid: Uid, otherid: Uid)
    requires otherid !in s.clients
    ensures var r := RequestBridge(s, socket, myid, otherid);
      && Get(WaitingFor(r, otherid), myid) == Some(Waiting(myid, socket, s.numBridges))
      && r == s.(numBridges := s.numBridges + 1, clientsWaiting := r.clientsWaiting)
      && (forall id :: id != otherid ==> WaitingFor(r, id) == WaitingFor(s, id))
      && WaitingFor(r, otherid) == Put(WaitingFor(s, otherid), myid, Waiting(myid, socket, s.numBridges))
  {
  }

  /** To an online target, in a valid state: the bridge under the fresh
      number is created and both sides are told it, each with its own id. */
  lemma RequestOnline(s: State, socket: SocketId, myid: Uid, otherid: Uid)
    requires Valid(s) && otherid in s.clients
    ensures var n := s.numBridges; var other := s.clients[otherid];
      RequestBridge(s, socket, myid, otherid)
      == s.(numBridges := n + 1,
            bridgesByNum := s.bridgesByNum + {n},
            namespaces := s.namespaces + {n},
            outbox := s.outbox + [ConnectToBridge(socket, myid, n), ConnectToBridge(other.socket, otherid, n)])
  {
    FreshBridgenum(s);
  }

  lemma RequestBridgeKeepsValid(s: State, socket: SocketId, myid: Uid, otherid: Uid)
    requires Valid(s)
    ensures Valid(RequestBridge(s, socket, myid, otherid))
  {
    var r := RequestBridge(s, socket, myid, otherid);
    if otherid !in s.clients {
      var w := Waiting(myid, socket, s.numBridges);
      PutKeepsDistinct(WaitingFor(s, otherid), myid, w);
      PutKeepsOrdered(WaitingFor(s, otherid), myid, w);
      assert forall id, e :: id in r.clientsWaiting && e in r.clientsWaiting[id] ==>
        e == (myid, w) || e in s.clientsWaiting[id];
    } else {
      RequestOnline(s, socket, myid, otherid);
    }
  }

  // ---------------------------------------------------------------------------
  // Symmetric arrival order

  /** The target is online first: B logs in, A logs in, A requests B. */
  function TargetFirst(s: State, a: Uid, sa: SocketId, b: Uid, sb: SocketId): State {
    RequestBridge(Login(Login(s, sb, b), sa, a), sa, a, b)
  }

  /** The target comes late: A logs in, A requests B, B logs in. */
  function TargetLate(s: State, a: Uid, sa: SocketId, b: Uid, sb: SocketId): State {
    Login(RequestBridge(Login(s, sa, a), sa, a, b), sb, b)
  }

  lemma LoginFresh(s: State, socket: SocketId, myid: Uid)
    requires WaitingFor(s, myid) == []
    ensures Login(s, socket, myid)
         == s.(clients := s.clients[myid := Client(socket, myid)],
               logins := s.logins[socket := Logins(s, socket) + [myid]],
               outbox := s.outbox + [Emit(socket, "logged_in", [Str(myid)])])
  {
  }

  lemma TargetFirstForm(s: State, a: Uid, sa: SocketId, b: Uid, sb: SocketId)
    requires Valid(s) && a != b && sa != sb
    requires WaitingFor(s, a) == [] && WaitingFor(s, b) == []
    ensures var n := s.numBridges;
      TargetFirst(s, a, sa, b, sb)
      == s.(clients := s.clients[b := Client(sb, b)][a := Client(sa, a)],
            logins := s.logins[sb := Logins(s, sb) + [b]][sa := Logins(s, sa) + [a]],
            numBridges := n + 1,
            bridgesByNum := s.bridgesByNum + {n},
            namespaces := s.namespaces + {n},
            outbox := s.outbox + [Emit(sb, "logged_in", [Str(b)]), Emit(sa, "logged_in", [Str(a)]),
                                  ConnectToBridge(sa, a, n), ConnectToBridge(sb, b, n)])
  {
    LoginFresh(s, sb, b);
    var p1 := Login(s, sb, b);
    LoginFresh(p1, sa, a);
    var p2 := Login(p1, sa, a);
    assert Valid(p2) by {
      LoginKeepsValid(s, sb, b);
      LoginKeepsValid(p1, sa, a);
    }
    RequestOnline(p2, sa, a, b);
  }

  /** A logs in and asks for B, who is offline: the request is the only one
      parked for B. */
  lemma LoginThenPark(s: State, a: Uid, sa: SocketId, b: Uid)
    requires a != b && b !in s.clients
    requires WaitingFor(s, a) == [] && WaitingFor(s, b) == []
    ensures var q2 := RequestBridge(Login(s, sa, a), sa, a, b);
      && q2 == s.(clients := s.clients[a := Client(sa, a)],
                  logins := s.logins[sa := Logins(s, sa) + [a]],
                  clientsWaiting := s.clientsWaiting[b := [(a, Waiting(a, sa, s.numBridges))]],
                  numBridges := s.numBridges + 1,
                  outbox := s.outbox + [Emit(sa, "logged_in", [Str(a)])])
      && WaitingFor(q2, b) == [(a, Waiting(a, sa, s.numBridges))]
  {
    LoginFresh(s, sa, a);
  }

  /** A login that finds exactly one parked request creates that bridge,
      tells the requester now and schedules its own notice. */
  lemma LoginDrainsOne(s: State, socket: SocketId, myid: Uid, wid: Uid, w: Waiting)
    requires WaitingFor(s, myid) == [(wid, w)] && s.bridgesByNum <= s.namespaces
    ensures Login(s, socket, myid)
         == s.(clients := s.clients[myid := Client(socket, myid)],
               clientsWaiting := s.clientsWaiting[myid := []],
               bridgesByNum := s.bridgesByNum + {w.bridgenum},
               namespaces := s.namespaces + {w.bridgenum},
               logins := s.logins[socket := Logins(s, socket) + [myid]],
               timers := s.timers + [ConnectToBridge(socket, myid, w.bridgenum)],
               outbox := s.outbox + [Emit(socket, "logged_in", [Str(myid)]), ConnectToBridge(w.socket, wid, w.bridgenum)])
  {
    var t := [(wid, w)];
    LoginBindsAndDrains(s, socket, myid);
    assert BridgeNums(t) == {w.bridgenum};
  }

  lemma TargetLateForm(s: State, a: Uid, sa: SocketId, b: Uid, sb: SocketId)
    requires Valid(s) && a != b && sa != sb && b !in s.clients
    requires WaitingFor(s, a) == [] && WaitingFor(s, b) == []
    ensures var n := s.numBridges;
      TargetLate(s, a, sa, b, sb)
      == s.(clients := s.clients[a := Client(sa, a)][b := Client(sb, b)],
            clientsWaiting := s.clientsWaiting[b := []],
            logins := s.logins[sa := Logins(s, sa) + [a]][sb := Logins(s, sb) + [b]],
            numBridges := n + 1,
            bridgesByNum := s.bridgesByNum + {n},
            namespaces := s.namespaces + {n},
            timers := s.timers + [ConnectToBridge(sb, b, n)],
            outbox := s.outbox + [Emit(sa, "logged_in", [Str(a)]), Emit(sb, "logged_in", [Str(b)]),
                                  ConnectToBridge(sa, a, n)])
  {
    var n := s.numBridges;
    var q2 := RequestBridge(Login(s, sa, a), sa, a, b);
    LoginThenPark(s, a, sa, b);
    LoginDrainsOne(q2, sb, b, a, Waiting(a, sa, n));
    Overwrite(s.clientsWaiting, b, [(a, Waiting(a, sa, n))], []);
    Regroup(s.outbox, [Emit(sa, "logged_in", [Str(a)])], [Emit(sb, "logged_in", [Str(b)]), ConnectToBridge(sa, a, n)]);
  }

  lemma Overwrite(m: map<Uid, Dict<Waiting>>, k: Uid, v: Dict<Waiting>, v': Dict<Waiting>)
    ensures m[k := v][k := v'] == m[k := v']
  {
  }

  /** The late order once the scheduled notice has fired: the target's own
      notice joins the outbox after the others. */
  lemma TargetLateFired(s: State, a: Uid, sa: SocketId, b: Uid, sb: SocketId)
    requires Valid(s) && a != b && sa != sb && b !in s.clients && s.timers == []
    requires WaitingFor(s, a) == [] && WaitingFor(s, b) == []
    ensures var n := s.numBridges;
            var t := TargetLate(s, a, sa, b, sb);
      FireTimer(t) == t.(timers := [], outbox := s.outbox + [Emit(sa, "logged_in", [Str(a)]), Emit(sb, "logged_in", [Str(b)]),
                                                             ConnectToBridge(sa, a, n), ConnectToBridge(sb, b, n)])
  {
    var n := s.numBridges;
    var x := ConnectToBridge(sb, b, n);
    var o := [Emit(sa, "logged_in", [Str(a)]), Emit(sb, "logged_in", [Str(b)]), ConnectToBridge(sa, a, n)];
    TargetLateForm(s, a, sa, b, sb);
    Regroup(s.outbox, o, [x]);
    assert o + [x] == [Emit(sa, "logged_in", [Str(a)]), Emit(sb, "logged_in", [Str(b)]), ConnectToBridge(sa, a, n), x];
  }

  /** Requests parked for one target are kept in `Object.keys` order, which
      is the order the target's login drains them in: a request from "10"
      followed by one from "9" is listed "9" first. */
  lemma ParkedInKeysOrder(s: State, s10: SocketId, s9: SocketId, b: Uid)
    requires b !in s.clients && WaitingFor(s, b) == []
    ensures var q := RequestBridge(RequestBridge(s, s10, "10", b), s9, "9", b);
      WaitingFor(q, b) == [("9", Waiting("9", s9, s.numBridges + 1)), ("10", Waiting("10", s10, s.numBridges))]
  {
    var q1 := RequestBridge(s, s10, "10", b);
    RequestOffline(s, s10, "10", b);
    RequestOffline(q1, s9, "9", b);
    IndexKeysAscend(Waiting("10", s10, s.numBridges), Waiting("9", s9, s.numBridges + 1));
  }

  /** Both arrival orders end alike: the same identities bound, one bridge
      under the same fresh number, nothing left waiting, both sides told that
      number with their own ids. When the target comes late its own notice
      waits for the timer, so the two orders agree once it has fired (with no
      timer pending before); only the order of the two `logged_in` replies
      differs. */
  lemma ArrivalOrderSymmetric(s: State, a: Uid, sa: SocketId, b: Uid, sb: SocketId)
    requires Valid(s) && a != b && sa != sb && b !in s.clients && s.timers == []
    requires WaitingFor(s, a) == [] && WaitingFor(s, b) == []
    ensures var p := TargetFirst(s, a, sa, b, sb);
            var q := FireTimer(TargetLate(s, a, sa, b, sb));
            var n := s.numBridges;
      && p.clients == q.clients == s.clients[a := Client(sa, a)][b := Client(sb, b)]
      && p.bridgesByNum == q.bridgesByNum == s.bridgesByNum + {n}
      && p.namespaces == q.namespaces == s.namespaces + {n}
      && p.numBridges == q.numBridges == n + 1
      && p.logins == q.logins
      && p.timers == q.timers == []
      && LiveWaiting(p.clientsWaiting) == LiveWaiting(q.clientsWaiting) == LiveWaiting(s.clientsWaiting)
      && p.socksByBridgenum == q.socksByBridgenum && p.labelTables == q.labelTables
      && p.nspSockets == q.nspSockets && p.bridgeSockets == q.bridgeSockets
      && p.outbox == s.outbox + [Emit(sb, "logged_in", [Str(b)]), Emit(sa, "logged_in", [Str(a)]),
                                 ConnectToBridge(sa, a, n), ConnectToBridge(sb, b, n)]
      && q.outbox == s.outbox + [Emit(sa, "logged_in", [Str(a)]), Emit(sb, "logged_in", [Str(b)]),
                                 ConnectToBridge(sa, a, n), ConnectToBridge(sb, b, n)]
  {
    TargetFirstForm(s, a, sa, b, sb);
    TargetLateForm(s, a, sa, b, sb);
    TargetLateFired(s, a, sa, b, sb);
    ClientsCommute(s.clients, a, Client(sa, a), b, Client(sb, b));
    LoginsCommute(s.logins, sa, Logins(s, sa) + [a], sb, Logins(s, sb) + [b]);
    LiveWaitingIgnoresEmpty(s.clientsWaiting, b);
  }

  lemma ClientsCommute(m: map<Uid, Client>, a: Uid, x: Client, b: Uid, y: Client)
    requires a != b
    ensures m[b := y][a := x] == m[a := x][b := y]
  {
  }

  lemma LoginsCommute(m: map<SocketId, seq<Uid>>, a: SocketId, x: seq<Uid>, b: SocketId, y: seq<Uid>)
    requires a != b
    ensures m[b := y][a := x] == m[a := x][b := y]
  {
  }

  // ---------------------------------------------------------------------------
  // Bridge connections: the ceiling

  /** A connection that would make `MAX_NUM_BRIDGES + 1` bridges is told
      `internal_error` and disconnected, and that bridge's entries are
      deleted; nothing else changes but the unused empty table. */
  lemma CeilingRefuses(s: State, bridgenum: nat, sock: SocketId)
    requires bridgenum in s.namespaces && bridgenum !in s.socksByBridgenum
    requires |s.socksByBridgenum| == MAX_NUM_BRIDGES
    ensures BridgeConnection(s, bridgenum, sock)
         == s.(labelTables := s.labelTables + [[]],
               bridgesByNum := s.bridgesByNum - {bridgenum},
               outbox := s.outbox + [Emit(sock, "internal_error", [Str(SAFETY_MSG)]), Disconnect(sock)])
  {
    var m := s.socksByBridgenum;
    var m1 := m[bridgenum := |s.labelTables|];
    assert m1.Keys == m.Keys + {bridgenum};
    assert |m1| == |m| + 1;
    assert m1 - {bridgenum} == m;
  }

  /** Below the ceiling the socket is admitted and told `connected`; the
      first connection creates the bridge's empty label table. */
  lemma ConnectionAdmitted(s: State, bridgenum: nat, sock: SocketId)
    requires bridgenum in s.namespaces
    requires bridgenum in s.socksByBridgenum || |s.socksByBridgenum| < MAX_NUM_BRIDGES
    requires |s.socksByBridgenum| <= MAX_NUM_BRIDGES
    ensures var r := BridgeConnection(s, bridgenum, sock);
      && bridgenum in r.socksByBridgenum
      && r.bridgeSockets == s.bridgeSockets[sock := BridgeSocket(bridgenum, r.socksByBridgenum[bridgenum], None, false)]
      && r.nspSockets == s.nspSockets[bridgenum := NspSockets(s, bridgenum) + [sock]]
      && r.outbox == s.outbox + [Emit(sock, "connected", [])]
      && (bridgenum in s.socksByBridgenum ==>
            r == s.(bridgeSockets := r.bridgeSockets, nspSockets := r.nspSockets, outbox := r.outbox))
      && (bridgenum !in s.socksByBridgenum ==>
            r == s.(labelTables := s.labelTables + [[]],
                    socksByBridgenum := s.socksByBridgenum[bridgenum := |s.labelTables|],
                    bridgeSockets := r.bridgeSockets, nspSockets := r.nspSockets, outbox := r.outbox))
  {
    if bridgenum !in s.socksByBridgenum {
      var m := s.socksByBridgenum;
      var m1 := m[bridgenum := |s.labelTables|];
      assert m1.Keys == m.Keys + {bridgenum};
      assert |m1| == |m| + 1;
    }
  }

  lemma AdmittedKeepsValid(s: State, bridgenum: nat, sock: SocketId)
    requires Valid(s) && bridgenum in s.namespaces
    requires bridgenum in s.socksByBridgenum || |s.socksByBridgenum| < MAX_NUM_BRIDGES
    ensures Valid(BridgeConnection(s, bridgenum, sock))
  {
    ConnectionAdmitted(s, bridgenum, sock);
    if bridgenum !in s.socksByBridgenum {
      TableAddedKeepsValid(s, BridgeConnection(s, bridgenum, sock), bridgenum, sock);
    }
  }

  /** A state that differs from a valid one by a new empty label table, the
      bridge entry for it, and one socket on it, is valid. */
  lemma TableAddedKeepsValid(s: State, r: State, bridgenum: nat, sock: SocketId)
    requires Valid(s) && bridgenum !in s.socksByBridgenum && |s.socksByBridgenum| < MAX_NUM_BRIDGES
    requires r == s.(labelTables := s.labelTables + [[]],
                     socksByBridgenum := s.socksByBridgenum[bridgenum := |s.labelTables|],
                     bridgeSockets := s.bridgeSockets[sock := BridgeSocket(bridgenum, |s.labelTables|, None, false)],
                     nspSockets := r.nspSockets, outbox := r.outbox)
    ensures Valid(r)
  {
    var m := s.socksByBridgenum;
    assert r.socksByBridgenum.Keys == m.Keys + {bridgenum};
    assert r.bridgesByNum == s.bridgesByNum && r.namespaces == s.namespaces;
    assert r.numBridges == s.numBridges && r.clientsWaiting == s.clientsWaiting;
    TableAddedWf(s, r, bridgenum, sock);
    forall t | 0 <= t < |r.labelTables|
      ensures DistinctKeys(r.labelTables[t])
    {
      if t < |s.labelTables| {
        assert r.labelTables[t] == s.labelTables[t];
      }
    }
  }

  lemma TableAddedWf(s: State, r: State, bridgenum: nat, sock: SocketId)
    requires Wf(s)
    requires r.labelTables == s.labelTables + [[]]
    requires r.socksByBridgenum == s.socksByBridgenum[bridgenum := |s.labelTables|]
    requires r.bridgeSockets == s.bridgeSockets[sock := BridgeSocket(bridgenum, |s.labelTables|, None, false)]
    ensures Wf(r)
  {
  }

  lemma BridgeConnectionKeepsValid(s: State, bridgenum: nat, sock: SocketId)
    requires Valid(s)
    ensures Valid(BridgeConnection(s, bridgenum, sock))
  {
    if bridgenum in s.namespaces {
      if bridgenum in s.socksByBridgenum || |s.socksByBridgenum| < MAX_NUM_BRIDGES {
        AdmittedKeepsValid(s, bridgenum, sock);
      } else {
        CeilingRefuses(s, bridgenum, sock);
        var r := BridgeConnection(s, bridgenum, sock);
        assert forall t :: 0 <= t < |s.labelTables| ==> r.labelTables[t] == s.labelTables[t];
      }
    }
  }

  // ---------------------------------------------------------------------------
  // start and forwarding

  /** `start(mylabel)` records the label and registers the socket under it,
      and registers the forwarder exactly when nothing was thrown; besides,
      only the outbox changes, and it only grows. */
  lemma StartRegisters(s: State, sock: SocketId, mylabel: Value)
    requires Wf(s) && sock in s.bridgeSockets
    ensures var b := s.bridgeSockets[sock];
            var r := Start(s, sock, mylabel);
      && r.state.labelTables == s.labelTables[b.table := Put(s.labelTables[b.table], PropertyKey(mylabel), sock)]
      && r.state.bridgeSockets == s.bridgeSockets[sock := b.(started := Some(mylabel), forwarding := r.thrown.None?)]
      && r.state == s.(labelTables := r.state.labelTables, bridgeSockets := r.state.bridgeSockets, outbox := r.state.outbox)
      && s.outbox <= r.state.outbox
  {
  }

  /** `start` throws, and so never registers the forwarder, exactly when the
      table then holds more than two labels or the label is not a string
      (strict `indexOf` cannot find it); the socket's later events are then
      dropped. Without a second label it announces nothing. */
  lemma AnnounceThrows(t: Dict<SocketId>, sock: SocketId, mylabel: Value)
    requires PropertyKey(mylabel) in Keys(t)
    ensures var (out, thrown) := Announce(t, sock, mylabel);
      && (thrown.None? <==> |t| <= 2 && mylabel.Str?)
      && (|t| != 2 ==> out == [])
  {
    match OtherKey.GetOtherKeyVal(t, mylabel)
    case Err(_) =>
    case Ok(_) =>
  }

  lemma StartThrows(s: State, sock: SocketId, mylabel: Value)
    requires Wf(s) && sock in s.bridgeSockets
    ensures var t := Put(s.labelTables[s.bridgeSockets[sock].table], PropertyKey(mylabel), sock);
            var r := Start(s, sock, mylabel);
      && (r.thrown.None? <==> |t| <= 2 && mylabel.Str?)
      && (r.state.bridgeSockets[sock].forwarding <==> r.thrown.None?)
      && (|t| != 2 ==> r.state.outbox == s.outbox)
  {
    var t := Put(s.labelTables[s.bridgeSockets[sock].table], PropertyKey(mylabel), sock);
    StartRegisters(s, sock, mylabel);
    AnnounceThrows(t, sock, mylabel);
  }

  /** When a second string label arrives, both sockets are told
      `peer_connected` (unless the first label is the empty string, a falsy
      key). */
  lemma StartAnnounces(s: State, sock: SocketId, mylabel: string, l: string, x: SocketId)
    requires Wf(s) && sock in s.bridgeSockets
    requires DistinctKeys(s.labelTables[s.bridgeSockets[sock].table])
    requires var t := Put(s.labelTables[s.bridgeSockets[sock].table], mylabel, sock);
      |t| == 2 && (l, x) in t && l != mylabel
    ensures var r := Start(s, sock, Str(mylabel));
      && r.thrown == None
      && r.state.outbox == s.outbox + (if l != "" then [Emit(sock, "peer_connected", []), Emit(x, "peer_connected", [])] else [])
  {
    var t := Put(s.labelTables[s.bridgeSockets[sock].table], mylabel, sock);
    PutKeepsDistinct(s.labelTables[s.bridgeSockets[sock].table], mylabel, sock);
    assert mylabel in Keys(t) && l in Keys(t);
    GetEntry(t, l, x);
  }

  /** Every label table has distinct keys, in `Object.keys` order. */
  ghost predicate AllKept(tables: seq<Dict<SocketId>>) {
    forall t :: 0 <= t < |tables| ==> DistinctKeys(tables[t]) && Ordered(tables[t])
  }

  lemma RegisterKeepsTables(s: State, sock: SocketId, mylabel: Value, forwarding: bool)
    requires Wf(s) && AllKept(s.labelTables) && sock in s.bridgeSockets
    ensures Wf(Register(s, sock, mylabel, forwarding)) && AllKept(Register(s, sock, mylabel, forwarding).labelTables)
  {
    var b := s.bridgeSockets[sock];
    var r := Register(s, sock, mylabel, forwarding);
    PutKeepsDistinct(s.labelTables[b.table], PropertyKey(mylabel), sock);
    PutKeepsOrdered(s.labelTables[b.table], PropertyKey(mylabel), sock);
    forall t | 0 <= t < |r.labelTables| ensures DistinctKeys(r.labelTables[t]) && Ordered(r.labelTables[t]) {
      if t != b.table {
        assert r.labelTables[t] == s.labelTables[t];
      }
    }
  }

  /** The invariant does not depend on the outbox nor, given well-formed
      distinct tables, on the label tables and bridge sockets. */
  lemma ValidFromTables(s: State, r: State)
    requires Valid(s) && Wf(r) && AllKept(r.labelTables)
    requires r == s.(labelTables := r.labelTables, bridgeSockets := r.bridgeSockets, outbox := r.outbox)
    ensures Valid(r)
  {
    assert Numbered(r) by {
      assert r.bridgesByNum == s.bridgesByNum && r.namespaces == s.namespaces;
      assert r.clientsWaiting == s.clientsWaiting && r.numBridges == s.numBridges;
    }
  }

  lemma StartKeepsValid(s: State, sock: SocketId, mylabel: Value)
    requires Valid(s) && sock in s.bridgeSockets
    ensures Valid(Start(s, sock, mylabel).state)
  {
    var r := Start(s, sock, mylabel);
    RegisterKeepsTables(s, sock, mylabel, r.thrown.None?);
    var s1 := Register(s, sock, mylabel, r.thrown.None?);
    assert r.state == s1.(outbox := r.state.outbox);
    ValidFromTables(s, r.state);
  }

  /** The forwarder throws when the table holds more than two labels or its
      own label is not a string, and drops the event when its socket is
      alone. */
  lemma RelayThrows(t: Dict<SocketId>, mylabel: Value, event: string, args: seq<Value>)
    requires PropertyKey(mylabel) in Keys(t)
    ensures var (out, thrown) := Relay(t, mylabel, event, args);
      && out == [] <== (|t| != 2 || !mylabel.Str?)
      && (thrown.Some? <==> |t| > 2 || !mylabel.Str?)
  {
  }

  /** With two labels, the forwarder sends the event, with the same name and
      arguments, to the other label's socket only. */
  lemma RelayGoesToOther(t: Dict<SocketId>, mylabel: string, l: string, x: SocketId, event: string, args: seq<Value>)
    requires DistinctKeys(t) && |t| == 2 && mylabel in Keys(t)
    requires (l, x) in t && l != mylabel && l != ""
    ensures Relay(t, Str(mylabel), event, args) == ([Emit(x, event, args)], None)
  {
    GetEntry(t, l, x);
  }

  /** Forwarding changes nothing but the outbox. */
  lemma ForwardOnlyEmits(s: State, sock: SocketId, event: string, args: seq<Value>)
    requires Wf(s) && sock in s.bridgeSockets && s.bridgeSockets[sock].started.Some?
    ensures var r := Forward(s, sock, event, args).state;
      r == s.(outbox := r.outbox) && |r.outbox| >= |s.outbox|
  {
  }

  lemma BridgeEventKeepsValid(s: State, sock: SocketId, event: string, args: seq<Value>)
    requires Valid(s)
    ensures Valid(BridgeEvent(s, sock, event, args).state)
  {
    if sock in s.bridgeSockets {
      var b := s.bridgeSockets[sock];
      if b.started.None? {
        if event == "start" {
          StartKeepsValid(s, sock, FirstArg(args));
        }
      } else if b.forwarding {
        ForwardOnlyEmits(s, sock, event, args);
      }
    }
  }

  // ---------------------------------------------------------------------------
  // Bridge disconnect

  lemma ReleaseLabelsLast(tables: seq<Dict<SocketId>>, bs: map<SocketId, BridgeSocket>, x: SocketId, xs: seq<SocketId>)
    ensures ReleaseLabels(tables, bs, [x] + xs) == ReleaseLabel(ReleaseLabels(tables, bs, xs), bs, x)
  {
    assert ([x] + xs)[1..] == xs;
  }

  lemma ReleaseLabelKeepsTables(tables: seq<Dict<SocketId>>, bs: map<SocketId, BridgeSocket>, x: SocketId)
    requires AllKept(tables)
    ensures AllKept(ReleaseLabel(tables, bs, x))
  {
    if x in bs && bs[x].table < |tables| {
      var k := bs[x].table;
      DeleteKeepsDistinct(tables[k], LabelKey(bs[x]));
      DeleteKeepsOrdered(tables[k], LabelKey(bs[x]));
      var r := ReleaseLabel(tables, bs, x);
      forall t | 0 <= t < |r| ensures DistinctKeys(r[t]) && Ordered(r[t]) {
        if t != k {
          assert r[t] == tables[t];
        }
      }
    }
  }

  /** Releasing labels keeps every table's keys distinct. */
  lemma {:induction false} ReleaseKeepsTables(tables: seq<Dict<SocketId>>, bs: map<SocketId, BridgeSocket>, xs: seq<SocketId>)
    requires AllKept(tables)
    ensures AllKept(ReleaseLabels(tables, bs, xs))
    decreases |xs|
  {
    if xs != [] {
      ReleaseKeepsTables(tables, bs, xs[1..]);
      ReleaseLabelKeepsTables(ReleaseLabels(tables, bs, xs[1..]), bs, xs[0]);
    }
  }

  /** Either side leaving tears the bridge down: every other socket of the
      namespace is disconnected, the bridge's entries are deleted, and the
      leaving socket's label is gone from its table. Unlike the current
      broker, no identity is released: `clients` and `clients_waiting` are
      untouched. */
  lemma TeardownIsJoint(s: State, sock: SocketId)
    requires Wf(s) && sock in s.bridgeSockets
    ensures var b := s.bridgeSockets[sock];
            var n := b.bridgenum;
            var r := BridgeDisconnect(s, sock);
      && n !in r.socksByBridgenum && n !in r.bridgesByNum
      && NspSockets(r, n) == [] && sock !in r.bridgeSockets
      && Get(r.labelTables[b.table], LabelKey(b)) == None
      && (forall x :: x in NspSockets(s, n) && x != sock ==> Disconnect(x) in r.outbox && x !in r.bridgeSockets)
      && r.clients == s.clients && r.clientsWaiting == s.clientsWaiting
      && r.numBridges == s.numBridges && r.namespaces == s.namespaces
  {
    var b := s.bridgeSockets[sock];
    var rest := Without(NspSockets(s, b.bridgenum), sock);
    var r := BridgeDisconnect(s, sock);
    ReleaseLabelsLast(s.labelTables, s.bridgeSockets, sock, rest);
    forall x | x in NspSockets(s, b.bridgenum) && x != sock
      ensures Disconnect(x) in r.outbox
    {
      var i :| 0 <= i < |rest| && rest[i] == x;
      assert r.outbox[|s.outbox| + i] == Disconnect(x);
    }
  }

  lemma BridgeDisconnectKeepsValid(s: State, sock: SocketId)
    requires Valid(s)
    ensures Valid(BridgeDisconnect(s, sock))
  {
    if sock in s.bridgeSockets {
      var n := s.bridgeSockets[sock].bridgenum;
      var rest := Without(NspSockets(s, n), sock);
      var m := s.socksByBridgenum - {n};
      SubsetCard(m.Keys, s.socksByBridgenum.Keys);
      ReleaseKeepsTables(s.labelTables, s.bridgeSockets, [sock] + rest);
      var r := BridgeDisconnect(s, sock);
      assert Numbered(r) by {
        assert r.bridgesByNum <= s.bridgesByNum && r.namespaces == s.namespaces;
        assert r.clientsWaiting == s.clientsWaiting && r.numBridges == s.numBridges;
      }
    }
  }

  // ---------------------------------------------------------------------------
  // The broker as an object updated in place

  /** The tables of the older `SocketIoBridgeServer`, updated in place by its
      handlers; each handler is proved to leave them as its step function
      says, so the lemmas above carry over. */
  class LegacyBroker {
    var clients: map<Uid, Client>
    var clientsWaiting: map<Uid, Dict<Waiting>>
    var numBridges: nat
    var socksByBridgenum: map<nat, TableId>
    var bridgesByNum: set<nat>
    var labelTables: seq<Dict<SocketId>>
    var namespaces: set<nat>
    var nspSockets: map<nat, seq<SocketId>>
    var bridgeSockets: map<SocketId, BridgeSocket>
    var logins: map<SocketId, seq<Uid>>
    var timers: seq<Action>
    var outbox: seq<Action>

    function Snapshot(): State
      reads this
    {
      State(clients, clientsWaiting, numBridges, socksByBridgenum, bridgesByNum, labelTables,
            namespaces, nspSockets, bridgeSockets, logins, timers, outbox)
    }

    constructor ()
      ensures Snapshot() == Init() && Valid(Snapshot())
    {
      clients, clientsWaiting, numBridges, socksByBridgenum := map[], map[], 0, map[];
      bridgesByNum, labelTables, namespaces, nspSockets := {}, [], {}, map[];
      bridgeSockets, logins, timers, outbox := map[], map[], [], [];
    }

    /** `makeBridge(bridgenum)`. */
    method NewBridge(bridgenum: nat) returns (err: Option<string>)
      modifies this
      ensures Made(Snapshot(), err) == MakeBridge(old(Snapshot()), bridgenum)
    {
      if bridgenum in bridgesByNum {
        err := Some("SERVER  " + Show(bridgenum) + " already existing");
      } else {
        bridgesByNum := bridgesByNum + {bridgenum};
        namespaces := namespaces + {bridgenum};
        err := None;
      }
    }

    method OnControlConnection(socket: SocketId)
      modifies this
      ensures Snapshot() == ControlConnection(old(Snapshot()), socket)
    {
      outbox := outbox + [Emit(socket, "connected", [])];
    }

    /** `login(myid)`. */
    method OnLogin(socket: SocketId, myid: Uid)
      modifies this
      ensures Snapshot() == Login(old(Snapshot()), socket, myid)
    {
      clients := clients[myid := Client(socket, myid)];
      outbox := outbox + [Emit(socket, "logged_in", [Str(myid)])];
      var wids := Keys(WaitingFor(Snapshot(), myid));
      var completed := DrainLoop(socket, myid, wids);
      if completed {
        logins := logins[socket := (if socket in logins then logins[socket] else []) + [myid]];
      }
    }

    /** The loop of `login` over the waiting entries `wids`; it reports
        whether it ran to its end. */
    method DrainLoop(socket: SocketId, myid: Uid, wids: seq<Uid>) returns (completed: bool)
      modifies this
      ensures Drain(Snapshot(), completed) == DrainWaiting(old(Snapshot()), socket, myid, wids)
    {
      ghost var target := DrainWaiting(Snapshot(), socket, myid, wids);
      var i := 0;
      while i < |wids|
        invariant 0 <= i <= |wids|
        invariant DrainWaiting(Snapshot(), socket, myid, wids[i..]) == target
      {
        assert wids[i..][1..] == wids[i + 1..];
        var stopped := DrainOne(socket, myid, wids[i]);
        if stopped {
          return false;
        }
        i := i + 1;
      }
      return true;
    }

    /** One turn of the loop of `login` for the waiting entry `wid`; it
        reports whether the sanity check stopped the handler. */
    method DrainOne(socket: SocketId, myid: Uid, wid: Uid) returns (stopped: bool)
      modifies this
      ensures var s := old(Snapshot());
        stopped <==> Get(WaitingFor(s, myid), wid).None?
      ensures var s := old(Snapshot());
        stopped ==> Snapshot() == s
      ensures var s := old(Snapshot());
        !stopped ==> Snapshot() == DrainStep(s, socket, myid, wid, Get(WaitingFor(s, myid), wid).value)
    {
      var waiting := if myid in clientsWaiting then clientsWaiting[myid] else [];
      match Get(waiting, wid)
      case None =>
        stopped := true;
      case Some(w) =>
        var _ := NewBridge(w.bridgenum);
        timers := timers + [ConnectToBridge(socket, myid, w.bridgenum)];
        outbox := outbox + [ConnectToBridge(w.socket, wid, w.bridgenum)];
        clientsWaiting := clientsWaiting[myid := Delete(waiting, wid)];
        stopped := false;
    }

    /** The first pending `setTimeout` callback runs. */
    method OnTimer()
      modifies this
      ensures Snapshot() == FireTimer(old(Snapshot()))
    {
      if timers != [] {
        outbox := outbox + [timers[0]];
        timers := timers[1..];
      }
    }

    /** The `disconnect` handlers of a control socket, one per login, each
        forgetting its identity. */
    method OnControlDisconnect(socket: SocketId)
      modifies this
      ensures Snapshot() == ControlDisconnect(old(Snapshot()), socket)
    {
      var ids := if socket in logins then logins[socket] else [];
      clients, clientsWaiting := ForgetIds(clients, clientsWaiting, ids);
      logins := logins - {socket};
    }

    /** Each handler in turn: `delete clients[myid]; delete clients_waiting[myid]`. */
    static method ForgetIds(c: map<Uid, Client>, w: map<Uid, Dict<Waiting>>, ids: seq<Uid>)
      returns (c': map<Uid, Client>, w': map<Uid, Dict<Waiting>>)
      ensures c' == c - Ids(ids) && w' == w - Ids(ids)
    {
      c', w' := c, w;
      var i := 0;
      while i < |ids|
        invariant 0 <= i <= |ids|
        invariant c' == c - Ids(ids[..i]) && w' == w - Ids(ids[..i])
      {
        c', w' := c' - {ids[i]}, w' - {ids[i]};
        assert Ids(ids[..i + 1]) == Ids(ids[..i]) + {ids[i]};
        i := i + 1;
      }
      assert ids[..|ids|] == ids;
    }

    /** `request_bridge(myid, otherid)`. */
    method OnRequestBridge(socket: SocketId, myid: Uid, otherid: Uid)
      modifies this
      ensures Snapshot() == RequestBridge(old(Snapshot()), socket, myid, otherid)
    {
      var bridgenum := numBridges;
      numBridges := numBridges + 1;
      if otherid !in clients {
        var waiting := if otherid in clientsWaiting then clientsWaiting[otherid] else [];
        clientsWaiting := clientsWaiting[otherid := Put(waiting, myid, Waiting(myid, socket, bridgenum))];
        return;
      }
      var other := clients[otherid];
      var err := NewBridge(bridgenum);
      if err.Some? {
        outbox := outbox + [Emit(socket, "internal_error", [Str(err.value)])];
      } else {
        outbox := outbox + [ConnectToBridge(socket, myid, bridgenum), ConnectToBridge(other.socket, otherid, bridgenum)];
      }
    }

    /** The connection handler of bridge namespace `bridgenum`. */
    method OnConnection(bridgenum: nat, sock: SocketId)
      modifies this
      ensures Snapshot() == BridgeConnection(old(Snapshot()), bridgenum, sock)
    {
      if bridgenum !in namespaces {
        return;
      }
      if bridgenum !in socksByBridgenum {
        socksByBridgenum := socksByBridgenum[bridgenum := |labelTables|];
        labelTables := labelTables + [[]];
      }
      var table := socksByBridgenum[bridgenum];
      if |socksByBridgenum| > MAX_NUM_BRIDGES {
        Refuse(bridgenum, sock);
      } else {
        Admit(bridgenum, sock, table);
      }
    }

    /** Over the ceiling: `internal_error`, disconnect, delete the bridge's
        entries. */
    method Refuse(bridgenum: nat, sock: SocketId)
      modifies this
      ensures var s := old(Snapshot());
        Snapshot() == s.(outbox := s.outbox + [Emit(sock, "internal_error", [Str(SAFETY_MSG)]), Disconnect(sock)],
                         socksByBridgenum := s.socksByBridgenum - {bridgenum}, bridgesByNum := s.bridgesByNum - {bridgenum})
    {
      outbox, socksByBridgenum, bridgesByNum :=
        outbox + [Emit(sock, "internal_error", [Str(SAFETY_MSG)]), Disconnect(sock)],
        socksByBridgenum - {bridgenum}, bridgesByNum - {bridgenum};
    }

    /** Below it: `connected`, and the socket joins the namespace. */
    method Admit(bridgenum: nat, sock: SocketId, table: TableId)
      modifies this
      ensures var s := old(Snapshot());
        Snapshot() == s.(outbox := s.outbox + [Emit(sock, "connected", [])],
                         bridgeSockets := s.bridgeSockets[sock := BridgeSocket(bridgenum, table, None, false)],
                         nspSockets := s.nspSockets[bridgenum := NspSockets(s, bridgenum) + [sock]])
    {
      var sockets := if bridgenum in nspSockets then nspSockets[bridgenum] else [];
      outbox, bridgeSockets, nspSockets :=
        outbox + [Emit(sock, "connected", [])],
        bridgeSockets[sock := BridgeSocket(bridgenum, table, None, false)],
        nspSockets[bridgenum := sockets + [sock]];
    }

    /** An event on bridge socket `sock`: `once('start')` before the socket
        has started, the forwarder after if it was registered; what it
        throws is returned. */
    method OnPacket(sock: SocketId, event: string, args: seq<Value>) returns (thrown: Option<string>)
      requires Wf(Snapshot())
      modifies this
      ensures Step(Snapshot(), thrown) == BridgeEvent(old(Snapshot()), sock, event, args)
    {
      thrown := None;
      if sock !in bridgeSockets {
        return;
      }
      var b := bridgeSockets[sock];
      if b.started.None? {
        if event == "start" {
          thrown := OnStart(sock, FirstArg(args));
        }
      } else if b.forwarding {
        var (out, err) := Relay(labelTables[b.table], b.started.value, event, args);
        outbox := outbox + out;
        thrown := err;
      }
    }

    /** The `start(mylabel)` handler of a bridge socket that has not started. */
    method OnStart(sock: SocketId, mylabel: Value) returns (thrown: Option<string>)
      requires Wf(Snapshot()) && sock in bridgeSockets
      modifies this
      ensures Step(Snapshot(), thrown) == Start(old(Snapshot()), sock, mylabel)
    {
      ghost var s := Snapshot();
      var b := bridgeSockets[sock];
      var table := Put(labelTables[b.table], PropertyKey(mylabel), sock);
      var (out, err) := Announce(table, sock, mylabel);
      labelTables, bridgeSockets, outbox :=
        labelTables[b.table := table], bridgeSockets[sock := b.(started := Some(mylabel), forwarding := err.None?)], outbox + out;
      thrown := err;
      StartUpdates(s, sock, mylabel, table, out, err);
    }

    /** The `disconnect` handler of bridge socket `sock`: the `forEach`
        disconnecting the others, whose handlers run nested, then the
        cleanups, innermost first. */
    method OnBridgeDisconnect(sock: SocketId)
      modifies this
      ensures Snapshot() == BridgeDisconnect(old(Snapshot()), sock)
    {
      if sock !in bridgeSockets {
        return;
      }
      var n := bridgeSockets[sock].bridgenum;
      var rest := Without(if n in nspSockets then nspSockets[n] else [], sock);
      var out, gone := CloseOthers(rest);
      var tables := ReleaseAll(labelTables, bridgeSockets, [sock] + rest);
      Forget(n, out, tables, {sock} + gone);
    }

    /** The updates of a teardown: emit `out`, install the label tables
        `tables`, forget the sockets `gone` and bridge `n`'s entries. */
    method Forget(n: nat, out: seq<Action>, tables: seq<Dict<SocketId>>, gone: set<SocketId>)
      modifies this
      ensures var s := old(Snapshot());
        Snapshot() == s.(outbox := s.outbox + out, labelTables := tables, bridgeSockets := s.bridgeSockets - gone,
                         nspSockets := s.nspSockets[n := []], socksByBridgenum := s.socksByBridgenum - {n},
                         bridgesByNum := s.bridgesByNum - {n})
    {
      outbox, labelTables, bridgeSockets := outbox + out, tables, bridgeSockets - gone;
      nspSockets, socksByBridgenum, bridgesByNum := nspSockets[n := []], socksByBridgenum - {n}, bridgesByNum - {n};
    }

    /** The `forEach` over the other sockets: each is disconnected. */
    static method CloseOthers(rest: seq<SocketId>) returns (out: seq<Action>, gone: set<SocketId>)
      ensures out == DisconnectAll(rest)
      ensures gone == Members(rest)
    {
      out, gone := [], {};
      var i := 0;
      while i < |rest|
        invariant 0 <= i <= |rest|
        invariant out == DisconnectAll(rest[..i])
        invariant gone == Members(rest[..i])
      {
        out := out + [Disconnect(rest[i])];
        gone := gone + {rest[i]};
        assert rest[..i + 1] == rest[..i] + [rest[i]];
        i := i + 1;
      }
      assert rest[..|rest|] == rest;
    }

    /** The cleanups of the nested handlers, the last socket's first: each
        deletes its own label from its own table. */
    static method ReleaseAll(tables: seq<Dict<SocketId>>, bs: map<SocketId, BridgeSocket>, xs: seq<SocketId>)
      returns (r: seq<Dict<SocketId>>)
      ensures r == ReleaseLabels(tables, bs, xs)
    {
      r := tables;
      var i := |xs|;
      while i > 0
        invariant 0 <= i <= |xs|
        invariant r == ReleaseLabels(tables, bs, xs[i..])
      {
        i := i - 1;
        assert xs[i..][1..] == xs[i + 1..];
        var x := xs[i];
        if x in bs && bs[x].table < |r| {
          r := r[bs[x].table := Delete(r[bs[x].table], LabelKey(bs[x]))];
        }
      }
    }
  }
}
