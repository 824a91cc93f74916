/** The callback client, packages/client/src/client.js.

    One instance holds the control socket to the broker, a table `clients`
    from operation ids (`uuid`) to the handlers of one `make` call, and the
    counter `num_connections` the ids are built from. The broker answers
    on the control socket with `logged_in`, `connect_to_bridge` and
    `internal_error`, each carrying the uuid; a bridge assignment opens a
    socket to the bridge namespace whose once-only listeners run the echo
    test before `onresult` reports the bridge. */
module Client {
  import opened Wrappers
  import opened Decimal
  import opened Transport

  /** The token of the echo test. */
  const TEST_TEXT := "testtext"

  const UID_REQUIRED := "Error: uid is required"
  const ONRESULT_NOT_FUNCTION := "Error: onresult handler must be a function"
  /** What `cb(txt)` throws when the peer sent `echo` without an acknowledgement. */
  const CB_NOT_FUNCTION := "TypeError: cb is not a function"

  /** The `TypeError` of `client.<member>(...)` when `clients[uuid]` is undefined. */
  function NoClient(member: string): string {
    "TypeError: Cannot read property '" + member + "' of undefined"
  }

  /** The values the handlers of one `make` call closed over. */
  datatype Handle = Handle(uid: Value, peerUid: Value)

  /** A socket opened to a bridge namespace for operation `uuid`. The three
      flags say whether the `once` listeners for `internal_error`,
      `peer_connected` and `echo` are still registered; `awaitingEcho`
      whether the acknowledgement of our own `echo` is outstanding. */
  datatype BridgeSocket = BridgeSocket(
    uuid: string, uid: Value,
    onError: bool, onPeer: bool, onEcho: bool,
    awaitingEcho: bool)

  datatype Channel = Master | Bridge(index: nat)

  /** What `onresult` receives: the bridge socket, or an `Error(msg)`. */
  datatype Outcome = Established(bridge: nat) | Failed(msg: Value)

  datatype Output =
    | Send(via: Channel, event: string, args: seq<Value>)  // socket.emit on the control or a bridge socket
    | Connect(bridge: nat, uri: string)                    // this.IO(uri, opts)
    | Answer(bridge: nat, args: seq<Value>)                // the peer's acknowledgement invoked
    | Settle(uuid: string, outcome: Outcome)               // onresult(...) of operation uuid

  datatype State = State(
    uri: string,                     // this.uri
    clients: map<string, Handle>,    // this.clients
    numConnections: nat,             // this.num_connections
    bridges: seq<BridgeSocket>,      // bridge sockets, by the order they were opened
    outbox: seq<Output>)

  datatype Step = Step(state: State, thrown: Option<string>)

  /** The constructor, on a control socket whose `io.uri` is `uri`. */
  function Init(uri: string): (s: State)
    ensures s.uri == uri && s.clients == map[] && s.numConnections == 0
    ensures s.bridges == [] && s.outbox == []
  {
    State(uri, map[], 0, [], [])
  }

  /** Every operation id in use was built from a counter value already taken. */
  ghost predicate IdsIssued(s: State) {
    forall k :: k in s.clients ==>
      exists t: nat, c: nat {:trigger LocalId(t, c)} :: c < s.numConnections && k == LocalId(t, c)
  }

  /** A successful echo test has been reported for bridge `i`, to operation `uuid`. */
  predicate Reported(s: State, i: nat, uuid: string) {
    Settle(uuid, Established(i)) in s.outbox
  }

  /** The invariant: ids issued from the counter, every bridge socket
      belonging to a registered operation, the echo acknowledgement
      outstanding only after the peer arrived, and a success reported only
      for a bridge whose echo test is over, to that bridge's operation. */
  ghost predicate Valid(s: State) {
    && IdsIssued(s)
    && (forall i :: 0 <= i < |s.bridges| ==> s.bridges[i].uuid in s.clients)
    && (forall i :: 0 <= i < |s.bridges| && s.bridges[i].awaitingEcho ==> !s.bridges[i].onPeer)
    && (forall i: nat, u :: Reported(s, i, u) ==>
          i < |s.bridges| && u == s.bridges[i].uuid && !s.bridges[i].onPeer && !s.bridges[i].awaitingEcho)
  }

  // ---------------------------------------------------------------------------
  // make

  /** `${Date.now()}_${this.num_connections}` at a call made at time `stamp`. */
  function NextUuid(s: State, stamp: nat): string {
    LocalId(stamp, s.numConnections)
  }

  /** `make({uid, peer_uid, onresult})` at time `stamp`; `isFunction` says
      whether `onresult` is a function. The counter is taken before the
      arguments are checked. */
  function Make(s: State, stamp: nat, uid: Value, peerUid: Value, isFunction: bool): Step {
    var uuid := NextUuid(s, stamp);
    var s1 := s.(numConnections := s.numConnections + 1);
    if !Truthy(uid) then Step(s1, Some(UID_REQUIRED))
    else if !isFunction then Step(s1, Some(ONRESULT_NOT_FUNCTION))
    else Step(s1.(outbox := s1.outbox + [Send(Master, "login", [Str(uuid), uid])],
                  clients := s1.clients[uuid := Handle(uid, peerUid)]), None)
  }

  // ---------------------------------------------------------------------------
  // The control socket's handlers

  /** `internal_error(uuid, msg)`: `onInternalError`, which reports the error. */
  function InternalError(s: State, uuid: Value, msg: Value): Step {
    var k := PropertyKey(uuid);
    if k !in s.clients then Step(s, Some(NoClient("onInternalError")))
    else Step(s.(outbox := s.outbox + [Settle(k, Failed(msg))]), None)
  }

  /** `this.uri + '/' + bridgenum`. */
  function BridgeUri(uri: string, bridgenum: Value): string {
    uri + "/" + PropertyKey(bridgenum)
  }

  /** `connect_to_bridge(uuid, bridgenum)`: `onConnectToBridge` opens a
      socket to the bridge, registers its listeners and emits `start(uid)`. */
  function ConnectToBridge(s: State, uuid: Value, bridgenum: Value): Step {
    var k := PropertyKey(uuid);
    if k !in s.clients then Step(s, Some(NoClient("onConnectToBridge")))
    else
      var h := s.clients[k];
      var b := |s.bridges|;
      Step(s.(bridges := s.bridges + [BridgeSocket(k, h.uid, true, true, true, false)],
              outbox := s.outbox + [Connect(b, BridgeUri(s.uri, bridgenum)), Send(Bridge(b), "start", [h.uid])]),
           None)
  }

  /** `logged_in(uuid)`: `onLoggedIn` asks for the peer when one was named. */
  function LoggedIn(s: State, uuid: Value): Step {
    var k := PropertyKey(uuid);
    if k !in s.clients then Step(s, Some(NoClient("onLoggedIn")))
    else
      var h := s.clients[k];
      if Truthy(h.peerUid) then
        Step(s.(outbox := s.outbox + [Send(Master, "request_bridge", [Str(k), h.uid, h.peerUid])]), None)
      else Step(s, None)
  }

  // ---------------------------------------------------------------------------
  // A bridge socket's once-only listeners

  /** `internal_error(msg)` on bridge socket `b`. */
  function BridgeInternalError(s: State, b: nat, msg: Value): State {
    if b < |s.bridges| && s.bridges[b].onError then
      var x := s.bridges[b];
      s.(bridges := s.bridges[b := x.(onError := false)],
         outbox := s.outbox + [Settle(x.uuid, Failed(msg))])
    else s
  }

  /** `peer_connected` on bridge socket `b`: send the test token. */
  function PeerConnected(s: State, b: nat): State {
    if b < |s.bridges| && s.bridges[b].onPeer then
      var x := s.bridges[b];
      s.(bridges := s.bridges[b := x.(onPeer := false, awaitingEcho := true)],
         outbox := s.outbox + [Send(Bridge(b), "echo", [Str(TEST_TEXT)])])
    else s
  }

  /** The peer acknowledges our `echo` with `echoed`; `testtext == echoed`
      decides whether the bridge is reported. */
  function EchoAck(s: State, b: nat, echoed: Value): State {
    if b < |s.bridges| && s.bridges[b].awaitingEcho then
      var x := s.bridges[b];
      var s1 := s.(bridges := s.bridges[b := x.(awaitingEcho := false)]);
      if echoed == Str(TEST_TEXT) then s1.(outbox := s1.outbox + [Settle(x.uuid, Established(b))])
      else s1
    else s
  }

  /** The peer's `echo(txt, cb)` on bridge socket `b`; `withAck` says
      whether it came with an acknowledgement. */
  function Echo(s: State, b: nat, txt: Value, withAck: bool): Step {
    if b < |s.bridges| && s.bridges[b].onEcho then
      var s1 := s.(bridges := s.bridges[b := s.bridges[b].(onEcho := false)]);
      if withAck then Step(s1.(outbox := s1.outbox + [Answer(b, [txt])]), None)
      else Step(s1, Some(CB_NOT_FUNCTION))
    else Step(s, None)
  }

  datatype Event =
    | MakeEvent(stamp: nat, uid: Value, peerUid: Value, isFunction: bool)
    | InternalErrorEvent(uuid: Value, msg: Value)
    | ConnectToBridgeEvent(uuid: Value, bridgenum: Value)
    | LoggedInEvent(uuid: Value)
    | BridgeInternalErrorEvent(b: nat, msg: Value)
    | PeerConnectedEvent(b: nat)
    | EchoAckEvent(b: nat, echoed: Value)
    | EchoEvent(b: nat, txt: Value, withAck: bool)

  function Apply(s: State, e: Event): Step {
    match e
    case MakeEvent(stamp, uid, peerUid, isFunction) => Make(s, stamp, uid, peerUid, isFunction)
    case InternalErrorEvent(uuid, msg) => InternalError(s, uuid, msg)
    case ConnectToBridgeEvent(uuid, bridgenum) => ConnectToBridge(s, uuid, bridgenum)
    case LoggedInEvent(uuid) => LoggedIn(s, uuid)
    case BridgeInternalErrorEvent(b, msg) => Step(BridgeInternalError(s, b, msg), None)
    case PeerConnectedEvent(b) => Step(PeerConnected(s, b), None)
    case EchoAckEvent(b, echoed) => Step(EchoAck(s, b, echoed), None)
    case EchoEvent(b, txt, withAck) => Echo(s, b, txt, withAck)
  }

  /** Events delivered one after another; a thrown exception ends only its handler. */
  function Run(s: State, events: seq<Event>): State
    decreases |events|
  {
    if events == [] then s else Run(Apply(s, events[0]).state, events[1..])
  }

  // ---------------------------------------------------------------------------
  // make: the counter, the checks, the new entry

  /** The counter goes up by one on every call, whether or not it throws,
      and nothing else changes when it throws. */
  lemma MakeCounts(s: State, stamp: nat, uid: Value, peerUid: Value, isFunction: bool)
    ensures var r := Make(s, stamp, uid, peerUid, isFunction);
      && r.state.numConnections == s.numConnections + 1
      && (r.thrown.Some? ==> r.state == s.(numConnections := s.numConnections + 1))
  {
  }

  /** `make` throws exactly when `uid` is falsy or `onresult` is not a
      function, and the uid check comes first. */
  lemma MakeThrows(s: State, stamp: nat, uid: Value, peerUid: Value, isFunction: bool)
    ensures var r := Make(s, stamp, uid, peerUid, isFunction);
      && (r.thrown == Some(UID_REQUIRED) <==> !Truthy(uid))
      && (r.thrown == Some(ONRESULT_NOT_FUNCTION) <==> Truthy(uid) && !isFunction)
      && (r.thrown.None? <==> Truthy(uid) && isFunction)
  {
  }

  /** The id of a new call is not in use. */
  lemma MakeFresh(s: State, stamp: nat)
    requires IdsIssued(s)
    ensures NextUuid(s, stamp) !in s.clients
  {
    var k := NextUuid(s, stamp);
    if k in s.clients {
      var t: nat, c: nat :| c < s.numConnections && k == LocalId(t, c);
      LocalIdInjective(t, c, stamp, s.numConnections);
      assert false;
    }
  }

  /** A call that does not throw adds exactly one entry, under a new id, and
      emits `login(uuid, uid)`; every existing entry is left as it was. */
  lemma MakeRegisters(s: State, stamp: nat, uid: Value, peerUid: Value)
    requires IdsIssued(s) && Truthy(uid)
    ensures var k := NextUuid(s, stamp);
            var r := Make(s, stamp, uid, peerUid, true).state;
      && k !in s.clients
      && r.clients == s.clients[k := Handle(uid, peerUid)]
      && |r.clients| == |s.clients| + 1
      && (forall j :: j in s.clients ==> j in r.clients && r.clients[j] == s.clients[j])
      && r.outbox == s.outbox + [Send(Master, "login", [Str(k), uid])]
      && r.bridges == s.bridges
  {
    MakeFresh(s, stamp);
  }

  /** Two calls in a row get different ids, whatever the clock says. */
  lemma SuccessiveIdsDiffer(s: State, stamp1: nat, uid: Value, peerUid: Value, isFunction: bool, stamp2: nat)
    ensures NextUuid(Make(s, stamp1, uid, peerUid, isFunction).state, stamp2) != NextUuid(s, stamp1)
  {
    if NextUuid(Make(s, stamp1, uid, peerUid, isFunction).state, stamp2) == NextUuid(s, stamp1) {
      LocalIdInjective(stamp2, s.numConnections + 1, stamp1, s.numConnections);
    }
  }

  // ---------------------------------------------------------------------------
  // The control socket's handlers

  /** An id without an entry makes every control handler throw and change nothing. */
  lemma UnknownIdThrows(s: State, uuid: Value, v: Value)
    requires PropertyKey(uuid) !in s.clients
    ensures InternalError(s, uuid, v) == Step(s, Some(NoClient("onInternalError")))
    ensures ConnectToBridge(s, uuid, v) == Step(s, Some(NoClient("onConnectToBridge")))
    ensures LoggedIn(s, uuid) == Step(s, Some(NoClient("onLoggedIn")))
  {
  }

  /** `logged_in` requests a bridge to the peer exactly when a peer uid was given. */
  lemma LoggedInRequests(s: State, uuid: Value)
    requires PropertyKey(uuid) in s.clients
    ensures var k := PropertyKey(uuid);
            var h := s.clients[k];
            var r := LoggedIn(s, uuid);
      && r.thrown.None?
      && r.state.clients == s.clients && r.state.bridges == s.bridges
      && (Truthy(h.peerUid) ==> r.state.outbox == s.outbox + [Send(Master, "request_bridge", [Str(k), h.uid, h.peerUid])])
      && (!Truthy(h.peerUid) ==> r.state.outbox == s.outbox)
  {
  }

  /** The master socket's `internal_error` reaches the `onresult` of the
      operation it names, as an error with the broker's message. */
  lemma InternalErrorReports(s: State, uuid: Value, msg: Value)
    requires PropertyKey(uuid) in s.clients
    ensures var r := InternalError(s, uuid, msg);
      && r.thrown.None?
      && r.state == s.(outbox := s.outbox + [Settle(PropertyKey(uuid), Failed(msg))])
  {
  }

  /** A bridge assignment opens a socket to the base uri, '/', and the
      bridge number, and announces our uid on it. */
  lemma ConnectOpens(s: State, uuid: Value, bridgenum: Value)
    requires PropertyKey(uuid) in s.clients
    ensures var k := PropertyKey(uuid);
            var b := |s.bridges|;
            var r := ConnectToBridge(s, uuid, bridgenum);
            var u := BridgeUri(s.uri, bridgenum);
      && r.thrown.None?
      && r.state.outbox == s.outbox + [Connect(b, u), Send(Bridge(b), "start", [s.clients[k].uid])]
      && u[..|s.uri|] == s.uri && u[|s.uri|] == '/' && u[|s.uri| + 1..] == PropertyKey(bridgenum)
      && |r.state.bridges| == b + 1 && r.state.bridges[b].uuid == k
      && r.state.bridges[b].onError && r.state.bridges[b].onPeer && r.state.bridges[b].onEcho
      && !r.state.bridges[b].awaitingEcho
  {
  }

  /** Different bridge numbers lead to different bridge URIs. */
  lemma BridgeUrisDiffer(uri: string, m: nat, n: nat)
    requires m != n
    ensures BridgeUri(uri, Num(m)) != BridgeUri(uri, Num(n))
  {
    var p := |uri| + 1;
    if BridgeUri(uri, Num(m)) == BridgeUri(uri, Num(n)) {
      assert Show(m) == BridgeUri(uri, Num(m))[p..] == BridgeUri(uri, Num(n))[p..] == Show(n);
      ShowInjective(m, n);
    }
  }

  // ---------------------------------------------------------------------------
  // The echo test

  /** Our echo responder gives back the very token it was sent, once; a
      second `echo` on the same socket finds no listener. */
  lemma EchoReflects(s: State, b: nat, txt: Value, txt2: Value, ack2: bool)
    requires b < |s.bridges| && s.bridges[b].onEcho
    ensures var r := Echo(s, b, txt, true);
      && r.thrown.None?
      && r.state.outbox == s.outbox + [Answer(b, [txt])]
      && Echo(r.state, b, txt2, ack2) == Step(r.state, None)
  {
  }

  /** The peer's arrival sends the fixed token and nothing is reported yet. */
  lemma PeerSendsToken(s: State, b: nat)
    requires b < |s.bridges| && s.bridges[b].onPeer
    ensures var r := PeerConnected(s, b);
      && r.outbox == s.outbox + [Send(Bridge(b), "echo", [Str(TEST_TEXT)])]
      && r.bridges[b].awaitingEcho && !r.bridges[b].onPeer
      && PeerConnected(r, b) == r
  {
  }

  /** The acknowledgement reports the bridge to its operation exactly when
      the echoed text equals the token, and only the first one counts. */
  lemma EchoAckDecides(s: State, b: nat, echoed: Value, echoed2: Value)
    requires b < |s.bridges| && s.bridges[b].awaitingEcho
    ensures var r := EchoAck(s, b, echoed);
      && (echoed == Str(TEST_TEXT) ==> r.outbox == s.outbox + [Settle(s.bridges[b].uuid, Established(b))])
      && (echoed != Str(TEST_TEXT) ==> r.outbox == s.outbox)
      && EchoAck(r, b, echoed2) == r
  {
  }

  /** An error on a bridge socket is reported to that bridge's operation,
      once. */
  lemma BridgeErrorReports(s: State, b: nat, msg: Value, msg2: Value)
    requires b < |s.bridges| && s.bridges[b].onError
    ensures var r := BridgeInternalError(s, b, msg);
      && r.outbox == s.outbox + [Settle(s.bridges[b].uuid, Failed(msg))]
      && BridgeInternalError(r, b, msg2) == r
  {
  }

  // ---------------------------------------------------------------------------
  // The invariant

  lemma InitValid(uri: string)
    ensures Valid(Init(uri))
  {
  }

  lemma MakeKeepsValid(s: State, stamp: nat, uid: Value, peerUid: Value, isFunction: bool)
    requires Valid(s)
    ensures Valid(Make(s, stamp, uid, peerUid, isFunction).state)
  {
    var r := Make(s, stamp, uid, peerUid, isFunction).state;
    forall k | k in r.clients
      ensures exists t: nat, c: nat {:trigger LocalId(t, c)} :: c < r.numConnections && k == LocalId(t, c)
    {
      if k == NextUuid(s, stamp) {
        assert s.numConnections < r.numConnections && k == LocalId(stamp, s.numConnections);
      } else {
        var t: nat, c: nat :| c < s.numConnections && k == LocalId(t, c);
      }
    }
    forall i: nat, u | Reported(r, i, u)
      ensures i < |r.bridges| && u == r.bridges[i].uuid && !r.bridges[i].onPeer && !r.bridges[i].awaitingEcho
    {
      assert Reported(s, i, u);
    }
  }

  lemma ConnectKeepsValid(s: State, uuid: Value, bridgenum: Value)
    requires Valid(s)
    ensures Valid(ConnectToBridge(s, uuid, bridgenum).state)
  {
    var r := ConnectToBridge(s, uuid, bridgenum).state;
    forall i: nat, u | Reported(r, i, u)
      ensures i < |r.bridges| && u == r.bridges[i].uuid && !r.bridges[i].onPeer && !r.bridges[i].awaitingEcho
    {
      assert Reported(s, i, u);
    }
  }

  lemma ControlKeepsValid(s: State, uuid: Value, msg: Value)
    requires Valid(s)
    ensures Valid(InternalError(s, uuid, msg).state)
    ensures Valid(LoggedIn(s, uuid).state)
  {
    var r := InternalError(s, uuid, msg).state;
    forall i: nat, u | Reported(r, i, u)
      ensures i < |r.bridges| && u == r.bridges[i].uuid && !r.bridges[i].onPeer && !r.bridges[i].awaitingEcho
    {
      assert Reported(s, i, u);
    }
    var q := LoggedIn(s, uuid).state;
    forall i: nat, u | Reported(q, i, u)
      ensures i < |q.bridges| && u == q.bridges[i].uuid && !q.bridges[i].onPeer && !q.bridges[i].awaitingEcho
    {
      assert Reported(s, i, u);
    }
  }

  lemma BridgeErrorKeepsValid(s: State, b: nat, msg: Value)
    requires Valid(s)
    ensures Valid(BridgeInternalError(s, b, msg))
  {
    var r := BridgeInternalError(s, b, msg);
    forall i: nat, u | Reported(r, i, u)
      ensures i < |r.bridges| && u == r.bridges[i].uuid && !r.bridges[i].onPeer && !r.bridges[i].awaitingEcho
    {
      assert Reported(s, i, u);
    }
  }

  lemma PeerKeepsValid(s: State, b: nat)
    requires Valid(s)
    ensures Valid(PeerConnected(s, b))
  {
    var r := PeerConnected(s, b);
    forall i: nat, u | Reported(r, i, u)
      ensures i < |r.bridges| && u == r.bridges[i].uuid && !r.bridges[i].onPeer && !r.bridges[i].awaitingEcho
    {
      assert Reported(s, i, u);
    }
  }

  lemma EchoAckKeepsValid(s: State, b: nat, echoed: Value)
    requires Valid(s)
    ensures Valid(EchoAck(s, b, echoed))
  {
    var r := EchoAck(s, b, echoed);
    forall i: nat, u | Reported(r, i, u)
      ensures i < |r.bridges| && u == r.bridges[i].uuid && !r.bridges[i].onPeer && !r.bridges[i].awaitingEcho
    {
      if !Reported(s, i, u) {
        var x := s.bridges[b];
        assert r.outbox == s.outbox + [Settle(x.uuid, Established(b))];
        assert i == b && u == x.uuid && !x.onPeer;
      }
    }
  }

  lemma EchoKeepsValid(s: State, b: nat, txt: Value, withAck: bool)
    requires Valid(s)
    ensures Valid(Echo(s, b, txt, withAck).state)
  {
    var r := Echo(s, b, txt, withAck).state;
    forall i: nat, u | Reported(r, i, u)
      ensures i < |r.bridges| && u == r.bridges[i].uuid && !r.bridges[i].onPeer && !r.bridges[i].awaitingEcho
    {
      assert Reported(s, i, u);
    }
  }

  lemma ApplyKeepsValid(s: State, e: Event)
    requires Valid(s)
    ensures Valid(Apply(s, e).state)
  {
    match e
    case MakeEvent(stamp, uid, peerUid, isFunction) => MakeKeepsValid(s, stamp, uid, peerUid, isFunction);
    case InternalErrorEvent(uuid, msg) => ControlKeepsValid(s, uuid, msg);
    case ConnectToBridgeEvent(uuid, bridgenum) => ConnectKeepsValid(s, uuid, bridgenum);
    case LoggedInEvent(uuid) => ControlKeepsValid(s, uuid, Undefined);
    case BridgeInternalErrorEvent(b, msg) => BridgeErrorKeepsValid(s, b, msg);
    case PeerConnectedEvent(b) => PeerKeepsValid(s, b);
    case EchoAckEvent(b, echoed) => EchoAckKeepsValid(s, b, echoed);
    case EchoEvent(b, txt, withAck) => EchoKeepsValid(s, b, txt, withAck);
  }

  lemma {:induction false} RunKeepsValid(s: State, events: seq<Event>)
    requires Valid(s)
    ensures Valid(Run(s, events))
    decreases |events|
  {
    if events != [] {
      ApplyKeepsValid(s, events[0]);
      RunKeepsValid(Apply(s, events[0]).state, events[1..]);
    }
  }

  /** In every reachable state, a bridge is reported established at most
      once: an acknowledgement that reports it finds no earlier report. */
  lemma ReportedOnce(s: State, b: nat, echoed: Value)
    requires Valid(s)
    requires EchoAck(s, b, echoed).outbox != s.outbox
    ensures forall u :: !Reported(s, b, u)
    ensures EchoAck(s, b, echoed).outbox == s.outbox + [Settle(s.bridges[b].uuid, Established(b))]
  {
  }

  // ---------------------------------------------------------------------------
  // The client as an object updated in place

  class SocketIoBridgeClient {
    var uri: string
    var clients: map<string, Handle>
    var numConnections: nat
    var bridges: seq<BridgeSocket>
    var outbox: seq<Output>

    function Snapshot(): State
      reads this
    {
      State(uri, clients, numConnections, bridges, outbox)
    }

    /** `new SocketIoBridgeClient({IO, socket})` with `socket.io.uri == uri`. */
    constructor (uri: string)
      ensures Snapshot() == Init(uri)
    {
      this.uri, clients, numConnections := uri, map[], 0;
      bridges, outbox := [], [];
    }

    method OnMake(stamp: nat, uid: Value, peerUid: Value, isFunction: bool) returns (thrown: Option<string>)
      modifies this
      ensures Step(Snapshot(), thrown) == Make(old(Snapshot()), stamp, uid, peerUid, isFunction)
    {
      var uuid := LocalId(stamp, numConnections);
      numConnections := numConnections + 1;
      if !Truthy(uid) {
        return Some(UID_REQUIRED);
      }
      if !isFunction {
        return Some(ONRESULT_NOT_FUNCTION);
      }
      outbox := outbox + [Send(Master, "login", [Str(uuid), uid])];
      clients := clients[uuid := Handle(uid, peerUid)];
      thrown := None;
    }

    method OnInternalError(uuid: Value, msg: Value) returns (thrown: Option<string>)
      modifies this
      ensures Step(Snapshot(), thrown) == InternalError(old(Snapshot()), uuid, msg)
    {
      var k := PropertyKey(uuid);
      if k !in clients {
        return Some(NoClient("onInternalError"));
      }
      outbox := outbox + [Settle(k, Failed(msg))];
      thrown := None;
    }

    method OnConnectToBridge(uuid: Value, bridgenum: Value) returns (thrown: Option<string>)
      modifies this
      ensures Step(Snapshot(), thrown) == ConnectToBridge(old(Snapshot()), uuid, bridgenum)
    {
      var k := PropertyKey(uuid);
      if k !in clients {
        return Some(NoClient("onConnectToBridge"));
      }
      var b := |bridges|;
      outbox := outbox + [Connect(b, uri + "/" + PropertyKey(bridgenum)), Send(Bridge(b), "start", [clients[k].uid])];
      bridges := bridges + [BridgeSocket(k, clients[k].uid, true, true, true, false)];
      thrown := None;
    }

    method OnLoggedIn(uuid: Value) returns (thrown: Option<string>)
      modifies this
      ensures Step(Snapshot(), thrown) == LoggedIn(old(Snapshot()), uuid)
    {
      var k := PropertyKey(uuid);
      if k !in clients {
        return Some(NoClient("onLoggedIn"));
      }
      var h := clients[k];
      if Truthy(h.peerUid) {
        outbox := outbox + [Send(Master, "request_bridge", [Str(k), h.uid, h.peerUid])];
      }
      thrown := None;
    }

    method OnBridgeInternalError(b: nat, msg: Value)
      modifies this
      ensures Snapshot() == BridgeInternalError(old(Snapshot()), b, msg)
    {
      if b < |bridges| && bridges[b].onError {
        var x := bridges[b];
        bridges := bridges[b := x.(onError := false)];
        outbox := outbox + [Settle(x.uuid, Failed(msg))];
      }
    }

    method OnPeerConnected(b: nat)
      modifies this
      ensures Snapshot() == PeerConnected(old(Snapshot()), b)
    {
      if b < |bridges| && bridges[b].onPeer {
        bridges := bridges[b := bridges[b].(onPeer := false, awaitingEcho := true)];
        outbox := outbox + [Send(Bridge(b), "echo", [Str(TEST_TEXT)])];
      }
    }

    method OnEchoAck(b: nat, echoed: Value)
      modifies this
      ensures Snapshot() == EchoAck(old(Snapshot()), b, echoed)
    {
      if b < |bridges| && bridges[b].awaitingEcho {
        var x := bridges[b];
        bridges := bridges[b := x.(awaitingEcho := false)];
        if echoed == Str(TEST_TEXT) {
          outbox := outbox + [Settle(x.uuid, Established(b))];
        }
      }
    }

    method OnEcho(b: nat, txt: Value, withAck: bool) returns (thrown: Option<string>)
      modifies this
      ensures Step(Snapshot(), thrown) == Echo(old(Snapshot()), b, txt, withAck)
    {
      thrown := None;
      if b < |bridges| && bridges[b].onEcho {
        bridges := bridges[b := bridges[b].(onEcho := false)];
        if withAck {
          outbox := outbox + [Answer(b, [txt])];
        } else {
          thrown := Some(CB_NOT_FUNCTION);
        }
      }
    }
  }
}
