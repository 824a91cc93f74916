/** The promise-based client operation, packages/client/src/make-bridge.js.

    `make` takes an operation id (`localId`) from the client's counter,
    registers an `onbridge` handler under it, and logs in with an
    acknowledgement. A `'success'` acknowledgement asks the broker for the
    bridge; any other status rejects the operation's promise. A bridge
    assignment opens a socket to the bridge namespace, whose once-only
    listeners answer the peer's echo and run our own echo test; a matching
    echo calls `onconnection` (when given) and resolves the promise. */
module BridgeClient {
  import opened Wrappers
  import opened Decimal
  import opened Transport

  const SUCCESS := "success"
  const ECHO_FAILED := "Error: Echo test did not succeed."
  /** What `cb(txt)` throws when the peer sent `echo` without an acknowledgement. */
  const CB_NOT_FUNCTION := "TypeError: cb is not a function"

  /** The values one `make` call's closures captured. */
  datatype Handle = Handle(uid: Value, peerUid: Value, onconnection: bool)

  /** A JavaScript promise: settled once, by the first `resolve` or `reject`. */
  datatype Promise = Pending | Resolved(bridge: nat) | Rejected(reason: Value)

  /** A socket opened by `onbridge` for operation `localId`. `onPeer` and
      `onEcho` say whether the `once` listeners for `peer_connected` and
      `echo` are still registered; `sent` holds the token of our own `echo`
      while its acknowledgement is outstanding. */
  datatype BridgeSocket = BridgeSocket(localId: string, onPeer: bool, onEcho: bool, sent: Option<string>)

  datatype Channel = Master | Bridge(index: nat)

  datatype Output =
    | Send(via: Channel, event: string, args: seq<Value>)  // socket.emit on the control or a bridge socket
    | Connect(bridge: nat, uri: string)                    // SocketIoClient(bridgeUri, opts)
    | Answer(bridge: nat, args: seq<Value>)                // the peer's acknowledgement invoked
    | Connection(localId: string, bridge: nat)             // onconnection(socket)

  datatype State = State(
    uri: string,                     // this.socket.io.uri
    clients: map<string, Handle>,    // this.clients: the `onbridge` handlers
    numConnections: nat,             // this.num_connections
    promises: map<string, Promise>,  // the promise each call returned
    loginAcks: set<string>,          // operations whose login acknowledgement is outstanding
    bridges: seq<BridgeSocket>,      // bridge sockets, by the order they were opened
    outbox: seq<Output>)

  datatype Step = Step(state: State, thrown: Option<string>)

  function Init(uri: string): (s: State)
    ensures s.clients == map[] && s.numConnections == 0 && s.promises == map[]
    ensures s.loginAcks == {} && s.bridges == [] && s.outbox == []
  {
    State(uri, map[], 0, map[], {}, [], [])
  }

  /** Every operation id in use was built from a counter value already taken. */
  ghost predicate IdsIssued(s: State) {
    forall k :: k in s.clients ==>
      exists t: nat, c: nat {:trigger LocalId(t, c)} :: c < s.numConnections && k == LocalId(t, c)
  }

  /** The invariant: ids issued from the counter, one promise per
      registered handler, an acknowledgement outstanding only for a
      registered handler, every bridge socket belonging to one, and our
      echo outstanding only after the peer arrived. */
  ghost predicate Valid(s: State) {
    && IdsIssued(s)
    && s.promises.Keys == s.clients.Keys
    && s.loginAcks <= s.clients.Keys
    && (forall i :: 0 <= i < |s.bridges| ==> s.bridges[i].localId in s.clients)
    && (forall i :: 0 <= i < |s.bridges| && s.bridges[i].sent.Some? ==> !s.bridges[i].onPeer)
  }

  /** `resolve(v)` or `reject(v)`: only a pending promise changes. */
  function Settle(p: Promise, q: Promise): (r: Promise)
    ensures p.Pending? ==> r == q
    ensures !p.Pending? ==> r == p
  {
    if p.Pending? then q else p
  }

  // ---------------------------------------------------------------------------
  // make

  function NextLocalId(s: State, stamp: nat): string {
    LocalId(stamp, s.numConnections)
  }

  /** The `uid = uuid()` default: applies when `uid` is undefined. */
  function UidOrDefault(uid: Value, generated: string): (r: Value)
    ensures uid != Undefined ==> r == uid
    ensures uid == Undefined ==> r == Str(generated)
  {
    if uid == Undefined then Str(generated) else uid
  }

  /** `make({peerUid, onconnection, uid})` at time `stamp`; `generated` is the
      uuid the default would generate, `onconnection` whether a handler was
      given. The handler goes into `clients` before `login` is emitted. */
  function Make(s: State, stamp: nat, uid: Value, generated: string, peerUid: Value, onconnection: bool): State {
    var localId := NextLocalId(s, stamp);
    var u := UidOrDefault(uid, generated);
    s.(numConnections := s.numConnections + 1,
       clients := s.clients[localId := Handle(u, peerUid, onconnection)],
       promises := s.promises[localId := Pending],
       loginAcks := s.loginAcks + {localId},
       outbox := s.outbox + [Send(Master, "login", [Str(localId), u, peerUid])])
  }

  /** The login acknowledgement of operation `localId`, with `status`. */
  function LoginAck(s: State, localId: string, status: Value): State {
    if localId in s.loginAcks && localId in s.clients && localId in s.promises then
      var h := s.clients[localId];
      var s1 := s.(loginAcks := s.loginAcks - {localId});
      if status == Str(SUCCESS) then
        s1.(outbox := s1.outbox + [Send(Master, "request_bridge", [Str(localId), h.uid, h.peerUid])])
      else
        s1.(promises := s1.promises[localId := Settle(s1.promises[localId], Rejected(status))])
    else s
  }

  /** `${uri}/${bridgeId}`. */
  function BridgeUri(uri: string, bridgeId: Value): string {
    uri + "/" + PropertyKey(bridgeId)
  }

  /** `clients[localId].onbridge(bridgeId)`: open a socket to the bridge,
      register its listeners, emit `start(uid)`. An id without a handler is
      not dispatched. */
  function OnBridge(s: State, localId: string, bridgeId: Value): State {
    if localId in s.clients then
      var b := |s.bridges|;
      s.(bridges := s.bridges + [BridgeSocket(localId, true, true, None)],
         outbox := s.outbox + [Connect(b, BridgeUri(s.uri, bridgeId)),
                               Send(Bridge(b), "start", [s.clients[localId].uid])])
    else s
  }

  /** `peer_connected` on bridge socket `b`: send `token`, the
      uuid just generated. */
  function PeerConnected(s: State, b: nat, token: string): State {
    if b < |s.bridges| && s.bridges[b].onPeer then
      s.(bridges := s.bridges[b := s.bridges[b].(onPeer := false, sent := Some(token))],
         outbox := s.outbox + [Send(Bridge(b), "echo", [Str(token)])])
    else s
  }

  /** The peer acknowledges our `echo` with `echoed`. A mismatch throws; a
      match calls `onconnection` when given and resolves the promise. */
  function EchoAck(s: State, b: nat, echoed: Value): Step {
    if b < |s.bridges| && s.bridges[b].sent.Some? && s.bridges[b].localId in s.clients
       && s.bridges[b].localId in s.promises then
      var x := s.bridges[b];
      var s1 := s.(bridges := s.bridges[b := x.(sent := None)]);
      if echoed != Str(x.sent.value) then Step(s1, Some(ECHO_FAILED))
      else
        var h := s.clients[x.localId];
        Step(s1.(outbox := s1.outbox + (if h.onconnection then [Connection(x.localId, b)] else []),
                 promises := s1.promises[x.localId := Settle(s1.promises[x.localId], Resolved(b))]),
             None)
    else Step(s, None)
  }

  /** The peer's `echo(txt, cb)` on bridge socket `b`. */
  function Echo(s: State, b: nat, txt: Value, withAck: bool): Step {
    if b < |s.bridges| && s.bridges[b].onEcho then
      var s1 := s.(bridges := s.bridges[b := s.bridges[b].(onEcho := false)]);
      if withAck then Step(s1.(outbox := s1.outbox + [Answer(b, [txt])]), None)
      else Step(s1, Some(CB_NOT_FUNCTION))
    else Step(s, None)
  }

  datatype Event =
    | MakeEvent(stamp: nat, uid: Value, generated: string, peerUid: Value, onconnection: bool)
    | LoginAckEvent(localId: string, status: Value)
    | BridgeEvent(localId: string, bridgeId: Value)
    | PeerConnectedEvent(b: nat, token: string)
    | EchoAckEvent(b: nat, echoed: Value)
    | EchoEvent(b: nat, txt: Value, withAck: bool)

  function Apply(s: State, e: Event): Step {
    match e
    case MakeEvent(stamp, uid, generated, peerUid, onconnection) => Step(Make(s, stamp, uid, generated, peerUid, onconnection), None)
    case LoginAckEvent(localId, status) => Step(LoginAck(s, localId, status), None)
    case BridgeEvent(localId, bridgeId) => Step(OnBridge(s, localId, bridgeId), None)
    case PeerConnectedEvent(b, token) => Step(PeerConnected(s, b, token), None)
    case EchoAckEvent(b, echoed) => EchoAck(s, b, echoed)
    case EchoEvent(b, txt, withAck) => Echo(s, b, txt, withAck)
  }

  function Run(s: State, events: seq<Event>): State
    decreases |events|
  {
    if events == [] then s else Run(Apply(s, events[0]).state, events[1..])
  }

  // ---------------------------------------------------------------------------
  // make

  lemma MakeFresh(s: State, stamp: nat)
    requires IdsIssued(s)
    ensures NextLocalId(s, stamp) !in s.clients
  {
    var k := NextLocalId(s, stamp);
    if k in s.clients {
      var t: nat, c: nat :| c < s.numConnections && k == LocalId(t, c);
      LocalIdInjective(t, c, stamp, s.numConnections);
      assert false;
    }
  }

  /** One call takes the current counter and raises it by exactly one; the
      new id is not in use, its handler and pending promise are added and
      no other entry changes, and `login` carries the uid, or the generated
      uuid when none was given. */
  lemma MakeRegisters(s: State, stamp: nat, uid: Value, generated: string, peerUid: Value, onconnection: bool)
    requires Valid(s)
    ensures var k := NextLocalId(s, stamp);
            var u := UidOrDefault(uid, generated);
            var r := Make(s, stamp, uid, generated, peerUid, onconnection);
      && k == LocalId(stamp, s.numConnections)
      && r.numConnections == s.numConnections + 1
      && k !in s.clients && k !in s.promises
      && r.clients == s.clients[k := Handle(u, peerUid, onconnection)]
      && |r.clients| == |s.clients| + 1
      && r.promises == s.promises[k := Pending]
      && (forall j :: j in s.promises ==> j in r.promises && r.promises[j] == s.promises[j])
      && r.outbox == s.outbox + [Send(Master, "login", [Str(k), u, peerUid])]
      && (uid == Undefined ==> u == Str(generated))
  {
    MakeFresh(s, stamp);
  }

  /** Two calls in a row get different ids, whatever the clock says. */
  lemma SuccessiveIdsDiffer(s: State, stamp1: nat, uid: Value, generated: string, peerUid: Value, onconnection: bool, stamp2: nat)
    ensures NextLocalId(Make(s, stamp1, uid, generated, peerUid, onconnection), stamp2) != NextLocalId(s, stamp1)
  {
    if NextLocalId(Make(s, stamp1, uid, generated, peerUid, onconnection), stamp2) == NextLocalId(s, stamp1) {
      LocalIdInjective(stamp2, s.numConnections + 1, stamp1, s.numConnections);
    }
  }

  // ---------------------------------------------------------------------------
  // The login acknowledgement

  /** `'success'` asks for the bridge and leaves the promise alone; any
      other status sends nothing and rejects the promise with that status.
      A second acknowledgement of the same login changes nothing. */
  lemma LoginAckBranches(s: State, localId: string, status: Value, status2: Value)
    requires Valid(s) && localId in s.loginAcks
    ensures var h := s.clients[localId];
            var r := LoginAck(s, localId, status);
      && (status == Str(SUCCESS) ==>
            && r.outbox == s.outbox + [Send(Master, "request_bridge", [Str(localId), h.uid, h.peerUid])]
            && r.promises == s.promises)
      && (status != Str(SUCCESS) ==>
            && r.outbox == s.outbox
            && r.promises == s.promises[localId := Settle(s.promises[localId], Rejected(status))])
      && LoginAck(r, localId, status2) == r
  {
  }

  /** A pending operation whose uid is taken is rejected with `uid_taken`. */
  lemma UidTakenRejects(s: State, localId: string)
    requires Valid(s) && localId in s.loginAcks && s.promises[localId] == Pending
    ensures var r := LoginAck(s, localId, Str("uid_taken"));
      && r.promises[localId] == Rejected(Str("uid_taken")) && r.outbox == s.outbox
  {
    assert Str("uid_taken") != Str(SUCCESS) by {
      assert "uid_taken"[0] != SUCCESS[0];
    }
  }

  // ---------------------------------------------------------------------------
  // The bridge socket

  /** A bridge assignment opens `${uri}/${bridgeId}` and announces the uid. */
  lemma BridgeOpens(s: State, localId: string, bridgeId: Value)
    requires localId in s.clients
    ensures var b := |s.bridges|;
            var r := OnBridge(s, localId, bridgeId);
            var u := BridgeUri(s.uri, bridgeId);
      && r.outbox == s.outbox + [Connect(b, u), Send(Bridge(b), "start", [s.clients[localId].uid])]
      && u[..|s.uri|] == s.uri && u[|s.uri|] == '/' && u[|s.uri| + 1..] == PropertyKey(bridgeId)
      && |r.bridges| == b + 1 && r.bridges[b] == BridgeSocket(localId, true, true, None)
      && r.promises == s.promises && r.clients == s.clients
  {
  }

  /** The echo responder gives back the very token it was sent, once. */
  lemma EchoReflects(s: State, b: nat, txt: Value, txt2: Value, ack2: bool)
    requires b < |s.bridges| && s.bridges[b].onEcho
    ensures var r := Echo(s, b, txt, true);
      && r.thrown.None?
      && r.state.outbox == s.outbox + [Answer(b, [txt])]
      && r.state.promises == s.promises
      && Echo(r.state, b, txt2, ack2) == Step(r.state, None)
  {
  }

  /** `peer_connected` sends the fresh token on the bridge socket as `echo`
      and records it as the text the acknowledgement must return; the
      listener is used up, so a second `peer_connected` changes nothing. */
  lemma PeerSendsToken(s: State, b: nat, token: string)
    requires b < |s.bridges| && s.bridges[b].onPeer
    ensures var r := PeerConnected(s, b, token);
      && r.outbox == s.outbox + [Send(Bridge(b), "echo", [Str(token)])]
      && r.bridges[b].sent == Some(token) && !r.bridges[b].onPeer
      && r.bridges[b].localId == s.bridges[b].localId
      && |r.bridges| == |s.bridges|
      && (forall i :: 0 <= i < |s.bridges| && i != b ==> r.bridges[i] == s.bridges[i])
      && r.clients == s.clients && r.promises == s.promises && r.loginAcks == s.loginAcks
      && PeerConnected(r, b, token) == r
  {
  }

  /** The echo test end to end: after `peer_connected`, the acknowledgement
      settles the operation's promise exactly when it echoes the token that
      was sent, and throws otherwise. */
  lemma EchoTestDecides(s: State, b: nat, token: string, echoed: Value)
    requires Valid(s) && b < |s.bridges| && s.bridges[b].onPeer
    ensures var r := PeerConnected(s, b, token);
            var e := EchoAck(r, b, echoed);
            var id := s.bridges[b].localId;
      && (e.thrown.None? <==> echoed == Str(token))
      && (e.thrown.None? ==> e.state.promises == s.promises[id := Settle(s.promises[id], Resolved(b))])
      && (e.thrown.Some? ==> e.state.promises == s.promises)
  {
    PeerKeepsValid(s, b, token);
    PeerSendsToken(s, b, token);
    EchoAckDecides(PeerConnected(s, b, token), b, echoed);
  }

  /** The echo test: a mismatch throws and settles nothing; a match calls
      `onconnection` exactly when it was given, then resolves the promise
      unless it has already settled. */
  lemma EchoAckDecides(s: State, b: nat, echoed: Value)
    requires Valid(s) && b < |s.bridges| && s.bridges[b].sent.Some?
    ensures var x := s.bridges[b];
            var h := s.clients[x.localId];
            var r := EchoAck(s, b, echoed);
      && (r.thrown.Some? <==> echoed != Str(x.sent.value))
      && (r.thrown.Some? ==> r.thrown == Some(ECHO_FAILED) && r.state.outbox == s.outbox && r.state.promises == s.promises)
      && (r.thrown.None? && h.onconnection ==> r.state.outbox == s.outbox + [Connection(x.localId, b)])
      && (r.thrown.None? && !h.onconnection ==> r.state.outbox == s.outbox)
      && (r.thrown.None? ==> r.state.promises == s.promises[x.localId := Settle(s.promises[x.localId], Resolved(b))])
      && EchoAck(r.state, b, echoed) == Step(r.state, None)
  {
  }

  // ---------------------------------------------------------------------------
  // The invariant and the promise settling once

  lemma InitValid(uri: string)
    ensures Valid(Init(uri))
  {
  }

  lemma MakeKeepsValid(s: State, stamp: nat, uid: Value, generated: string, peerUid: Value, onconnection: bool)
    requires Valid(s)
    ensures Valid(Make(s, stamp, uid, generated, peerUid, onconnection))
  {
    var r := Make(s, stamp, uid, generated, peerUid, onconnection);
    forall k | k in r.clients
      ensures exists t: nat, c: nat {:trigger LocalId(t, c)} :: c < r.numConnections && k == LocalId(t, c)
    {
      if k == NextLocalId(s, stamp) {
        assert s.numConnections < r.numConnections && k == LocalId(stamp, s.numConnections);
      } else {
        var t: nat, c: nat :| c < s.numConnections && k == LocalId(t, c);
      }
    }
  }

  lemma LoginAckKeepsValid(s: State, localId: string, status: Value)
    requires Valid(s)
    ensures Valid(LoginAck(s, localId, status))
  {
  }

  lemma OnBridgeKeepsValid(s: State, localId: string, bridgeId: Value)
    requires Valid(s)
    ensures Valid(OnBridge(s, localId, bridgeId))
  {
  }

  lemma PeerKeepsValid(s: State, b: nat, token: string)
    requires Valid(s)
    ensures Valid(PeerConnected(s, b, token))
  {
  }

  lemma EchoAckKeepsValid(s: State, b: nat, echoed: Value)
    requires Valid(s)
    ensures Valid(EchoAck(s, b, echoed).state)
  {
    if b < |s.bridges| && s.bridges[b].sent.Some? && s.bridges[b].localId in s.clients
       && s.bridges[b].localId in s.promises {
      var r := EchoAck(s, b, echoed).state;
      assert r.promises.Keys == s.promises.Keys;
      EchoClearedKeepsValid(s, r, b);
    }
  }

  /** Clearing a bridge socket's outstanding echo, and touching no other
      table but the promises' values, keeps the invariant. */
  lemma EchoClearedKeepsValid(s: State, r: State, b: nat)
    requires Valid(s) && b < |s.bridges|
    requires r.clients == s.clients && r.numConnections == s.numConnections
    requires r.promises.Keys == s.promises.Keys && r.loginAcks == s.loginAcks
    requires r.bridges == s.bridges[b := s.bridges[b].(sent := None)]
    ensures Valid(r)
  {
  }

  lemma EchoKeepsValid(s: State, b: nat, txt: Value, withAck: bool)
    requires Valid(s)
    ensures Valid(Echo(s, b, txt, withAck).state)
  {
  }

  lemma ApplyKeepsValid(s: State, e: Event)
    requires Valid(s)
    ensures Valid(Apply(s, e).state)
  {
    match e
    case MakeEvent(stamp, uid, generated, peerUid, onconnection) => MakeKeepsValid(s, stamp, uid, generated, peerUid, onconnection);
    case LoginAckEvent(localId, status) => LoginAckKeepsValid(s, localId, status);
    case BridgeEvent(localId, bridgeId) => OnBridgeKeepsValid(s, localId, bridgeId);
    case PeerConnectedEvent(b, token) => PeerKeepsValid(s, b, token);
    case EchoAckEvent(b, echoed) => EchoAckKeepsValid(s, b, echoed);
    case EchoEvent(b, txt, withAck) => EchoKeepsValid(s, b, txt, withAck);
  }

  lemma {:induction false} RunKeepsValid(s: State, events: seq<Event>)
    requires Valid(s)
    ensures Valid(Run(s, events))
    decreases |events|
  {
    if events != [] {
      ApplyKeepsValid(s, events[0]);
      RunKeepsValid(Apply(s, events[0]).state, events[1..]);
    }
  }

  /** A settled promise stays as it is under every event: the first
      `resolve` or `reject` wins. */
  lemma ApplyKeepsSettled(s: State, e: Event, k: string)
    requires Valid(s) && k in s.promises && !s.promises[k].Pending?
    ensures k in Apply(s, e).state.promises && Apply(s, e).state.promises[k] == s.promises[k]
  {
    match e
    case MakeEvent(stamp, uid, generated, peerUid, onconnection) => MakeFresh(s, stamp);
    case LoginAckEvent(localId, status) =>
    case BridgeEvent(localId, bridgeId) =>
    case PeerConnectedEvent(b, token) =>
    case EchoAckEvent(b, echoed) =>
    case EchoEvent(b, txt, withAck) =>
  }

  lemma {:induction false} RunKeepsSettled(s: State, events: seq<Event>, k: string)
    requires Valid(s) && k in s.promises && !s.promises[k].Pending?
    ensures k in Run(s, events).promises && Run(s, events).promises[k] == s.promises[k]
    decreases |events|
  {
    if events != [] {
      ApplyKeepsValid(s, events[0]);
      ApplyKeepsSettled(s, events[0], k);
      RunKeepsSettled(Apply(s, events[0]).state, events[1..], k);
    }
  }

  // ---------------------------------------------------------------------------
  // The client's table as an object updated in place

  class Client {
    var uri: string
    var clients: map<string, Handle>
    var numConnections: nat
    var promises: map<string, Promise>
    var loginAcks: set<string>
    var bridges: seq<BridgeSocket>
    var outbox: seq<Output>

    function Snapshot(): State
      reads this
    {
      State(uri, clients, numConnections, promises, loginAcks, bridges, outbox)
    }

    constructor (uri: string)
      ensures Snapshot() == Init(uri)
    {
      this.uri, clients, numConnections, promises := uri, map[], 0, map[];
      loginAcks, bridges, outbox := {}, [], [];
    }

    method OnMake(stamp: nat, uid: Value, generated: string, peerUid: Value, onconnection: bool) returns (localId: string)
      modifies this
      ensures localId == NextLocalId(old(Snapshot()), stamp)
      ensures Snapshot() == Make(old(Snapshot()), stamp, uid, generated, peerUid, onconnection)
    {
      localId := LocalId(stamp, numConnections);
      numConnections := numConnections + 1;
      var u := if uid == Undefined then Str(generated) else uid;
      clients := clients[localId := Handle(u, peerUid, onconnection)];
      promises := promises[localId := Pending];
      loginAcks := loginAcks + {localId};
      outbox := outbox + [Send(Master, "login", [Str(localId), u, peerUid])];
    }

    method OnLoginAck(localId: string, status: Value)
      modifies this
      ensures Snapshot() == LoginAck(old(Snapshot()), localId, status)
    {
      if localId in loginAcks && localId in clients && localId in promises {
        loginAcks := loginAcks - {localId};
        if status == Str(SUCCESS) {
          var h := clients[localId];
          outbox := outbox + [Send(Master, "request_bridge", [Str(localId), h.uid, h.peerUid])];
        } else if promises[localId].Pending? {
          promises := promises[localId := Rejected(status)];
        }
      }
    }

    method OnBridgeAssigned(localId: string, bridgeId: Value)
      modifies this
      ensures Snapshot() == OnBridge(old(Snapshot()), localId, bridgeId)
    {
      if localId in clients {
        var b := |bridges|;
        bridges := bridges + [BridgeSocket(localId, true, true, None)];
        outbox := outbox + [Connect(b, uri + "/" + PropertyKey(bridgeId)), Send(Bridge(b), "start", [clients[localId].uid])];
      }
    }

    method OnPeerConnected(b: nat, token: string)
      modifies this
      ensures Snapshot() == PeerConnected(old(Snapshot()), b, token)
    {
      if b < |bridges| && bridges[b].onPeer {
        bridges := bridges[b := bridges[b].(onPeer := false, sent := Some(token))];
        outbox := outbox + [Send(Bridge(b), "echo", [Str(token)])];
      }
    }

    method OnEchoAck(b: nat, echoed: Value) returns (thrown: Option<string>)
      modifies this
      ensures Step(Snapshot(), thrown) == EchoAck(old(Snapshot()), b, echoed)
    {
      thrown := None;
      if !(b < |bridges| && bridges[b].sent.Some? && bridges[b].localId in clients && bridges[b].localId in promises) {
        return;
      }
      var x := bridges[b];
      bridges := bridges[b := x.(sent := None)];
      if echoed != Str(x.sent.value) {
        return Some(ECHO_FAILED);
      }
      if clients[x.localId].onconnection {
        outbox := outbox + [Connection(x.localId, b)];
      }
      if promises[x.localId].Pending? {
        promises := promises[x.localId := Resolved(b)];
      }
    }

    method OnEcho(b: nat, txt: Value, withAck: bool) returns (thrown: Option<string>)
      modifies this
      ensures Step(Snapshot(), thrown) == Echo(old(Snapshot()), b, txt, withAck)
    {
      thrown := None;
      if b < |bridges| && bridges[b].onEcho {
        bridges := bridges[b := bridges[b].(onEcho := false)];
        if withAck {
          outbox := outbox + [Answer(b, [txt])];
        } else {
          thrown := Some(CB_NOT_FUNCTION);
        }
      }
    }
  }
}
