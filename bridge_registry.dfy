/** The bridge part factored out of the broker, packages/server/src/make-bridge.js.

    Two registries are shared by every bridge: `namespaces`, bridge id to
    namespace, and `sockets`, bridge id to that bridge's label table. A
    bridge has no ceiling here and no identity bookkeeping. Its sockets
    register under their label at `start`; from then on every event is
    forwarded to "the other key" found by the unchecked `getOtherKeyVal`,
    and a `disconnect` handler closes the first socket still in the
    namespace, which may close the next in turn. */
module BridgeRegistry {
  import opened Wrappers
  import opened JsObject
  import opened Transport
  import OtherKey

  type BridgeId = string
  type TableId = nat

  /** The `TypeError` of `otherSocket.emit` when there is no other socket. */
  const NO_OTHER_SOCKET_ERROR := "TypeError: Cannot read property 'emit' of undefined"

  /** A socket connected to bridge `bridge`, with the label table its
      handlers captured, and its label once `start` has run. */
  datatype BridgeSocket = BridgeSocket(bridge: BridgeId, table: TableId, started: Option<Value>)

  datatype State = State(
    namespaces: set<BridgeId>,                     // keys of the registry `namespaces`
    handlers: set<BridgeId>,                       // namespaces whose connection handler is registered
    sockets: map<BridgeId, TableId>,               // the registry `sockets`
    labelTables: seq<Dict<SocketId>>,              // every `socketsByLabel` object ever created
    nspSockets: map<BridgeId, seq<SocketId>>,      // `namespace.sockets`, in connection order
    bridgeSockets: map<SocketId, BridgeSocket>,
    outbox: seq<Action>)

  datatype Step = Step(state: State, thrown: Option<string>)

  function Init(): State {
    State({}, {}, map[], [], map[], map[], [])
  }

  ghost predicate Wf(s: State) {
    && (forall u :: u in s.sockets ==> s.sockets[u] < |s.labelTables|)
    && (forall x :: x in s.bridgeSockets ==> s.bridgeSockets[x].table < |s.labelTables|)
  }

  /** The invariant: handles in range, every label table with distinct
      keys in `Object.keys` order, a registered table only for a bridge whose handler exists. */
  ghost predicate Valid(s: State) {
    && Wf(s)
    && (forall t :: 0 <= t < |s.labelTables| ==> DistinctKeys(s.labelTables[t]) && Ordered(s.labelTables[t]))
    && s.sockets.Keys <= s.handlers
    && s.namespaces <= s.handlers
  }

  function NspSockets(s: State, u: BridgeId): seq<SocketId> {
    if u in s.nspSockets then s.nspSockets[u] else []
  }

  // ---------------------------------------------------------------------------
  // Handlers

  /** `makeBridge(..., bridgeUuid)`: the namespace is registered and its
      connection handler installed. */
  function MakeBridge(s: State, u: BridgeId): (r: State)
    ensures u in r.namespaces && u in r.handlers
    ensures r == s.(namespaces := s.namespaces + {u}, handlers := s.handlers + {u})
  {
    s.(namespaces := s.namespaces + {u}, handlers := s.handlers + {u})
  }

  /** The connection handler: the first connection since the bridge's
      table was last deleted creates an empty one; later ones reuse it. */
  function Connection(s: State, u: BridgeId, sock: SocketId): State {
    if u !in s.handlers then s
    else
      var s1 := if u in s.sockets then s
                else s.(labelTables := s.labelTables + [[]], sockets := s.sockets[u := |s.labelTables|]);
      s1.(bridgeSockets := s1.bridgeSockets[sock := BridgeSocket(u, s1.sockets[u], None)],
          nspSockets := s1.nspSockets[u := NspSockets(s1, u) + [sock]])
  }

  /** An event on bridge socket `sock`: `once('start')` first, the
      forwarder afterwards. */
  function Packet(s: State, sock: SocketId, event: string, args: seq<Value>): Step
    requires Wf(s)
  {
    if sock !in s.bridgeSockets then Step(s, None)
    else
      var b := s.bridgeSockets[sock];
      if b.started.None? then
        if event == "start" then Step(Start(s, sock, FirstArg(args)), None) else Step(s, None)
      else Forward(s, sock, event, args)
  }

  /** `start(label)`: register the label, then tell both sides when another
      socket is found. */
  function Start(s: State, sock: SocketId, label': Value): State
    requires Wf(s) && sock in s.bridgeSockets
  {
    var b := s.bridgeSockets[sock];
    var table := Put(s.labelTables[b.table], PropertyKey(label'), sock);
    var s1 := s.(labelTables := s.labelTables[b.table := table],
                 bridgeSockets := s.bridgeSockets[sock := b.(started := Some(label'))]);
    s1.(outbox := s1.outbox + Announce(table, sock, label'))
  }

  /** `peer_connected` to both sides when `getOtherKeyVal` yields a socket. */
  function Announce(table: Dict<SocketId>, sock: SocketId, label': Value): seq<Action> {
    var other := OtherKey.GetOtherKeyValLoose(table, label');
    if other.val.Some? then [Emit(sock, "peer_connected", []), Emit(other.val.value, "peer_connected", [])] else []
  }

  /** The `'*'` forwarder: `otherSocket.emit(event, ...args)`, a `TypeError`
      when there is no other socket. */
  function Forward(s: State, sock: SocketId, event: string, args: seq<Value>): Step
    requires Wf(s) && sock in s.bridgeSockets && s.bridgeSockets[sock].started.Some?
  {
    var b := s.bridgeSockets[sock];
    var (out, thrown) := Relay(s.labelTables[b.table], b.started.value, event, args);
    Step(s.(outbox := s.outbox + out), thrown)
  }

  function Relay(table: Dict<SocketId>, label': Value, event: string, args: seq<Value>): (seq<Action>, Option<string>) {
    var other := OtherKey.GetOtherKeyValLoose(table, label');
    if other.val.Some? then ([Emit(other.val.value, event, args)], None) else ([], Some(NO_OTHER_SOCKET_ERROR))
  }

  /** The sockets a disconnect closes, in order: the first socket still in
      the namespace is closed; when it has started, its own handler closes
      the next one, and so on. */
  function Chain(bs: map<SocketId, BridgeSocket>, rest: seq<SocketId>): (r: seq<SocketId>)
    ensures |r| <= |rest|
  {
    if rest == [] then []
    else if rest[0] in bs && bs[rest[0]].started.Some? then [rest[0]] + Chain(bs, rest[1..])
    else [rest[0]]
  }

  /** Bridge socket `sock` disconnects: socket.io removes it from the
      namespace; a socket that has started runs its handler, which closes
      the chain of remaining sockets and deletes the bridge's entries in
      both registries. Its label stays in its table. */
  function BridgeDisconnect(s: State, sock: SocketId): State {
    if sock !in s.bridgeSockets then s
    else
      var b := s.bridgeSockets[sock];
      var rest := Without(NspSockets(s, b.bridge), sock);
      if b.started.None? then
        s.(bridgeSockets := s.bridgeSockets - {sock}, nspSockets := s.nspSockets[b.bridge := rest])
      else
        var chain := Chain(s.bridgeSockets, rest);
        s.(outbox := s.outbox + DisconnectAll(chain),
           bridgeSockets := s.bridgeSockets - ({sock} + Members(chain)),
           nspSockets := s.nspSockets[b.bridge := rest[|chain|..]],
           namespaces := s.namespaces - {b.bridge},
           sockets := s.sockets - {b.bridge})
  }

  // ---------------------------------------------------------------------------
  // Runs

  datatype Event =
    | MakeBridgeEvent(u: BridgeId)
    | ConnectionEvent(u: BridgeId, sock: SocketId)
    | PacketEvent(sock: SocketId, event: string, args: seq<Value>)
    | DisconnectEvent(sock: SocketId)

  function Apply(s: State, e: Event): State
    requires Valid(s)
  {
    match e
    case MakeBridgeEvent(u) => MakeBridge(s, u)
    case ConnectionEvent(u, sock) => Connection(s, u, sock)
    case PacketEvent(sock, event, args) => Packet(s, sock, event, args).state
    case DisconnectEvent(sock) => BridgeDisconnect(s, sock)
  }

  function Run(s: State, es: seq<Event>): State
    requires Valid(s)
    decreases |es|
  {
    if es == [] then s
    else
      ApplyKeepsValid(s, es[0]);
      Run(Apply(s, es[0]), es[1..])
  }

  // ---------------------------------------------------------------------------
  // The invariant

  lemma InitValid()
    ensures Valid(Init())
  {
  }

  lemma {:induction false} ApplyKeepsValid(s: State, e: Event)
    requires Valid(s)
    ensures Valid(Apply(s, e))
  {
    match e
    case MakeBridgeEvent(u) =>
    case ConnectionEvent(u, sock) => ConnectionKeepsValid(s, u, sock);
    case PacketEvent(sock, event, args) => PacketKeepsValid(s, sock, event, args);
    case DisconnectEvent(sock) =>
  }

  lemma {:induction false} RunKeepsValid(s: State, es: seq<Event>)
    requires Valid(s)
    ensures Valid(Run(s, es))
    decreases |es|
  {
    if es != [] {
      ApplyKeepsValid(s, es[0]);
      RunKeepsValid(Apply(s, es[0]), es[1..]);
    }
  }

  // ---------------------------------------------------------------------------
  // Connections

  /** The first connection creates an empty label table and registers it in
      `sockets`; later connections reuse the registered one. Either way the
      socket joins the namespace without a label. */
  lemma ConnectionTable(s: State, u: BridgeId, sock: SocketId)
    requires u in s.handlers
    ensures var r := Connection(s, u, sock);
      && u in r.sockets
      && (u in s.sockets ==> r.sockets == s.sockets && r.labelTables == s.labelTables)
      && (u !in s.sockets ==> r.sockets == s.sockets[u := |s.labelTables|] && r.labelTables == s.labelTables + [[]])
      && r.labelTables[r.sockets[u]] == (if u in s.sockets then s.labelTables[s.sockets[u]] else [])
      && r.bridgeSockets == s.bridgeSockets[sock := BridgeSocket(u, r.sockets[u], None)]
      && r.nspSockets == s.nspSockets[u := NspSockets(s, u) + [sock]]
      && r.namespaces == s.namespaces && r.outbox == s.outbox
    requires Wf(s)
  {
  }

  /** Two connections to the same bridge share one table. */
  lemma ConnectionsShareTable(s: State, u: BridgeId, x: SocketId, y: SocketId)
    requires u in s.handlers && Wf(s) && x != y
    ensures var r := Connection(Connection(s, u, x), u, y);
      r.bridgeSockets[x].table == r.bridgeSockets[y].table == r.sockets[u]
  {
    ConnectionTable(s, u, x);
    var s1 := Connection(s, u, x);
    ConnectionTable(s1, u, y);
  }

  lemma ConnectionKeepsValid(s: State, u: BridgeId, sock: SocketId)
    requires Valid(s)
    ensures Valid(Connection(s, u, sock))
  {
    if u in s.handlers {
      ConnectionTable(s, u, sock);
      var r := Connection(s, u, sock);
      assert forall t :: 0 <= t < |s.labelTables| ==> r.labelTables[t] == s.labelTables[t];
    }
  }

  // ---------------------------------------------------------------------------
  // start and forwarding

  /** `start(label)` maps the label's property key to the socket and
      records the label; nothing else changes but the outbox. */
  lemma StartRegisters(s: State, sock: SocketId, label': Value)
    requires Wf(s) && sock in s.bridgeSockets
    ensures var b := s.bridgeSockets[sock];
            var r := Start(s, sock, label');
      && r.labelTables == s.labelTables[b.table := Put(s.labelTables[b.table], PropertyKey(label'), sock)]
      && Get(r.labelTables[b.table], PropertyKey(label')) == Some(sock)
      && r.bridgeSockets == s.bridgeSockets[sock := b.(started := Some(label'))]
      && r == s.(labelTables := r.labelTables, bridgeSockets := r.bridgeSockets, outbox := r.outbox)
  {
  }

  /** For a string label and at most two labels, both sides are told
      `peer_connected` exactly when another (non-empty) label is already
      registered, and then the other side is that label's socket. */
  lemma AnnounceIff(t: Dict<SocketId>, sock: SocketId, l: string)
    requires DistinctKeys(t) && l in Keys(t) && |t| <= 2
    ensures Announce(t, sock, Str(l)) != [] <==> exists e :: e in t && e.0 != l && e.0 != ""
    ensures forall e :: e in t && e.0 != l && e.0 != "" ==>
      Announce(t, sock, Str(l)) == [Emit(sock, "peer_connected", []), Emit(e.1, "peer_connected", [])]
  {
    var other := OtherKey.GetOtherKeyValLoose(t, Str(l));
    if |t| == 2 {
      var k := other.key.value;
      assert k in Keys(t);
      var i :| 0 <= i < |t| && t[i].0 == k;
      forall e | e in t && e.0 != l && e.0 != ""
        ensures Announce(t, sock, Str(l)) == [Emit(sock, "peer_connected", []), Emit(e.1, "peer_connected", [])]
      {
        var j :| 0 <= j < |t| && t[j] == e;
        var m :| 0 <= m < |t| && t[m].0 == l;
        assert j != m;
        assert i != m;
        assert i == j;
        GetEntry(t, e.0, e.1);
      }
      if other.val.Some? {
        assert t[i].0 != l && t[i].0 != "";
      }
    } else {
      assert |t| == 1 && t[0].0 == l;
    }
  }

  /** A label that is not a string is never found by `indexOf`, so the
      first key counts as the other one: a socket that starts alone with
      such a label is its own peer, told `peer_connected` twice. */
  lemma NonStringOwnPeer(s: State, sock: SocketId, label': Value)
    requires Wf(s) && sock in s.bridgeSockets && !label'.Str?
    requires s.labelTables[s.bridgeSockets[sock].table] == []
    ensures Start(s, sock, label').outbox
         == s.outbox + [Emit(sock, "peer_connected", []), Emit(sock, "peer_connected", [])]
  {
    var t := Put(s.labelTables[s.bridgeSockets[sock].table], PropertyKey(label'), sock);
    assert t == [(PropertyKey(label'), sock)];
    assert PropertyKey(label') != "";
  }

  /** A number label is an array index, so `Object.keys` lists it before the
      named labels; it is never found by `indexOf`, so the first key, its own,
      counts as the other one: the socket is told `peer_connected` twice as
      its own peer and the socket already waiting under a name is told
      nothing. */
  lemma NumberLabelOwnPeer(s: State, sock: SocketId, n: nat)
    requires Wf(s) && sock in s.bridgeSockets && n <= MAX_INDEX
    requires forall k :: k in Keys(s.labelTables[s.bridgeSockets[sock].table]) ==> ArrayIndex(k).None?
    ensures Start(s, sock, Num(n)).outbox
         == s.outbox + [Emit(sock, "peer_connected", []), Emit(sock, "peer_connected", [])]
  {
    var d := s.labelTables[s.bridgeSockets[sock].table];
    var k := PropertyKey(Num(n));
    ArrayIndexIff(k, n);
    assert k !in Keys(d);
    assert Slot(d, k) == 0 by {
      if d != [] {
        assert Keys(d)[0] == d[0].0;
      }
    }
    PutNew(d, k, sock);
    assert Put(d, k, sock) == [(k, sock)] + d;
    assert k != "";
  }

  /** With a string label and two labels the forwarder sends the event, with
      the same name and arguments, to the other label's socket only. */
  lemma RelayGoesToOther(t: Dict<SocketId>, l: string, k: string, x: SocketId, event: string, args: seq<Value>)
    requires DistinctKeys(t) && |t| == 2 && l in Keys(t)
    requires (k, x) in t && k != l && k != ""
    ensures Relay(t, Str(l), event, args) == ([Emit(x, event, args)], None)
  {
    var other := OtherKey.GetOtherKeyValLoose(t, Str(l));
    var i :| 0 <= i < 2 && t[i].0 == other.key.value;
    var j :| 0 <= j < 2 && t[j] == (k, x);
    var m :| 0 <= m < 2 && t[m].0 == l;
    assert i != m && j != m;
    GetEntry(t, k, x);
  }

  /** A socket alone in its bridge (its own string label the only one) has
      no other socket: the forwarder throws the `TypeError`. */
  lemma RelayAloneThrows(t: Dict<SocketId>, l: string, event: string, args: seq<Value>)
    requires t != [] && t[0].0 == l && |t| == 1
    ensures Relay(t, Str(l), event, args) == ([], Some(NO_OTHER_SOCKET_ERROR))
  {
    assert Keys(t) == [l];
  }

  /** Forwarding changes nothing but the outbox. */
  lemma ForwardOnlyEmits(s: State, sock: SocketId, event: string, args: seq<Value>)
    requires Wf(s) && sock in s.bridgeSockets && s.bridgeSockets[sock].started.Some?
    ensures var r := Forward(s, sock, event, args);
      && r.state == s.(outbox := r.state.outbox) && s.outbox <= r.state.outbox
      && (r.thrown.Some? <==> r.state.outbox == s.outbox)
  {
  }

  lemma PacketKeepsValid(s: State, sock: SocketId, event: string, args: seq<Value>)
    requires Valid(s)
    ensures Valid(Packet(s, sock, event, args).state)
  {
    if sock in s.bridgeSockets {
      var b := s.bridgeSockets[sock];
      if b.started.None? {
        if event == "start" {
          var l := FirstArg(args);
          StartRegisters(s, sock, l);
          PutKeepsDistinct(s.labelTables[b.table], PropertyKey(l), sock);
          PutKeepsOrdered(s.labelTables[b.table], PropertyKey(l), sock);
          var r := Start(s, sock, l);
          forall t | 0 <= t < |r.labelTables| ensures DistinctKeys(r.labelTables[t]) && Ordered(r.labelTables[t]) {
            if t != b.table {
              assert r.labelTables[t] == s.labelTables[t];
            }
          }
        }
      } else {
        ForwardOnlyEmits(s, sock, event, args);
      }
    }
  }

  // ---------------------------------------------------------------------------
  // Disconnect

  /** A started socket leaving closes the first remaining socket of the
      namespace, then each next one as long as the one just closed had
      started; the bridge's entries in `namespaces` and `sockets`, and only
      those, are deleted. Label tables are untouched. */
  lemma DisconnectCloses(s: State, sock: SocketId)
    requires sock in s.bridgeSockets && s.bridgeSockets[sock].started.Some?
    ensures var u := s.bridgeSockets[sock].bridge;
            var rest := Without(NspSockets(s, u), sock);
            var chain := Chain(s.bridgeSockets, rest);
            var r := BridgeDisconnect(s, sock);
      && r.outbox == s.outbox + DisconnectAll(chain)
      && (rest != [] ==> Disconnect(rest[0]) in r.outbox)
      && NspSockets(r, u) == rest[|chain|..]
      && r.namespaces == s.namespaces - {u} && r.sockets == s.sockets - {u}
      && r.labelTables == s.labelTables && r.handlers == s.handlers
  {
    var u := s.bridgeSockets[sock].bridge;
    var rest := Without(NspSockets(s, u), sock);
    if rest != [] {
      var r := BridgeDisconnect(s, sock);
      assert r.outbox[|s.outbox|] == Disconnect(rest[0]);
    }
  }

  /** The chain is a non-empty prefix of the remaining sockets when there
      are any; every socket in it but the last has started, and it stops
      early only at a socket that has not. */
  lemma {:induction false} ChainShape(bs: map<SocketId, BridgeSocket>, rest: seq<SocketId>)
    ensures var r := Chain(bs, rest);
      && r == rest[..|r|]
      && (rest != [] ==> r != [])
      && (forall i :: 0 <= i < |r| - 1 ==> r[i] in bs && bs[r[i]].started.Some?)
      && (|r| < |rest| ==> r != [] && (r[|r| - 1] !in bs || bs[r[|r| - 1]].started.None?))
    decreases |rest|
  {
    if rest != [] && rest[0] in bs && bs[rest[0]].started.Some? {
      ChainShape(bs, rest[1..]);
      var r := Chain(bs, rest);
      assert r == [rest[0]] + Chain(bs, rest[1..]);
      forall i | 0 <= i < |r| - 1 ensures r[i] in bs && bs[r[i]].started.Some? {
        if i > 0 {
          assert r[i] == Chain(bs, rest[1..])[i - 1];
        }
      }
    }
  }

  /** In a bridge of two started sockets either leaving closes the other:
      the namespace is left empty. */
  lemma PairTeardown(s: State, x: SocketId, y: SocketId)
    requires x in s.bridgeSockets && y in s.bridgeSockets && x != y
    requires s.bridgeSockets[x].started.Some? && s.bridgeSockets[y].started.Some?
    requires NspSockets(s, s.bridgeSockets[x].bridge) == [x, y]
    ensures var r := BridgeDisconnect(s, x);
      && r.outbox == s.outbox + [Disconnect(y)]
      && NspSockets(r, s.bridgeSockets[x].bridge) == []
      && x !in r.bridgeSockets && y !in r.bridgeSockets
  {
    var rest := Without([x, y], x);
    assert rest == [y] by {
      assert [x, y][1..] == [y];
      assert Without([y], x) == [y];
    }
    assert Chain(s.bridgeSockets, [y]) == [y];
  }

  /** A socket leaving before `start` has no handler: only socket.io's own
      bookkeeping changes, the bridge stays. */
  lemma UnstartedLeaves(s: State, sock: SocketId)
    requires sock in s.bridgeSockets && s.bridgeSockets[sock].started.None?
    ensures var u := s.bridgeSockets[sock].bridge;
            var r := BridgeDisconnect(s, sock);
      && r == s.(bridgeSockets := s.bridgeSockets - {sock}, nspSockets := r.nspSockets)
      && NspSockets(r, u) == Without(NspSockets(s, u), sock)
  {
  }

  // ---------------------------------------------------------------------------
  // The registries as objects updated in place

  /** The module-level registries and the socket.io state they refer to. */
  class Registry {
    var namespaces: set<BridgeId>
    var handlers: set<BridgeId>
    var sockets: map<BridgeId, TableId>
    var labelTables: seq<Dict<SocketId>>
    var nspSockets: map<BridgeId, seq<SocketId>>
    var bridgeSockets: map<SocketId, BridgeSocket>
    var outbox: seq<Action>

    function Snapshot(): State
      reads this
    {
      State(namespaces, handlers, sockets, labelTables, nspSockets, bridgeSockets, outbox)
    }

    constructor ()
      ensures Snapshot() == Init() && Valid(Snapshot())
    {
      namespaces, handlers, sockets, labelTables := {}, {}, map[], [];
      nspSockets, bridgeSockets, outbox := map[], map[], [];
    }

    /** `makeBridge(..., bridgeUuid)`. */
    method Make(u: BridgeId)
      modifies this
      ensures Snapshot() == MakeBridge(old(Snapshot()), u)
    {
      namespaces := namespaces + {u};
      handlers := handlers + {u};
    }

    method OnConnection(u: BridgeId, sock: SocketId)
      modifies this
      ensures Snapshot() == Connection(old(Snapshot()), u, sock)
    {
      if u !in handlers {
        return;
      }
      if u !in sockets {
        sockets := sockets[u := |labelTables|];
        labelTables := labelTables + [[]];
      }
      var members := if u in nspSockets then nspSockets[u] else [];
      bridgeSockets := bridgeSockets[sock := BridgeSocket(u, sockets[u], None)];
      nspSockets := nspSockets[u := members + [sock]];
    }

    method OnPacket(sock: SocketId, event: string, args: seq<Value>) returns (thrown: Option<string>)
      requires Wf(Snapshot())
      modifies this
      ensures Step(Snapshot(), thrown) == Packet(old(Snapshot()), sock, event, args)
    {
      thrown := None;
      if sock !in bridgeSockets {
        return;
      }
      var b := bridgeSockets[sock];
      if b.started.None? {
        if event == "start" {
          var l := FirstArg(args);
          var table := Put(labelTables[b.table], PropertyKey(l), sock);
          labelTables := labelTables[b.table := table];
          bridgeSockets := bridgeSockets[sock := b.(started := Some(l))];
          outbox := outbox + Announce(table, sock, l);
        }
      } else {
        var (out, err) := Relay(labelTables[b.table], b.started.value, event, args);
        outbox := outbox + out;
        thrown := err;
      }
    }

    method OnDisconnect(sock: SocketId)
      modifies this
      ensures Snapshot() == BridgeDisconnect(old(Snapshot()), sock)
    {
      if sock !in bridgeSockets {
        return;
      }
      var b := bridgeSockets[sock];
      var rest := Without(if b.bridge in nspSockets then nspSockets[b.bridge] else [], sock);
      if b.started.None? {
        bridgeSockets := bridgeSockets - {sock};
        nspSockets := nspSockets[b.bridge := rest];
        return;
      }
      var chain := CloseChain(bridgeSockets, rest);
      outbox, bridgeSockets := outbox + DisconnectAll(chain), bridgeSockets - ({sock} + Members(chain));
      nspSockets, namespaces, sockets := nspSockets[b.bridge := rest[|chain|..]], namespaces - {b.bridge}, sockets - {b.bridge};
    }

    /** The nested handlers: close the first remaining socket, and go on
        while the socket just closed had started. */
    static method CloseChain(bs: map<SocketId, BridgeSocket>, rest: seq<SocketId>) returns (chain: seq<SocketId>)
      ensures chain == Chain(bs, rest)
    {
      chain := [];
      var i := 0;
      while i < |rest|
        invariant 0 <= i <= |rest|
        invariant chain + Chain(bs, rest[i..]) == Chain(bs, rest)
      {
        var x := rest[i];
        assert rest[i..][1..] == rest[i + 1..];
        chain := chain + [x];
        if !(x in bs && bs[x].started.Some?) {
          return;
        }
        i := i + 1;
      }
    }
  }
}
