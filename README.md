# socket.io-bridge: a verified model of the broker and client bookkeeping

socket.io-bridge lets two socket.io clients talk to each other through a
broker. A client logs in under an identity (uid) on a control socket. It can
then ask for a bridge to a peer identity. The broker hands both sides a
bridge number (or bridge id). Each side opens a socket to that bridge
namespace and sends `start(label)`. Once both labels are present, the broker
tells both sides `peer_connected` and forwards every further event from one
side to the other. The clients run an echo test before reporting the bridge
as established. When either bridge socket disconnects, the broker tears the
whole bridge down.

The model covers five JavaScript files, one Dafny module each:

| module | file | what it holds |
|---|---|---|
| `Server` (server.dfy) | packages/server/src/server.js | current broker: `clients_by_id`, `waiting_conns`, `sockets_by_bridgenum`, `nsps_by_bridgenum`, `num_bridges` |
| `LegacyServer` (server_legacy.dfy) | packages/server/server.js | older broker: `clients`, `clients_waiting`, `socks_by_bridgenum`, `bridges_by_num`, `num_bridges`, plus the `setTimeout` queue |
| `BridgeRegistry` (bridge_registry.dfy) | packages/server/src/make-bridge.js | factored-out bridge part: the module-level `namespaces` and `sockets` registries |
| `Client` (client.dfy) | packages/client/src/client.js | `SocketIoBridgeClient`: `clients`, `num_connections`, the three control handlers, the bridge socket listeners |
| `BridgeClient` (client_make_bridge.dfy) | packages/client/src/make-bridge.js | promise-based `make`: `clients[localId].onbridge`, login acknowledgement, echo test, resolve/reject |

Four helper modules are shared:

- `OtherKey` (other_key.dfy) holds both versions of `getOtherKeyVal`.
- `JsObject` (js_object.dfy) models JavaScript objects used as dictionaries. Entries are kept in the order `Object.keys` reports them (section 10.1.11.1 of ECMA-262, OrdinaryOwnPropertyKeys): keys that are array indices (canonical decimals up to 4294967294) come first, in ascending numeric order, and every other key follows in insertion order.
- `Decimal` (decimal.dfy) models `${n}` for naturals and the `${Date.now()}_${counter}` ids.
- `Transport` (transport.dfy) holds socket ids, argument values, truthiness, property keys and outbox actions.

Every module follows the same pattern:

- **Sockets and messages.** A socket is an opaque id. Every `emit`, every server-side `disconnect()` and every client-side connect is an action appended to an outbox.
- **Handlers.** Each handler is a step function on an immutable `State`. An exception thrown by a handler is returned alongside the state, and the updates made before the throw are kept.
- **Classes.** A class (`Broker`, `LegacyBroker`, `Registry`, `SocketIoBridgeClient`, `Client`) holds the same tables as `map`/`seq`/`set` fields. Its methods update them in place. Each method is proved to leave the fields equal to its step function applied to the old fields (`Snapshot() == Step(old(Snapshot()), ...)`), so everything proved about the step functions holds for the objects.
- **Invariants.** Each module has an invariant `Valid`. It is proved for the initial state and preserved by every event (`ApplyKeepsValid`, `RunKeepsValid`). In the brokers and the factored-out bridge it includes that every dictionary they keep has distinct keys in `Object.keys` order, so every reachable table is in that order.

Where the code does less than its own tests, comments or sibling code lead one to expect, the model follows the code:

- **Control-socket disconnect (packages/server/src/server.js).** The older broker releases an identity when its control socket drops (packages/server/server.js:142-146). In the newer broker, the control socket's `disconnect` handler only logs (packages/server/src/server.js:164-166, and it throws, see Findings). What releases an identity there is the disconnect of a *bridge* socket whose label equals it: `delete clients_by_id[myid]` at packages/server/src/server.js:291-292. That same disconnect deletes `waiting_conns[label]`. These are the entries that *target* that identity, not the ones it requested.
- **Duplicate login (packages/server/server.js).** The client's test suite expects a second login with a uid in use to be rejected with `uid_taken` (packages/client/test/test.js:360-374). The older broker never refuses a login: it overwrites `clients[myid]` and registers one more `disconnect` handler per login. A disconnect of an older control socket therefore unbinds an identity that a newer socket has since taken (`LegacyServer.StaleDisconnectUnbinds`).
- **Login reply protocol.** packages/client/src/make-bridge.js:64-69 waits for a login acknowledgement whose status is `success` and rejects with any other status. Neither modelled broker sends that acknowledgement: packages/server/src/server.js replies with `logged_in(uuid)` or `internal_error(uuid, msg)`. The client's acknowledgement is therefore modelled as an input event.
- **Disconnect in the factored-out bridge (packages/server/src/make-bridge.js).** The comment at packages/server/src/make-bridge.js:60 says the other socket is closed too, and packages/client/test/test.js:192-215 expects the peer to be disconnected. The code disconnects only the first socket still in the namespace (`Object.values(namespace.sockets)[0]`, line 61). That socket's own handler closes the next one only if it has started, so an unstarted socket ends the chain (`BridgeRegistry.ChainShape`).

## Model

| member | source | states |
|---|---|---|
| OtherKey.IndexOf | packages/server/src/server.js:96 | `keys.indexOf(key)`: the result is the first position holding the key, or -1 exactly when the key is absent |
| OtherKey.LabelIndex | packages/server/src/server.js:96-97 | under strict `indexOf` only a string label is found; -1 exactly when the label is not listed |
| OtherKey.GetOtherKeyVal | packages/server/src/server.js:86-107 | succeeds exactly when the table has 1 or 2 keys and the key is one of them, and throws otherwise; with one key there is no other key; with two keys it returns the other key and, when that key is non-empty, its value (the same body is at packages/server/server.js:53-74) |
| OtherKey.GetOtherKeyValLoose | packages/server/src/make-bridge.js:20-27 | never throws; with one listed key there is no other key; with two keys it returns the other one; for an unlisted key it returns the first key in `Object.keys` order (an array-index key before any other); a non-empty other key comes with its value |
| JsObject.Keys | packages/server/src/server.js:90 | `Object.keys`: one key per entry, in the entries' order |
| JsObject.ArrayIndex | packages/server/src/server.js:90 | a key counts as an array index only when it is the decimal form of a number no larger than 4294967294 |
| JsObject.ArrayIndexIff | packages/server/src/server.js:90 | a key is array index `n` exactly when `n` is at most 4294967294 and the key is `n` written in decimal |
| JsObject.Slot | packages/server/src/server.js:180-183 | where a new key is inserted: every earlier key goes before it and the key at that place does not; a key that is not an array index goes after all existing keys |
| JsObject.Get | packages/server/src/server.js:104 | `obj[k]` is defined exactly when `k` is a key, and then it is that key's value |
| JsObject.Put | packages/server/src/server.js:257 | after `obj[k] = v`, `k` reads back `v`, every other key reads as before, and no entry is invented |
| JsObject.Delete | packages/server/src/server.js:161 | after `delete obj[k]`, `k` is absent, every other key reads as before, and deleting an absent key changes nothing |
| JsObject.PutKeys | packages/server/src/server.js:257 | assigning keeps the key order: an existing key keeps its place, a new key is inserted at its `Slot`, and a new key that is not an array index goes last |
| JsObject.PutKeepsOrdered | packages/server/src/server.js:257 | assignment keeps the entries in `Object.keys` order: array indices ascending, ahead of all other keys |
| JsObject.PutKeepsDistinct | packages/server/src/server.js:257 | assignment keeps every key unique |
| JsObject.IndexKeysAscend | packages/server/src/server.js:140 | assigning `"10"` and then `"9"` lists `"9"` first |
| JsObject.IndexKeysFirst | packages/server/src/make-bridge.js:21 | assigning `"b"` and then `"5"` lists `"5"` first |
| JsObject.OtherKeysInOrder | packages/server/src/server.js:140 | assigning `"b"` and then `"a"` keeps `"b"` first |
| JsObject.DeleteKeepsDistinct | packages/server/src/server.js:161 | deletion keeps every key unique |
| JsObject.DeleteKeepsOrdered | packages/server/src/server.js:161 | deletion keeps the entries in `Object.keys` order |
| JsObject.GetEntry | packages/server/src/server.js:104 | with unique keys, an entry's key reads exactly that entry's value |
| JsObject.DeleteFirst | packages/server/src/server.js:145-161 | deleting the first key leaves exactly the remaining entries, in order |
| Decimal.Show | packages/client/src/client.js:100 | `${n}` is a non-empty string of decimal digits, with one digit exactly when n < 10 |
| Decimal.ShowInjective | packages/client/src/client.js:117 | different naturals never render the same |
| Decimal.LocalIdInjective | packages/client/src/client.js:100 | two ids `${stamp}_${counter}` are equal only when both the time stamp and the counter are equal |
| Transport.FirstArg | packages/server/src/server.js:254 | a handler's first parameter is the event's first argument, or `undefined` when there is none |
| Server.MakeBridge | packages/server/src/server.js:208-222 | refuses exactly a number already in `nsps_by_bridgenum`, and then changes no table; otherwise it records the number and installs the namespace's handler |
| Server.DrainStep | packages/server/src/server.js:156-161 | one turn of the drain: the bridge exists afterwards, `connect_to_bridge` goes to the logging-in socket with its uuid and then to the waiting socket with its own uuid, and the entry is deleted |
| Server.RequestBridge | packages/server/src/server.js:169-170 | every `request_bridge` raises `num_bridges` by exactly one |
| Server.ControlDisconnect | packages/server/src/server.js:165-167 | as written: the handler changes no table (and throws, see ControlDisconnectThrows) |
| Server.ControlDisconnectLogged | packages/server/src/server.js:165-167 | as intended: the handler changes no table |
| Server.ControlDisconnectThrows | packages/server/src/server.js:165-167 | the handler as written throws on every disconnect; the corrected one never does; neither releases a bound identity |
| Server.InitValid | packages/server/src/server.js:55-59 | the empty tables with `num_bridges = 0` satisfy the invariant |
| Server.FreshBridgenum | packages/server/src/server.js:170 | in every valid state the next bridge number has no namespace and is in no waiting entry, so no number is handed out twice |
| Server.ApplyKeepsValid | packages/server/src/server.js:114-305 | every handler preserves the invariant |
| Server.RunKeepsValid | packages/server/src/server.js:240-250 | every state reachable by any sequence of events is valid and holds at most `MAX_NUM_BRIDGES` (100) bridges |
| Server.LoginTakenRefused | packages/server/src/server.js:121-126 | a login under a bound identity emits `internal_error(uuid, msg)` to that socket and changes no table |
| Server.LoginFresh | packages/server/src/server.js:128-133 | a login under a free identity that nobody waits for binds `{socket, uuid}`, replies `logged_in(uuid)`, and changes nothing else |
| Server.DrainAll | packages/server/src/server.js:137-162 | the loop over `waiting_conns[myid]` creates each entry's bridge, notifies both sides of each entry in `Object.keys` order (array-index uids ascending first, then the others as parked), and leaves the table empty |
| Server.LoginBindsAndDrains | packages/server/src/server.js:128-162 | a successful login binds the identity, replies `logged_in`, then drains every entry parked for it, in `Object.keys` order |
| Server.DrainedKeepsValid | packages/server/src/server.js:137-162 | the drain keeps every bridge number below the counter |
| Server.LoginKeepsValid | packages/server/src/server.js:118-163 | `login` preserves the invariant |
| Server.RequestOffline | packages/server/src/server.js:174-186 | a request to an offline target stores `{uuid, socket, bridgenum}` under `waiting_conns[otherid][myid]` with the fresh number; nothing is created and nobody is told |
| Server.RequestOnline | packages/server/src/server.js:188-200 | a request to an online target creates the bridge under the fresh number and tells both sides that number, each with its own uuid |
| Server.RequestBridgeKeepsValid | packages/server/src/server.js:169-202 | `request_bridge` preserves the invariant |
| Server.TargetFirstForm | packages/server/src/server.js:118-200 | B logs in, A logs in, A requests B: both bound, one bridge under the next number, both told it |
| Server.ParkedInKeysOrder | packages/server/src/server.js:137-145 | requesters with uids `"10"` and then `"9"` are listed, and so drained, `"9"` first, each with the bridge number it was given |
| Server.LoginThenPark | packages/server/src/server.js:174-186 | A logs in and requests an offline B: one parked entry for B, with the next number |
| Server.LoginDrainsOne | packages/server/src/server.js:137-161 | a login that finds one parked entry creates that bridge and tells both sides its number |
| Server.TargetLateForm | packages/server/src/server.js:118-200 | A logs in, requests B, then B logs in: both bound, one bridge under the same number, both told it, B's waiting table empty |
| Server.ArrivalOrderSymmetric | packages/server/src/server.js:118-202 | from a valid state where neither A nor B is logged in and nobody is waiting for either, both arrival orders leave the same bindings, the same single bridge number, the same live waiting entries and the same bridge tables; the two outboxes hold the same notifications in a different order |
| Server.CeilingRefuses | packages/server/src/server.js:240-250 | a connection that would make the 101st bridge is disconnected and that bridge's entries in `sockets_by_bridgenum` and `nsps_by_bridgenum` are deleted; the other bridges are untouched |
| Server.ConnectionAdmitted | packages/server/src/server.js:231-252 | below the ceiling the socket is admitted; the first connection creates the bridge's empty label table and later ones reuse it |
| Server.AdmittedKeepsValid | packages/server/src/server.js:231-252 | admitting a socket preserves the invariant |
| Server.BridgeConnectionKeepsValid | packages/server/src/server.js:224-252 | the bridge connection handler preserves the invariant, in particular the ceiling |
| Server.StartRegisters | packages/server/src/server.js:254-257 | `start(myid)` maps the label to the socket in the bridge's shared table and records the label; besides that only the outbox changes, and it only grows |
| Server.StartThrowsOnThird | packages/server/src/server.js:297-302 | for a string label, `start` throws exactly when the table then holds more than two labels, and announces nothing unless exactly two are present |
| Server.AnnounceThrowsOnThird | packages/server/src/server.js:297-302 | the announcement part of `start`: throws exactly above two labels, and emits nothing unless there are exactly two |
| Server.StartNonStringThrows | packages/server/src/server.js:297 | a label that is not a string is never found by strict `indexOf`, so its `start` always throws |
| Server.StartAnnounces | packages/server/src/server.js:297-302 | when a second string label arrives, both sockets are told `peer_connected`, unless the first label is the empty (falsy) string |
| Server.RegisterKeepsLabels | packages/server/src/server.js:257 | registering a label keeps keys unique and keeps every started socket's label in its table |
| Server.StartKeepsValid | packages/server/src/server.js:254-304 | `start` preserves the invariant |
| Server.ForwardGoesToOther | packages/server/src/server.js:259-270 | with two labels an event is re-emitted with the same name and arguments on the other label's socket only; alone, the sender gets `internal_error(myid, msg)`; an other label that is the empty string is falsy, so the sender gets `internal_error` too; above two labels, or with a non-string label, the forwarder throws; nothing else changes |
| Server.ForwardOnlyEmits | packages/server/src/server.js:259-270 | forwarding changes nothing but the outbox, which only grows |
| Server.BridgeEventKeepsValid | packages/server/src/server.js:254-304 | every event on a bridge socket preserves the invariant |
| Server.TeardownIsJoint | packages/server/src/server.js:272-293 | a started socket leaving disconnects every other socket of the namespace, deletes the bridge's entries, releases its label from `clients_by_id` and `waiting_conns`, binds nobody afresh, and leaves the counter alone |
| Server.BridgeDisconnectKeepsValid | packages/server/src/server.js:272-293 | a bridge disconnect preserves the invariant |
| Server.Broker.constructor | packages/server/src/server.js:55-59 | the broker starts with empty tables, and that state is valid |
| Server.Broker.NewBridge | packages/server/src/server.js:208-222 | the in-place `makeBridge` agrees with `MakeBridge`, error included |
| Server.Broker.OnLogin | packages/server/src/server.js:118-163 | the in-place `login`, with its `for` loop over the waiting ids, leaves the tables as `Login` says |
| Server.Broker.DrainOne | packages/server/src/server.js:145-161 | one loop turn stops exactly at a missing entry (sanity check, `internal_error`); otherwise it does `DrainStep` |
| Server.Broker.OnRequestBridge | packages/server/src/server.js:169-202 | the in-place `request_bridge` agrees with `RequestBridge` |
| Server.Broker.OnConnection | packages/server/src/server.js:224-252 | the in-place bridge connection handler agrees with `BridgeConnection` |
| Server.Broker.OnPacket | packages/server/src/server.js:254-270 | an event on a bridge socket (`start`, then the forwarder) agrees with `BridgeEvent`, including what it throws |
| Server.Broker.OnBridgeDisconnect | packages/server/src/server.js:272-293 | the in-place bridge disconnect agrees with `BridgeDisconnect` |
| Server.Broker.TearDown | packages/server/src/server.js:272-293 | the started socket's handler agrees with `BridgeDisconnect` |
| Server.Broker.Forget | packages/server/src/server.js:281-292 | the cleanup deletes exactly the bridge's entries and the released identities |
| Server.Broker.CloseOthers | packages/server/src/server.js:276-279 | the `forEach` disconnects every other socket, in order, and collects the labels their own handlers release |
| LegacyServer.MakeBridge | packages/server/server.js:204-224 | refuses exactly a number already in `bridges_by_num`, and then changes nothing; otherwise it records the number and installs the namespace's handlers |
| LegacyServer.DrainStep | packages/server/server.js:118-139 | one turn of the drain: the bridge exists afterwards, the logging-in side's `connect_to_bridge(myid, n)` is scheduled, the waiting side gets `connect_to_bridge(wid, n)` at once, and the entry is deleted |
| LegacyServer.RequestBridge | packages/server/server.js:152-155 | every `request_bridge` raises `num_bridges` by exactly one |
| LegacyServer.InitValid | packages/server/server.js:84-87 | the empty tables with `num_bridges = 0` satisfy the invariant |
| LegacyServer.FreshBridgenum | packages/server/server.js:155 | the next bridge number has no namespace and is in no waiting entry |
| LegacyServer.ApplyKeepsValid | packages/server/server.js:89-308 | every handler, including the timer, preserves the invariant |
| LegacyServer.RunKeepsValid | packages/server/server.js:245-255 | every reachable state is valid and holds at most `MAX_NUM_BRIDGES` bridges |
| LegacyServer.DrainAll | packages/server/server.js:109-140 | the loop over `clients_waiting[myid]` runs to its end, creates each entry's bridge, tells each waiting side, schedules the logging-in side's notices, and empties the table; the entries are taken in `Object.keys` order |
| LegacyServer.LoginBindsAndDrains | packages/server/server.js:95-147 | `login` never refuses: it (re)binds, replies `logged_in(myid)`, drains, and registers a `disconnect` handler for the identity |
| LegacyServer.LoginOverwrites | packages/server/server.js:98-107 | a second login under a bound identity replaces the binding and adds one handler on this socket only |
| LegacyServer.LoginFresh | packages/server/server.js:102-107 | a login nobody waits for binds, replies `logged_in`, and registers its handler; nothing else changes |
| LegacyServer.LoginKeepsValid | packages/server/server.js:95-148 | `login` preserves the invariant |
| LegacyServer.ControlDisconnectForgets | packages/server/server.js:142-146 | a control socket's disconnect deletes `clients[id]` and `clients_waiting[id]` for each identity it logged in, and nothing else |
| LegacyServer.StaleDisconnectUnbinds | packages/server/server.js:142-146 | after A and then B log in as `id`, A's disconnect unbinds `id` although B holds it |
| LegacyServer.ControlDisconnectKeepsValid | packages/server/server.js:142-146 | a control disconnect preserves the invariant |
| LegacyServer.RequestOffline | packages/server/server.js:160-173 | a request to an offline target stores `{id, socket, bridgenum}` under `clients_waiting[otherid][myid]`, which is the old table with that one key assigned; nothing is created and nobody is told |
| LegacyServer.RequestOnline | packages/server/server.js:176-186 | a request to an online target creates the bridge and tells both sides the fresh number, each with its own id |
| LegacyServer.RequestBridgeKeepsValid | packages/server/server.js:152-187 | `request_bridge` preserves the invariant |
| LegacyServer.TargetFirstForm | packages/server/server.js:95-187 | B logs in, A logs in, A requests B: both bound, one bridge, both told its number at once |
| LegacyServer.ParkedInKeysOrder | packages/server/server.js:109-117 | requesters `"10"` and then `"9"` are listed, and so drained, `"9"` first |
| LegacyServer.LoginThenPark | packages/server/server.js:160-173 | A logs in and requests an offline B: one parked entry for B |
| LegacyServer.LoginDrainsOne | packages/server/server.js:117-139 | a login that finds one parked entry creates that bridge, tells the requester now and schedules its own notice |
| LegacyServer.TargetLateForm | packages/server/server.js:95-187 | A logs in, requests B, then B logs in: both bound, one bridge, A told now, B's notice scheduled |
| LegacyServer.TargetLateFired | packages/server/server.js:129-132 | once the timer fires, B's scheduled notice joins the outbox after the others |
| LegacyServer.ArrivalOrderSymmetric | packages/server/server.js:95-187 | from a valid state with no timer pending, where B is not logged in, A and B use different sockets and nobody is waiting for either, and once the timer has fired, both arrival orders leave the same bindings, handlers, single bridge number, live waiting entries and bridge tables, and the same notifications; only the order of the two `logged_in` replies differs |
| LegacyServer.CeilingRefuses | packages/server/server.js:245-255 | a connection that would make the 101st bridge gets `internal_error('Safety limit reached')`, is disconnected, and that bridge's entries are deleted |
| LegacyServer.ConnectionAdmitted | packages/server/server.js:236-259 | below the ceiling the socket is admitted and told `connected`; the first connection creates the empty label table |
| LegacyServer.AdmittedKeepsValid | packages/server/server.js:236-259 | admitting a socket preserves the invariant |
| LegacyServer.BridgeConnectionKeepsValid | packages/server/server.js:230-259 | the bridge connection handler preserves the invariant, in particular the ceiling |
| LegacyServer.StartRegisters | packages/server/server.js:261-271 | `start(mylabel)` registers the label, and registers the forwarder exactly when nothing was thrown; only the outbox changes besides |
| LegacyServer.AnnounceThrows | packages/server/server.js:271-275 | the lookup after registration throws exactly above two labels or for a non-string label; nothing is announced unless two labels are present |
| LegacyServer.StartThrows | packages/server/server.js:261-287 | `start` throws exactly above two labels or for a non-string label, and then the forwarder is never registered |
| LegacyServer.StartAnnounces | packages/server/server.js:271-275 | a second string label makes both sockets get `peer_connected`, unless the first label is empty |
| LegacyServer.RegisterKeepsTables | packages/server/server.js:269 | registering a label keeps every table's keys unique and in `Object.keys` order |
| LegacyServer.StartKeepsValid | packages/server/server.js:261-287 | `start` preserves the invariant |
| LegacyServer.RelayThrows | packages/server/server.js:277-286 | the forwarder throws exactly above two labels or for a non-string label, and emits nothing unless two labels are present |
| LegacyServer.RelayGoesToOther | packages/server/server.js:277-286 | with two labels the event goes, with the same name and arguments, to the other label's socket only |
| LegacyServer.ForwardOnlyEmits | packages/server/server.js:277-286 | forwarding changes nothing but the outbox |
| LegacyServer.BridgeEventKeepsValid | packages/server/server.js:261-287 | every event on a bridge socket preserves the invariant |
| LegacyServer.ReleaseKeepsTables | packages/server/server.js:301 | deleting labels keeps every table's keys unique and in `Object.keys` order |
| LegacyServer.TeardownIsJoint | packages/server/server.js:290-308 | a bridge socket leaving disconnects every other socket of the namespace, deletes the bridge's entries and its own label, and releases no identity |
| LegacyServer.BridgeDisconnectKeepsValid | packages/server/server.js:290-308 | a bridge disconnect preserves the invariant |
| LegacyServer.LegacyBroker.constructor | packages/server/server.js:84-87 | the broker starts with empty tables, and that state is valid |
| LegacyServer.LegacyBroker.NewBridge | packages/server/server.js:204-224 | the in-place `makeBridge` agrees with `MakeBridge` |
| LegacyServer.LegacyBroker.OnControlConnection | packages/server/server.js:89-93 | a control connection is told `connected` |
| LegacyServer.LegacyBroker.OnLogin | packages/server/server.js:95-148 | the in-place `login` agrees with `Login` |
| LegacyServer.LegacyBroker.DrainLoop | packages/server/server.js:117-140 | the `for` loop agrees with `DrainWaiting`, including the early return |
| LegacyServer.LegacyBroker.DrainOne | packages/server/server.js:118-139 | one loop turn stops exactly at a missing entry and otherwise does `DrainStep` |
| LegacyServer.LegacyBroker.OnTimer | packages/server/server.js:130-132 | the first scheduled `connect_to_bridge` is emitted |
| LegacyServer.LegacyBroker.OnControlDisconnect | packages/server/server.js:142-146 | the socket's handlers, one per login, agree with `ControlDisconnect` |
| LegacyServer.LegacyBroker.ForgetIds | packages/server/server.js:142-146 | running the handlers in turn deletes exactly the listed identities from both tables |
| LegacyServer.LegacyBroker.OnRequestBridge | packages/server/server.js:152-187 | the in-place `request_bridge` agrees with `RequestBridge` |
| LegacyServer.LegacyBroker.OnConnection | packages/server/server.js:230-259 | the in-place bridge connection handler agrees with `BridgeConnection` |
| LegacyServer.LegacyBroker.Refuse | packages/server/server.js:247-255 | over the ceiling: `internal_error`, disconnect, and the bridge's two entries deleted |
| LegacyServer.LegacyBroker.Admit | packages/server/server.js:257-259 | below it: `connected`, and the socket joins the namespace |
| LegacyServer.LegacyBroker.OnPacket | packages/server/server.js:261-287 | an event on a bridge socket agrees with `BridgeEvent`, including what it throws |
| LegacyServer.LegacyBroker.OnStart | packages/server/server.js:261-277 | `start` on a socket that has not started agrees with `Start`: the label is registered, the peer announced, and the forwarder registered unless `getOtherKeyVal` threw |
| LegacyServer.LegacyBroker.OnBridgeDisconnect | packages/server/server.js:290-308 | the in-place bridge disconnect, with its nested handlers, agrees with `BridgeDisconnect` |
| LegacyServer.LegacyBroker.Forget | packages/server/server.js:299-307 | the cleanup installs the released tables and deletes exactly the bridge's entries |
| LegacyServer.LegacyBroker.CloseOthers | packages/server/server.js:294-297 | the `forEach` disconnects every other socket, in order |
| LegacyServer.LegacyBroker.ReleaseAll | packages/server/server.js:301 | the nested cleanups delete each socket's own label, the innermost first |
| BridgeRegistry.MakeBridge | packages/server/src/make-bridge.js:29-33 | creating a bridge registers `namespaces[bridgeUuid]` and its connection handler, and changes nothing else |
| BridgeRegistry.InitValid | packages/server/src/make-bridge.js:3-4 | the empty registries satisfy the invariant |
| BridgeRegistry.ApplyKeepsValid | packages/server/src/make-bridge.js:29-76 | every handler preserves the invariant |
| BridgeRegistry.RunKeepsValid | packages/server/src/make-bridge.js:29-76 | every reachable state is valid |
| BridgeRegistry.ConnectionTable | packages/server/src/make-bridge.js:37-42 | the first connection creates an empty label table and registers it in `sockets`; later connections reuse the registered one; the socket joins without a label |
| BridgeRegistry.ConnectionsShareTable | packages/server/src/make-bridge.js:37-42 | two connections to the same bridge share one table |
| BridgeRegistry.ConnectionKeepsValid | packages/server/src/make-bridge.js:33-43 | the connection handler preserves the invariant |
| BridgeRegistry.StartRegisters | packages/server/src/make-bridge.js:45-47 | `start(label)` maps the label to the socket and records it; only the outbox changes besides |
| BridgeRegistry.AnnounceIff | packages/server/src/make-bridge.js:70-74 | for a string label and at most two labels, both sides get `peer_connected` exactly when another non-empty label is already registered, and the other side is that label's socket |
| BridgeRegistry.NumberLabelOwnPeer | packages/server/src/make-bridge.js:20-74 | a number label within the array-index range, in a table with no array-index labels, is listed first, so it is its own "other": the starting socket is told `peer_connected` twice and its peer nothing |
| BridgeRegistry.NonStringOwnPeer | packages/server/src/make-bridge.js:20-27 | a non-string label is never found, so the first key counts as "the other": a socket that starts alone with such a label is told `peer_connected` twice as its own peer |
| BridgeRegistry.RelayGoesToOther | packages/server/src/make-bridge.js:50-55 | with two labels the forwarder re-emits the same event with the same arguments on the other label's socket only |
| BridgeRegistry.RelayAloneThrows | packages/server/src/make-bridge.js:52-54 | a socket alone in its bridge has no other socket, and the forwarder throws a TypeError |
| BridgeRegistry.ForwardOnlyEmits | packages/server/src/make-bridge.js:50-55 | forwarding changes nothing but the outbox, and it emits exactly when it does not throw |
| BridgeRegistry.PacketKeepsValid | packages/server/src/make-bridge.js:45-75 | every event on a bridge socket preserves the invariant |
| BridgeRegistry.DisconnectCloses | packages/server/src/make-bridge.js:57-68 | a started socket leaving closes the first remaining socket and then the chain, and deletes only the bridge's `namespaces` and `sockets` entries; label tables are untouched |
| BridgeRegistry.ChainShape | packages/server/src/make-bridge.js:60-62 | the sockets closed are a non-empty prefix of those remaining; each but the last has started, and the chain stops early only at one that has not |
| BridgeRegistry.PairTeardown | packages/server/src/make-bridge.js:57-68 | in a bridge of two started sockets, either leaving disconnects the other and empties the namespace |
| BridgeRegistry.UnstartedLeaves | packages/server/src/make-bridge.js:45-57 | a socket that leaves before `start` has no handler, so the bridge stays |
| BridgeRegistry.Registry.constructor | packages/server/src/make-bridge.js:3-4 | the registries start empty, and that state is valid |
| BridgeRegistry.Registry.Make | packages/server/src/make-bridge.js:29-31 | the in-place registration agrees with `MakeBridge` |
| BridgeRegistry.Registry.OnConnection | packages/server/src/make-bridge.js:33-43 | the in-place connection handler agrees with `Connection` |
| BridgeRegistry.Registry.OnPacket | packages/server/src/make-bridge.js:45-55 | an event on a bridge socket agrees with `Packet`, including what it throws |
| BridgeRegistry.Registry.OnDisconnect | packages/server/src/make-bridge.js:57-68 | the in-place disconnect, with the nested handlers, agrees with `BridgeDisconnect` |
| BridgeRegistry.Registry.CloseChain | packages/server/src/make-bridge.js:60-62 | the nested handlers close exactly the chain |
| Client.Init | packages/client/src/client.js:46-48 | the constructor starts with no entry in `clients`, `num_connections = 0`, no bridge socket and nothing sent |
| Client.MakeCounts | packages/client/src/client.js:100-106 | every `make` raises the counter by one, even when it then throws, and a throwing call changes nothing else |
| Client.MakeThrows | packages/client/src/client.js:102-106 | `make` throws 'uid is required' exactly for a falsy uid, and otherwise throws about `onresult` exactly when it is not a function |
| Client.MakeFresh | packages/client/src/client.js:100 | the id of a new call is not in use |
| Client.MakeRegisters | packages/client/src/client.js:109-158 | a call that does not throw adds exactly one entry, under a new id, leaves every existing entry as it was, and emits `login(uuid, uid)` |
| Client.SuccessiveIdsDiffer | packages/client/src/client.js:100 | two calls in a row get different ids, whatever the clock says |
| Client.UnknownIdThrows | packages/client/src/client.js:50-63 | a reply naming an id without an entry makes the handler throw a TypeError and change nothing |
| Client.LoggedInRequests | packages/client/src/client.js:152-157 | `logged_in` sends `request_bridge(uuid, uid, peer_uid)` exactly when `peer_uid` is truthy, and otherwise sends nothing |
| Client.InternalErrorReports | packages/client/src/client.js:50-53 | the control socket's `internal_error(uuid, msg)` reaches that operation's `onresult` as an error with `msg` |
| Client.ConnectOpens | packages/client/src/client.js:116-149 | a bridge assignment opens a socket to the base uri, '/' and the bridge number, arms its three listeners, and emits `start(uid)` on it |
| Client.BridgeUrisDiffer | packages/client/src/client.js:117 | different bridge numbers give different bridge URIs |
| Client.EchoReflects | packages/client/src/client.js:145-147 | the echo responder acknowledges with exactly the text it received, once |
| Client.PeerSendsToken | packages/client/src/client.js:133-137 | `peer_connected` sends the token 'testtext' and reports nothing yet; a second `peer_connected` finds no listener |
| Client.EchoAckDecides | packages/client/src/client.js:137-142 | the acknowledgement reports the bridge to its operation exactly when the echoed text equals the token, and only the first acknowledgement counts |
| Client.BridgeErrorReports | packages/client/src/client.js:129-131 | `internal_error(msg)` on a bridge socket reaches that bridge's operation once, as an error with `msg` |
| Client.InitValid | packages/client/src/client.js:47-48 | the initial state satisfies the invariant |
| Client.MakeKeepsValid | packages/client/src/client.js:87-159 | `make` preserves the invariant |
| Client.ConnectKeepsValid | packages/client/src/client.js:116-150 | a bridge assignment preserves the invariant |
| Client.ControlKeepsValid | packages/client/src/client.js:50-63 | `internal_error` and `logged_in` preserve the invariant |
| Client.BridgeErrorKeepsValid | packages/client/src/client.js:129-131 | a bridge socket's `internal_error` preserves the invariant |
| Client.PeerKeepsValid | packages/client/src/client.js:133-143 | `peer_connected` preserves the invariant |
| Client.EchoAckKeepsValid | packages/client/src/client.js:137-142 | the echo acknowledgement preserves the invariant |
| Client.EchoKeepsValid | packages/client/src/client.js:145-147 | the peer's `echo` preserves the invariant |
| Client.ApplyKeepsValid | packages/client/src/client.js:50-159 | every event preserves the invariant |
| Client.RunKeepsValid | packages/client/src/client.js:39-159 | every reachable state is valid: ids come from the counter, every bridge belongs to an operation, and a success is reported only for a finished echo test, to its own operation |
| Client.ReportedOnce | packages/client/src/client.js:137-142 | in a reachable state, a bridge is reported established at most once |
| Client.SocketIoBridgeClient.constructor | packages/client/src/client.js:39-64 | the object starts as `Init(uri)` |
| Client.SocketIoBridgeClient.OnMake | packages/client/src/client.js:87-159 | the in-place `make` agrees with `Make`, including what it throws |
| Client.SocketIoBridgeClient.OnInternalError | packages/client/src/client.js:50-53 | the in-place handler agrees with `InternalError` |
| Client.SocketIoBridgeClient.OnConnectToBridge | packages/client/src/client.js:116-150 | the in-place handler agrees with `ConnectToBridge` |
| Client.SocketIoBridgeClient.OnLoggedIn | packages/client/src/client.js:152-157 | the in-place handler agrees with `LoggedIn` |
| Client.SocketIoBridgeClient.OnBridgeInternalError | packages/client/src/client.js:129-131 | the in-place listener agrees with `BridgeInternalError` |
| Client.SocketIoBridgeClient.OnPeerConnected | packages/client/src/client.js:133-143 | the in-place listener agrees with `PeerConnected` |
| Client.SocketIoBridgeClient.OnEchoAck | packages/client/src/client.js:137-142 | the in-place callback agrees with `EchoAck` |
| Client.SocketIoBridgeClient.OnEcho | packages/client/src/client.js:145-147 | the in-place listener agrees with `Echo` |
| BridgeClient.Settle | packages/client/src/make-bridge.js:40-71 | one `resolve`/`reject` call: a pending promise takes the new outcome and a settled one keeps its own (that a promise settles once over a whole run is `RunKeepsSettled`) |
| BridgeClient.UidOrDefault | packages/client/src/make-bridge.js:29 | `uid` defaults to the generated uuid exactly when it is undefined |
| BridgeClient.MakeFresh | packages/client/src/make-bridge.js:37-38 | the id of a new call is not in use |
| BridgeClient.MakeRegisters | packages/client/src/make-bridge.js:37-64 | a call takes the current counter and raises it by exactly one; it registers the handler and a pending promise under a new id, changes no other entry, and emits `login(localId, uid, peerUid)` with the default uid when none was given |
| BridgeClient.SuccessiveIdsDiffer | packages/client/src/make-bridge.js:37-38 | two calls in a row get different ids, whatever the clock says |
| BridgeClient.LoginAckBranches | packages/client/src/make-bridge.js:64-70 | a 'success' acknowledgement sends `request_bridge(localId, uid, peerUid)` and leaves the promise pending; any other status sends nothing and rejects the promise with that status; a second acknowledgement changes nothing |
| BridgeClient.UidTakenRejects | packages/client/src/make-bridge.js:67-69 | a pending operation acknowledged with 'uid_taken' is rejected with 'uid_taken' |
| BridgeClient.BridgeOpens | packages/client/src/make-bridge.js:42-60 | `onbridge` connects to `${uri}/${bridgeId}`, arms its listeners, and emits `start(uid)` |
| BridgeClient.EchoReflects | packages/client/src/make-bridge.js:47 | the echo responder acknowledges with exactly the text it received, once |
| BridgeClient.PeerSendsToken | packages/client/src/make-bridge.js:48-52 | on `peer_connected` the bridge emits `echo` with its token and remembers that token as sent; the listener is spent, so a second `peer_connected` does nothing; other bridges, clients and promises are unchanged |
| BridgeClient.EchoTestDecides | packages/client/src/make-bridge.js:48-58 | after `peer_connected`, the echo reply succeeds exactly when it equals the token sent; success settles the promise to this bridge, failure leaves every promise unchanged |
| BridgeClient.EchoAckDecides | packages/client/src/make-bridge.js:51-58 | a mismatch throws 'Echo test did not succeed.' and settles nothing; a match calls `onconnection` exactly when it was given, then resolves the promise unless it has settled already |
| BridgeClient.InitValid | packages/client/src/make-bridge.js:37-41 | the initial state satisfies the invariant |
| BridgeClient.MakeKeepsValid | packages/client/src/make-bridge.js:26-71 | `make` preserves the invariant |
| BridgeClient.LoginAckKeepsValid | packages/client/src/make-bridge.js:64-70 | the login acknowledgement preserves the invariant |
| BridgeClient.OnBridgeKeepsValid | packages/client/src/make-bridge.js:42-61 | `onbridge` preserves the invariant |
| BridgeClient.PeerKeepsValid | packages/client/src/make-bridge.js:48-52 | `peer_connected` preserves the invariant |
| BridgeClient.EchoAckKeepsValid | packages/client/src/make-bridge.js:52-58 | the echo acknowledgement preserves the invariant |
| BridgeClient.EchoKeepsValid | packages/client/src/make-bridge.js:47 | the peer's `echo` preserves the invariant |
| BridgeClient.ApplyKeepsValid | packages/client/src/make-bridge.js:26-72 | every event preserves the invariant |
| BridgeClient.RunKeepsValid | packages/client/src/make-bridge.js:26-72 | every reachable state is valid: one promise per handler, ids from the counter, every bridge belonging to a handler |
| BridgeClient.ApplyKeepsSettled | packages/client/src/make-bridge.js:40-71 | a settled promise stays as it is under every event |
| BridgeClient.RunKeepsSettled | packages/client/src/make-bridge.js:40-71 | a settled promise stays as it is for the rest of any run: the first `resolve` or `reject` wins |
| BridgeClient.Client.constructor | packages/client/src/make-bridge.js:37-41 | the object starts as `Init(uri)` |
| BridgeClient.Client.OnMake | packages/client/src/make-bridge.js:26-72 | the in-place `make` returns the new `localId` and agrees with `Make` |
| BridgeClient.Client.OnLoginAck | packages/client/src/make-bridge.js:64-70 | the in-place acknowledgement agrees with `LoginAck` |
| BridgeClient.Client.OnBridgeAssigned | packages/client/src/make-bridge.js:42-61 | the in-place `onbridge` agrees with `OnBridge` |
| BridgeClient.Client.OnPeerConnected | packages/client/src/make-bridge.js:48-52 | the in-place listener agrees with `PeerConnected` |
| BridgeClient.Client.OnEchoAck | packages/client/src/make-bridge.js:52-58 | the in-place callback agrees with `EchoAck`, including what it throws |
| BridgeClient.Client.OnEcho | packages/client/src/make-bridge.js:47 | the in-place listener agrees with `Echo` |

## Left out

- socket.io itself: namespace creation, connection set-up, delivery and acknowledgement wiring. Every outgoing message is an outbox action, and every incoming event is a parameter of a handler.
- The wildcard patch `addWilcardHandler` and the `socketio-wildcard` middleware. Forwarding is modelled as the `'*'` handler re-emitting the event.
- Logging. No `log.*` or `logger.*` call changes state.
- The checks `BridgeServer` makes before it serves (packages/server/src/server.js:45-53: called with `new`, or without a namespace). The model starts from a broker that is already serving.
- The older broker's namespace `error` handler (packages/server/server.js:226-228) only logs.
- The 100 ms delay of the older broker's `setTimeout`. Timers are kept as a queue and fire in order on a timer event, interleaved with other events only as that event is delivered.
- `Date.now()` and `uuid()` are parameters: `stamp`, `generated` and the echo `token`. Only the counter part of an id is relied on for distinctness.
- Argument values are `undefined`, strings, naturals, or opaque objects. Negative and fractional numbers are not modelled, and objects are never looked into. Control-event arguments that the brokers use as dictionary keys (`uuid`, `myid`, `otherid`) are taken to be strings.
- Client.EchoAck: the loose comparison `testtext == echoed` is modelled as equality with the string 'testtext'. An object whose string conversion gives 'testtext' would also pass in JavaScript; the model does not capture that.
- Properties that plain objects inherit (for example `clients_by_id['toString']`) are not modelled. Every dictionary starts empty.
- The wording of thrown messages that come from the JavaScript engine (TypeError, ReferenceError) is approximate. The error paths themselves are modelled.
- BridgeRegistry.MakeBridge: calling `makeBridge` twice for one bridge id registers a second connection handler in JavaScript. The model keeps one handler per bridge id.
- socket.io 2 semantics are assumed in two places. A socket that disconnects has already left `namespace.sockets` when its `disconnect` handler runs. A server-side `disconnect()` runs the closed socket's own handler at once. Where a handler throws, the model departs from socket.io 2, as the next line says.
- What a throw does to the running program. The model returns the exception with the state as the handler left it, and the run goes on taking events. Neither broker catches an exception from its handlers: `addWilcardHandler` (packages/server/src/server.js:64-75, packages/server/server.js:31-42) has no try/catch, so under socket.io 2 the Node process ends. That happens on a third `start`, on a non-string label, and on every control-socket disconnect of packages/server/src/server.js (see Findings). In packages/server/src/make-bridge.js the `'*'` listener (lines 50-55) runs while socket.io handles the incoming packet, and a throw there closes that connection. Its `disconnect` handler (lines 57-68) then tears the bridge down. The model keeps the socket connected and the bridge standing until a disconnect event for that socket is delivered, and nothing forces that event to come next.
- Decimal.Show: it renders every natural with all its digits. JavaScript's `${n}` is exact only below 2^53 and switches to exponent form from 10^21 upwards, so the model agrees with JavaScript for numbers below 2^53 only.
- The object that owns `make` in packages/client/src/make-bridge.js (its `clients`, `num_connections` and control `socket`) is not part of this model. It is assumed to start with no handler and a counter of 0.
- The dispatcher that calls `clients[localId].onbridge` is not part of this model either. A bridge assignment for an id without a handler is taken to change nothing.
- Calling `make()` of packages/client/src/make-bridge.js without an options object (a TypeError on destructuring) is not modelled.
- `reject(new Error(status))` and `onresult(null, new Error(msg))` are recorded with the status or message value, not as an Error object. `onresult(bridgesocket, null)` and `resolve(socket)` are recorded with the bridge socket's index.
- The `disconnect` listeners of the clients' bridge sockets only log.

## Findings

| source | as written | input that shows it | evidently intended | confidence | as-written member | corrected member |
|---|---|---|---|---|---|---|
| packages/server/src/server.js:165-167 | the control socket's `disconnect` handler passes `myid` to `log.debug`, but `myid` is only a parameter of the `login` and `request_bridge` handlers, so evaluating the call raises a ReferenceError | any disconnect of a control socket (`Server.ControlDisconnectThrows`) | log the disconnect and change nothing | not executed; high, as nothing named `myid` is in scope there | Server.ControlDisconnect | Server.ControlDisconnectLogged |
