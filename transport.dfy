/** What the model keeps of the socket.io transport: sockets as opaque ids,
    event arguments as opaque values, and every `emit`, server-side
    `disconnect()`, client-side connect and acknowledgement as an action
    appended to an outbox. */
module Transport {
  import opened Decimal

  type SocketId = nat

  /** An event argument. `Opaque` stands for objects and acknowledgement
      callbacks, which the broker never looks into. */
  datatype Value = Undefined | Str(s: string) | Num(n: nat) | Opaque(id: nat)

  datatype Action =
    | Emit(to: SocketId, event: string, args: seq<Value>)  // socket.emit(event, ...args)
    | Disconnect(sock: SocketId)                           // socket.disconnect() on the broker
    | Open(sock: SocketId, uri: string)                    // IO(uri): a new client socket
    | Reply(sock: SocketId, args: seq<Value>)              // an acknowledgement callback invoked

  /** The first argument of an event, `undefined` when there is none. */
  function FirstArg(args: seq<Value>): (v: Value)
    ensures args == [] ==> v == Undefined
    ensures args != [] ==> v == args[0]
  {
    if args == [] then Undefined else args[0]
  }

  /** JavaScript truthiness: `undefined`, the empty string and zero are
      falsy, every object is truthy. */
  predicate Truthy(v: Value) {
    match v
    case Undefined => false
    case Str(s) => s != ""
    case Num(n) => n != 0
    case Opaque(_) => true
  }

  /** The string JavaScript uses as property key for a value (`obj[v]`).
      Objects are rendered as "[object Object]". */
  function PropertyKey(v: Value): string {
    match v
    case Undefined => "undefined"
    case Str(s) => s
    case Num(n) => Show(n)
    case Opaque(_) => "[object Object]"
  }

  /** Appending in two steps appends the concatenation; stated once so that
      proofs about growing outboxes need not rediscover it. */
  lemma Regroup(a: seq<Action>, b: seq<Action>, c: seq<Action>)
    ensures (a + b) + c == a + (b + c)
  {
  }

  /** `xs` without `x`. */
  function Without(xs: seq<SocketId>, x: SocketId): (r: seq<SocketId>)
    ensures forall y :: y in r <==> y in xs && y != x
  {
    if xs == [] then [] else (if xs[0] == x then [] else [xs[0]]) + Without(xs[1..], x)
  }

  /** The sockets listed in `xs`. */
  function Members(xs: seq<SocketId>): (r: set<SocketId>)
    ensures forall x :: x in r <==> x in xs
  {
    set x | x in xs
  }

  /** `sock.disconnect()` for each socket of `xs`, in order. */
  function DisconnectAll(xs: seq<SocketId>): (r: seq<Action>)
    ensures |r| == |xs|
    ensures forall i :: 0 <= i < |xs| ==> r[i] == Disconnect(xs[i])
  {
    seq(|xs|, i requires 0 <= i < |xs| => Disconnect(xs[i]))
  }

  /** A subset of bridge numbers is no larger than the set. */
  lemma SubsetCard(a: set<nat>, b: set<nat>)
    requires a <= b
    ensures |a| <= |b|
  {
    assert b == a + (b - a);
  }
}
