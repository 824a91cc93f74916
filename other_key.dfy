/** `getOtherKeyVal`: given the label table of a bridge and one label, find
    the other participant. Two versions exist: the checked one shared by
    packages/server/src/server.js and packages/server/server.js (the two
    bodies are the same), and the unchecked one of
    packages/server/src/make-bridge.js. */
module OtherKey {
  import opened Wrappers
  import opened JsObject
  import opened Decimal
  import opened Transport

  /** The returned pair `[otherkey, otherval]`: `None` is `undefined`. */
  datatype Other<V> = Other(key: Option<string>, val: Option<V>)

  /** `keys.indexOf(key)`: the first position of `x`, or -1. */
  function IndexOf(s: seq<string>, x: string): (r: int)
    ensures -1 <= r < |s|
    ensures r >= 0 ==> s[r] == x && x !in s[..r]
    ensures r == -1 <==> x !in s
  {
    if s == [] then -1
    else if s[0] == x then 0
    else var i := IndexOf(s[1..], x); if i == -1 then -1 else i + 1
  }

  /** `${keys}`: an array rendered as its elements joined by commas. */
  function Join(s: seq<string>): string {
    if s == [] then "" else if |s| == 1 then s[0] else s[0] + "," + Join(s[1..])
  }

  const NOT_FOUND_PREFIX := "getOtherKeyVal(): Incorrect usage. key "

  /** `keys.indexOf(key)` for a label of any type: `indexOf` compares with
      `===`, so only a string label can be found among the keys. */
  function LabelIndex(keys: seq<string>, key: Value): (r: int)
    ensures -1 <= r < |keys|
    ensures r >= 0 ==> key.Str? && keys[r] == key.s && key.s !in keys[..r]
    ensures r == -1 <==> !Listed(keys, key)
  {
    if key.Str? then IndexOf(keys, key.s) else -1
  }

  /** `key` is one of `keys` under `===`. */
  predicate Listed(keys: seq<string>, key: Value) {
    key.Str? && key.s in keys
  }

  /** `otherkey ? obj[otherkey] : undefined` - an empty string is falsy. */
  function ValueOf<V>(obj: Dict<V>, otherkey: Option<string>): Option<V> {
    if otherkey.Some? && otherkey.value != "" then Get(obj, otherkey.value) else None
  }

  /** The checked version: throws unless the table has one or two keys and
      `key` is one of them. */
  function GetOtherKeyVal<V>(obj: Dict<V>, key: Value): (r: Result<Other<V>>)
    ensures r.Ok? <==> (|obj| == 1 || |obj| == 2) && Listed(Keys(obj), key)
    ensures r.Ok? && |obj| == 1 ==> r.value == Other(None, None)
    ensures r.Ok? && |obj| == 2 && DistinctKeys(obj) ==>
      && r.value.key.Some? && r.value.key.value != key.s && r.value.key.value in Keys(obj)
      && (r.value.key.value != "" ==> r.value.val.Some? && (r.value.key.value, r.value.val.value) in obj)
      && (r.value.key.value == "" ==> r.value.val.None?)
  {
    var keys := Keys(obj);
    if |keys| != 1 && |keys| != 2 then
      Err("getOtherKeyVal(): Incorrect usage. There can ever be only 1 or 2 keys, but have "
          + Show(|keys|) + " keys: " + Join(keys))
    else
      var idx := LabelIndex(keys, key);
      if idx != 0 && idx != 1 then
        Err(NOT_FOUND_PREFIX + PropertyKey(key) + " must always be found in the object")
      else
        var otherkey := if idx == 0 then (if |keys| > 1 then Some(keys[1]) else None) else Some(keys[0]);
        Ok(Other(otherkey, ValueOf(obj, otherkey)))
  }

  /** The unchecked version of packages/server/src/make-bridge.js: never
      throws; a missing `key` yields the first key. */
  function GetOtherKeyValLoose<V>(obj: Dict<V>, key: Value): (r: Other<V>)
    ensures obj == [] ==> r == Other(None, None)
    ensures |obj| == 1 && Listed(Keys(obj), key) ==> r == Other(None, None)
    ensures |obj| == 2 && DistinctKeys(obj) && Listed(Keys(obj), key) ==>
      r.key.Some? && r.key.value != key.s && r.key.value in Keys(obj)
    ensures obj != [] && !Listed(Keys(obj), key) ==> r.key == Some(obj[0].0)
    ensures r.key.Some? && r.key.value != "" ==> r.val.Some? && (r.key.value, r.val.value) in obj
  {
    var keys := Keys(obj);
    var idx := LabelIndex(keys, key);
    var otherkey :=
      if idx == 0 then (if |keys| > 1 then Some(keys[1]) else None)
      else if |keys| > 0 then Some(keys[0]) else None;
    Other(otherkey, ValueOf(obj, otherkey))
  }
}
