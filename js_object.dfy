/** Plain JavaScript objects used as dictionaries; their keys are strings.
    `Object.keys` lists the array-index keys ("0", "1", ..., "4294967294" in
    canonical form) first, in ascending numeric order, and then the other
    keys in insertion order; assigning to an existing key keeps its position
    and `delete` removes it (section 10.1.11.1, OrdinaryOwnPropertyKeys, of
    ECMA-262). A dictionary is modelled as the list of its entries in that
    order, so every walk over `Object.keys` is a walk over the list. */
module JsObject {
  import opened Wrappers
  import opened Decimal

  type Dict<V> = seq<(string, V)>

  /** `Object.keys(d)`. */
  function Keys<V>(d: Dict<V>): (ks: seq<string>)
    ensures |ks| == |d|
    ensures forall i :: 0 <= i < |d| ==> ks[i] == d[i].0
  {
    if d == [] then [] else [d[0].0] + Keys(d[1..])
  }

  /** Every key occurs once, as in any JavaScript object. */
  ghost predicate DistinctKeys<V>(d: Dict<V>) {
    forall i, j :: 0 <= i < j < |d| ==> d[i].0 != d[j].0
  }

  /** `d[k]`, with `undefined` as `None`. */
  function Get<V>(d: Dict<V>, k: string): (r: Option<V>)
    ensures r.Some? <==> k in Keys(d)
    ensures r.Some? ==> (k, r.value) in d
  {
    if d == [] then None else if d[0].0 == k then Some(d[0].1) else Get(d[1..], k)
  }

  /** The largest array index, 2^32 - 2. */
  const MAX_INDEX: nat := 4294967294

  /** The array index a property key denotes, if it is one: a canonical
      decimal rendering of a natural no larger than `MAX_INDEX`. */
  function ArrayIndex(k: string): (r: Option<nat>)
    ensures r.Some? ==> r.value <= MAX_INDEX && Show(r.value) == k
  {
    if Canonical(k) && DigitsValue(k) <= MAX_INDEX then
      ShowDigitsValue(k);
      Some(DigitsValue(k))
    else None
  }

  /** A key is an array index exactly when it renders one. */
  lemma ArrayIndexIff(k: string, n: nat)
    ensures ArrayIndex(k) == Some(n) <==> n <= MAX_INDEX && Show(n) == k
  {
    ShowCanonical(n);
  }

  /** `k` is listed before `j` by `Object.keys` whenever both are keys. */
  predicate Precedes(k: string, j: string) {
    ArrayIndex(k).Some? && (ArrayIndex(j).None? || ArrayIndex(k).value < ArrayIndex(j).value)
  }

  /** Where a new key `k` goes: before the first key it precedes. */
  function Slot<V>(d: Dict<V>, k: string): (p: nat)
    ensures p <= |d|
    ensures forall i :: 0 <= i < p ==> !Precedes(k, d[i].0)
    ensures p < |d| ==> Precedes(k, d[p].0)
    ensures ArrayIndex(k).None? ==> p == |d|
  {
    if d == [] || Precedes(k, d[0].0) then 0 else 1 + Slot(d[1..], k)
  }

  /** The entries as `Object.keys` lists them: array indices ascending,
      before every other key. */
  ghost predicate Ordered<V>(d: Dict<V>) {
    forall i, j :: 0 <= i < j < |d| ==> !Precedes(d[j].0, d[i].0)
  }

  /** `d[k] = v`: an existing key keeps its place, a new one goes into
      its slot. */
  function Put<V>(d: Dict<V>, k: string, v: V): (r: Dict<V>)
    ensures Get(r, k) == Some(v)
    ensures forall k' :: k' != k ==> Get(r, k') == Get(d, k')
    ensures forall e :: e in r ==> e in d || e == (k, v)
    ensures |r| == if k in Keys(d) then |d| else |d| + 1
    ensures d == [] ==> r == [(k, v)]
  {
    if d == [] then [(k, v)]
    else if d[0].0 == k then [(k, v)] + d[1..]
    else if k !in Keys(d) && Precedes(k, d[0].0) then [(k, v)] + d
    else [d[0]] + Put(d[1..], k, v)
  }

  /** Assigning to an existing key changes no key. */
  lemma {:induction false} PutExisting<V>(d: Dict<V>, k: string, v: V)
    requires k in Keys(d)
    ensures forall i :: 0 <= i < |d| ==> Put(d, k, v)[i].0 == d[i].0
  {
    if d[0].0 != k {
      PutExisting(d[1..], k, v);
      assert Put(d, k, v) == [d[0]] + Put(d[1..], k, v);
    }
  }

  /** A new key is inserted at its slot. */
  lemma {:induction false} PutNew<V>(d: Dict<V>, k: string, v: V)
    requires k !in Keys(d)
    ensures Put(d, k, v) == d[..Slot(d, k)] + [(k, v)] + d[Slot(d, k)..]
  {
    if d == [] || Precedes(k, d[0].0) {
      assert d[..0] == [] && d[0..] == d;
    } else {
      var p := Slot(d[1..], k);
      assert k !in Keys(d[1..]) by {
        assert Keys(d) == [d[0].0] + Keys(d[1..]);
      }
      PutNew(d[1..], k, v);
      SlotStep(d, k, v, p);
    }
  }

  lemma SlotStep<V>(d: Dict<V>, k: string, v: V, p: nat)
    requires d != [] && !Precedes(k, d[0].0) && k !in Keys(d) && p == Slot(d[1..], k)
    requires Put(d[1..], k, v) == d[1..][..p] + [(k, v)] + d[1..][p..]
    ensures Put(d, k, v) == d[..Slot(d, k)] + [(k, v)] + d[Slot(d, k)..]
  {
    assert d[0].0 != k by {
      assert Keys(d)[0] == d[0].0;
    }
    PutStep(d, k, v);
    ConsSplit(d, p, (k, v));
  }

  lemma PutStep<V>(d: Dict<V>, k: string, v: V)
    requires d != [] && d[0].0 != k && !Precedes(k, d[0].0)
    ensures Put(d, k, v) == [d[0]] + Put(d[1..], k, v)
    ensures Slot(d, k) == Slot(d[1..], k) + 1
  {
  }

  lemma ConsSplit<T>(d: seq<T>, p: nat, e: T)
    requires d != [] && p <= |d| - 1
    ensures [d[0]] + (d[1..][..p] + [e] + d[1..][p..]) == d[..p + 1] + [e] + d[p + 1..]
  {
    assert d[..p + 1] == [d[0]] + d[1..][..p];
    assert d[p + 1..] == d[1..][p..];
  }

  /** `delete d[k]`. */
  function Delete<V>(d: Dict<V>, k: string): (r: Dict<V>)
    ensures Get(r, k) == None
    ensures forall k' :: k' != k ==> Get(r, k') == Get(d, k')
    ensures forall e :: e in r ==> e in d && e.0 != k
    ensures k !in Keys(d) ==> r == d
  {
    if d == [] then []
    else if d[0].0 == k then Delete(d[1..], k)
    else [d[0]] + Delete(d[1..], k)
  }

  lemma KeysConcat<V>(a: Dict<V>, b: Dict<V>)
    ensures Keys(a + b) == Keys(a) + Keys(b)
  {
    assert forall i :: 0 <= i < |a + b| ==> Keys(a + b)[i] == (Keys(a) + Keys(b))[i];
  }

  lemma KeysTake<V>(d: Dict<V>, p: nat)
    requires p <= |d|
    ensures Keys(d[..p]) == Keys(d)[..p]
  {
    assert forall i :: 0 <= i < p ==> Keys(d[..p])[i] == d[i].0;
  }

  lemma KeysDrop<V>(d: Dict<V>, p: nat)
    requires p <= |d|
    ensures Keys(d[p..]) == Keys(d)[p..]
  {
    assert forall i :: 0 <= i < |d| - p ==> Keys(d[p..])[i] == d[p + i].0;
  }

  /** The keys after inserting an entry at position `p`. */
  lemma InsertKeys<V>(d: Dict<V>, p: nat, e: (string, V))
    requires p <= |d|
    ensures Keys(d[..p] + [e] + d[p..]) == Keys(d)[..p] + [e.0] + Keys(d)[p..]
  {
    KeysConcat(d[..p] + [e], d[p..]);
    KeysConcat(d[..p], [e]);
    KeysTake(d, p);
    KeysDrop(d, p);
  }

  /** Assigning to an existing key keeps the key order; a new key goes
      into its slot, which is the end unless it is an array index. */
  lemma PutKeys<V>(d: Dict<V>, k: string, v: V)
    ensures k in Keys(d) ==> Keys(Put(d, k, v)) == Keys(d)
    ensures k !in Keys(d) ==> Keys(Put(d, k, v)) == Keys(d)[..Slot(d, k)] + [k] + Keys(d)[Slot(d, k)..]
    ensures k !in Keys(d) && ArrayIndex(k).None? ==> Keys(Put(d, k, v)) == Keys(d) + [k]
  {
    if k in Keys(d) {
      PutExisting(d, k, v);
      var r := Put(d, k, v);
      assert forall i :: 0 <= i < |d| ==> Keys(r)[i] == Keys(d)[i];
    } else {
      PutNew(d, k, v);
      var p := Slot(d, k);
      InsertKeys(d, p, (k, v));
      if ArrayIndex(k).None? {
        assert Keys(d)[..p] == Keys(d) && Keys(d)[p..] == [];
      }
    }
  }

  /** Where each entry sits after inserting `e` at position `p`. */
  lemma InsertAt<V>(d: Dict<V>, p: nat, e: (string, V))
    requires p <= |d|
    ensures var r := d[..p] + [e] + d[p..];
      && |r| == |d| + 1 && r[p] == e
      && (forall i :: 0 <= i < p ==> r[i] == d[i])
      && (forall i :: p < i < |r| ==> r[i] == d[i - 1])
  {
  }

  lemma InsertKeepsDistinct<V>(d: Dict<V>, p: nat, e: (string, V))
    requires p <= |d| && DistinctKeys(d) && e.0 !in Keys(d)
    ensures DistinctKeys(d[..p] + [e] + d[p..])
  {
    var r := d[..p] + [e] + d[p..];
    InsertAt(d, p, e);
    assert forall i :: 0 <= i < |d| ==> d[i].0 != e.0 by {
      assert forall i :: 0 <= i < |d| ==> Keys(d)[i] == d[i].0;
    }
    forall i, j | 0 <= i < j < |r| ensures r[i].0 != r[j].0 {
      if j <= p {
      } else if i < p {
        assert r[j] == d[j - 1];
      } else if i > p {
        assert r[i] == d[i - 1] && r[j] == d[j - 1];
      }
    }
  }

  lemma PutKeepsDistinct<V>(d: Dict<V>, k: string, v: V)
    requires DistinctKeys(d)
    ensures DistinctKeys(Put(d, k, v))
  {
    if k in Keys(d) {
      PutExisting(d, k, v);
    } else {
      PutNew(d, k, v);
      InsertKeepsDistinct(d, Slot(d, k), (k, v));
    }
  }

  /** Inserting a key before the first key it precedes keeps the order. */
  lemma InsertKeepsOrdered<V>(d: Dict<V>, p: nat, e: (string, V))
    requires p <= |d| && Ordered(d)
    requires forall i :: 0 <= i < p ==> !Precedes(e.0, d[i].0)
    requires p < |d| ==> Precedes(e.0, d[p].0)
    ensures Ordered(d[..p] + [e] + d[p..])
  {
    var r := d[..p] + [e] + d[p..];
    InsertAt(d, p, e);
    forall i, j | 0 <= i < j < |r| ensures !Precedes(r[j].0, r[i].0) {
      if j <= p {
      } else if i < p {
        assert r[j] == d[j - 1];
      } else if i == p {
        assert r[j] == d[j - 1];
        assert !Precedes(d[j - 1].0, d[p].0);
      } else {
        assert r[i] == d[i - 1] && r[j] == d[j - 1];
      }
    }
  }

  /** Assignment keeps the dictionary in `Object.keys` order. */
  lemma PutKeepsOrdered<V>(d: Dict<V>, k: string, v: V)
    requires Ordered(d)
    ensures Ordered(Put(d, k, v))
  {
    if k in Keys(d) {
      PutExisting(d, k, v);
    } else {
      PutNew(d, k, v);
      InsertKeepsOrdered(d, Slot(d, k), (k, v));
    }
  }

  /** An object filled with "10" and then "9" lists "9" first, as
      `Object.keys` does. */
  lemma IndexKeysAscend<V>(x: V, y: V)
    ensures Put(Put([], "10", x), "9", y) == [("9", y), ("10", x)]
  {
    assert Show(10) == "10" && Show(9) == "9";
    ArrayIndexIff("10", 10);
    ArrayIndexIff("9", 9);
    assert Precedes("9", "10");
    var d := Put([], "10", x);
    assert d == [("10", x)];
    assert "9" !in Keys(d);
    assert Put(d, "9", y) == [("9", y), ("10", x)];
  }

  /** An array index goes before every other key. */
  lemma IndexKeysFirst<V>(x: V, y: V)
    ensures Put(Put([], "b", x), "5", y) == [("5", y), ("b", x)]
  {
    assert Show(5) == "5";
    ArrayIndexIff("5", 5);
    assert ArrayIndex("b").None?;
    var d := Put([], "b", x);
    assert d == [("b", x)];
    assert "5" !in Keys(d);
    assert Put(d, "5", y) == [("5", y), ("b", x)];
  }

  /** Other keys keep their insertion order. */
  lemma OtherKeysInOrder<V>(x: V, y: V)
    ensures Put(Put([], "b", x), "a", y) == [("b", x), ("a", y)]
  {
    assert ArrayIndex("a").None?;
    var d := Put([], "b", x);
    assert d == [("b", x)];
    PutNew(d, "a", y);
  }

  lemma {:induction false} DeleteKeepsDistinct<V>(d: Dict<V>, k: string)
    requires DistinctKeys(d)
    ensures DistinctKeys(Delete(d, k))
    decreases |d|
  {
    if d != [] {
      DeleteKeepsDistinct(d[1..], k);
      if d[0].0 != k {
        var r := Delete(d[1..], k);
        assert forall e :: e in r ==> e.0 != d[0].0;
      }
    }
  }

  /** An entry that no later key precedes can go in front. */
  lemma ConsKeepsOrdered<V>(e: (string, V), r: Dict<V>)
    requires Ordered(r)
    requires forall i :: 0 <= i < |r| ==> !Precedes(r[i].0, e.0)
    ensures Ordered([e] + r)
  {
    var x := [e] + r;
    forall i, j | 0 <= i < j < |x| ensures !Precedes(x[j].0, x[i].0) {
      assert x[j] == r[j - 1];
      if i > 0 {
        assert x[i] == r[i - 1];
      }
    }
  }

  /** `delete` keeps the dictionary in `Object.keys` order. */
  lemma {:induction false} DeleteKeepsOrdered<V>(d: Dict<V>, k: string)
    requires Ordered(d)
    ensures Ordered(Delete(d, k))
    decreases |d|
  {
    if d != [] {
      assert Ordered(d[1..]) by {
        forall i, j | 0 <= i < j < |d[1..]| ensures !Precedes(d[1..][j].0, d[1..][i].0) {
          assert d[1..][i] == d[i + 1] && d[1..][j] == d[j + 1];
        }
      }
      DeleteKeepsOrdered(d[1..], k);
      if d[0].0 != k {
        var r := Delete(d[1..], k);
        forall i | 0 <= i < |r| ensures !Precedes(r[i].0, d[0].0) {
          assert r[i] in d[1..];
          var m :| 0 <= m < |d[1..]| && d[1..][m] == r[i];
          assert d[m + 1] == r[i];
        }
        ConsKeepsOrdered(d[0], r);
      }
    }
  }

  /** In a dictionary with distinct keys, an entry's key reads its value. */
  lemma GetEntry<V>(d: Dict<V>, k: string, v: V)
    requires DistinctKeys(d) && (k, v) in d
    ensures Get(d, k) == Some(v)
  {
    var i :| 0 <= i < |d| && d[i] == (k, v);
    var j :| 0 <= j < |d| && d[j] == (k, Get(d, k).value);
    assert i == j;
  }

  /** The keys after the first are the keys of the rest. */
  lemma KeysTail<V>(d: Dict<V>)
    requires d != []
    ensures Keys(d)[0] == d[0].0 && Keys(d)[1..] == Keys(d[1..])
  {
  }

  /** Deleting the first key leaves exactly the other entries. */
  lemma DeleteFirst<V>(d: Dict<V>)
    requires d != [] && DistinctKeys(d)
    ensures Delete(d, d[0].0) == d[1..]
    ensures DistinctKeys(d[1..])
  {
    assert d[0].0 !in Keys(d[1..]);
  }

  // ---------------------------------------------------------------------------
  // Objects of objects (`waiting_conns[id][otherid]`)

  /** `w` with the table of `id`, if there is one, emptied. */
  function Emptied<V>(w: map<string, Dict<V>>, id: string): (r: map<string, Dict<V>>)
    ensures r.Keys == w.Keys
    ensures forall k :: k in r ==> r[k] == if k == id then [] else w[k]
  {
    if id in w then w[id := []] else w
  }

  /** The tables that hold an entry; an emptied table counts as absent. */
  function LiveWaiting<V>(w: map<string, Dict<V>>): (r: map<string, Dict<V>>)
    ensures forall id :: id in r <==> id in w && w[id] != []
  {
    map id | id in w && w[id] != [] :: w[id]
  }

  lemma LiveWaitingIgnoresEmpty<V>(w: map<string, Dict<V>>, b: string)
    requires b !in w || w[b] == []
    ensures LiveWaiting(w[b := []]) == LiveWaiting(w)
  {
  }
}
