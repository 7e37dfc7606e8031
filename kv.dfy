/** The key-value store behind the handlers: a map from string keys to JSON values,
    read with `get`, written with `set` and scanned with `getByPrefix`. The store's
    own implementation is not part of this model; its scan order is unspecified, so
    the scan below enumerates the matching keys in an arbitrary order. */
module Kv {
  import opened Wrappers
  import opened Json

  type Store = map<string, Json>

  /** `kv.get(key)`: the stored value, or `undefined`. */
  function Get(s: Store, key: string): Option<Json> {
    if key in s then Some(s[key]) else None
  }

  predicate HasPrefix(key: string, prefix: string) {
    |prefix| <= |key| && key[..|prefix|] == prefix
  }

  /** The keys a prefix scan visits. */
  function PrefixKeys(s: Store, prefix: string): set<string> {
    set k | k in s.Keys && HasPrefix(k, prefix)
  }

  predicate Distinct<T(==)>(xs: seq<T>) {
    forall i, j :: 0 <= i < j < |xs| ==> xs[i] != xs[j]
  }

  /** `keys` lists every key of `s` that starts with `prefix`, each exactly once, and
      `values[i]` is the value stored under `keys[i]`: one possible answer of a scan. */
  ghost predicate IsScan(s: Store, prefix: string, keys: seq<string>, values: seq<Json>) {
    && Distinct(keys)
    && (forall k :: k in keys <==> k in s && HasPrefix(k, prefix))
    && |values| == |keys|
    && (forall i :: 0 <= i < |keys| ==> keys[i] in s && values[i] == s[keys[i]])
  }

  /** `kv.getByPrefix(prefix)`: the values of every key starting with `prefix`, each
      exactly once, in an order chosen by the store. `keys` names the key each value
      was read from; the handlers use only `values`. */
  method GetByPrefix(s: Store, prefix: string) returns (keys: seq<string>, values: seq<Json>)
    ensures IsScan(s, prefix, keys, values)
    ensures |values| == |PrefixKeys(s, prefix)|
  {
    var rest := PrefixKeys(s, prefix);
    keys, values := [], [];
    while rest != {}
      invariant forall k :: k in rest <==> k in s && HasPrefix(k, prefix) && k !in keys
      invariant forall k :: k in keys ==> k in s && HasPrefix(k, prefix)
      invariant Distinct(keys)
      invariant |values| == |keys|
      invariant rest <= PrefixKeys(s, prefix) && |keys| + |rest| == |PrefixKeys(s, prefix)|
      invariant forall i :: 0 <= i < |keys| ==> keys[i] in s && values[i] == s[keys[i]]
      decreases |rest|
    {
      var k :| k in rest;
      keys, values := keys + [k], values + [s[k]];
      rest := rest - {k};
    }
  }

  /** A prefix scan sees exactly the keys of the map that carry the prefix; its values,
      counted with multiplicity, are the values stored under those keys. */
  lemma {:induction false} ScanValues(s: Store, prefix: string, keys: seq<string>, values: seq<Json>, v: Json)
    requires IsScan(s, prefix, keys, values)
    ensures v in values <==> exists k :: k in s && HasPrefix(k, prefix) && s[k] == v
  {
    if v in values {
      var i :| 0 <= i < |values| && values[i] == v;
      assert keys[i] in s && HasPrefix(keys[i], prefix) && s[keys[i]] == v;
    }
    if exists k :: k in s && HasPrefix(k, prefix) && s[k] == v {
      var k :| k in s && HasPrefix(k, prefix) && s[k] == v;
      var i :| 0 <= i < |keys| && keys[i] == k;
      assert values[i] == v;
    }
  }

  /** Every store has a scan: the ghost outputs of a handler that is refused before it
      scans name one, so that its answer can be stated as for any other. */
  lemma SomeScan(s: Store, prefix: string) returns (keys: seq<string>, values: seq<Json>)
    ensures IsScan(s, prefix, keys, values)
  {
    keys := Enumerate(PrefixKeys(s, prefix));
    assert forall i :: 0 <= i < |keys| ==> keys[i] in PrefixKeys(s, prefix);
    values := seq(|keys|, i requires 0 <= i < |keys| => s[keys[i]]);
  }

  /** The elements of a finite set, each once, in some order. */
  ghost function Enumerate(ks: set<string>): (r: seq<string>)
    ensures Distinct(r) && forall k :: k in r <==> k in ks
  {
    if ks == {} then []
    else
      var k :| k in ks;
      [k] + Enumerate(ks - {k})
  }
}
