/** The few PHP value and array operations the binding helper relies on:
    a PHP array with string keys is an ordered list of (key, value) entries,
    `isset` looks a key up and rejects null, `unset` drops a key. */
module PhpArrays {

  datatype Option<T> = None | Some(value: T)

  /** A PHP value, as far as the helper tells values apart. A `List` is an
      array with keys 0, 1, 2, ... written as a plain sequence. */
  datatype Value =
    | Null
    | Bool(b: bool)
    | Int(i: int)
    | Str(s: string)
    | List(items: seq<Value>)
    | Object(id: nat)

  /** A PHP array with string keys, in insertion order. */
  type Params = seq<(string, Value)>

  /** The keys of an array, in order (`array_keys`). */
  function Keys(a: Params): (ks: seq<string>)
    ensures |ks| == |a|
    ensures forall i :: 0 <= i < |a| ==> ks[i] == a[i].0
  {
    if a == [] then [] else [a[0].0] + Keys(a[1..])
  }

  /** The value stored under `k`, if any: the first entry with that key. */
  function Lookup(a: Params, k: string): (r: Option<Value>)
    ensures r.None? <==> k !in Keys(a)
    ensures r.Some? ==> (k, r.value) in a
  {
    if a == [] then None
    else if a[0].0 == k then Some(a[0].1)
    else Lookup(a[1..], k)
  }

  /** Entry `i` is the first one of `a` with key `k`. */
  predicate FirstEntry(a: Params, k: string, i: int)
  {
    0 <= i < |a| && a[i].0 == k && forall j :: 0 <= j < i ==> a[j].0 != k
  }

  /** The lookup finds a value exactly when some entry has the key, and the
      value it finds is the one in the first such entry. */
  lemma {:induction false} LookupFindsFirstEntry(a: Params, k: string)
    ensures Lookup(a, k).Some? <==> exists i :: FirstEntry(a, k, i)
    ensures forall i :: FirstEntry(a, k, i) ==> Lookup(a, k) == Some(a[i].1)
  {
    if a != [] {
      if a[0].0 == k {
        assert FirstEntry(a, k, 0);
      } else {
        LookupFindsFirstEntry(a[1..], k);
        forall i | FirstEntry(a, k, i)
          ensures i > 0 && FirstEntry(a[1..], k, i - 1)
        {
          forall j | 0 <= j < i - 1 ensures a[1..][j].0 != k {
            assert a[1..][j] == a[j + 1];
          }
        }
        forall i | FirstEntry(a[1..], k, i)
          ensures FirstEntry(a, k, i + 1)
        {
          forall j | 0 <= j < i + 1 ensures a[j].0 != k {
            if j > 0 {
              assert a[j] == a[1..][j - 1];
            }
          }
        }
      }
    }
  }

  /** PHP `isset($a[$k])`: the key is present and its value is not null. */
  predicate IsSet(a: Params, k: string): (b: bool)
    ensures b <==> exists i :: FirstEntry(a, k, i) && a[i].1 != Null
    ensures b ==> k in Keys(a)
    ensures b ==> exists v :: v != Null && (k, v) in a
    ensures (forall v :: (k, v) in a ==> v == Null) ==> !b
  {
    LookupFindsFirstEntry(a, k);
    Lookup(a, k).Some? && Lookup(a, k).value != Null
  }

  /** PHP `unset($a[$k])`: drop the entry with key `k`, keep the rest in order. */
  function Unset(a: Params, k: string): (r: Params)
    ensures k !in Keys(r)
    ensures |r| <= |a|
    ensures |r| < |a| <==> k in Keys(a)
  {
    if a == [] then []
    else if a[0].0 == k then Unset(a[1..], k)
    else
      var rest := Unset(a[1..], k);
      assert ([a[0]] + rest)[1..] == rest;
      [a[0]] + rest
  }

  /** After `unset` the key is gone and every other key keeps its value. */
  lemma {:induction false} UnsetLookup(a: Params, k: string, m: string)
    ensures Lookup(Unset(a, k), m) == if m == k then None else Lookup(a, m)
  {
    if a != [] {
      UnsetLookup(a[1..], k, m);
      if a[0].0 != k {
        assert ([a[0]] + Unset(a[1..], k))[1..] == Unset(a[1..], k);
      }
    }
  }

  /** The entries of `a` whose key is not in `names`, in their original order. */
  function Without(a: Params, names: set<string>): (r: Params)
    ensures |r| <= |a|
  {
    if a == [] then []
    else if a[0].0 in names then Without(a[1..], names)
    else [a[0]] + Without(a[1..], names)
  }

  /** Dropping `names` removes exactly those keys and keeps every other
      key's value. */
  lemma {:induction false} WithoutLookup(a: Params, names: set<string>, m: string)
    ensures Lookup(Without(a, names), m) == if m in names then None else Lookup(a, m)
  {
    if a != [] {
      WithoutLookup(a[1..], names, m);
      if a[0].0 !in names {
        assert ([a[0]] + Without(a[1..], names))[1..] == Without(a[1..], names);
      }
    }
  }

  /** The keys left after dropping `names` are the original keys not in `names`. */
  lemma {:induction false} WithoutKeys(a: Params, names: set<string>)
    ensures forall k :: k in Keys(Without(a, names)) <==> k in Keys(a) && k !in names
  {
    forall k
      ensures k in Keys(Without(a, names)) <==> k in Keys(a) && k !in names
    {
      WithoutLookup(a, names, k);
    }
  }

  /** Dropping names that occur nowhere in `a` changes nothing. */
  lemma {:induction false} WithoutAbsent(a: Params, names: set<string>)
    requires forall k :: k in Keys(a) ==> k !in names
    ensures Without(a, names) == a
  {
    if a != [] {
      assert a[0].0 in Keys(a);
      assert forall k :: k in Keys(a[1..]) ==> k in Keys(a);
      WithoutAbsent(a[1..], names);
    }
  }

  /** Unsetting one key and then dropping a set of keys drops both at once. */
  lemma {:induction false} UnsetThenWithout(a: Params, k: string, names: set<string>)
    ensures Without(Unset(a, k), names) == Without(a, {k} + names)
  {
    if a != [] {
      UnsetThenWithout(a[1..], k, names);
      if a[0].0 != k {
        assert ([a[0]] + Unset(a[1..], k))[1..] == Unset(a[1..], k);
      }
    }
  }
}
