/** Python's `dict` with string keys: entries keep insertion order, and storing
    under a key already present replaces the value in the key's first position. */
module OrderedDict {
  import opened Wrappers

  datatype Dict<V> = Dict(items: seq<(string, V)>)

  function Empty<V>(): Dict<V> {
    Dict([])
  }

  /** `list(d)`: the keys in insertion order. */
  function Keys<V>(d: Dict<V>): seq<string> {
    seq(|d.items|, i requires 0 <= i < |d.items| => d.items[i].0)
  }

  /** No key is stored twice. */
  predicate Valid<V>(d: Dict<V>) {
    forall i, j :: 0 <= i < j < |d.items| ==> d.items[i].0 != d.items[j].0
  }

  /** Position of key `k` among the entries, if present. */
  function Find<V>(items: seq<(string, V)>, k: string): (r: Option<nat>)
    ensures r.Some? ==> r.value < |items| && items[r.value].0 == k
    ensures r.None? ==> forall j :: 0 <= j < |items| ==> items[j].0 != k
  {
    if items == [] then None
    else if items[|items| - 1].0 == k then Some(|items| - 1)
    else Find(items[..|items| - 1], k)
  }

  /** `d.get(k)`. */
  function Get<V>(d: Dict<V>, k: string): Option<V> {
    match Find(d.items, k)
    case None => None
    case Some(i) => Some(d.items[i].1)
  }

  /** `d.get(k)` finds a value exactly for the keys of `d`. */
  lemma GetKeys<V>(d: Dict<V>, k: string)
    ensures Get(d, k).Some? <==> k in Keys(d)
  {
    match Find(d.items, k)
    case None =>
    case Some(i) => assert Keys(d)[i] == k;
  }

  /** The entry after which the key is not stored again is the one `d.get` finds. */
  lemma {:induction false} GetAt<V>(d: Dict<V>, j: nat)
    requires j < |d.items|
    requires forall i :: j < i < |d.items| ==> d.items[i].0 != d.items[j].0
    ensures Get(d, d.items[j].0) == Some(d.items[j].1)
    decreases |d.items|
  {
    var n := |d.items| - 1;
    if j < n {
      var init := Dict(d.items[..n]);
      assert init.items[j] == d.items[j];
      GetAt(init, j);
    }
  }

  /** A key stored nowhere is not found. */
  lemma GetAbsent<V>(d: Dict<V>, k: string)
    requires forall i :: 0 <= i < |d.items| ==> d.items[i].0 != k
    ensures Get(d, k) == None
  {
  }

  /** `d[k] = v`. */
  function Set<V>(d: Dict<V>, k: string, v: V): (r: Dict<V>)
    requires Valid(d)
    ensures Valid(r)
  {
    match Find(d.items, k)
    case Some(i) => Dict(d.items[i := (k, v)])
    case None => Dict(d.items + [(k, v)])
  }

  /** After `d[k] = v`, `k` maps to `v`, every other key keeps its value, and `k` is
      appended to the keys unless it was already one of them. */
  lemma SetFacts<V>(d: Dict<V>, k: string, v: V)
    requires Valid(d)
    ensures Get(Set(d, k, v), k) == Some(v)
    ensures forall k' :: k' != k ==> Get(Set(d, k, v), k') == Get(d, k')
    ensures k in Keys(d) ==> Keys(Set(d, k, v)) == Keys(d)
    ensures k !in Keys(d) ==> Keys(Set(d, k, v)) == Keys(d) + [k]
  {
    var r := Set(d, k, v);
    match Find(d.items, k)
    case Some(i) =>
      assert Keys(d)[i] == k;
      assert Keys(r) == Keys(d);
      assert forall k' :: Find(r.items, k') == Find(d.items, k') by {
        forall k' ensures Find(r.items, k') == Find(d.items, k') {
          FindUnique(d.items, k');
          FindUnique(r.items, k');
        }
      }
    case None =>
      assert r.items[..|d.items|] == d.items;
      assert Keys(r) == Keys(d) + [k];
  }

  /** In a dictionary without repeated keys, a key's position is its only one. */
  lemma FindUnique<V>(items: seq<(string, V)>, k: string)
    requires forall i, j :: 0 <= i < j < |items| ==> items[i].0 != items[j].0
    ensures forall j :: 0 <= j < |items| && items[j].0 == k ==> Find(items, k) == Some(j)
  {
    if items != [] && items[|items| - 1].0 != k {
      FindUnique(items[..|items| - 1], k);
    }
  }

  /** The keys without repeats, in order of first appearance. */
  function Distinct(xs: seq<string>): (r: seq<string>)
    ensures forall x :: x in r <==> x in xs
    ensures forall i, j :: 0 <= i < j < |r| ==> r[i] != r[j]
  {
    if xs == [] then []
    else
      var d := Distinct(xs[..|xs| - 1]);
      assert forall x :: x in xs <==> x in xs[..|xs| - 1] || x == xs[|xs| - 1] by {
        assert xs == xs[..|xs| - 1] + [xs[|xs| - 1]];
      }
      if xs[|xs| - 1] in d then d else d + [xs[|xs| - 1]]
  }

  /** The dictionary a loop builds by `d[keys[k]] = value(k, keys[k])` for each k in
      order, starting from `{}`. */
  function SetEach<V>(keys: seq<string>, value: (nat, string) -> V): (d: Dict<V>)
    ensures Valid(d)
  {
    if keys == [] then Empty()
    else
      var n := |keys| - 1;
      Set(SetEach(keys[..n], value), keys[n], value(n, keys[n]))
  }

  /** The loop's dictionary holds each key once, in order of first appearance. */
  lemma {:induction false} SetEachKeys<V>(keys: seq<string>, value: (nat, string) -> V)
    ensures Keys(SetEach(keys, value)) == Distinct(keys)
  {
    if keys != [] {
      var n := |keys| - 1;
      SetEachKeys(keys[..n], value);
      SetFacts(SetEach(keys[..n], value), keys[n], value(n, keys[n]));
      assert Keys(SetEach(keys, value)) == Distinct(keys) by {
        GetKeys(SetEach(keys[..n], value), keys[n]);
      }
    }
  }

  /** A key's entry is the value of its last occurrence. */
  lemma {:induction false} SetEachLast<V>(keys: seq<string>, value: (nat, string) -> V, j: nat)
    requires j < |keys|
    requires forall k :: j < k < |keys| ==> keys[k] != keys[j]
    ensures Get(SetEach(keys, value), keys[j]) == Some(value(j, keys[j]))
  {
    var n := |keys| - 1;
    if j < n {
      var init := keys[..n];
      assert init[j] == keys[j] && keys[n] != keys[j];
      SetEachLast(init, value, j);
      SetEachOther(keys, value, keys[j]);
    } else {
      SetFacts(SetEach(keys[..n], value), keys[n], value(n, keys[n]));
    }
  }

  /** The last store leaves the other keys' entries alone. */
  lemma SetEachOther<V>(keys: seq<string>, value: (nat, string) -> V, k: string)
    requires keys != [] && k != keys[|keys| - 1]
    ensures Get(SetEach(keys, value), k) == Get(SetEach(keys[..|keys| - 1], value), k)
  {
    var n := |keys| - 1;
    SetFacts(SetEach(keys[..n], value), keys[n], value(n, keys[n]));
  }
}
