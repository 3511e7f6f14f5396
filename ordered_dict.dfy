/**
 * Python's `dict` with string keys: a map plus the order in which keys were first inserted.
 * Assigning to a key that is already present replaces its value and keeps its position.
 */
module OrderedDict {
  datatype Dict<V> = Dict(keys: seq<string>, vals: map<string, V>)

  /** Keys are distinct and are exactly the keys of the map. */
  ghost predicate Valid<V>(d: Dict<V>) {
    && (forall i, j :: 0 <= i < j < |d.keys| ==> d.keys[i] != d.keys[j])
    && (forall k :: k in d.keys <==> k in d.vals)
  }

  function Empty<V>(): (d: Dict<V>)
    ensures Valid(d) && d.keys == [] && d.vals == map[]
  {
    Dict([], map[])
  }

  /** `d[k] = v`: a new key goes to the end, an existing key keeps its place. */
  function Put<V>(d: Dict<V>, k: string, v: V): (r: Dict<V>)
    requires Valid(d)
    ensures Valid(r)
    ensures r.vals == d.vals[k := v]
    ensures k in d.vals ==> r.keys == d.keys
    ensures k !in d.vals ==> r.keys == d.keys + [k]
  {
    if k in d.vals then Dict(d.keys, d.vals[k := v]) else Dict(d.keys + [k], d.vals[k := v])
  }

  /** `list(d.items())`. */
  function Items<V>(d: Dict<V>): (r: seq<(string, V)>)
    requires Valid(d)
    ensures |r| == |d.keys|
    ensures forall i :: 0 <= i < |r| ==> r[i].0 == d.keys[i] && r[i].0 in d.vals && r[i].1 == d.vals[r[i].0]
  {
    seq(|d.keys|, i requires 0 <= i < |d.keys| => (d.keys[i], d.vals[d.keys[i]]))
  }

  /** `e` extends `d`: all of d's keys come first, in the same order, with the same values. */
  ghost predicate Extends<V>(d: Dict<V>, e: Dict<V>) {
    && |d.keys| <= |e.keys|
    && e.keys[..|d.keys|] == d.keys
    && (forall k :: k in d.vals ==> k in e.vals && e.vals[k] == d.vals[k])
  }

  lemma ExtendsTransitive<V>(a: Dict<V>, b: Dict<V>, c: Dict<V>)
    requires Extends(a, b) && Extends(b, c)
    ensures Extends(a, c)
  {
    assert c.keys[..|a.keys|] == c.keys[..|b.keys|][..|a.keys|];
  }
}
