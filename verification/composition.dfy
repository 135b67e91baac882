/** The recursive composition value: an optional string value plus a map
    from names to child compositions, created on first access. */
module Compositions {
  import opened Wrappers

  /** `properties` is `None` until the map is first asked for. */
  datatype Composition = Composition(value: Option<string>, properties: Option<map<string, Composition>>)

  /** `getProperties`: the composition with its map created if it was not
      yet, together with that map. */
  function GetProperties(c: Composition): (r: (Composition, map<string, Composition>))
    ensures r.0.value == c.value
    ensures r.0.properties == Some(r.1)
    ensures c.properties.Some? ==> r.0 == c
    ensures c.properties.None? ==> r.1 == map[]
  {
    match c.properties
    case Some(m) => (c, m)
    case None => (c.(properties := Some(map[])), map[])
  }

  function GetValue(c: Composition): (r: Option<string>) {
    c.value
  }

  function SetValue(c: Composition, v: Option<string>): (r: Composition) {
    c.(value := v)
  }

  /** The no-argument constructor: a composition used as a list. */
  function NewList(): (c: Composition)
    ensures GetValue(c) == None
    ensures GetProperties(c).1 == map[]
  {
    Composition(None, None)
  }

  /** The one-argument constructor: a leaf holding a property value. */
  function NewValue(v: Option<string>): (c: Composition)
    ensures GetValue(c) == v
    ensures GetProperties(c).1 == map[]
  {
    Composition(v, None)
  }

  /** `put`: bind `key` to a fresh leaf holding `v`. */
  function Put(c: Composition, key: string, v: Option<string>): (r: Composition)
    ensures GetValue(r) == GetValue(c)
    ensures key in GetProperties(r).1
    ensures GetValue(GetProperties(r).1[key]) == v
    ensures GetProperties(GetProperties(r).1[key]).1 == map[]
    ensures forall k :: k != key ==>
      (k in GetProperties(r).1 <==> k in GetProperties(c).1)
    ensures forall k :: k != key && k in GetProperties(c).1 ==>
      GetProperties(r).1[k] == GetProperties(c).1[k]
  {
    var (c', m) := GetProperties(c);
    c'.(properties := Some(m[key := NewValue(v)]))
  }

  /** Asking for the map twice creates it at most once: the second call
      changes nothing and returns the same map. */
  lemma GetPropertiesIdempotent(c: Composition)
    ensures GetProperties(GetProperties(c).0) == GetProperties(c)
  {
  }

  /** `setValue` then `getValue` returns the value set, and leaves the map
      (including whether it was created yet) as it was. */
  lemma SetThenGet(c: Composition, v: Option<string>)
    ensures GetValue(SetValue(c, v)) == v
    ensures SetValue(c, v).properties == c.properties
  {
  }

  /** A second `put` on the same key overwrites the first. */
  lemma PutOverwrites(c: Composition, key: string, v1: Option<string>, v2: Option<string>)
    ensures Put(Put(c, key, v1), key, v2) == Put(c, key, v2)
  {
    var m := GetProperties(c).1;
    assert GetProperties(Put(c, key, v1)).1 == m[key := NewValue(v1)];
    assert m[key := NewValue(v1)][key := NewValue(v2)] == m[key := NewValue(v2)];
  }

  /** `put` on distinct keys commutes. */
  lemma PutCommutes(c: Composition, k1: string, k2: string, v1: Option<string>, v2: Option<string>)
    requires k1 != k2
    ensures Put(Put(c, k1, v1), k2, v2) == Put(Put(c, k2, v2), k1, v1)
  {
    var m := GetProperties(c).1;
    assert GetProperties(Put(c, k1, v1)).1 == m[k1 := NewValue(v1)];
    assert GetProperties(Put(c, k2, v2)).1 == m[k2 := NewValue(v2)];
    assert m[k1 := NewValue(v1)][k2 := NewValue(v2)] == m[k2 := NewValue(v2)][k1 := NewValue(v1)];
  }
}
