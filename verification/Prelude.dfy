/** Small helpers shared by every module. */
module Prelude {

  datatype Option<+T> = None | Some(value: T)

  /** Reading a map with an absent key. */
  function Lookup<K, V>(m: map<K, V>, k: K): Option<V> {
    if k in m then Some(m[k]) else None
  }

  /** Writing a map entry, where None erases the key. */
  function Assign<K, V>(m: map<K, V>, k: K, v: Option<V>): map<K, V> {
    match v
    case Some(x) => m[k := x]
    case None => m - {k}
  }

  /** Reading back a written entry, and any other entry. */
  lemma AssignLookup<K, V>(m: map<K, V>, k: K, v: Option<V>, other: K)
    ensures Lookup(Assign(m, k, v), other) == if other == k then v else Lookup(m, other)
  {
  }

  /** Writing an entry that is there already changes nothing. */
  lemma AssignSame<K, V>(m: map<K, V>, k: K)
    ensures Assign(m, k, Lookup(m, k)) == m
  {
    if k !in m { assert m - {k} == m; }
  }
}
