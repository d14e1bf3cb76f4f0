// Vocabulary shared by the components.

module Common {

  datatype Option<+T> = None | Some(value: T)

  /** An identifier. The model never looks inside one: only equality, and where a
      listing sorts by identifier the order of its text, is observable. */
  type Id = nat

  /** A canonical UTC timestamp as milliseconds. The canonical ISO form is fixed
      width, so comparing texts and comparing instants agree. */
  type Time = int

  function Lookup<K, V>(m: map<K, V>, k: K): Option<V> {
    if k in m then Some(m[k]) else None
  }

  /** All but the last element of a concatenation. */
  lemma FrontOfSum<T>(a: seq<T>, b: seq<T>)
    requires b != []
    ensures (a + b)[..|a + b| - 1] == a + b[..|b| - 1] && (a + b)[|a + b| - 1] == b[|b| - 1]
  {
  }

  function Max(a: int, b: int): int {
    if a < b then b else a
  }
}
