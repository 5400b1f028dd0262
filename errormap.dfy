/**
 * The error dictionaries the forms build: a key is present exactly for a
 * field whose check failed, holding that check's message.
 */
module ErrorMaps {
  import opened Wrappers

  /** Records the message `e`, when there is one, under `k`. */
  function Record<K, V>(m: map<K, V>, k: K, e: Option<V>): map<K, V> {
    if e.Some? then m[k := e.value] else m
  }

  /** Recording under `k` touches the key `k` only. */
  lemma RecordAt<K, V>(m: map<K, V>, k: K, e: Option<V>, j: K)
    ensures j in Record(m, k, e) <==> (j == k && e.Some?) || j in m
    ensures j in Record(m, k, e) ==> Record(m, k, e)[j] == if j == k && e.Some? then e.value else m[j]
  {
  }

  /** `Object.keys(m).length === 0` holds exactly for the empty map. */
  lemma NoKeysIffEmpty<K, V>(m: map<K, V>)
    ensures |m| == 0 <==> m == map[]
  {
    if |m| == 0 {
      assert m.Keys == {};
    }
  }
}
