/**
 * Plain JavaScript objects used as dictionaries, modelled as maps.
 */
module JsObjects {

  /** `Object.keys(m).length === 0` holds exactly for the empty map. */
  lemma EmptyMapIff<K, V>(m: map<K, V>)
    ensures |m.Keys| == 0 <==> m == map[]
  {
  }
}
