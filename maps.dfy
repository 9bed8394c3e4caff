/**
 * Facts about finite maps and sets that the servers' close loops and the
 * header copy loop use when they take one key out at a time.
 */
module Maps {

  /** Taking k out of the keys still to visit adds it to the keys visited. */
  lemma TakeOne<K>(all: set<K>, todo: set<K>, k: K)
    requires k in todo && todo <= all
    ensures all - (todo - {k}) == (all - todo) + {k} && todo - {k} <= all && |todo - {k}| < |todo|
  {
  }

  /** Removing a key that is not there changes nothing. */
  lemma RemoveAbsent<K, V>(m: map<K, V>, k: K)
    requires k !in m
    ensures m - {k} == m
  {
  }

  /** Removing one key keeps a sub-map of all and makes the map smaller. */
  lemma RemoveOne<K, V>(m: map<K, V>, all: map<K, V>, id: K)
    requires id in m && m.Keys <= all.Keys && forall k :: k in m ==> m[k] == all[k]
    ensures (m - {id}).Keys <= all.Keys && (forall k :: k in m - {id} ==> (m - {id})[k] == all[k])
    ensures |m - {id}| < |m| && id !in m - {id}
  {
    assert (m - {id}).Keys + {id} == m.Keys;
  }
}
