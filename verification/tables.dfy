/** Ordered lookup tables. The service's static tables are Python dicts
    (insertion-ordered) and its tool registry is a list searched front to
    back; both are a sequence of (key, value) pairs searched for the first
    entry that satisfies a test on its key.
 */
module Tables {

  import opened Base

  /** The index of the first entry whose key satisfies `p`. */
  function FirstWhere<V>(table: seq<(string, V)>, p: string -> bool): (r: Option<nat>)
    ensures r.None? <==> forall j :: 0 <= j < |table| ==> !p(table[j].0)
    ensures r.Some? ==>
      && r.value < |table|
      && p(table[r.value].0)
      && forall j :: 0 <= j < r.value ==> !p(table[j].0)
    decreases |table|
  {
    if |table| == 0 then
      None
    else if p(table[0].0) then
      Some(0)
    else
      match FirstWhere(table[1..], p)
      case None => None
      case Some(i) => Some(i + 1)
  }

  /** Dict indexing `table[key]`, or `None` for a missing key. */
  function Lookup<V>(table: seq<(string, V)>, key: string): (r: Option<V>)
    ensures r.None? <==> forall j :: 0 <= j < |table| ==> table[j].0 != key
    ensures r.Some? ==> exists j :: 0 <= j < |table| && table[j] == (key, r.value)
  {
    match FirstWhere(table, k => k == key)
    case None => None
    case Some(i) => Some(table[i].1)
  }

  /** No key appears twice, as in a dict. */
  predicate DistinctKeys<V>(table: seq<(string, V)>) {
    forall i, j :: 0 <= i < j < |table| ==> table[i].0 != table[j].0
  }

  /** With distinct keys, looking up an entry's key finds that entry, so
      first-match and dict semantics agree. */
  lemma LookupFindsEntry<V>(table: seq<(string, V)>, i: nat)
    requires DistinctKeys(table)
    requires i < |table|
    ensures Lookup(table, table[i].0) == Some(table[i].1)
  {
    var r := FirstWhere(table, k => k == table[i].0);
    assert r.Some?;
  }
}
