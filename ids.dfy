/** Connection ids: both servers draw random ids until one is not
    registered. The draws are a parameter, `uuids`, in the order drawn. */
module ConnectionIds {

  /** The random draws contain an id not yet registered. */
  predicate HasFresh<V>(uuids: seq<string>, c: map<string, V>)
  {
    exists i :: 0 <= i < |uuids| && uuids[i] !in c
  }

  /** The position of the first draw at or after `from` that is not
      registered. */
  function FreshIndex<V>(uuids: seq<string>, c: map<string, V>, from: nat): (k: nat)
    requires from <= |uuids| && exists j :: from <= j < |uuids| && uuids[j] !in c
    ensures from <= k < |uuids| && uuids[k] !in c
    ensures forall j :: from <= j < k ==> uuids[j] in c
    decreases |uuids| - from
  {
    if uuids[from] !in c then from
    else
      assert exists j :: from + 1 <= j < |uuids| && uuids[j] !in c by {
        var j :| from <= j < |uuids| && uuids[j] !in c;
        assert j != from;
      }
      FreshIndex(uuids, c, from + 1)
  }

  /** createConnectionId: the first draw not yet registered. */
  function FirstFresh<V>(uuids: seq<string>, c: map<string, V>): (id: string)
    requires HasFresh(uuids, c)
    ensures id !in c && id in uuids
  {
    uuids[FreshIndex(uuids, c, 0)]
  }

  /** No id is listed twice, as in the key set the sweeps iterate. */
  predicate Distinct(order: seq<string>)
  {
    forall i, j :: 0 <= i < j < |order| ==> order[i] != order[j]
  }
}
