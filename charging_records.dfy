/** The records a subscriber keeps per charging session, taken all at once
    as ranging over the Go map `ue.Cdr` does: in no particular order, each
    exactly once. */
module ChargingRecords {
  import opened ChargingTypes

  /** Some key of a non-empty map: the one ranging over it visits first. */
  ghost function PickKey(m: map<string, Cdr>): (k: string)
    requires m != map[]
    ensures k in m
  {
    var k :| k in m; k
  }

  lemma RemoveShrinks(m: map<string, Cdr>, k: string)
    requires k in m
    ensures |m - {k}| < |m|
  {
    assert m.Keys - {k} < m.Keys;
  }

  /** The multiset of the records of a map, in no particular order: what
      ranging over `ue.Cdr` collects. */
  ghost function RecordValues(m: map<string, Cdr>): (r: multiset<Cdr>)
    decreases |m|
  {
    if m == map[] then multiset{}
    else
      var k := PickKey(m);
      RemoveShrinks(m, k);
      multiset{m[k]} + RecordValues(m - {k})
  }

  /** Removing two keys in either order leaves the same map. */
  lemma RemoveCommutes(m: map<string, Cdr>, j: string, k: string)
    ensures (m - {j}) - {k} == (m - {k}) - {j}
  {
    var a, b := (m - {j}) - {k}, (m - {k}) - {j};
    assert a.Keys == b.Keys;
    assert forall x | x in a :: a[x] == b[x];
  }

  /** Whichever key is taken first, the records collected are the same. */
  lemma {:induction false} RecordValuesRemove(m: map<string, Cdr>, k: string)
    requires k in m
    ensures RecordValues(m) == multiset{m[k]} + RecordValues(m - {k})
    decreases |m|
  {
    var j := PickKey(m);
    if j != k {
      var mj := m - {j};
      var mk := m - {k};
      RemoveShrinks(m, j);
      RemoveShrinks(m, k);
      assert k in mj && mj[k] == m[k];
      assert j in mk && mk[j] == m[j];
      RecordValuesRemove(mj, k);
      RecordValuesRemove(mk, j);
      RemoveCommutes(m, j, k);
      var rest := RecordValues(mj - {k});
      assert RecordValues(m) == multiset{m[j]} + RecordValues(mj);
      assert RecordValues(mj) == multiset{m[k]} + rest;
      assert RecordValues(mk) == multiset{m[j]} + rest;
    }
  }

  /** Every record of the map is collected, once per key. */
  lemma {:induction false} RecordValuesComplete(m: map<string, Cdr>)
    ensures |RecordValues(m)| == |m|
    ensures forall k :: k in m ==> m[k] in RecordValues(m)
    decreases |m|
  {
    if m != map[] {
      var j := PickKey(m);
      RemoveShrinks(m, j);
      RecordValuesComplete(m - {j});
      assert |m - {j}| == |m| - 1 by { assert m.Keys == (m - {j}).Keys + {j}; }
      forall k | k in m
        ensures m[k] in RecordValues(m)
      {
        if k != j {
          assert (m - {j})[k] == m[k];
        }
      }
    }
  }
}
