/** The MLS storage provider, saved and restored. */
module Snapshot {
  // A map of byte strings, saved as a list of pairs because its keys are arbitrary bytes.

  import opened Basics

  type Pairs = seq<(Bytes, Bytes)>

  /** The pairs collected into a map, a later one winning over an earlier one with the same key. */
  function Collected(pairs: Pairs): map<Bytes, Bytes> {
    if pairs == [] then map[] else Collected(pairs[..|pairs| - 1])[pairs[|pairs| - 1].0 := pairs[|pairs| - 1].1]
  }

  /** A listing of the map in some order: each entry once. */
  ghost predicate ListsEntries(pairs: Pairs, values: map<Bytes, Bytes>) {
    && (forall i :: 0 <= i < |pairs| ==> pairs[i].0 in values && values[pairs[i].0] == pairs[i].1)
    && (forall i, j :: 0 <= i < j < |pairs| ==> pairs[i].0 != pairs[j].0)
    && (forall k :: k in values ==> exists i :: 0 <= i < |pairs| && pairs[i].0 == k)
  }

  lemma {:induction false} CollectedHolds(pairs: Pairs)
    ensures forall i :: 0 <= i < |pairs| ==> pairs[i].0 in Collected(pairs)
    ensures forall k :: k in Collected(pairs) ==> exists i :: 0 <= i < |pairs| && pairs[i] == (k, Collected(pairs)[k])
    ensures (forall i, j :: 0 <= i < j < |pairs| ==> pairs[i].0 != pairs[j].0) ==>
              forall i :: 0 <= i < |pairs| ==> Collected(pairs)[pairs[i].0] == pairs[i].1
    decreases |pairs|
  {
    if pairs != [] {
      var front := pairs[..|pairs| - 1];
      CollectedHolds(front);
      forall k | k in Collected(pairs) ensures exists i :: 0 <= i < |pairs| && pairs[i] == (k, Collected(pairs)[k]) {
        if k == pairs[|pairs| - 1].0 {
          assert pairs[|pairs| - 1] == (k, Collected(pairs)[k]);
        } else {
          var i :| 0 <= i < |front| && front[i] == (k, Collected(front)[k]);
          assert pairs[i] == (k, Collected(pairs)[k]);
        }
      }
      forall i | 0 <= i < |pairs| ensures pairs[i].0 in Collected(pairs) {
        assert i < |front| ==> front[i] == pairs[i];
      }
    }
  }

  /** Whatever order the map was listed in, the list collects back to it. */
  lemma {:induction false} AnyListingRestores(pairs: Pairs, values: map<Bytes, Bytes>)
    requires ListsEntries(pairs, values)
    ensures Collected(pairs) == values
  {
    CollectedHolds(pairs);
    forall k ensures k in Collected(pairs) <==> k in values {
      if k in values {
        var i :| 0 <= i < |pairs| && pairs[i].0 == k;
        assert pairs[i].0 in Collected(pairs);
      }
    }
    forall k | k in values ensures Collected(pairs)[k] == values[k] {
      var i :| 0 <= i < |pairs| && pairs[i].0 == k;
      assert Collected(pairs)[pairs[i].0] == pairs[i].1;
    }
  }

  class ProviderStorage {
    var values: map<Bytes, Bytes>

    constructor ()
      ensures values == map[]
    {
      values := map[];
    }

    /** The map is iterated in no particular order. */
    method Snapshot() returns (pairs: Pairs)
      ensures ListsEntries(pairs, values) && Collected(pairs) == values
    {
      pairs := [];
      var left := values.Keys;
      while left != {}
        invariant left <= values.Keys
        invariant forall i :: 0 <= i < |pairs| ==>
                    pairs[i].0 in values && pairs[i].0 !in left && values[pairs[i].0] == pairs[i].1
        invariant forall i, j :: 0 <= i < j < |pairs| ==> pairs[i].0 != pairs[j].0
        invariant forall k :: k in values && k !in left ==> exists i :: 0 <= i < |pairs| && pairs[i].0 == k
        decreases |left|
      {
        var key :| key in left;
        ghost var before := pairs;
        pairs := pairs + [(key, values[key])];
        left := left - {key};
        forall k | k in values && k !in left ensures exists i :: 0 <= i < |pairs| && pairs[i].0 == k {
          if k == key {
            assert pairs[|before|].0 == k;
          } else {
            var i :| 0 <= i < |before| && before[i].0 == k;
            assert pairs[i].0 == k;
          }
        }
      }
      AnyListingRestores(pairs, values);
    }

    /** What the storage held before is gone. */
    method Restore(pairs: Pairs)
      modifies this
      ensures values == Collected(pairs)
    {
      var collected: map<Bytes, Bytes> := map[];
      for i := 0 to |pairs|
        invariant collected == Collected(pairs[..i])
      {
        assert pairs[..i + 1][..i] == pairs[..i];
        collected := collected[pairs[i].0 := pairs[i].1];
      }
      assert pairs[..|pairs|] == pairs;
      values := collected;
    }
  }
}
