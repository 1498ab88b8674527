/** Small shared vocabulary: optional values (the source's nullable references)
    and enumerations of a map's key set (the source's hash-map iteration). */
module Base {

  /** A value that may be absent, standing for a Java reference that may be null. */
  datatype Option<+T> = None | Some(value: T)

  /** No element of `s` occurs twice. */
  predicate Distinct<K(==)>(s: seq<K>) {
    forall i, j :: 0 <= i < j < |s| ==> s[i] != s[j]
  }

  /** `order` visits every key of `keys` exactly once: this is what iterating
      over a hash map's entry set promises, in some order the model leaves open. */
  predicate Enumerates<K(==)>(order: seq<K>, keys: set<K>) {
    && Distinct(order)
    && (forall i :: 0 <= i < |order| ==> order[i] in keys)
    && (forall k :: k in keys ==> k in order)
  }

  /** Every element of `order` is a key of `m`. */
  predicate Covers<K(==), V>(m: map<K, V>, order: seq<K>) {
    forall i :: 0 <= i < |order| ==> order[i] in m
  }

  /** An enumeration of a key set has exactly one position per key. */
  lemma {:induction false} EnumerationLength<K>(order: seq<K>, keys: set<K>)
    requires Enumerates(order, keys)
    ensures |order| == |keys|
  {
    if |order| > 0 {
      var last := order[|order| - 1];
      var prefix := order[..|order| - 1];
      assert last !in prefix by {
        forall i | 0 <= i < |prefix| ensures prefix[i] != last {
          assert prefix[i] == order[i];
        }
      }
      forall k | k in keys - {last} ensures k in prefix {
        var i :| 0 <= i < |order| && order[i] == k;
        assert i < |order| - 1;
        assert prefix[i] == k;
      }
      EnumerationLength(prefix, keys - {last});
    } else {
      assert forall k :: k !in keys;
      assert keys == {};
    }
  }
}
