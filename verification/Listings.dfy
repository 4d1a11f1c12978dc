/** Rows read out in the order of a column. */
module Listings {

  /** Every key, each once. */
  ghost predicate IsListing<K(!new)>(ks: seq<K>, keys: set<K>)
  {
    && (forall k :: k in ks <==> k in keys)
    && Distinct(ks)
  }

  ghost predicate Ascending<K>(ks: seq<K>, column: map<K, int>)
    requires forall k :: k in ks ==> k in column
  {
    forall j, k :: 0 <= j < k < |ks| ==> column[ks[j]] <= column[ks[k]]
  }

  ghost predicate Distinct<K(!new)>(ks: seq<K>) { forall j, k :: 0 <= j < k < |ks| ==> ks[j] != ks[k] }

  /** Some of the keys, each at most once, in ascending order of the column. */
  ghost predicate Ordered<K(!new)>(ks: seq<K>, column: map<K, int>)
  {
    (forall k :: k in ks ==> k in column) && Distinct(ks) && Ascending(ks, column)
  }

  /** A part of a listing, taken in its order, stays ordered with the next key on it. */
  lemma NextStaysOrdered<K(!new)>(part: seq<K>, ks: seq<K>, i: nat, column: map<K, int>)
    requires Ordered(ks, column) && i < |ks| && Ordered(part, column)
    requires forall k :: k in part ==> k in ks[..i]
    ensures Ordered(part + [ks[i]], column)
  {
    var more := part + [ks[i]];
    forall j | 0 <= j < |part| ensures part[j] != ks[i] && column[part[j]] <= column[ks[i]] {
      assert part[j] in ks[..i];
    }
  }

  /** The keys in ascending order of the column; ties fall in any order. */
  method SortedKeys<K(==, !new)>(column: map<K, int>) returns (ks: seq<K>)
    ensures IsListing(ks, column.Keys) && Ascending(ks, column)
  {
    ks := [];
    var rest := column;
    while rest != map[]
      invariant forall k :: k in column <==> k in ks || k in rest
      invariant forall k :: k in rest ==> k !in ks && rest[k] == column[k]
      invariant forall j, k :: 0 <= j < k < |ks| ==> ks[j] != ks[k]
      invariant forall j, k :: 0 <= j < k < |ks| ==> column[ks[j]] <= column[ks[k]]
      invariant forall j, k :: 0 <= j < |ks| && k in rest ==> column[ks[j]] <= rest[k]
      decreases |rest|
    {
      var k := Least(rest);
      ks := ks + [k];
      assert (rest - {k}).Keys == rest.Keys - {k};
      rest := rest - {k};
    }
  }

  method Least<K(==)>(m: map<K, int>) returns (least: K)
    requires m != map[]
    ensures least in m && forall k :: k in m ==> m[least] <= m[k]
  {
    var keys := m.Keys;
    least :| least in keys;
    keys := keys - {least};
    while keys != {}
      invariant least in m && keys <= m.Keys
      invariant forall k :: k in m && k !in keys ==> m[least] <= m[k]
      decreases |keys|
    {
      var k :| k in keys;
      if m[k] < m[least] {
        least := k;
      }
      keys := keys - {k};
    }
  }
}
