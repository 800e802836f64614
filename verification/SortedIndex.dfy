/** Range queries over a scored index, as a Redis sorted set answers them: by score, ties in any order. */
module SortedIndex {
  import opened Basics

  predicate SortedBy<K>(index: map<K, Time>, keys: seq<K>)
    requires forall k :: k in keys ==> k in index
  {
    forall i, j :: 0 <= i < j < |keys| ==> index[keys[i]] <= index[keys[j]]
  }

  predicate Distinct<K(==)>(keys: seq<K>) {
    forall i, j :: 0 <= i < j < |keys| ==> keys[i] != keys[j]
  }

  lemma {:induction false} DistinctCount<K>(keys: seq<K>, all: set<K>)
    requires Distinct(keys) && forall k :: k in keys ==> k in all
    ensures |keys| <= |all|
    decreases |keys|
  {
    if keys != [] {
      var last := keys[|keys| - 1];
      var front := keys[..|keys| - 1];
      assert last in keys && forall k :: k in front ==> k in keys;
      forall k | k in front ensures k in all - {last} {
        var i :| 0 <= i < |front| && front[i] == k;
        assert keys[i] != keys[|keys| - 1];
      }
      DistinctCount(front, all - {last});
    }
  }

  method First<K(==)>(index: map<K, Time>) returns (k: K)
    requires index != map[]
    ensures k in index && forall j :: j in index ==> index[k] <= index[j]
  {
    var todo := index.Keys;
    k :| k in todo;
    todo := todo - {k};
    while todo != {}
      invariant todo <= index.Keys && k in index
      invariant forall j :: j in index && j !in todo ==> index[k] <= index[j]
    {
      var j :| j in todo;
      if index[j] < index[k] {
        k := j;
      }
      todo := todo - {j};
    }
  }

  // Every key, lowest score first.
  method Ranked<K(==)>(index: map<K, Time>) returns (keys: seq<K>)
    ensures forall k :: k in keys <==> k in index
    ensures Distinct(keys) && SortedBy(index, keys)
  {
    keys := [];
    var rest := index;
    while rest != map[]
      invariant forall k :: k in keys ==> k in index && k !in rest
      invariant forall k :: k in index ==> k in keys || k in rest
      invariant forall k :: k in rest ==> k in index && rest[k] == index[k]
      invariant Distinct(keys) && SortedBy(index, keys)
      invariant forall k, j :: k in keys && j in rest ==> index[k] <= rest[j]
      decreases |rest|
    {
      var k := First(rest);
      keys := keys + [k];
      rest := rest - {k};
    }
  }

  // The lowest keys: all of them, or as many as the limit allows with none lower left out.
  method Lowest<K(==)>(index: map<K, Time>, limit: nat) returns (keys: seq<K>)
    ensures forall k :: k in keys ==> k in index
    ensures Distinct(keys) && SortedBy(index, keys) && |keys| <= limit
    ensures |keys| < limit ==> forall k :: k in index ==> k in keys
    ensures forall k, j :: k in keys && j in index && index[j] < index[k] ==> j in keys
  {
    var all := Ranked(index);
    keys := if limit <= |all| then all[..limit] else all;
    assert forall k :: k in keys ==> k in all;
    forall k, j | k in keys && j in index && index[j] < index[k]
      ensures j in keys
    {
      assert j in all;
      var i :| 0 <= i < |keys| && keys[i] == k;
      var m :| 0 <= m < |all| && all[m] == j;
      assert all[i] == k && m <= i;
      assert keys[m] == j;
    }
  }

  // The first keys due at an instant.
  method DueBatch<K(==)>(index: map<K, Time>, now: Time, limit: nat) returns (keys: seq<K>)
    ensures forall k :: k in keys ==> k in index && index[k] <= now
    ensures Distinct(keys) && SortedBy(index, keys) && |keys| <= limit
    ensures |keys| < limit ==> forall k :: k in index && index[k] <= now ==> k in keys
    ensures forall k, j :: k in keys && j in index && index[j] < index[k] ==> j in keys
  {
    var due := map k | k in index && index[k] <= now :: index[k];
    keys := Lowest(due, limit);
    assert forall k :: k in keys ==> k in due;
  }
}
