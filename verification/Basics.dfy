/** Shared vocabulary: optional values, server time in milliseconds, and the latest of a set of instants. */
module Basics {

  datatype Option<+T> = None | Some(value: T)

  // Milliseconds of the storage server's clock, which never runs backwards between two scripts.
  type Time = int

  function Min(a: int, b: int): int {
    if a <= b then a else b
  }

  // t is the latest of base and of every instant in times.
  ghost predicate IsLatest<K>(t: Time, base: Time, times: map<K, Time>) {
    && base <= t
    && (forall k :: k in times ==> times[k] <= t)
    && (t == base || exists k :: k in times && times[k] == t)
  }

  lemma {:induction false} LatestExists<K>(base: Time, times: map<K, Time>)
    ensures exists t :: IsLatest(t, base, times)
    decreases |times|
  {
    if times == map[] {
      assert IsLatest(base, base, times);
    } else {
      var k :| k in times;
      var rest := times - {k};
      LatestExists(base, rest);
      var t :| IsLatest(t, base, rest);
      var u := if t < times[k] then times[k] else t;
      assert forall j :: j in times ==> j == k || (j in rest && rest[j] == times[j]);
      assert forall j :: j in rest ==> j in times && rest[j] == times[j];
      assert IsLatest(u, base, times);
    }
  }

  ghost function Latest<K>(base: Time, times: map<K, Time>): (t: Time)
    ensures IsLatest(t, base, times)
  {
    LatestExists(base, times);
    var t :| IsLatest(t, base, times);
    t
  }
}
