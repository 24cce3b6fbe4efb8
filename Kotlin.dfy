/**
 * The pieces of Kotlin and JVM semantics that SlackAppender.kt relies on:
 * fixed-width integers, string templates over nullable values, `mapOf`
 * and `Map.getValue`.
 */
module Kotlin {
  import opened Wrappers

  /** Kotlin `Int` (Java `int`). */
  type Int32 = x: int | -0x8000_0000 <= x < 0x8000_0000

  /** Kotlin `Long` (Java `long`). */
  type Int64 = x: int | -0x8000_0000_0000_0000 <= x < 0x8000_0000_0000_0000

  /**
   * What a string template `"$v"` inserts for a nullable string `v`:
   * the string itself, or the four letters "null" when `v` is null.
   */
  function Template(v: Option<string>): (r: string)
    ensures v.Some? ==> r == v.value
    ensures v.None? ==> r == "null"
  {
    match v
    case Some(s) => s
    case None => "null"
  }

  /** The set of keys that occur in a list of pairs. */
  ghost function KeysOf<K, V>(pairs: seq<(K, V)>): set<K>
  {
    set i | 0 <= i < |pairs| :: pairs[i].0
  }

  /** No key occurs twice in the list of pairs. */
  ghost predicate DistinctKeys<K, V>(pairs: seq<(K, V)>)
  {
    forall i, j :: 0 <= i < j < |pairs| ==> pairs[i].0 != pairs[j].0
  }

  /** No value occurs twice in the list of pairs. */
  ghost predicate DistinctValues<K, V>(pairs: seq<(K, V)>)
  {
    forall i, j :: 0 <= i < j < |pairs| ==> pairs[i].1 != pairs[j].1
  }

  /** Different keys of the map are bound to different values. */
  ghost predicate Injective<K, V>(m: map<K, V>)
  {
    forall a, b :: a in m && b in m && a != b ==> m[a] != m[b]
  }

  /**
   * Kotlin's `mapOf(k1 to v1, ..., kn to vn)`: the pairs are put into the
   * map from left to right, so when a key repeats the last pair wins.
   */
  function MapOf<K, V>(pairs: seq<(K, V)>): (m: map<K, V>)
    ensures m.Keys == KeysOf(pairs)
  {
    if |pairs| == 0 then map[]
    else
      var last := pairs[|pairs| - 1];
      var front := MapOf(pairs[..|pairs| - 1]);
      assert KeysOf(pairs) == KeysOf(pairs[..|pairs| - 1]) + {last.0} by {
        assert forall i :: 0 <= i < |pairs| - 1 ==> pairs[..|pairs| - 1][i] == pairs[i];
      }
      front[last.0 := last.1]
  }

  /** A key is bound to the value of the last pair that mentions it. */
  lemma {:induction false} MapOfLastWins<K, V>(pairs: seq<(K, V)>, i: nat)
    requires i < |pairs|
    requires forall j :: i < j < |pairs| ==> pairs[j].0 != pairs[i].0
    ensures pairs[i].0 in MapOf(pairs) && MapOf(pairs)[pairs[i].0] == pairs[i].1
  {
    var n := |pairs|;
    if i < n - 1 {
      var front := pairs[..n - 1];
      assert front[i] == pairs[i];
      forall j | i < j < |front| ensures front[j].0 != front[i].0 {
        assert front[j] == pairs[j];
      }
      MapOfLastWins(front, i);
    }
  }

  /** With distinct keys every pair is found in the map as written. */
  lemma MapOfDistinct<K, V>(pairs: seq<(K, V)>, i: nat)
    requires DistinctKeys(pairs)
    requires i < |pairs|
    ensures pairs[i].0 in MapOf(pairs) && MapOf(pairs)[pairs[i].0] == pairs[i].1
  {
    MapOfLastWins(pairs, i);
  }

  /** Distinct keys with distinct values make an injective map. */
  lemma MapOfInjective<K, V>(pairs: seq<(K, V)>)
    requires DistinctKeys(pairs) && DistinctValues(pairs)
    ensures Injective(MapOf(pairs))
  {
    var m := MapOf(pairs);
    forall a, b | a in m && b in m && a != b ensures m[a] != m[b] {
      var i :| 0 <= i < |pairs| && pairs[i].0 == a;
      var j :| 0 <= j < |pairs| && pairs[j].0 == b;
      MapOfDistinct(pairs, i);
      MapOfDistinct(pairs, j);
      assert i != j;
      if i < j {
        assert pairs[i].1 != pairs[j].1;
      } else {
        assert pairs[j].1 != pairs[i].1;
      }
    }
  }

  /** `Map.getValue(key)` throws `NoSuchElementException("Key $key is missing in the map.")`. */
  datatype NoSuchElement<K> = NoSuchElement(key: K)

  /** Kotlin's `Map.getValue`: the bound value, or the exception for a missing key; never a default. */
  function GetValue<K, V>(m: map<K, V>, key: K): (r: Result<V, NoSuchElement<K>>)
    ensures r.Success? <==> key in m
    ensures r.Success? ==> r.value == m[key]
    ensures r.Failure? ==> r.error.key == key
  {
    if key in m then Success(m[key]) else Failure(NoSuchElement(key))
  }
}
