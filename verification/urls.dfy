/**
 * `net/url` as the suite code uses it: a parsed URL whose query is the
 * decoded `url.Values`, a map from each key to its values in order.
 * Percent-encoding (`Values.Encode`, `url.Parse`) is abstracted away.
 */
module Urls {

  /** `url.Values`. */
  type Query = map<string, seq<string>>

  /** A parsed `*url.URL`: everything but the query as one opaque part, and the decoded query. */
  datatype Url = Url(location: string, query: Query)

  /** `Values.Get`: the first value of the key, or "" when it has none. */
  function Get(q: Query, key: string): (v: string)
    ensures v != "" ==> key in q && v in q[key]
  {
    if key in q && |q[key]| > 0 then q[key][0] else ""
  }

  /** `Values.Set`: the key's values become exactly `[v]`. */
  function Set(q: Query, key: string, v: string): (r: Query)
    ensures key in r && r[key] == [v]
    ensures forall k :: k != key ==> (k in r <==> k in q)
    ensures forall k :: k != key && k in q ==> r[k] == q[k]
  {
    q[key := [v]]
  }

  /** `Values.Add`: `v` is appended to the key's values. */
  function Add(q: Query, key: string, v: string): (r: Query)
    ensures key in r && r[key] == (if key in q then q[key] else []) + [v]
    ensures forall k :: k != key ==> (k in r <==> k in q)
    ensures forall k :: k != key && k in q ==> r[k] == q[k]
  {
    if key in q then q[key := q[key] + [v]] else q[key := [v]]
  }

  /** `url.Values{}` followed by one `Add` per pair, in order. */
  function Build(pairs: seq<(string, string)>): Query
  {
    if pairs == [] then map[]
    else
      var last := pairs[|pairs| - 1];
      Add(Build(pairs[..|pairs| - 1]), last.0, last.1)
  }

  /** The keys of a list of pairs. */
  function Keys(pairs: seq<(string, string)>): set<string>
  {
    if pairs == [] then {} else Keys(pairs[..|pairs| - 1]) + {pairs[|pairs| - 1].0}
  }

  /** No key occurs twice. */
  predicate DistinctKeys(pairs: seq<(string, string)>)
  {
    forall i, j :: 0 <= i < j < |pairs| ==> pairs[i].0 != pairs[j].0
  }

  /** After `Set`, `Get` reads the new value back and every other key reads as before. */
  lemma GetSet(q: Query, key: string, v: string, other: string)
    ensures Get(Set(q, key, v), key) == v
    ensures other != key ==> Get(Set(q, key, v), other) == Get(q, other)
  {
  }

  /**
   * Adding pairs with distinct keys to an empty `url.Values` gives a query
   * with exactly those keys, each holding exactly its one value.
   */
  lemma {:induction false} BuildDistinct(pairs: seq<(string, string)>)
    requires DistinctKeys(pairs)
    ensures Build(pairs).Keys == Keys(pairs)
    ensures forall i :: 0 <= i < |pairs| ==> pairs[i].0 in Build(pairs) && Build(pairs)[pairs[i].0] == [pairs[i].1]
  {
    if pairs != [] {
      var n := |pairs| - 1;
      var init, last := pairs[..n], pairs[n];
      assert DistinctKeys(init);
      BuildDistinct(init);
      var q := Build(init);
      KeysMember(init, last.0);
      assert last.0 !in q;
      assert Build(pairs) == q[last.0 := [last.1]];
      forall i | 0 <= i < n ensures pairs[i].0 in Build(pairs) && Build(pairs)[pairs[i].0] == [pairs[i].1] {
        assert init[i] == pairs[i];
      }
    }
  }

  /** A key is among the keys of a list of pairs exactly when one of its pairs carries it. */
  lemma {:induction false} KeysMember(pairs: seq<(string, string)>, k: string)
    ensures k in Keys(pairs) <==> exists i :: 0 <= i < |pairs| && pairs[i].0 == k
  {
    if pairs != [] {
      var n := |pairs| - 1;
      KeysMember(pairs[..n], k);
      if exists i :: 0 <= i < |pairs| && pairs[i].0 == k {
        var i :| 0 <= i < |pairs| && pairs[i].0 == k;
        if i < n { assert pairs[..n][i] == pairs[i]; }
      }
    }
  }
}
