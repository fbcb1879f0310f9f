/**
 * A Python `dict` with string keys as the sequence of its items in insertion
 * order. Assigning `d[k] = v` overwrites an existing key in place and appends a
 * new one at the end.
 */
module OrderedDict {
  import opened Wrappers

  predicate DistinctKeys<V>(d: seq<(string, V)>)
  {
    forall i, j :: 0 <= i < j < |d| ==> d[i].0 != d[j].0
  }

  function Keys<V>(d: seq<(string, V)>): set<string>
  {
    set i | 0 <= i < |d| :: d[i].0
  }

  /** Position of the first item with key `k`, or -1. */
  function IndexOf<V>(d: seq<(string, V)>, k: string): (i: int)
    ensures -1 <= i < |d|
    ensures i >= 0 ==> d[i].0 == k && forall j :: 0 <= j < i ==> d[j].0 != k
    ensures i == -1 <==> k !in Keys(d)
  {
    if d == [] then -1
    else if d[0].0 == k then 0
    else
      var j := IndexOf(d[1..], k);
      assert k in Keys(d[1..]) ==> k in Keys(d) by {
        if k in Keys(d[1..]) {
          var m :| 0 <= m < |d[1..]| && d[1..][m].0 == k;
          assert d[m + 1].0 == k;
        }
      }
      assert k in Keys(d) ==> k in Keys(d[1..]) by {
        if k in Keys(d) {
          var m :| 0 <= m < |d| && d[m].0 == k;
          assert d[1..][m - 1].0 == k;
        }
      }
      if j < 0 then -1 else j + 1
  }

  /** A dict is its first item followed by the dict of the others. */
  lemma HeadAndRest<V>(d: seq<(string, V)>)
    requires DistinctKeys(d) && d != []
    ensures DistinctKeys(d[1..])
    ensures forall x :: x in Keys(d) <==> x == d[0].0 || x in Keys(d[1..])
    ensures d[0].0 !in Keys(d[1..])
    ensures Get(d, d[0].0) == Some(d[0].1)
    ensures forall x :: x != d[0].0 ==> Get(d, x) == Get(d[1..], x)
  {
    var rest := d[1..];
    forall x ensures x in Keys(d) <==> x == d[0].0 || x in Keys(rest) {
      if x in Keys(rest) {
        var i :| 0 <= i < |rest| && rest[i].0 == x;
        assert d[i + 1].0 == x;
      }
      if x in Keys(d) && x != d[0].0 {
        var i :| 0 <= i < |d| && d[i].0 == x;
        assert rest[i - 1].0 == x;
      }
    }
    forall i | 0 <= i < |rest| ensures rest[i].0 != d[0].0 {
      assert rest[i] == d[i + 1];
    }
    forall x | x != d[0].0 ensures Get(d, x) == Get(rest, x) {
      if x in Keys(rest) {
        assert IndexOf(d, x) == IndexOf(rest, x) + 1;
      }
    }
  }

  /** `d.get(k)`. */
  function Get<V>(d: seq<(string, V)>, k: string): (r: Option<V>)
    ensures r.Some? <==> k in Keys(d)
  {
    var i := IndexOf(d, k);
    if i < 0 then None else Some(d[i].1)
  }

  /** `d[k] = v`. */
  function Put<V>(d: seq<(string, V)>, k: string, v: V): (r: seq<(string, V)>)
    ensures Get(r, k) == Some(v)
    ensures k !in Keys(d) ==> r == d + [(k, v)]
    ensures k in Keys(d) ==> |r| == |d|
  {
    var i := IndexOf(d, k);
    if i < 0 then
      var r := d + [(k, v)];
      assert IndexOf(r, k) == |d| by {
        assert r[|d|].0 == k;
        assert k in Keys(r);
      }
      r
    else
      var r := d[i := (k, v)];
      assert k in Keys(r) by { assert r[i].0 == k; }
      assert IndexOf(r, k) == i by {
        var m := IndexOf(r, k);
        assert forall j :: 0 <= j < i ==> r[j] == d[j];
        assert r[i].0 == k;
      }
      r
  }

  /** `d[k] = v` leaves every other key's entry as it was. */
  lemma PutOther<V>(d: seq<(string, V)>, k: string, v: V, k': string)
    requires k' != k
    ensures Get(Put(d, k, v), k') == Get(d, k')
    ensures k' in Keys(Put(d, k, v)) <==> k' in Keys(d)
  {
    var r := Put(d, k, v);
    var i := IndexOf(d, k);
    var j := IndexOf(d, k');
    if j >= 0 {
      assert r[j] == d[j];
      assert k' in Keys(r);
      assert IndexOf(r, k') == j by {
        forall m | 0 <= m < j ensures r[m].0 != k' {
          assert r[m].0 == k || r[m] == d[m];
        }
      }
    } else {
      forall m | 0 <= m < |r| ensures r[m].0 != k' {
        if !(m < |d| && r[m] == d[m]) { assert r[m].0 == k; }
      }
    }
  }

  /** `d[k] = v` adds `k` to the keys and nothing else, and keeps keys distinct. */
  lemma PutKeys<V>(d: seq<(string, V)>, k: string, v: V)
    ensures Keys(Put(d, k, v)) == Keys(d) + {k}
    ensures DistinctKeys(d) ==> DistinctKeys(Put(d, k, v))
  {
    var r := Put(d, k, v);
    forall x | x != k ensures x in Keys(r) <==> x in Keys(d) { PutOther(d, k, v, x); }
    assert k in Keys(r);
  }

  /** Assigning the same value to the same key twice is the same as once. */
  lemma PutTwice<V>(d: seq<(string, V)>, k: string, v: V)
    ensures Put(Put(d, k, v), k, v) == Put(d, k, v)
  {
    var r := Put(d, k, v);
    var i := IndexOf(r, k);
    assert r[i] == (k, v);
    assert r[i := (k, v)] == r;
  }
}
