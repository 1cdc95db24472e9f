/** Python's insertion-ordered `dict` with string keys: a sequence of
    (key, value) pairs whose keys are pairwise distinct. Iterating a dict is
    walking the sequence; `d[k] = v` is `Put`, which overwrites in place when
    the key is present and appends otherwise. */
module Dicts {
  import opened Wrappers

  predicate DistinctKeys<V>(s: seq<(string, V)>) {
    forall i, j :: 0 <= i < j < |s| ==> s[i].0 != s[j].0
  }

  type Dict<V> = s: seq<(string, V)> | DistinctKeys(s) witness []

  /** The keys in iteration order. */
  function Keys<V>(d: seq<(string, V)>): (ks: seq<string>)
    ensures |ks| == |d|
    ensures forall i :: 0 <= i < |d| ==> ks[i] == d[i].0
  {
    seq(|d|, i requires 0 <= i < |d| => d[i].0)
  }

  /** Position of the first pair with key `k`. */
  function IndexOf<V>(d: seq<(string, V)>, k: string): (i: nat)
    requires k in Keys(d)
    ensures i < |d| && d[i].0 == k
    ensures forall j :: 0 <= j < i ==> d[j].0 != k
  {
    if d[0].0 == k then 0 else IndexOf(d[1..], k) + 1
  }

  /** `d.get(k)`. */
  function Get<V>(d: seq<(string, V)>, k: string): (r: Option<V>)
    ensures r.Some? <==> k in Keys(d)
  {
    if k in Keys(d) then Some(d[IndexOf(d, k)].1) else None
  }

  /** `d.get(k, default)`. */
  function GetOr<V>(d: seq<(string, V)>, k: string, default: V): V {
    Get(d, k).GetOr(default)
  }

  lemma IndexOfDistinct<V>(d: Dict<V>, i: nat)
    requires i < |d|
    ensures d[i].0 in Keys(d) && IndexOf(d, d[i].0) == i
  {
    assert Keys(d)[i] == d[i].0;
  }

  /** In a dict, `Get` finds the value stored at any position. */
  lemma GetAt<V>(d: Dict<V>, i: nat)
    requires i < |d|
    ensures Get(d, d[i].0) == Some(d[i].1)
  {
    IndexOfDistinct(d, i);
  }

  /** `d[k] = v`. */
  function Put<V>(d: Dict<V>, k: string, v: V): (r: Dict<V>)
    ensures k in Keys(d) ==> Keys(r) == Keys(d)
    ensures k !in Keys(d) ==> Keys(r) == Keys(d) + [k]
    ensures Get(r, k) == Some(v)
  {
    if k in Keys(d) then
      var i := IndexOf(d, k);
      var r: seq<(string, V)> := d[i := (k, v)];
      assert Keys(r) == Keys(d);
      assert DistinctKeys(r);
      IndexOfDistinct(r, i);
      r
    else
      var r: seq<(string, V)> := d + [(k, v)];
      assert Keys(r) == Keys(d) + [k];
      assert DistinctKeys(r) by {
        forall i | 0 <= i < |d| ensures d[i].0 != k {
          assert Keys(d)[i] == d[i].0;
        }
      }
      IndexOfDistinct(r, |d|);
      r
  }

  /** `d[k] = v` leaves every other key's value alone. */
  lemma PutOther<V>(d: Dict<V>, k: string, v: V, k': string)
    requires k' != k
    ensures Get(Put(d, k, v), k') == Get(d, k')
  {
    var r := Put(d, k, v);
    if k in Keys(d) {
      var i := IndexOf(d, k);
      assert r == d[i := (k, v)];
      if k' in Keys(d) {
        IndexOfDistinct(r, IndexOf(d, k'));
      }
    } else {
      assert r == d + [(k, v)];
      if k' in Keys(d) {
        IndexOfDistinct(r, IndexOf(d, k'));
      }
    }
  }

  lemma PutFrame<V>(d: Dict<V>, k: string, v: V)
    ensures forall k' :: k' != k ==> Get(Put(d, k, v), k') == Get(d, k')
  {
    forall k' | k' != k ensures Get(Put(d, k, v), k') == Get(d, k') {
      PutOther(d, k, v, k');
    }
  }

  /** Storing the value a key already has changes nothing. */
  lemma PutUnchanged<V>(d: Dict<V>, k: string, v: V)
    requires Get(d, k) == Some(v)
    ensures Put(d, k, v) == d
  {
    var i := IndexOf(d, k);
    assert d[i] == (k, v);
  }

  /** First occurrences of `s`, in order: the keys of a dict built by
      assigning every element of `s` once. */
  function Dedup(s: seq<string>): (r: seq<string>)
    ensures forall i, j :: 0 <= i < j < |r| ==> r[i] != r[j]
    ensures forall x :: x in r <==> x in s
  {
    if s == [] then []
    else
      var r := Dedup(s[..|s| - 1]);
      assert s == s[..|s| - 1] + [s[|s| - 1]];
      if s[|s| - 1] in r then r else r + [s[|s| - 1]]
  }

  /** Deduplicating a sequence without repeats gives it back. */
  lemma {:induction false} DedupOfDistinct(s: seq<string>)
    requires forall i, j :: 0 <= i < j < |s| ==> s[i] != s[j]
    ensures Dedup(s) == s
  {
    if s != [] {
      var p := s[..|s| - 1];
      DedupOfDistinct(p);
      assert s[|s| - 1] !in p;
      assert s == p + [s[|s| - 1]];
    }
  }

  /** The dict `{k: v for k in s}`. */
  function FromKeys<V>(s: seq<string>, v: V): (d: Dict<V>)
    ensures Keys(d) == Dedup(s)
    ensures forall k :: k in Keys(d) ==> Get(d, k) == Some(v)
  {
    if s == [] then []
    else
      var d := FromKeys(s[..|s| - 1], v);
      PutFrame(d, s[|s| - 1], v);
      Put(d, s[|s| - 1], v)
  }

  lemma FromKeysSnoc<V>(s: seq<string>, x: string, v: V)
    ensures FromKeys(s + [x], v) == Put(FromKeys(s, v), x, v)
  {
    assert (s + [x])[..|s|] == s;
  }

  lemma DedupSnoc(s: seq<string>, x: string)
    ensures Dedup(s + [x]) == if x in Dedup(s) then Dedup(s) else Dedup(s) + [x]
  {
    assert (s + [x])[..|s|] == s;
  }

  lemma DedupConcatStep(d: seq<string>, a: seq<string>, init: seq<string>, last: string)
    requires Dedup(d + init) == Dedup(a + init)
    ensures Dedup(d + (init + [last])) == Dedup(a + (init + [last]))
  {
    assert d + (init + [last]) == (d + init) + [last];
    assert a + (init + [last]) == (a + init) + [last];
    DedupSnoc(d + init, last);
    DedupSnoc(a + init, last);
  }

  /** Deduplicating in two steps is deduplicating once. */
  lemma {:induction false} DedupConcat(a: seq<string>, b: seq<string>)
    ensures Dedup(Dedup(a) + b) == Dedup(a + b)
  {
    if b == [] {
      assert Dedup(a) + b == Dedup(a) && a + b == a;
      DedupOfDistinct(Dedup(a));
    } else {
      var init, last := b[..|b| - 1], b[|b| - 1];
      DedupConcat(a, init);
      DedupConcatStep(Dedup(a), a, init, last);
      assert b == init + [last];
    }
  }

  /** Assigning key `k` keeps the keys the dedup of everything assigned. */
  lemma PutDedup<V>(d: Dict<V>, s: seq<string>, k: string, v: V)
    requires Keys(d) == Dedup(s)
    ensures Keys(Put(d, k, v)) == Dedup(s + [k])
  {
    assert (s + [k])[..|s|] == s;
  }
}
