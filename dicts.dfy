/** A Python `dict` from strings to counts, as the JSON object it is returned as:
    an association list in insertion order with distinct keys. */
module Dicts {

  type Dict = seq<(string, nat)>

  function Keys(d: Dict): (ks: seq<string>)
    ensures |ks| == |d|
    ensures forall i :: 0 <= i < |d| ==> ks[i] == d[i].0
  {
    if d == [] then [] else [d[0].0] + Keys(d[1..])
  }

  predicate DistinctKeys(d: Dict) {
    forall i, j :: 0 <= i < j < |d| ==> d[i].0 != d[j].0
  }

  /** `d.get(k)`: the count stored under `k`, or 0 when `k` is absent
      (the callers below only use this form). */
  function Get(d: Dict, k: string): (v: nat)
    ensures k !in Keys(d) ==> v == 0
    ensures forall i :: 0 <= i < |d| && d[i].0 == k && (forall j :: 0 <= j < i ==> d[j].0 != k) ==> v == d[i].1
  {
    if d == [] then 0 else if d[0].0 == k then d[0].1 else Get(d[1..], k)
  }

  /** The sum of the counts. */
  function Total(d: Dict): nat {
    if d == [] then 0 else d[0].1 + Total(d[1..])
  }

  /** `d.setdefault(k, v)` for its effect on `d`: a missing key is appended. */
  function SetDefault(d: Dict, k: string, v: nat): (r: Dict)
    ensures k in Keys(d) ==> r == d
    ensures k !in Keys(d) ==> r == d + [(k, v)]
  {
    if k in Keys(d) then d else d + [(k, v)]
  }

  /** `setdefault` with a new key adds it at the end and changes no other count. */
  lemma SetDefaultProperties(d: Dict, k: string, v: nat)
    requires DistinctKeys(d)
    ensures DistinctKeys(SetDefault(d, k, v))
    ensures Keys(SetDefault(d, k, v)) == if k in Keys(d) then Keys(d) else Keys(d) + [k]
    ensures forall j :: j != k || k in Keys(d) ==> Get(SetDefault(d, k, v), j) == Get(d, j)
    ensures k !in Keys(d) ==> Get(SetDefault(d, k, v), k) == v
    ensures Total(SetDefault(d, k, v)) == Total(d) + (if k in Keys(d) then 0 else v)
    ensures SetDefault(d, k, v)[..|d|] == d
  {
    if k !in Keys(d) {
      var e := (k, v);
      var r := d + [e];
      TotalAppend(d, e);
      GetAppendNew(d, e);
      forall j | j != k ensures Get(r, j) == Get(d, j) {
        GetAppendOther(d, e, j);
      }
      assert Keys(r) == Keys(d) + [k];
      forall i, j | 0 <= i < j < |r| ensures r[i].0 != r[j].0 {
        if j == |d| {
          assert r[i].0 == Keys(d)[i];
        }
      }
      assert r[..|d|] == d;
    }
  }

  lemma {:induction false} TotalAppend(d: Dict, e: (string, nat))
    ensures Total(d + [e]) == Total(d) + e.1
  {
    if d != [] {
      assert (d + [e])[1..] == d[1..] + [e];
      TotalAppend(d[1..], e);
    }
  }

  lemma {:induction false} GetAppendOther(d: Dict, e: (string, nat), k: string)
    requires k in Keys(d) || k != e.0
    ensures Get(d + [e], k) == Get(d, k)
  {
    if d != [] {
      assert (d + [e])[1..] == d[1..] + [e];
      if d[0].0 != k {
        assert k in Keys(d[1..]) || k != e.0;
        GetAppendOther(d[1..], e, k);
      }
    }
  }

  lemma {:induction false} GetAppendNew(d: Dict, e: (string, nat))
    requires e.0 !in Keys(d)
    ensures Get(d + [e], e.0) == e.1
  {
    if d != [] {
      assert (d + [e])[1..] == d[1..] + [e];
      assert e.0 !in Keys(d[1..]);
      GetAppendNew(d[1..], e);
    }
  }

  /** Group-by with count over a column of values: one entry per distinct value,
      in order of first occurrence, holding the number of its occurrences. */
  function Tally(vals: seq<string>): (d: Dict)
    ensures DistinctKeys(d)
    ensures forall k :: k in Keys(d) <==> k in vals
    ensures forall k :: Get(d, k) == multiset(vals)[k]
    ensures Total(d) == |vals|
    ensures forall i :: 0 <= i < |d| ==> d[i].1 >= 1
    decreases |vals|
  {
    if vals == [] then []
    else
      var init := vals[..|vals| - 1];
      var x := vals[|vals| - 1];
      assert vals == init + [x];
      var prev := Tally(init);
      BumpProperties(prev, x);
      Bump(prev, x)
  }

  /** Counts one more occurrence of `k`. */
  function Bump(d: Dict, k: string): (r: Dict)
  {
    if d == [] then [(k, 1)]
    else if d[0].0 == k then [(k, d[0].1 + 1)] + d[1..]
    else [d[0]] + Bump(d[1..], k)
  }

  lemma {:induction false} BumpProperties(d: Dict, k: string)
    requires DistinctKeys(d)
    requires forall i :: 0 <= i < |d| ==> d[i].1 >= 1
    ensures DistinctKeys(Bump(d, k))
    ensures forall i :: 0 <= i < |Bump(d, k)| ==> Bump(d, k)[i].1 >= 1
    ensures forall j :: j in Keys(Bump(d, k)) <==> j in Keys(d) || j == k
    ensures forall j :: Get(Bump(d, k), j) == Get(d, j) + (if j == k then 1 else 0)
    ensures Total(Bump(d, k)) == Total(d) + 1
  {
    if d != [] {
      if d[0].0 == k {
        assert Bump(d, k)[1..] == d[1..];
        forall j | j != k ensures Get(Bump(d, k), j) == Get(d, j) { }
        assert Keys(Bump(d, k)) == [k] + Keys(d[1..]);
        assert Keys(d) == [k] + Keys(d[1..]);
      } else {
        assert DistinctKeys(d[1..]) by {
          forall i, j | 0 <= i < j < |d[1..]| ensures d[1..][i].0 != d[1..][j].0 {
            assert d[1..][i] == d[i + 1] && d[1..][j] == d[j + 1];
          }
        }
        BumpProperties(d[1..], k);
        var r := Bump(d, k);
        assert r == [d[0]] + Bump(d[1..], k);
        assert r[1..] == Bump(d[1..], k);
        assert Keys(r) == [d[0].0] + Keys(Bump(d[1..], k));
        assert Keys(d) == [d[0].0] + Keys(d[1..]);
        assert d[0].0 !in Keys(d[1..]);
        forall i, j | 0 <= i < j < |r| ensures r[i].0 != r[j].0 {
          if i == 0 {
            assert r[j] == Bump(d[1..], k)[j - 1];
            assert r[j].0 in Keys(Bump(d[1..], k));
          }
        }
      }
    }
  }
}
