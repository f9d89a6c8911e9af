/** Python dictionaries as insertion-ordered association lists keyed by
    strings. `Put` is `d[k] = v` (an existing key keeps its position, a new
    key goes to the end) and `Merge` is `d.update(e)`. */
module OrderedDict {
  import opened Wrappers

  function Keys<T>(d: seq<(string, T)>): (ks: seq<string>)
    ensures |ks| == |d|
  {
    if d == [] then [] else [d[0].0] + Keys(d[1..])
  }

  /** No key occurs twice, as in every Python dict. */
  predicate Distinct(ks: seq<string>) {
    ks == [] || (ks[0] !in ks[1..] && Distinct(ks[1..]))
  }

  predicate HasKey<T>(d: seq<(string, T)>, k: string) {
    k in Keys(d)
  }

  /** `d.get(k)`: the value stored under the first occurrence of `k`. */
  function Get<T>(d: seq<(string, T)>, k: string): (r: Option<T>)
    ensures r.Some? <==> k in Keys(d)
    ensures r.Some? ==> (k, r.value) in d
  {
    if d == [] then None
    else if d[0].0 == k then Some(d[0].1)
    else Get(d[1..], k)
  }

  /** `d[k] = v`. */
  function Put<T>(d: seq<(string, T)>, k: string, v: T): (r: seq<(string, T)>)
    ensures Keys(r) == if k in Keys(d) then Keys(d) else Keys(d) + [k]
    ensures Get(r, k) == Some(v)
    ensures forall j :: j != k ==> Get(r, j) == Get(d, j)
    ensures Distinct(Keys(d)) ==> Distinct(Keys(r))
  {
    if d == [] then [(k, v)]
    else if d[0].0 == k then [(k, v)] + d[1..]
    else
      var rest := Put(d[1..], k, v);
      assert Keys(d) == [d[0].0] + Keys(d[1..]);
      assert Keys([d[0]] + rest) == [d[0].0] + Keys(rest);
      [d[0]] + rest
  }

  /** `d.update(e)`: the pairs of `e` stored one after the other. */
  function Merge<T>(d: seq<(string, T)>, e: seq<(string, T)>): (r: seq<(string, T)>)
    ensures Keys(d) <= Keys(r)
    ensures forall k :: k in Keys(r) <==> k in Keys(d) || k in Keys(e)
    ensures forall k :: k !in Keys(e) ==> Get(r, k) == Get(d, k)
    ensures Distinct(Keys(e)) ==> forall k :: k in Keys(e) ==> Get(r, k) == Get(e, k)
    ensures Distinct(Keys(d)) ==> Distinct(Keys(r))
    decreases |e|
  {
    if e == [] then d
    else
      var d' := Put(d, e[0].0, e[0].1);
      var r := Merge(d', e[1..]);
      assert Keys(e) == [e[0].0] + Keys(e[1..]);
      assert Keys(d) <= Keys(d');
      r
  }

  /** The same keys in the same order, each value transformed by `f`. */
  function MapValues<T, U>(d: seq<(string, T)>, f: T -> U): (r: seq<(string, U)>)
    ensures Keys(r) == Keys(d)
    ensures forall i :: 0 <= i < |d| ==> r[i].1 == f(d[i].1)
  {
    if d == [] then [] else [(d[0].0, f(d[0].1))] + MapValues(d[1..], f)
  }

  /** The dict built from parallel lists of keys and values. */
  function Zip<T>(ks: seq<string>, vs: seq<T>): (d: seq<(string, T)>)
    requires |ks| == |vs|
    ensures Keys(d) == ks
    ensures |d| == |ks| && forall i :: 0 <= i < |ks| ==> d[i] == (ks[i], vs[i])
  {
    if ks == [] then [] else [(ks[0], vs[0])] + Zip(ks[1..], vs[1..])
  }

  lemma {:induction false} KeysAppend<T>(a: seq<(string, T)>, b: seq<(string, T)>)
    ensures Keys(a + b) == Keys(a) + Keys(b)
    decreases |a|
  {
    if a == [] {
      assert a + b == b;
    } else {
      assert (a + b)[0] == a[0] && (a + b)[1..] == a[1..] + b;
      KeysAppend(a[1..], b);
    }
  }

  /** Two key lists joined are distinct exactly when each is and they share
      no key. */
  lemma {:induction false} DistinctAppend(a: seq<string>, b: seq<string>)
    ensures Distinct(a + b) <==> Distinct(a) && Distinct(b) && forall x :: x in a ==> x !in b
    decreases |a|
  {
    if a == [] {
      assert a + b == b;
    } else {
      assert (a + b)[0] == a[0] && (a + b)[1..] == a[1..] + b;
      DistinctAppend(a[1..], b);
      assert forall x :: x in a <==> x == a[0] || x in a[1..];
    }
  }

  /** Pairwise-different keys are distinct. */
  lemma {:induction false} DistinctByIndex(ks: seq<string>)
    requires forall i, j :: 0 <= i < j < |ks| ==> ks[i] != ks[j]
    ensures Distinct(ks)
  {
    if ks != [] {
      assert forall j :: 0 <= j < |ks[1..]| ==> ks[1..][j] == ks[j + 1];
      DistinctByIndex(ks[1..]);
    }
  }

  /** Keys that differ in length or in one of their first two characters
      are distinct; cheaper to check on a long literal list. */
  lemma DistinctBySignature(ks: seq<string>)
    requires forall i :: 0 <= i < |ks| ==> |ks[i]| >= 2
    requires forall i, j :: 0 <= i < j < |ks| ==> |ks[i]| != |ks[j]| || ks[i][0] != ks[j][0] || ks[i][1] != ks[j][1]
    ensures Distinct(ks)
  {
    DistinctByIndex(ks);
  }

  lemma {:induction false} KeysAt<T>(d: seq<(string, T)>, i: nat)
    requires i < |d|
    ensures Keys(d)[i] == d[i].0
  {
    if i > 0 { KeysAt(d[1..], i - 1); }
  }

  /** The value stored under a key that occurs once is the one in its pair. */
  lemma {:induction false} GetDistinct<T>(d: seq<(string, T)>, i: nat)
    requires Distinct(Keys(d)) && i < |d|
    ensures Get(d, d[i].0) == Some(d[i].1)
  {
    if i > 0 {
      KeysAt(d, i);
      assert d[i].0 in Keys(d[1..]) by {
        KeysAt(d[1..], i - 1);
      }
      GetDistinct(d[1..], i - 1);
    }
  }
}
