/**
  Python dictionaries keyed by strings, as the pipeline uses them: an ordered
  association list in insertion order whose keys are pairwise distinct, and the
  union operator `a | b`.
 */
module Dicts {
  import opened Wrappers

  ghost predicate DistinctKeys<V>(d: seq<(string, V)>)
  {
    forall i, j :: 0 <= i < j < |d| ==> d[i].0 != d[j].0
  }

  /** A dictionary: its entries in iteration (insertion) order, no key twice. */
  type Dict<V> = d: seq<(string, V)> | DistinctKeys(d) witness []

  /** The keys, in iteration order (what `for k in d` visits). */
  function Keys<V>(d: seq<(string, V)>): (ks: seq<string>)
    ensures |ks| == |d|
    ensures forall i :: 0 <= i < |d| ==> ks[i] == d[i].0
  {
    if |d| == 0 then [] else [d[0].0] + Keys(d[1..])
  }

  /** `d.get(k)`: the value of the first entry with key `k`, if any. */
  function Get<V>(d: seq<(string, V)>, k: string): (v: Option<V>)
    ensures v.Some? <==> k in Keys(d)
  {
    if |d| == 0 then None
    else if d[0].0 == k then Some(d[0].1)
    else Get(d[1..], k)
  }

  lemma {:induction false} KeysAppend<V>(x: seq<(string, V)>, y: seq<(string, V)>)
    ensures Keys(x + y) == Keys(x) + Keys(y)
    decreases |x|
  {
    if |x| == 0 {
      assert x + y == y;
    } else {
      assert (x + y)[1..] == x[1..] + y;
      KeysAppend(x[1..], y);
    }
  }

  lemma {:induction false} GetAppend<V>(x: seq<(string, V)>, y: seq<(string, V)>, k: string)
    ensures Get(x + y, k) == if Get(x, k).Some? then Get(x, k) else Get(y, k)
    decreases |x|
  {
    if |x| == 0 {
      assert x + y == y;
    } else {
      assert (x + y)[1..] == x[1..] + y;
      GetAppend(x[1..], y, k);
    }
  }

  /** Two dictionaries with no key in common can be laid one after the other. */
  lemma DistinctAppend<V>(x: seq<(string, V)>, y: seq<(string, V)>)
    requires DistinctKeys(x) && DistinctKeys(y)
    requires forall k :: k in Keys(y) ==> k !in Keys(x)
    ensures DistinctKeys(x + y)
  {
    var r := x + y;
    forall i, j | 0 <= i < j < |r| ensures r[i].0 != r[j].0 {
      if j < |x| {
        assert r[i] == x[i] && r[j] == x[j];
      } else if i >= |x| {
        assert r[i] == y[i - |x|] && r[j] == y[j - |x|];
      } else {
        assert r[i] == x[i] && r[j] == y[j - |x|];
        var kx, ky := Keys(x), Keys(y);
        assert kx[i] == x[i].0 && ky[j - |x|] == y[j - |x|].0;
        assert ky[j - |x|] in ky;
      }
    }
  }

  /** The entries of `a`, each taking `b`'s value where `b` has the same key. */
  function Overwrite<V>(a: seq<(string, V)>, b: seq<(string, V)>): (r: seq<(string, V)>)
    ensures Keys(r) == Keys(a)
  {
    if |a| == 0 then []
    else
      var v := match Get(b, a[0].0) case Some(w) => w case None => a[0].1;
      var r := [(a[0].0, v)] + Overwrite(a[1..], b);
      assert r[1..] == Overwrite(a[1..], b);
      r
  }

  lemma {:induction false} GetOverwrite<V>(a: seq<(string, V)>, b: seq<(string, V)>, k: string)
    ensures Get(Overwrite(a, b), k) == if k in Keys(a) && Get(b, k).Some? then Get(b, k) else Get(a, k)
    decreases |a|
  {
    if |a| > 0 {
      var r := Overwrite(a, b);
      assert r[1..] == Overwrite(a[1..], b);
      GetOverwrite(a[1..], b, k);
    }
  }

  /** The entries of `b` whose keys are not keys of `a`, in their order in `b`. */
  function Without<V>(b: seq<(string, V)>, a: seq<(string, V)>): (r: seq<(string, V)>)
    ensures forall k :: k in Keys(r) <==> k in Keys(b) && k !in Keys(a)
  {
    if |b| == 0 then []
    else if b[0].0 in Keys(a) then Without(b[1..], a)
    else
      var r := [b[0]] + Without(b[1..], a);
      assert r[1..] == Without(b[1..], a);
      r
  }

  lemma {:induction false} GetWithout<V>(b: seq<(string, V)>, a: seq<(string, V)>, k: string)
    ensures Get(Without(b, a), k) == if k in Keys(a) then None else Get(b, k)
    decreases |b|
  {
    if |b| > 0 {
      GetWithout(b[1..], a, k);
      if b[0].0 !in Keys(a) {
        assert ([b[0]] + Without(b[1..], a))[1..] == Without(b[1..], a);
      }
    }
  }

  lemma {:induction false} WithoutDistinct<V>(b: seq<(string, V)>, a: seq<(string, V)>)
    requires DistinctKeys(b)
    ensures DistinctKeys(Without(b, a))
    decreases |b|
  {
    if |b| > 0 {
      assert DistinctKeys(b[1..]) by {
        forall i, j | 0 <= i < j < |b[1..]| ensures b[1..][i].0 != b[1..][j].0 {
          assert b[1..][i] == b[i + 1] && b[1..][j] == b[j + 1];
        }
      }
      WithoutDistinct(b[1..], a);
      if b[0].0 !in Keys(a) {
        assert b[0].0 !in Keys(b[1..]) by {
          forall i | 0 <= i < |b[1..]| ensures Keys(b[1..])[i] != b[0].0 {
            assert b[1..][i] == b[i + 1];
          }
        }
        DistinctAppend([b[0]], Without(b[1..], a));
      }
    }
  }

  /**
    Python's `a | b`: the keys of `a` in their order, then the keys of `b` that
    are not in `a` in their order; a key present in `b` takes `b`'s value.
   */
  function Union<V>(a: Dict<V>, b: Dict<V>): (r: Dict<V>)
    ensures Keys(r) == Keys(a) + Keys(Without(b, a))
    ensures forall k :: k in Keys(r) <==> k in Keys(a) || k in Keys(b)
    ensures r == [] <==> a == [] && b == []
  {
    var front := Overwrite(a, b);
    var back := Without(b, a);
    KeysAppend(front, back);
    WithoutDistinct(b, a);
    assert DistinctKeys(front) by {
      forall i, j | 0 <= i < j < |front| ensures front[i].0 != front[j].0 {
        assert Keys(front)[i] == Keys(a)[i] && Keys(front)[j] == Keys(a)[j];
      }
    }
    DistinctAppend(front, back);
    front + back
  }

  /** A key of `a | b` takes its value from `b` when `b` has it, otherwise from `a`. */
  lemma GetUnion<V>(a: Dict<V>, b: Dict<V>, k: string)
    ensures Get(Union(a, b), k) == if Get(b, k).Some? then Get(b, k) else Get(a, k)
  {
    GetAppend(Overwrite(a, b), Without(b, a), k);
    GetOverwrite(a, b, k);
    GetWithout(b, a, k);
  }

}
