/** Sums of a counter over a sequence of keys of a map: the totals of the
    run's per-provider counters and of the scoring buckets. */
module Sums {
  import opened Text

  /** The counter of key `k`, or 0 when `m` has no entry for it. */
  function Val<V>(m: map<string, V>, k: string, f: V -> int): int {
    if k in m then f(m[k]) else 0
  }

  function SumOf<V>(keys: seq<string>, m: map<string, V>, f: V -> int): int
    decreases |keys|
  {
    if keys == [] then 0
    else SumOf(keys[..|keys| - 1], m, f) + Val(m, keys[|keys| - 1], f)
  }

  lemma {:induction false} SumOfSame<V>(keys: seq<string>, a: map<string, V>, b: map<string, V>, f: V -> int)
    requires forall k :: k in keys ==> Val(a, k, f) == Val(b, k, f)
    ensures SumOf(keys, a, f) == SumOf(keys, b, f)
    decreases |keys|
  {
    if keys != [] {
      SumOfSame(keys[..|keys| - 1], a, b, f);
    }
  }

  lemma {:induction false} SumOfZero<V>(keys: seq<string>, m: map<string, V>, f: V -> int)
    requires forall k :: k in keys ==> Val(m, k, f) == 0
    ensures SumOf(keys, m, f) == 0
    decreases |keys|
  {
    if keys != [] {
      SumOfZero(keys[..|keys| - 1], m, f);
    }
  }

  lemma SumSnoc<V>(keys: seq<string>, k: string, m: map<string, V>, f: V -> int)
    ensures SumOf(keys + [k], m, f) == SumOf(keys, m, f) + Val(m, k, f)
  {
    assert (keys + [k])[..|keys|] == keys;
  }

  lemma DistinctInit<T>(s: seq<T>)
    requires Distinct(s) && |s| > 0
    ensures Distinct(s[..|s| - 1]) && s[|s| - 1] !in s[..|s| - 1]
  {
    var init := s[..|s| - 1];
    forall i, j | 0 <= i < j < |init| ensures init[i] != init[j] {
      assert init[i] == s[i] && init[j] == s[j];
    }
  }

  /** Changing the entry of one key changes the sum by the difference, when
      the key is listed once, and not at all when it is not listed. */
  lemma {:induction false} SumUpdate<V>(keys: seq<string>, m: map<string, V>, k: string, v: V, f: V -> int)
    requires Distinct(keys)
    ensures k in keys ==> SumOf(keys, m[k := v], f) == SumOf(keys, m, f) - Val(m, k, f) + f(v)
    ensures k !in keys ==> SumOf(keys, m[k := v], f) == SumOf(keys, m, f)
    decreases |keys|
  {
    if keys != [] {
      var init := keys[..|keys| - 1];
      var last := keys[|keys| - 1];
      assert keys == init + [last];
      DistinctInit(keys);
      if last == k {
        SumOfSame(init, m, m[k := v], f);
      } else {
        SumUpdate(init, m, k, v, f);
      }
    }
  }

  /** Sums over two maps agree when the counters agree key by key. */
  lemma {:induction false} SumOfAcross<U, V>(keys: seq<string>, a: map<string, U>, f: U -> int,
                                             b: map<string, V>, g: V -> int)
    requires forall k :: k in keys ==> Val(a, k, f) == Val(b, k, g)
    ensures SumOf(keys, a, f) == SumOf(keys, b, g)
    decreases |keys|
  {
    if keys != [] {
      SumOfAcross(keys[..|keys| - 1], a, f, b, g);
    }
  }
}
