/** Sums and listings over maps with positive integer keys, as the source's ordered maps give them. */
module Sums {
  /** Sum of `f` over the values at keys 1..n. */
  ghost function SumTo<T(!new)>(m: map<int, T>, f: T -> int, n: int): int
    decreases if n < 0 then 0 else n
  {
    if n <= 0 then 0 else SumTo(m, f, n - 1) + if n in m then f(m[n]) else 0
  }

  /** The keys among 1..n, ascending. */
  ghost function KeysTo<T(!new)>(m: map<int, T>, n: int): seq<int>
    decreases if n < 0 then 0 else n
  {
    if n <= 0 then [] else KeysTo(m, n - 1) + if n in m then [n] else []
  }

  function At<T>(m: map<int, T>, k: int, f: T -> int): int {
    if k in m then f(m[k]) else 0
  }

  lemma {:induction false} SumSame<T(!new)>(m: map<int, T>, w: map<int, T>, f: T -> int, n: int)
    requires forall k | 1 <= k <= n :: At(m, k, f) == At(w, k, f)
    ensures SumTo(m, f, n) == SumTo(w, f, n)
    decreases if n < 0 then 0 else n
  {
    if n > 0 {
      SumSame(m, w, f, n - 1);
      assert At(m, n, f) == At(w, n, f);
    }
  }

  /** Changing one value, or adding or removing one key, moves the sum by that key's difference. */
  lemma {:induction false} SumChange<T(!new)>(m: map<int, T>, w: map<int, T>, f: T -> int, k: int, n: int)
    requires 1 <= k <= n
    requires forall i | i != k :: (i in m <==> i in w) && (i in m ==> m[i] == w[i])
    ensures SumTo(w, f, n) == SumTo(m, f, n) - At(m, k, f) + At(w, k, f)
    decreases n
  {
    if k == n {
      forall i | 1 <= i <= n - 1 ensures At(m, i, f) == At(w, i, f) {
        assert i != k;
      }
      SumSame(m, w, f, n - 1);
    } else {
      SumChange(m, w, f, k, n - 1);
      assert At(m, n, f) == At(w, n, f);
    }
  }

  lemma {:induction false} SumNone<T(!new)>(f: T -> int, n: int)
    ensures SumTo(map[], f, n) == 0
    decreases if n < 0 then 0 else n
  {
    if n > 0 {
      SumNone<T>(f, n - 1);
    }
  }

  lemma {:induction false} SumBound<T(!new)>(m: map<int, T>, f: T -> int, k: int, n: int)
    requires 1 <= k <= n && k in m
    requires forall i | i in m :: f(m[i]) >= 0
    ensures 0 <= f(m[k]) <= SumTo(m, f, n)
    decreases n
  {
    SumPositive(m, f, n - 1);
    if k < n {
      SumBound(m, f, k, n - 1);
    }
  }

  lemma {:induction false} SumPositive<T(!new)>(m: map<int, T>, f: T -> int, n: int)
    requires forall i | i in m :: f(m[i]) >= 0
    ensures 0 <= SumTo(m, f, n)
    decreases if n < 0 then 0 else n
  {
    if n > 0 {
      SumPositive(m, f, n - 1);
    }
  }

  /** The listing has every key once, in order. */
  lemma {:induction false} KeysAre<T(!new)>(m: map<int, T>, n: int)
    ensures forall i | 0 <= i < |KeysTo(m, n)| :: 1 <= KeysTo(m, n)[i] <= n && KeysTo(m, n)[i] in m
    ensures forall i, j | 0 <= i < j < |KeysTo(m, n)| :: KeysTo(m, n)[i] < KeysTo(m, n)[j]
    ensures forall k | 1 <= k <= n && k in m :: k in KeysTo(m, n)
    decreases if n < 0 then 0 else n
  {
    if n > 0 {
      KeysAre(m, n - 1);
    }
  }

  /** Taking off the least key first lists the keys in order. */
  lemma {:induction false} KeysFromLeast<T(!new)>(m: map<int, T>, k: int, n: int)
    requires k in m && 1 <= k <= n && forall i | i in m :: k <= i
    ensures KeysTo(m, n) == [k] + KeysTo(m - {k}, n)
    decreases n
  {
    if k == n {
      NoKeys(m, n - 1);
      NoKeys(m - {k}, n - 1);
    } else {
      KeysFromLeast(m, k, n - 1);
    }
  }

  lemma {:induction false} NoKeys<T(!new)>(m: map<int, T>, n: int)
    requires forall i | i in m :: n < i
    ensures KeysTo(m, n) == []
    decreases if n < 0 then 0 else n
  {
    if n > 0 {
      NoKeys(m, n - 1);
    }
  }

  lemma HasKey<T>(m: map<int, T>)
    requires m != map[]
    ensures exists k :: k in m
  {
    if forall k :: k !in m {
      assert false;
    }
  }

  lemma HasElement(s: set<int>)
    requires s != {}
    ensures exists k :: k in s
  {
    if forall k :: k !in s {
      assert false;
    }
  }
}
