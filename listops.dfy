/** Python and pandas list operations used by the plotting code. */
module ListOps {

  /** Every element differs from every other one. */
  ghost predicate Distinct<T>(s: seq<T>) {
    forall i, j :: 0 <= i < j < |s| ==> s[i] != s[j]
  }

  /** The set of elements of a sequence (Python's `set(s)`). */
  function Elems<T>(s: seq<T>): set<T> {
    set v | v in s
  }

  /** Python's `s * n`: the list `s` concatenated `n` times. */
  function Times<T>(s: seq<T>, n: nat): (r: seq<T>)
    ensures |r| == |s| * n
  {
    if n == 0 then [] else s + Times(s, n - 1)
  }

  /** Block `q` of `s * n` is a copy of `s`. */
  lemma {:induction false} TimesBlock<T>(s: seq<T>, n: nat, q: nat, j: nat)
    requires q < n && j < |s|
    ensures q * |s| + j < |Times(s, n)|
    ensures Times(s, n)[q * |s| + j] == s[j]
  {
    BlockBound(q, n, j, |s|);
    if q > 0 {
      TimesBlock(s, n - 1, q - 1, j);
      BlockShift(q, j, |s|);
    }
  }

  /** Position `i` of `s * n` holds `s[i % |s|]`: the list is tiled cyclically. */
  lemma TimesAt<T>(s: seq<T>, n: nat, i: nat)
    requires i < |Times(s, n)|
    ensures |s| > 0
    ensures Times(s, n)[i] == s[i % |s|]
  {
    Split(i, |s|, n);
    TimesBlock(s, n, i / |s|, i % |s|);
  }

  /** `[c] * n` holds exactly `n` copies of `c`. */
  lemma TimesSingle<T>(c: T, n: nat)
    ensures |Times([c], n)| == n
    ensures forall i :: 0 <= i < n ==> Times([c], n)[i] == c
  {
    forall i | 0 <= i < n
      ensures Times([c], n)[i] == c
    {
      TimesBlock([c], n, i, 0);
    }
  }

  /** pandas `Series.repeat(k)`: every element `k` times in a row, in order. */
  function Repeat<T>(s: seq<T>, k: nat): (r: seq<T>)
    ensures |r| == Blocks(|s|, k)
  {
    if s == [] then [] else Times([s[0]], k) + Repeat(s[1..], k)
  }

  /** `q` blocks of size `k`, counted by repeated addition. */
  function Blocks(q: nat, k: nat): nat {
    if q == 0 then 0 else k + Blocks(q - 1, k)
  }

  /** Counting blocks by addition agrees with multiplication. */
  lemma {:induction false} BlocksProduct(q: nat, k: nat)
    ensures Blocks(q, k) == q * k
  {
    if q > 0 {
      BlocksProduct(q - 1, k);
      assert k + (q - 1) * k == q * k;
    }
  }

  /** Arithmetic: offset `j` of block `q` lies before the end of `n` blocks. */
  lemma {:induction false} BlocksBound(q: nat, n: nat, j: nat, k: nat)
    requires q < n && j < k
    ensures Blocks(q, k) + j < Blocks(n, k)
  {
    if q > 0 {
      BlocksBound(q - 1, n - 1, j, k);
    }
  }

  /** The repeat holds `k` copies of each element. */
  lemma {:induction false} RepeatLength<T>(s: seq<T>, k: nat)
    ensures |Repeat(s, k)| == Blocks(|s|, k)
    ensures |Repeat(s, k)| == |s| * k
  {
    if s != [] {
      RepeatLength(s[1..], k);
      TimesSingle(s[0], k);
    }
    BlocksProduct(|s|, k);
  }

  /** Copy `j` of element `q` sits at position `q * k + j` of the repeat. */
  lemma {:induction false} RepeatBlock<T>(s: seq<T>, k: nat, q: nat, j: nat)
    requires q < |s| && j < k
    ensures Blocks(q, k) + j < |Repeat(s, k)|
    ensures Repeat(s, k)[Blocks(q, k) + j] == s[q]
  {
    RepeatLength(s, k);
    BlocksBound(q, |s|, j, k);
    TimesSingle(s[0], k);
    var head, tail := Times([s[0]], k), Repeat(s[1..], k);
    assert Repeat(s, k) == head + tail;
    if q == 0 {
      assert Repeat(s, k)[j] == head[j];
    } else {
      RepeatBlock(s[1..], k, q - 1, j);
      var i := Blocks(q - 1, k) + j;
      assert tail[i] == s[1..][q - 1];
      assert Repeat(s, k)[i + k] == tail[i];
    }
  }

  /** Position `i` of the repeat holds element `i / k` of the original. */
  lemma RepeatAt<T>(s: seq<T>, k: nat, i: nat)
    requires i < |Repeat(s, k)|
    ensures k > 0 && i / k < |s|
    ensures Repeat(s, k)[i] == s[i / k]
  {
    RepeatLength(s, k);
    DivBlocks(i, k, |s|);
    RepeatBlock(s, k, i / k, i % k);
  }

  /** Arithmetic: an index below `n` blocks of size `k` lies at offset `i % k` of block `i / k`. */
  lemma DivBlocks(i: nat, k: nat, n: nat)
    requires i < n * k
    ensures k > 0 && i / k < n && i % k < k && Blocks(i / k, k) + i % k == i
  {
    assert n * k == k * n;
    Split(i, k, n);
    BlocksProduct(i / k, k);
  }

  /** Arithmetic: the block `q * m + j` lies inside `n` blocks of size `m`. */
  lemma BlockBound(q: nat, n: nat, j: nat, m: nat)
    requires q < n && j < m
    ensures q * m + j < n * m
  {
    assert q * m + j < q * m + m == (q + 1) * m;
    assert (q + 1) * m <= n * m;
  }

  /** Arithmetic: stepping one block back. */
  lemma BlockShift(q: nat, j: nat, m: nat)
    requires q > 0
    ensures (q - 1) * m + j + m == q * m + j
  {
  }

  /** Arithmetic: an index below `m * n` splits into a block below `n` and an offset below `m`. */
  lemma Split(i: nat, m: nat, n: nat)
    requires i < m * n
    ensures m > 0
    ensures i / m < n && i == (i / m) * m + i % m
  {
    assert m != 0;
  }

  /** Python's `s.index(v)`: the first position holding `v`. */
  function IndexOf<T(==)>(s: seq<T>, v: T): (r: nat)
    requires v in s
    ensures r < |s| && s[r] == v
    ensures forall j :: 0 <= j < r ==> s[j] != v
  {
    if s[0] == v then 0 else 1 + IndexOf(s[1..], v)
  }

  /** In a sequence without repetitions, `index` recovers the position. */
  lemma IndexOfDistinct<T>(s: seq<T>, i: nat)
    requires Distinct(s) && i < |s|
    ensures IndexOf(s, s[i]) == i
  {
  }

  /** A sequence without repetitions has as many elements as its set. */
  lemma {:induction false} DistinctCard<T>(s: seq<T>)
    requires Distinct(s)
    ensures |Elems(s)| == |s|
  {
    if s != [] {
      var t := s[1..];
      assert Distinct(t);
      DistinctCard(t);
      assert Elems(s) == Elems(t) + {s[0]};
      forall j | 0 <= j < |t|
        ensures t[j] != s[0]
      {
        assert t[j] == s[j + 1];
      }
    }
  }

  /** A subset has at most as many elements as its superset. */
  lemma SubsetCard<T>(a: set<T>, b: set<T>)
    requires a <= b
    ensures |a| <= |b|
  {
    assert b == a + (b - a);
  }
}
