/** The operations of the `datasets` library that the few-shot sampler uses
    (`Dataset.select`, `Dataset.shuffle`, `Dataset.filter`, `concatenate_datasets`),
    modelled on sequences of examples. */
module Splits {

  /** One row of a split: an opaque text payload and its class label, already
      converted with `int(...)` as the sampler's filter does. */
  datatype Example = Example(source: string, classLabel: int)

  /** A split ("train", "validation", "test", ...): an ordered sequence of examples. */
  type Split = seq<Example>

  function Min(a: int, b: int): int { if a <= b then a else b }

  /** The index list `range(lo, hi)`: empty when `hi <= lo`. */
  function Range(lo: int, hi: int): (r: seq<int>)
    ensures |r| == if lo < hi then hi - lo else 0
    ensures forall k :: 0 <= k < |r| ==> r[k] == lo + k
  {
    if hi <= lo then [] else seq(hi - lo, k => lo + k)
  }

  /** `Dataset.select(indices)`: the rows at the given indices, in the order of the indices. */
  function Select(s: Split, indices: seq<int>): (r: Split)
    requires forall k :: 0 <= k < |indices| ==> 0 <= indices[k] < |s|
    ensures |r| == |indices|
    ensures forall k :: 0 <= k < |r| ==> r[k] == s[indices[k]]
  {
    seq(|indices|, k requires 0 <= k < |indices| => s[indices[k]])
  }

  /** Selecting a contiguous range of indices is the slice `s[lo..hi]`. */
  lemma SelectRange(s: Split, lo: int, hi: int)
    requires 0 <= lo <= hi <= |s|
    ensures Select(s, Range(lo, hi)) == s[lo..hi]
  {
  }

  /** A bijection of the indices `[0, n)`: what the library's generator draws for
      `Dataset.shuffle(seed=...)` on a split of `n` rows. */
  ghost predicate IsPermutation(perm: seq<nat>, n: nat) {
    && |perm| == n
    && (forall i :: 0 <= i < n ==> perm[i] < n)
    && (forall i, j :: 0 <= i < j < n ==> perm[i] != perm[j])
    && (forall v :: 0 <= v < n ==> v in perm)
  }

  /** Removing the entry `n - 1` from a permutation of `[0, n)` leaves a permutation of `[0, n - 1)`. */
  lemma DropTop(perm: seq<nat>, n: nat, j: nat)
    requires n > 0 && IsPermutation(perm, n)
    requires j < n && perm[j] == n - 1
    ensures IsPermutation(perm[..j] + perm[j + 1..], n - 1)
  {
    var rest := perm[..j] + perm[j + 1..];
    assert forall i :: 0 <= i < j ==> rest[i] == perm[i];
    assert forall i :: j <= i < n - 1 ==> rest[i] == perm[i + 1];
    forall v | 0 <= v < n - 1
      ensures v in rest
    {
      assert v in perm;
      var i :| 0 <= i < n && perm[i] == v;
      if i < j {
        assert rest[i] == v;
      } else {
        assert i != j;
        assert rest[i - 1] == v;
      }
    }
  }

  /** The position of the largest index in a permutation. */
  lemma IndexOfTop(perm: seq<nat>, n: nat) returns (j: nat)
    requires n > 0 && IsPermutation(perm, n)
    ensures j < n && perm[j] == n - 1
  {
    assert n - 1 in perm;
    j :| 0 <= j < |perm| && perm[j] == n - 1;
  }

  /** Reordering `s` by a permutation whose entry `j` is the last index is reordering
      the prefix by the remaining entries, with the last row inserted at position `j`. */
  lemma SelectDropTop(s: Split, perm: seq<nat>, j: nat)
    requires |s| > 0 && IsPermutation(perm, |s|)
    requires j < |s| && perm[j] == |s| - 1
    ensures IsPermutation(perm[..j] + perm[j + 1..], |s| - 1)
    ensures var a := Select(s[..|s| - 1], perm[..j] + perm[j + 1..]);
            Select(s, perm) == a[..j] + [s[|s| - 1]] + a[j..]
  {
    var n := |s| - 1;
    var rest := perm[..j] + perm[j + 1..];
    DropTop(perm, |s|, j);
    var a := Select(s[..n], rest);
    var r := Select(s, perm);
    var b := a[..j] + [s[n]] + a[j..];
    forall k | 0 <= k < |r|
      ensures r[k] == b[k]
    {
      if k < j {
        assert rest[k] == perm[k] && perm[k] < n;
        assert b[k] == a[k] == s[..n][perm[k]];
      } else if k > j {
        assert rest[k - 1] == perm[k] && perm[k] < n;
        assert b[k] == a[k - 1] == s[..n][perm[k]];
      } else {
        assert b[k] == s[n];
      }
    }
    assert |r| == |b|;
  }

  /** Inserting the last row of `s` anywhere into a reordering of the rest of `s` gives
      a reordering of `s`. */
  lemma MultisetInsert(s: Split, a: Split, j: nat)
    requires |s| > 0 && j <= |a|
    requires multiset(a) == multiset(s[..|s| - 1])
    ensures multiset(a[..j] + [s[|s| - 1]] + a[j..]) == multiset(s)
  {
    assert a == a[..j] + a[j..];
    assert s == s[..|s| - 1] + [s[|s| - 1]];
  }

  /** Reordering by a permutation keeps every row, as often as it occurs. */
  lemma {:induction false} SelectPermutationMultiset(s: Split, perm: seq<nat>)
    requires IsPermutation(perm, |s|)
    ensures multiset(Select(s, perm)) == multiset(s)
    decreases |s|
  {
    if |s| > 0 {
      var n := |s| - 1;
      var j := IndexOfTop(perm, |s|);
      var rest := perm[..j] + perm[j + 1..];
      SelectDropTop(s, perm, j);
      SelectPermutationMultiset(s[..n], rest);
      MultisetInsert(s, Select(s[..n], rest), j);
    }
  }

  /** `Dataset.shuffle(seed)`: the split reordered by the permutation the seed determines.
      The same seed always gives the same permutation, so the result is reproducible. */
  function Shuffle(s: Split, perm: seq<nat>): (r: Split)
    requires IsPermutation(perm, |s|)
    ensures |r| == |s|
    ensures multiset(r) == multiset(s)
  {
    SelectPermutationMultiset(s, perm);
    Select(s, perm)
  }

  /** `Dataset.filter(lambda example: int(example['label']) == cls)`: the rows carrying
      the class `cls`, in their original relative order. */
  function FilterLabel(s: Split, cls: int): (r: Split)
    ensures |r| <= |s|
    ensures forall k :: 0 <= k < |r| ==> r[k].classLabel == cls
  {
    if s == [] then []
    else FilterLabel(s[..|s| - 1], cls) + (if s[|s| - 1].classLabel == cls then [s[|s| - 1]] else [])
  }

  /** The number of rows of `s` that carry the class `cls`. */
  function Count(s: Split, cls: int): nat {
    |FilterLabel(s, cls)|
  }

  /** Filtering keeps every row with the label, as often as it occurs, and no other row. */
  lemma {:induction false} FilterMultiset(s: Split, cls: int, e: Example)
    ensures multiset(FilterLabel(s, cls))[e] == if e.classLabel == cls then multiset(s)[e] else 0
  {
    if s != [] {
      var init := s[..|s| - 1];
      FilterMultiset(init, cls, e);
      assert s == init + [s[|s| - 1]];
    }
  }

  /** Splits holding the same rows hold the same number of rows of each label. */
  lemma CountFromMultiset(a: Split, b: Split, cls: int)
    requires multiset(a) == multiset(b)
    ensures Count(a, cls) == Count(b, cls)
  {
    forall e ensures multiset(FilterLabel(a, cls))[e] == multiset(FilterLabel(b, cls))[e] {
      FilterMultiset(a, cls, e);
      FilterMultiset(b, cls, e);
    }
    assert multiset(FilterLabel(a, cls)) == multiset(FilterLabel(b, cls));
    assert |multiset(FilterLabel(a, cls))| == |FilterLabel(a, cls)|;
    assert |multiset(FilterLabel(b, cls))| == |FilterLabel(b, cls)|;
  }

  /** Shuffling does not change how many rows carry each label. */
  lemma ShuffleKeepsCounts(s: Split, perm: seq<nat>, cls: int)
    requires IsPermutation(perm, |s|)
    ensures Count(Shuffle(s, perm), cls) == Count(s, cls)
  {
    CountFromMultiset(Shuffle(s, perm), s, cls);
  }

  /** Filtering distributes over concatenation. */
  lemma {:induction false} FilterConcat(a: Split, b: Split, cls: int)
    ensures FilterLabel(a + b, cls) == FilterLabel(a, cls) + FilterLabel(b, cls)
    decreases |b|
  {
    if b != [] {
      var init := b[..|b| - 1];
      FilterConcat(a, init, cls);
      var last := b[|b| - 1];
      var tail := if last.classLabel == cls then [last] else [];
      assert (a + b)[..|a + b| - 1] == a + init;
      assert FilterLabel(a + b, cls) == FilterLabel(a + init, cls) + tail;
      assert FilterLabel(b, cls) == FilterLabel(init, cls) + tail;
    } else {
      assert a + b == a;
    }
  }

  /** Filtering a split whose rows all carry one label keeps all of it for that label
      and nothing of it for any other label. */
  lemma {:induction false} FilterUniform(s: Split, own: int, cls: int)
    requires forall k :: 0 <= k < |s| ==> s[k].classLabel == own
    ensures FilterLabel(s, cls) == if cls == own then s else []
  {
    if s != [] {
      var init := s[..|s| - 1];
      FilterUniform(init, own, cls);
      assert s == init + [s[|s| - 1]];
    }
  }

  /** The rows of all the parts together, as a multiset. */
  function AllRows(parts: seq<Split>): multiset<Example> {
    if parts == [] then multiset{} else AllRows(parts[..|parts| - 1]) + multiset(parts[|parts| - 1])
  }

  /** `concatenate_datasets(parts)`: the parts joined in list order. It holds exactly the
      rows of the parts, each as often as the parts together hold it. */
  function Concat(parts: seq<Split>): (r: Split)
    ensures multiset(r) == AllRows(parts)
  {
    if parts == [] then [] else Concat(parts[..|parts| - 1]) + parts[|parts| - 1]
  }
}
