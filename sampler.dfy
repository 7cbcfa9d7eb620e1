/** The class-balanced few-shot sampling of `AbstractTask.sample_datasets`, as
    functions of the shuffled train split, and what they guarantee. */
module Sampler {
  import opened Splits

  /** Which of the two sampled splits a slice goes to. */
  datatype Part = TrainPart | DevPart

  /** The per-label sample size: the number of indices in `range(min(count // 2, cap))`,
      so a non-positive cap selects nothing. */
  function Quota(count: nat, cap: int): (n: nat)
    ensures 2 * n <= count
    ensures n <= cap || n == 0
    ensures n + 1 > cap || 2 * (n + 1) > count
  {
    var m := Min(count / 2, cap);
    if m < 0 then 0 else m
  }

  /** The contribution of class `cls` to one sampled split: among the rows of `s` with that
      label, in order, the first `n` for train and the next `n` for dev. */
  function Slice(s: Split, cls: int, cap: int, part: Part): (r: Split)
    ensures |r| == Quota(Count(s, cls), cap)
    ensures forall k :: 0 <= k < |r| ==> r[k].classLabel == cls
  {
    var data := FilterLabel(s, cls);
    var n := Quota(|data|, cap);
    match part
    case TrainPart => data[..n]
    case DevPart => data[n..2 * n]
  }

  /** The per-label slices for the labels `0 .. k - 1`, in label order: the list the loop builds. */
  function Blocks(s: Split, k: nat, cap: int, part: Part): (r: seq<Split>)
    ensures |r| == k
  {
    if k == 0 then [] else Blocks(s, k - 1, cap, part) + [Slice(s, k - 1, cap, part)]
  }

  /** Entry `c` of the list the loop builds is the slice of label `c`. */
  lemma {:induction false} BlocksAt(s: Split, k: nat, cap: int, part: Part, c: nat)
    requires c < k
    ensures Blocks(s, k, cap, part)[c] == Slice(s, c, cap, part)
  {
    if c < k - 1 {
      BlocksAt(s, k - 1, cap, part, c);
    }
  }

  /** Joining the slices of the labels `0 .. k - 1` gives the total of their quotas. */
  lemma {:induction false} JoinedLength(s: Split, k: nat, cap: int, part: Part)
    ensures |Concat(Blocks(s, k, cap, part))| == TotalQuota(s, k, cap)
  {
    if k > 0 {
      JoinedLength(s, k - 1, cap, part);
      var blocks := Blocks(s, k, cap, part);
      assert blocks[..k - 1] == Blocks(s, k - 1, cap, part);
    }
  }

  /** The sampled split: the per-label slices for the labels `0 .. numLabels - 1`, joined.
      It holds the total of the per-label quotas. */
  function Sampled(s: Split, numLabels: nat, cap: int, part: Part): (r: Split)
    ensures |r| == TotalQuota(s, numLabels, cap)
  {
    JoinedLength(s, numLabels, cap, part);
    Concat(Blocks(s, numLabels, cap, part))
  }

  /** Adding one label appends that label's slice. */
  lemma SampledStep(s: Split, k: nat, cap: int, part: Part)
    ensures Sampled(s, k + 1, cap, part) == Sampled(s, k, cap, part) + Slice(s, k, cap, part)
  {
  }

  /** The rows of class `cls` in a sampled split are exactly that class's slice, in order,
      and there are none when `cls` is outside `[0, numLabels)`. */
  lemma {:induction false} SampledClassView(s: Split, numLabels: nat, cap: int, part: Part, cls: int)
    ensures FilterLabel(Sampled(s, numLabels, cap, part), cls)
            == if 0 <= cls < numLabels then Slice(s, cls, cap, part) else []
  {
    if numLabels > 0 {
      var k := numLabels - 1;
      SampledClassView(s, k, cap, part, cls);
      SampledStep(s, k, cap, part);
      FilterConcat(Sampled(s, k, cap, part), Slice(s, k, cap, part), cls);
      FilterUniform(Slice(s, k, cap, part), k, cls);
    }
  }

  /** Every label of `r` lies in `[0, n)`. */
  predicate LabelsWithin(r: Split, n: int) {
    forall i :: 0 <= i < |r| ==> 0 <= r[i].classLabel < n
  }

  /** Labels never decrease along `r`. */
  predicate LabelsSorted(r: Split) {
    forall i, j :: 0 <= i < j < |r| ==> r[i].classLabel <= r[j].classLabel
  }

  /** Appending a block of label `k` to an ordered split of labels below `k` keeps it ordered. */
  lemma AppendBlock(prev: Split, last: Split, k: nat)
    requires LabelsWithin(prev, k) && LabelsSorted(prev)
    requires forall i :: 0 <= i < |last| ==> last[i].classLabel == k
    ensures LabelsWithin(prev + last, k + 1) && LabelsSorted(prev + last)
  {
    var r := prev + last;
    forall i | 0 <= i < |r|
      ensures 0 <= r[i].classLabel < k + 1
      ensures i < |prev| ==> r[i].classLabel < k
      ensures i >= |prev| ==> r[i].classLabel == k
    {
      if i < |prev| {
        assert r[i] == prev[i] && 0 <= prev[i].classLabel < k;
      } else {
        assert r[i] == last[i - |prev|];
      }
    }
    forall i, j | 0 <= i < j < |r|
      ensures r[i].classLabel <= r[j].classLabel
    {
      if j < |prev| {
        assert r[i] == prev[i] && r[j] == prev[j];
        assert prev[i].classLabel <= prev[j].classLabel;
      } else {
        assert r[j].classLabel == k && r[i].classLabel < k + 1;
      }
    }
  }

  /** A sampled split lists the class-0 block first, then class 1, and so on: every label
      lies in `[0, numLabels)` and labels never decrease along the split. */
  lemma {:induction false} SampledOrdered(s: Split, numLabels: nat, cap: int, part: Part)
    ensures LabelsWithin(Sampled(s, numLabels, cap, part), numLabels)
    ensures LabelsSorted(Sampled(s, numLabels, cap, part))
  {
    if numLabels > 0 {
      var k := numLabels - 1;
      SampledOrdered(s, k, cap, part);
      SampledStep(s, k, cap, part);
      AppendBlock(Sampled(s, k, cap, part), Slice(s, k, cap, part), k);
    }
  }

  /** The total of the per-label quotas over the labels `0 .. k - 1`. */
  function TotalQuota(s: Split, k: nat, cap: int): nat {
    if k == 0 then 0 else TotalQuota(s, k - 1, cap) + Quota(Count(s, k - 1), cap)
  }

  /** The total quota is at most `k * cap`, and exactly that when every label below `k` has at
      least `2 * cap` rows. */
  lemma {:induction false} TotalQuotaBound(s: Split, k: nat, cap: int)
    ensures TotalQuota(s, k, cap) <= k * (if cap < 0 then 0 else cap)
    ensures cap >= 0 && (forall c :: 0 <= c < k ==> Count(s, c) >= 2 * cap)
            ==> TotalQuota(s, k, cap) == k * cap
  {
    if k > 0 {
      TotalQuotaBound(s, k - 1, cap);
      var c := if cap < 0 then 0 else cap;
      assert k * c == (k - 1) * c + c;
      if cap >= 0 && (forall c :: 0 <= c < k ==> Count(s, c) >= 2 * cap) {
        assert Count(s, k - 1) >= 2 * cap;
        assert k * cap == (k - 1) * cap + cap;
      }
    }
  }

  /** The train and dev slices of one label are disjoint pieces of that label's rows. */
  lemma SlicesWithinClass(s: Split, cls: int, cap: int, e: Example)
    ensures multiset(Slice(s, cls, cap, TrainPart))[e] + multiset(Slice(s, cls, cap, DevPart))[e]
            <= if e.classLabel == cls then multiset(s)[e] else 0
  {
    var data := FilterLabel(s, cls);
    var n := Quota(|data|, cap);
    assert data == data[..n] + data[n..2 * n] + data[2 * n..];
    FilterMultiset(s, cls, e);
  }

  /** Per row value: the two sampled splits together use each row of `s` at most as often
      as it occurs in `s`, and never a row whose label is outside `[0, numLabels)`. */
  lemma {:induction false} SampledWithinAt(s: Split, numLabels: nat, cap: int, e: Example)
    ensures multiset(Sampled(s, numLabels, cap, TrainPart))[e]
            + multiset(Sampled(s, numLabels, cap, DevPart))[e]
            <= if 0 <= e.classLabel < numLabels then multiset(s)[e] else 0
  {
    if numLabels > 0 {
      var k := numLabels - 1;
      SampledWithinAt(s, k, cap, e);
      SampledStep(s, k, cap, TrainPart);
      SampledStep(s, k, cap, DevPart);
      SlicesWithinClass(s, k, cap, e);
    }
  }

  /** The sampled train and dev splits are drawn from `s` without reuse: together they are
      a sub-multiset of `s`, so no row of `s` lands in both. */
  lemma SampledWithin(s: Split, numLabels: nat, cap: int)
    ensures multiset(Sampled(s, numLabels, cap, TrainPart)) + multiset(Sampled(s, numLabels, cap, DevPart))
            <= multiset(s)
  {
    forall e ensures multiset(Sampled(s, numLabels, cap, TrainPart))[e]
                     + multiset(Sampled(s, numLabels, cap, DevPart))[e] <= multiset(s)[e]
    {
      SampledWithinAt(s, numLabels, cap, e);
    }
  }

  /** A worked case: two labels, ten rows of label 0 and three of label 1, cap 10. Each
      sampled split holds six rows: five of label 0 and one of label 1. */
  lemma TwoLabelExample(s: Split, part: Part)
    requires Count(s, 0) == 10 && Count(s, 1) == 3
    ensures |Sampled(s, 2, 10, part)| == 6
    ensures Count(Sampled(s, 2, 10, part), 0) == 5 && Count(Sampled(s, 2, 10, part), 1) == 1
  {
    assert Quota(Count(s, 0), 10) == 5 && Quota(Count(s, 1), 10) == 1;
    assert TotalQuota(s, 2, 10) == TotalQuota(s, 1, 10) + Quota(Count(s, 1), 10);
    assert TotalQuota(s, 1, 10) == Quota(Count(s, 0), 10);
    var r := Sampled(s, 2, 10, part);
    assert |r| == TotalQuota(s, 2, 10);
    SampledClassView(s, 2, 10, part, 0);
    SampledClassView(s, 2, 10, part, 1);
    assert FilterLabel(r, 0) == Slice(s, 0, 10, part) && FilterLabel(r, 1) == Slice(s, 1, 10, part);
  }
}
