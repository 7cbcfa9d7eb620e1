/** The task classes of `fewshot/data/tasks.py` (their `task` name and `num_labels`),
    a configured task, the dataset dictionary that sampling rewrites in place, and
    `sample_datasets`, `post_processing` and `get_datasets`. */
module Tasks {
  import opened Splits
  import opened Sampler

  datatype Option<T> = None | Some(value: T)

  /** One subclass of `AbstractTask`. */
  datatype TaskKind =
    | MR | CR | Subj | SST2 | Trec | SST5
    | BoolQ | RTE | CB | WiC
    | QQP | QNLI | MRPC
    | Emotion | EnronSpam | AGNews | AmazonCF
    | Anketa | AnketaBinary
  {
    /** The class attribute `task`. Every class but `AnketaBinary` is in the list of sampled
        tasks, and exactly the SuperGLUE and GLUE classes alias their test split. */
    function Name(): (r: string)
      ensures r in SampledTasks <==> !AnketaBinary?
      ensures r in TestFromValidation <==> BoolQ? || RTE? || CB? || WiC? || QQP? || QNLI? || MRPC?
    {
      match this
      case MR => "mr"
      case CR => "cr"
      case Subj => "subj"
      case SST2 => "SST-2"
      case Trec => "trec"
      case SST5 => "sst-5"
      case BoolQ => "boolq"
      case RTE => "rte"
      case CB => "cb"
      case WiC => "wic"
      case QQP => "qqp"
      case QNLI => "qnli"
      case MRPC => "mrpc"
      case Emotion => "emotion"
      case EnronSpam => "enron_spam"
      case AGNews => "ag_news"
      case AmazonCF => "amazon_cf"
      case Anketa => "anketa"
      case AnketaBinary => "anketa_binary"
    }

    /** The class attribute `num_labels`: every task has between two and six labels. */
    function NumLabels(): (n: nat)
      ensures 2 <= n <= 6
    {
      match this
      case Trec => 6
      case SST5 => 5
      case CB => 3
      case Emotion => 6
      case AGNews => 4
      case Anketa => 3
      case _ => 2
    }
  }

  /** Tasks whose `test` split is replaced by their original `validation` split. */
  const TestFromValidation: set<string> := {"boolq", "rte", "cb", "wic", "qnli", "qqp", "mrpc"}

  /** Tasks that are sampled at all. */
  const SampledTasks: set<string> :=
    {"mr", "cr", "subj", "SST-2", "trec", "sst-5",
     "boolq", "rte", "cb", "wic", "qnli", "qqp", "mrpc",
     "emotion", "enron_spam", "ag_news", "amazon_cf", "anketa"}

  /** A configured task: the instance `AbstractTask.__init__` builds. Nothing updates it afterwards. */
  datatype Task = Task(kind: TaskKind, dataSeed: int, numSamples: Option<int>, cacheDir: string, dataDir: Option<string>)

  /** The dictionary from split name to split that a loader returns and sampling rewrites in place. */
  class DatasetDict {
    var splits: map<string, Split>

    constructor (splits: map<string, Split>)
      ensures this.splits == splits
    {
      this.splits := splits;
    }
  }

  /** How a call ended: normally, or with the exception Python would raise. */
  datatype Outcome = Done | KeyError(key: string) | TypeError

  /** The outcome of `sample_datasets` together with the dictionary it leaves behind. */
  datatype Sampling = Sampling(outcome: Outcome, splits: map<string, Split>)

  /** What `sample_datasets` does to the dictionary `splits`, given the permutation the
      task's `data_seed` draws for the train split. A missing `train` (or, for a task that
      aliases its test split, a missing `validation`) raises `KeyError` before anything
      changes; `num_samples = None` on a sampled task raises `TypeError` at `min` after the
      aliasing is done. */
  function SampleSpec(task: Task, splits: map<string, Split>, perm: seq<nat>): (r: Sampling)
    requires "train" in splits ==> IsPermutation(perm, |splits["train"]|)
    ensures r.outcome == KeyError("train") <==> "train" !in splits
    ensures r.outcome == KeyError("validation")
            <==> "train" in splits && task.kind.Name() in TestFromValidation && "validation" !in splits
    ensures r.outcome == TypeError
            <==> "train" in splits && (task.kind.Name() in TestFromValidation ==> "validation" in splits)
                 && task.kind.Name() in SampledTasks && task.numSamples.None?
    ensures forall k :: k in splits && k != "train" && k != "validation" && k != "test"
                        ==> k in r.splits && r.splits[k] == splits[k]
    ensures splits.Keys <= r.splits.Keys <= splits.Keys + {"test", "validation"}
    ensures r.outcome.KeyError? ==> r.splits == splits
    ensures "train" in splits && task.kind.Name() in TestFromValidation && "validation" in splits
            ==> "test" in r.splits && r.splits["test"] == splits["validation"]
    ensures "test" in splits && task.kind.Name() !in TestFromValidation
            ==> r.splits["test"] == splits["test"]
    ensures task.kind.Name() !in SampledTasks || r.outcome != Done
            ==> (forall k :: k in splits && k != "test" ==> r.splits[k] == splits[k])
    ensures r.outcome == Done && task.kind.Name() in SampledTasks ==> "validation" in r.splits
    ensures task.kind.Name() !in TestFromValidation && task.kind.Name() !in SampledTasks ==> r.splits == splits
    ensures r.outcome in {Done, KeyError("train"), KeyError("validation"), TypeError}
    ensures task.kind.Name() !in TestFromValidation ==> ("test" in r.splits <==> "test" in splits)
    ensures r.outcome != Done ==> ("validation" in r.splits <==> "validation" in splits)
  {
    if "train" !in splits then Sampling(KeyError("train"), splits)
    else
      var shuffled := Shuffle(splits["train"], perm);
      var aliased := task.kind.Name() in TestFromValidation;
      if aliased && "validation" !in splits then Sampling(KeyError("validation"), splits)
      else
        var splits1 := if aliased then splits["test" := splits["validation"]] else splits;
        if task.kind.Name() !in SampledTasks then Sampling(Done, splits1)
        else if task.numSamples.None? then Sampling(TypeError, splits1)
        else
          var cap, numLabels := task.numSamples.value, task.kind.NumLabels();
          Sampling(Done, splits1["train" := Sampled(shuffled, numLabels, cap, TrainPart)]
                                ["validation" := Sampled(shuffled, numLabels, cap, DevPart)])
  }

  /** The two `select` calls of one loop iteration pick that label's train and dev slices. */
  lemma SelectedSlices(s: Split, cls: int, cap: int)
    ensures var data := FilterLabel(s, cls);
            var n := Min(|data| / 2, cap);
            && Select(data, Range(0, n)) == Slice(s, cls, cap, TrainPart)
            && Select(data, Range(n, n * 2)) == Slice(s, cls, cap, DevPart)
  {
    var data := FilterLabel(s, cls);
    var n := Min(|data| / 2, cap);
    if n < 0 {
      assert Range(0, n) == [] && Range(n, n * 2) == [];
    } else {
      SelectRange(data, 0, n);
      SelectRange(data, n, n * 2);
    }
  }

  /** The loop over `range(num_labels)` in `sample_datasets`: for each label, filter the
      shuffled train split, take the first `num_samples` rows for train and the next
      `num_samples` for dev, then join the per-label pieces in label order. */
  method SampleSplits(shuffled: Split, numLabels: nat, cap: int) returns (train: Split, dev: Split)
    ensures train == Sampled(shuffled, numLabels, cap, TrainPart)
    ensures dev == Sampled(shuffled, numLabels, cap, DevPart)
  {
    var sampledTrain: seq<Split> := [];
    var sampledDev: seq<Split> := [];
    for cls := 0 to numLabels
      invariant sampledTrain == Blocks(shuffled, cls, cap, TrainPart)
      invariant sampledDev == Blocks(shuffled, cls, cap, DevPart)
    {
      var data := FilterLabel(shuffled, cls);
      var numSamples := Min(|data| / 2, cap);
      var trainPart := Select(data, Range(0, numSamples));
      var devPart := Select(data, Range(numSamples, numSamples * 2));
      SelectedSlices(shuffled, cls, cap);
      assert trainPart == Slice(shuffled, cls, cap, TrainPart) && devPart == Slice(shuffled, cls, cap, DevPart);
      sampledTrain := sampledTrain + [trainPart];
      sampledDev := sampledDev + [devPart];
    }
    train := Concat(sampledTrain);
    dev := Concat(sampledDev);
  }

  /** `AbstractTask.sample_datasets`: rewrites `datasets` in place. */
  method SampleDatasets(task: Task, datasets: DatasetDict, perm: seq<nat>) returns (outcome: Outcome)
    requires "train" in datasets.splits ==> IsPermutation(perm, |datasets.splits["train"]|)
    modifies datasets
    ensures Sampling(outcome, datasets.splits) == SampleSpec(task, old(datasets.splits), perm)
  {
    if "train" !in datasets.splits {
      return KeyError("train");
    }
    var shuffled := Shuffle(datasets.splits["train"], perm);
    if task.kind.Name() in TestFromValidation {
      if "validation" !in datasets.splits {
        return KeyError("validation");
      }
      datasets.splits := datasets.splits["test" := datasets.splits["validation"]];
    }
    if task.kind.Name() in SampledTasks {
      if task.numSamples.None? {
        return TypeError;
      }
      var train, dev := SampleSplits(shuffled, task.kind.NumLabels(), task.numSamples.value);
      datasets.splits := datasets.splits["train" := train];
      datasets.splits := datasets.splits["validation" := dev];
    }
    return Done;
  }

  /** `AbstractTask.post_processing`: no task overrides it, so it hands back the same
      dictionary object and changes nothing. */
  method PostProcessing(task: Task, datasets: DatasetDict) returns (r: DatasetDict)
    ensures r == datasets
  {
    r := datasets;
  }

  /** What `get_datasets` does to the loaded dictionary `splits`. Without a sample cap it is
      returned as loaded. With a cap it is sampled and post-processed, and then the label
      distributions of `train` and `validation` are computed, so a dictionary that has no
      `validation` at that point raises `KeyError` there. That happens exactly for a task that
      is not sampled (so nothing writes `validation`) whose loader produced none. A normal
      end with a cap guarantees both splits are present. */
  function GetSpec(task: Task, splits: map<string, Split>, perm: seq<nat>): (r: Sampling)
    requires "train" in splits ==> IsPermutation(perm, |splits["train"]|)
    ensures task.numSamples.None? ==> r == Sampling(Done, splits)
    ensures task.numSamples.Some? ==> r.splits == SampleSpec(task, splits, perm).splits
    ensures r.outcome in {Done, KeyError("train"), KeyError("validation")}
    ensures r.outcome == KeyError("train") <==> task.numSamples.Some? && "train" !in splits
    ensures r.outcome == KeyError("validation")
            <==> task.numSamples.Some? && "train" in splits && "validation" !in splits
                 && (task.kind.Name() in TestFromValidation || task.kind.Name() !in SampledTasks)
    ensures r.outcome == Done && task.numSamples.Some? ==> "train" in r.splits && "validation" in r.splits
  {
    if task.numSamples.None? then Sampling(Done, splits)
    else
      var sampled := SampleSpec(task, splits, perm);
      if sampled.outcome != Done then sampled
      else if "validation" !in sampled.splits then Sampling(KeyError("validation"), sampled.splits)
      else sampled
  }

  /** `AbstractTask.get_datasets`, with `loaded` standing for what `load_datasets()` returned:
      without a sample cap the loaded dictionary is returned as it is; otherwise it is sampled
      and post-processed in place, and its `train` and `validation` label columns are read. */
  method GetDatasets(task: Task, loaded: DatasetDict, perm: seq<nat>) returns (datasets: DatasetDict, outcome: Outcome)
    requires "train" in loaded.splits ==> IsPermutation(perm, |loaded.splits["train"]|)
    modifies loaded
    ensures datasets == loaded
    ensures Sampling(outcome, datasets.splits) == GetSpec(task, old(loaded.splits), perm)
  {
    datasets := loaded;
    outcome := Done;
    if task.numSamples.Some? {
      outcome := SampleDatasets(task, datasets, perm);
      if outcome != Done {
        return;
      }
      datasets := PostProcessing(task, datasets);
      // The label distributions: `train` is always present here, `validation` need not be.
      if "validation" !in datasets.splits {
        outcome := KeyError("validation");
      }
    }
  }

  /** The case in which `sample_datasets` runs to the end and samples: a sampled task with a
      sample cap, a `train` split, and a `validation` split if the task aliases its test split. */
  ghost predicate SamplesCleanly(task: Task, splits: map<string, Split>) {
    && "train" in splits
    && task.kind.Name() in SampledTasks
    && task.numSamples.Some?
    && (task.kind.Name() in TestFromValidation ==> "validation" in splits)
  }

  /** Balance: for every label in `[0, num_labels)`, the sampled train and validation splits
      each hold `min(count // 2, num_samples)` rows of it, `count` being its number of rows in
      the original train split; a label with fewer than two rows contributes nothing; a label
      outside the range never appears. */
  lemma BundleBalance(task: Task, splits: map<string, Split>, perm: seq<nat>, cls: int)
    requires SamplesCleanly(task, splits) && IsPermutation(perm, |splits["train"]|)
    ensures var r := SampleSpec(task, splits, perm);
            var count := Count(splits["train"], cls);
            var n := if 0 <= cls < task.kind.NumLabels() then Quota(count, task.numSamples.value) else 0;
            && r.outcome == Done
            && Count(r.splits["train"], cls) == n
            && Count(r.splits["validation"], cls) == n
            && (count < 2 ==> n == 0)
  {
    var r := SampleSpec(task, splits, perm);
    var shuffled := Shuffle(splits["train"], perm);
    var numLabels, cap := task.kind.NumLabels(), task.numSamples.value;
    assert r.splits["train"] == Sampled(shuffled, numLabels, cap, TrainPart);
    assert r.splits["validation"] == Sampled(shuffled, numLabels, cap, DevPart);
    SampledClassView(shuffled, numLabels, cap, TrainPart, cls);
    SampledClassView(shuffled, numLabels, cap, DevPart, cls);
    ShuffleKeepsCounts(splits["train"], perm, cls);
  }

  /** Block order: the sampled train (and validation) split holds, for each label in turn, the
      first rows of that label in the shuffled train split, in their shuffled order; so its
      labels lie in `[0, num_labels)` and never decrease. */
  lemma BundleOrder(task: Task, splits: map<string, Split>, perm: seq<nat>, cls: int)
    requires SamplesCleanly(task, splits) && IsPermutation(perm, |splits["train"]|)
    requires 0 <= cls < task.kind.NumLabels()
    ensures var r := SampleSpec(task, splits, perm);
            var rows := FilterLabel(Shuffle(splits["train"], perm), cls);
            var n := Quota(|rows|, task.numSamples.value);
            && r.outcome == Done
            && FilterLabel(r.splits["train"], cls) == rows[..n]
            && FilterLabel(r.splits["validation"], cls) == rows[n..2 * n]
            && LabelsWithin(r.splits["train"], task.kind.NumLabels()) && LabelsSorted(r.splits["train"])
            && LabelsWithin(r.splits["validation"], task.kind.NumLabels()) && LabelsSorted(r.splits["validation"])
  {
    var shuffled := Shuffle(splits["train"], perm);
    var numLabels, cap := task.kind.NumLabels(), task.numSamples.value;
    var r := SampleSpec(task, splits, perm);
    assert r.splits["train"] == Sampled(shuffled, numLabels, cap, TrainPart);
    assert r.splits["validation"] == Sampled(shuffled, numLabels, cap, DevPart);
    SampledClassView(shuffled, numLabels, cap, TrainPart, cls);
    SampledClassView(shuffled, numLabels, cap, DevPart, cls);
    SampledOrdered(shuffled, numLabels, cap, TrainPart);
    SampledOrdered(shuffled, numLabels, cap, DevPart);
  }

  /** Drawn from train, disjointly: the sampled train and validation splits together use each
      row of the original train split at most once, so no row lands in both and every sampled
      row comes from the original train split. */
  lemma BundleDrawnFromTrain(task: Task, splits: map<string, Split>, perm: seq<nat>)
    requires SamplesCleanly(task, splits) && IsPermutation(perm, |splits["train"]|)
    ensures var r := SampleSpec(task, splits, perm);
            && r.outcome == Done
            && multiset(r.splits["train"]) + multiset(r.splits["validation"]) <= multiset(splits["train"])
  {
    var shuffled := Shuffle(splits["train"], perm);
    SampledWithin(shuffled, task.kind.NumLabels(), task.numSamples.value);
  }

  /** Size: the sampled train and validation splits have the same length, at most
      `num_labels * num_samples`, and exactly that when every label has at least
      `2 * num_samples` rows in the original train split. */
  lemma BundleSize(task: Task, splits: map<string, Split>, perm: seq<nat>)
    requires SamplesCleanly(task, splits) && IsPermutation(perm, |splits["train"]|)
    ensures var r := SampleSpec(task, splits, perm);
            var numLabels, cap := task.kind.NumLabels(), task.numSamples.value;
            && r.outcome == Done
            && |r.splits["train"]| == |r.splits["validation"]|
            && |r.splits["train"]| <= numLabels * (if cap < 0 then 0 else cap)
            && (cap >= 0 && (forall c :: 0 <= c < numLabels ==> Count(splits["train"], c) >= 2 * cap)
                ==> |r.splits["train"]| == numLabels * cap)
  {
    var t := splits["train"];
    var shuffled := Shuffle(t, perm);
    var numLabels, cap := task.kind.NumLabels(), task.numSamples.value;
    var r := SampleSpec(task, splits, perm);
    assert r.splits["train"] == Sampled(shuffled, numLabels, cap, TrainPart);
    assert r.splits["validation"] == Sampled(shuffled, numLabels, cap, DevPart);
    assert |r.splits["train"]| == TotalQuota(shuffled, numLabels, cap) == |r.splits["validation"]|;
    TotalQuotaBound(shuffled, numLabels, cap);
    if cap >= 0 && (forall c :: 0 <= c < numLabels ==> Count(t, c) >= 2 * cap) {
      ShuffleKeepsLargeCounts(t, perm, numLabels, cap);
    }
  }

  /** Labels with at least `2 * cap` rows still have that many after the shuffle. */
  lemma ShuffleKeepsLargeCounts(t: Split, perm: seq<nat>, numLabels: nat, cap: int)
    requires IsPermutation(perm, |t|)
    requires forall c :: 0 <= c < numLabels ==> Count(t, c) >= 2 * cap
    ensures forall c :: 0 <= c < numLabels ==> Count(Shuffle(t, perm), c) >= 2 * cap
  {
    forall c | 0 <= c < numLabels
      ensures Count(Shuffle(t, perm), c) >= 2 * cap
    {
      ShuffleKeepsCounts(t, perm, c);
    }
  }
}
