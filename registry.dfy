/** `TASK_MAPPING` and `AutoTask.get`: the registry from task name to task class, and the
    factory that builds a configured task from a name. */
module Registry {
  import opened Splits
  import opened Tasks

  /** The (name, class) pairs `TASK_MAPPING` is built from, in the order they are listed.
      The key "anketa" is listed twice. */
  const TaskMappingPairs: seq<(string, TaskKind)> := [
    ("mr", MR), ("cr", CR), ("subj", Subj), ("trec", Trec), ("SST-2", SST2), ("sst-5", SST5),
    ("boolq", BoolQ), ("rte", RTE), ("cb", CB), ("wic", WiC),
    ("qqp", QQP), ("qnli", QNLI), ("mrpc", MRPC),
    ("emotion", Emotion), ("enron_spam", EnronSpam), ("ag_news", AGNews), ("amazon_cf", AmazonCF),
    ("anketa", Anketa), ("anketa", AnketaBinary)
  ]

  /** Building an `OrderedDict` from a list of pairs: each pair is stored in turn, so a
      later pair overwrites an earlier one with the same key. */
  function BuildMapping(pairs: seq<(string, TaskKind)>): (m: map<string, TaskKind>)
    ensures forall name :: name in m <==> exists i :: 0 <= i < |pairs| && pairs[i].0 == name
  {
    if pairs == [] then map[]
    else
      var init := pairs[..|pairs| - 1];
      var m0 := BuildMapping(init);
      assert forall i :: 0 <= i < |init| ==> init[i] == pairs[i];
      m0[pairs[|pairs| - 1].0 := pairs[|pairs| - 1].1]
  }

  /** Last write wins: a key is bound to the class of its last pair in the list. */
  lemma {:induction false} LastPairWins(pairs: seq<(string, TaskKind)>, i: nat)
    requires i < |pairs|
    requires forall j :: i < j < |pairs| ==> pairs[j].0 != pairs[i].0
    ensures pairs[i].0 in BuildMapping(pairs) && BuildMapping(pairs)[pairs[i].0] == pairs[i].1
  {
    if i < |pairs| - 1 {
      var init := pairs[..|pairs| - 1];
      assert init[i] == pairs[i];
      LastPairWins(init, i);
    }
  }

  /** `TASK_MAPPING`. */
  const TaskMapping: map<string, TaskKind> := BuildMapping(TaskMappingPairs)

  /** "anketa" resolves to the later `AnketaBinary`, whose name "anketa_binary" is not in the
      list of sampled tasks, while the shadowed `Anketa` ("anketa") is. Neither class can be
      reached under the name "anketa_binary". */
  lemma AnketaIsBinary()
    ensures "anketa" in TaskMapping && TaskMapping["anketa"] == AnketaBinary
    ensures "anketa_binary" !in TaskMapping
    ensures AnketaBinary.Name() !in SampledTasks && Anketa.Name() in SampledTasks
  {
    LastPairWins(TaskMappingPairs, 18);
    assert "anketa_binary" !in SampledTasks;
    RegisteredIsSampled("anketa_binary");
  }

  /** Every key of a built dictionary is bound to the class of some pair carrying that key. */
  lemma {:induction false} ValueFromPair(pairs: seq<(string, TaskKind)>, name: string) returns (i: nat)
    requires name in BuildMapping(pairs)
    ensures i < |pairs| && pairs[i] == (name, BuildMapping(pairs)[name])
  {
    var last := pairs[|pairs| - 1];
    if last.0 == name {
      i := |pairs| - 1;
    } else {
      var init := pairs[..|pairs| - 1];
      i := ValueFromPair(init, name);
      assert pairs[i] == init[i];
    }
  }

  /** The name of every listed pair is in the list of sampled tasks. */
  lemma PairNameSampled(i: nat)
    requires i < |TaskMappingPairs|
    ensures TaskMappingPairs[i].0 in SampledTasks
  {
    if i < 6 {
      assert i == 0 || i == 1 || i == 2 || i == 3 || i == 4 || i == 5;
    } else if i < 12 {
      assert i == 6 || i == 7 || i == 8 || i == 9 || i == 10 || i == 11;
    } else {
      assert i == 12 || i == 13 || i == 14 || i == 15 || i == 16 || i == 17 || i == 18;
    }
  }

  /** Every listed pair pairs a name with the class whose `task` attribute is that name,
      except the second "anketa" pair. */
  lemma PairNameAgrees(i: nat)
    requires i < |TaskMappingPairs|
    ensures TaskMappingPairs[i].1.Name() == TaskMappingPairs[i].0 <==> i != 18
  {
    if i < 6 {
      assert i == 0 || i == 1 || i == 2 || i == 3 || i == 4 || i == 5;
    } else if i < 12 {
      assert i == 6 || i == 7 || i == 8 || i == 9 || i == 10 || i == 11;
    } else {
      assert i == 12 || i == 13 || i == 14 || i == 15 || i == 16 || i == 17 || i == 18;
    }
  }

  /** Every registered name is in the list of sampled tasks. */
  lemma RegisteredIsSampled(name: string)
    ensures name in TaskMapping ==> name in SampledTasks
  {
    if name in TaskMapping {
      var i := ValueFromPair(TaskMappingPairs, name);
      PairNameSampled(i);
    }
  }

  /** The registered names are exactly the names in the list of sampled tasks: nineteen pairs
      give eighteen keys, because "anketa" is listed twice. */
  lemma TaskMappingKeys()
    ensures TaskMapping.Keys == SampledTasks
  {
    forall name | name in TaskMapping
      ensures name in SampledTasks
    {
      RegisteredIsSampled(name);
    }
    var p := TaskMappingPairs;
    forall name | name in SampledTasks
      ensures name in TaskMapping
    {
      assert name in [p[0].0, p[1].0, p[2].0, p[3].0, p[4].0, p[5].0, p[6].0, p[7].0, p[8].0,
                      p[9].0, p[10].0, p[11].0, p[12].0, p[13].0, p[14].0, p[15].0, p[16].0, p[17].0];
    }
  }

  /** Every registered name resolves to the class whose `task` attribute is that name,
      except "anketa". */
  lemma RegisteredNamesAgree(name: string)
    requires name in TaskMapping
    ensures TaskMapping[name].Name() == name || name == "anketa"
  {
    var i := ValueFromPair(TaskMappingPairs, name);
    PairNameAgrees(i);
  }

  /** `AutoTask.get`: a task of the registered class for `name`, configured with the given
      seed, sample cap, cache directory and data directory; no task when `name` is not
      registered (Python raises). The task built is the one called `name`, except that
      "anketa" builds `AnketaBinary`. */
  function Get(name: string, dataSeed: int, numSamples: Option<int>, cacheDir: string, dataDir: Option<string>): (r: Option<Task>)
    ensures r.Some? <==> name in TaskMapping
    ensures r.Some? ==> r.value.kind == TaskMapping[name]
                        && r.value.dataSeed == dataSeed && r.value.numSamples == numSamples
                        && r.value.cacheDir == cacheDir && r.value.dataDir == dataDir
    ensures r.Some? && name != "anketa" ==> r.value.kind.Name() == name
    ensures name == "anketa" ==> r.Some? && r.value.kind == AnketaBinary
  {
    if name in TaskMapping then
      AnketaIsBinary();
      RegisteredNamesAgree(name);
      Some(Task(TaskMapping[name], dataSeed, numSamples, cacheDir, dataDir))
    else
      None
  }

  /** Through the factory, "anketa" never samples: `train` and `validation` come back as the
      loader produced them. */
  lemma AnketaNeverSampled(dataSeed: int, numSamples: Option<int>, cacheDir: string, dataDir: Option<string>,
                           splits: map<string, Split>, perm: seq<nat>)
    requires "train" in splits ==> IsPermutation(perm, |splits["train"]|)
    ensures var t := Get("anketa", dataSeed, numSamples, cacheDir, dataDir);
            && t.Some?
            && SampleSpec(t.value, splits, perm).splits == splits
  {
    AnketaIsBinary();
  }

  /** Through the factory, "anketa" with a sample cap ends in `KeyError("validation")` in
      `get_datasets` whenever the loaded dictionary has no `validation` split, as the
      `AnketaBinary` loader's never has: the task is not sampled, so nothing writes
      `validation` before its label distribution is read. */
  lemma AnketaGetFails(dataSeed: int, cap: int, cacheDir: string, dataDir: Option<string>,
                       splits: map<string, Split>, perm: seq<nat>)
    requires "train" in splits && "validation" !in splits && IsPermutation(perm, |splits["train"]|)
    ensures var t := Get("anketa", dataSeed, Some(cap), cacheDir, dataDir);
            && t.Some?
            && GetSpec(t.value, splits, perm).outcome == KeyError("validation")
  {
    AnketaIsBinary();
  }
}
