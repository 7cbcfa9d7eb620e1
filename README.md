# Few-shot task registry and class-balanced sampler, modelled in Dafny

This project models the core of `fewshot/data/tasks.py`, a registry of text-classification
tasks for few-shot experiments. It covers three parts:

- the class-balanced few-shot sampler `AbstractTask.sample_datasets`;
- the driver `AbstractTask.get_datasets`, with the identity hook `post_processing`;
- the registry `TASK_MAPPING` and the factory `AutoTask.get`.

The sampler shuffles the `train` split with the task's seed. For each label
`0 .. num_labels - 1` it keeps the shuffled rows with that label, in order. It takes
`n = min(len // 2, num_samples)` of them for train and the next `n` for dev. It then joins
the per-label pieces in label order and writes them over `train` and `validation`. Seven
tasks first copy their original `validation` split to `test`. Only the tasks in a fixed list
are sampled at all.

Files and modules:

- `splits.dfy` (module `Splits`): a row (`Example`: payload and integer label) and a split
  (`seq<Example>`). It also models the `datasets` operations the sampler calls:
  `Select` (`Dataset.select`), `Shuffle` (`Dataset.shuffle`, a `Select` by a permutation),
  `FilterLabel` (`Dataset.filter` on the label) and `Concat` (`concatenate_datasets`).
  Shuffling is proved to keep the multiset of rows and every label count.
- `sampler.dfy` (module `Sampler`): the sampling as functions of the shuffled train split.
  `Quota` is the per-label size, `Slice` one label's train or dev piece, `Blocks` the list
  the loop builds and `Sampled` the joined split. The lemmas prove balance, label order,
  sizes, and that the two outputs draw from the input without reuse.
- `tasks.dfy` (module `Tasks`): the task classes as `TaskKind`, with their `task` name and
  `num_labels`. A configured `Task` is a value, since nothing updates it after `__init__`.
  The dataset dictionary is a class `DatasetDict` whose `splits` map is rewritten in place.
  `SampleSpec` is the specification of `sample_datasets`, and `GetSpec` that of `get_datasets`. The methods are `SampleDatasets`
  (in place), `SampleSplits` (the per-label loop), `PostProcessing` and `GetDatasets`. The
  lemmas state the guarantees on the resulting dictionary in terms of the original train split.
- `registry.dfy` (module `Registry`): the pairs `TASK_MAPPING` is built from, and dictionary
  construction in which the last pair wins. It proves that `"anketa"` resolves to
  `AnketaBinary`, and models `AutoTask.get`.

Inputs that the program gets from outside become parameters:

- The dataset that `load_datasets()` returns is the `DatasetDict` handed to `GetDatasets`.
- The permutation that the library's generator draws for `data_seed` is the parameter
  `perm`, required to be a permutation of the train indices. Sampling is a function of the
  bundle, the task and `perm`. So the same seed, and with it the same permutation, gives the
  same output.

Python exceptions are values of `Outcome`, not preconditions:

- `KeyError("train")` when there is no `train` split.
- `KeyError("validation")` when an aliasing task has no `validation` split.
- `KeyError("validation")` in `get_datasets` when, after sampling, there is still no `validation`
  split. That happens for a task that is not sampled and whose loader built none. `"anketa"`
  resolves to `AnketaBinary`, which is such a task, so `get_datasets` with a cap always fails for it.
- `TypeError` when a task in the sampling list, with a `train` split (and a `validation` split
  if it aliases `test`), runs `sample_datasets` with `num_samples = None`. `min` fails then,
  after the test aliasing has already happened. A task outside the sampling list returns
  normally.

The model follows the code where its behaviour is easy to overlook:

- A label with fewer than two rows, or with none, contributes nothing. This is not an error.
- Labels outside `[0, num_labels)` are silently dropped.
- An unknown task name fails. It does not fail with a message listing the known names,
  because the format string at `fewshot/data/tasks.py:297-300` has three placeholders but
  gets one argument.
- A negative `num_samples` selects nothing, because `range` is then empty. `Quota` clamps at 0.

## Model

| member | source | states |
|---|---|---|
| `Splits.Range` | fewshot/data/tasks.py:55-56 | The index list `range(lo, hi)` has `hi - lo` entries, `lo, lo + 1, ...`, and none when `hi <= lo`. |
| `Splits.Select` | fewshot/data/tasks.py:55-56 | `select(indices)` has one row per index, the row at that index, in the order of the indices. |
| `Splits.Shuffle` | fewshot/data/tasks.py:38 | The shuffled train split has the same length and the same rows, each as often, as the original. |
| `Splits.SelectPermutationMultiset` | fewshot/data/tasks.py:38 | Selecting rows by any permutation of the indices keeps the multiset of rows. |
| `Splits.ShuffleKeepsCounts` | fewshot/data/tasks.py:38 | Shuffling does not change how many rows carry each label. |
| `Splits.FilterLabel` | fewshot/data/tasks.py:51 | The filtered split is no longer than its input, and every row in it carries the requested label. |
| `Splits.FilterMultiset` | fewshot/data/tasks.py:51 | Filtering by a label keeps every row with that label, as often as it occurs, and no other row. |
| `Splits.SelectRange` | fewshot/data/tasks.py:55-56 | `select` over `range(lo, hi)` is the contiguous slice `[lo, hi)`. |
| `Splits.Concat` | fewshot/data/tasks.py:59-60 | `concatenate_datasets` holds exactly the rows of its parts, each as often as the parts together hold it. |
| `Sampler.Quota` | fewshot/data/tasks.py:53 | The per-label size `n` is the largest value with `2n <= count` and `n <= num_samples`, and 0 for a non-positive cap. |
| `Sampler.Slice` | fewshot/data/tasks.py:51-56 | One label's train or dev piece has `Quota(count, cap)` rows, all with that label. |
| `Sampler.Blocks` | fewshot/data/tasks.py:48-57 | The list the loop builds has one piece per label processed. |
| `Sampler.BlocksAt` | fewshot/data/tasks.py:48-57 | Entry `c` of that list is label `c`'s piece. |
| `Sampler.Sampled` | fewshot/data/tasks.py:48-60 | A sampled split holds the sum of the per-label quotas. |
| `Sampler.SampledStep` | fewshot/data/tasks.py:59-60 | The joined split for labels `0..k` is the one for `0..k-1` followed by label `k`'s piece. |
| `Sampler.SampledClassView` | fewshot/data/tasks.py:50-56 | The rows of label `c` in a sampled split are exactly label `c`'s piece, in order. There are none when `c` is outside `[0, num_labels)`. |
| `Sampler.SampledOrdered` | fewshot/data/tasks.py:59-60 | Every label in a sampled split lies in `[0, num_labels)`, and labels never decrease along the split. |
| `Sampler.TotalQuotaBound` | fewshot/data/tasks.py:53-56 | The sum of the per-label quotas over `k` labels, which is the length of a sampled split, is at most `k * max(cap, 0)`, and equal to `k * cap` when each of those labels has `>= 2 * cap` rows. |
| `Sampler.TwoLabelExample` | fewshot/data/tasks.py:50-60 | With 10 rows of label 0, 3 of label 1 and cap 10, each sampled split has 6 rows: 5 of label 0 and 1 of label 1. |
| `Sampler.SlicesWithinClass` | fewshot/data/tasks.py:55-56 | One label's train and dev pieces together use each row of that label at most as often as it occurs. |
| `Sampler.SampledWithinAt` | fewshot/data/tasks.py:50-60 | For each row value, the train and dev outputs together hold it at most as often as the input does, and never when its label is out of range. |
| `Sampler.SampledWithin` | fewshot/data/tasks.py:50-60 | The multiset union of the sampled train and dev splits is contained in the shuffled input. |
| `Tasks.TaskKind.Name` | fewshot/data/tasks.py:73-238 | The `task` attribute of every class but `AnketaBinary` is in the list of sampled tasks (tasks.py:43-45). Exactly the SuperGLUE and GLUE classes are in the test-aliasing list (tasks.py:40). |
| `Tasks.TaskKind.NumLabels` | fewshot/data/tasks.py:73-238 | Every class has between two and six labels, so the loop never joins an empty list. |
| `Tasks.DatasetDict.constructor` | fewshot/data/tasks.py:64 | The dictionary holds exactly the splits the loader built. |
| `Tasks.SampleSpec` | fewshot/data/tasks.py:37-61 | The error cases come first: `KeyError` for a missing train split, or a missing validation split on an aliasing task, with nothing changed; `TypeError` for a missing cap on a task in the sampling list; a normal end in every other case. On the other paths: splits other than train/validation/test are untouched; `test` becomes the original `validation` on aliasing tasks and is kept otherwise, and is neither created nor removed for a task that does not alias it; an unsampled task keeps train and validation; no split disappears; on an error no `validation` is created; a task that neither aliases nor samples leaves the dictionary exactly as it was. |
| `Tasks.SampleDatasets` | fewshot/data/tasks.py:37-61 | Rewriting the dictionary in place leaves it equal to `SampleSpec` of the old dictionary, with the same outcome. |
| `Tasks.SelectedSlices` | fewshot/data/tasks.py:53-56 | The two `select(range(...))` calls of one iteration give that label's train piece and dev piece. |
| `Tasks.SampleSplits` | fewshot/data/tasks.py:48-60 | The per-label loop returns the joined train and dev splits over labels `0 .. num_labels - 1`. |
| `Tasks.PostProcessing` | fewshot/data/tasks.py:34-35 | The base hook returns the same dictionary object. |
| `Tasks.GetSpec` | fewshot/data/tasks.py:63-70 | Without a cap, the loaded dictionary is returned unchanged and nothing fails. With a cap, the dictionary is sampled as `SampleSpec` says; `KeyError("train")` exactly when train is missing; `KeyError("validation")` exactly when train is present, validation was not loaded, and the task aliases its test split or is not sampled; never `TypeError`, and a normal end in every other case. A normal end with a cap leaves both train and validation present. |
| `Tasks.GetDatasets` | fewshot/data/tasks.py:63-70 | The same dictionary object is returned. Its new contents and the outcome are those `GetSpec` gives for the loaded contents. |
| `Tasks.BundleBalance` | fewshot/data/tasks.py:50-56 | For each label in range, train and validation each hold `Quota(count in original train, cap)` rows of it. A label with fewer than 2 rows gives none. An out-of-range label never appears. |
| `Tasks.BundleOrder` | fewshot/data/tasks.py:50-60 | Label `c`'s rows in train are the first `n` label-`c` rows of the shuffled train, and in validation the next `n`. Both outputs have labels in `[0, num_labels)`, non-decreasing along the split. |
| `Tasks.BundleDrawnFromTrain` | fewshot/data/tasks.py:38-60 | Train and validation together are a sub-multiset of the original train split. So no row is used twice, none lands in both, and all come from train. |
| `Tasks.BundleSize` | fewshot/data/tasks.py:53-60 | The sampled train and validation have equal length, at most `num_labels * max(num_samples, 0)`. The length equals `num_labels * num_samples` when `num_samples >= 0` and every label has `>= 2 * num_samples` rows. |
| `Registry.BuildMapping` | fewshot/data/tasks.py:259-285 | A name is a key of the built dictionary exactly when some pair in the list carries it. |
| `Registry.LastPairWins` | fewshot/data/tasks.py:259-285 | A key is bound to the class of its last pair in the list. |
| `Registry.AnketaIsBinary` | fewshot/data/tasks.py:282-283 | `"anketa"` resolves to `AnketaBinary`, whose name is not in the sampling list, while the shadowed `Anketa` is. `"anketa_binary"` is not a key. |
| `Registry.ValueFromPair` | fewshot/data/tasks.py:259-285 | Every key of the built dictionary is bound to the class of some pair in the list that carries that key. |
| `Registry.PairNameSampled` | fewshot/data/tasks.py:259-285 | The name of every listed pair is in the list of sampled tasks (tasks.py:43-45). |
| `Registry.PairNameAgrees` | fewshot/data/tasks.py:259-285 | A listed pair pairs a name with the class whose `task` attribute is that name exactly when it is not the last pair, the second `"anketa"` pair. The first, `("anketa", Anketa)`, agrees. |
| `Registry.RegisteredIsSampled` | fewshot/data/tasks.py:259-285 | Every registered name is in the list of sampled tasks. |
| `Registry.TaskMappingKeys` | fewshot/data/tasks.py:259-285 | The registered names are exactly the eighteen names of the sampled-task list: nineteen pairs give eighteen keys. |
| `Registry.RegisteredNamesAgree` | fewshot/data/tasks.py:259-285 | Every registered name other than `"anketa"` resolves to the class whose `task` attribute is that name. |
| `Registry.Get` | fewshot/data/tasks.py:287-301 | A task exists exactly when the name is registered. It is of the registered class, carries the given seed, cap, cache directory and data directory, and is the task of that name, except that `"anketa"` gives `AnketaBinary`. |
| `Registry.AnketaNeverSampled` | fewshot/data/tasks.py:43-45 | A task obtained as `"anketa"` leaves the whole dictionary, train and validation included, as loaded. |
| `Registry.AnketaGetFails` | fewshot/data/tasks.py:63-69 | `get_datasets` with a sample cap on the task obtained as `"anketa"` ends in `KeyError("validation")` whenever the loaded dictionary has no validation split. The `AnketaBinary` loader builds only train and test (tasks.py:252-254). |

## Left out

- The `load_datasets` bodies are left out. They call HuggingFace `load_dataset`, read JSON/CSV files through pandas and rename columns, all of which is I/O and foreign library code. Their `-1` label remaps sit inside that pandas code and go with them. The loaded dictionary is an input of `GetDatasets`.
- The random generator behind `Dataset.shuffle(seed=...)` is left out. Its permutation is the parameter `perm`, so the model does not say which permutation a given seed yields.
- Metric lists and `fewshot.metrics` are left out. They are only referenced, never computed here.
- The `print` calls in `sample_datasets` are left out. They only write to the console.
- The values of the two `Counter` computations in `get_datasets` are left out, because nothing uses them. Reading the `validation` split for the second one is modelled: it is the `KeyError("validation")` of `GetSpec`.
- The exception type and message for an unknown task are left out. `Registry.Get` returns no task. The source's format call would in fact raise `IndexError`.
- The `labels_list` attribute and the `cache_dir`/`data_dir` uses are not modelled beyond being stored in `Task`. Only loaders read them.
- The conversion `int(example['label'])` is not modelled. Labels are integers in `Example` from the start.
- `concatenate_datasets` on an empty list, which would raise if `num_labels` were 0, is not modelled. Every task class has at least 2 labels.
- Task-specific `post_processing` overrides are not modelled. No class in the file overrides the base identity hook.
