# Experiment-control loop of the hyperspectral classification scripts

The repository's two experiment scripts, `algorithms/recurrent.py` and
`algorithms/cnn1d.py`, each run `repeat` independent trials on one hyperspectral dataset.
Each trial:

1. derives the trial's seed;
2. partitions the data, either by the dataset's fixed train/test split or, after removing
   the background class, by a fractional split;
3. optionally carves a validation set out of the test partition;
4. adds a trailing axis to the feature matrices;
5. obtains a scored model. The recurrent script trains and reloads the best checkpoint.
   The cnn1d script only loads a stored model;
6. predicts by arg-max and writes the metrics vector into the trial's row of a results
   matrix that starts out filled with the sentinel `-1000.0`.

This project models that loop in Dafny and proves what it does.

- `wrappers.dfy`: `Option` and `Result`.
- `masking.dfy` (module `Masking`): the numpy operations the filter uses.
  - Boolean-mask selection `xs[mask]` is `Compress`.
  - `Positions`, the ascending list of the positions a mask selects, is the reference
    definition that `xs[mask]` is proved to gather from.
  - Element-wise `xs - d` is `Minus`.
  - Lemmas cover these operations: gather, composition of masks, commuting with subtraction.
- `controller.dfy` (module `Controller`): the part of `main` the two scripts share.
  - The `Dataset` enumeration and the fixed-split set.
  - Seed derivation, routing and the background filter.
  - The repeated-filter theorem, the validation carve-out and the axis reshape.
  - Arg-max prediction, and the results-matrix allocation and row write.
- `recurrent.dfy` (module `Recurrent`):
  - the `Args` class with `SetParams`;
  - the tag dispatch of `get_model_compiled`;
  - the trial specification `TrialRow`;
  - the `Experiment` class, whose `RunTrials` loop reassigns `pixels` and `labels` and
    writes `stats` in place.
- `cnn1d.dfy` (module `Cnn1d`): the same loop, without training and with the stored model.

The `auxil` routines and Keras are collaborators passed in as functions:
`split_data`, `load_split_data_fix`, the metrics vector of `reports`, "fit, reload the
checkpoint and predict" for the recurrent script, and "predict with the stored model" for
cnn1d. Their contracts are about shape only (`Controller.Shaped`, `Setup.Valid`):

- splits keep the feature dimension, and a rectangular matrix stays rectangular;
- the metrics vector has `num_class + 3` entries;
- the trained model's score rows have `num_class` entries;
- the stored cnn1d model's score rows are non-empty.

Each `split_data` call receives which call of the run it is (`SplitCall`: the trial's
train/test split or its validation carve-out). The training collaborator receives the
trial index. So an unseeded split, and training from fresh random weights, may come out
differently in every trial, as they do in the scripts.

Behaviour of the code that the model keeps as written:

- **The background filter runs inside the trial loop.** It reassigns `pixels` and
  `labels`, so each trial filters the data the previous trial already shifted.
  - After `n` passes, exactly the samples whose loaded label is at least `n` remain, in
    their original order, labelled `loaded − n` (`Controller.RepeatedFilter`).
  - So trial `pos` (counting from 0) splits only the samples whose loaded label exceeds
    `pos` (`Controller.TrialSplitsLabelsAbove`).
  - Fixed-split datasets are never filtered.
- **`--set_parameters` is a store_false flag.** The override is therefore on by default.
  Unless the flag is given, batch size and epochs become 100/150 (recurrent) or 100/300
  (cnn1d), whatever `--batch_size` and `--epochs` say.
- **The cnn1d script trains nothing.** It scores `cnn1d_trained_model_UP_1.h5` in every
  trial. Batch size, epochs and verbosity have no effect on its results
  (`Cnn1d.TrainingIgnored`).

## Model

| member | source | states |
|---|---|---|
| `Controller.SeedsPerTrial` | algorithms/recurrent.py:91 | About `SeedFor`: with a base seed, trial `pos` is seeded `base + pos`, so distinct trials get distinct seeds. Without one, no trial is seeded. Same line as algorithms/cnn1d.py:85. |
| `Controller.FilterBackground` | algorithms/recurrent.py:97-99 | One pass of the filter (mask `NonZero`, select, `Minus` 1) keeps the pixel and label vectors the same length, keeps the feature dimension, and never lengthens the data. Same code as algorithms/cnn1d.py:91-93. |
| `Controller.FilterKeepsForeground` | algorithms/recurrent.py:97-99 | One pass keeps exactly the samples whose label is non-zero (both directions), in their original order, each labelled one lower. |
| `Controller.FilterDense` | algorithms/recurrent.py:97-99 | Loaded labels in `0..num_class`, with 0 the background, become labels in `[0, num_class)`, none negative. The range is dense: `v` occurs after the pass exactly when `v + 1` occurred before (both directions). |
| `Controller.FilterKeepsRectangular` | algorithms/recurrent.py:98 | Filtering a rectangular pixel matrix gives a rectangular one: every kept row still has the feature count. |
| `Controller.FilterPassesRectangular` | algorithms/recurrent.py:90-98 | Any number of in-loop passes keeps the pixel matrix rectangular. |
| `Controller.FilterPasses` | algorithms/recurrent.py:90-99 | `n` passes of the filter (the data held after `n` trials) keep pixels and labels aligned and keep the feature dimension. |
| `Controller.RepeatedFilter` | algorithms/recurrent.py:90-99 | After `n` passes, the samples kept are exactly those whose original label is `>= n` (both directions), in order, each labelled `original − n`. |
| `Controller.TrialSplitsLabelsAbove` | algorithms/recurrent.py:90-102 | On a dataset without a fixed split, trial `pos` hands `split_data` exactly the samples whose loaded label exceeds `pos`, in order, labelled `loaded − (pos + 1)`. |
| `Controller.Partition` | algorithms/recurrent.py:92-102 | Either route leaves pixels and labels aligned for the next trial. |
| `Controller.PartitionRoutes` | algorithms/recurrent.py:92-102 | About `IsFixedSplit`: a fixed-split dataset (`UH`, `DIP`, `DUP`, `DIPr`, `DUPr`) gets the same split whatever the training fraction, seed and labels, and its data is not changed. Every other dataset is filtered once and split by `tr_percent` with the trial's seed, as the trial's train/test call. Same code as algorithms/cnn1d.py:86-96. |
| `Controller.CarveOut` | algorithms/recurrent.py:104-116 | The training partition is untouched. With `use_val`, validation and test are the two parts of `split_data(x_test, y_test, val_percent, seed)`, the trial's carve-out call. Without it, the test partition is also the validation data. Same code as algorithms/cnn1d.py:98-109. |
| `Controller.AddAxis` | algorithms/recurrent.py:108-110 | The reshape gives shape `(samples, features, 1)`: one cell per sample, `d1` the feature count, `d2 = 1`. A rectangular matrix gives a rectangular tensor: each sample has `d1` one-element cells. Same as `[..., np.newaxis]` at algorithms/cnn1d.py:102-104. |
| `Controller.AxisRoundTrip` | algorithms/recurrent.py:108-110 | The reshape only adds an axis: dropping it gives back the original samples. |
| `Controller.PrepareTrial` | algorithms/recurrent.py:91-110 | Seed, routing, filter, carve-out and reshape of one trial leave the data held for the next trial aligned. |
| `Controller.PreparedShape` | algorithms/recurrent.py:108-112 | `n_bands` equals the number of features per pixel and `sequences` is 1, for the training and the test tensor. From rectangular pixels, the training, validation and test tensors are all rectangular. Also algorithms/cnn1d.py:102-106. |
| `Controller.DataBefore` | algorithms/recurrent.py:90-99 | The pixels and labels `main` holds when trial `pos` begins stay aligned: the loaded data (fixed split) or `pos` filter passes of it. |
| `Controller.PrepareAdvances` | algorithms/recurrent.py:90-99 | Each trial leaves the data the next trial begins with. |
| `Controller.ArgMax` | algorithms/recurrent.py:129 | The prediction for a score row is the first index of a largest score. |
| `Controller.FirstMaxUnique` | algorithms/recurrent.py:129 | A row has only one first maximal index, so the prediction is determined. |
| `Controller.Predictions` | algorithms/recurrent.py:129 | `np.argmax(..., axis=1)` gives one prediction per score row, each the first maximal index of its row. Also algorithms/cnn1d.py:126. |
| `Controller.PredictionsInRange` | algorithms/recurrent.py:129 | Score rows of width `num_class` yield predicted classes in `[0, num_class)`. |
| `Controller.NewStats` | algorithms/recurrent.py:89 | The results matrix is `repeat × width` with every cell `-1000.0`. Also algorithms/cnn1d.py:83. |
| `Controller.WriteRow` | algorithms/recurrent.py:128-129 | `stats[pos, :] = row` sets row `pos` to the metrics vector and leaves every other row unchanged. |
| `Masking.Compress` | algorithms/recurrent.py:98-99 | Boolean-mask selection yields as many entries as the mask has true entries. |
| `Masking.Positions` | algorithms/recurrent.py:98-99 | Reference definition for `xs[mask]`: the positions a mask selects are in range, are strictly ascending, and are all true in the mask. |
| `Masking.PositionsComplete` | algorithms/recurrent.py:98-99 | Every true position of the mask is among the selected positions. |
| `Masking.CompressIsGather` | algorithms/recurrent.py:98-99 | Entry `k` of `xs[mask]` is `xs` at the `k`-th selected position. |
| `Masking.CompressCompose` | algorithms/recurrent.py:90-99 | Masking twice equals masking once by the conjunction, the second mask being indexed by the kept entries. This is what lets passes of the in-loop filter compose. |
| `Masking.CompressMinus` | algorithms/recurrent.py:99 | About `Minus` (`labels - 1`): subtracting a scalar before or after masking gives the same labels. |
| `Recurrent.CellDispatch` | algorithms/recurrent.py:24-31 | About `CellFor`: the tag dispatch succeeds exactly on `RNN`, `GRU` and `LSTM`, which map to plain, gated and LSTM cells. Tag and cell are inverse to each other. Any other tag fails. |
| `Recurrent.GetModelCompiled` | algorithms/recurrent.py:23-39 | A network is built exactly for the three accepted tags, with the dispatched cell kind, the input shape `(feat_size, seq_len)` and `num_class` outputs. |
| `Recurrent.TrialJob` | algorithms/recurrent.py:112-122 | Trial `pos` fits a network with the tag's cell kind, input shape `(features per pixel, 1)`, `num_class` outputs, and the resolved batch size, epochs and verbosity. It trains on the trial's training tensor and labels and validates on the carved validation data. Without `use_val`, that is the test tensor. |
| `Recurrent.TrialRow` | algorithms/recurrent.py:113-129 | Defines a trial's metrics row, which `RunTrials` is proved against: `reports` of the arg-max of the test scores of the model trained and reloaded in trial `pos`, against the test labels. Its contract: the row has `num_class + 3` entries, the width of a `stats` row. |
| `Recurrent.Args.constructor` | algorithms/recurrent.py:43-78 | `--use_val` and `--verbosetrain` are on when given. `--set_parameters` is on when NOT given. The other values are taken as parsed. |
| `Recurrent.Args.SetParams` | algorithms/recurrent.py:17-20 | Batch size becomes 100 and epochs 150. No other argument changes. |
| `Recurrent.Args.ApplyOptimalParameters` | algorithms/recurrent.py:81-82 | With `set_parameters` on (the default), batch size is 100 and epochs 150 whatever was given. Otherwise both stay as given. |
| `Recurrent.Experiment.constructor` | algorithms/recurrent.py:84-89 | The loop starts with the loaded pixels and labels and a fresh `repeat × (num_class + 3)` matrix of `-1000.0`. |
| `Recurrent.Experiment.RunTrials` | algorithms/recurrent.py:90-129 | Keeps `Valid()`. Loop invariant: after `pos` trials, rows before `pos` hold their trials' metrics rows, rows from `pos` on still hold `-1000.0`, and `pixels`/`labels` are `pos` filter passes of the loaded data (unchanged for a fixed split). At the end, every row `i` is `TrialRow` of the data trial `i` began with. |
| `Recurrent.Execute` | algorithms/recurrent.py:81-129 | The whole of `main` from `set_params` on: the resolved batch size and epochs, and a results matrix whose every row is its trial's metrics row. |
| `Cnn1d.TrialRow` | algorithms/cnn1d.py:98-126 | Defines a trial's metrics row, which `RunTrials` is proved against: `reports` of the arg-max of the stored model's test scores. Its contract: the row has `num_class + 3` entries, the width of a `stats` row. |
| `Cnn1d.TrainingIgnored` | algorithms/cnn1d.py:107-126 | Nothing is trained. Rows do not depend on batch size, epochs or verbosity. Two trials whose test partitions agree write the same row, whatever their data, training partitions or trial indices. |
| `Cnn1d.Args.constructor` | algorithms/cnn1d.py:40-72 | `--use_val` and `--verbosetrain` are on when given. `--set_parameters` is on when NOT given. |
| `Cnn1d.Args.SetParams` | algorithms/cnn1d.py:18-21 | Batch size becomes 100 and epochs 300. No other argument changes. |
| `Cnn1d.Args.ApplyOptimalParameters` | algorithms/cnn1d.py:75-76 | With `set_parameters` on (the default), batch size is 100 and epochs 300 whatever was given. |
| `Cnn1d.Experiment.constructor` | algorithms/cnn1d.py:78-83 | The loop starts with the loaded data and a fresh `repeat × (num_class + 3)` matrix of `-1000.0`. |
| `Cnn1d.Experiment.RunTrials` | algorithms/cnn1d.py:84-126 | Keeps `Valid()`. The same invariant as the recurrent loop: completed rows hold their metrics, later rows hold the sentinel, and `pixels`/`labels` are `pos` filter passes of the loaded data. |
| `Cnn1d.Execute` | algorithms/cnn1d.py:75-126 | The whole of `main` from `set_params` on: the resolved batch size and epochs, and every row of the results matrix. |

## Left out

- Keras is not modelled. This covers layer stacks, `compile`, `fit`, the best-only
  `ModelCheckpoint` on `/tmp/best_model.h5`, `load_model`, `predict`, `count_params`,
  `K.clear_session` and `gc.collect`. The recurrent script's fit, reload and predict are a
  single collaborator `fitAndScore`. It receives the network description, the training and
  validation data, batch size, epochs and verbosity. The cnn1d script's stored model is a
  collaborator `savedModel` that sees only the tensor scored. Their only contract is the
  width of the score rows.
- `mydata.loadData` and the flattening `pixels.reshape(-1, pixels.shape[-1])` are not
  modelled. The loader's flattened pixel matrix, label vector and class count are
  parameters. The loop assumes, as the loader provides, that there is one label per pixel
  and that the pixel matrix is rectangular.
- The filter lemmas assume loaded labels are class indices in `0..num_class`, with 0 the
  background, as the loader provides. The scripts do not check this. A negative label is
  never removed: it survives every pass and moves further below zero
  (`RepeatedFilter`, `FilterDense` and `TrialSplitsLabelsAbove` require labels `>= 0`).
- The stored cnn1d model (`cnn1d_trained_model_UP_1.h5`) was trained on UP. Its output
  width need not equal the loaded dataset's `num_class`. The model only requires its score
  rows to be non-empty, so that arg-max is defined, and says nothing about whether its
  predicted classes fit the dataset.
- `mydata.split_data`, `mydata.load_split_data_fix` and `mymetrics.reports` are
  collaborators with shape-only contracts. Stratification, disjointness of the parts and the
  metric formulas are not stated. Each is a pure function of its arguments. For
  `split_data`, those arguments include which call it is, so unseeded splits may differ
  between calls. The model does not promise that two calls with the same seed give the
  same split. `load_split_data_fix`, a name-keyed lookup, is modelled as giving the same
  split for the same dataset and pixels. The report text and confusion matrix of
  `reports` are not modelled; only the metrics vector is.
- `keras_to_categorical` (one-hot labels) is not modelled. It belongs to the training
  collaborator, which receives the integer labels and `num_class`.
- Argument parsing is not modelled. The `Args` constructors take the parsed values and
  whether each flag was given. Defaults and `choices` are argparse's. The dataset name is
  the enumeration `Dataset`. The recurrent tag is restricted by `Args.Valid` to the three
  choices, as argparse guarantees.
- `--components` and `--preprocess` are left out: they only reach the loader. The unused
  `state` dict and the inert `--splitmethod` option are left out too.
- An unknown recurrent tag is not modelled as a crash. The dispatch itself returns a
  failure (`Recurrent.CellFor`), but the loop only runs with a valid tag, so the
  `UnboundLocalError` it would raise is not modelled.
- A negative `--repeat`, on which `np.ones` raises, is excluded by `Args.Valid`.
- Exceptions that abort the run part-way are not modelled. The loop invariant shows that
  at any point, the rows of trials not yet completed still hold `-1000.0`.
- cnn1d's `get_model_compiled` (algorithms/cnn1d.py:24-36, called at line 107) and the
  `valdata` tuple (line 108) are not modelled. Their results are never used now that `fit`
  is commented out. The validation carve-out is still modelled, since it changes `x_test`.
- Floating point is not modelled. Scores and metrics are opaque `real`s, and only the
  sentinel `-1000.0` is a fixed value. `np.argmax` on NaN scores is not modelled.
- The `print` calls and the commented-out printing of `stats` are left out.
