/**
 * algorithms/cnn1d.py: the same trial loop as the recurrent script, except that nothing is
 * trained: the `fit` call and the checkpoint reload are commented out, the network built
 * each trial is never used, and every trial scores the model stored in the fixed file
 * `cnn1d_trained_model_UP_1.h5`, whatever the dataset.  That stored model is the
 * collaborator `savedModel`: `clf.predict` of the loaded file.
 */
module Cnn1d {
  import opened Wrappers
  import opened Controller

  /** Batch size and epochs that `set_params` installs. */
  const OptimalBatchSize: int := 100
  const OptimalEpochs: int := 300

  /** Everything one invocation of `main` fixes before the loop.  Batch size, epochs and
      verbosity are kept although nothing reads them any more.  The stored model was
      trained on UP, so the width of its score rows need not be the loaded dataset's
      class count; it is only required to be non-zero, as `np.argmax` needs. */
  datatype Setup = Setup(
    cfg: TrialConfig,
    batchSize: int,
    epochs: int,
    verbose: bool,
    numClass: nat,
    c: Collaborators,
    savedModel: Cube -> seq<seq<real>>)
  {
    ghost predicate Valid()
    {
      && numClass > 0
      && Shaped(c, numClass)
      && (forall t, i :: 0 <= i < |savedModel(t)| ==> |savedModel(t)[i]| > 0)
    }
  }

  /** The metrics row trial `pos` writes when it begins with data `d`. */
  function TrialRow(s: Setup, d: Data, pos: nat): (row: seq<real>)
    requires s.Valid() && d.Aligned()
    ensures |row| == s.numClass + 3
  {
    var p := PrepareTrial(s.c, s.cfg, d, pos);
    s.c.reports(Predictions(s.savedModel(p.xTest)), p.yTest)
  }

  /** No training happens: two setups that differ only in batch size, epochs and verbosity
      write the same row in every trial, and two trials whose test partitions agree write
      the same row, whatever their data, training partitions or trial indices. */
  lemma TrainingIgnored(s: Setup, batchSize: int, epochs: int, verbose: bool,
                        d: Data, pos: nat, d': Data, pos': nat)
    requires s.Valid() && d.Aligned() && d'.Aligned()
    requires PrepareTrial(s.c, s.cfg, d, pos).xTest == PrepareTrial(s.c, s.cfg, d', pos').xTest
    requires PrepareTrial(s.c, s.cfg, d, pos).yTest == PrepareTrial(s.c, s.cfg, d', pos').yTest
    ensures TrialRow(s, d, pos) == TrialRow(s.(batchSize := batchSize, epochs := epochs, verbose := verbose), d, pos)
    ensures TrialRow(s, d, pos) == TrialRow(s, d', pos')
  {
  }

  /** The parsed command line. */
  class Args {
    var dataset: Dataset
    var repeat: int
    var randomState: Option<int>
    var trPercent: real
    var useVal: bool
    var valPercent: real
    var verboseTrain: bool
    var setParameters: bool
    var batchSize: int
    var epochs: int

    ghost predicate Valid()
      reads this
    {
      repeat >= 0
    }

    /** Flags are given as present or absent on the command line: `--use_val` and
        `--verbosetrain` are store_true, `--set_parameters` is store_false. */
    constructor (dataset: Dataset, repeat: int, randomState: Option<int>,
                 trPercent: real, useValFlag: bool, valPercent: real, verboseFlag: bool,
                 setParametersFlag: bool, batchSize: int, epochs: int)
      ensures this.dataset == dataset && this.repeat == repeat && this.randomState == randomState
      ensures this.trPercent == trPercent && this.valPercent == valPercent
      ensures this.useVal == useValFlag && this.verboseTrain == verboseFlag
      ensures this.setParameters == !setParametersFlag
      ensures this.batchSize == batchSize && this.epochs == epochs
    {
      this.dataset, this.repeat, this.randomState := dataset, repeat, randomState;
      this.trPercent, this.useVal, this.valPercent := trPercent, useValFlag, valPercent;
      this.verboseTrain, this.setParameters := verboseFlag, !setParametersFlag;
      this.batchSize, this.epochs := batchSize, epochs;
    }

    /** `set_params`: batch size 100 and 300 epochs; no other argument changes. */
    method SetParams()
      modifies this`batchSize, this`epochs
      ensures batchSize == OptimalBatchSize && epochs == OptimalEpochs
    {
      batchSize := OptimalBatchSize;
      epochs := OptimalEpochs;
    }

    /** `if args.set_parameters: args = set_params(args)`; on unless `--set_parameters`
        was given. */
    method ApplyOptimalParameters()
      modifies this`batchSize, this`epochs
      ensures setParameters ==> batchSize == OptimalBatchSize && epochs == OptimalEpochs
      ensures !setParameters ==> batchSize == old(batchSize) && epochs == old(epochs)
    {
      if setParameters {
        SetParams();
      }
    }

    function Config(): TrialConfig
      reads this
    {
      TrialConfig(dataset, randomState, trPercent, useVal, valPercent)
    }

    /** The loop's setup once the arguments are resolved and the data is loaded. */
    function SetupWith(numClass: nat, c: Collaborators, savedModel: Cube -> seq<seq<real>>): Setup
      reads this
    {
      Setup(Config(), batchSize, epochs, verboseTrain, numClass, c, savedModel)
    }
  }

  /** One invocation of `main` from the loaded data on: the pixel matrix and labels it
      reassigns and the results matrix it fills. */
  class Experiment {
    const setup: Setup
    const repeat: nat
    ghost const loaded: Data
    var pixels: Frame
    var labels: seq<int>
    const stats: array2<real>

    ghost predicate Valid()
      reads this
    {
      setup.Valid() && loaded.Aligned() && loaded.pixels.Rectangular()
      && stats.Length0 == repeat && stats.Length1 == setup.numClass + 3
    }

    /** The data from `loadData` and `stats = np.ones((repeat, num_class + 3)) * -1000.0`. */
    constructor (args: Args, c: Collaborators, savedModel: Cube -> seq<seq<real>>,
                 loadedPixels: Frame, loadedLabels: seq<int>, numClass: nat)
      requires args.Valid() && args.SetupWith(numClass, c, savedModel).Valid()
      requires |loadedPixels.rows| == |loadedLabels| && loadedPixels.Rectangular()
      ensures Valid() && fresh(stats)
      ensures setup == args.SetupWith(numClass, c, savedModel) && repeat == args.repeat
      ensures loaded == Data(loadedPixels, loadedLabels)
      ensures pixels == loadedPixels && labels == loadedLabels
      ensures forall i, j :: 0 <= i < repeat && 0 <= j < stats.Length1 ==> stats[i, j] == Sentinel
    {
      setup := args.SetupWith(numClass, c, savedModel);
      repeat := args.repeat;
      loaded := Data(loadedPixels, loadedLabels);
      pixels, labels := loadedPixels, loadedLabels;
      var matrix := NewStats(args.repeat, numClass + 3);
      stats := matrix;
    }

    /** The `for pos in range(args.repeat)` loop. */
    method RunTrials()
      requires Valid() && Data(pixels, labels) == loaded
      requires forall i, j :: 0 <= i < repeat && 0 <= j < stats.Length1 ==> stats[i, j] == Sentinel
      modifies this`pixels, this`labels, stats
      ensures Valid()
      ensures Data(pixels, labels) == DataBefore(setup.cfg, loaded, repeat)
      ensures forall i, j :: 0 <= i < repeat && 0 <= j < stats.Length1 ==>
        stats[i, j] == TrialRow(setup, DataBefore(setup.cfg, loaded, i), i)[j]
    {
      var cfg, c := setup.cfg, setup.c;
      var pos := 0;
      while pos < repeat
        invariant 0 <= pos <= repeat
        invariant Data(pixels, labels) == DataBefore(cfg, loaded, pos)
        invariant forall i, j :: 0 <= i < pos && 0 <= j < stats.Length1 ==>
          stats[i, j] == TrialRow(setup, DataBefore(cfg, loaded, i), i)[j]
        invariant forall i, j :: pos <= i < repeat && 0 <= j < stats.Length1 ==> stats[i, j] == Sentinel
      {
        ghost var before := Data(pixels, labels);
        var rstate := SeedFor(cfg.randomState, pos);
        var split: Split;
        if IsFixedSplit(cfg.dataset) {
          split := c.loadSplitDataFix(cfg.dataset, pixels);
        } else {
          var kept := FilterBackground(Data(pixels, labels));
          pixels, labels := kept.pixels, kept.labels;
          split := c.splitData(pixels, labels, cfg.trPercent, rstate, TrainTest(pos));
        }
        var parts := CarveOut(c, split, cfg.useVal, cfg.valPercent, rstate, pos);
        var xTest := AddAxis(parts.xTest);
        var row := c.reports(Predictions(setup.savedModel(xTest)), parts.yTest);
        assert row == TrialRow(setup, before, pos);
        PrepareAdvances(c, cfg, loaded, pos);
        WriteRow(stats, pos, row);
        pos := pos + 1;
      }
    }
  }

  /** `main` from `set_params` on, given what `loadData` returned. */
  method Execute(args: Args, c: Collaborators, savedModel: Cube -> seq<seq<real>>,
                 loadedPixels: Frame, loadedLabels: seq<int>, numClass: nat)
    returns (stats: array2<real>)
    requires args.Valid() && args.SetupWith(numClass, c, savedModel).Valid()
    requires |loadedPixels.rows| == |loadedLabels| && loadedPixels.Rectangular()
    modifies args`batchSize, args`epochs
    ensures args.setParameters ==> args.batchSize == OptimalBatchSize && args.epochs == OptimalEpochs
    ensures !args.setParameters ==> args.batchSize == old(args.batchSize) && args.epochs == old(args.epochs)
    ensures stats.Length0 == args.repeat && stats.Length1 == numClass + 3
    ensures var s, loaded := args.SetupWith(numClass, c, savedModel), Data(loadedPixels, loadedLabels);
      forall i, j :: 0 <= i < args.repeat && 0 <= j < numClass + 3 ==>
        stats[i, j] == TrialRow(s, DataBefore(s.cfg, loaded, i), i)[j]
  {
    args.ApplyOptimalParameters();
    var run := new Experiment(args, c, savedModel, loadedPixels, loadedLabels, numClass);
    run.RunTrials();
    stats := run.stats;
  }
}
