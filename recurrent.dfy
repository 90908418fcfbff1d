/**
 * algorithms/recurrent.py: a recurrent classifier (two stacked recurrent layers of one
 * cell kind) trained and scored `repeat` times.  The Keras calls (build, fit with a
 * best-only checkpoint, reload of the checkpoint, predict) are one collaborator,
 * `fitAndScore`, that returns one score row per test sample.
 */
module Recurrent {
  import opened Wrappers
  import opened Controller

  /** The values `--type_recurrent` accepts. */
  const RecurrentTags: set<string> := {"RNN", "GRU", "LSTM"}

  /** Batch size and epochs that `set_params` installs. */
  const OptimalBatchSize: int := 100
  const OptimalEpochs: int := 150

  /** The recurrent layer kind: SimpleRNN, CuDNNGRU or CuDNNLSTM. */
  datatype Cell = SimpleRnn | Gru | Lstm

  /** The tag that selects a cell kind. */
  function TagOf(c: Cell): string
  {
    match c
    case SimpleRnn => "RNN"
    case Gru => "GRU"
    case Lstm => "LSTM"
  }

  /** The dispatch at the top of `get_model_compiled`.  Any other tag only prints a
      message and leaves `func` unbound, so building the first layer fails. */
  function CellFor(tag: string): Result<Cell, string>
  {
    if tag == "RNN" then Success(SimpleRnn)
    else if tag == "GRU" then Success(Gru)
    else if tag == "LSTM" then Success(Lstm)
    else Failure("NOT RECURRENT FUNC")
  }

  /** The dispatch succeeds exactly on the three accepted tags, and tag and cell kind are
      inverse to each other. */
  lemma CellDispatch(tag: string, c: Cell)
    ensures CellFor(tag).Success? <==> tag in RecurrentTags
    ensures CellFor(TagOf(c)) == Success(c)
    ensures CellFor(tag).Success? ==> TagOf(CellFor(tag).value) == tag
  {
  }

  /** What `get_model_compiled` builds: the cell kind, the input shape and the class count. */
  datatype Network = Network(cell: Cell, featSize: nat, seqLen: nat, numClass: nat)

  function GetModelCompiled(featSize: nat, seqLen: nat, numClass: nat, tag: string): (r: Result<Network, string>)
    ensures r.Success? <==> tag in RecurrentTags
    ensures r.Success? ==> r.value == Network(CellFor(tag).value, featSize, seqLen, numClass)
  {
    match CellFor(tag)
    case Success(cell) => Success(Network(cell, featSize, seqLen, numClass))
    case Failure(e) => Failure(e)
  }

  /** The arguments of one `clf.fit(...)` call: the network, the training tensor and labels,
      the validation data, batch size, epochs and verbosity. */
  datatype TrainJob = TrainJob(network: Network, xTrain: Cube, yTrain: seq<int>,
                               xVal: Cube, yVal: seq<int>,
                               batchSize: int, epochs: int, verbose: bool)

  /** Everything one invocation of `main` fixes before the loop. */
  datatype Setup = Setup(
    cfg: TrialConfig,
    typeRecurrent: string,
    batchSize: int,
    epochs: int,
    verbose: bool,
    numClass: nat,
    c: Collaborators,
    // In trial `pos`, fit `job` from fresh random weights with the best-by-val_accuracy
    // checkpoint, reload that checkpoint and return `clf.predict` of the given tensor.
    // The trial index lets every trial's training come out differently.
    fitAndScore: (nat, TrainJob, Cube) -> seq<seq<real>>)
  {
    ghost predicate Valid()
    {
      && numClass > 0
      && typeRecurrent in RecurrentTags
      && Shaped(c, numClass)
      && (forall pos, job, t, i :: 0 <= i < |fitAndScore(pos, job, t)| ==> |fitAndScore(pos, job, t)[i]| == numClass)
    }
  }

  /** The `fit` call of trial `pos` on data `d`. */
  function TrialJob(s: Setup, d: Data, pos: nat): (job: TrainJob)
    requires s.Valid() && d.Aligned()
    ensures job.network == Network(CellFor(s.typeRecurrent).value, d.pixels.cols, 1, s.numClass)
    ensures job.batchSize == s.batchSize && job.epochs == s.epochs && job.verbose == s.verbose
    ensures var p := PrepareTrial(s.c, s.cfg, d, pos);
      job.xTrain == p.xTrain && job.yTrain == p.yTrain && job.xVal == p.xVal && job.yVal == p.yVal
    ensures !s.cfg.useVal ==>
      var p := PrepareTrial(s.c, s.cfg, d, pos);
      job.xVal == p.xTest && job.yVal == p.yTest
  {
    var p := PrepareTrial(s.c, s.cfg, d, pos);
    PreparedShape(s.c, s.numClass, s.cfg, d, pos);
    var net := GetModelCompiled(p.xTrain.d1, p.xTrain.d2, s.numClass, s.typeRecurrent).value;
    TrainJob(net, p.xTrain, p.yTrain, p.xVal, p.yVal, s.batchSize, s.epochs, s.verbose)
  }

  /** The metrics row trial `pos` writes when it begins with data `d`. */
  function TrialRow(s: Setup, d: Data, pos: nat): (row: seq<real>)
    requires s.Valid() && d.Aligned()
    ensures |row| == s.numClass + 3
  {
    var p := PrepareTrial(s.c, s.cfg, d, pos);
    s.c.reports(Predictions(s.fitAndScore(pos, TrialJob(s, d, pos), p.xTest)), p.yTest)
  }

  /** The parsed command line. */
  class Args {
    var dataset: Dataset
    var typeRecurrent: string
    var repeat: int
    var randomState: Option<int>
    var trPercent: real
    var useVal: bool
    var valPercent: real
    var verboseTrain: bool
    var setParameters: bool
    var batchSize: int
    var epochs: int

    ghost predicate Valid()
      reads this
    {
      typeRecurrent in RecurrentTags && repeat >= 0
    }

    /** Flags are given as present or absent on the command line: `--use_val` and
        `--verbosetrain` are store_true, `--set_parameters` is store_false. */
    constructor (dataset: Dataset, typeRecurrent: string, repeat: int, randomState: Option<int>,
                 trPercent: real, useValFlag: bool, valPercent: real, verboseFlag: bool,
                 setParametersFlag: bool, batchSize: int, epochs: int)
      ensures this.dataset == dataset && this.typeRecurrent == typeRecurrent
      ensures this.repeat == repeat && this.randomState == randomState
      ensures this.trPercent == trPercent && this.valPercent == valPercent
      ensures this.useVal == useValFlag && this.verboseTrain == verboseFlag
      ensures this.setParameters == !setParametersFlag
      ensures this.batchSize == batchSize && this.epochs == epochs
    {
      this.dataset, this.typeRecurrent, this.repeat, this.randomState := dataset, typeRecurrent, repeat, randomState;
      this.trPercent, this.useVal, this.valPercent := trPercent, useValFlag, valPercent;
      this.verboseTrain, this.setParameters := verboseFlag, !setParametersFlag;
      this.batchSize, this.epochs := batchSize, epochs;
    }

    /** `set_params`: batch size 100 and 150 epochs; no other argument changes. */
    method SetParams()
      modifies this`batchSize, this`epochs
      ensures batchSize == OptimalBatchSize && epochs == OptimalEpochs
    {
      batchSize := OptimalBatchSize;
      epochs := OptimalEpochs;
    }

    /** `if args.set_parameters: args = set_params(args)`.  The flag is on unless
        `--set_parameters` was given, so by default the command-line batch size and
        epochs are overridden. */
    method ApplyOptimalParameters()
      modifies this`batchSize, this`epochs
      ensures setParameters ==> batchSize == OptimalBatchSize && epochs == OptimalEpochs
      ensures !setParameters ==> batchSize == old(batchSize) && epochs == old(epochs)
    {
      if setParameters {
        SetParams();
      }
    }

    function Config(): TrialConfig
      reads this
    {
      TrialConfig(dataset, randomState, trPercent, useVal, valPercent)
    }

    /** The loop's setup once the arguments are resolved and the data is loaded. */
    function SetupWith(numClass: nat, c: Collaborators, fitAndScore: (nat, TrainJob, Cube) -> seq<seq<real>>): Setup
      reads this
    {
      Setup(Config(), typeRecurrent, batchSize, epochs, verboseTrain, numClass, c, fitAndScore)
    }
  }

  /** One invocation of `main` from the loaded data on: the pixel matrix and labels it
      reassigns and the results matrix it fills. */
  class Experiment {
    const setup: Setup
    const repeat: nat
    ghost const loaded: Data
    var pixels: Frame
    var labels: seq<int>
    const stats: array2<real>

    ghost predicate Valid()
      reads this
    {
      setup.Valid() && loaded.Aligned() && loaded.pixels.Rectangular()
      && stats.Length0 == repeat && stats.Length1 == setup.numClass + 3
    }

    /** The data from `loadData` and `stats = np.ones((repeat, num_class + 3)) * -1000.0`. */
    constructor (args: Args, c: Collaborators, fitAndScore: (nat, TrainJob, Cube) -> seq<seq<real>>,
                 loadedPixels: Frame, loadedLabels: seq<int>, numClass: nat)
      requires args.Valid() && args.SetupWith(numClass, c, fitAndScore).Valid()
      requires |loadedPixels.rows| == |loadedLabels| && loadedPixels.Rectangular()
      ensures Valid() && fresh(stats)
      ensures setup == args.SetupWith(numClass, c, fitAndScore) && repeat == args.repeat
      ensures loaded == Data(loadedPixels, loadedLabels)
      ensures pixels == loadedPixels && labels == loadedLabels
      ensures forall i, j :: 0 <= i < repeat && 0 <= j < stats.Length1 ==> stats[i, j] == Sentinel
    {
      setup := args.SetupWith(numClass, c, fitAndScore);
      repeat := args.repeat;
      loaded := Data(loadedPixels, loadedLabels);
      pixels, labels := loadedPixels, loadedLabels;
      var matrix := NewStats(args.repeat, numClass + 3);
      stats := matrix;
    }

    /** The `for pos in range(args.repeat)` loop. */
    method RunTrials()
      requires Valid() && Data(pixels, labels) == loaded
      requires forall i, j :: 0 <= i < repeat && 0 <= j < stats.Length1 ==> stats[i, j] == Sentinel
      modifies this`pixels, this`labels, stats
      ensures Valid()
      ensures Data(pixels, labels) == DataBefore(setup.cfg, loaded, repeat)
      ensures forall i, j :: 0 <= i < repeat && 0 <= j < stats.Length1 ==>
        stats[i, j] == TrialRow(setup, DataBefore(setup.cfg, loaded, i), i)[j]
    {
      var cfg, c := setup.cfg, setup.c;
      var pos := 0;
      while pos < repeat
        invariant 0 <= pos <= repeat
        invariant Data(pixels, labels) == DataBefore(cfg, loaded, pos)
        invariant forall i, j :: 0 <= i < pos && 0 <= j < stats.Length1 ==>
          stats[i, j] == TrialRow(setup, DataBefore(cfg, loaded, i), i)[j]
        invariant forall i, j :: pos <= i < repeat && 0 <= j < stats.Length1 ==> stats[i, j] == Sentinel
      {
        ghost var before := Data(pixels, labels);
        var rstate := SeedFor(cfg.randomState, pos);
        var split: Split;
        if IsFixedSplit(cfg.dataset) {
          split := c.loadSplitDataFix(cfg.dataset, pixels);
        } else {
          var kept := FilterBackground(Data(pixels, labels));
          pixels, labels := kept.pixels, kept.labels;
          split := c.splitData(pixels, labels, cfg.trPercent, rstate, TrainTest(pos));
        }
        var parts := CarveOut(c, split, cfg.useVal, cfg.valPercent, rstate, pos);
        var xTrain, xVal, xTest := AddAxis(parts.xTrain), AddAxis(parts.xVal), AddAxis(parts.xTest);
        var nBands, sequences := xTrain.d1, xTrain.d2;
        var clf := GetModelCompiled(nBands, sequences, setup.numClass, setup.typeRecurrent).value;
        var job := TrainJob(clf, xTrain, parts.yTrain, xVal, parts.yVal,
                            setup.batchSize, setup.epochs, setup.verbose);
        var row := c.reports(Predictions(setup.fitAndScore(pos, job, xTest)), parts.yTest);
        assert row == TrialRow(setup, before, pos);
        PrepareAdvances(c, cfg, loaded, pos);
        WriteRow(stats, pos, row);
        pos := pos + 1;
      }
    }
  }

  /** `main` from `set_params` on, given what `loadData` returned. */
  method Execute(args: Args, c: Collaborators, fitAndScore: (nat, TrainJob, Cube) -> seq<seq<real>>,
                 loadedPixels: Frame, loadedLabels: seq<int>, numClass: nat)
    returns (stats: array2<real>)
    requires args.Valid() && args.SetupWith(numClass, c, fitAndScore).Valid()
    requires |loadedPixels.rows| == |loadedLabels| && loadedPixels.Rectangular()
    modifies args`batchSize, args`epochs
    ensures args.setParameters ==> args.batchSize == OptimalBatchSize && args.epochs == OptimalEpochs
    ensures !args.setParameters ==> args.batchSize == old(args.batchSize) && args.epochs == old(args.epochs)
    ensures stats.Length0 == args.repeat && stats.Length1 == numClass + 3
    ensures var s, loaded := args.SetupWith(numClass, c, fitAndScore), Data(loadedPixels, loadedLabels);
      forall i, j :: 0 <= i < args.repeat && 0 <= j < numClass + 3 ==>
        stats[i, j] == TrialRow(s, DataBefore(s.cfg, loaded, i), i)[j]
  {
    args.ApplyOptimalParameters();
    var run := new Experiment(args, c, fitAndScore, loadedPixels, loadedLabels, numClass);
    run.RunTrials();
    stats := run.stats;
  }
}
