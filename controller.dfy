/**
 * The trial pipeline that both experiment scripts (algorithms/recurrent.py and
 * algorithms/cnn1d.py) share inside their `main` loop: per-trial seed, routing of the
 * dataset to the fixed or the fractional split, background-class removal and
 * relabelling, the validation carve-out, the trailing-axis reshape, arg-max
 * prediction and the results matrix.  The data splitters and the metrics routine
 * of `auxil` are collaborators passed in as functions with shape-only contracts.
 */
module Controller {
  import opened Wrappers
  import opened Masking

  /** Value every cell of the results matrix holds until its trial has written it. */
  const Sentinel: real := -1000.0

  /** The closed set of dataset names the scripts accept. */
  datatype Dataset = IP | UP | SV | UH | DIP | DUP | DIPr | DUPr

  /** The datasets that come with a predefined train/test split. */
  predicate IsFixedSplit(d: Dataset)
  {
    d == UH || d == DIP || d == DUP || d == DIPr || d == DUPr
  }

  /** A two-dimensional array of samples × features; `cols` is its second dimension
      (known even when there are no rows). */
  datatype Frame = Frame(cols: nat, rows: seq<seq<real>>)
  {
    /** Every row has `cols` features, as in a numpy array. */
    predicate Rectangular()
    {
      forall i :: 0 <= i < |rows| ==> |rows[i]| == cols
    }
  }

  /** A three-dimensional array samples × d1 × d2. */
  datatype Cube = Cube(d1: nat, d2: nat, cells: seq<seq<seq<real>>>)
  {
    /** Every sample is a `d1 × d2` block, as in a numpy array. */
    predicate Rectangular()
    {
      forall i :: 0 <= i < |cells| ==>
        |cells[i]| == d1 && forall j :: 0 <= j < |cells[i]| ==> |cells[i][j]| == d2
    }
  }

  /** The pixel matrix and its label vector, as `main` holds them between trials. */
  datatype Data = Data(pixels: Frame, labels: seq<int>)
  {
    predicate Aligned()
    {
      |pixels.rows| == |labels|
    }
  }

  /** What a splitter returns: x_train, x_test, y_train, y_test. */
  datatype Split = Split(xTrain: Frame, xTest: Frame, yTrain: seq<int>, yTest: seq<int>)

  /** Which `split_data` call of the run this is: the train/test split of trial `trial`
      or its validation carve-out.  An unseeded call draws afresh each time, so the
      splitter may answer differently for different calls on the same arguments. */
  datatype SplitCall = TrainTest(trial: nat) | ValTest(trial: nat)

  /** The `auxil` routines the loop calls: `mydata.split_data`, `mydata.load_split_data_fix`
      and the metrics vector (third result) of `mymetrics.reports`. */
  datatype Collaborators = Collaborators(
    splitData: (Frame, seq<int>, real, Option<int>, SplitCall) -> Split,
    loadSplitDataFix: (Dataset, Frame) -> Split,
    reports: (seq<nat>, seq<int>) -> seq<real>)

  /** Shape-only contracts of the collaborators: splits keep the feature dimension and
      rectangularity, and the metrics vector holds OA, AA, kappa and one accuracy per class. */
  ghost predicate Shaped(c: Collaborators, numClass: nat)
  {
    && (forall x, y, f, s, k :: c.splitData(x, y, f, s, k).xTrain.cols == x.cols
                             && c.splitData(x, y, f, s, k).xTest.cols == x.cols)
    && (forall x: Frame, y, f, s, k :: x.Rectangular() ==>
          c.splitData(x, y, f, s, k).xTrain.Rectangular() && c.splitData(x, y, f, s, k).xTest.Rectangular())
    && (forall d, x :: c.loadSplitDataFix(d, x).xTrain.cols == x.cols
                    && c.loadSplitDataFix(d, x).xTest.cols == x.cols)
    && (forall d, x: Frame :: x.Rectangular() ==>
          c.loadSplitDataFix(d, x).xTrain.Rectangular() && c.loadSplitDataFix(d, x).xTest.Rectangular())
    && (forall p, y :: |c.reports(p, y)| == numClass + 3)
  }

  /** The command-line settings the trial loop reads. */
  datatype TrialConfig = TrialConfig(
    dataset: Dataset,
    randomState: Option<int>,
    trPercent: real,
    useVal: bool,
    valPercent: real)

  // ---------------------------------------------------------------- seeds

  /** `args.random_state + pos if args.random_state != None else None`. */
  function SeedFor(randomState: Option<int>, pos: nat): Option<int>
  {
    if randomState.Some? then Some(randomState.value + pos) else None
  }

  /** A base seed gives trial `pos` the seed base + pos, hence a different seed per trial;
      without a base seed no trial is seeded. */
  lemma SeedsPerTrial(randomState: Option<int>, pos: nat, pos': nat)
    ensures SeedFor(randomState, pos).Some? <==> randomState.Some?
    ensures randomState.Some? ==> SeedFor(randomState, pos) == Some(randomState.value + pos)
    ensures randomState.Some? && pos != pos' ==> SeedFor(randomState, pos) != SeedFor(randomState, pos')
  {
  }

  // ---------------------------------------------------- background filter

  /** The mask `labels != 0`. */
  function NonZero(labels: seq<int>): (m: seq<bool>)
    ensures |m| == |labels|
  {
    seq(|labels|, i requires 0 <= i < |labels| => labels[i] != 0)
  }

  /** One pass of `pixels = pixels[labels != 0]; labels = labels[labels != 0] - 1`. */
  function FilterBackground(d: Data): (r: Data)
    requires d.Aligned()
    ensures r.Aligned()
    ensures r.pixels.cols == d.pixels.cols
    ensures |r.labels| <= |d.labels|
  {
    var keep := NonZero(d.labels);
    Data(Frame(d.pixels.cols, Compress(d.pixels.rows, keep)), Minus(Compress(d.labels, keep), 1))
  }

  /** One pass keeps exactly the samples whose label is non-zero, in their original order,
      and gives each the label one lower. */
  lemma FilterKeepsForeground(d: Data)
    requires d.Aligned()
    ensures var p, r := Positions(NonZero(d.labels)), FilterBackground(d);
      && (forall i :: 0 <= i < |d.labels| ==> (d.labels[i] != 0 <==> i in p))
      && (forall k, l :: 0 <= k < l < |p| ==> p[k] < p[l])
      && |r.labels| == |p|
      && (forall k :: 0 <= k < |p| ==> r.pixels.rows[k] == d.pixels.rows[p[k]])
      && (forall k :: 0 <= k < |p| ==> r.labels[k] == d.labels[p[k]] - 1)
  {
    var keep := NonZero(d.labels);
    CompressIsGather(d.pixels.rows, keep);
    CompressIsGather(d.labels, keep);
    forall i | 0 <= i < |d.labels| && d.labels[i] != 0
      ensures i in Positions(keep)
    {
      PositionsComplete(keep, i);
    }
  }

  /** Labels 0..numClass (0 the background) become the dense range 0..numClass-1. */
  lemma FilterDense(d: Data, numClass: nat)
    requires d.Aligned()
    requires forall i :: 0 <= i < |d.labels| ==> 0 <= d.labels[i] <= numClass
    ensures forall k :: 0 <= k < |FilterBackground(d).labels| ==>
      0 <= FilterBackground(d).labels[k] < numClass
    ensures forall v :: 0 <= v < numClass ==> (v in FilterBackground(d).labels <==> v + 1 in d.labels)
  {
    FilterKeepsForeground(d);
    ShiftedDense(d.labels, Positions(NonZero(d.labels)), FilterBackground(d).labels, numClass);
  }

  /** When `out` gathers `labels[p[k]] - 1` over exactly the positions of the non-zero
      labels, and those lie in `0..numClass`, then `out` lies in `[0, numClass)` and a value
      occurs in `out` exactly when its successor occurs in `labels`. */
  lemma ShiftedDense(labels: seq<int>, p: seq<nat>, out: seq<int>, numClass: nat)
    requires forall i :: 0 <= i < |labels| ==> 0 <= labels[i] <= numClass
    requires forall i :: 0 <= i < |labels| ==> (labels[i] != 0 <==> i in p)
    requires |out| == |p|
    requires forall k :: 0 <= k < |p| ==> p[k] < |labels|
    requires forall k :: 0 <= k < |p| ==> out[k] == labels[p[k]] - 1
    ensures forall k :: 0 <= k < |out| ==> 0 <= out[k] < numClass
    ensures forall v :: 0 <= v < numClass ==> (v in out <==> v + 1 in labels)
  {
    forall k | 0 <= k < |out|
      ensures 0 <= out[k] < numClass
    {
      assert p[k] in p;
    }
    forall v | 0 <= v < numClass
      ensures v in out <==> v + 1 in labels
    {
      if v in out {
        var k :| 0 <= k < |out| && out[k] == v;
        assert labels[p[k]] == v + 1;
      }
      if v + 1 in labels {
        var i :| 0 <= i < |labels| && labels[i] == v + 1;
        var k :| 0 <= k < |p| && p[k] == i;
        assert out[k] == v;
      }
    }
  }

  /** The filter keeps a rectangular pixel matrix rectangular. */
  lemma FilterKeepsRectangular(d: Data)
    requires d.Aligned() && d.pixels.Rectangular()
    ensures FilterBackground(d).pixels.Rectangular()
  {
    FilterKeepsForeground(d);
  }

  /** The data after `n` passes of the filter, as `main` holds it after `n` trials on a
      dataset without a fixed split (the filter runs inside the loop). */
  function FilterPasses(d: Data, n: nat): (r: Data)
    requires d.Aligned()
    ensures r.Aligned()
    ensures r.pixels.cols == d.pixels.cols
  {
    if n == 0 then d else FilterBackground(FilterPasses(d, n - 1))
  }

  /** Any number of passes keeps a rectangular pixel matrix rectangular. */
  lemma {:induction false} FilterPassesRectangular(d: Data, n: nat)
    requires d.Aligned() && d.pixels.Rectangular()
    ensures FilterPasses(d, n).pixels.Rectangular()
  {
    if n > 0 {
      FilterPassesRectangular(d, n - 1);
      FilterKeepsRectangular(FilterPasses(d, n - 1));
    }
  }

  /** The mask `labels >= n`. */
  function AtLeast(labels: seq<int>, n: int): (m: seq<bool>)
    ensures |m| == |labels|
  {
    seq(|labels|, i requires 0 <= i < |labels| => labels[i] >= n)
  }

  /** The mask `labels != v`. */
  function Unequal(labels: seq<int>, v: int): (m: seq<bool>)
    ensures |m| == |labels|
  {
    seq(|labels|, i requires 0 <= i < |labels| => labels[i] != v)
  }

  /** The data with the mask `labels >= n` applied and `n` subtracted from the labels. */
  function AboveBackground(d: Data, n: nat): (r: Data)
    requires d.Aligned()
    ensures r.Aligned()
  {
    var keep := AtLeast(d.labels, n);
    Data(Frame(d.pixels.cols, Compress(d.pixels.rows, keep)), Minus(Compress(d.labels, keep), n))
  }

  /** The mask of the next pass, `kept labels - n != 0`, read back on the original positions. */
  lemma NextPassMask(lb: seq<int>, n: nat)
    ensures NonZero(Minus(Compress(lb, AtLeast(lb, n)), n)) == Compress(Unequal(lb, n), AtLeast(lb, n))
  {
    CompressIsGather(lb, AtLeast(lb, n));
    CompressIsGather(Unequal(lb, n), AtLeast(lb, n));
  }

  /** One more pass on the data with labels `>= n` kept gives the data with labels `>= n + 1` kept. */
  lemma FilterPassStep(d: Data, n: nat)
    requires d.Aligned()
    ensures FilterBackground(AboveBackground(d, n)) == AboveBackground(d, n + 1)
  {
    var rows, lb := d.pixels.rows, d.labels;
    var a, b := AtLeast(lb, n), Unequal(lb, n);
    var c := Compress(lb, a);
    NextPassMask(lb, n);
    assert And(a, b) == AtLeast(lb, n + 1);
    CompressCompose(rows, a, b);
    CompressMinus(c, Compress(b, a), n);
    CompressCompose(lb, a, b);
    var kept := Compress(lb, AtLeast(lb, n + 1));
    assert Minus(Minus(kept, n), 1) == Minus(kept, n + 1);
  }

  /** `n` passes select with the mask `labels >= n` and subtract `n`. */
  lemma {:induction false} FilterPassesMask(d: Data, n: nat)
    requires d.Aligned()
    requires forall i :: 0 <= i < |d.labels| ==> d.labels[i] >= 0
    ensures FilterPasses(d, n) == AboveBackground(d, n)
  {
    if n == 0 {
      CompressAll(d.pixels.rows, AtLeast(d.labels, 0));
      CompressAll(d.labels, AtLeast(d.labels, 0));
      assert Minus(d.labels, 0) == d.labels;
    } else {
      FilterPassesMask(d, n - 1);
      FilterPassStep(d, n - 1);
    }
  }

  /** Because the filter runs once per trial, after `n` passes exactly the samples whose
      original label is at least `n` remain, in order, each labelled `original - n`. */
  lemma RepeatedFilter(d: Data, n: nat)
    requires d.Aligned()
    requires forall i :: 0 <= i < |d.labels| ==> d.labels[i] >= 0
    ensures var p, r := Positions(AtLeast(d.labels, n)), FilterPasses(d, n);
      && (forall i :: 0 <= i < |d.labels| ==> (d.labels[i] >= n <==> i in p))
      && (forall k, l :: 0 <= k < l < |p| ==> p[k] < p[l])
      && |r.labels| == |p|
      && (forall k :: 0 <= k < |p| ==> r.pixels.rows[k] == d.pixels.rows[p[k]])
      && (forall k :: 0 <= k < |p| ==> r.labels[k] == d.labels[p[k]] - n)
  {
    var keep := AtLeast(d.labels, n);
    FilterPassesMask(d, n);
    CompressIsGather(d.pixels.rows, keep);
    CompressIsGather(d.labels, keep);
    forall i | 0 <= i < |d.labels| && d.labels[i] >= n
      ensures i in Positions(keep)
    {
      PositionsComplete(keep, i);
    }
  }

  // ------------------------------------------------------------ routing

  /** The partition of one trial, with the data `main` holds afterwards. */
  datatype Partitioned = Partitioned(split: Split, data: Data)

  /** Fixed-split datasets go to `load_split_data_fix`; the others lose their background
      samples and go to `split_data` with the training fraction and the trial's seed. */
  function Partition(c: Collaborators, dataset: Dataset, trPercent: real, seed: Option<int>, d: Data,
                     pos: nat)
    : (r: Partitioned)
    requires d.Aligned()
    ensures r.data.Aligned()
  {
    if IsFixedSplit(dataset) then
      Partitioned(c.loadSplitDataFix(dataset, d.pixels), d)
    else
      var f := FilterBackground(d);
      Partitioned(c.splitData(f.pixels, f.labels, trPercent, seed, TrainTest(pos)), f)
  }

  /** A fixed-split dataset ignores the training fraction, the seed and the labels and leaves
      the data as it was; any other dataset is filtered and split by fraction and seed. */
  lemma PartitionRoutes(c: Collaborators, dataset: Dataset, trPercent: real, trPercent': real,
                        seed: Option<int>, seed': Option<int>, d: Data, labels': seq<int>, pos: nat)
    requires d.Aligned() && |labels'| == |d.labels|
    ensures IsFixedSplit(dataset) ==>
      && Partition(c, dataset, trPercent, seed, d, pos).split
           == Partition(c, dataset, trPercent', seed', Data(d.pixels, labels'), pos).split
      && Partition(c, dataset, trPercent, seed, d, pos).data == d
    ensures !IsFixedSplit(dataset) ==>
      var r := Partition(c, dataset, trPercent, seed, d, pos);
      && r.data == FilterBackground(d)
      && r.split == c.splitData(r.data.pixels, r.data.labels, trPercent, seed, TrainTest(pos))
  {
  }

  // -------------------------------------------------- validation carve-out

  /** The partitions a trial trains, validates and tests on. */
  datatype Carved = Carved(xTrain: Frame, yTrain: seq<int>, xVal: Frame, yVal: seq<int>,
                           xTest: Frame, yTest: seq<int>)

  /** With `use_val` the test partition is split again by `val_percent`: the first part
      validates and the rest is tested on; otherwise the test partition also validates. */
  function CarveOut(c: Collaborators, s: Split, useVal: bool, valPercent: real, seed: Option<int>,
                    pos: nat)
    : (r: Carved)
    ensures r.xTrain == s.xTrain && r.yTrain == s.yTrain
    ensures !useVal ==> r.xVal == r.xTest == s.xTest && r.yVal == r.yTest == s.yTest
    ensures useVal ==> Split(r.xVal, r.xTest, r.yVal, r.yTest)
                       == c.splitData(s.xTest, s.yTest, valPercent, seed, ValTest(pos))
  {
    if useVal then
      var v := c.splitData(s.xTest, s.yTest, valPercent, seed, ValTest(pos));
      Carved(s.xTrain, s.yTrain, v.xTrain, v.yTrain, v.xTest, v.yTest)
    else
      Carved(s.xTrain, s.yTrain, s.xTest, s.yTest, s.xTest, s.yTest)
  }

  // -------------------------------------------------------------- reshape

  /** `x.reshape(n, f, 1)`, the same as `x[..., np.newaxis]`: every feature becomes a
      one-element vector. */
  function AddAxis(f: Frame): (t: Cube)
    ensures t.d1 == f.cols && t.d2 == 1 && |t.cells| == |f.rows|
    ensures f.Rectangular() ==> t.Rectangular()
  {
    Cube(f.cols, 1, seq(|f.rows|, i requires 0 <= i < |f.rows| =>
                          seq(|f.rows[i]|, j requires 0 <= j < |f.rows[i]| => [f.rows[i][j]])))
  }

  /** Drops a trailing axis of size one. */
  function DropAxis(t: Cube): Frame
  {
    Frame(t.d1, seq(|t.cells|, i requires 0 <= i < |t.cells| =>
                      seq(|t.cells[i]|, j requires 0 <= j < |t.cells[i]| =>
                            if |t.cells[i][j]| > 0 then t.cells[i][j][0] else 0.0)))
  }

  /** The reshape only adds an axis: dropping it gives the samples back unchanged. */
  lemma AxisRoundTrip(f: Frame)
    ensures DropAxis(AddAxis(f)) == f
  {
    var t := AddAxis(f);
    assert forall i :: 0 <= i < |f.rows| ==> DropAxis(t).rows[i] == f.rows[i];
  }

  // ------------------------------------------------------- one trial's data

  /** The tensors of one trial (after the reshape) and the data `main` keeps for the next. */
  datatype Prepared = Prepared(xTrain: Cube, yTrain: seq<int>, xVal: Cube, yVal: seq<int>,
                               xTest: Cube, yTest: seq<int>, seed: Option<int>, data: Data)

  /** Seed, routing, filter, carve-out and reshape of trial `pos`. */
  function PrepareTrial(c: Collaborators, cfg: TrialConfig, d: Data, pos: nat): (r: Prepared)
    requires d.Aligned()
    ensures r.data.Aligned()
  {
    var seed := SeedFor(cfg.randomState, pos);
    var p := Partition(c, cfg.dataset, cfg.trPercent, seed, d, pos);
    var v := CarveOut(c, p.split, cfg.useVal, cfg.valPercent, seed, pos);
    Prepared(AddAxis(v.xTrain), v.yTrain, AddAxis(v.xVal), v.yVal, AddAxis(v.xTest), v.yTest, seed, p.data)
  }

  /** The network's input shape comes from the training tensor: `n_bands` is the number of
      features of a pixel and `sequences` is 1. */
  lemma PreparedShape(c: Collaborators, numClass: nat, cfg: TrialConfig, d: Data, pos: nat)
    requires d.Aligned() && Shaped(c, numClass)
    ensures var r := PrepareTrial(c, cfg, d, pos);
      r.xTrain.d1 == d.pixels.cols && r.xTrain.d2 == 1
      && r.xTest.d1 == d.pixels.cols && r.xTest.d2 == 1
    ensures var r := PrepareTrial(c, cfg, d, pos);
      d.pixels.Rectangular() ==> r.xTrain.Rectangular() && r.xVal.Rectangular() && r.xTest.Rectangular()
  {
    if d.pixels.Rectangular() && !IsFixedSplit(cfg.dataset) {
      FilterKeepsRectangular(d);
    }
  }

  /** The data `main` holds when trial `pos` begins. */
  function DataBefore(cfg: TrialConfig, loaded: Data, pos: nat): (r: Data)
    requires loaded.Aligned()
    ensures r.Aligned()
  {
    if IsFixedSplit(cfg.dataset) then loaded else FilterPasses(loaded, pos)
  }

  /** Each trial hands the next one the data it began with (fixed split) or that data
      filtered once more. */
  lemma PrepareAdvances(c: Collaborators, cfg: TrialConfig, loaded: Data, pos: nat)
    requires loaded.Aligned()
    ensures PrepareTrial(c, cfg, DataBefore(cfg, loaded, pos), pos).data == DataBefore(cfg, loaded, pos + 1)
  {
  }

  /** On a dataset without a fixed split, trial `pos` (counting from 0) splits exactly the
      samples whose loaded label exceeds `pos`, in order, labelled `loaded - (pos + 1)`. */
  lemma TrialSplitsLabelsAbove(c: Collaborators, cfg: TrialConfig, loaded: Data, pos: nat)
    requires loaded.Aligned() && !IsFixedSplit(cfg.dataset)
    requires forall i :: 0 <= i < |loaded.labels| ==> loaded.labels[i] >= 0
    ensures var d, p := PrepareTrial(c, cfg, DataBefore(cfg, loaded, pos), pos).data,
                        Positions(AtLeast(loaded.labels, pos + 1));
      && (forall i :: 0 <= i < |loaded.labels| ==> (loaded.labels[i] > pos <==> i in p))
      && (forall k, l :: 0 <= k < l < |p| ==> p[k] < p[l])
      && |d.labels| == |p|
      && (forall k :: 0 <= k < |p| ==> d.pixels.rows[k] == loaded.pixels.rows[p[k]])
      && (forall k :: 0 <= k < |p| ==> d.labels[k] == loaded.labels[p[k]] - (pos + 1))
  {
    PrepareAdvances(c, cfg, loaded, pos);
    RepeatedFilter(loaded, pos + 1);
  }

  // ------------------------------------------------------------- arg-max

  /** `k` is the first index of a largest entry of `row`. */
  predicate IsFirstMax(row: seq<real>, k: nat)
  {
    k < |row|
    && (forall j :: 0 <= j < |row| ==> row[j] <= row[k])
    && (forall j :: 0 <= j < k ==> row[j] < row[k])
  }

  /** `np.argmax` of one score row. */
  function ArgMax(row: seq<real>): (k: nat)
    requires |row| > 0
    ensures IsFirstMax(row, k)
  {
    if |row| == 1 then 0
    else
      var k' := ArgMax(row[..|row| - 1]);
      if row[|row| - 1] > row[k'] then |row| - 1 else k'
  }

  /** A row has only one first maximal index, so ArgMax is fully determined by its contract. */
  lemma FirstMaxUnique(row: seq<real>, k: nat, k': nat)
    requires IsFirstMax(row, k) && IsFirstMax(row, k')
    ensures k == k'
  {
    // Both entries are maximal, so neither index can precede the other.
    assert row[k] <= row[k'] && row[k'] <= row[k];
  }

  /** `np.argmax(scores, axis=1)`: one predicted class per score row. */
  function Predictions(scores: seq<seq<real>>): (labels: seq<nat>)
    requires forall i :: 0 <= i < |scores| ==> |scores[i]| > 0
    ensures |labels| == |scores|
    ensures forall i :: 0 <= i < |scores| ==> IsFirstMax(scores[i], labels[i])
  {
    seq(|scores|, i requires 0 <= i < |scores| => ArgMax(scores[i]))
  }

  /** Score rows of width `numClass` predict classes in `[0, numClass)`. */
  lemma PredictionsInRange(scores: seq<seq<real>>, numClass: nat)
    requires numClass > 0
    requires forall i :: 0 <= i < |scores| ==> |scores[i]| == numClass
    ensures forall i :: 0 <= i < |scores| ==> Predictions(scores)[i] < numClass
  {
  }

  // ------------------------------------------------------- results matrix

  /** `np.ones((repeat, width)) * -1000.0`. */
  method NewStats(repeat: nat, width: nat) returns (stats: array2<real>)
    ensures fresh(stats)
    ensures stats.Length0 == repeat && stats.Length1 == width
    ensures forall i, j :: 0 <= i < repeat && 0 <= j < width ==> stats[i, j] == Sentinel
  {
    stats := new real[repeat, width]((i, j) => Sentinel);
  }

  /** `stats[pos, :] = row`: row `pos` becomes `row` and every other row is untouched. */
  method WriteRow(stats: array2<real>, pos: nat, row: seq<real>)
    requires pos < stats.Length0 && |row| == stats.Length1
    modifies stats
    ensures forall j :: 0 <= j < stats.Length1 ==> stats[pos, j] == row[j]
    ensures forall i, j :: 0 <= i < stats.Length0 && i != pos && 0 <= j < stats.Length1 ==>
      stats[i, j] == old(stats[i, j])
  {
    forall j | 0 <= j < |row| {
      stats[pos, j] := row[j];
    }
  }
}
