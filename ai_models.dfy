/*
 * The hand-written linear regression of `ai_models.py`: training samples are
 * sliding windows over each player's match history, summarised into ten
 * per-field means; the model is fitted by full-batch gradient descent on
 * z-score normalised features with L2 on the weights only; predictions are
 * clamped at zero and ranked by a stable descending sort.
 */
module AiModels {
  import opened Collections
  import opened Sorting
  import opened Numeric
  import Text

  const DefaultHistoryWindow: nat := 5

  /** The history fields summarised into the feature vector, in feature order. */
  const FeatureFields: seq<string> := [
    "minutes", "total_points", "goals_scored", "assists", "clean_sheets",
    "bonus", "influence", "creativity", "threat", "ict_index"
  ]

  // ---------------------------------------------------------------------------
  // History entries and their coercion to numbers
  // ---------------------------------------------------------------------------

  /**
   * A value stored in an element-summary history entry, as far as `float()`
   * and truthiness see it: None, a number, a text, or anything else (which
   * `float()` rejects; `truthy` says whether `x or 0` keeps it).
   */
  datatype Raw = Null | Num(v: real) | Str(s: string) | Other(truthy: bool)

  /** One entry of a player's match history. */
  type Match = map<string, Raw>

  /** One element of the training or prediction input: a player and its history. */
  datatype PlayerHistory = PlayerHistory(player: nat, history: seq<Match>)

  /** `match.get(field, 0)`. */
  function Field(m: Match, f: string): Raw {
    if f in m then m[f] else Num(0.0)
  }

  /** `float(s)` on a text: surrounding whitespace is ignored. */
  function FloatOfText(s: string): Option<real> {
    Text.ParseFloat(Text.Strip(s))
  }

  /**
   * The feature coercion: None and '' become 0, then `float(raw)`, with 0.0
   * for a value `float` rejects.
   */
  function Coerce(r: Raw): real {
    match r
    case Null => 0.0
    case Num(v) => v
    case Str(s) => if s == "" then 0.0 else (match FloatOfText(s) case Some(v) => v case None => 0.0)
    case Other(_) => 0.0
  }

  /** The running points total's coercion: `float(raw or 0)`, 0.0 when that raises. */
  function PointsValue(r: Raw): (x: real)
    ensures x == Coerce(r)
  {
    match r
    case Null => 0.0
    case Num(v) => if v == 0.0 then 0.0 else v
    case Str(s) => if s == "" then 0.0 else (match FloatOfText(s) case Some(v) => v case None => 0.0)
    case Other(truthy) => 0.0
  }

  /**
   * The training target `float(next_match.get('total_points', 0) or 0)`. No
   * handler surrounds it: a truthy value `float` rejects raises.
   */
  function Target(m: Match): (r: Result<real>)
    ensures r.Success? ==> r.value == Coerce(Field(m, "total_points"))
    ensures Field(m, "total_points").Num? ==> r.Success?
    ensures r.Failure? <==> match Field(m, "total_points")
      case Str(s) => s != "" && FloatOfText(s).None?
      case Other(truthy) => truthy
      case _ => false
  {
    match Field(m, "total_points")
    case Null => Success(0.0)
    case Num(v) => Success(v)
    case Str(s) =>
      if s == "" then Success(0.0)
      else (match FloatOfText(s)
            case Some(v) => Success(v)
            case None => Failure("could not convert string to float"))
    case Other(truthy) =>
      if truthy then Failure("float() argument must be a string or a real number") else Success(0.0)
  }

  // ---------------------------------------------------------------------------
  // Window summaries
  // ---------------------------------------------------------------------------

  /** The coerced values of one field over a window, in match order. */
  function FieldColumn(ms: seq<Match>, f: string): (col: seq<real>)
    ensures |col| == |ms|
    ensures forall i :: 0 <= i < |ms| ==> col[i] == Coerce(Field(ms[i], f))
  {
    if ms == [] then [] else FieldColumn(ms[..|ms| - 1], f) + [Coerce(Field(ms[|ms| - 1], f))]
  }

  /** `sum(values) / len(values)`, or 0.0 for no values. */
  function Mean(xs: seq<real>): real {
    if xs == [] then 0.0 else Sum(xs) / |xs| as real
  }

  /** Feature `k` of a window: the mean of its field, minutes divided by 90. */
  function Feature(ms: seq<Match>, k: nat): real
    requires k < |FeatureFields|
  {
    if k == 0 then Mean(FieldColumn(ms, FeatureFields[0])) / 90.0
    else Mean(FieldColumn(ms, FeatureFields[k]))
  }

  /** The ten features of a window, in field order. */
  function Summary(ms: seq<Match>): (r: seq<real>)
    ensures |r| == |FeatureFields|
  {
    seq(|FeatureFields|, k requires 0 <= k < |FeatureFields| => Feature(ms, k))
  }

  /** The coerced values of one field, collected by the inner loop of `_summarise_window`. */
  method CollectColumn(matches: seq<Match>, f: string) returns (values: seq<real>)
    ensures values == FieldColumn(matches, f)
  {
    values := [];
    for i := 0 to |matches|
      invariant values == FieldColumn(matches[..i], f)
    {
      assert matches[..i + 1][..i] == matches[..i];
      values := values + [Coerce(Field(matches[i], f))];
    }
    assert matches[..|matches|] == matches;
  }

  /** The running total of the points field. */
  method TotalPoints(matches: seq<Match>) returns (total: real)
    ensures total == Sum(FieldColumn(matches, "total_points"))
  {
    total := 0.0;
    for i := 0 to |matches|
      invariant total == Sum(FieldColumn(matches[..i], "total_points"))
    {
      assert matches[..i + 1][..i] == matches[..i];
      total := total + PointsValue(Field(matches[i], "total_points"));
    }
    assert matches[..|matches|] == matches;
  }

  /** The average points of a window, from the running points total. */
  function AvgPoints(ms: seq<Match>): real {
    Mean(FieldColumn(ms, "total_points"))
  }

  /** The average points equal the points feature: same coercion, same divisor. */
  lemma {:induction false} AvgPointsIsFeature(ms: seq<Match>)
    ensures AvgPoints(ms) == Summary(ms)[1]
  {
    assert FeatureFields[1] == "total_points";
  }

  /** `_summarise_window`: the ten features and the average points of a window. */
  method SummariseWindow(matches: seq<Match>) returns (features: seq<real>, avgPoints: real)
    ensures features == Summary(matches)
    ensures avgPoints == AvgPoints(matches)
  {
    var aggregated: seq<real> := [];
    for k := 0 to |FeatureFields|
      invariant |aggregated| == k
      invariant forall i :: 0 <= i < k ==> aggregated[i] == Mean(FieldColumn(matches, FeatureFields[i]))
    {
      var values := CollectColumn(matches, FeatureFields[k]);
      if values == [] {
        aggregated := aggregated + [0.0];
      } else {
        aggregated := aggregated + [Sum(values) / |values| as real];
      }
    }
    var totalPoints := TotalPoints(matches);
    avgPoints := if |matches| > 0 then totalPoints / |matches| as real else 0.0;
    aggregated := aggregated[0 := aggregated[0] / 90.0];
    features := aggregated;
    assert forall k :: 0 <= k < |FeatureFields| ==> features[k] == Feature(matches, k);
  }

  /** An empty window summarises to ten zeros. */
  lemma {:induction false} SummaryEmpty()
    ensures forall k :: 0 <= k < |FeatureFields| ==> Summary([])[k] == 0.0
  {
  }

  lemma {:induction false} DivideBounds(s: real, n: real, lo: real, hi: real)
    requires n > 0.0 && n * lo <= s <= n * hi
    ensures lo <= s / n <= hi
  {
    assert s / n * n == s;
  }

  /** A mean lies between the bounds of its values. */
  lemma {:induction false} MeanBounds(xs: seq<real>, lo: real, hi: real)
    requires xs != [] && forall i :: 0 <= i < |xs| ==> lo <= xs[i] <= hi
    ensures lo <= Mean(xs) <= hi
  {
    var n, s := |xs| as real, Sum(xs);
    SumBounds(xs, lo, hi);
    DivideBounds(s, n, lo, hi);
  }

  /**
   * Every feature other than minutes lies between the smallest and the
   * largest coerced value of its field in the window.
   */
  lemma {:induction false} SummaryBetween(ms: seq<Match>, k: nat, lo: real, hi: real)
    requires 1 <= k < |FeatureFields| && ms != []
    requires forall i :: 0 <= i < |ms| ==> lo <= Coerce(Field(ms[i], FeatureFields[k])) <= hi
    ensures lo <= Summary(ms)[k] <= hi
  {
    var col := FieldColumn(ms, FeatureFields[k]);
    assert Summary(ms)[k] == Mean(col);
    MeanBounds(col, lo, hi);
  }

  // ---------------------------------------------------------------------------
  // Training samples
  // ---------------------------------------------------------------------------

  /**
   * The windows of one history: for every index `idx` from `w` on, the `w`
   * matches before it and the match at it.
   */
  function Windows(h: seq<Match>, w: nat): (r: seq<(seq<Match>, Match)>)
    ensures |r| == WindowCount(h, w)
  {
    if |h| <= w then []
    else seq(|h| - w, i requires 0 <= i < |h| - w => (h[i..i + w], h[i + w]))
  }

  /** The number of windows one history contributes. */
  function WindowCount(h: seq<Match>, w: nat): nat {
    if |h| <= w then 0 else |h| - w
  }

  function TotalWindows(hs: seq<PlayerHistory>, w: nat): nat {
    if hs == [] then 0 else TotalWindows(hs[..|hs| - 1], w) + WindowCount(hs[|hs| - 1].history, w)
  }

  /** The windows of every player, player by player. */
  function AllWindows(hs: seq<PlayerHistory>, w: nat): (r: seq<(seq<Match>, Match)>)
    ensures |r| == TotalWindows(hs, w)
  {
    if hs == [] then [] else AllWindows(hs[..|hs| - 1], w) + Windows(hs[|hs| - 1].history, w)
  }

  datatype Samples = Samples(rows: seq<seq<real>>, targets: seq<real>)

  /** The rows and targets built from the windows `ws`, one pair per window. */
  predicate SamplesOf(s: Samples, ws: seq<(seq<Match>, Match)>) {
    && |s.rows| == |ws| && |s.targets| == |ws|
    && forall k :: 0 <= k < |ws| ==> s.rows[k] == Summary(ws[k].0) && Target(ws[k].1) == Success(s.targets[k])
  }

  /** Every window's target converts, checked window by window as the loop does. */
  predicate Convertible(ws: seq<(seq<Match>, Match)>) {
    ws == [] || (Convertible(ws[..|ws| - 1]) && Target(ws[|ws| - 1].1).Success?)
  }

  lemma {:induction false} ConvertibleConcat(a: seq<(seq<Match>, Match)>, b: seq<(seq<Match>, Match)>)
    ensures Convertible(a + b) <==> Convertible(a) && Convertible(b)
    decreases |b|
  {
    if b == [] {
      assert a + b == a;
    } else {
      assert (a + b)[..|a + b| - 1] == a + b[..|b| - 1];
      ConvertibleConcat(a, b[..|b| - 1]);
    }
  }

  /** The loop's check agrees with "every target converts". */
  lemma {:induction false} ConvertibleEvery(ws: seq<(seq<Match>, Match)>)
    ensures Convertible(ws) <==> forall k :: 0 <= k < |ws| ==> Target(ws[k].1).Success?
  {
    if ws != [] {
      ConvertibleEvery(ws[..|ws| - 1]);
    }
  }

  lemma {:induction false} SamplesOfAppend(s: Samples, ws: seq<(seq<Match>, Match)>, x: (seq<Match>, Match), f: seq<real>, t: real)
    requires SamplesOf(s, ws)
    requires f == Summary(x.0) && Target(x.1) == Success(t)
    ensures SamplesOf(Samples(s.rows + [f], s.targets + [t]), ws + [x])
  {
  }

  lemma {:induction false} AllWindowsAppend(hs: seq<PlayerHistory>, p: nat, w: nat)
    requires p < |hs|
    ensures AllWindows(hs[..p + 1], w) == AllWindows(hs[..p], w) + Windows(hs[p].history, w)
  {
    assert hs[..p + 1][..p] == hs[..p];
  }

  lemma {:induction false} AllWindowsConcat(a: seq<PlayerHistory>, b: seq<PlayerHistory>, w: nat)
    ensures AllWindows(a + b, w) == AllWindows(a, w) + AllWindows(b, w)
    decreases |b|
  {
    if b == [] {
      assert a + b == a;
    } else {
      var init := b[..|b| - 1];
      var last := Windows(b[|b| - 1].history, w);
      assert AllWindows(a + b, w) == AllWindows(a + init, w) + last by {
        assert (a + b)[..|a + b| - 1] == a + init && (a + b)[|a + b| - 1] == b[|b| - 1];
      }
      AllWindowsConcat(a, init, w);
      var front, middle := AllWindows(a, w), AllWindows(init, w);
      assert AllWindows(b, w) == middle + last;
      assert front + middle + last == front + (middle + last);
    }
  }

  /** The samples of one more player extend those of the players before it. */
  lemma {:induction false} SamplesOfNextPlayer(s: Samples, t: Samples, hs: seq<PlayerHistory>, p: nat, w: nat)
    requires p < |hs|
    requires SamplesOf(s, AllWindows(hs[..p], w)) && SamplesOf(t, Windows(hs[p].history, w))
    ensures SamplesOf(Samples(s.rows + t.rows, s.targets + t.targets), AllWindows(hs[..p + 1], w))
  {
    AllWindowsAppend(hs, p, w);
  }

  /** A player whose windows do not all convert makes the whole input fail. */
  lemma {:induction false} FailingPlayer(hs: seq<PlayerHistory>, p: nat, w: nat)
    requires p < |hs| && !Convertible(Windows(hs[p].history, w))
    ensures !Convertible(AllWindows(hs, w))
  {
    assert hs == hs[..p + 1] + hs[p + 1..];
    AllWindowsConcat(hs[..p + 1], hs[p + 1..], w);
    AllWindowsAppend(hs, p, w);
    ConvertibleConcat(AllWindows(hs[..p + 1], w), AllWindows(hs[p + 1..], w));
    ConvertibleConcat(AllWindows(hs[..p], w), Windows(hs[p].history, w));
  }

  /** One window whose target raises makes the whole list fail. */
  lemma {:induction false} ConvertibleFails(ws: seq<(seq<Match>, Match)>, k: nat)
    requires k < |ws| && Target(ws[k].1).Failure?
    ensures !Convertible(ws)
  {
    ConvertibleEvery(ws);
  }

  /** One more window of the same history extends the samples by one row and one target. */
  lemma {:induction false} SamplesStep(s: Samples, h: seq<Match>, w: nat, idx: nat, f: seq<real>, t: real)
    requires w <= idx < |h|
    requires SamplesOf(s, Windows(h, w)[..idx - w])
    requires f == Summary(h[idx - w..idx]) && Target(h[idx]) == Success(t)
    ensures SamplesOf(Samples(s.rows + [f], s.targets + [t]), Windows(h, w)[..idx + 1 - w])
  {
    var ws := Windows(h, w);
    assert ws[..idx + 1 - w] == ws[..idx - w] + [(h[idx - w..idx], h[idx])];
    SamplesOfAppend(s, ws[..idx - w], (h[idx - w..idx], h[idx]), f, t);
  }

  /** The inner loop of `_build_training_samples`: the samples of one history. */
  method PlayerSamples(history: seq<Match>, w: nat) returns (r: Result<Samples>)
    ensures r.Success? <==> Convertible(Windows(history, w))
    ensures r.Success? ==> SamplesOf(r.value, Windows(history, w))
  {
    var rows: seq<seq<real>> := [];
    var targets: seq<real> := [];
    if |history| > w {
      for idx := w to |history|
        invariant SamplesOf(Samples(rows, targets), Windows(history, w)[..idx - w])
      {
        var window := history[idx - w..idx];
        var next := history[idx];
        var features, _ := SummariseWindow(window);
        var target := Target(next);
        if target.Failure? {
          ConvertibleFails(Windows(history, w), idx - w);
          return Failure(target.error);
        }
        SamplesStep(Samples(rows, targets), history, w, idx, features, target.value);
        rows := rows + [features];
        targets := targets + [target.value];
      }
      assert Windows(history, w)[..|history| - w] == Windows(history, w);
    }
    ConvertibleEvery(Windows(history, w));
    r := Success(Samples(rows, targets));
  }

  /**
   * `_build_training_samples`: one feature row and one target per window,
   * in player order; raises as soon as a target does not convert.
   */
  method BuildTrainingSamples(histories: seq<PlayerHistory>, w: nat) returns (r: Result<Samples>)
    ensures r.Success? <==> Convertible(AllWindows(histories, w))
    ensures r.Success? ==> SamplesOf(r.value, AllWindows(histories, w))
  {
    var rows: seq<seq<real>> := [];
    var targets: seq<real> := [];
    for p := 0 to |histories|
      invariant SamplesOf(Samples(rows, targets), AllWindows(histories[..p], w))
    {
      var player := PlayerSamples(histories[p].history, w);
      if player.Failure? {
        FailingPlayer(histories, p, w);
        return Failure(player.error);
      }
      SamplesOfNextPlayer(Samples(rows, targets), player.value, histories, p, w);
      rows := rows + player.value.rows;
      targets := targets + player.value.targets;
    }
    assert histories[..|histories|] == histories;
    ConvertibleEvery(AllWindows(histories, w));
    r := Success(Samples(rows, targets));
  }

  /** The rows that a list of windows yields, one summary per window. */
  function SampleRows(ws: seq<(seq<Match>, Match)>): (rows: seq<seq<real>>)
    ensures |rows| == |ws|
    ensures forall k :: 0 <= k < |rows| ==> |rows[k]| == |FeatureFields|
  {
    seq(|ws|, k requires 0 <= k < |ws| => Summary(ws[k].0))
  }

  /** The targets that a list of convertible windows yields. */
  function SampleTargets(ws: seq<(seq<Match>, Match)>): (targets: seq<real>)
    requires forall k :: 0 <= k < |ws| ==> Target(ws[k].1).Success?
    ensures |targets| == |ws|
  {
    seq(|ws|, k requires 0 <= k < |ws| => Target(ws[k].1).value)
  }

  /** The samples of a list of windows are determined by the windows. */
  lemma {:induction false} SamplesOfUnique(s: Samples, ws: seq<(seq<Match>, Match)>)
    requires SamplesOf(s, ws)
    ensures forall k :: 0 <= k < |ws| ==> Target(ws[k].1).Success?
    ensures s == Samples(SampleRows(ws), SampleTargets(ws))
  {
  }

  // ---------------------------------------------------------------------------
  // Normalisation and the linear output
  // ---------------------------------------------------------------------------

  function Min3(a: nat, b: nat, c: nat): nat {
    if a <= b && a <= c then a else if b <= c then b else c
  }

  /** The z-score of one value; 0.0 when the deviation is zero. */
  function ZScore(x: real, mean: real, std: real): real {
    if std == 0.0 then 0.0 else (x - mean) / std
  }

  /** The z-scores of the zipped positions of a vector, its means and its deviations. */
  function Normalised(xs: seq<real>, means: seq<real>, stds: seq<real>): (v: seq<real>)
    ensures |v| == Min3(|xs|, |means|, |stds|)
  {
    seq(Min3(|xs|, |means|, |stds|), i requires 0 <= i < Min3(|xs|, |means|, |stds|) => ZScore(xs[i], means[i], stds[i]))
  }

  /** `_normalise`. */
  method Normalise(features: seq<real>, means: seq<real>, stds: seq<real>) returns (vector: seq<real>)
    ensures vector == Normalised(features, means, stds)
  {
    vector := [];
    var n := Min3(|features|, |means|, |stds|);
    for i := 0 to n
      invariant vector == Normalised(features, means, stds)[..i]
    {
      if stds[i] == 0.0 {
        vector := vector + [0.0];
      } else {
        vector := vector + [(features[i] - means[i]) / stds[i]];
      }
    }
  }

  /** Where the deviation is non-zero, the z-score gives the value back. */
  lemma {:induction false} NormalisedInverse(xs: seq<real>, means: seq<real>, stds: seq<real>, i: nat)
    requires i < Min3(|xs|, |means|, |stds|) && stds[i] != 0.0
    ensures Normalised(xs, means, stds)[i] * stds[i] + means[i] == xs[i]
  {
  }

  /** A vector equal to the means normalises to zeros. */
  lemma {:induction false} NormalisedAtMean(means: seq<real>, stds: seq<real>)
    ensures forall i :: 0 <= i < |Normalised(means, means, stds)| ==> Normalised(means, means, stds)[i] == 0.0
  {
  }

  /** `sum(w * x for w, x in zip(ws, xs))`, accumulated from the left. */
  function Dot(ws: seq<real>, xs: seq<real>): real
    decreases |ws|
  {
    var n := if |ws| < |xs| then |ws| else |xs|;
    if n == 0 then 0.0 else Dot(ws[..n - 1], xs[..n - 1]) + ws[n - 1] * xs[n - 1]
  }

  /** Against a zero vector every weighting sums to zero. */
  lemma {:induction false} DotZero(ws: seq<real>, xs: seq<real>)
    requires forall i :: 0 <= i < |xs| ==> xs[i] == 0.0
    ensures Dot(ws, xs) == 0.0
    decreases |ws|
  {
    var n := if |ws| < |xs| then |ws| else |xs|;
    if n > 0 {
      DotZero(ws[..n - 1], xs[..n - 1]);
    }
  }

  /** The loop `prediction = bias; prediction += weight * value` over the zipped pairs. */
  method LinearOutput(bias: real, weights: seq<real>, row: seq<real>) returns (prediction: real)
    ensures prediction == bias + Dot(weights, row)
  {
    var n := if |weights| < |row| then |weights| else |row|;
    prediction := bias;
    for i := 0 to n
      invariant prediction == bias + Dot(weights[..i], row[..i])
    {
      assert weights[..i + 1][..i] == weights[..i] && row[..i + 1][..i] == row[..i];
      prediction := prediction + weights[i] * row[i];
    }
    if n > 0 {
      assert weights[..n][..n - 1] == weights[..n - 1] && row[..n][..n - 1] == row[..n - 1];
    }
  }

  // ---------------------------------------------------------------------------
  // The model and its dictionary form
  // ---------------------------------------------------------------------------

  /** The dictionary `to_dict` writes; `name` and `samples` may be missing when read back. */
  datatype ModelDict = ModelDict(
    weights: seq<real>, bias: real, featureMeans: seq<real>, featureStds: seq<real>,
    name: Option<string>, samples: Option<int>)

  datatype RegressionModel = RegressionModel(
    weights: seq<real>, bias: real, featureMeans: seq<real>, featureStds: seq<real>,
    name: string, samples: int)
  {
    /** The bias plus the weighted normalised features. */
    function Output(features: seq<real>): real {
      bias + Dot(weights, Normalised(features, featureMeans, featureStds))
    }

    /** `predict`. */
    method Predict(features: seq<real>) returns (prediction: real)
      ensures prediction == Output(features)
    {
      var vector := Normalise(features, featureMeans, featureStds);
      prediction := LinearOutput(bias, weights, vector);
    }

    /** `to_dict`: every field, under its own key. */
    function ToDict(): (d: ModelDict)
      ensures FromDict(d) == this
    {
      ModelDict(weights, bias, featureMeans, featureStds, Some(name), Some(samples))
    }
  }

  /** The model `predict_upcoming_points` rebuilds from a dictionary, with the defaults of `.get`. */
  function FromDict(d: ModelDict): RegressionModel {
    RegressionModel(
      d.weights, d.bias, d.featureMeans, d.featureStds,
      if d.name.Some? then d.name.value else "LinearRegressor",
      if d.samples.Some? then d.samples.value else 0)
  }

  /** A player exactly at the training means is predicted the bias. */
  lemma {:induction false} OutputAtMean(model: RegressionModel)
    ensures model.Output(model.featureMeans) == model.bias
  {
    NormalisedAtMean(model.featureMeans, model.featureStds);
    DotZero(model.weights, Normalised(model.featureMeans, model.featureMeans, model.featureStds));
  }

  // ---------------------------------------------------------------------------
  // Gradient descent
  // ---------------------------------------------------------------------------

  /** Column `j` of the training rows. */
  function Column(rows: seq<seq<real>>, j: nat): (col: seq<real>)
    requires forall i :: 0 <= i < |rows| ==> j < |rows[i]|
    ensures |col| == |rows|
  {
    seq(|rows|, i requires 0 <= i < |rows| => rows[i][j])
  }

  function SquaredDeviations(col: seq<real>, mean: real): (d: seq<real>)
    ensures |d| == |col|
  {
    seq(|col|, i requires 0 <= i < |col| => (col[i] - mean) * (col[i] - mean))
  }

  /** Every row is at least as wide as the first, so every column of the first row exists. */
  predicate WideEnough(rows: seq<seq<real>>) {
    |rows| > 0 && forall i :: 0 <= i < |rows| ==> |rows[i]| >= |rows[0]|
  }

  function ColumnMean(rows: seq<seq<real>>, j: nat): real
    requires WideEnough(rows) && j < |rows[0]|
  {
    Sum(Column(rows, j)) / |rows| as real
  }

  /** The sample variance, dividing by `max(n - 1, 1)`. */
  function ColumnVariance(rows: seq<seq<real>>, j: nat): real
    requires WideEnough(rows) && j < |rows[0]|
  {
    var divisor := if |rows| - 1 > 1 then |rows| - 1 else 1;
    Sum(SquaredDeviations(Column(rows, j), ColumnMean(rows, j))) / divisor as real
  }

  /** The deviation used for column `j`: the square root of a positive variance, else 1.0. */
  function ColumnStd(m: LawfulMath, rows: seq<seq<real>>, j: nat): (s: real)
    requires WideEnough(rows) && j < |rows[0]|
    ensures s > 0.0
  {
    var variance := ColumnVariance(rows, j);
    if variance > 0.0 then m.sqrt(variance) else 1.0
  }

  /** A feature with the same value in every row has that value as mean and deviation 1.0. */
  lemma {:induction false} ConstantColumn(m: LawfulMath, rows: seq<seq<real>>, j: nat, c: real)
    requires WideEnough(rows) && j < |rows[0]|
    requires forall i :: 0 <= i < |rows| ==> rows[i][j] == c
    ensures ColumnMean(rows, j) == c
    ensures ColumnStd(m, rows, j) == 1.0
  {
    var col := Column(rows, j);
    assert forall i :: 0 <= i < |col| ==> col[i] == c;
    SumBounds(col, c, c);
    MeanOfConstant(Sum(col), |rows| as real, c);
    assert ColumnMean(rows, j) == c;
    var devs := SquaredDeviations(col, c);
    assert forall i :: 0 <= i < |devs| ==> devs[i] == 0.0;
    SumBounds(devs, 0.0, 0.0);
    assert ColumnVariance(rows, j) == 0.0;
  }

  lemma {:induction false} MeanOfConstant(total: real, n: real, c: real)
    requires n > 0.0 && n * c <= total <= n * c
    ensures total / n == c
  {
    assert total == n * c;
  }

  function ColumnMeans(rows: seq<seq<real>>): (means: seq<real>)
    requires WideEnough(rows)
    ensures |means| == |rows[0]|
  {
    seq(|rows[0]|, j requires 0 <= j < |rows[0]| => ColumnMean(rows, j))
  }

  function ColumnStds(m: LawfulMath, rows: seq<seq<real>>): (stds: seq<real>)
    requires WideEnough(rows)
    ensures |stds| == |rows[0]|
    ensures forall j :: 0 <= j < |stds| ==> stds[j] > 0.0
  {
    seq(|rows[0]|, j requires 0 <= j < |rows[0]| => ColumnStd(m, rows, j))
  }

  /** The column loop of `_gradient_descent_fit`: per-feature means and deviations. */
  method ColumnStatistics(m: LawfulMath, features: seq<seq<real>>) returns (means: seq<real>, stds: seq<real>)
    requires WideEnough(features)
    ensures means == ColumnMeans(features) && stds == ColumnStds(m, features)
  {
    var nSamples := |features|;
    var nFeatures := |features[0]|;
    means := seq(nFeatures, _ => 0.0);
    stds := seq(nFeatures, _ => 0.0);
    for j := 0 to nFeatures
      invariant |means| == nFeatures && |stds| == nFeatures
      invariant forall i :: 0 <= i < j ==> means[i] == ColumnMean(features, i) && stds[i] == ColumnStd(m, features, i)
    {
      var column := Column(features, j);
      var meanJ := Sum(column) / nSamples as real;
      means := means[j := meanJ];
      var divisor := if nSamples - 1 > 1 then nSamples - 1 else 1;
      var variance := Sum(SquaredDeviations(column, meanJ)) / divisor as real;
      stds := stds[j := if variance > 0.0 then m.sqrt(variance) else 1.0];
    }
  }

  /** Every row normalised with the same means and deviations. */
  function NormalisedRows(rows: seq<seq<real>>, means: seq<real>, stds: seq<real>): (r: seq<seq<real>>)
    ensures |r| == |rows|
  {
    seq(|rows|, i requires 0 <= i < |rows| => Normalised(rows[i], means, stds))
  }

  /** `[_normalise(row, means, stds) for row in features]`. */
  method NormaliseRows(rows: seq<seq<real>>, means: seq<real>, stds: seq<real>) returns (r: seq<seq<real>>)
    ensures r == NormalisedRows(rows, means, stds)
  {
    r := [];
    for i := 0 to |rows|
      invariant r == NormalisedRows(rows, means, stds)[..i]
    {
      var v := Normalise(rows[i], means, stds);
      r := r + [v];
    }
  }

  /** `zip(normalised, targets)`. */
  function Zip(rows: seq<seq<real>>, targets: seq<real>): (z: seq<(seq<real>, real)>)
    ensures |z| == if |rows| < |targets| then |rows| else |targets|
  {
    var n := if |rows| < |targets| then |rows| else |targets|;
    seq(n, i requires 0 <= i < n => (rows[i], targets[i]))
  }

  /** The weights and the bias gradient descent moves. */
  datatype Params = Params(weights: seq<real>, bias: real)

  /** The error of one sample: prediction minus target. */
  function Error(p: Params, sample: (seq<real>, real)): real {
    p.bias + Dot(p.weights, sample.0) - sample.1
  }

  /** Every sample row has one value per weight. */
  predicate Shaped(samples: seq<(seq<real>, real)>, width: nat) {
    forall k :: 0 <= k < |samples| ==> |samples[k].0| == width
  }

  /** `grad_b`: the errors summed over the samples. */
  function GradB(samples: seq<(seq<real>, real)>, p: Params): real {
    if samples == [] then 0.0
    else GradB(samples[..|samples| - 1], p) + Error(p, samples[|samples| - 1])
  }

  /** `grad_w`, accumulated sample by sample: each adds `error * value + l2 * weight`. */
  function GradW(samples: seq<(seq<real>, real)>, p: Params, l2: real): (g: seq<real>)
    requires Shaped(samples, |p.weights|)
    ensures |g| == |p.weights|
  {
    if samples == [] then seq(|p.weights|, _ => 0.0)
    else
      Accumulate(GradW(samples[..|samples| - 1], p, l2), Error(p, samples[|samples| - 1]),
                 samples[|samples| - 1].0, p.weights, l2)
  }

  /** One sample's contribution: `grad_w[j] += error * value + l2 * weights[j]` for every `j`. */
  function Accumulate(gradW: seq<real>, error: real, row: seq<real>, weights: seq<real>, l2: real): (g: seq<real>)
    requires |row| == |gradW| == |weights|
    ensures |g| == |gradW|
  {
    seq(|gradW|, j requires 0 <= j < |gradW| => gradW[j] + (error * row[j] + l2 * weights[j]))
  }

  /** `sum(error * x[j])` over the samples. */
  function ErrorMoment(samples: seq<(seq<real>, real)>, p: Params, j: nat): real
    requires Shaped(samples, |p.weights|) && j < |p.weights|
  {
    if samples == [] then 0.0
    else ErrorMoment(samples[..|samples| - 1], p, j) + Error(p, samples[|samples| - 1]) * samples[|samples| - 1].0[j]
  }

  /** One epoch: both updates use the gradients of the weights before the epoch. */
  function Epoch(samples: seq<(seq<real>, real)>, p: Params, rate: real, l2: real, n: real): (q: Params)
    requires Shaped(samples, |p.weights|) && n > 0.0
    ensures |q.weights| == |p.weights|
  {
    Params(Descend(p.weights, GradW(samples, p, l2), rate, n), Step(p.bias, GradB(samples, p), rate, n))
  }

  /** One gradient step on one parameter: `x -= rate * g / n`. */
  function Step(x: real, g: real, rate: real, n: real): real
    requires n > 0.0
  {
    x - rate * g / n
  }

  /** Every weight moved against its gradient: `weights[j] -= rate * grad_w[j] / n`. */
  function Descend(weights: seq<real>, gradW: seq<real>, rate: real, n: real): (r: seq<real>)
    requires |gradW| == |weights| && n > 0.0
    ensures |r| == |weights|
  {
    seq(|weights|, j requires 0 <= j < |weights| => Step(weights[j], gradW[j], rate, n))
  }

  /** `epochs` epochs in a row, with no early exit. */
  function Train(samples: seq<(seq<real>, real)>, p: Params, rate: real, l2: real, n: real, epochs: nat): (q: Params)
    requires Shaped(samples, |p.weights|) && n > 0.0
    ensures |q.weights| == |p.weights|
  {
    if epochs == 0 then p else Epoch(samples, Train(samples, p, rate, l2, n, epochs - 1), rate, l2, n)
  }

  /**
   * The L2 term enters the weight gradient once per sample and never the
   * bias: `grad_w[j] = sum(error * x[j]) + m * l2 * w[j]` for `m` samples.
   */
  lemma {:induction false} GradWClosedForm(samples: seq<(seq<real>, real)>, p: Params, l2: real, j: nat)
    requires Shaped(samples, |p.weights|) && j < |p.weights|
    ensures GradW(samples, p, l2)[j] == ErrorMoment(samples, p, j) + |samples| as real * (l2 * p.weights[j])
  {
    if samples != [] {
      var init := samples[..|samples| - 1];
      GradWClosedForm(init, p, l2, j);
      var c := l2 * p.weights[j];
      assert |samples| as real * c == |init| as real * c + c;
    }
  }

  /** The update rule of one epoch, written out. */
  lemma {:induction false} EpochUpdate(samples: seq<(seq<real>, real)>, p: Params, rate: real, l2: real, n: real, j: nat)
    requires Shaped(samples, |p.weights|) && n > 0.0 && j < |p.weights|
    ensures Epoch(samples, p, rate, l2, n).weights[j]
         == Step(p.weights[j], ErrorMoment(samples, p, j) + |samples| as real * (l2 * p.weights[j]), rate, n)
    ensures Epoch(samples, p, rate, l2, n).bias == Step(p.bias, GradB(samples, p), rate, n)
  {
    GradWClosedForm(samples, p, l2, j);
  }

  /** The errors of every sample vanish: the parameters fit the samples exactly. */
  predicate PerfectFit(samples: seq<(seq<real>, real)>, p: Params) {
    forall k :: 0 <= k < |samples| ==> Error(p, samples[k]) == 0.0
  }

  lemma {:induction false} PerfectFitMoment(samples: seq<(seq<real>, real)>, p: Params, j: nat)
    requires Shaped(samples, |p.weights|) && j < |p.weights| && PerfectFit(samples, p)
    ensures ErrorMoment(samples, p, j) == 0.0
  {
    if samples != [] {
      PerfectFitMoment(samples[..|samples| - 1], p, j);
    }
  }

  lemma {:induction false} GradBPerfect(samples: seq<(seq<real>, real)>, p: Params)
    requires PerfectFit(samples, p)
    ensures GradB(samples, p) == 0.0
  {
    if samples != [] {
      GradBPerfect(samples[..|samples| - 1], p);
    }
  }

  /**
   * On a perfect fit only the L2 term moves the parameters: the bias stays
   * and every weight decays by the factor `1 - rate * m * l2 / n`.
   */
  lemma {:induction false} PerfectFitEpoch(samples: seq<(seq<real>, real)>, p: Params, rate: real, l2: real, n: real)
    requires Shaped(samples, |p.weights|) && n > 0.0 && PerfectFit(samples, p)
    ensures Epoch(samples, p, rate, l2, n).bias == p.bias
    ensures forall j :: 0 <= j < |p.weights| ==>
      Epoch(samples, p, rate, l2, n).weights[j] == p.weights[j] * (1.0 - rate * (|samples| as real * l2) / n)
  {
    GradBPerfect(samples, p);
    forall j | 0 <= j < |p.weights|
      ensures Epoch(samples, p, rate, l2, n).weights[j] == p.weights[j] * (1.0 - rate * (|samples| as real * l2) / n)
    {
      PerfectFitWeight(samples, p, rate, l2, n, j);
    }
  }

  lemma {:induction false} PerfectFitWeight(samples: seq<(seq<real>, real)>, p: Params, rate: real, l2: real, n: real, j: nat)
    requires Shaped(samples, |p.weights|) && n > 0.0 && PerfectFit(samples, p) && j < |p.weights|
    ensures Epoch(samples, p, rate, l2, n).weights[j] == p.weights[j] * (1.0 - rate * (|samples| as real * l2) / n)
  {
    PerfectFitMoment(samples, p, j);
    EpochUpdate(samples, p, rate, l2, n, j);
    Decay(p.weights[j], |samples| as real, l2, rate, n);
  }

  lemma {:induction false} Decay(w: real, m: real, l2: real, rate: real, n: real)
    requires n > 0.0
    ensures Step(w, 0.0 + m * (l2 * w), rate, n) == w * (1.0 - rate * (m * l2) / n)
  {
    var c := m * l2;
    assert m * (l2 * w) == c * w;
    assert rate * (c * w) / n == w * (rate * c / n);
  }

  /** The gradient loop's inner update `grad_w[j] += error * value + l2 * weights[j]`. */
  method AccumulateGradient(gradW: seq<real>, error: real, row: seq<real>, weights: seq<real>, l2: real)
    returns (next: seq<real>)
    requires |row| == |gradW| == |weights|
    ensures next == Accumulate(gradW, error, row, weights, l2)
  {
    ghost var target := Accumulate(gradW, error, row, weights, l2);
    next := gradW;
    for j := 0 to |row|
      invariant |next| == |gradW|
      invariant forall i :: 0 <= i < j ==> next[i] == target[i]
      invariant forall i :: j <= i < |gradW| ==> next[i] == gradW[i]
    {
      next := next[j := next[j] + (error * row[j] + l2 * weights[j])];
    }
  }

  /** The sample loop of one epoch: the gradients at the current parameters. */
  method Gradients(samples: seq<(seq<real>, real)>, weights: seq<real>, bias: real, l2: real)
    returns (gradW: seq<real>, gradB: real)
    requires Shaped(samples, |weights|)
    ensures gradW == GradW(samples, Params(weights, bias), l2)
    ensures gradB == GradB(samples, Params(weights, bias))
  {
    var p := Params(weights, bias);
    gradW := seq(|weights|, _ => 0.0);
    gradB := 0.0;
    for k := 0 to |samples|
      invariant gradW == GradW(samples[..k], p, l2)
      invariant gradB == GradB(samples[..k], p)
    {
      assert samples[..k + 1][..k] == samples[..k];
      var row := samples[k].0;
      var prediction := LinearOutput(bias, weights, row);
      var error := prediction - samples[k].1;
      gradB := gradB + error;
      gradW := AccumulateGradient(gradW, error, row, weights, l2);
    }
    assert samples[..|samples|] == samples;
  }

  /** One pass of the epoch loop: gradients first, then the bias and every weight. */
  method EpochStep(samples: seq<(seq<real>, real)>, weights: seq<real>, bias: real, rate: real, l2: real, n: real)
    returns (newWeights: seq<real>, newBias: real)
    requires Shaped(samples, |weights|) && n > 0.0
    ensures Params(newWeights, newBias) == Epoch(samples, Params(weights, bias), rate, l2, n)
  {
    var gradW, gradB := Gradients(samples, weights, bias, l2);
    newBias := bias - rate * gradB / n;
    newWeights := DescendWeights(weights, gradW, rate, n);
  }

  /** The weight loop `for j in range(n_features): weights[j] -= rate * grad_w[j] / n`. */
  method DescendWeights(weights: seq<real>, gradW: seq<real>, rate: real, n: real) returns (newWeights: seq<real>)
    requires |gradW| == |weights| && n > 0.0
    ensures newWeights == Descend(weights, gradW, rate, n)
  {
    ghost var target := Descend(weights, gradW, rate, n);
    newWeights := weights;
    for j := 0 to |weights|
      invariant |newWeights| == |weights|
      invariant forall i :: 0 <= i < j ==> newWeights[i] == target[i]
      invariant forall i :: j <= i < |weights| ==> newWeights[i] == weights[i]
    {
      newWeights := newWeights[j := newWeights[j] - rate * gradW[j] / n];
    }
  }

  const LearningRate: real := 0.05
  const Epochs: nat := 400
  const L2: real := 0.01

  /** The model gradient descent reaches: statistics of the raw rows, then `epochs` epochs from zero. */
  function FittedModel(m: LawfulMath, features: seq<seq<real>>, targets: seq<real>, rate: real, epochs: nat, l2: real)
    : (r: RegressionModel)
    requires WideEnough(features)
    ensures |r.weights| == |r.featureMeans| == |r.featureStds| == |features[0]|
    ensures forall j :: 0 <= j < |r.featureStds| ==> r.featureStds[j] > 0.0
    ensures r.name == "LinearRegressor" && r.samples == |features|
  {
    var means := ColumnMeans(features);
    var stds := ColumnStds(m, features);
    var samples := Zip(NormalisedRows(features, means, stds), targets);
    NormalisedRowsShaped(features, means, stds, targets);
    var p := Train(samples, Params(seq(|features[0]|, _ => 0.0), 0.0), rate, l2, |features| as real, epochs);
    RegressionModel(p.weights, p.bias, means, stds, "LinearRegressor", |features|)
  }

  /** Rows at least as wide as the statistics normalise to exactly their width. */
  lemma {:induction false} NormalisedRowsShaped(features: seq<seq<real>>, means: seq<real>, stds: seq<real>, targets: seq<real>)
    requires WideEnough(features) && |means| == |stds| == |features[0]|
    ensures Shaped(Zip(NormalisedRows(features, means, stds), targets), |features[0]|)
  {
  }

  /** `_gradient_descent_fit`. */
  method GradientDescentFit(m: LawfulMath, features: seq<seq<real>>, targets: seq<real>, rate: real, epochs: nat, l2: real)
    returns (model: RegressionModel)
    requires WideEnough(features)
    ensures model == FittedModel(m, features, targets, rate, epochs, l2)
  {
    var nSamples := |features|;
    var nFeatures := |features[0]|;
    var means, stds := ColumnStatistics(m, features);
    var normalised := NormaliseRows(features, means, stds);
    var samples := Zip(normalised, targets);
    NormalisedRowsShaped(features, means, stds, targets);
    var start := Params(seq(nFeatures, _ => 0.0), 0.0);
    var weights := start.weights;
    var bias := 0.0;
    for e := 0 to epochs
      invariant Params(weights, bias) == Train(samples, start, rate, l2, nSamples as real, e)
    {
      weights, bias := EpochStep(samples, weights, bias, rate, l2, nSamples as real);
    }
    model := RegressionModel(weights, bias, means, stds, "LinearRegressor", nSamples);
  }

  // ---------------------------------------------------------------------------
  // Training and prediction entry points
  // ---------------------------------------------------------------------------

  const NoSamplesMessage: string := "No training samples available for AI model"

  /** The model trained on a non-empty list of convertible windows, with its sample count. */
  function TrainedModel(m: LawfulMath, ws: seq<(seq<Match>, Match)>): (model: RegressionModel)
    requires Convertible(ws) && |ws| > 0
    ensures model.samples == |ws|
    ensures |model.weights| == |FeatureFields|
  {
    ConvertibleEvery(ws);
    var fitted := FittedModel(m, SampleRows(ws), SampleTargets(ws), LearningRate, Epochs, L2);
    fitted.(samples := |ws|)
  }

  /**
   * `train_points_model`: fails when a target does not convert or when no
   * player has a window; otherwise the fitted model's dictionary.
   */
  method TrainPointsModel(m: LawfulMath, histories: seq<PlayerHistory>, w: nat) returns (r: Result<ModelDict>)
    ensures r.Success? <==> Convertible(AllWindows(histories, w)) && TotalWindows(histories, w) > 0
    ensures r.Failure? && Convertible(AllWindows(histories, w)) ==> r.error == NoSamplesMessage
    ensures r.Success? ==> FromDict(r.value) == TrainedModel(m, AllWindows(histories, w))
    ensures r.Success? ==> r.value.samples == Some(TotalWindows(histories, w))
  {
    var built := BuildTrainingSamples(histories, w);
    if built.Failure? {
      return Failure(built.error);
    }
    var samples := built.value;
    if |samples.rows| == 0 {
      return Failure(NoSamplesMessage);
    }
    SamplesOfUnique(samples, AllWindows(histories, w));
    var model := GradientDescentFit(m, samples.rows, samples.targets, LearningRate, Epochs, L2);
    model := model.(samples := |samples.rows|);
    r := Success(model.ToDict());
  }

  /** One entry of the list `predict_upcoming_points` returns. */
  datatype Prediction = Prediction(player: nat, predicted: real, avgPoints: real)

  function PredictedKey(p: Prediction): real {
    p.predicted
  }

  /** `history[-w:]`: the last `w` matches, or all of them when `w` is 0. */
  function Recent(h: seq<Match>, w: nat): (r: seq<Match>)
    requires w <= |h|
    ensures |r| == if w == 0 then |h| else w
    ensures r == h[|h| - |r|..]
  {
    if w == 0 then h else h[|h| - w..]
  }

  /** The prediction for one player with enough history, clamped at zero. */
  function Predicted(model: RegressionModel, e: PlayerHistory, w: nat): (p: Prediction)
    requires w <= |e.history|
    ensures p.player == e.player && p.predicted >= 0.0
    ensures model.Output(Summary(Recent(e.history, w))) >= 0.0 ==> p.predicted == model.Output(Summary(Recent(e.history, w)))
    ensures model.Output(Summary(Recent(e.history, w))) < 0.0 ==> p.predicted == 0.0
    ensures p.avgPoints == AvgPoints(Recent(e.history, w))
  {
    var window := Recent(e.history, w);
    var output := model.Output(Summary(window));
    Prediction(e.player, if output >= 0.0 then output else 0.0, AvgPoints(window))
  }

  /** The predictions in player order, skipping players with fewer than `w` matches. */
  function Unranked(model: RegressionModel, hs: seq<PlayerHistory>, w: nat): (r: seq<Prediction>)
    ensures |r| <= |hs|
    ensures forall i :: 0 <= i < |r| ==> r[i].predicted >= 0.0
    ensures forall e :: e in hs && w <= |e.history| ==> Predicted(model, e, w) in r
  {
    if hs == [] then []
    else
      var init := Unranked(model, hs[..|hs| - 1], w);
      var e := hs[|hs| - 1];
      assert hs == hs[..|hs| - 1] + [e];
      if |e.history| < w then init else init + [Predicted(model, e, w)]
  }

  /** Whether a player has at least `w` matches of history. */
  function HasWindow(w: nat): PlayerHistory -> bool {
    (e: PlayerHistory) => w <= |e.history|
  }

  /**
   * The predictions are exactly those of the players with at least `w`
   * matches, one each, in player order.
   */
  lemma {:induction false} UnrankedFiltered(model: RegressionModel, hs: seq<PlayerHistory>, w: nat)
    ensures var eligible := Filter(hs, HasWindow(w));
      var r := Unranked(model, hs, w);
      && |r| == |eligible|
      && forall i :: 0 <= i < |r| ==>
           eligible[i] in hs && w <= |eligible[i].history| && r[i] == Predicted(model, eligible[i], w)
  {
    if hs != [] {
      var init := hs[..|hs| - 1];
      var e := hs[|hs| - 1];
      assert hs == init + [e];
      UnrankedFiltered(model, init, w);
      FilterSnoc(init, e, HasWindow(w));
      var prev := Unranked(model, init, w);
      var before := Filter(init, HasWindow(w));
      var eligible := Filter(hs, HasWindow(w));
      var r := Unranked(model, hs, w);
      if w <= |e.history| {
        assert r == prev + [Predicted(model, e, w)];
        assert eligible == before + [e];
        forall i | 0 <= i < |r|
          ensures eligible[i] in hs && w <= |eligible[i].history| && r[i] == Predicted(model, eligible[i], w)
        {
          if i < |prev| {
            assert r[i] == prev[i] && eligible[i] == before[i];
          }
        }
      } else {
        assert r == prev && eligible == before;
      }
    }
  }

  /**
   * `predict_upcoming_points`: the model rebuilt from its dictionary, one
   * prediction per player with at least `w` matches, then a stable sort by
   * predicted points, highest first.
   */
  method PredictUpcomingPoints(modelDict: ModelDict, histories: seq<PlayerHistory>, w: nat)
    returns (predictions: seq<Prediction>)
    ensures predictions == SortDesc(Unranked(FromDict(modelDict), histories, w), PredictedKey)
    ensures NonIncreasing(predictions, PredictedKey)
    ensures multiset(predictions) == multiset(Unranked(FromDict(modelDict), histories, w))
    ensures forall i :: 0 <= i < |predictions| ==> predictions[i].predicted >= 0.0
    ensures forall v :: Select(predictions, PredictedKey, v) == Select(Unranked(FromDict(modelDict), histories, w), PredictedKey, v)
  {
    var model := FromDict(modelDict);
    var unranked: seq<Prediction> := [];
    for p := 0 to |histories|
      invariant unranked == Unranked(model, histories[..p], w)
    {
      assert histories[..p + 1][..p] == histories[..p];
      var history := histories[p].history;
      if |history| < w {
        continue;
      }
      var window := Recent(history, w);
      var features, avgPoints := SummariseWindow(window);
      var predicted := model.Predict(features);
      unranked := unranked + [Prediction(histories[p].player, if predicted >= 0.0 then predicted else 0.0, avgPoints)];
    }
    assert histories[..|histories|] == histories;
    predictions := SortDesc(unranked, PredictedKey);
    forall v | true
      ensures Select(predictions, PredictedKey, v) == Select(unranked, PredictedKey, v)
    {
      SortDescStable(unranked, PredictedKey, v);
    }
    forall i | 0 <= i < |predictions|
      ensures predictions[i].predicted >= 0.0
    {
      assert predictions[i] in multiset(unranked);
    }
  }
}
