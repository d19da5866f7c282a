/**
 * The training pipeline's feature engineering: choosing the label column, choosing between a
 * dataset that already has the four inference features and a raw credit-card dataset with an
 * `Amount` (and perhaps a `Time`) column, and the element-wise clean-up of every feature into its
 * range. A data frame is a list of named columns of cells; a cell is the number pandas coerces
 * it to, or a value it cannot coerce (which becomes NaN and is then filled).
 */
module TrainingFeatures {
  import opened Wrappers
  import opened Numeric
  import opened Strings

  const FEATURE_COLUMNS: seq<string> := ["amount", "transaction_frequency", "location_risk", "merchant_risk"]
  const DEFAULT_TARGET_CANDIDATES: seq<string> := ["is_fraud", "label", "class", "Class", "target"]
  const MAX_TRANSACTION_FREQUENCY: int := 10000
  const INFERENCE_SCHEMA: string := "inference_features"
  const RAW_SCHEMA: string := "credit_card_raw"

  const EMPTY_DATASET_ERROR: string := "Training dataset is empty."
  const SCHEMA_ERROR: string :=
    "Dataset must include either inference-ready features (amount, transaction_frequency, location_risk, merchant_risk) or raw credit-card columns with Amount."

  /** A cell after `pd.to_numeric(..., errors="coerce")`: a finite number, or a value that became NaN. */
  datatype Cell = Num(value: real) | NonNumeric

  datatype Column = Column(name: string, values: seq<Cell>)

  /** A data frame: its columns in order and its number of rows. */
  datatype Frame = Frame(columns: seq<Column>, rowCount: nat)

  /** Every column has one cell per row. */
  predicate WellFormed(frame: Frame)
  {
    forall i :: 0 <= i < |frame.columns| ==> |frame.columns[i].values| == frame.rowCount
  }

  /** One row of the feature frame, its fields in `FEATURE_COLUMNS` order. */
  datatype FeatureRow = FeatureRow(amount: real, transactionFrequency: int, locationRisk: real, merchantRisk: real)

  datatype FeatureFrame = FeatureFrame(columns: seq<string>, rows: seq<FeatureRow>)

  datatype FeatureMetadata = FeatureMetadata(
    sourceSchema: string,
    sourceColumns: seq<string>,
    featureColumns: seq<string>,
    targetColumn: string,
    rowCount: int,
    positiveClassRatio: real)

  datatype TrainingFrame = TrainingFrame(features: FeatureFrame, labels: seq<int>, metadata: FeatureMetadata)

  /** The ranges the sanitisers guarantee. */
  predicate RowInRange(row: FeatureRow)
  {
    && row.amount >= 0.0
    && 0 <= row.transactionFrequency <= MAX_TRANSACTION_FREQUENCY
    && 0.0 <= row.locationRisk <= 1.0
    && 0.0 <= row.merchantRisk <= 1.0
  }

  /** `fillna(0)` after coercion. */
  function Coerced(cell: Cell): real
  {
    if cell.Num? then cell.value else 0.0
  }

  /** `astype(int)` for magnitudes below 2^63, where it truncates toward zero. */
  function TruncToInt(x: real): int
  {
    if x >= 0.0 then x.Floor else -((-x).Floor)
  }

  function ClipInt(x: int, lo: int, hi: int): int
    requires lo <= hi
  {
    if x < lo then lo else if x > hi then hi else x
  }

  /** `sanitize_labels` for one cell. */
  function SanitizeLabel(cell: Cell): int
  {
    ClipInt(TruncToInt(Coerced(cell)), 0, 1)
  }

  /** `sanitize_amount` for one cell. */
  function SanitizeAmount(cell: Cell): real
  {
    MaxReal(Coerced(cell), 0.0)
  }

  /** `sanitize_transaction_frequency` for one cell. */
  function SanitizeFrequency(cell: Cell): int
  {
    ClipInt(TruncToInt(Coerced(cell)), 0, MAX_TRANSACTION_FREQUENCY)
  }

  /** `sanitize_probability_feature` for one cell. */
  function SanitizeProbability(cell: Cell): real
  {
    Clamp01(Coerced(cell))
  }

  /**
   * Each sanitiser puts every value in its range, turns a value that is not a number into 0,
   * keeps a value already in range, and so changes nothing when applied again.
   */
  lemma SanitizerProperties(cell: Cell)
    ensures 0 <= SanitizeLabel(cell) <= 1
    ensures SanitizeAmount(cell) >= 0.0
    ensures 0 <= SanitizeFrequency(cell) <= MAX_TRANSACTION_FREQUENCY
    ensures 0.0 <= SanitizeProbability(cell) <= 1.0
    ensures cell.NonNumeric? ==>
      SanitizeLabel(cell) == 0 && SanitizeAmount(cell) == 0.0 && SanitizeFrequency(cell) == 0 && SanitizeProbability(cell) == 0.0
    ensures cell.Num? && cell.value.Floor as real == cell.value ==>
      && (0.0 <= cell.value <= 1.0 ==> SanitizeLabel(cell) == cell.value.Floor)
      && (0.0 <= cell.value <= MAX_TRANSACTION_FREQUENCY as real ==> SanitizeFrequency(cell) == cell.value.Floor)
    ensures cell.Num? && cell.value >= 0.0 ==> SanitizeAmount(cell) == cell.value
    ensures cell.Num? && 0.0 <= cell.value <= 1.0 ==> SanitizeProbability(cell) == cell.value
    ensures SanitizeLabel(Num(SanitizeLabel(cell) as real)) == SanitizeLabel(cell)
    ensures SanitizeAmount(Num(SanitizeAmount(cell))) == SanitizeAmount(cell)
    ensures SanitizeFrequency(Num(SanitizeFrequency(cell) as real)) == SanitizeFrequency(cell)
    ensures SanitizeProbability(Num(SanitizeProbability(cell))) == SanitizeProbability(cell)
  {
  }

  /** Truncation toward zero: a fraction is dropped whatever the sign, so -0.5 becomes 0. */
  lemma TruncToIntProperties(x: real)
    ensures TruncToInt(x) as real <= x < TruncToInt(x) as real + 1.0 || TruncToInt(x) as real - 1.0 < x <= TruncToInt(x) as real
    ensures x >= 0.0 ==> TruncToInt(x) >= 0 && TruncToInt(x) as real <= x
    ensures x <= 0.0 ==> TruncToInt(x) <= 0 && TruncToInt(x) as real >= x
    ensures x.Floor as real == x ==> TruncToInt(x) == x.Floor
  {
  }

  /** The minute a row falls in: coerced seconds, with NaN and negative times taken as 0, floor-divided by 60. */
  function MinuteBucket(time: Cell): int
  {
    (MaxReal(Coerced(time), 0.0) / 60.0).Floor
  }

  function MinuteBuckets(times: seq<Cell>): (buckets: seq<int>)
    ensures |buckets| == |times|
  {
    seq(|times|, i requires 0 <= i < |times| => MinuteBucket(times[i]))
  }

  /** `build_transaction_frequency`: the number of rows in each row's minute, at most 10000. */
  function TransactionFrequencies(times: seq<Cell>): (frequencies: seq<int>)
    ensures |frequencies| == |times|
  {
    var buckets := MinuteBuckets(times);
    seq(|times|, i requires 0 <= i < |times| => Min(multiset(buckets)[buckets[i]], MAX_TRANSACTION_FREQUENCY))
  }

  /**
   * Each row's frequency counts the row itself, so it is at least 1 and at most the number of
   * rows and 10000; rows in the same minute get the same frequency; below the cap it is exactly
   * the number of rows in that minute. A time that is not a number or negative is minute 0.
   */
  lemma TransactionFrequencyProperties(times: seq<Cell>)
    ensures var frequencies, buckets := TransactionFrequencies(times), MinuteBuckets(times);
      && (forall i :: 0 <= i < |times| ==> 1 <= frequencies[i] <= MAX_TRANSACTION_FREQUENCY && frequencies[i] <= |times|)
      && (forall i, j :: 0 <= i < |times| && 0 <= j < |times| && buckets[i] == buckets[j] ==> frequencies[i] == frequencies[j])
      && (forall i :: 0 <= i < |times| && multiset(buckets)[buckets[i]] <= MAX_TRANSACTION_FREQUENCY ==>
            frequencies[i] == multiset(buckets)[buckets[i]])
      && (forall i :: 0 <= i < |times| && (times[i].NonNumeric? || times[i].value < 60.0) ==> buckets[i] == 0)
  {
    var buckets := MinuteBuckets(times);
    forall i | 0 <= i < |times|
      ensures 1 <= multiset(buckets)[buckets[i]] <= |times|
    {
      assert buckets[i] in multiset(buckets);
      assert multiset(buckets)[buckets[i]] <= |multiset(buckets)|;
    }
    forall i | 0 <= i < |times| && (times[i].NonNumeric? || times[i].value < 60.0)
      ensures buckets[i] == 0
    {
      var seconds := MaxReal(Coerced(times[i]), 0.0);
      assert 0.0 <= seconds / 60.0 < 1.0;
    }
  }

  /** The column names, in order. */
  function Names(columns: seq<Column>): (names: seq<string>)
    ensures |names| == |columns|
  {
    seq(|columns|, i requires 0 <= i < |columns| => columns[i].name)
  }

  /** Index of the first column named `name` exactly, or -1. */
  function ColumnIndex(columns: seq<Column>, name: string): (k: int)
    ensures -1 <= k < |columns|
    ensures k >= 0 ==> columns[k].name == name
    ensures k < 0 <==> name !in Names(columns)
  {
    if |columns| == 0 then -1
    else if columns[0].name == name then
      assert Names(columns)[0] == name;
      0
    else
      var k := ColumnIndex(columns[1..], name);
      assert Names(columns) == [columns[0].name] + Names(columns[1..]);
      if k < 0 then -1 else k + 1
  }

  /**
   * The column `columns_by_lower[key]` picks: the last column whose lower-cased name is `key`
   * (later columns overwrite earlier ones in the dictionary), or -1.
   */
  function LowerIndex(columns: seq<Column>, key: string): (k: int)
    ensures -1 <= k < |columns|
    ensures k >= 0 ==> Lower(columns[k].name) == key
    ensures forall i :: 0 <= i < |columns| && i > k ==> Lower(columns[i].name) != key
  {
    if |columns| == 0 then -1
    else if Lower(columns[|columns| - 1].name) == key then |columns| - 1
    else LowerIndex(columns[..|columns| - 1], key)
  }

  /** `frame.drop(columns=[name])`: every other column, in order. */
  function DropColumn(columns: seq<Column>, name: string): (rest: seq<Column>)
    ensures forall i :: 0 <= i < |rest| ==> rest[i] in columns && rest[i].name != name
    ensures forall c :: c in columns && c.name != name ==> c in rest
  {
    if |columns| == 0 then []
    else
      var tail := DropColumn(columns[1..], name);
      if columns[0].name == name then tail else [columns[0]] + tail
  }

  /** `", ".join(items)` */
  function Join(items: seq<string>): string
  {
    if |items| == 0 then "" else if |items| == 1 then items[0] else items[0] + ", " + Join(items[1..])
  }

  /** The text of `str(items)` for a list of plain names: `['a', 'b']`. */
  function ListText(items: seq<string>): string
  {
    "[" + Join(seq(|items|, i requires 0 <= i < |items| => "'" + items[i] + "'")) + "]"
  }

  function TargetNotFoundError(target: string): string
  {
    "Target column '" + target + "' not found in dataset."
  }

  function NoTargetError(candidates: seq<string>): string
  {
    "Unable to infer target column. Provide --target-column or include one of: " + Join(candidates) + "."
  }

  /** The first of `candidates` that names a column. */
  function FirstPresent(names: seq<string>, candidates: seq<string>): (r: Option<string>)
    ensures r.Some? ==> r.value in names && r.value in candidates
    ensures r.None? <==> forall c :: c in candidates ==> c !in names
  {
    if |candidates| == 0 then None
    else if candidates[0] in names then Some(candidates[0])
    else FirstPresent(names, candidates[1..])
  }

  /**
   * `resolve_target_column`: an explicit target must name a column; otherwise the first
   * candidate that names a column; otherwise an error listing the candidates.
   */
  function ResolveTarget(names: seq<string>, target: Option<string>, candidates: seq<string>): Result<string, string>
  {
    if target.Some? then
      if target.value in names then Success(target.value) else Failure(TargetNotFoundError(target.value))
    else
      match FirstPresent(names, candidates)
      case Some(candidate) => Success(candidate)
      case None => Failure(NoTargetError(candidates))
  }

  /** `resolve_target_column` with its search loop over the candidates. */
  method ResolveTargetColumn(names: seq<string>, target: Option<string>, candidates: seq<string>) returns (r: Result<string, string>)
    ensures r == ResolveTarget(names, target, candidates)
  {
    if target.Some? {
      if target.value !in names {
        return Failure(TargetNotFoundError(target.value));
      }
      return Success(target.value);
    }
    for i := 0 to |candidates|
      invariant FirstPresent(names, candidates) == FirstPresent(names, candidates[i..])
    {
      assert candidates[i..][1..] == candidates[i + 1..];
      if candidates[i] in names {
        return Success(candidates[i]);
      }
    }
    return Failure(NoTargetError(candidates));
  }

  /**
   * The chosen target always names a column. An explicit target is chosen exactly when it names
   * a column; otherwise the chosen candidate is the first in order that names a column, and
   * there is an error exactly when none does.
   */
  lemma ResolveTargetProperties(names: seq<string>, target: Option<string>, candidates: seq<string>)
    ensures var r := ResolveTarget(names, target, candidates);
      && (r.Success? ==> r.value in names)
      && (target.Some? ==> (r == Success(target.value) <==> target.value in names)
                           && (r.Failure? ==> r.error == TargetNotFoundError(target.value)))
      && (target.None? ==>
            && (r.Failure? <==> forall c :: c in candidates ==> c !in names)
            && (r.Failure? ==> r.error == NoTargetError(candidates))
            && (r.Success? ==> exists k :: 0 <= k < |candidates| && candidates[k] == r.value
                                  && forall j :: 0 <= j < k ==> candidates[j] !in names))
  {
    if target.None? && FirstPresent(names, candidates).Some? {
      FirstPresentIsFirst(names, candidates);
    }
  }

  lemma {:induction false} FirstPresentIsFirst(names: seq<string>, candidates: seq<string>)
    requires FirstPresent(names, candidates).Some?
    ensures exists k :: 0 <= k < |candidates| && candidates[k] == FirstPresent(names, candidates).value
                        && forall j :: 0 <= j < k ==> candidates[j] !in names
  {
    if candidates[0] !in names {
      FirstPresentIsFirst(names, candidates[1..]);
      var k :| 0 <= k < |candidates[1..]| && candidates[1..][k] == FirstPresent(names, candidates[1..]).value
               && forall j :: 0 <= j < k ==> candidates[1..][j] !in names;
      assert forall j :: 0 <= j < k + 1 ==> candidates[j] !in names by {
        forall j | 0 <= j < k + 1
          ensures candidates[j] !in names
        {
          if j > 0 {
            assert candidates[j] == candidates[1..][j - 1];
          }
        }
      }
      assert candidates[k + 1] == FirstPresent(names, candidates).value;
    } else {
      assert candidates[0] == FirstPresent(names, candidates).value;
    }
  }

  /** The feature rows built from four aligned columns, each cell sanitised. */
  function FeatureRows(amount: seq<Cell>, frequency: seq<Cell>, location: seq<Cell>, merchant: seq<Cell>): (rows: seq<FeatureRow>)
    requires |frequency| == |amount| && |location| == |amount| && |merchant| == |amount|
    ensures |rows| == |amount|
  {
    seq(|amount|, i requires 0 <= i < |amount| =>
      FeatureRow(SanitizeAmount(amount[i]), SanitizeFrequency(frequency[i]), SanitizeProbability(location[i]), SanitizeProbability(merchant[i])))
  }

  /** Every built row is in range. */
  lemma FeatureRowsInRange(amount: seq<Cell>, frequency: seq<Cell>, location: seq<Cell>, merchant: seq<Cell>)
    requires |frequency| == |amount| && |location| == |amount| && |merchant| == |amount|
    ensures forall i :: 0 <= i < |amount| ==> RowInRange(FeatureRows(amount, frequency, location, merchant)[i])
  {
    forall i | 0 <= i < |amount|
      ensures RowInRange(FeatureRows(amount, frequency, location, merchant)[i])
    {
      SanitizerProperties(amount[i]);
      SanitizerProperties(frequency[i]);
      SanitizerProperties(location[i]);
      SanitizerProperties(merchant[i]);
    }
  }

  /** The four inference features are all present, compared case-insensitively. */
  predicate HasInferenceFeatures(columns: seq<Column>)
  {
    && LowerIndex(columns, "amount") >= 0
    && LowerIndex(columns, "transaction_frequency") >= 0
    && LowerIndex(columns, "location_risk") >= 0
    && LowerIndex(columns, "merchant_risk") >= 0
  }

  /** The rows of a frame that has the four inference features, each taken from its column and sanitised. */
  function InferenceRows(columns: seq<Column>, rowCount: nat): (rows: seq<FeatureRow>)
    requires forall i :: 0 <= i < |columns| ==> |columns[i].values| == rowCount
    requires HasInferenceFeatures(columns)
    ensures |rows| == rowCount
    ensures forall i :: 0 <= i < |rows| ==> RowInRange(rows[i])
  {
    var amount, frequency, location, merchant :=
      LowerIndex(columns, "amount"), LowerIndex(columns, "transaction_frequency"),
      LowerIndex(columns, "location_risk"), LowerIndex(columns, "merchant_risk");
    FeatureRowsInRange(columns[amount].values, columns[frequency].values, columns[location].values, columns[merchant].values);
    FeatureRows(columns[amount].values, columns[frequency].values, columns[location].values, columns[merchant].values)
  }

  /** The frequency column of a raw dataset: per-minute counts from `Time`, else 1 for every row. */
  function RawFrequency(columns: seq<Column>, rowCount: nat): (frequency: seq<Cell>)
    requires forall i :: 0 <= i < |columns| ==> |columns[i].values| == rowCount
    ensures |frequency| == rowCount
  {
    var time := LowerIndex(columns, "time");
    if time >= 0 then
      var counts := TransactionFrequencies(columns[time].values);
      seq(rowCount, i requires 0 <= i < rowCount => Num(counts[i] as real))
    else seq(rowCount, i => Num(1.0))
  }

  /**
   * `build_feature_frame` without the target column. `locationRank` and `merchantRank` are the
   * percentile ranks of the raw dataset's location and merchant signals, one per row.
   */
  function BuildFeatureFrame(frame: Frame, target: string, locationRank: seq<Cell>, merchantRank: seq<Cell>): Result<(FeatureFrame, string), string>
    requires WellFormed(frame) && |locationRank| == frame.rowCount && |merchantRank| == frame.rowCount
  {
    var rest := DropColumn(frame.columns, target);
    assert forall i :: 0 <= i < |rest| ==> |rest[i].values| == frame.rowCount;
    var amount := LowerIndex(rest, "amount");
    if HasInferenceFeatures(rest) then
      Success((FeatureFrame(FEATURE_COLUMNS, InferenceRows(rest, frame.rowCount)), INFERENCE_SCHEMA))
    else if amount < 0 then Failure(SCHEMA_ERROR)
    else
      var rows := FeatureRows(rest[amount].values, RawFrequency(rest, frame.rowCount), locationRank, merchantRank);
      Success((FeatureFrame(FEATURE_COLUMNS, rows), RAW_SCHEMA))
  }

  /**
   * The schema is "inference_features" exactly when, besides the target, all four features are
   * present (case-insensitively); failing that an amount column gives "credit_card_raw", and
   * without one the dataset is refused. The features are the four columns in `FEATURE_COLUMNS`
   * order, one row per dataset row, every row in range.
   */
  lemma BuildFeatureFrameProperties(frame: Frame, target: string, locationRank: seq<Cell>, merchantRank: seq<Cell>)
    requires WellFormed(frame) && |locationRank| == frame.rowCount && |merchantRank| == frame.rowCount
    ensures var r := BuildFeatureFrame(frame, target, locationRank, merchantRank);
      var rest := DropColumn(frame.columns, target);
      && (r.Failure? <==> !HasInferenceFeatures(rest) && LowerIndex(rest, "amount") < 0)
      && (r.Failure? ==> r.error == SCHEMA_ERROR)
      && (r.Success? ==>
            && (r.value.1 == "inference_features" <==> HasInferenceFeatures(rest))
            && (r.value.1 != "inference_features" ==> r.value.1 == "credit_card_raw")
            && r.value.0.columns == ["amount", "transaction_frequency", "location_risk", "merchant_risk"]
            && |r.value.0.rows| == frame.rowCount
            && forall i :: 0 <= i < |r.value.0.rows| ==> RowInRange(r.value.0.rows[i]))
  {
    var rest := DropColumn(frame.columns, target);
    assert forall i :: 0 <= i < |rest| ==> |rest[i].values| == frame.rowCount;
    var amount := LowerIndex(rest, "amount");
    if !HasInferenceFeatures(rest) && amount >= 0 {
      FeatureRowsInRange(rest[amount].values, RawFrequency(rest, frame.rowCount), locationRank, merchantRank);
    }
  }

  /** A raw dataset's frequency feature is the per-minute count from `Time`, or 1 without one. */
  lemma RawFrequencyFeature(columns: seq<Column>, rowCount: nat, i: int)
    requires forall k :: 0 <= k < |columns| ==> |columns[k].values| == rowCount
    requires 0 <= i < rowCount
    ensures var time := LowerIndex(columns, "time");
      SanitizeFrequency(RawFrequency(columns, rowCount)[i]) ==
        if time >= 0 then TransactionFrequencies(columns[time].values)[i] else 1
  {
    var time := LowerIndex(columns, "time");
    if time >= 0 {
      TransactionFrequencyProperties(columns[time].values);
    }
  }

  /** `sanitize_labels` */
  function SanitizeLabels(cells: seq<Cell>): (labels: seq<int>)
    ensures |labels| == |cells|
  {
    seq(|cells|, i requires 0 <= i < |cells| => SanitizeLabel(cells[i]))
  }

  lemma SanitizeLabelsInRange(cells: seq<Cell>)
    ensures forall i :: 0 <= i < |cells| ==> 0 <= SanitizeLabels(cells)[i] <= 1
  {
    forall i | 0 <= i < |cells|
      ensures 0 <= SanitizeLabels(cells)[i] <= 1
    {
      SanitizerProperties(cells[i]);
    }
  }

  function Sum(values: seq<int>): int
  {
    if |values| == 0 then 0 else Sum(values[..|values| - 1]) + values[|values| - 1]
  }

  lemma {:induction false} SumOfBits(values: seq<int>)
    requires forall i :: 0 <= i < |values| ==> 0 <= values[i] <= 1
    ensures 0 <= Sum(values) <= |values|
  {
    if |values| > 0 {
      SumOfBits(values[..|values| - 1]);
    }
  }

  /** `labels.mean()`, 0 for no labels. */
  function PositiveRatio(labels: seq<int>): real
  {
    if |labels| > 0 then Sum(labels) as real / |labels| as real else 0.0
  }

  /** The mean of 0/1 labels is a share, in [0, 1]. */
  lemma RatioInUnit(labels: seq<int>)
    requires forall i :: 0 <= i < |labels| ==> 0 <= labels[i] <= 1
    ensures 0.0 <= PositiveRatio(labels) <= 1.0
  {
    SumOfBits(labels);
    if |labels| > 0 {
      DivideBounds(Sum(labels) as real, |labels| as real, 0.0, 1.0);
    }
  }

  /** `dataset.empty`: no columns or no rows. */
  predicate IsEmpty(frame: Frame)
  {
    |frame.columns| == 0 || frame.rowCount == 0
  }

  /**
   * `prepare_training_frame`: refuse an empty dataset, choose the target, build the features
   * from the other columns, and clean the labels.
   */
  function PrepareTrainingFrame(dataset: Frame, target: Option<string>, candidates: seq<string>,
                                locationRank: seq<Cell>, merchantRank: seq<Cell>): Result<TrainingFrame, string>
    requires WellFormed(dataset) && |locationRank| == dataset.rowCount && |merchantRank| == dataset.rowCount
  {
    if IsEmpty(dataset) then Failure(EMPTY_DATASET_ERROR)
    else
      var names := Names(dataset.columns);
      match ResolveTarget(names, target, candidates)
      case Failure(error) => Failure(error)
      case Success(selected) =>
        match BuildFeatureFrame(dataset, selected, locationRank, merchantRank)
        case Failure(error) => Failure(error)
        case Success((features, schema)) =>
          var labels := SanitizeLabels(dataset.columns[ColumnIndex(dataset.columns, selected)].values);
          var metadata := FeatureMetadata(schema, names, features.columns, selected, |features.rows|, PositiveRatio(labels));
          Success(TrainingFrame(features, labels, metadata))
  }

  /**
   * An empty dataset is refused first; then the target and schema errors. A prepared frame has
   * one feature row and one label in {0, 1} per dataset row, records the chosen target and all
   * source columns, and its positive-class ratio is the share of 1 labels, in [0, 1].
   */
  lemma PrepareTrainingFrameProperties(dataset: Frame, target: Option<string>, candidates: seq<string>,
                                       locationRank: seq<Cell>, merchantRank: seq<Cell>)
    requires WellFormed(dataset) && |locationRank| == dataset.rowCount && |merchantRank| == dataset.rowCount
    ensures var r := PrepareTrainingFrame(dataset, target, candidates, locationRank, merchantRank);
      var resolved := ResolveTarget(Names(dataset.columns), target, candidates);
      && (IsEmpty(dataset) ==> r == Failure("Training dataset is empty."))
      && (!IsEmpty(dataset) && resolved.Failure? ==> r == Failure(resolved.error))
      && (r.Success? ==>
            var m := r.value.metadata;
            && resolved == Success(m.targetColumn)
            && |r.value.features.rows| == dataset.rowCount && |r.value.labels| == dataset.rowCount
            && m.rowCount == dataset.rowCount && m.sourceColumns == Names(dataset.columns)
            && m.featureColumns == FEATURE_COLUMNS
            && (forall i :: 0 <= i < |r.value.labels| ==> 0 <= r.value.labels[i] <= 1)
            && (forall i :: 0 <= i < |r.value.features.rows| ==> RowInRange(r.value.features.rows[i]))
            && 0.0 <= m.positiveClassRatio <= 1.0)
  {
    PreparedShape(dataset, target, candidates, locationRank, merchantRank);
    PreparedInRange(dataset, target, candidates, locationRank, merchantRank);
  }

  /** A prepared frame records the chosen target and the source columns, with one row and one label per dataset row. */
  lemma PreparedShape(dataset: Frame, target: Option<string>, candidates: seq<string>,
                      locationRank: seq<Cell>, merchantRank: seq<Cell>)
    requires WellFormed(dataset) && |locationRank| == dataset.rowCount && |merchantRank| == dataset.rowCount
    ensures var r := PrepareTrainingFrame(dataset, target, candidates, locationRank, merchantRank);
      r.Success? ==>
        var m := r.value.metadata;
        && ResolveTarget(Names(dataset.columns), target, candidates) == Success(m.targetColumn)
        && |r.value.features.rows| == dataset.rowCount && |r.value.labels| == dataset.rowCount
        && m.rowCount == dataset.rowCount && m.sourceColumns == Names(dataset.columns)
        && m.featureColumns == FEATURE_COLUMNS
  {
    var resolved := ResolveTarget(Names(dataset.columns), target, candidates);
    if !IsEmpty(dataset) && resolved.Success? {
      BuildFeatureFrameProperties(dataset, resolved.value, locationRank, merchantRank);
    }
  }

  /** A prepared frame's labels are 0 or 1, its rows are in range, and its positive-class ratio is in [0, 1]. */
  lemma PreparedInRange(dataset: Frame, target: Option<string>, candidates: seq<string>,
                        locationRank: seq<Cell>, merchantRank: seq<Cell>)
    requires WellFormed(dataset) && |locationRank| == dataset.rowCount && |merchantRank| == dataset.rowCount
    ensures var r := PrepareTrainingFrame(dataset, target, candidates, locationRank, merchantRank);
      r.Success? ==>
        && (forall i :: 0 <= i < |r.value.labels| ==> 0 <= r.value.labels[i] <= 1)
        && (forall i :: 0 <= i < |r.value.features.rows| ==> RowInRange(r.value.features.rows[i]))
        && 0.0 <= r.value.metadata.positiveClassRatio <= 1.0
  {
    PreparedLabelsInRange(dataset, target, candidates, locationRank, merchantRank);
    PreparedRowsInRange(dataset, target, candidates, locationRank, merchantRank);
  }

  /** The labels of a prepared frame are 0 or 1 and its positive-class ratio is in [0, 1]. */
  lemma PreparedLabelsInRange(dataset: Frame, target: Option<string>, candidates: seq<string>,
                              locationRank: seq<Cell>, merchantRank: seq<Cell>)
    requires WellFormed(dataset) && |locationRank| == dataset.rowCount && |merchantRank| == dataset.rowCount
    ensures var r := PrepareTrainingFrame(dataset, target, candidates, locationRank, merchantRank);
      r.Success? ==>
        && (forall i :: 0 <= i < |r.value.labels| ==> 0 <= r.value.labels[i] <= 1)
        && 0.0 <= r.value.metadata.positiveClassRatio <= 1.0
  {
    var resolved := ResolveTarget(Names(dataset.columns), target, candidates);
    if !IsEmpty(dataset) && resolved.Success? {
      var cells := dataset.columns[ColumnIndex(dataset.columns, resolved.value)].values;
      SanitizeLabelsInRange(cells);
      RatioInUnit(SanitizeLabels(cells));
    }
  }

  /** Every feature row of a prepared frame is in range. */
  lemma PreparedRowsInRange(dataset: Frame, target: Option<string>, candidates: seq<string>,
                            locationRank: seq<Cell>, merchantRank: seq<Cell>)
    requires WellFormed(dataset) && |locationRank| == dataset.rowCount && |merchantRank| == dataset.rowCount
    ensures var r := PrepareTrainingFrame(dataset, target, candidates, locationRank, merchantRank);
      r.Success? ==> forall i :: 0 <= i < |r.value.features.rows| ==> RowInRange(r.value.features.rows[i])
  {
    var resolved := ResolveTarget(Names(dataset.columns), target, candidates);
    if !IsEmpty(dataset) && resolved.Success? {
      BuildFeatureFrameProperties(dataset, resolved.value, locationRank, merchantRank);
    }
  }

  /** The features `prepare_inference_frame` needs and the payload lacks, in `FEATURE_COLUMNS` order. */
  function MissingFeatures(columns: seq<Column>, features: seq<string>): (missing: seq<string>)
    ensures forall f :: f in missing <==> f in features && LowerIndex(columns, f) < 0
  {
    if |features| == 0 then []
    else
      var rest := MissingFeatures(columns, features[1..]);
      if LowerIndex(columns, features[0]) < 0 then [features[0]] + rest else rest
  }

  /** `prepare_inference_frame` on a data frame payload. */
  function PrepareInferenceFrame(frame: Frame): Result<FeatureFrame, string>
    requires WellFormed(frame)
  {
    if !HasInferenceFeatures(frame.columns) then
      Failure("Missing required inference features: " + ListText(MissingFeatures(frame.columns, FEATURE_COLUMNS)))
    else Success(FeatureFrame(FEATURE_COLUMNS, InferenceRows(frame.columns, frame.rowCount)))
  }

  /**
   * A payload is refused exactly when one of the four features is missing, and the message
   * names the missing ones, in order; otherwise the result has the four features in
   * `FEATURE_COLUMNS` order, one row per payload row, every row in range, and equals what
   * `BuildFeatureFrame(frame, target, ...)` gives for a target column the payload does not have.
   */
  lemma PrepareInferenceFrameProperties(frame: Frame, target: string, ranks: seq<Cell>)
    requires WellFormed(frame) && target !in Names(frame.columns) && |ranks| == frame.rowCount
    ensures var r := PrepareInferenceFrame(frame);
      var missing := MissingFeatures(frame.columns, FEATURE_COLUMNS);
      && (r.Failure? <==> |missing| > 0)
      && (forall f :: f in missing <==> f in FEATURE_COLUMNS && LowerIndex(frame.columns, f) < 0)
      && (r.Failure? ==> r.error == "Missing required inference features: " + ListText(missing))
      && (r.Success? ==>
            && r.value.columns == ["amount", "transaction_frequency", "location_risk", "merchant_risk"]
            && |r.value.rows| == frame.rowCount
            && (forall i :: 0 <= i < |r.value.rows| ==> RowInRange(r.value.rows[i]))
            && BuildFeatureFrame(frame, target, ranks, ranks) == Success((r.value, INFERENCE_SCHEMA)))
  {
    MissingIffIncomplete(frame.columns);
    if HasInferenceFeatures(frame.columns) {
      DropAbsent(frame.columns, target);
    }
  }

  /** Some feature is listed as missing exactly when the four are not all present. */
  lemma MissingIffIncomplete(columns: seq<Column>)
    ensures |MissingFeatures(columns, FEATURE_COLUMNS)| > 0 <==> !HasInferenceFeatures(columns)
  {
    if HasInferenceFeatures(columns) {
      NoneMissing(columns, FEATURE_COLUMNS);
    } else if LowerIndex(columns, "amount") < 0 {
      OneMissing(columns, "amount");
    } else if LowerIndex(columns, "transaction_frequency") < 0 {
      OneMissing(columns, "transaction_frequency");
    } else if LowerIndex(columns, "location_risk") < 0 {
      OneMissing(columns, "location_risk");
    } else {
      OneMissing(columns, "merchant_risk");
    }
  }

  lemma OneMissing(columns: seq<Column>, feature: string)
    requires feature in FEATURE_COLUMNS && LowerIndex(columns, feature) < 0
    ensures |MissingFeatures(columns, FEATURE_COLUMNS)| > 0
  {
    assert feature in MissingFeatures(columns, FEATURE_COLUMNS);
  }

  lemma {:induction false} NoneMissing(columns: seq<Column>, features: seq<string>)
    requires forall i :: 0 <= i < |features| ==> LowerIndex(columns, features[i]) >= 0
    ensures MissingFeatures(columns, features) == []
  {
    if |features| > 0 {
      NoneMissing(columns, features[1..]);
    }
  }

  /** Dropping a column that is not there changes nothing. */
  lemma DropAbsent(columns: seq<Column>, name: string)
    requires name !in Names(columns)
    ensures DropColumn(columns, name) == columns
  {
    forall i | 0 <= i < |columns|
      ensures columns[i].name != name
    {
      assert Names(columns)[i] == columns[i].name;
    }
    DropNoneNamed(columns, name);
  }

  /** Dropping a name no column has changes nothing, by induction on the columns. */
  lemma {:induction false} DropNoneNamed(columns: seq<Column>, name: string)
    requires forall i :: 0 <= i < |columns| ==> columns[i].name != name
    ensures DropColumn(columns, name) == columns
  {
    if |columns| > 0 {
      assert columns[0].name != name;
      DropNoneNamed(columns[1..], name);
      assert columns == [columns[0]] + columns[1..];
    }
  }

  /**
   * The pipeline's own example: labels 0, 1, 1 stay as they are, and the out-of-range
   * inference features are clipped into range.
   */
  lemma TrainingExample()
    ensures SanitizeLabels([Num(0.0), Num(1.0), Num(1.0)]) == [0, 1, 1]
    ensures SanitizeAmount(Num(-10.0)) == 0.0 && SanitizeAmount(Num(120.1)) == 120.1
    ensures SanitizeFrequency(Num(-1.0)) == 0 && SanitizeFrequency(Num(20000.0)) == 10000 && SanitizeFrequency(Num(3.0)) == 3
    ensures SanitizeProbability(Num(-0.2)) == 0.0 && SanitizeProbability(Num(1.2)) == 1.0 && SanitizeProbability(Num(5.0)) == 1.0
  {
  }
}
