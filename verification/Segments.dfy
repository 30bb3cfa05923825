/** The feature engine for one symbol: runs of consecutive slots, warm-up and null classification, row validation. */
module Segments {
  import opened Common
  import Orders
  import opened Execution
  import opened Calendars
  import opened FeatureRows
  import opened Numerics
  import opened Registry
  import opened Formulas

  /** What stays fixed while one symbol's candles are processed. */
  datatype Setup = Setup(specs: seq<Spec>, sessions: map<Time, Session>, index: map<Time, nat>, math: Math)
  {
    /** Every specification resolves and the output names differ. */
    ghost predicate Accepted() {
      && (forall s | 0 <= s < |specs| :: Resolve(specs[s]).Ok?)
      && (forall s, u | 0 <= s < u < |specs| :: specs[s].output != specs[u].output)
    }
  }

  /** The candle is one of the calendar's completed slots, inside its session. */
  ghost predicate Aligned(setup: Setup, item: SnapshotBar) {
    && item.bar.timestamp in setup.sessions && item.bar.timestamp in setup.index
    && var s := setup.sessions[item.bar.timestamp];
       s.opens <= item.bar.timestamp < s.closes && item.bar.timestamp < item.availableAt
  }

  ghost predicate AllAligned(setup: Setup, run: seq<SnapshotBar>) { forall i | 0 <= i < |run| :: Aligned(setup, run[i]) }

  function ColumnsOf(run: seq<SnapshotBar>): Columns {
    Columns(seq(|run|, i requires 0 <= i < |run| => Some(run[i].bar.close)),
            seq(|run|, i requires 0 <= i < |run| => Some(run[i].bar.high)),
            seq(|run|, i requires 0 <= i < |run| => Some(run[i].bar.low)),
            seq(|run|, i requires 0 <= i < |run| => Some(run[i].bar.volume as real)))
  }

  // ----- session time

  function Minutes(span: Time): real { Ratio(span as real, MINUTE as real) }

  function ClockValue(name: Name, t: Time, s: Session): Option<real> {
    var since, until := Minutes(t - s.opens), Minutes(s.closes - t);
    match name
    case MinutesSinceOpen => Some(since)
    case MinutesUntilClose => Some(until)
    case _ => if since + until == 0.0 then None else Some(Ratio(since, since + until))
  }

  // ----- one run

  /** The array of one output over a run. */
  function SpecSeries(setup: Setup, spec: Spec, run: seq<SnapshotBar>): Result<Series>
    requires AllAligned(setup, run)
  {
    if Resolve(spec).Err? then Err(Resolve(spec).error)
    else if spec.name.Clock() then
      Ok(seq(|run|, i requires 0 <= i < |run| =>
           assert Aligned(setup, run[i]); ClockValue(spec.name, run[i].bar.timestamp, setup.sessions[run[i].bar.timestamp])))
    else Calculate(spec, ColumnsOf(run), setup.math)
  }

  datatype Cell = Cell(value: Option<real>, reason: Option<Unavailable>)

  /** One output of one row: too early, without a denominator, or a number; anything else is an error. */
  function CellOf(spec: Spec, run: seq<SnapshotBar>, values: Series, i: nat, gap: bool): Result<Cell>
    requires Resolve(spec).Ok? && i < |run|
  {
    if i < Resolve(spec).value.requiredLookback then Ok(Cell(None, Some(if gap then GapWarmup else Warmup)))
    else if i >= |values| then Err(NonFiniteFeature)
    else if values[i].None? && ZeroVolume(spec, ColumnsOf(run).volume, i) then Ok(Cell(None, Some(ZeroDenominator)))
    else if values[i].None? then Err(NonFiniteFeature)
    else Ok(Cell(values[i], None))
  }

  type Filled = (map<string, Option<real>>, map<string, Unavailable>)

  function Put(filled: Filled, output: string, cell: Cell): Filled {
    (filled.0[output := cell.value], if cell.reason.Some? then filled.1[output := cell.reason.value] else filled.1)
  }

  /** The dictionaries of values and reasons of row i, output by output. */
  function Fill(setup: Setup, specs: seq<Spec>, run: seq<SnapshotBar>, i: nat, gap: bool): Result<Filled>
    requires i < |run| && AllAligned(setup, run) && forall s | 0 <= s < |specs| :: Resolve(specs[s]).Ok?
  {
    if specs == [] then Ok((map[], map[]))
    else
      var n := |specs| - 1;
      var before :- Fill(setup, specs[..n], run, i, gap);
      var values :- SpecSeries(setup, specs[n], run);
      var cell :- CellOf(specs[n], run, values, i, gap);
      Ok(Put(before, specs[n].output, cell))
  }

  predicate WarmingUp(reasons: map<string, Unavailable>) { exists k | k in reasons :: reasons[k] in {Warmup, GapWarmup} }

  function RowFrom(filled: Filled, item: SnapshotBar, gapBefore: bool): FeatureRow {
    FeatureRow(item.bar.symbol, item.bar.timestamp, item.availableAt, item.bar.close,
               filled.0, filled.1, !WarmingUp(filled.1), gapBefore)
  }

  // ----- row validation

  function Outputs(specs: seq<Spec>): set<string> { set s | s in specs :: s.output }

  predicate Impossible(spec: Spec, value: real) {
    || (spec.name == SessionProgress && !(0.0 <= value < 1.0))
    || (spec.name in {MinutesSinceOpen, MinutesUntilClose} && value < 0.0)
  }

  function ValidateRow(row: FeatureRow, specs: seq<Spec>): Result<()> {
    if row.availableAt <= row.timestamp then Err(RowRejected)
    else if row.values.Keys != Outputs(specs) then Err(RowRejected)
    else if (set k | k in row.values && row.values[k].None?) != row.unavailable.Keys then Err(RowRejected)
    else if row.sufficientHistory != !WarmingUp(row.unavailable) then Err(RowRejected)
    else if exists s | s in specs :: s.output in row.values && row.values[s.output].Some? && Impossible(s, row.values[s.output].value)
      then Err(RowRejected)
    else Ok(())
  }

  /** Row i of a run, validated. */
  function SegmentRow(setup: Setup, run: seq<SnapshotBar>, i: nat, gap: bool): Result<FeatureRow>
    requires i < |run| && AllAligned(setup, run) && forall s | 0 <= s < |setup.specs| :: Resolve(setup.specs[s]).Ok?
  {
    var filled :- Fill(setup, setup.specs, run, i, gap);
    var row := RowFrom(filled, run[i], gap && i == 0);
    var _ :- ValidateRow(row, setup.specs);
    Ok(row)
  }

  // ----- exactness of a row

  lemma RunMarket(run: seq<SnapshotBar>)
    ensures Formulas.Market(ColumnsOf(run)) && |ColumnsOf(run).close| == |run|
  {
  }

  lemma RatioProper(a: real, b: real)
    requires 0.0 <= a < b
    ensures 0.0 <= Ratio(a, b) < 1.0
  {
    assert Ratio(a, b) * b == a;
  }

  lemma MinutesPositive(span: Time)
    ensures span >= 0 ==> Minutes(span) >= 0.0
    ensures span > 0 ==> Minutes(span) > 0.0
  {
    assert Ratio(span as real, MINUTE as real) * MINUTE as real == span as real;
  }

  lemma ClockValueProper(spec: Spec, t: Time, s: Session)
    requires spec.name.Clock() && s.opens <= t < s.closes
    ensures ClockValue(spec.name, t, s).Some? && !Impossible(spec, ClockValue(spec.name, t, s).value)
  {
    hide Ratio;
    var since, until := Minutes(t - s.opens), Minutes(s.closes - t);
    MinutesPositive(t - s.opens);
    MinutesPositive(s.closes - t);
    RatioProper(since, since + until);
  }

  /** When row i of an output has a value. */
  predicate Available(spec: Spec, run: seq<SnapshotBar>, i: nat)
    requires Resolve(spec).Ok? && i < |run|
  {
    i >= Resolve(spec).value.requiredLookback && !ZeroVolume(spec, ColumnsOf(run).volume, i)
  }

  /** The cell of an output in row i is what look-back and zero volume make it. */
  ghost predicate Decided(spec: Spec, run: seq<SnapshotBar>, i: nat, gap: bool, cell: Cell)
    requires Resolve(spec).Ok? && i < |run|
  {
    && (cell.value.Some? <==> Available(spec, run, i))
    && cell.reason == (if i < Resolve(spec).value.requiredLookback then Some(if gap then GapWarmup else Warmup)
                       else if Available(spec, run, i) then None else Some(ZeroDenominator))
    && (cell.value.Some? ==> !Impossible(spec, cell.value.value))
  }

  /** Every cell of every row is decided exactly by look-back and zero volume, and never an error. */
  lemma CellExact(setup: Setup, spec: Spec, run: seq<SnapshotBar>, i: nat, gap: bool)
    requires Resolve(spec).Ok? && i < |run| && AllAligned(setup, run)
    ensures var values := SpecSeries(setup, spec, run);
            && values.Ok? && |values.value| == |run|
            && var cell := CellOf(spec, run, values.value, i, gap);
               cell.Ok? && Decided(spec, run, i, gap, cell.value)
  {
    hide Calculate, ZeroVolume, ColumnsOf, ClockValue, Ratio, Formulas.Market;
    RunMarket(run);
    MarketParts(ColumnsOf(run));
    if spec.name.Clock() {
      assert Aligned(setup, run[i]);
      ClockValueProper(spec, run[i].bar.timestamp, setup.sessions[run[i].bar.timestamp]);
      ClockNeverZero(spec, ColumnsOf(run).volume, i);
    } else {
      LookbackExact(spec, ColumnsOf(run), setup.math);
    }
  }

  /**
   * Look-back exactness of every output, the clock features included: it is undefined exactly before its declared look-back
   * or for a zero volume.
   */
  lemma OutputExact(setup: Setup, spec: Spec, run: seq<SnapshotBar>)
    requires Resolve(spec).Ok? && AllAligned(setup, run)
    ensures var values := SpecSeries(setup, spec, run);
            && values.Ok? && |values.value| == |run|
            && forall i: nat | i < |run| :: values.value[i].Some? <==> Available(spec, run, i)
  {
    hide Calculate, ColumnsOf, Resolve, ZeroVolume, ClockValue, Ratio, Formulas.Market, AllAligned;
    RunMarket(run);
    MarketParts(ColumnsOf(run));
    if !spec.name.Clock() {
      LookbackExact(spec, ColumnsOf(run), setup.math);
    } else {
      forall i: nat | i < |run|
        ensures SpecSeries(setup, spec, run).value[i].Some? && Available(spec, run, i)
      {
        AlignedOne(setup, run, i);
        ClockValueProper(spec, run[i].bar.timestamp, setup.sessions[run[i].bar.timestamp]);
        ClockNeverZero(spec, ColumnsOf(run).volume, i);
      }
    }
  }

  lemma AlignedOne(setup: Setup, run: seq<SnapshotBar>, i: nat)
    requires AllAligned(setup, run) && i < |run|
    ensures Aligned(setup, run[i])
  {
  }

  lemma ClockNeverZero(spec: Spec, volume: Series, i: nat)
    requires Resolve(spec).Ok? && spec.name.Clock() && i < |volume|
    ensures !ZeroVolume(spec, volume, i) && Resolve(spec).value.requiredLookback == 0
  {
  }

  /** What the dictionaries say of one output. */
  function Got(filled: Filled, output: string): Cell
    requires output in filled.0
  {
    Cell(filled.0[output], if output in filled.1 then Some(filled.1[output]) else None)
  }

  ghost predicate FilledExactly(specs: seq<Spec>, run: seq<SnapshotBar>, i: nat, gap: bool, filled: Filled)
    requires i < |run| && forall s | 0 <= s < |specs| :: Resolve(specs[s]).Ok?
  {
    && filled.0.Keys == Outputs(specs)
    && filled.1.Keys <= filled.0.Keys
    && (forall s | 0 <= s < |specs| :: specs[s].output in filled.0 && Decided(specs[s], run, i, gap, Got(filled, specs[s].output)))
  }

  lemma PutExact(specs: seq<Spec>, run: seq<SnapshotBar>, i: nat, gap: bool, before: Filled, cell: Cell)
    requires specs != [] && i < |run| && forall s | 0 <= s < |specs| :: Resolve(specs[s]).Ok?
    requires forall s, u | 0 <= s < u < |specs| :: specs[s].output != specs[u].output
    requires FilledExactly(specs[..|specs| - 1], run, i, gap, before)
    requires Decided(specs[|specs| - 1], run, i, gap, cell)
    ensures FilledExactly(specs, run, i, gap, Put(before, specs[|specs| - 1].output, cell))
  {
    hide Decided, Resolve;
    var n := |specs| - 1;
    var output := specs[n].output;
    var after := Put(before, output, cell);
    OutputsPush(specs);
    OutputFresh(specs);
    assert after.0.Keys == before.0.Keys + {output};
    assert Got(after, output) == cell;
    forall s | 0 <= s < |specs|
      ensures specs[s].output in after.0 && Decided(specs[s], run, i, gap, Got(after, specs[s].output))
    {
      if s < n {
        assert specs[..n][s] == specs[s];
        assert Got(after, specs[s].output) == Got(before, specs[s].output);
      }
    }
  }

  lemma {:induction false} FillExact(setup: Setup, specs: seq<Spec>, run: seq<SnapshotBar>, i: nat, gap: bool)
    requires i < |run| && AllAligned(setup, run) && forall s | 0 <= s < |specs| :: Resolve(specs[s]).Ok?
    requires forall s, u | 0 <= s < u < |specs| :: specs[s].output != specs[u].output
    ensures var r := Fill(setup, specs, run, i, gap); r.Ok? && FilledExactly(specs, run, i, gap, r.value)
  {
    hide CellOf, SpecSeries, Decided, Resolve, AllAligned, Put;
    if specs != [] {
      var n := |specs| - 1;
      FillExact(setup, specs[..n], run, i, gap);
      CellExact(setup, specs[n], run, i, gap);
      var values := SpecSeries(setup, specs[n], run).value;
      PutExact(specs, run, i, gap, Fill(setup, specs[..n], run, i, gap).value, CellOf(specs[n], run, values, i, gap).value);
    }
  }

  lemma OutputsPush(specs: seq<Spec>)
    requires specs != []
    ensures Outputs(specs) == Outputs(specs[..|specs| - 1]) + {specs[|specs| - 1].output}
  {
    var n := |specs| - 1;
    assert specs == specs[..n] + [specs[n]];
  }

  lemma OutputFresh(specs: seq<Spec>)
    requires specs != [] && forall s, u | 0 <= s < u < |specs| :: specs[s].output != specs[u].output
    ensures specs[|specs| - 1].output !in Outputs(specs[..|specs| - 1])
  {
  }

  lemma FilledValidates(setup: Setup, run: seq<SnapshotBar>, i: nat, gap: bool, filled: Filled)
    requires setup.Accepted() && i < |run| && AllAligned(setup, run) && FilledExactly(setup.specs, run, i, gap, filled)
    ensures ValidateRow(RowFrom(filled, run[i], gap && i == 0), setup.specs).Ok?
  {
    hide Available, Impossible, Resolve, WarmingUp;
    var row := RowFrom(filled, run[i], gap && i == 0);
    assert Aligned(setup, run[i]);
    forall s | s in setup.specs
      ensures s.output in filled.0 && (filled.0[s.output].None? <==> s.output in filled.1)
      ensures filled.0[s.output].Some? ==> !Impossible(s, filled.0[s.output].value)
    {
      var n :| 0 <= n < |setup.specs| && setup.specs[n] == s;
      assert Decided(s, run, i, gap, Got(filled, s.output));
      DecidedSplits(s, run, i, gap, Got(filled, s.output));
    }
    forall k | k in filled.0
      ensures filled.0[k].None? <==> k in filled.1
    {
      var s :| s in setup.specs && s.output == k;
    }
  }

  lemma DecidedSplits(spec: Spec, run: seq<SnapshotBar>, i: nat, gap: bool, cell: Cell)
    requires Resolve(spec).Ok? && i < |run| && Decided(spec, run, i, gap, cell)
    ensures cell.value.None? <==> cell.reason.Some?
  {
    hide Impossible;
  }

  /**
   * On validated candles no row is ever rejected, and each output of each row is null exactly while its look-back is
   * not reached or its volume denominator is zero, with exactly that reason.
   */
  lemma RowExact(setup: Setup, run: seq<SnapshotBar>, i: nat, gap: bool)
    requires setup.Accepted() && i < |run| && AllAligned(setup, run)
    ensures var r := SegmentRow(setup, run, i, gap);
            && r.Ok? && r.value.timestamp == run[i].bar.timestamp && r.value.gapBefore == (gap && i == 0)
            && r.value.values.Keys == Outputs(setup.specs)
            && forall s | 0 <= s < |setup.specs| ::
                 var spec, output := setup.specs[s], setup.specs[s].output;
                 && output in r.value.values
                 && (r.value.values[output].Some? <==>
                       i >= Resolve(spec).value.requiredLookback && !ZeroVolume(spec, ColumnsOf(run).volume, i))
                 && (output in r.value.unavailable <==> r.value.values[output].None?)
                 && (output in r.value.unavailable ==>
                       r.value.unavailable[output] == if i < Resolve(spec).value.requiredLookback then (if gap then GapWarmup else Warmup) else ZeroDenominator)
  {
    hide Impossible, Resolve, WarmingUp, ZeroVolume, ColumnsOf, AllAligned, ValidateRow, Fill;
    FillExact(setup, setup.specs, run, i, gap);
    var filled := Fill(setup, setup.specs, run, i, gap).value;
    FilledValidates(setup, run, i, gap, filled);
    forall s | 0 <= s < |setup.specs|
      ensures Decided(setup.specs[s], run, i, gap, Got(filled, setup.specs[s].output))
    {
    }
  }

  // ----- a row depends on its run up to itself

  lemma ColumnsFirst(run: seq<SnapshotBar>, k: nat)
    requires k <= |run|
    ensures ColumnsOf(run[..k]) == ColumnsOf(run).First(k)
  {
  }

  lemma CellCausal(setup: Setup, spec: Spec, run: seq<SnapshotBar>, k: nat, i: nat, gap: bool)
    requires Resolve(spec).Ok? && i < k <= |run| && AllAligned(setup, run)
    ensures SpecSeries(setup, spec, run).Ok? && SpecSeries(setup, spec, run[..k]).Ok?
    ensures CellOf(spec, run[..k], SpecSeries(setup, spec, run[..k]).value, i, gap) == CellOf(spec, run, SpecSeries(setup, spec, run).value, i, gap)
  {
    hide Calculate, ColumnsOf, ClockValue, Ratio, Formulas.Market, Resolve;
    RunMarket(run);
    MarketParts(ColumnsOf(run));
    RunMarket(run[..k]);
    MarketParts(ColumnsOf(run[..k]));
    ColumnsFirst(run, k);
    if !spec.name.Clock() {
      CalculateCausal(spec, ColumnsOf(run), setup.math, k);
      CellExact(setup, spec, run, i, gap);
    }
    ZeroCausal(spec, ColumnsOf(run).volume, k, i);
  }

  lemma ZeroCausal(spec: Spec, volume: Series, k: nat, i: nat)
    requires Resolve(spec).Ok? && i < k <= |volume|
    ensures ZeroVolume(spec, volume[..k], i) == ZeroVolume(spec, volume, i)
  {
    hide Resolve;
    ResolvedShape(spec);
    forall j | i + 1 - Period(spec) <= j <= i && 0 <= j
      ensures volume[..k][j] == volume[j]
    {
    }
    if spec.name == VolumeRatio && i + 1 >= Period(spec) {
      if forall j | i + 1 - Period(spec) <= j <= i :: volume[..k][j] == Some(0.0) {
        forall j | i + 1 - Period(spec) <= j <= i
          ensures volume[j] == Some(0.0)
        {
          assert volume[..k][j] == volume[j];
        }
      }
    }
  }

  lemma {:induction false} FillCausal(setup: Setup, specs: seq<Spec>, run: seq<SnapshotBar>, k: nat, i: nat, gap: bool)
    requires i < k <= |run| && AllAligned(setup, run) && forall s | 0 <= s < |specs| :: Resolve(specs[s]).Ok?
    ensures AllAligned(setup, run[..k]) && Fill(setup, specs, run[..k], i, gap) == Fill(setup, specs, run, i, gap)
  {
    hide CellOf, SpecSeries, Put, Resolve;
    if specs != [] {
      var n := |specs| - 1;
      FillCausal(setup, specs[..n], run, k, i, gap);
      CellCausal(setup, specs[n], run, k, i, gap);
    }
  }

  /** Later candles of the run do not change a row. */
  lemma RowCausal(setup: Setup, run: seq<SnapshotBar>, k: nat, i: nat, gap: bool)
    requires setup.Accepted() && i < k <= |run| && AllAligned(setup, run)
    ensures AllAligned(setup, run[..k]) && SegmentRow(setup, run[..k], i, gap) == SegmentRow(setup, run, i, gap)
  {
    hide Fill, ValidateRow, Resolve;
    FillCausal(setup, setup.specs, run, k, i, gap);
  }

  // ----- computing the rows of a run

  method BuildArrays(setup: Setup, run: seq<SnapshotBar>) returns (arrays: seq<Series>)
    requires setup.Accepted() && AllAligned(setup, run)
    ensures |arrays| == |setup.specs|
    ensures forall s | 0 <= s < |setup.specs| :: SpecSeries(setup, setup.specs[s], run) == Ok(arrays[s])
  {
    hide SpecSeries, Resolve, AllAligned;
    arrays := [];
    for s := 0 to |setup.specs|
      invariant |arrays| == s
      invariant forall u | 0 <= u < s :: SpecSeries(setup, setup.specs[u], run) == Ok(arrays[u])
    {
      SeriesDefined(setup, setup.specs[s], run);
      var values := SpecSeries(setup, setup.specs[s], run);
      arrays := arrays + [values.value];
    }
  }

  lemma SeriesDefined(setup: Setup, spec: Spec, run: seq<SnapshotBar>)
    requires Resolve(spec).Ok? && AllAligned(setup, run)
    ensures SpecSeries(setup, spec, run).Ok?
  {
    hide Calculate, ColumnsOf, Formulas.Market;
    RunMarket(run);
    MarketParts(ColumnsOf(run));
    if !spec.name.Clock() {
      LookbackExact(spec, ColumnsOf(run), setup.math);
    }
  }

  method BuildRow(setup: Setup, run: seq<SnapshotBar>, arrays: seq<Series>, i: nat, gap: bool) returns (outcome: Result<FeatureRow>)
    requires setup.Accepted() && AllAligned(setup, run) && i < |run| && |arrays| == |setup.specs|
    requires forall s | 0 <= s < |setup.specs| :: SpecSeries(setup, setup.specs[s], run) == Ok(arrays[s])
    ensures outcome == SegmentRow(setup, run, i, gap)
  {
    hide SpecSeries, CellOf, Resolve, AllAligned, ValidateRow;
    var values: map<string, Option<real>> := map[];
    var reasons: map<string, Unavailable> := map[];
    var specs := setup.specs;
    for s := 0 to |specs|
      invariant Fill(setup, specs[..s], run, i, gap) == Ok((values, reasons))
    {
      assert specs[..s + 1][..s] == specs[..s];
      var cell := CellOf(specs[s], run, arrays[s], i, gap);
      CellNeverFails(setup, specs[s], run, i, gap);
      values := values[specs[s].output := cell.value.value];
      if cell.value.reason.Some? {
        reasons := reasons[specs[s].output := cell.value.reason.value];
      }
    }
    assert specs[..|specs|] == specs;
    var row := RowFrom((values, reasons), run[i], gap && i == 0);
    var checked := ValidateRow(row, specs);
    if checked.Err? {
      return Err(checked.error);
    }
    outcome := Ok(row);
  }

  lemma CellNeverFails(setup: Setup, spec: Spec, run: seq<SnapshotBar>, i: nat, gap: bool)
    requires Resolve(spec).Ok? && i < |run| && AllAligned(setup, run)
    ensures SpecSeries(setup, spec, run).Ok? && CellOf(spec, run, SpecSeries(setup, spec, run).value, i, gap).Ok?
  {
    CellExact(setup, spec, run, i, gap);
  }

  /** All rows of a run; none is ever rejected. */
  method SegmentRows(setup: Setup, run: seq<SnapshotBar>, gap: bool) returns (rows: seq<FeatureRow>)
    requires setup.Accepted() && AllAligned(setup, run)
    ensures |rows| == |run| && forall i | 0 <= i < |run| :: SegmentRow(setup, run, i, gap) == Ok(rows[i])
  {
    hide SegmentRow, Resolve, AllAligned;
    var arrays := BuildArrays(setup, run);
    rows := [];
    for i := 0 to |run|
      invariant |rows| == i
      invariant forall j | 0 <= j < i :: SegmentRow(setup, run, j, gap) == Ok(rows[j])
    {
      RowExact(setup, run, i, gap);
      var row := BuildRow(setup, run, arrays, i, gap);
      rows := rows + [row.value];
    }
  }

  // ----- a whole series: runs of consecutive slots

  predicate Follows(setup: Setup, series: seq<SnapshotBar>, i: nat)
    requires 0 < i < |series|
    requires series[i - 1].bar.timestamp in setup.index && series[i].bar.timestamp in setup.index
  {
    setup.index[series[i].bar.timestamp] == setup.index[series[i - 1].bar.timestamp] + 1
  }

  /** Where the run of candle i begins. */
  function StartOf(setup: Setup, series: seq<SnapshotBar>, i: nat): (start: nat)
    requires i < |series| && AllAligned(setup, series)
    ensures start <= i
  {
    assert Aligned(setup, series[i]);
    if i == 0 then 0
    else
      assert Aligned(setup, series[i - 1]);
      if Follows(setup, series, i) then StartOf(setup, series, i - 1) else i
  }

  /** A run after a gap, or one that misses the range's first slot. */
  predicate AfterGap(setup: Setup, series: seq<SnapshotBar>, start: nat)
    requires start < |series| && AllAligned(setup, series)
  {
    assert Aligned(setup, series[0]);
    start > 0 || setup.index[series[0].bar.timestamp] != 0
  }

  /** The row of candle i: made from its own run, up to candle i. */
  function SeriesRow(setup: Setup, series: seq<SnapshotBar>, i: nat): Result<FeatureRow>
    requires i < |series| && AllAligned(setup, series) && forall s | 0 <= s < |setup.specs| :: Resolve(setup.specs[s]).Ok?
  {
    var start := StartOf(setup, series, i);
    SegmentRow(setup, series[start..i + 1], i - start, AfterGap(setup, series, start))
  }

  /** The runs are maximal: consecutive inside, and not continued from before. */
  lemma {:induction false} RunsMaximal(setup: Setup, series: seq<SnapshotBar>, i: nat)
    requires i < |series| && AllAligned(setup, series)
    ensures var start := StartOf(setup, series, i);
            && (forall j: nat | start < j <= i :: Continues(setup, series, j) && StartOf(setup, series, j) == start)
            && (start > 0 ==> !Continues(setup, series, start))
            && StartOf(setup, series, start) == start
  {
    assert Aligned(setup, series[i]);
    if i > 0 {
      assert Aligned(setup, series[i - 1]);
      if Follows(setup, series, i) {
        RunsMaximal(setup, series, i - 1);
      }
    }
  }

  /** Candle j is in the slot right after candle j - 1. */
  predicate Continues(setup: Setup, series: seq<SnapshotBar>, j: nat)
    requires j < |series| && AllAligned(setup, series)
  {
    j > 0 && (assert Aligned(setup, series[j]) && Aligned(setup, series[j - 1]); Follows(setup, series, j))
  }

  lemma StartCausal(setup: Setup, a: seq<SnapshotBar>, b: seq<SnapshotBar>, k: nat, i: nat)
    requires AllAligned(setup, a) && AllAligned(setup, b) && i < k <= |a| && k <= |b| && a[..k] == b[..k]
    ensures StartOf(setup, a, i) == StartOf(setup, b, i)
  {
    assert a[i] == a[..k][i] && b[i] == b[..k][i];
    if i > 0 {
      assert a[i - 1] == a[..k][i - 1] && b[i - 1] == b[..k][i - 1];
      StartCausal(setup, a, b, k, i - 1);
    }
  }

  /**
   * Causality across gaps: two series of a symbol that agree on their first k candles have the same first k rows,
   * however they go on.
   */
  lemma SeriesCausal(setup: Setup, a: seq<SnapshotBar>, b: seq<SnapshotBar>, k: nat, i: nat)
    requires setup.Accepted() && AllAligned(setup, a) && AllAligned(setup, b)
    requires i < k <= |a| && k <= |b| && a[..k] == b[..k]
    ensures SeriesRow(setup, a, i) == SeriesRow(setup, b, i)
  {
    hide SegmentRow, Resolve;
    StartCausal(setup, a, b, k, i);
    var start := StartOf(setup, a, i);
    SliceAgrees(a, b, k, start, i + 1);
    SliceAgrees(a, b, k, 0, 1);
    assert a[0] == a[0..1][0] && b[0] == b[0..1][0];
  }

  lemma SliceAgrees(a: seq<SnapshotBar>, b: seq<SnapshotBar>, k: nat, from: nat, to: nat)
    requires from <= to <= k <= |a| && k <= |b| && a[..k] == b[..k]
    ensures a[from..to] == b[from..to]
  {
    forall i: nat | from <= i < to
      ensures a[i] == b[i]
    {
      assert a[..k][i] == b[..k][i];
    }
  }

  /** The loop over one symbol's candles: a run is closed at every boundary, and its rows appended. */
  method SeriesRows(setup: Setup, series: seq<SnapshotBar>) returns (output: seq<FeatureRow>)
    requires setup.Accepted() && AllAligned(setup, series) && series != []
    ensures |output| == |series| && forall i | 0 <= i < |series| :: SeriesRow(setup, series, i) == Ok(output[i])
  {
    hide Resolve, AllAligned, SegmentRow;
    var begin := 0;
    AlignedAt(setup, series, 0);
    var gapSegment := setup.index[series[0].bar.timestamp] != 0;
    output := [];
    for i := 1 to |series| + 1
      invariant begin < i && |output| == begin
      invariant begin < |series| ==> i <= |series| && StartOf(setup, series, i - 1) == begin && gapSegment == AfterGap(setup, series, begin)
      invariant begin == |series| <==> i == |series| + 1
      invariant forall j | 0 <= j < begin :: SeriesRow(setup, series, j) == Ok(output[j])
    {
      AlignedAt(setup, series, i - 1);
      if i < |series| {
        AlignedAt(setup, series, i);
      }
      var boundary := i == |series| || setup.index[series[i].bar.timestamp] != setup.index[series[i - 1].bar.timestamp] + 1;
      if boundary {
        AlignedPart(setup, series, begin, i);
        var rows := SegmentRows(setup, series[begin..i], gapSegment);
        RowsOfRun(setup, series, begin, i, gapSegment, rows);
        output := output + rows;
        begin, gapSegment := i, true;
      }
    }
  }

  lemma AlignedAt(setup: Setup, series: seq<SnapshotBar>, i: nat)
    requires AllAligned(setup, series) && i < |series|
    ensures series[i].bar.timestamp in setup.index
  {
    assert Aligned(setup, series[i]);
  }

  lemma AlignedPart(setup: Setup, series: seq<SnapshotBar>, from: nat, to: nat)
    requires AllAligned(setup, series) && from <= to <= |series|
    ensures AllAligned(setup, series[from..to])
  {
    forall i | 0 <= i < to - from
      ensures Aligned(setup, series[from..to][i])
    {
      assert Aligned(setup, series[from + i]);
    }
  }

  /** The rows of a closed run are the rows of its candles. */
  lemma RowsOfRun(setup: Setup, series: seq<SnapshotBar>, begin: nat, end: nat, gap: bool, rows: seq<FeatureRow>)
    requires setup.Accepted() && AllAligned(setup, series) && begin < end <= |series| && |rows| == end - begin
    requires StartOf(setup, series, end - 1) == begin && gap == AfterGap(setup, series, begin)
    requires AllAligned(setup, series[begin..end])
    requires forall i | 0 <= i < |rows| :: SegmentRow(setup, series[begin..end], i, gap) == Ok(rows[i])
    ensures forall j | begin <= j < end :: SeriesRow(setup, series, j) == Ok(rows[j - begin])
  {
    hide SegmentRow, Resolve, AllAligned;
    RunsMaximal(setup, series, end - 1);
    forall j | begin <= j < end
      ensures SeriesRow(setup, series, j) == Ok(rows[j - begin])
    {
      RowCausal(setup, series[begin..end], j + 1 - begin, j - begin, gap);
      assert series[begin..end][..j + 1 - begin] == series[begin..j + 1];
      assert StartOf(setup, series, j) == begin;
    }
  }
}
