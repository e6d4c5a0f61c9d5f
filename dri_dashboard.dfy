/**
 * The composite ranker of the Deployment Rollout Index dashboard.
 *
 * Six raw dimension weights are normalised by their sum (a zero sum is
 * replaced by 1); each project's DRI is the dot product of its six dimension
 * scores with the normalised weights; a project is a "Pilot Candidate" when its
 * DRI reaches the threshold; the table is ranked by DRI, highest first, and the
 * pilots are counted.  The dashboard also carries its own copy of the
 * observability agent, which differs only by guarding each jitter pass with a
 * column-presence test.
 */
module DriDashboard {
  import opened Wrappers
  import opened ObservabilityAgent

  // ---------------------------------------------------------------------------
  // Weights
  // ---------------------------------------------------------------------------

  /** One weight per dimension, raw (slider values) or normalised. */
  datatype Weights = Weights(
    scope: real,
    template: real,
    variance: real,
    dependency: real,
    language: real,
    governance: real)

  function WeightSum(w: Weights): real {
    w.scope + w.template + w.variance + w.dependency + w.language + w.governance
  }

  predicate NonNegative(w: Weights) {
    && 0.0 <= w.scope && 0.0 <= w.template && 0.0 <= w.variance
    && 0.0 <= w.dependency && 0.0 <= w.language && 0.0 <= w.governance
  }

  /** The slider defaults 20, 20, 20, 15, 10, 15. */
  const DefaultWeights := Weights(20.0, 20.0, 20.0, 15.0, 10.0, 15.0)

  /** The slider default of the pilot threshold. */
  const DefaultThreshold := 3.5

  /**
   * Each raw weight divided by the raw sum, or by 1 when that sum is 0: so a
   * zero-sum configuration passes through unchanged, and any other one sums to 1.
   */
  function Normalise(raw: Weights): (w: Weights)
    ensures WeightSum(raw) == 0.0 ==> w == raw
    ensures WeightSum(raw) != 0.0 ==> WeightSum(w) == 1.0
  {
    var sum := if WeightSum(raw) == 0.0 then 1.0 else WeightSum(raw);
    SumOfQuotients(raw, sum);
    assert WeightSum(raw) != 0.0 ==> WeightSum(raw) / sum == 1.0;
    Weights(raw.scope / sum, raw.template / sum, raw.variance / sum,
            raw.dependency / sum, raw.language / sum, raw.governance / sum)
  }

  lemma SumOfQuotients(raw: Weights, sum: real)
    requires sum != 0.0
    ensures raw.scope / sum + raw.template / sum + raw.variance / sum
          + raw.dependency / sum + raw.language / sum + raw.governance / sum
         == WeightSum(raw) / sum
  {
  }

  /**
   * Each normalised weight is its raw weight's share of the raw sum: scaled
   * back by that sum it gives the raw weight again.
   */
  lemma NormaliseRoundTrip(raw: Weights)
    requires WeightSum(raw) != 0.0
    ensures var w, sum := Normalise(raw), WeightSum(raw);
      && w.scope * sum == raw.scope
      && w.template * sum == raw.template
      && w.variance * sum == raw.variance
      && w.dependency * sum == raw.dependency
      && w.language * sum == raw.language
      && w.governance * sum == raw.governance
  {
  }

  /** With all-zero sliders every normalised weight is 0. */
  lemma NormaliseAllZero(raw: Weights)
    requires raw == Weights(0.0, 0.0, 0.0, 0.0, 0.0, 0.0)
    ensures Normalise(raw) == raw
  {
  }

  /** For non-negative weights the sum is 0 only when every weight is. */
  lemma ZeroSumMeansAllZero(raw: Weights)
    requires NonNegative(raw) && WeightSum(raw) == 0.0
    ensures raw == Weights(0.0, 0.0, 0.0, 0.0, 0.0, 0.0)
  {
  }

  /** Non-negative raw weights with a positive sum normalise into [0, 1], summing to 1. */
  lemma NormaliseIsDistribution(raw: Weights)
    requires NonNegative(raw) && WeightSum(raw) > 0.0
    ensures var w := Normalise(raw);
      && NonNegative(w) && WeightSum(w) == 1.0
      && w.scope <= 1.0 && w.template <= 1.0 && w.variance <= 1.0
      && w.dependency <= 1.0 && w.language <= 1.0 && w.governance <= 1.0
  {
    var s := WeightSum(raw);
    QuotientAtMostOne(raw.scope, s);
    QuotientAtMostOne(raw.template, s);
    QuotientAtMostOne(raw.variance, s);
    QuotientAtMostOne(raw.dependency, s);
    QuotientAtMostOne(raw.language, s);
    QuotientAtMostOne(raw.governance, s);
  }

  lemma QuotientAtMostOne(a: real, s: real)
    requires 0.0 <= a <= s && s > 0.0
    ensures 0.0 <= a / s <= 1.0
  {
  }

  /** Normalising an already normalised configuration changes nothing. */
  lemma NormaliseIdempotent(raw: Weights)
    ensures Normalise(Normalise(raw)) == Normalise(raw)
  {
  }

  /** The default sliders normalise to 20%, 20%, 20%, 15%, 10%, 15%. */
  lemma DefaultWeightsNormalised()
    ensures Normalise(DefaultWeights) == Weights(0.2, 0.2, 0.2, 0.15, 0.1, 0.15)
  {
  }

  // ---------------------------------------------------------------------------
  // The dimension-score table
  // ---------------------------------------------------------------------------

  /**
   * One row of the table the ranker consumes: as read back from the agent's
   * CSV file, or the fallback row, possibly edited by the user in half-point steps.
   */
  datatype DimensionRow = DimensionRow(
    project: string,
    scope: real,
    template: real,
    variance: real,
    dependency: real,
    language: real,
    governance: real)

  /** The editor's bounds on every score column. */
  predicate InEditorDomain(row: DimensionRow) {
    && 1.0 <= row.scope <= 5.0 && 1.0 <= row.template <= 5.0 && 1.0 <= row.variance <= 5.0
    && 1.0 <= row.dependency <= 5.0 && 1.0 <= row.language <= 5.0 && 1.0 <= row.governance <= 5.0
  }

  /** An agent score record as the dashboard reads it back from the CSV file. */
  function ToDimensionRow(s: ScoreRecord): (row: DimensionRow)
    ensures InScoreDomain(s) ==> InEditorDomain(row)
  {
    DimensionRow(s.project, s.scope as real, s.template as real, s.variance as real,
                 s.dependency as real, s.language as real, s.governance as real)
  }

  const FallbackRow := DimensionRow("MDG-S Rollout", 4.5, 4.5, 4.0, 3.5, 3.5, 4.0)

  /**
   * `load_observed_scores`, with the file's presence and its parsed rows as
   * inputs: the file's rows when it exists, otherwise the one-row placeholder.
   */
  function LoadObservedScores(fileExists: bool, fileRows: seq<DimensionRow>): (table: seq<DimensionRow>)
    ensures fileExists ==> table == fileRows
    ensures !fileExists ==> |table| == 1 && table[0].project == "MDG-S Rollout"
  {
    if fileExists then fileRows else [FallbackRow]
  }

  /**
   * The placeholder row is exactly "MDG-S Rollout" with scores 4.5, 4.5, 4.0,
   * 3.5, 3.5, 4.0; it lies in the editor's domain, and its half points mark it
   * as something the agent can never have written.
   */
  lemma FallbackTable(fileRows: seq<DimensionRow>)
    ensures LoadObservedScores(false, fileRows)
         == [DimensionRow("MDG-S Rollout", 4.5, 4.5, 4.0, 3.5, 3.5, 4.0)]
    ensures InEditorDomain(FallbackRow)
    ensures forall s: ScoreRecord :: ToDimensionRow(s) != FallbackRow
  {
  }

  // ---------------------------------------------------------------------------
  // The dashboard's copy of the observability agent
  // ---------------------------------------------------------------------------

  /** One jitter pass as the dashboard runs it: only when the column is present. */
  function GuardedJitter(columns: set<string>, rows: seq<RawRecord>, c: JitterColumn, offsets: seq<real>)
    : (out: seq<RawRecord>)
    requires DrawsFit(rows, c, offsets)
    ensures ColumnName(c) !in columns ==> out == rows
    ensures ColumnName(c) in columns ==> out == JitteredColumn(rows, c, offsets)
  {
    if ColumnName(c) in columns then JitteredColumn(rows, c, offsets) else rows
  }

  lemma DrawsFitAfterGuardedJitter(columns: set<string>, rows: seq<RawRecord>, c: JitterColumn, offsets: seq<real>,
                                   c': JitterColumn, offsets': seq<real>)
    requires DrawsFit(rows, c, offsets) && DrawsFit(rows, c', offsets') && c' != c
    ensures DrawsFit(GuardedJitter(columns, rows, c, offsets), c', offsets')
  {
    if ColumnName(c) in columns {
      DrawsFitAfterJitter(rows, c, offsets, c', offsets');
    }
  }

  /**
   * What `run_observability_agent` computes before writing its table: the
   * three guarded jitter passes, then a KeyError for the first absent column
   * the scoring reads, otherwise the score table of the jittered rows.
   */
  function DashboardAgentRun(raw: RawTable, d: Draws): (result: Result<seq<ScoreRecord>, AgentError>)
    requires ValidDraws(raw.rows, d)
    ensures result.Ok? <==> HasAllColumns(raw.columns)
    ensures result.Err? ==> result.error.column in ScoringColumns && result.error.column !in raw.columns
    ensures result.Err? ==> FirstAbsent(raw.columns, ScoringColumns, result.error.column)
  {
    DrawsFitAfterGuardedJitter(raw.columns, raw.rows, EffortDeviation, d.effort, DurationDeviation, d.duration);
    DrawsFitAfterGuardedJitter(raw.columns, raw.rows, EffortDeviation, d.effort, DataReadiness, d.readiness);
    var e := GuardedJitter(raw.columns, raw.rows, EffortDeviation, d.effort);
    DrawsFitAfterGuardedJitter(raw.columns, e, DurationDeviation, d.duration, DataReadiness, d.readiness);
    var du := GuardedJitter(raw.columns, e, DurationDeviation, d.duration);
    var out := GuardedJitter(raw.columns, du, DataReadiness, d.readiness);
    match FirstMissing(raw.columns, ScoringColumns)
    case Some(c) => Err(MissingColumn(c))
    case None => Ok(ScoreTable(out))
  }

  /**
   * The dashboard's agent and the stand-alone agent succeed on the same tables
   * and then produce the same scores; with all three jittered columns present
   * they agree outright.  Where a jittered column is absent, the guard only
   * changes which absent column the KeyError names.
   */
  lemma DashboardAgentAgrees(raw: RawTable, d: Draws)
    requires ValidDraws(raw.rows, d)
    ensures DashboardAgentRun(raw, d).Ok? == AgentRun(raw, d).Ok?
    ensures DashboardAgentRun(raw, d).Ok? ==> DashboardAgentRun(raw, d) == AgentRun(raw, d)
    ensures (&& EffortDeviationColumn in raw.columns
             && DurationDeviationColumn in raw.columns
             && DataReadinessColumn in raw.columns)
            ==> DashboardAgentRun(raw, d) == AgentRun(raw, d)
  {
  }

  /** `run_observability_agent` without its file I/O. */
  method RunObservabilityAgent(raw: RawTable, d: Draws) returns (result: Result<seq<ScoreRecord>, AgentError>)
    requires ValidDraws(raw.rows, d)
    ensures result == DashboardAgentRun(raw, d)
  {
    var table := new RawRecord[|raw.rows|](i requires 0 <= i < |raw.rows| => raw.rows[i]);
    assert table[..] == raw.rows;
    DrawsFitAfterJitter(raw.rows, EffortDeviation, d.effort, DurationDeviation, d.duration);
    DrawsFitAfterJitter(raw.rows, EffortDeviation, d.effort, DataReadiness, d.readiness);
    DrawsFitAfterJitter(raw.rows, DurationDeviation, d.duration, DataReadiness, d.readiness);
    if EffortDeviationColumn in raw.columns {
      ApplyJitter(table, EffortDeviation, d.effort);
      DrawsFitAfterJitter(table[..], DurationDeviation, d.duration, DataReadiness, d.readiness);
    }
    if DurationDeviationColumn in raw.columns {
      ApplyJitter(table, DurationDeviation, d.duration);
    }
    if DataReadinessColumn in raw.columns {
      ApplyJitter(table, DataReadiness, d.readiness);
    }
    var missing := FirstMissing(raw.columns, ScoringColumns);
    if missing.Some? {
      return Err(MissingColumn(missing.value));
    }
    var out := BuildScoreTable(table);
    return Ok(out);
  }

  // ---------------------------------------------------------------------------
  // DRI, pilot flag
  // ---------------------------------------------------------------------------

  /**
   * `compute_dri`: the six-term dot product of a row's scores with the
   * weights.  For scores in the editor's range [1, 5] and non-negative weights
   * it is a weighted average: between the weight sum and five times it.
   */
  function ComputeDri(row: DimensionRow, w: Weights): (dri: real)
    ensures InEditorDomain(row) && NonNegative(w) ==> WeightSum(w) <= dri <= 5.0 * WeightSum(w)
  {
    WeightedSumBounds(row, w);
    row.scope * w.scope + row.template * w.template + row.variance * w.variance
    + row.dependency * w.dependency + row.language * w.language + row.governance * w.governance
  }

  lemma WeightedSumBounds(row: DimensionRow, w: Weights)
    ensures InEditorDomain(row) && NonNegative(w) ==>
      var dri := row.scope * w.scope + row.template * w.template + row.variance * w.variance
        + row.dependency * w.dependency + row.language * w.language + row.governance * w.governance;
      WeightSum(w) <= dri <= 5.0 * WeightSum(w)
  {
    if InEditorDomain(row) && NonNegative(w) {
      var p1 := TermBounds(row.scope, w.scope);
      var p2 := TermBounds(row.template, w.template);
      var p3 := TermBounds(row.variance, w.variance);
      var p4 := TermBounds(row.dependency, w.dependency);
      var p5 := TermBounds(row.language, w.language);
      var p6 := TermBounds(row.governance, w.governance);
    }
  }

  /** With weights summing to 1, a project scoring c on every dimension has DRI c. */
  lemma DriOfUniformScores(project: string, c: real, w: Weights)
    requires WeightSum(w) == 1.0
    ensures ComputeDri(DimensionRow(project, c, c, c, c, c, c), w) == c
  {
    assert ComputeDri(DimensionRow(project, c, c, c, c, c, c), w) == c * WeightSum(w);
  }

  /** Scores in [1, 5] and non-negative weights summing to 1 give a DRI in [1, 5]. */
  lemma DriBounds(row: DimensionRow, w: Weights)
    requires InEditorDomain(row) && NonNegative(w) && WeightSum(w) == 1.0
    ensures 1.0 <= ComputeDri(row, w) <= 5.0
  {
  }

  /** One weighted score lies between its weight and five times its weight. */
  lemma TermBounds(s: real, w: real) returns (p: real)
    requires 1.0 <= s <= 5.0 && 0.0 <= w
    ensures p == s * w
    ensures w <= p <= 5.0 * w
  {
    p := s * w;
    NonNegativeProduct(s - 1.0, w);
    NonNegativeProduct(5.0 - s, w);
  }

  lemma NonNegativeProduct(x: real, y: real)
    requires 0.0 <= x && 0.0 <= y
    ensures 0.0 <= x * y
  {
  }

  /** Under non-negative weights, raising any dimension score never lowers the DRI. */
  lemma DriMonotone(a: DimensionRow, b: DimensionRow, w: Weights)
    requires NonNegative(w)
    requires && a.scope <= b.scope && a.template <= b.template && a.variance <= b.variance
             && a.dependency <= b.dependency && a.language <= b.language && a.governance <= b.governance
    ensures ComputeDri(a, w) <= ComputeDri(b, w)
  {
    var d1 := TermMonotone(a.scope, b.scope, w.scope);
    var d2 := TermMonotone(a.template, b.template, w.template);
    var d3 := TermMonotone(a.variance, b.variance, w.variance);
    var d4 := TermMonotone(a.dependency, b.dependency, w.dependency);
    var d5 := TermMonotone(a.language, b.language, w.language);
    var d6 := TermMonotone(a.governance, b.governance, w.governance);
    assert ComputeDri(b, w) - ComputeDri(a, w) == d1 + d2 + d3 + d4 + d5 + d6;
  }

  /** Raising one score raises its weighted term by a non-negative amount. */
  lemma TermMonotone(x: real, y: real, w: real) returns (gain: real)
    requires x <= y && 0.0 <= w
    ensures gain == y * w - x * w
    ensures 0.0 <= gain
  {
    gain := y * w - x * w;
    NonNegativeProduct(y - x, w);
  }

  /** The "Pilot Candidate" column: "Yes" exactly when the DRI reaches the threshold. */
  function PilotFlag(dri: real, threshold: real): (flag: string)
    ensures flag == "Yes" <==> dri >= threshold
    ensures flag == "No" <==> dri < threshold
  {
    if dri >= threshold then "Yes" else "No"
  }

  // ---------------------------------------------------------------------------
  // Ranking
  // ---------------------------------------------------------------------------

  /** A row of the edited table with its "DRI Score" and "Pilot Candidate" columns added. */
  datatype RankedRow = RankedRow(scores: DimensionRow, dri: real, pilot: string)

  function RankRow(row: DimensionRow, w: Weights, threshold: real): (r: RankedRow)
    ensures r.scores == row && RankedCorrectly(r, w, threshold)
  {
    var dri := ComputeDri(row, w);
    RankedRow(row, dri, PilotFlag(dri, threshold))
  }

  /** The edited table with the two computed columns added, in its own row order. */
  function Scored(rows: seq<DimensionRow>, w: Weights, threshold: real): (out: seq<RankedRow>)
    ensures |out| == |rows| && FlagsAgree(out, threshold)
    ensures forall i :: 0 <= i < |rows| ==> out[i].scores == rows[i] && RankedCorrectly(out[i], w, threshold)
  {
    seq(|rows|, i requires 0 <= i < |rows| => RankRow(rows[i], w, threshold))
  }

  /** Each row's flag says whether its DRI reaches the threshold. */
  predicate FlagsAgree(rows: seq<RankedRow>, threshold: real) {
    forall i :: 0 <= i < |rows| ==> (rows[i].pilot == "Yes" <==> rows[i].dri >= threshold)
  }

  predicate SortedByDri(rows: seq<RankedRow>) {
    forall i, j :: 0 <= i < j < |rows| ==> rows[i].dri >= rows[j].dri
  }

  /** Inserts `x` into a table sorted by DRI, before the first row whose DRI is not larger. */
  function Insert(x: RankedRow, rows: seq<RankedRow>): (out: seq<RankedRow>)
    requires SortedByDri(rows)
    ensures |out| == |rows| + 1
    ensures out[0] == if rows == [] || x.dri >= rows[0].dri then x else rows[0]
    ensures multiset(out) == multiset(rows) + multiset{x}
    ensures SortedByDri(out)
  {
    if rows == [] || x.dri >= rows[0].dri then [x] + rows
    else
      var rest := Insert(x, rows[1..]);
      assert rows == [rows[0]] + rows[1..];
      PrependSorted(rows[0], rest);
      [rows[0]] + rest
  }

  lemma PrependSorted(head: RankedRow, rows: seq<RankedRow>)
    requires SortedByDri(rows)
    requires rows != [] ==> rows[0].dri <= head.dri
    ensures SortedByDri([head] + rows)
  {
    var out := [head] + rows;
    forall i, j | 0 <= i < j < |out|
      ensures out[i].dri >= out[j].dri
    {
      if i == 0 {
        assert out[j] == rows[j - 1];
        assert rows[0].dri >= rows[j - 1].dri;
      } else {
        assert out[i] == rows[i - 1] && out[j] == rows[j - 1];
      }
    }
  }

  /**
   * `sort_values("DRI Score", ascending=False)`: a permutation of the table with
   * the DRI non-increasing from first to last row.  Rows with equal DRI keep
   * their input order (see SortByDriStable).
   */
  function SortByDri(rows: seq<RankedRow>): (out: seq<RankedRow>)
    ensures |out| == |rows|
    ensures multiset(out) == multiset(rows)
    ensures SortedByDri(out)
  {
    if rows == [] then []
    else
      assert rows == [rows[0]] + rows[1..];
      Insert(rows[0], SortByDri(rows[1..]))
  }

  /** The rows whose DRI equals `d`, in table order. */
  function WithDri(rows: seq<RankedRow>, d: real): seq<RankedRow> {
    if rows == [] then []
    else (if rows[0].dri == d then [rows[0]] else []) + WithDri(rows[1..], d)
  }

  lemma {:induction false} WithDriConcat(a: seq<RankedRow>, b: seq<RankedRow>, d: real)
    ensures WithDri(a + b, d) == WithDri(a, d) + WithDri(b, d)
  {
    if a != [] {
      assert (a + b)[0] == a[0] && (a + b)[1..] == a[1..] + b;
      WithDriConcat(a[1..], b, d);
    } else {
      assert a + b == b;
    }
  }

  lemma {:induction false} InsertStable(x: RankedRow, rows: seq<RankedRow>, d: real)
    requires SortedByDri(rows)
    ensures WithDri(Insert(x, rows), d) == WithDri([x], d) + WithDri(rows, d)
  {
    if rows == [] || x.dri >= rows[0].dri {
      WithDriConcat([x], rows, d);
    } else {
      var head, tail := rows[0], rows[1..];
      assert rows == [head] + tail;
      InsertStable(x, tail, d);
      WithDriConcat([head], Insert(x, tail), d);
      WithDriConcat([head], tail, d);
      var hx, wx := WithDri([head], d), WithDri([x], d);
      assert hx == (if head.dri == d then [head] else []) + WithDri([], d) by {
        assert [head][1..] == [];
      }
      assert wx == (if x.dri == d then [x] else []) + WithDri([], d) by {
        assert [x][1..] == [];
      }
      assert hx == [] || wx == [];
      assert hx + wx == wx + hx;
    }
  }

  /** Rows with equal DRI appear in the ranked table in the same relative order as in the input. */
  lemma {:induction false} SortByDriStable(rows: seq<RankedRow>, d: real)
    ensures WithDri(SortByDri(rows), d) == WithDri(rows, d)
  {
    if rows != [] {
      SortByDriStable(rows[1..], d);
      InsertStable(rows[0], SortByDri(rows[1..]), d);
      assert WithDri([rows[0]], d) == (if rows[0].dri == d then [rows[0]] else []) + WithDri([rows[0]][1..], d);
      assert [rows[0]][1..] == [];
    }
  }

  /** `(sorted_df["Pilot Candidate"] == "Yes").sum()`. */
  function PilotCount(rows: seq<RankedRow>): (n: nat)
    ensures n <= |rows|
  {
    if rows == [] then 0
    else (if rows[0].pilot == "Yes" then 1 else 0) + PilotCount(rows[1..])
  }

  /** The number of rows whose DRI reaches the threshold. */
  function CountAtLeast(rows: seq<RankedRow>, threshold: real): (n: nat)
    ensures n <= |rows|
  {
    if rows == [] then 0
    else (if rows[0].dri >= threshold then 1 else 0) + CountAtLeast(rows[1..], threshold)
  }

  /** Counting "Yes" flags counts the rows whose DRI reaches the threshold. */
  lemma {:induction false} PilotCountIsCountAtLeast(rows: seq<RankedRow>, threshold: real)
    requires FlagsAgree(rows, threshold)
    ensures PilotCount(rows) == CountAtLeast(rows, threshold)
  {
    if rows != [] {
      assert rows[0].pilot == "Yes" <==> rows[0].dri >= threshold;
      PilotCountIsCountAtLeast(rows[1..], threshold);
    }
  }

  lemma {:induction false} PilotCountInsert(x: RankedRow, rows: seq<RankedRow>)
    requires SortedByDri(rows)
    ensures PilotCount(Insert(x, rows)) == PilotCount([x]) + PilotCount(rows)
  {
    var out := Insert(x, rows);
    assert PilotCount([x]) == (if x.pilot == "Yes" then 1 else 0) + PilotCount([x][1..]);
    assert [x][1..] == [];
    if rows == [] || x.dri >= rows[0].dri {
      assert out[1..] == rows;
    } else {
      PilotCountInsert(x, rows[1..]);
      assert out[1..] == Insert(x, rows[1..]);
    }
  }

  /** Sorting does not change how many pilots there are. */
  lemma {:induction false} PilotCountSorted(rows: seq<RankedRow>)
    ensures PilotCount(SortByDri(rows)) == PilotCount(rows)
  {
    if rows != [] {
      PilotCountSorted(rows[1..]);
      PilotCountInsert(rows[0], SortByDri(rows[1..]));
      assert PilotCount([rows[0]]) == (if rows[0].pilot == "Yes" then 1 else 0) + PilotCount([rows[0]][1..]);
      assert [rows[0]][1..] == [];
    }
  }

  /** In a table ranked by DRI with agreeing flags, the pilots are exactly the first PilotCount rows. */
  lemma {:induction false} PilotsArePrefix(rows: seq<RankedRow>, threshold: real)
    requires SortedByDri(rows) && FlagsAgree(rows, threshold)
    ensures forall i :: 0 <= i < |rows| ==> (rows[i].pilot == "Yes" <==> i < PilotCount(rows))
  {
    if rows != [] {
      var tail := rows[1..];
      assert SortedByDri(tail) && FlagsAgree(tail, threshold);
      PilotsArePrefix(tail, threshold);
      if rows[0].pilot != "Yes" {
        assert forall i :: 0 <= i < |rows| ==> rows[i].dri <= rows[0].dri < threshold;
      }
      forall i | 0 < i < |rows|
        ensures rows[i].pilot == "Yes" <==> i < PilotCount(rows)
      {
        assert rows[i] == tail[i - 1];
      }
    }
  }

  /** A row whose DRI and flag are the ones computed from its scores. */
  predicate RankedCorrectly(r: RankedRow, w: Weights, threshold: real) {
    && r.dri == ComputeDri(r.scores, w)
    && (r.pilot == "Yes" <==> r.dri >= threshold)
  }

  /**
   * Every row of the ranked table is a scored input row: its DRI and flag are
   * those of its scores, and under editor-domain scores and non-negative
   * weights summing to 1 its DRI lies in [1, 5].
   */
  lemma RankedRowsCorrect(edited: seq<DimensionRow>, w: Weights, threshold: real)
    ensures var ranked := SortByDri(Scored(edited, w, threshold));
      forall i :: 0 <= i < |ranked| ==> RankedCorrectly(ranked[i], w, threshold)
    ensures var ranked := SortByDri(Scored(edited, w, threshold));
      (forall i :: 0 <= i < |edited| ==> InEditorDomain(edited[i])) && NonNegative(w) && WeightSum(w) == 1.0
      ==> forall i :: 0 <= i < |ranked| ==> 1.0 <= ranked[i].dri <= 5.0
  {
    var scored := Scored(edited, w, threshold);
    var ranked := SortByDri(scored);
    forall i | 0 <= i < |ranked|
      ensures RankedCorrectly(ranked[i], w, threshold)
      ensures (forall j :: 0 <= j < |edited| ==> InEditorDomain(edited[j])) && NonNegative(w) && WeightSum(w) == 1.0
              ==> 1.0 <= ranked[i].dri <= 5.0
    {
      assert ranked[i] in multiset(ranked);
      assert ranked[i] in scored;
      var k :| 0 <= k < |scored| && scored[k] == ranked[i];
      if (forall j :: 0 <= j < |edited| ==> InEditorDomain(edited[j])) && NonNegative(w) && WeightSum(w) == 1.0 {
        DriBounds(edited[k], w);
      }
    }
  }

  lemma SortKeepsFlags(rows: seq<RankedRow>, threshold: real)
    requires FlagsAgree(rows, threshold)
    ensures FlagsAgree(SortByDri(rows), threshold)
  {
    var ranked := SortByDri(rows);
    forall i | 0 <= i < |ranked|
      ensures ranked[i].pilot == "Yes" <==> ranked[i].dri >= threshold
    {
      assert ranked[i] in multiset(ranked);
      assert ranked[i] in rows;
    }
  }

  /** The pilot count of the ranked table, and where the pilots stand in it. */
  lemma RankedPilots(scored: seq<RankedRow>, threshold: real)
    requires FlagsAgree(scored, threshold)
    ensures PilotCount(SortByDri(scored)) == CountAtLeast(scored, threshold)
    ensures var ranked := SortByDri(scored);
      forall i :: 0 <= i < |ranked| ==> (ranked[i].pilot == "Yes" <==> i < PilotCount(ranked))
  {
    SortKeepsFlags(scored, threshold);
    PilotCountSorted(scored);
    PilotCountIsCountAtLeast(scored, threshold);
    PilotsArePrefix(SortByDri(scored), threshold);
  }

  /** Adds the "DRI Score" and "Pilot Candidate" columns to the edited table, row by row. */
  method AddRankColumns(edited: seq<DimensionRow>, weights: Weights, threshold: real)
    returns (scored: seq<RankedRow>)
    ensures scored == Scored(edited, weights, threshold)
  {
    scored := [];
    for i := 0 to |edited|
      invariant |scored| == i
      invariant forall k :: 0 <= k < i ==> scored[k] == RankRow(edited[k], weights, threshold)
    {
      var dri := ComputeDri(edited[i], weights);
      scored := scored + [RankedRow(edited[i], dri, PilotFlag(dri, threshold))];
    }
  }

  /**
   * The ranking stage of the dashboard: adds the "DRI Score" and "Pilot
   * Candidate" columns to the edited table, sorts it by DRI, highest first, and
   * counts the pilots and the rows.
   */
  method Rank(edited: seq<DimensionRow>, rawWeights: Weights, threshold: real)
    returns (ranked: seq<RankedRow>, pilots: nat, total: nat)
    ensures total == |ranked| == |edited|
    ensures multiset(ranked) == multiset(Scored(edited, Normalise(rawWeights), threshold))
    ensures SortedByDri(ranked)
    ensures forall i :: 0 <= i < |ranked| ==> RankedCorrectly(ranked[i], Normalise(rawWeights), threshold)
    ensures forall d :: WithDri(ranked, d) == WithDri(Scored(edited, Normalise(rawWeights), threshold), d)
    ensures pilots == CountAtLeast(Scored(edited, Normalise(rawWeights), threshold), threshold)
    ensures forall i :: 0 <= i < |ranked| ==> (ranked[i].pilot == "Yes" <==> i < pilots)
    ensures (forall i :: 0 <= i < |edited| ==> InEditorDomain(edited[i]))
            && NonNegative(rawWeights) && WeightSum(rawWeights) > 0.0
            ==> forall i :: 0 <= i < |ranked| ==> 1.0 <= ranked[i].dri <= 5.0
  {
    var weights := Normalise(rawWeights);
    var scored := AddRankColumns(edited, weights, threshold);
    ranked := SortByDri(scored);
    forall d
      ensures WithDri(ranked, d) == WithDri(scored, d)
    {
      SortByDriStable(scored, d);
    }
    RankedRowsCorrect(edited, weights, threshold);
    if NonNegative(rawWeights) && WeightSum(rawWeights) > 0.0 {
      NormaliseIsDistribution(rawWeights);
    }
    RankedPilots(scored, threshold);
    total := |ranked|;
    pilots := PilotCount(ranked);
  }

  // ---------------------------------------------------------------------------
  // End-to-end
  // ---------------------------------------------------------------------------

  /** The top project's scores give DRI 5.0 under the default weights, a pilot at 3.5. */
  lemma TopProjectDri()
    ensures ComputeDri(ToDimensionRow(ScoreRecord("P1", 5, 5, 5, 5, 5, 5)), Normalise(DefaultWeights)) == 5.0
    ensures PilotFlag(5.0, DefaultThreshold) == "Yes"
  {
    DefaultWeightsNormalised();
    DriOfUniformScores("P1", 5.0, Normalise(DefaultWeights));
  }

  /** The placeholder project under the default weights has DRI 4.075 and is a pilot at 3.5. */
  lemma FallbackScenario()
    ensures ComputeDri(FallbackRow, Normalise(DefaultWeights)) == 4.075
    ensures PilotFlag(4.075, DefaultThreshold) == "Yes"
  {
    DefaultWeightsNormalised();
  }

  /**
   * Whatever the raw table and the draws, the scores the agent stores, ranked
   * under non-negative weights with a positive sum, have a DRI in [1, 5].
   */
  lemma AgentOutputDriBounds(raw: RawTable, d: Draws, rawWeights: Weights, k: nat)
    requires ValidDraws(raw.rows, d) && AgentRun(raw, d).Ok?
    requires NonNegative(rawWeights) && WeightSum(rawWeights) > 0.0
    requires k < |AgentRun(raw, d).value|
    ensures 1.0 <= ComputeDri(ToDimensionRow(AgentRun(raw, d).value[k]), Normalise(rawWeights)) <= 5.0
  {
    NormaliseIsDistribution(rawWeights);
    DriBounds(ToDimensionRow(AgentRun(raw, d).value[k]), Normalise(rawWeights));
  }
}
