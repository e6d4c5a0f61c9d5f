/**
 * The observability agent of the Deployment Rollout Index.
 *
 * It reads one raw rollout-metrics table, perturbs three of its columns with a
 * clamped random offset ("jitter") to simulate fresh telemetry, and maps every
 * row to six integer dimension scores in 1..5 through fixed threshold ladders.
 * The random offsets are parameters of the model (a `Draws` value); reading
 * and writing the CSV files is not modelled.
 */
module ObservabilityAgent {
  import opened Wrappers

  // ---------------------------------------------------------------------------
  // Raw table
  // ---------------------------------------------------------------------------

  const ProjectIdColumn := "project_id"
  const RolloutsDoneColumn := "rollouts_done"
  const TemplateChangesColumn := "template_changes_last3"
  const EffortDeviationColumn := "avg_effort_deviation_pct"
  const DurationDeviationColumn := "avg_duration_deviation_pct"
  const IntegrationsColumn := "integrations_count"
  const IncidentsColumn := "dependency_incidents_last3"
  const WorkshopsColumn := "business_workshops"
  const LocalisationColumn := "localisation_changes"
  const DataReadinessColumn := "data_readiness_pct"
  const FailedGatesColumn := "failed_quality_gates_last3"

  /** The columns the scoring pass reads, in the order in which it first reads them. */
  const ScoringColumns: seq<string> := [
    ProjectIdColumn, RolloutsDoneColumn, TemplateChangesColumn,
    EffortDeviationColumn, DurationDeviationColumn,
    IntegrationsColumn, IncidentsColumn,
    WorkshopsColumn, LocalisationColumn,
    DataReadinessColumn, FailedGatesColumn
  ]

  /** One project's raw metrics: one row of the raw table. */
  datatype RawRecord = RawRecord(
    projectId: string,
    rolloutsDone: int,
    templateChanges: int,
    effortDeviation: real,
    durationDeviation: real,
    integrations: int,
    incidents: int,
    workshops: int,
    localisationChanges: int,
    dataReadiness: real,
    failedGates: int)

  /**
   * A raw table: the names of the columns it has, and its rows.  A field of a
   * row whose column is absent from `columns` stands for nothing and is never read.
   */
  datatype RawTable = RawTable(columns: set<string>, rows: seq<RawRecord>)

  predicate HasAllColumns(columns: set<string>) {
    forall c :: c in ScoringColumns ==> c in columns
  }

  /** One row of the dimension-score table the agent writes. */
  datatype ScoreRecord = ScoreRecord(
    project: string,
    scope: int,
    template: int,
    variance: int,
    dependency: int,
    language: int,
    governance: int)

  predicate InScoreDomain(s: ScoreRecord) {
    && 1 <= s.scope <= 5 && 1 <= s.template <= 5 && 1 <= s.variance <= 5
    && 1 <= s.dependency <= 5 && 1 <= s.language <= 5 && 1 <= s.governance <= 5
  }

  /** Reading a column the table does not have raises a KeyError naming it. */
  datatype AgentError = MissingColumn(column: string)

  /** The first of `wanted` that is not among `columns`, if any. */
  function FirstMissing(columns: set<string>, wanted: seq<string>): (m: Option<string>)
    ensures m.None? <==> forall c :: c in wanted ==> c in columns
    ensures m.Some? ==> FirstAbsent(columns, wanted, m.value)
  {
    if wanted == [] then None
    else if wanted[0] !in columns then Some(wanted[0])
    else
      var m := FirstMissing(columns, wanted[1..]);
      if m.Some? then
        var k :| 0 <= k < |wanted[1..]| && wanted[1..][k] == m.value
                 && forall j :: 0 <= j < k ==> wanted[1..][j] in columns;
        assert wanted[k + 1] == m.value;
        assert forall j :: 0 <= j < k + 1 ==> wanted[j] in columns by {
          forall j | 0 < j < k + 1 ensures wanted[j] in columns {
            assert wanted[j] == wanted[1..][j - 1];
          }
        }
        m
      else m
  }

  /** `c` is absent from `columns`, and it is the first entry of `wanted` that is. */
  predicate FirstAbsent(columns: set<string>, wanted: seq<string>, c: string) {
    && c !in columns
    && exists k :: 0 <= k < |wanted| && wanted[k] == c && forall j :: 0 <= j < k ==> wanted[j] in columns
  }

  // ---------------------------------------------------------------------------
  // Jitter
  // ---------------------------------------------------------------------------

  function Abs(x: real): real {
    if x < 0.0 then -x else x
  }

  /** Python's built-in `max(a, b)`: the first argument unless the second is larger. */
  function Max(a: real, b: real): real {
    if b > a then b else a
  }

  /** Python's built-in `min(a, b)`: the first argument unless the second is smaller. */
  function Min(a: real, b: real): real {
    if b < a then b else a
  }

  /**
   * `jitter(value, pct, min_val, max_val)`, with the uniform draw from
   * [-value*pct, value*pct] passed in as `offset`.  The value plus the offset is
   * raised to `min_val`, then lowered to `max_val`, each only when given.
   */
  function Jitter(value: real, pct: real, minVal: Option<real>, maxVal: Option<real>, offset: real): (r: real)
    requires Abs(offset) <= Abs(value * pct)
    ensures maxVal.Some? ==> r <= maxVal.value
    ensures minVal.Some? && (maxVal.None? || minVal.value <= maxVal.value) ==> minVal.value <= r
    ensures minVal.None? && maxVal.None? ==> r == value + offset
  {
    var v := value + offset;
    var v := if minVal.Some? then Max(minVal.value, v) else v;
    if maxVal.Some? then Min(maxVal.value, v) else v
  }

  /**
   * With both bounds given and in order, jitter is a clamp of the perturbed
   * value into [lo, hi]: it lands in the interval, and it moves the perturbed
   * value only when that value lies outside.
   */
  lemma JitterClamps(value: real, pct: real, lo: real, hi: real, offset: real)
    requires lo <= hi
    requires Abs(offset) <= Abs(value * pct)
    ensures var r := Jitter(value, pct, Some(lo), Some(hi), offset);
      && lo <= r <= hi
      && (lo <= value + offset <= hi ==> r == value + offset)
      && (value + offset < lo ==> r == lo)
      && (hi < value + offset ==> r == hi)
  {
  }

  /** Without bounds, jitter moves the value by at most |value * pct|. */
  lemma JitterUnclampedBound(value: real, pct: real, offset: real)
    requires Abs(offset) <= Abs(value * pct)
    ensures Abs(Jitter(value, pct, None, None, offset) - value) <= Abs(value * pct)
  {
  }

  /** The three jittered columns of the raw table. */
  datatype JitterColumn = EffortDeviation | DurationDeviation | DataReadiness

  function ColumnName(c: JitterColumn): string {
    match c
    case EffortDeviation => EffortDeviationColumn
    case DurationDeviation => DurationDeviationColumn
    case DataReadiness => DataReadinessColumn
  }

  /** The `pct` argument the agent passes for the column. */
  function Pct(c: JitterColumn): real {
    match c
    case EffortDeviation => 0.2
    case DurationDeviation => 0.2
    case DataReadiness => 0.05
  }

  /** The `min_val` argument the agent passes for the column. */
  function MinVal(c: JitterColumn): real {
    match c
    case EffortDeviation => 0.0
    case DurationDeviation => 0.0
    case DataReadiness => 70.0
  }

  /** The `max_val` argument the agent passes for the column. */
  function MaxVal(c: JitterColumn): real {
    match c
    case EffortDeviation => 60.0
    case DurationDeviation => 60.0
    case DataReadiness => 99.0
  }

  function Get(r: RawRecord, c: JitterColumn): real {
    match c
    case EffortDeviation => r.effortDeviation
    case DurationDeviation => r.durationDeviation
    case DataReadiness => r.dataReadiness
  }

  /** The record with column `c` replaced by `v`; every other field is kept. */
  function Put(r: RawRecord, c: JitterColumn, v: real): (r': RawRecord)
    ensures Get(r', c) == v
    ensures forall c' :: c' != c ==> Get(r', c') == Get(r, c')
    ensures r' == r.(effortDeviation := r'.effortDeviation, durationDeviation := r'.durationDeviation,
                     dataReadiness := r'.dataReadiness)
  {
    match c
    case EffortDeviation => r.(effortDeviation := v)
    case DurationDeviation => r.(durationDeviation := v)
    case DataReadiness => r.(dataReadiness := v)
  }

  /** One cell of the `.apply(lambda v: jitter(v, pct, min_val, max_val))` pass over column `c`. */
  function JitterCell(r: RawRecord, c: JitterColumn, offset: real): (r': RawRecord)
    requires Abs(offset) <= Abs(Get(r, c) * Pct(c))
    ensures MinVal(c) <= Get(r', c) <= MaxVal(c)
    ensures MinVal(c) <= Get(r, c) + offset <= MaxVal(c) ==> Get(r', c) == Get(r, c) + offset
    ensures r' == Put(r, c, Get(r', c))
  {
    Put(r, c, Jitter(Get(r, c), Pct(c), Some(MinVal(c)), Some(MaxVal(c)), offset))
  }

  /** `offsets` holds one admissible uniform draw per row for column `c`. */
  predicate DrawsFit(rows: seq<RawRecord>, c: JitterColumn, offsets: seq<real>) {
    && |offsets| == |rows|
    && forall i :: 0 <= i < |rows| ==> Abs(offsets[i]) <= Abs(Get(rows[i], c) * Pct(c))
  }

  /**
   * Column `c` of every row jittered with that row's draw.  Only column `c`
   * changes, and it lands in [MinVal(c), MaxVal(c)].
   */
  function JitteredColumn(rows: seq<RawRecord>, c: JitterColumn, offsets: seq<real>): (out: seq<RawRecord>)
    requires DrawsFit(rows, c, offsets)
    ensures |out| == |rows|
    ensures forall i :: 0 <= i < |rows| ==>
      && MinVal(c) <= Get(out[i], c) <= MaxVal(c)
      && out[i] == Put(rows[i], c, Get(out[i], c))
  {
    seq(|rows|, i requires 0 <= i < |rows| => JitterCell(rows[i], c, offsets[i]))
  }

  /** Jittering one column leaves the draws for another column admissible. */
  lemma DrawsFitAfterJitter(rows: seq<RawRecord>, c: JitterColumn, offsets: seq<real>,
                            c': JitterColumn, offsets': seq<real>)
    requires DrawsFit(rows, c, offsets) && DrawsFit(rows, c', offsets') && c' != c
    ensures DrawsFit(JitteredColumn(rows, c, offsets), c', offsets')
  {
    var out := JitteredColumn(rows, c, offsets);
    forall i | 0 <= i < |rows|
      ensures Get(out[i], c') == Get(rows[i], c')
    {
      assert out[i] == Put(rows[i], c, Get(out[i], c));
    }
  }

  /** The random draws of one agent run: one offset per row for each jittered column. */
  datatype Draws = Draws(effort: seq<real>, duration: seq<real>, readiness: seq<real>)

  predicate ValidDraws(rows: seq<RawRecord>, d: Draws) {
    && DrawsFit(rows, EffortDeviation, d.effort)
    && DrawsFit(rows, DurationDeviation, d.duration)
    && DrawsFit(rows, DataReadiness, d.readiness)
  }

  /**
   * The raw rows after the three jitter passes, effort first, then duration,
   * then data readiness.  Both deviations end in [0, 60], readiness in [70, 99].
   */
  function Jittered(rows: seq<RawRecord>, d: Draws): (out: seq<RawRecord>)
    requires ValidDraws(rows, d)
    ensures |out| == |rows|
    ensures forall i :: 0 <= i < |rows| ==>
      && 0.0 <= out[i].effortDeviation <= 60.0
      && 0.0 <= out[i].durationDeviation <= 60.0
      && 70.0 <= out[i].dataReadiness <= 99.0
    ensures forall i :: 0 <= i < |rows| ==>
      out[i] == rows[i].(
        effortDeviation := Jitter(rows[i].effortDeviation, 0.2, Some(0.0), Some(60.0), d.effort[i]),
        durationDeviation := Jitter(rows[i].durationDeviation, 0.2, Some(0.0), Some(60.0), d.duration[i]),
        dataReadiness := Jitter(rows[i].dataReadiness, 0.05, Some(70.0), Some(99.0), d.readiness[i]))
  {
    DrawsFitAfterJitter(rows, EffortDeviation, d.effort, DurationDeviation, d.duration);
    DrawsFitAfterJitter(rows, EffortDeviation, d.effort, DataReadiness, d.readiness);
    var e := JitteredColumn(rows, EffortDeviation, d.effort);
    DrawsFitAfterJitter(e, DurationDeviation, d.duration, DataReadiness, d.readiness);
    var du := JitteredColumn(e, DurationDeviation, d.duration);
    var out := JitteredColumn(du, DataReadiness, d.readiness);
    assert forall i :: 0 <= i < |rows| ==>
      && Get(out[i], EffortDeviation) == Get(du[i], EffortDeviation) == Get(e[i], EffortDeviation)
      && Get(out[i], DurationDeviation) == Get(du[i], DurationDeviation);
    out
  }

  /** A zero draw leaves a value that already lies within the column's bounds unchanged. */
  lemma JitterZeroDrawInRange(rows: seq<RawRecord>, c: JitterColumn)
    requires forall i :: 0 <= i < |rows| ==> MinVal(c) <= Get(rows[i], c) <= MaxVal(c)
    ensures DrawsFit(rows, c, seq(|rows|, i => 0.0))
    ensures JitteredColumn(rows, c, seq(|rows|, i => 0.0)) == rows
  {
    var zeros := seq(|rows|, i => 0.0);
    var out := JitteredColumn(rows, c, zeros);
    forall i | 0 <= i < |rows|
      ensures out[i] == rows[i]
    {
      assert Get(out[i], c) == Get(rows[i], c);
      match c
      case EffortDeviation =>
      case DurationDeviation =>
      case DataReadiness =>
    }
  }

  // ---------------------------------------------------------------------------
  // Scoring ladders
  // ---------------------------------------------------------------------------

  /** Scope Repeatability, from `rollouts_done`. */
  function ScopeRepeatability(rolloutsDone: int): (s: int)
    ensures 1 <= s <= 5
  {
    if rolloutsDone >= 10 then 5
    else if rolloutsDone >= 6 then 4
    else if rolloutsDone >= 3 then 3
    else if rolloutsDone >= 1 then 2
    else 1
  }

  /** The scope ladder as disjoint intervals of `rollouts_done`. */
  lemma ScopeRepeatabilityTiers(n: int)
    ensures var s := ScopeRepeatability(n);
      && (s == 5 <==> 10 <= n)
      && (s == 4 <==> 6 <= n <= 9)
      && (s == 3 <==> 3 <= n <= 5)
      && (s == 2 <==> 1 <= n <= 2)
      && (s == 1 <==> n <= 0)
  {
  }

  /** More completed rollouts never lower the scope score. */
  lemma ScopeRepeatabilityMonotone(a: int, b: int)
    requires a <= b
    ensures ScopeRepeatability(a) <= ScopeRepeatability(b)
  {
  }

  /** Template Maturity, from `template_changes_last3`. */
  function TemplateMaturity(changes: int): (s: int)
    ensures 1 <= s <= 5
  {
    if changes == 0 then 5
    else if changes == 1 then 4
    else if changes == 2 then 3
    else if changes == 3 then 2
    else 1
  }

  /** Zero to three template changes score 5 down to 2; any other count scores 1. */
  lemma TemplateMaturityTiers(changes: int)
    ensures 0 <= changes <= 3 ==> TemplateMaturity(changes) == 5 - changes
    ensures (changes < 0 || changes > 3) ==> TemplateMaturity(changes) == 1
  {
  }

  /** Over non-negative counts, more template changes never raise the score. */
  lemma TemplateMaturityAntitone(a: int, b: int)
    requires 0 <= a <= b
    ensures TemplateMaturity(b) <= TemplateMaturity(a)
  {
  }

  /** Variance Predictability, from the larger of the two deviation percentages. */
  function VariancePredictability(effortDeviation: real, durationDeviation: real): (s: int)
    ensures 1 <= s <= 5
  {
    var dev := Max(effortDeviation, durationDeviation);
    if dev <= 10.0 then 5
    else if dev <= 15.0 then 4
    else if dev <= 25.0 then 3
    else if dev <= 35.0 then 2
    else 1
  }

  /** The variance ladder as disjoint intervals of the larger deviation. */
  lemma VariancePredictabilityTiers(effort: real, duration: real)
    ensures var dev := if effort >= duration then effort else duration;
      var s := VariancePredictability(effort, duration);
      && (s == 5 <==> dev <= 10.0)
      && (s == 4 <==> 10.0 < dev <= 15.0)
      && (s == 3 <==> 15.0 < dev <= 25.0)
      && (s == 2 <==> 25.0 < dev <= 35.0)
      && (s == 1 <==> 35.0 < dev)
  {
  }

  /** The score depends on the two deviations only through their maximum. */
  lemma VariancePredictabilityDependsOnMax(e1: real, d1: real, e2: real, d2: real)
    requires Max(e1, d1) == Max(e2, d2)
    ensures VariancePredictability(e1, d1) == VariancePredictability(e2, d2)
  {
  }

  lemma VariancePredictabilitySymmetric(effort: real, duration: real)
    ensures VariancePredictability(effort, duration) == VariancePredictability(duration, effort)
  {
  }

  /** A larger deviation, in either input, never raises the score. */
  lemma VariancePredictabilityAntitone(e1: real, d1: real, e2: real, d2: real)
    requires e1 <= e2 && d1 <= d2
    ensures VariancePredictability(e2, d2) <= VariancePredictability(e1, d1)
  {
  }

  /** Dependency Complexity, from `integrations_count` and `dependency_incidents_last3`. */
  function DependencyComplexity(integrations: int, incidents: int): (s: int)
    ensures 1 <= s <= 5
  {
    if integrations <= 2 && incidents == 0 then 5
    else if integrations <= 3 && incidents <= 1 then 4
    else if integrations <= 4 && incidents <= 2 then 3
    else if integrations <= 5 && incidents <= 4 then 2
    else 1
  }

  /** A tier is reached exactly when BOTH of its conditions hold. */
  lemma DependencyComplexityTiers(integrations: int, incidents: int)
    ensures var s := DependencyComplexity(integrations, incidents);
      && (s == 5 <==> integrations <= 2 && incidents == 0)
      && (s >= 4 <==> integrations <= 3 && incidents <= 1)
      && (s >= 3 <==> integrations <= 4 && incidents <= 2)
      && (s >= 2 <==> integrations <= 5 && incidents <= 4)
  {
  }

  /** More integrations, or more incidents over non-negative counts, never raise the score. */
  lemma DependencyComplexityAntitone(i1: int, n1: int, i2: int, n2: int)
    requires i1 <= i2 && 0 <= n1 <= n2
    ensures DependencyComplexity(i2, n2) <= DependencyComplexity(i1, n1)
  {
  }

  /** One integration qualifies for tier 5, but three incidents hold the score at 2. */
  lemma DependencyComplexityMixedTiers()
    ensures DependencyComplexity(1, 3) == 2
  {
  }

  /** Language / Business Intensity, from `business_workshops` and `localisation_changes`. */
  function LanguageIntensity(workshops: int, localisationChanges: int): (s: int)
    ensures 1 <= s <= 5
  {
    if workshops <= 2 && localisationChanges == 0 then 5
    else if workshops <= 3 && localisationChanges <= 1 then 4
    else if workshops <= 4 && localisationChanges <= 1 then 3
    else if workshops <= 6 && localisationChanges <= 3 then 2
    else 1
  }

  /** A tier is reached exactly when BOTH of its conditions hold. */
  lemma LanguageIntensityTiers(workshops: int, loc: int)
    ensures var s := LanguageIntensity(workshops, loc);
      && (s == 5 <==> workshops <= 2 && loc == 0)
      && (s >= 4 <==> workshops <= 3 && loc <= 1)
      && (s >= 3 <==> workshops <= 4 && loc <= 1)
      && (s >= 2 <==> workshops <= 6 && loc <= 3)
  {
  }

  /** More workshops, or more localisation changes over non-negative counts, never raise the score. */
  lemma LanguageIntensityAntitone(w1: int, l1: int, w2: int, l2: int)
    requires w1 <= w2 && 0 <= l1 <= l2
    ensures LanguageIntensity(w2, l2) <= LanguageIntensity(w1, l1)
  {
  }

  /** Four workshops and no localisation change score 3. */
  lemma LanguageIntensityFourWorkshops()
    ensures LanguageIntensity(4, 0) == 3
  {
  }

  /** Governance & Data Readiness, from `data_readiness_pct` and `failed_quality_gates_last3`. */
  function GovernanceReadiness(readiness: real, failed: int): (s: int)
    ensures 1 <= s <= 5
  {
    if readiness >= 95.0 && failed == 0 then 5
    else if readiness >= 92.0 && failed <= 1 then 4
    else if readiness >= 88.0 && failed <= 2 then 3
    else if readiness >= 80.0 && failed <= 3 then 2
    else 1
  }

  /** A tier is reached exactly when BOTH of its conditions hold; 5 iff readiness >= 95 with no failed gate. */
  lemma GovernanceReadinessTiers(readiness: real, failed: int)
    ensures var s := GovernanceReadiness(readiness, failed);
      && (s == 5 <==> readiness >= 95.0 && failed == 0)
      && (s >= 4 <==> readiness >= 92.0 && failed <= 1)
      && (s >= 3 <==> readiness >= 88.0 && failed <= 2)
      && (s >= 2 <==> readiness >= 80.0 && failed <= 3)
  {
  }

  /** Higher readiness never lowers the score; more failed gates (from zero up) never raise it. */
  lemma GovernanceReadinessMonotone(r1: real, f1: int, r2: real, f2: int)
    requires r1 <= r2 && 0 <= f2 <= f1
    ensures GovernanceReadiness(r1, f1) <= GovernanceReadiness(r2, f2)
  {
  }

  // ---------------------------------------------------------------------------
  // Scoring pass
  // ---------------------------------------------------------------------------

  /** The six ladders applied to one (jittered) raw row, under the row's project id. */
  function ScoreRow(r: RawRecord): (s: ScoreRecord)
    ensures s.project == r.projectId && InScoreDomain(s)
  {
    ScoreRecord(
      r.projectId,
      ScopeRepeatability(r.rolloutsDone),
      TemplateMaturity(r.templateChanges),
      VariancePredictability(r.effortDeviation, r.durationDeviation),
      DependencyComplexity(r.integrations, r.incidents),
      LanguageIntensity(r.workshops, r.localisationChanges),
      GovernanceReadiness(r.dataReadiness, r.failedGates))
  }

  /** One score record per raw row, in the same order. */
  function ScoreTable(rows: seq<RawRecord>): (out: seq<ScoreRecord>)
    ensures |out| == |rows|
    ensures forall i :: 0 <= i < |rows| ==> out[i].project == rows[i].projectId && InScoreDomain(out[i])
  {
    seq(|rows|, i requires 0 <= i < |rows| => ScoreRow(rows[i]))
  }

  /**
   * What `run_agent` computes before writing its table: a KeyError for the
   * first column it reads that is absent (the three jittered columns are read
   * first), otherwise the score table of the jittered rows.
   */
  function AgentRun(raw: RawTable, d: Draws): (result: Result<seq<ScoreRecord>, AgentError>)
    requires ValidDraws(raw.rows, d)
    ensures result.Ok? <==> HasAllColumns(raw.columns)
    ensures result.Err? ==> result.error.column in ScoringColumns && result.error.column !in raw.columns
    ensures EffortDeviationColumn !in raw.columns ==> result == Err(MissingColumn(EffortDeviationColumn))
    ensures EffortDeviationColumn in raw.columns && DurationDeviationColumn !in raw.columns
            ==> result == Err(MissingColumn(DurationDeviationColumn))
    ensures EffortDeviationColumn in raw.columns && DurationDeviationColumn in raw.columns
            && DataReadinessColumn !in raw.columns
            ==> result == Err(MissingColumn(DataReadinessColumn))
    ensures (&& EffortDeviationColumn in raw.columns
             && DurationDeviationColumn in raw.columns
             && DataReadinessColumn in raw.columns
             && result.Err?)
            ==> FirstAbsent(raw.columns, ScoringColumns, result.error.column)
    ensures result.Ok? ==>
      && |result.value| == |raw.rows|
      && forall i :: 0 <= i < |raw.rows| ==>
           && result.value[i].project == raw.rows[i].projectId
           && InScoreDomain(result.value[i])
           && result.value[i] == ScoreRow(Jittered(raw.rows, d)[i])
  {
    if EffortDeviationColumn !in raw.columns then Err(MissingColumn(EffortDeviationColumn))
    else if DurationDeviationColumn !in raw.columns then Err(MissingColumn(DurationDeviationColumn))
    else if DataReadinessColumn !in raw.columns then Err(MissingColumn(DataReadinessColumn))
    else match FirstMissing(raw.columns, ScoringColumns)
      case Some(c) => Err(MissingColumn(c))
      case None => Ok(ScoreTable(Jittered(raw.rows, d)))
  }

  /** One `.apply(jitter)` pass, overwriting column `c` of the table in place. */
  method ApplyJitter(table: array<RawRecord>, c: JitterColumn, offsets: seq<real>)
    requires DrawsFit(table[..], c, offsets)
    modifies table
    ensures table[..] == JitteredColumn(old(table[..]), c, offsets)
  {
    for i := 0 to table.Length
      invariant forall k :: 0 <= k < i ==> table[k] == JitterCell(old(table[k]), c, offsets[k])
      invariant forall k :: i <= k < table.Length ==> table[k] == old(table[k])
    {
      table[i] := JitterCell(table[i], c, offsets[i]);
    }
  }

  /** Fills the score table row by row from the jittered raw table. */
  method BuildScoreTable(table: array<RawRecord>) returns (out: seq<ScoreRecord>)
    ensures out == ScoreTable(table[..])
  {
    out := [];
    for i := 0 to table.Length
      invariant |out| == i
      invariant forall k :: 0 <= k < i ==> out[k] == ScoreRow(table[k])
    {
      out := out + [ScoreRow(table[i])];
    }
  }

  /**
   * `run_agent` without its file I/O: jitters the three columns of the raw
   * table in place, then builds the score table.
   */
  method RunAgent(raw: RawTable, d: Draws) returns (result: Result<seq<ScoreRecord>, AgentError>)
    requires ValidDraws(raw.rows, d)
    ensures result == AgentRun(raw, d)
  {
    if EffortDeviationColumn !in raw.columns {
      return Err(MissingColumn(EffortDeviationColumn));
    }
    var table := new RawRecord[|raw.rows|](i requires 0 <= i < |raw.rows| => raw.rows[i]);
    assert table[..] == raw.rows;
    ApplyJitter(table, EffortDeviation, d.effort);
    if DurationDeviationColumn !in raw.columns {
      return Err(MissingColumn(DurationDeviationColumn));
    }
    DrawsFitAfterJitter(raw.rows, EffortDeviation, d.effort, DurationDeviation, d.duration);
    DrawsFitAfterJitter(raw.rows, EffortDeviation, d.effort, DataReadiness, d.readiness);
    ghost var e := table[..];
    ApplyJitter(table, DurationDeviation, d.duration);
    if DataReadinessColumn !in raw.columns {
      return Err(MissingColumn(DataReadinessColumn));
    }
    DrawsFitAfterJitter(e, DurationDeviation, d.duration, DataReadiness, d.readiness);
    ApplyJitter(table, DataReadiness, d.readiness);
    assert table[..] == Jittered(raw.rows, d);
    var missing := FirstMissing(raw.columns, ScoringColumns);
    if missing.Some? {
      return Err(MissingColumn(missing.value));
    }
    var out := BuildScoreTable(table);
    return Ok(out);
  }

  // ---------------------------------------------------------------------------
  // Scenario
  // ---------------------------------------------------------------------------

  /** With zero draws, a raw row at the top of every ladder scores 5 on every dimension. */
  lemma TopProjectScenario()
    ensures var row := RawRecord("P1", 12, 0, 5.0, 5.0, 1, 0, 1, 0, 97.0, 0);
      var raw := RawTable(set c | c in ScoringColumns, [row]);
      var d := Draws([0.0], [0.0], [0.0]);
      && ValidDraws(raw.rows, d)
      && AgentRun(raw, d) == Ok([ScoreRecord("P1", 5, 5, 5, 5, 5, 5)])
  {
    var row := RawRecord("P1", 12, 0, 5.0, 5.0, 1, 0, 1, 0, 97.0, 0);
    var raw := RawTable(set c | c in ScoringColumns, [row]);
    var d := Draws([0.0], [0.0], [0.0]);
    TopProjectUnjittered(row, d);
    assert HasAllColumns(raw.columns);
    var r := AgentRun(raw, d);
    assert r.Ok? && |r.value| == 1;
    TopProjectRowScores(row);
    assert r.value[0] == ScoreRow(Jittered(raw.rows, d)[0]);
    assert r.value == [ScoreRecord("P1", 5, 5, 5, 5, 5, 5)];
  }

  /** Zero draws leave an in-range row as it is. */
  lemma TopProjectUnjittered(row: RawRecord, d: Draws)
    requires row == RawRecord("P1", 12, 0, 5.0, 5.0, 1, 0, 1, 0, 97.0, 0)
    requires d == Draws([0.0], [0.0], [0.0])
    ensures ValidDraws([row], d) && Jittered([row], d) == [row]
  {
    var rows := [row];
    assert d.effort == seq(|rows|, i => 0.0);
    JitterZeroDrawInRange(rows, EffortDeviation);
    JitterZeroDrawInRange(rows, DurationDeviation);
    JitterZeroDrawInRange(rows, DataReadiness);
  }

  /** Every ladder gives the top project its top tier. */
  lemma TopProjectRowScores(row: RawRecord)
    requires row == RawRecord("P1", 12, 0, 5.0, 5.0, 1, 0, 1, 0, 97.0, 0)
    ensures ScoreRow(row) == ScoreRecord("P1", 5, 5, 5, 5, 5, 5)
  {
  }
}
