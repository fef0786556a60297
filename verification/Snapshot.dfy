/** The evidence snapshot of a run, field by field, and which of its paths resolve. */
module Snapshot {
  import opened Common
  import opened RunContract
  import opened Evidence
  import RunJson

  // -- reading a payload defensively -----------------------------------------

  /** A missing key reads like a null. */
  function Get(fields: map<string, Json>, key: string): Json {
    if key in fields then fields[key] else Null
  }

  function PowerOfTwo(n: nat): nat {
    if n == 0 then 1 else 2 * PowerOfTwo(n - 1)
  }

  /** The first integers on either side that round to no finite float. */
  predicate FitsAFloat(i: int) {
    -(PowerOfTwo(1024) - PowerOfTwo(970)) < i < PowerOfTwo(1024) - PowerOfTwo(970)
  }

  function Number(value: Json): Option<Json> {
    match value
    case Int(i) => if FitsAFloat(i) then Some(value) else None
    case Float(_) => Some(value)
    case _ => None
  }

  predicate NonNegative(number: Json) {
    match number
    case Int(i) => i >= 0
    case Float(r) => r >= 0.0
    case _ => false
  }

  function Metric(value: Json): Option<Json> {
    if Number(value).Some? && NonNegative(value) then Some(value) else None
  }

  function Count(value: Json): Option<Json> {
    if Metric(value).Some? && value.Int? then Some(value) else None
  }

  function Words(value: Json, limit: nat): Option<Json> {
    if value.Str? then Some(Str(if |value.s| > limit then value.s[..limit] else value.s)) else None
  }

  function OrNull(value: Option<Json>): Json {
    if value.Some? then value.value else Null
  }

  const SHORT_TEXT: nat := 400
  const LONG_TEXT: nat := 600
  const LABEL_TEXT: nat := 40

  // -- the approved diagnostics ----------------------------------------------

  /** The named fields that `read` accepts. */
  function Kept(fields: map<string, Json>, names: set<string>, read: Json -> Option<Json>): map<string, Json> {
    map name | name in names && read(Get(fields, name)).Some? :: read(Get(fields, name)).value
  }

  /** One part of a payload, when it is an object there. */
  function Part(fields: map<string, Json>, name: string, read: map<string, Json> -> Json): map<string, Json> {
    if Get(fields, name).Obj? then map[name := read(Get(fields, name).fields)] else map[]
  }

  const RATE_NAMES: set<string> := {
    "tracklets_per_video_minute", "track_start_rate_per_minute", "track_end_rate_per_minute",
    "detection_assignment_fraction"}
  const DISTRIBUTION_NAMES: set<string> := {"min", "median", "mean", "p90", "p95", "max"}
  const OBSERVATION_NAMES: set<string> := {"median", "mean"}
  const ACTIVE_NAMES: set<string> := {"median", "mean", "p95", "max"}
  const LEGACY_TRACKING_NAMES: set<string> := {
    "detection_rows", "tracked_ids", "frames_processed", "max_track_observations"}

  const ReadMetric: Json -> Option<Json> := (value: Json) => Metric(value)
  const ReadNumber: Json -> Option<Json> := (value: Json) => Number(value)
  const ReadCount: Json -> Option<Json> := (value: Json) => Count(value)
  const ReadLongText: Json -> Option<Json> := (value: Json) => Words(value, LONG_TEXT)

  const Distribution: map<string, Json> -> Json :=
    (fields: map<string, Json>) => Obj(Kept(fields, DISTRIBUTION_NAMES, ReadMetric))
  const Observations: map<string, Json> -> Json :=
    (fields: map<string, Json>) => Obj(Kept(fields, OBSERVATION_NAMES, ReadMetric))
  const ActiveTracklets: map<string, Json> -> Json :=
    (fields: map<string, Json>) => Obj(Kept(fields, ACTIVE_NAMES, ReadMetric))

  /** How many tracklets meet a criterion: all three fields are always written. */
  function CriterionBlock(fields: map<string, Json>): Json {
    Obj(map[
      "criterion" := OrNull(Words(Get(fields, "criterion"), SHORT_TEXT)),
      "count" := OrNull(Count(Get(fields, "count"))),
      "percentage" := OrNull(Metric(Get(fields, "percentage")))])
  }

  const Criterion: map<string, Json> -> Json := (fields: map<string, Json>) => CriterionBlock(fields)

  /** The thresholds are the keys of the payload, whatever they are. */
  const ShortTracklets: map<string, Json> -> Json :=
    (fields: map<string, Json>) =>
      Obj(map key | key in fields && fields[key].Obj? :: CriterionBlock(fields[key].fields))

  function StatusAnd(fields: map<string, Json>, text: string): Json {
    Obj(map[
      "status" := OrNull(Words(Get(fields, "status"), SHORT_TEXT)),
      text := OrNull(Words(Get(fields, text), LONG_TEXT))])
  }

  const Interpretation: map<string, Json> -> Json := (fields: map<string, Json>) => StatusAnd(fields, "summary")
  const GroundTruth: map<string, Json> -> Json := (fields: map<string, Json>) => StatusAnd(fields, "reason")

  const OBSERVED := "observed_metrics"
  const SHORT_TRACKLETS := "short_tracklets"

  function CoreMetrics(observed: map<string, Json>): map<string, Json> {
    Kept(observed, {"total_detections", "total_tracklets"}, ReadCount) + Kept(observed, RATE_NAMES, ReadMetric)
  }

  function MetricParts(observed: map<string, Json>): map<string, Json> {
    Part(observed, "tracklet_duration_seconds", Distribution)
    + Part(observed, "observations_per_tracklet", Observations)
    + Part(observed, "insufficient_tracklets", Criterion)
    + Part(observed, "active_simultaneous_tracklets", ActiveTracklets)
  }

  function TrendBins(observed: map<string, Json>): map<string, Json> {
    var trend := Get(observed, "fragmentation_trend");
    if trend.Arr? then map["fragmentation_trend_bins" := Int(|trend.items|)] else map[]
  }

  function ObservedMetrics(observed: map<string, Json>): map<string, Json> {
    CoreMetrics(observed) + MetricParts(observed)
    + Part(observed, SHORT_TRACKLETS, ShortTracklets)
    + TrendBins(observed)
  }

  function Labels(schema: string, quality: Json): map<string, Json>
    requires quality.Null? || Words(quality, LABEL_TEXT).Some?
  {
    map["schema" := Str(schema)]
    + (if quality.Null? then map[] else map["data_quality" := Words(quality, LABEL_TEXT).value])
  }

  function Judgements(payload: map<string, Json>): map<string, Json> {
    Part(payload, "interpretation", Interpretation) + Part(payload, "ground_truth_metrics", GroundTruth)
  }

  /** `None` when the core metrics are missing, or the label of the data quality is not text. */
  function ApprovedReal(schema: string, payload: map<string, Json>): Option<map<string, Json>> {
    var observed, quality := Get(payload, OBSERVED), Get(payload, "data_quality");
    if !observed.Obj? then None
    else if Count(Get(observed.fields, "total_detections")).None? then None
    else if Count(Get(observed.fields, "total_tracklets")).None? then None
    else if !quality.Null? && Words(quality, LABEL_TEXT).None? then None
    else Some(Labels(schema, quality) + map[OBSERVED := Obj(ObservedMetrics(observed.fields))] + Judgements(payload))
  }

  function ApprovedSynthetic(schema: string, payload: map<string, Json>): map<string, Json> {
    var tracking := Get(payload, "tracking");
    var counts := if tracking.Obj? then Kept(tracking.fields, LEGACY_TRACKING_NAMES, ReadCount) else map[];
    map["schema" := Str(schema)]
    + Kept(payload, {"generator_profile", "data_quality", "message"}, ReadLongText)
    + Kept(payload, {"output_count", "input_count", "deterministic_seed"}, ReadNumber)
    + (if Get(payload, "data_quality") != Str("synthetic") && counts.Keys == LEGACY_TRACKING_NAMES
       then map["tracking" := Obj(counts)] else map[])
  }

  const Approve: Approval := (schema: string, payload: Json) =>
    if !payload.Obj? then None
    else if schema == REAL_DIAGNOSTICS_SCHEMA then ApprovedReal(schema, payload.fields)
    else Some(ApprovedSynthetic(schema, payload.fields))

  // -- the snapshot ----------------------------------------------------------

  /** A value without structure. */
  datatype Scalar = NoValue | Flag(b: bool) | Amount(r: real) | Wording(text: string)

  function ScalarJson(value: Scalar): Json {
    match value
    case NoValue => Null
    case Flag(b) => Bool(b)
    case Amount(r) => Float(r)
    case Wording(text) => Str(text)
  }

  /** The wording of the sections about the run and its nature, by section and field, and the two lists of texts. */
  datatype Wordings = Wordings(field: (string, string) -> Scalar, limitations: seq<string>, missing: seq<string>)

  const RUN_NAMES: set<string> := {
    "run_id", "status", "pipeline_profile", "pipeline_version", "data_origin", "created_at", "started_at",
    "completed_at"}
  const NATURE_NAMES: set<string> := {"classification", "is_synthetic", "explanation"}

  function Section(section: string, names: set<string>, wordings: Wordings): Json {
    Obj(map name | name in names :: ScalarJson(wordings.field(section, name)))
  }

  /** The duration of the video, when the run recorded a usable one. */
  function SafeDuration(run: AnalysisRun): map<string, Json> {
    var probe := Get(run.parameters, "video_probe");
    if !probe.Obj? then map[]
    else
      var duration := Get(probe.fields, "duration_seconds");
      match Number(duration)
      case Some(Int(i)) => if i > 0 then map["duration_seconds" := Float(i as real)] else map[]
      case Some(Float(r)) => if r > 0.0 then map["duration_seconds" := Float(r)] else map[]
      case _ => map[]
  }

  function SourceVideo(run: AnalysisRun): Json {
    Obj(map["sha256" := Str(run.input.sha256), "media_type" := Str(run.input.mediaType)] + SafeDuration(run))
  }

  function ModelEntry(model: ModelReference): Json {
    Obj(map["name" := Str(model.name), "version" := Str(model.version)]
        + (if model.sha256.Some? then map["sha256" := Str(model.sha256.value)] else map[]))
  }

  function CodeSection(code: CodeReference): Json {
    Obj(map["repository" := Str(code.repository), "revision" := Str(code.revision), "dirty" := Bool(code.dirty)])
  }

  function ArtifactEntry(a: ArtifactReference, intact: string -> bool): Json {
    Obj(map[
      "name" := Str(a.name), "category" := Str(RunJson.CategoryText(a.category)),
      "relative_path" := Str(a.relativePath), "media_type" := Str(a.mediaType), "size_bytes" := Int(a.sizeBytes),
      "sha256" := Str(a.sha256), "schema_version" := if a.schemaVersion.Some? then Str(a.schemaVersion.value) else Null,
      "integrity_state" := Str(if intact(a.artifactId) then "verified" else "invalid")])
  }

  /** By id; of two artifacts with one id the later. */
  function ArtifactEntries(artifacts: seq<ArtifactReference>, intact: string -> bool): map<string, Json> {
    if artifacts == [] then map[]
    else
      var last := artifacts[|artifacts| - 1];
      ArtifactEntries(artifacts[..|artifacts| - 1], intact)[last.artifactId := ArtifactEntry(last, intact)]
  }

  function Texts(texts: seq<string>): Json {
    Arr(seq(|texts|, i requires 0 <= i < |texts| => Str(texts[i])))
  }

  function Models(models: seq<ModelReference>): Json {
    Arr(seq(|models|, i requires 0 <= i < |models| => ModelEntry(models[i])))
  }

  /** The sections that every snapshot has, apart from its artifacts. */
  function FixedSections(run: AnalysisRun, wordings: Wordings): map<string, Json> {
    map[
      "run" := Section("run", RUN_NAMES, wordings),
      "output_nature" := Section("output_nature", NATURE_NAMES, wordings),
      "source_video" := SourceVideo(run),
      "models" := Models(run.models),
      "code" := CodeSection(run.code),
      "limitations" := Texts(wordings.limitations),
      "missing_evidence" := Texts(wordings.missing)]
  }

  const ARTIFACTS_SECTION := "artifacts"
  const DIAGNOSTICS_SECTION := "diagnostics"

  function SnapshotOf(run: AnalysisRun, diagnostics: Option<Diagnostics>, intact: string -> bool, wordings: Wordings)
    : Json
  {
    Obj(FixedSections(run, wordings)
        + map[ARTIFACTS_SECTION := Obj(ArtifactEntries(run.artifacts, intact))]
        + (if diagnostics.Some? then map[DIAGNOSTICS_SECTION := Obj(diagnostics.value.approved)] else map[]))
  }

  /** The evidence of a run, with its citable paths, exactly as the service builds it. */
  function EvidenceOf(run: AnalysisRun, storage: StorageAnswers, maxBytes: int, wordings: Wordings): RunEvidence {
    BuildEvidence(run, storage, maxBytes, Approve,
      (r: AnalysisRun, d: Option<Diagnostics>) => SnapshotOf(r, d, storage.intact, wordings))
  }

  // -- names without dots ----------------------------------------------------

  ghost predicate PlainNames(names: set<string>) {
    forall name :: name in names ==> PlainKey(name)
  }

  lemma MetricNamesArePlain()
    ensures PlainNames(RATE_NAMES) && PlainNames({"total_detections", "total_tracklets"})
  {
  }

  lemma StatisticNamesArePlain()
    ensures PlainNames(DISTRIBUTION_NAMES) && PlainNames(OBSERVATION_NAMES) && PlainNames(ACTIVE_NAMES)
    ensures PlainNames({"criterion", "count", "percentage"}) && PlainNames({"status", "summary", "reason"})
  {
  }

  lemma PartNamesArePlain()
    ensures PlainNames({
      "tracklet_duration_seconds", "observations_per_tracklet", "insufficient_tracklets",
      "active_simultaneous_tracklets"})
  {
  }

  lemma OtherPartNamesArePlain()
    ensures PlainNames({SHORT_TRACKLETS, "fragmentation_trend_bins", "interpretation", "ground_truth_metrics"})
    ensures PlainNames({OBSERVED, "schema", "data_quality", "tracking"})
  {
  }

  lemma SyntheticNamesArePlain()
    ensures PlainNames({"generator_profile", "data_quality", "message"})
    ensures PlainNames({"output_count", "input_count", "deterministic_seed"})
  {
  }

  lemma TrackingNamesArePlain()
    ensures PlainNames(LEGACY_TRACKING_NAMES)
  {
  }

  lemma SectionNamesArePlain()
    ensures PlainNames({
      "run", "output_nature", "source_video", "models", "code", "limitations", "missing_evidence", ARTIFACTS_SECTION,
      DIAGNOSTICS_SECTION})
  {
  }

  lemma FieldNamesArePlain()
    ensures PlainNames(NATURE_NAMES)
    ensures PlainNames({"sha256", "media_type", "duration_seconds"}) && PlainNames({"repository", "revision", "dirty"})
  {
  }

  lemma RunNamesArePlain()
    ensures PlainNames(RUN_NAMES)
  {
  }

  lemma ArtifactNamesArePlain()
    ensures PlainNames({
      "name", "category", "relative_path", "media_type", "size_bytes", "sha256", "schema_version", "integrity_state"})
  {
  }

  // -- all names are fixed, but for two kinds of key -------------------------

  /** Plain names at every depth. */
  ghost predicate Fine(fields: map<string, Json>) {
    forall name :: name in fields ==> PlainKey(name) && FineValue(fields[name])
  }

  ghost predicate FineValue(value: Json) {
    Tidy(value) && NoDottedKeys(value)
  }

  lemma FineFieldsMakeAFineObject(fields: map<string, Json>)
    requires Fine(fields)
    ensures FineValue(Obj(fields))
  {
    hide Keyed;
  }

  lemma ScalarsAreFine(value: Json)
    requires !value.Obj?
    ensures FineValue(value)
  {
  }

  lemma UnionsAreFine(a: map<string, Json>, b: map<string, Json>)
    requires Fine(a) && Fine(b)
    ensures Fine(a + b)
  {
    hide FineValue;
  }

  /** Reads nothing but scalars. */
  ghost predicate ReadsScalars(read: Json -> Option<Json>) {
    forall value :: read(value).Some? ==> !read(value).value.Obj?
  }

  lemma ReadersReadScalars()
    ensures ReadsScalars(ReadMetric) && ReadsScalars(ReadNumber)
    ensures ReadsScalars(ReadCount) && ReadsScalars(ReadLongText)
  {
  }

  lemma KeptFieldsAreFine(fields: map<string, Json>, names: set<string>, read: Json -> Option<Json>)
    requires PlainNames(names) && ReadsScalars(read)
    ensures Fine(Kept(fields, names, read))
  {
    forall name | name in Kept(fields, names, read) ensures FineValue(Kept(fields, names, read)[name]) {
      ScalarsAreFine(Kept(fields, names, read)[name]);
    }
  }

  lemma PartsAreFine(fields: map<string, Json>, name: string, read: map<string, Json> -> Json)
    requires PlainKey(name) && forall part :: FineValue(read(part))
    ensures Fine(Part(fields, name, read))
  {
    hide FineValue, PlainKey;
  }

  /** A criterion is an entry: three plain fields that are always there. */
  lemma CriteriaAreEntries(fields: map<string, Json>)
    ensures IsEntry(CriterionBlock(fields)) && FineValue(CriterionBlock(fields))
  {
    StatisticNamesArePlain();
    var block := CriterionBlock(fields);
    forall key | key in block.fields ensures PlainKey(key) && !block.fields[key].Obj? {
      assert key in {"criterion", "count", "percentage"};
    }
    EntriesCoverThemselves(block);
    FineEntries(block);
  }

  lemma FineEntries(entry: Json)
    requires IsEntry(entry)
    ensures FineValue(entry)
  {
    assert Fine(entry.fields);
    FineFieldsMakeAFineObject(entry.fields);
  }

  lemma StatisticsAreFine(fields: map<string, Json>)
    ensures FineValue(Distribution(fields)) && FineValue(Observations(fields)) && FineValue(ActiveTracklets(fields))
  {
    hide FineValue, Kept;
    ReadersReadScalars();
    StatisticNamesArePlain();
    KeptFieldsAreFine(fields, DISTRIBUTION_NAMES, ReadMetric);
    KeptFieldsAreFine(fields, OBSERVATION_NAMES, ReadMetric);
    KeptFieldsAreFine(fields, ACTIVE_NAMES, ReadMetric);
    FineFieldsMakeAFineObject(Kept(fields, DISTRIBUTION_NAMES, ReadMetric));
    FineFieldsMakeAFineObject(Kept(fields, OBSERVATION_NAMES, ReadMetric));
    FineFieldsMakeAFineObject(Kept(fields, ACTIVE_NAMES, ReadMetric));
  }

  lemma StatusesAreFine(fields: map<string, Json>, text: string)
    requires text == "summary" || text == "reason"
    ensures FineValue(StatusAnd(fields, text))
  {
    StatisticNamesArePlain();
    var value := StatusAnd(fields, text);
    forall key | key in value.fields ensures PlainKey(key) && !value.fields[key].Obj? {
      assert key in {"status", "summary", "reason"};
    }
    FineEntries(value);
  }

  lemma CriteriaAreFine(fields: map<string, Json>)
    ensures FineValue(Criterion(fields))
  {
    CriteriaAreEntries(fields);
  }

  lemma CoreMetricsAreFine(observed: map<string, Json>)
    ensures Fine(CoreMetrics(observed))
  {
    hide Fine, PlainKey, Kept;
    ReadersReadScalars();
    MetricNamesArePlain();
    KeptFieldsAreFine(observed, {"total_detections", "total_tracklets"}, ReadCount);
    KeptFieldsAreFine(observed, RATE_NAMES, ReadMetric);
    UnionsAreFine(
      Kept(observed, {"total_detections", "total_tracklets"}, ReadCount), Kept(observed, RATE_NAMES, ReadMetric));
  }

  lemma MetricPartsAreFine(observed: map<string, Json>)
    ensures Fine(MetricParts(observed))
  {
    hide Fine, FineValue, PlainKey, Part, Distribution, Observations, ActiveTracklets, Criterion;
    PartNamesArePlain();
    forall part
      ensures FineValue(Distribution(part)) && FineValue(Observations(part)) && FineValue(ActiveTracklets(part))
      ensures FineValue(Criterion(part))
    {
      StatisticsAreFine(part);
      CriteriaAreFine(part);
    }
    var duration := Part(observed, "tracklet_duration_seconds", Distribution);
    var observations := Part(observed, "observations_per_tracklet", Observations);
    var insufficient := Part(observed, "insufficient_tracklets", Criterion);
    var active := Part(observed, "active_simultaneous_tracklets", ActiveTracklets);
    PartsAreFine(observed, "tracklet_duration_seconds", Distribution);
    PartsAreFine(observed, "observations_per_tracklet", Observations);
    PartsAreFine(observed, "insufficient_tracklets", Criterion);
    PartsAreFine(observed, "active_simultaneous_tracklets", ActiveTracklets);
    UnionsAreFine(duration, observations);
    UnionsAreFine(duration + observations, insufficient);
    UnionsAreFine(duration + observations + insufficient, active);
  }

  /** Among fixed names, one member that need not be: its keys decide. */
  lemma OneMemberDecides(before: map<string, Json>, name: string, value: Json, after: map<string, Json>)
    requires Fine(before) && Fine(after) && PlainKey(name) && Tidy(value) && name !in after
    ensures var all := Obj(before + map[name := value] + after);
      Tidy(all) && (NoDottedKeys(all) <==> NoDottedKeys(value))
  {
    var fields := before + map[name := value] + after;
    assert fields[name] == value;
    forall key | key in fields && key != name ensures PlainKey(key) && Tidy(fields[key]) && NoDottedKeys(fields[key]) {
      assert fields[key] == if key in after then after[key] else before[key];
    }
  }

  lemma KeyedSectionsAreTidy(section: Json)
    requires Keyed(section)
    ensures Tidy(section)
    ensures NoDottedKeys(section) <==> forall key :: key in section.fields ==> '.' !in key
  {
    forall key | key in section.fields ensures NoDottedKeys(section.fields[key]) {
      EntriesCoverThemselves(section.fields[key]);
    }
  }

  // -- thresholds ------------------------------------------------------------

  /** The keys of the short tracklets of a payload that are taken into the snapshot. */
  function Thresholds(payload: Json): set<string> {
    if !payload.Obj? then {}
    else
      var observed := Get(payload.fields, OBSERVED);
      if !observed.Obj? then {}
      else
        var short := Get(observed.fields, SHORT_TRACKLETS);
        if !short.Obj? then {} else set key | key in short.fields && short.fields[key].Obj?
  }

  lemma ShortTrackletsAreKeyed(fields: map<string, Json>)
    ensures Keyed(ShortTracklets(fields))
    ensures ShortTracklets(fields).fields.Keys == set key | key in fields && fields[key].Obj?
  {
    hide CriterionBlock, IsEntry;
    var section := ShortTracklets(fields);
    forall key | key in section.fields ensures IsEntry(section.fields[key]) {
      CriteriaAreEntries(fields[key].fields);
    }
  }

  lemma TrendBinsAreFine(observed: map<string, Json>)
    ensures Fine(TrendBins(observed)) && SHORT_TRACKLETS !in TrendBins(observed)
  {
    OtherPartNamesArePlain();
    assert |SHORT_TRACKLETS| != |"fragmentation_trend_bins"|;
    ScalarsAreFine(Int(0));
    forall name | name in TrendBins(observed) ensures FineValue(TrendBins(observed)[name]) {
      ScalarsAreFine(TrendBins(observed)[name]);
    }
  }

  /** The observed metrics have plain names, apart from the thresholds. */
  lemma ObservedMetricsAreTidy(payload: Json)
    requires payload.Obj? && Get(payload.fields, OBSERVED).Obj?
    ensures var metrics := Obj(ObservedMetrics(Get(payload.fields, OBSERVED).fields));
      Tidy(metrics) && (NoDottedKeys(metrics) <==> forall key :: key in Thresholds(payload) ==> '.' !in key)
  {
    hide Fine, Keyed, Tidy, NoDottedKeys, CoreMetrics, MetricParts, TrendBins, ShortTracklets, PlainKey;
    var observed := Get(payload.fields, OBSERVED).fields;
    var before, short := CoreMetrics(observed) + MetricParts(observed), Get(observed, SHORT_TRACKLETS);
    OtherPartNamesArePlain();
    CoreMetricsAreFine(observed);
    MetricPartsAreFine(observed);
    UnionsAreFine(CoreMetrics(observed), MetricParts(observed));
    TrendBinsAreFine(observed);
    if short.Obj? {
      var section := ShortTracklets(short.fields);
      ShortTrackletsAreKeyed(short.fields);
      KeyedSectionsAreTidy(section);
      OneMemberDecides(before, SHORT_TRACKLETS, section, TrendBins(observed));
    } else {
      assert before + map[] == before;
      UnionsAreFine(before, TrendBins(observed));
      FineFieldsMakeAFineObject(before + TrendBins(observed));
    }
  }

  ghost predicate PlainThresholds(payload: Json) {
    forall key :: key in Thresholds(payload) ==> '.' !in key
  }

  lemma OneFineField(name: string, value: Json)
    requires PlainKey(name) && !value.Obj?
    ensures Fine(map[name := value])
  {
    ScalarsAreFine(value);
  }

  lemma LabelsAreFine(schema: string, quality: Json)
    requires quality.Null? || Words(quality, LABEL_TEXT).Some?
    ensures Fine(Labels(schema, quality))
  {
    hide Fine, PlainKey;
    OtherPartNamesArePlain();
    OneFineField("schema", Str(schema));
    if quality.Null? {
      assert Labels(schema, quality) == map["schema" := Str(schema)];
    } else {
      OneFineField("data_quality", Words(quality, LABEL_TEXT).value);
      UnionsAreFine(map["schema" := Str(schema)], map["data_quality" := Words(quality, LABEL_TEXT).value]);
    }
  }

  lemma JudgementsAreFine(payload: map<string, Json>)
    ensures Fine(Judgements(payload)) && OBSERVED !in Judgements(payload)
  {
    assert OBSERVED !in Judgements(payload) by {
      assert |OBSERVED| == 16 && |"interpretation"| == 14 && |"ground_truth_metrics"| == 20;
    }
    hide Fine, FineValue, PlainKey, Part, Interpretation, GroundTruth;
    OtherPartNamesArePlain();
    forall part ensures FineValue(Interpretation(part)) && FineValue(GroundTruth(part)) {
      InterpretationsAreFine(part);
    }
    PartsAreFine(payload, "interpretation", Interpretation);
    PartsAreFine(payload, "ground_truth_metrics", GroundTruth);
    UnionsAreFine(
      Part(payload, "interpretation", Interpretation), Part(payload, "ground_truth_metrics", GroundTruth));
  }

  lemma InterpretationsAreFine(fields: map<string, Json>)
    ensures FineValue(Interpretation(fields)) && FineValue(GroundTruth(fields))
  {
    StatusesAreFine(fields, "summary");
    StatusesAreFine(fields, "reason");
  }

  lemma RealDiagnosticsAreTidy(schema: string, payload: Json)
    requires payload.Obj? && ApprovedReal(schema, payload.fields).Some?
    ensures var approved := Obj(ApprovedReal(schema, payload.fields).value);
      Tidy(approved) && (NoDottedKeys(approved) <==> PlainThresholds(payload))
  {
    hide Fine, PlainKey, Tidy, NoDottedKeys, ObservedMetrics, Count, Labels, Judgements;
    var quality := Get(payload.fields, "data_quality");
    OtherPartNamesArePlain();
    LabelsAreFine(schema, quality);
    JudgementsAreFine(payload.fields);
    ObservedMetricsAreTidy(payload);
    OneMemberDecides(
      Labels(schema, quality), OBSERVED, Obj(ObservedMetrics(Get(payload.fields, OBSERVED).fields)),
      Judgements(payload.fields));
  }

  lemma SyntheticDiagnosticsAreFine(schema: string, payload: map<string, Json>)
    ensures Fine(ApprovedSynthetic(schema, payload))
  {
    hide Fine, FineValue, PlainKey, Kept;
    var tracking := Get(payload, "tracking");
    var counts := if tracking.Obj? then Kept(tracking.fields, LEGACY_TRACKING_NAMES, ReadCount) else map[];
    var texts := Kept(payload, {"generator_profile", "data_quality", "message"}, ReadLongText);
    var numbers := Kept(payload, {"output_count", "input_count", "deterministic_seed"}, ReadNumber);
    ReadersReadScalars();
    OtherPartNamesArePlain();
    SyntheticNamesArePlain();
    TrackingNamesArePlain();
    OneFineField("schema", Str(schema));
    KeptFieldsAreFine(payload, {"generator_profile", "data_quality", "message"}, ReadLongText);
    KeptFieldsAreFine(payload, {"output_count", "input_count", "deterministic_seed"}, ReadNumber);
    var named: map<string, Json> := map["schema" := Str(schema)];
    UnionsAreFine(named, texts);
    UnionsAreFine(named + texts, numbers);
    if Get(payload, "data_quality") != Str("synthetic") && counts.Keys == LEGACY_TRACKING_NAMES && tracking.Obj? {
      KeptFieldsAreFine(tracking.fields, LEGACY_TRACKING_NAMES, ReadCount);
      FineFieldsMakeAFineObject(counts);
      OneFineMember("tracking", Obj(counts));
      UnionsAreFine(named + texts + numbers, map["tracking" := Obj(counts)]);
    } else {
      assert counts.Keys != LEGACY_TRACKING_NAMES || tracking.Obj?;
      assert named + texts + numbers + map[] == named + texts + numbers;
    }
  }

  lemma OneFineMember(name: string, value: Json)
    requires PlainKey(name) && FineValue(value)
    ensures Fine(map[name := value])
  {
    hide FineValue, PlainKey;
  }

  // -- the whole snapshot ----------------------------------------------------

  lemma FlatFieldsAreFine(fields: map<string, Json>, names: set<string>)
    requires PlainNames(names) && fields.Keys <= names && forall name :: name in fields ==> !fields[name].Obj?
    ensures FineValue(Obj(fields))
  {
    forall name | name in fields ensures PlainKey(name) && FineValue(fields[name]) {
      ScalarsAreFine(fields[name]);
    }
    FineFieldsMakeAFineObject(fields);
  }

  lemma SectionsAreFine(section: string, names: set<string>, wordings: Wordings)
    requires PlainNames(names)
    ensures FineValue(Section(section, names, wordings))
  {
    hide FineValue, PlainNames;
    FlatFieldsAreFine(Section(section, names, wordings).fields, names);
  }

  lemma ProvenanceIsFine(run: AnalysisRun)
    ensures FineValue(SourceVideo(run)) && FineValue(CodeSection(run.code))
  {
    hide FineValue, PlainKey, SafeDuration;
    FieldNamesArePlain();
    DurationsAreNumbers(run);
    FlatFieldsAreFine(SourceVideo(run).fields, {"sha256", "media_type", "duration_seconds"});
    FlatFieldsAreFine(CodeSection(run.code).fields, {"repository", "revision", "dirty"});
  }

  lemma FixedSectionsAreFine(run: AnalysisRun, wordings: Wordings)
    ensures Fine(FixedSections(run, wordings))
  {
    hide FineValue, PlainKey, RUN_NAMES, NATURE_NAMES, Section, SourceVideo, CodeSection;
    SectionNamesArePlain();
    assert PlainNames(RUN_NAMES) by { RunNamesArePlain(); }
    assert PlainNames(NATURE_NAMES) by { FieldNamesArePlain(); }
    SectionsAreFine("run", RUN_NAMES, wordings);
    SectionsAreFine("output_nature", NATURE_NAMES, wordings);
    ProvenanceIsFine(run);
    ScalarsAreFine(Models(run.models));
    ScalarsAreFine(Texts(wordings.limitations));
    ScalarsAreFine(Texts(wordings.missing));
    forall name | name in FixedSections(run, wordings)
      ensures PlainKey(name) && FineValue(FixedSections(run, wordings)[name])
    {
    }
  }

  lemma DurationsAreNumbers(run: AnalysisRun)
    ensures SafeDuration(run).Keys <= {"duration_seconds"}
    ensures forall name :: name in SafeDuration(run) ==> !SafeDuration(run)[name].Obj?
  {
  }

  lemma ArtifactsAreEntries(a: ArtifactReference, intact: string -> bool)
    ensures IsEntry(ArtifactEntry(a, intact))
  {
    hide RunJson.CategoryText;
    ArtifactNamesArePlain();
    var entry := ArtifactEntry(a, intact);
    assert "name" in entry.fields;
    forall key | key in entry.fields ensures PlainKey(key) && !entry.fields[key].Obj? {
      assert key in {
        "name", "category", "relative_path", "media_type", "size_bytes", "sha256", "schema_version", "integrity_state"};
    }
  }

  lemma {:induction false} ArtifactsAreKeyed(artifacts: seq<ArtifactReference>, intact: string -> bool)
    ensures Keyed(Obj(ArtifactEntries(artifacts, intact)))
    ensures forall id :: id in ArtifactEntries(artifacts, intact) <==> exists a :: a in artifacts && a.artifactId == id
  {
    hide IsEntry, ArtifactEntry;
    if artifacts != [] {
      var earlier, last := artifacts[..|artifacts| - 1], artifacts[|artifacts| - 1];
      ArtifactsAreKeyed(earlier, intact);
      ArtifactsAreEntries(last, intact);
      assert artifacts == earlier + [last];
    }
  }

  /** What the diagnostics of a snapshot are, and when their keys are plain. */
  lemma LoadedDiagnosticsAreTidy(run: AnalysisRun, storage: StorageAnswers, maxBytes: int)
    requires LoadDiagnostics(run, storage, maxBytes, Approve).Ok?
    ensures storage.reading.Read?
    ensures var diagnostics := LoadDiagnostics(run, storage, maxBytes, Approve).value;
      && Tidy(Obj(diagnostics.approved))
      && (NoDottedKeys(Obj(diagnostics.approved)) <==>
            diagnostics.schema != REAL_DIAGNOSTICS_SCHEMA || PlainThresholds(storage.reading.payload))
  {
    hide Tidy, NoDottedKeys, ApprovedReal, ApprovedSynthetic, PlainThresholds, Fine;
    var payload, schema := storage.reading.payload, LoadDiagnostics(run, storage, maxBytes, Approve).value.schema;
    if schema == REAL_DIAGNOSTICS_SCHEMA {
      RealDiagnosticsAreTidy(schema, payload);
    } else {
      SyntheticDiagnosticsAreFine(schema, payload.fields);
      FineFieldsMakeAFineObject(ApprovedSynthetic(schema, payload.fields));
    }
  }

  /** No artifact id has a dot, nor has a threshold of the diagnostics that were taken. */
  ghost predicate PlainDataKeys(run: AnalysisRun, storage: StorageAnswers, maxBytes: int) {
    var loaded := LoadDiagnostics(run, storage, maxBytes, Approve);
    && (forall a :: a in run.artifacts ==> '.' !in a.artifactId)
    && (loaded.Ok? && loaded.value.schema == REAL_DIAGNOSTICS_SCHEMA && storage.reading.Read? ==>
          PlainThresholds(storage.reading.payload))
  }

  lemma SectionsAreDistinct(run: AnalysisRun, wordings: Wordings)
    ensures ARTIFACTS_SECTION !in FixedSections(run, wordings) && DIAGNOSTICS_SECTION !in FixedSections(run, wordings)
    ensures ARTIFACTS_SECTION != DIAGNOSTICS_SECTION && "" !in FixedSections(run, wordings)
    ensures ARTIFACTS_SECTION != "" && DIAGNOSTICS_SECTION != ""
    ensures PlainKey(ARTIFACTS_SECTION) && PlainKey(DIAGNOSTICS_SECTION)
  {
    hide Section, SourceVideo, CodeSection, Models, Texts;
    SectionNamesArePlain();
    assert |ARTIFACTS_SECTION| == 9 && |DIAGNOSTICS_SECTION| == 11;
    assert |"output_nature"| == 13 && |"source_video"| == 12 && |"limitations"| == 11 && |"missing_evidence"| == 16;
    assert "limitations"[0] == 'l' && DIAGNOSTICS_SECTION[0] == 'd';
  }

  /** Some members decide: all names are plain, and those with keys of their own are tidy. */
  lemma TwoMembersDecide(fixed: map<string, Json>, a: string, first: Json, b: string, second: Option<Json>)
    requires Fine(fixed) && PlainKey(a) && PlainKey(b) && a != b && a !in fixed && b !in fixed
    requires Tidy(first) && (second.Some? ==> Tidy(second.value))
    ensures var all := Obj(fixed + map[a := first] + (if second.Some? then map[b := second.value] else map[]));
      && Tidy(all)
      && (NoDottedKeys(all) <==> NoDottedKeys(first) && (second.Some? ==> NoDottedKeys(second.value)))
  {
    var fields := fixed + map[a := first] + (if second.Some? then map[b := second.value] else map[]);
    assert fields[a] == first && (second.Some? ==> fields[b] == second.value);
    forall key | key in fields && key != a && key != b
      ensures PlainKey(key) && Tidy(fields[key]) && NoDottedKeys(fields[key])
    {
      assert fields[key] == fixed[key];
    }
  }

  lemma SnapshotsAreTidy(run: AnalysisRun, storage: StorageAnswers, maxBytes: int, wordings: Wordings)
    ensures var snapshot := SnapshotOf(
        run, EvidenceOf(run, storage, maxBytes, wordings).diagnostics, storage.intact, wordings);
      && NamedSections(snapshot) && Tidy(snapshot)
      && (NoDottedKeys(snapshot) <==> PlainDataKeys(run, storage, maxBytes))
  {
    hide Tidy, NoDottedKeys, Fine, Keyed, LoadDiagnostics, ArtifactEntries, FixedSections, PlainThresholds,
      FlattenPaths, PlainKey, Approve;
    var loaded := LoadDiagnostics(run, storage, maxBytes, Approve);
    var artifacts := ArtifactEntries(run.artifacts, storage.intact);
    FixedSectionsAreFine(run, wordings);
    SectionsAreDistinct(run, wordings);
    ArtifactsAreKeyed(run.artifacts, storage.intact);
    KeyedSectionsAreTidy(Obj(artifacts));
    assert (forall id :: id in artifacts ==> '.' !in id) <==> forall a :: a in run.artifacts ==> '.' !in a.artifactId;
    if loaded.Ok? {
      LoadedDiagnosticsAreTidy(run, storage, maxBytes);
    }
    TwoMembersDecide(
      FixedSections(run, wordings), ARTIFACTS_SECTION, Obj(artifacts), DIAGNOSTICS_SECTION,
      if loaded.Ok? then Some(Obj(loaded.value.approved)) else None);
  }

  /**
   * For every run and every payload: the citable paths are exactly those that resolve against the snapshot, if and only
   * if no artifact id and no threshold of its diagnostics has a dot.
   */
  lemma CitablePathsResolveIff(run: AnalysisRun, storage: StorageAnswers, maxBytes: int, wordings: Wordings)
    ensures var evidence := EvidenceOf(run, storage, maxBytes, wordings);
      var snapshot := SnapshotOf(run, evidence.diagnostics, storage.intact, wordings);
      (forall path :: path in evidence.paths <==> ResolveFieldPath(snapshot, path))
      <==> PlainDataKeys(run, storage, maxBytes)
  {
    hide Tidy, NoDottedKeys, NamedSections, LoadDiagnostics, SnapshotOf, FlattenPaths, ResolveFieldPath, PlainDataKeys;
    SnapshotsAreTidy(run, storage, maxBytes, wordings);
    ListedAreTheResolvingIffNoDottedKey(
      SnapshotOf(run, EvidenceOf(run, storage, maxBytes, wordings).diagnostics, storage.intact, wordings));
  }

  // -- a dotted threshold ----------------------------------------------------

  lemma ListedBelow(value: Json, prefix: string, key: string, path: string)
    requires value.Obj? && key in value.fields
    ensures PathTo(prefix, key) in FlattenPaths(value, prefix)
    ensures path in FlattenPaths(value.fields[key], PathTo(prefix, key)) ==> path in FlattenPaths(value, prefix)
  {
    assert key in value.fields.Keys;
  }

  const THRESHOLDS_PATH := PathTo(PathTo(DIAGNOSTICS_SECTION, OBSERVED), SHORT_TRACKLETS)

  predicate HasMember(value: Json, key: string, member: Json) {
    value.Obj? && key in value.fields && value.fields[key] == member
  }

  /** Three plain keys lead to a section, and what is listed in it is listed with them in front. */
  lemma ThreeKeysDeep(root: Json, a: string, first: Json, b: string, second: Json, c: string, section: Json)
    requires HasMember(root, a, first) && HasMember(first, b, second) && HasMember(second, c, section)
    requires PlainKey(a) && PlainKey(b) && PlainKey(c)
    ensures var path := PathTo(PathTo(a, b), c);
      && ResolveFieldPath(root, path) && At(root, SplitDots(path)) == section
      && FlattenPaths(section, path) <= FlattenPaths(root, "")
  {
    hide SplitDots, Resolves, At, FlattenPaths;
    PlainKeysLeadToTheirValue(root, a);
    PlainKeysLeadToTheirValue(first, b);
    PlainKeysLeadToTheirValue(second, c);
    OneKeyFurther(root, a, first, b);
    OneKeyFurther(root, PathTo(a, b), second, c);
    forall path | path in FlattenPaths(section, PathTo(PathTo(a, b), c)) ensures path in FlattenPaths(root, "") {
      ListedBelow(second, PathTo(a, b), c, path);
      ListedBelow(first, a, b, path);
      ListedBelow(root, "", a, path);
    }
  }

  lemma MetricsAreInTheDiagnostics(schema: string, payload: Json)
    requires payload.Obj? && ApprovedReal(schema, payload.fields).Some?
    ensures Get(payload.fields, OBSERVED).Obj?
    ensures HasMember(
      Obj(ApprovedReal(schema, payload.fields).value), OBSERVED,
      Obj(ObservedMetrics(Get(payload.fields, OBSERVED).fields)))
  {
    hide Labels, Judgements, ObservedMetrics, Count;
    JudgementsAreFine(payload.fields);
  }

  lemma ThresholdsAreInTheMetrics(observed: map<string, Json>)
    requires Get(observed, SHORT_TRACKLETS).Obj?
    ensures HasMember(
      Obj(ObservedMetrics(observed)), SHORT_TRACKLETS, ShortTracklets(Get(observed, SHORT_TRACKLETS).fields))
  {
    hide CoreMetrics, MetricParts, TrendBins, ShortTracklets;
    TrendBinsAreFine(observed);
  }

  lemma DiagnosticsAreInTheSnapshot(
      run: AnalysisRun, diagnostics: Diagnostics, intact: string -> bool, wordings: Wordings)
    ensures HasMember(
      SnapshotOf(run, Some(diagnostics), intact, wordings), DIAGNOSTICS_SECTION, Obj(diagnostics.approved))
  {
    hide FixedSections, ArtifactEntries;
  }

  /** Where the thresholds stand in the snapshot. */
  lemma ThresholdsInTheSnapshot(run: AnalysisRun, storage: StorageAnswers, maxBytes: int, wordings: Wordings)
    returns (section: Json)
    requires var loaded := LoadDiagnostics(run, storage, maxBytes, Approve);
      loaded.Ok? && loaded.value.schema == REAL_DIAGNOSTICS_SCHEMA
    requires storage.reading.Read? && Thresholds(storage.reading.payload) != {}
    ensures section.Obj? && section.fields.Keys == Thresholds(storage.reading.payload)
    ensures var evidence := EvidenceOf(run, storage, maxBytes, wordings);
      var snapshot := SnapshotOf(run, evidence.diagnostics, storage.intact, wordings);
      && ResolveFieldPath(snapshot, THRESHOLDS_PATH) && At(snapshot, SplitDots(THRESHOLDS_PATH)) == section
      && FlattenPaths(section, THRESHOLDS_PATH) <= evidence.paths
  {
    hide ObservedMetrics, ApprovedReal, SnapshotOf, ShortTracklets, SplitDots, Resolves, At, FlattenPaths, PlainKey,
      ResolveFieldPath, HasMember;
    var loaded, payload := LoadDiagnostics(run, storage, maxBytes, Approve).value, storage.reading.payload;
    var observed := Get(payload.fields, OBSERVED).fields;
    section := ShortTracklets(Get(observed, SHORT_TRACKLETS).fields);
    ShortTrackletsAreKeyed(Get(observed, SHORT_TRACKLETS).fields);
    TheSectionIsAnObject(section);
    MetricsAreInTheDiagnostics(loaded.schema, payload);
    ThresholdsAreInTheMetrics(observed);
    DiagnosticsAreInTheSnapshot(run, loaded, storage.intact, wordings);
    OtherPartNamesArePlain();
    SectionNamesArePlain();
    ThreeKeysDeep(
      SnapshotOf(run, Some(loaded), storage.intact, wordings), DIAGNOSTICS_SECTION, Obj(loaded.approved), OBSERVED,
      Obj(ObservedMetrics(observed)), SHORT_TRACKLETS, section);
  }

  lemma TheSectionIsAnObject(section: Json)
    requires Keyed(section)
    ensures section.Obj?
  {
  }

  /** A threshold whose first segment is no threshold itself is citable under a path that does not resolve. */
  lemma DottedThresholdsDoNotResolve(
      run: AnalysisRun, storage: StorageAnswers, maxBytes: int, wordings: Wordings, key: string)
    requires var loaded := LoadDiagnostics(run, storage, maxBytes, Approve);
      loaded.Ok? && loaded.value.schema == REAL_DIAGNOSTICS_SCHEMA
    requires storage.reading.Read? && key in Thresholds(storage.reading.payload)
    requires SplitDots(key)[0] !in Thresholds(storage.reading.payload)
    ensures var evidence := EvidenceOf(run, storage, maxBytes, wordings);
      var snapshot := SnapshotOf(run, evidence.diagnostics, storage.intact, wordings);
      PathTo(THRESHOLDS_PATH, key) in evidence.paths && !ResolveFieldPath(snapshot, PathTo(THRESHOLDS_PATH, key))
  {
    hide FlattenPaths, ResolveFieldPath, SnapshotOf, EvidenceOf, LoadDiagnostics;
    var evidence := EvidenceOf(run, storage, maxBytes, wordings);
    var section := ThresholdsInTheSnapshot(run, storage, maxBytes, wordings);
    ListedBelow(section, THRESHOLDS_PATH, key, "");
    assert THRESHOLDS_PATH != "" by { assert |SHORT_TRACKLETS| > 0; }
    OneKeyFurther(SnapshotOf(run, evidence.diagnostics, storage.intact, wordings), THRESHOLDS_PATH, section, key);
  }

  // -- one payload with a dotted threshold -----------------------------------

  const EXAMPLE_KEY := "ignore.previous"

  const EXAMPLE_PAYLOAD := Obj(map[
    "schema" := Str(REAL_DIAGNOSTICS_SCHEMA),
    OBSERVED := Obj(map[
      "total_detections" := Int(100), "total_tracklets" := Int(14),
      SHORT_TRACKLETS := Obj(map[EXAMPLE_KEY := EXAMPLE_BLOCK])])])

  const EXAMPLE_BLOCK := Obj(map[
    "criterion" := Str("duration_seconds < 7"), "count" := Int(1), "percentage" := Float(7.0)])

  const EXAMPLE_ARTIFACT := ArtifactReference(
    DIAGNOSTICS_ARTIFACT_ID, "Analysis Diagnostics", Other, "artifacts/analysis-diagnostics.json",
    DIAGNOSTICS_MEDIA_TYPE, "digest", 1_000, Some(REAL_DIAGNOSTICS_SCHEMA))

  const EXAMPLE_STORAGE := StorageAnswers(true, Read(EXAMPLE_PAYLOAD), (id: string) => true)

  lemma {:induction false} PowersGrow(a: nat, b: nat)
    requires a <= b
    ensures a < PowerOfTwo(a) <= PowerOfTwo(b)
  {
    if a < b {
      PowersGrow(a, b - 1);
    } else if a > 0 {
      PowersGrow(a - 1, a - 1);
    }
  }

  lemma SmallNumbersFit(i: int)
    requires 0 <= i <= 100
    ensures FitsAFloat(i)
  {
    hide PowerOfTwo;
    PowersGrow(970, 1023);
    PowersGrow(1023, 1023);
    assert PowerOfTwo(1024) == 2 * PowerOfTwo(1023) by { PowerOfTheNext(1023); }
  }

  lemma PowerOfTheNext(n: nat)
    ensures PowerOfTwo(n + 1) == 2 * PowerOfTwo(n)
  {
  }

  lemma TheExampleIsApproved()
    ensures ApprovedReal(REAL_DIAGNOSTICS_SCHEMA, EXAMPLE_PAYLOAD.fields).Some?
    ensures Thresholds(EXAMPLE_PAYLOAD) == {EXAMPLE_KEY}
  {
    hide FitsAFloat, ObservedMetrics, Judgements, Labels;
    SmallNumbersFit(100);
    SmallNumbersFit(14);
    assert |OBSERVED| == 16 && |"schema"| == 6 && |"data_quality"| == 12;
    assert |"total_detections"| == 16 && |"total_tracklets"| == 15 && |SHORT_TRACKLETS| == 15;
    assert "total_tracklets"[0] == 't' && SHORT_TRACKLETS[0] == 's';
  }

  lemma TheExampleIsLoaded(run: AnalysisRun, maxBytes: int)
    requires run.artifacts == [EXAMPLE_ARTIFACT] && maxBytes >= 1_000
    ensures LoadDiagnostics(run, EXAMPLE_STORAGE, maxBytes, Approve).Ok?
    ensures LoadDiagnostics(run, EXAMPLE_STORAGE, maxBytes, Approve).value.schema == REAL_DIAGNOSTICS_SCHEMA
    ensures EXAMPLE_STORAGE.reading == Read(EXAMPLE_PAYLOAD)
  {
    hide ApprovedReal, ApprovedSynthetic;
    TheExampleIsApproved();
    assert |OBSERVED| == 16 && |"schema"| == 6 && |"run_id"| == 6 && "schema"[0] == 's' && "run_id"[0] == 'r';
  }

  /** Every artifact id is plain, and still a citable path does not resolve. */
  lemma AnExampleThresholdDoesNotResolve(run: AnalysisRun, maxBytes: int, wordings: Wordings)
    requires run.artifacts == [EXAMPLE_ARTIFACT] && maxBytes >= 1_000
    ensures forall a :: a in run.artifacts ==> '.' !in a.artifactId
    ensures var evidence := EvidenceOf(run, EXAMPLE_STORAGE, maxBytes, wordings);
      var snapshot := SnapshotOf(run, evidence.diagnostics, EXAMPLE_STORAGE.intact, wordings);
      && PathTo(THRESHOLDS_PATH, EXAMPLE_KEY) in evidence.paths
      && !ResolveFieldPath(snapshot, PathTo(THRESHOLDS_PATH, EXAMPLE_KEY))
  {
    hide *;
    TheExampleIdIsPlain();
    TheExampleIsLoaded(run, maxBytes);
    TheExampleIsApproved();
    TheExampleKeySplits();
    DottedThresholdsDoNotResolve(run, EXAMPLE_STORAGE, maxBytes, wordings, EXAMPLE_KEY);
  }

  lemma TheExampleIdIsPlain()
    ensures '.' !in EXAMPLE_ARTIFACT.artifactId
  {
  }

  lemma TheExampleKeySplits()
    ensures SplitDots(EXAMPLE_KEY)[0] == "ignore" != EXAMPLE_KEY
  {
    hide SplitDots;
    SplitOfPlain("ignore", "previous");
    assert EXAMPLE_KEY == "ignore" + "." + "previous";
    assert |"ignore"| == 6 && |EXAMPLE_KEY| == 15;
  }
}
