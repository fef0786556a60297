/** The wire form of an attempt: every record as a JSON object with exactly its keys. */
module RunJson {
  import opened Common
  import opened RunContract
  import opened Timestamps

  // -- reading JSON, failing on anything unexpected --------------------------

  function AsString(j: Json): Option<string> {
    if j.Str? then Some(j.s) else None
  }

  function AsInt(j: Json): Option<int> {
    if j.Int? then Some(j.i) else None
  }

  function AsBool(j: Json): Option<bool> {
    if j.Bool? then Some(j.b) else None
  }

  function AsNumber(j: Json): Option<real> {
    if j.Int? then Some(j.i as real) else if j.Float? then Some(j.r) else None
  }

  function AsObject(j: Json): Option<map<string, Json>> {
    if j.Obj? then Some(j.fields) else None
  }

  function AsArray(j: Json): Option<seq<Json>> {
    if j.Arr? then Some(j.items) else None
  }

  function AsOptionalString(j: Json): Option<Option<string>> {
    if j.Null? then Some(None) else if j.Str? then Some(Some(j.s)) else None
  }

  function AsInstant(j: Json): Option<Instant> {
    var text :- AsString(j);
    ParseInstant(text)
  }

  function AsOptionalInstant(j: Json): Option<Option<Instant>> {
    if j.Null? then Some(None)
    else
      var t :- AsInstant(j);
      Some(Some(t))
  }

  /** All required keys, and no key that is neither required nor optional. */
  function ExactKeys(j: Json, required: set<string>, optional: set<string>): Option<map<string, Json>> {
    var fields :- AsObject(j);
    if required <= fields.Keys <= required + optional then Some(fields) else None
  }

  /** `data.get(key)`: a missing key reads like null. */
  function GetOptionalString(fields: map<string, Json>, key: string): Option<Option<string>> {
    if key in fields then AsOptionalString(fields[key]) else Some(None)
  }

  function GetOptionalInstant(fields: map<string, Json>, key: string): Option<Option<Instant>> {
    if key !in fields then Some(None)
    else
      var t :- AsInstant(fields[key]);
      Some(Some(t))
  }

  function OptionalField(key: string, value: Option<Json>): map<string, Json> {
    match value
    case None => map[]
    case Some(j) => map[key := j]
  }

  function NullOr(value: Option<Json>): Json {
    match value
    case None => Null
    case Some(j) => j
  }

  function JsonString(value: Option<string>): Option<Json> {
    match value
    case None => None
    case Some(s) => Some(Str(s))
  }

  function JsonInstant(value: Option<Instant>): Option<Json> {
    match value
    case None => None
    case Some(t) => Some(Str(FormatInstant(t)))
  }

  function EncodeSeq<T>(items: seq<T>, encode: T -> Json): seq<Json> {
    seq(|items|, i requires 0 <= i < |items| => encode(items[i]))
  }

  function DecodeSeq<T>(items: seq<Json>, decode: Json -> Option<T>): Option<seq<T>> {
    if items == [] then Some([])
    else
      var first :- decode(items[0]);
      var rest :- DecodeSeq(items[1..], decode);
      Some([first] + rest)
  }

  lemma {:induction false} SequencesRoundTrip<T>(items: seq<T>, encode: T -> Json, decode: Json -> Option<T>)
    requires forall x :: x in items ==> decode(encode(x)) == Some(x)
    ensures DecodeSeq(EncodeSeq(items, encode), decode) == Some(items)
  {
    if items != [] {
      assert items[0] in items;
      SequencesRoundTrip(items[1..], encode, decode);
      assert EncodeSeq(items, encode)[1..] == EncodeSeq(items[1..], encode);
      assert items == [items[0]] + items[1..];
    }
  }

  lemma InstantFieldsRoundTrip(t: Instant)
    ensures AsInstant(Str(FormatInstant(t))) == Some(t)
    ensures AsOptionalInstant(Str(FormatInstant(t))) == Some(Some(t))
  {
    hide FormatInstant, ParseInstant;
    InstantsRoundTrip(t);
  }

  lemma OptionalInstantsRoundTrip(value: Option<Instant>)
    ensures AsOptionalInstant(NullOr(JsonInstant(value))) == Some(value)
  {
    hide FormatInstant, ParseInstant;
    if value.Some? {
      InstantsRoundTrip(value.value);
    }
  }

  // -- enumerations ----------------------------------------------------------

  function StatusText(status: RunStatus): string {
    match status
    case Queued => "queued"
    case Running => "running"
    case Succeeded => "succeeded"
    case Partial => "partial"
    case Failed => "failed"
    case Cancelled => "cancelled"
  }

  const RUN_STATUSES: seq<RunStatus> := [Queued, Running, Succeeded, Partial, Failed, Cancelled]

  function OriginText(origin: DataOrigin): string {
    match origin
    case Real => "real"
    case Synthetic => "synthetic"
    case Evaluation => "evaluation"
    case LegacyV1 => "legacy_v1"
  }

  const ORIGINS: seq<DataOrigin> := [Real, Synthetic, Evaluation, LegacyV1]

  function StageStatusText(status: StageStatus): string {
    match status
    case StageQueued => "queued"
    case StageRunning => "running"
    case StageSucceeded => "succeeded"
    case StagePartial => "partial"
    case StageFailed => "failed"
    case StageCancelled => "cancelled"
    case StageSkipped => "skipped"
  }

  const STAGE_STATUSES: seq<StageStatus> := [
    StageQueued, StageRunning, StageSucceeded, StagePartial, StageFailed, StageCancelled, StageSkipped]

  const STAGE_NAMES: seq<StageName> := [
    Ingestion, VideoValidation, Detection, Tracking, IdentityResolution, PitchCalibration, Metrics, WorkloadAdvisory,
    ArtifactPublication]

  function CategoryText(category: ArtifactCategory): string {
    match category
    case Source => "source"
    case Tracks => "tracks"
    case MetricsData => "metrics"
    case Summary => "summary"
    case Advisory => "workload_advisory"
    case Visualization => "visualization"
    case Other => "other"
  }

  const CATEGORIES: seq<ArtifactCategory> := [Source, Tracks, MetricsData, Summary, Advisory, Visualization, Other]

  /** The member with this text, if there is one. */
  function Named<T>(members: seq<T>, text: T -> string, wanted: string): Option<T> {
    if members == [] then None
    else if text(members[0]) == wanted then Some(members[0])
    else Named(members[1..], text, wanted)
  }

  function AsMember<T>(j: Json, members: seq<T>, text: T -> string): Option<T> {
    var wanted :- AsString(j);
    Named(members, text, wanted)
  }

  lemma {:induction false} NamesRoundTrip<T>(members: seq<T>, text: T -> string, x: T)
    requires x in members && forall y :: y in members && text(y) == text(x) ==> y == x
    ensures Named(members, text, text(x)) == Some(x)
  {
    assert members[0] in members;
    if text(members[0]) != text(x) {
      NamesRoundTrip(members[1..], text, x);
    }
  }

  const StatusOf: RunStatus -> string := (x: RunStatus) => StatusText(x)
  const OriginOf: DataOrigin -> string := (x: DataOrigin) => OriginText(x)
  const StageStatusOf: StageStatus -> string := (x: StageStatus) => StageStatusText(x)
  const StageNameOf: StageName -> string := (x: StageName) => StageText(x)
  const CategoryOf: ArtifactCategory -> string := (x: ArtifactCategory) => CategoryText(x)

  lemma StatusesRoundTrip(x: RunStatus)
    ensures AsMember(Str(StatusText(x)), RUN_STATUSES, StatusOf) == Some(x)
  {
    match x {
      case Queued => assert RUN_STATUSES[0] == x;
      case Running => assert RUN_STATUSES[1] == x;
      case Succeeded => assert RUN_STATUSES[2] == x;
      case Partial => assert RUN_STATUSES[3] == x;
      case Failed => assert RUN_STATUSES[4] == x;
      case Cancelled => assert RUN_STATUSES[5] == x;
    }
    NamesRoundTrip(RUN_STATUSES, StatusOf, x);
  }

  lemma OriginsRoundTrip(x: DataOrigin)
    ensures AsMember(Str(OriginText(x)), ORIGINS, OriginOf) == Some(x)
  {
    match x {
      case Real => assert ORIGINS[0] == x;
      case Synthetic => assert ORIGINS[1] == x;
      case Evaluation => assert ORIGINS[2] == x;
      case LegacyV1 => assert ORIGINS[3] == x;
    }
    NamesRoundTrip(ORIGINS, OriginOf, x);
  }

  lemma StageStatusesRoundTrip(x: StageStatus)
    ensures AsMember(Str(StageStatusText(x)), STAGE_STATUSES, StageStatusOf) == Some(x)
  {
    match x {
      case StageQueued => assert STAGE_STATUSES[0] == x;
      case StageRunning => assert STAGE_STATUSES[1] == x;
      case StageSucceeded => assert STAGE_STATUSES[2] == x;
      case StagePartial => assert STAGE_STATUSES[3] == x;
      case StageFailed => assert STAGE_STATUSES[4] == x;
      case StageCancelled => assert STAGE_STATUSES[5] == x;
      case StageSkipped => assert STAGE_STATUSES[6] == x;
    }
    NamesRoundTrip(STAGE_STATUSES, StageStatusOf, x);
  }

  lemma StageNamesRoundTrip(x: StageName)
    ensures AsMember(Str(StageText(x)), STAGE_NAMES, StageNameOf) == Some(x)
  {
    match x {
      case Ingestion => assert STAGE_NAMES[0] == x;
      case VideoValidation => assert STAGE_NAMES[1] == x;
      case Detection => assert STAGE_NAMES[2] == x;
      case Tracking => assert STAGE_NAMES[3] == x;
      case IdentityResolution => assert STAGE_NAMES[4] == x;
      case PitchCalibration => assert STAGE_NAMES[5] == x;
      case Metrics => assert STAGE_NAMES[6] == x;
      case WorkloadAdvisory => assert STAGE_NAMES[7] == x;
      case ArtifactPublication => assert STAGE_NAMES[8] == x;
    }
    NamesRoundTrip(STAGE_NAMES, StageNameOf, x);
  }

  lemma CategoriesRoundTrip(x: ArtifactCategory)
    ensures AsMember(Str(CategoryText(x)), CATEGORIES, CategoryOf) == Some(x)
  {
    match x {
      case Source => assert CATEGORIES[0] == x;
      case Tracks => assert CATEGORIES[1] == x;
      case MetricsData => assert CATEGORIES[2] == x;
      case Summary => assert CATEGORIES[3] == x;
      case Advisory => assert CATEGORIES[4] == x;
      case Visualization => assert CATEGORIES[5] == x;
      case Other => assert CATEGORIES[6] == x;
    }
    NamesRoundTrip(CATEGORIES, CategoryOf, x);
  }

  // -- records ---------------------------------------------------------------

  function EncodeInput(x: InputReference): Json {
    Obj(map["uri" := Str(x.uri), "sha256" := Str(x.sha256), "media_type" := Str(x.mediaType)])
  }

  function DecodeInput(j: Json): Option<InputReference> {
    var fields :- ExactKeys(j, {"uri", "sha256", "media_type"}, {});
    var uri :- AsString(fields["uri"]);
    var sha256 :- AsString(fields["sha256"]);
    var mediaType :- AsString(fields["media_type"]);
    Some(InputReference(uri, sha256, mediaType))
  }

  function EncodeCode(x: CodeReference): Json {
    Obj(map["repository" := Str(x.repository), "revision" := Str(x.revision), "dirty" := Bool(x.dirty)])
  }

  function DecodeCode(j: Json): Option<CodeReference> {
    var fields :- ExactKeys(j, {"repository", "revision", "dirty"}, {});
    var repository :- AsString(fields["repository"]);
    var revision :- AsString(fields["revision"]);
    var dirty :- AsBool(fields["dirty"]);
    Some(CodeReference(repository, revision, dirty))
  }

  function EncodeModel(x: ModelReference): Json {
    Obj(map["name" := Str(x.name), "version" := Str(x.version)] + OptionalField("sha256", JsonString(x.sha256)))
  }

  function DecodeModel(j: Json): Option<ModelReference> {
    var fields :- ExactKeys(j, {"name", "version"}, {"sha256"});
    var name :- AsString(fields["name"]);
    var version :- AsString(fields["version"]);
    var sha256 :- GetOptionalString(fields, "sha256");
    Some(ModelReference(name, version, sha256))
  }

  const ARTIFACT_KEYS: set<string> := {
    "artifact_id", "name", "category", "relative_path", "media_type", "sha256", "size_bytes"}

  function EncodeArtifact(x: ArtifactReference): Json {
    Obj(map[
      "artifact_id" := Str(x.artifactId), "name" := Str(x.name), "category" := Str(CategoryText(x.category)),
      "relative_path" := Str(x.relativePath), "media_type" := Str(x.mediaType), "sha256" := Str(x.sha256),
      "size_bytes" := Int(x.sizeBytes)] + OptionalField("schema_version", JsonString(x.schemaVersion)))
  }

  function DecodeArtifact(j: Json): Option<ArtifactReference> {
    var fields :- ExactKeys(j, ARTIFACT_KEYS, {"schema_version"});
    var artifactId :- AsString(fields["artifact_id"]);
    var name :- AsString(fields["name"]);
    var category :- AsMember(fields["category"], CATEGORIES, CategoryOf);
    var relativePath :- AsString(fields["relative_path"]);
    var mediaType :- AsString(fields["media_type"]);
    var sha256 :- AsString(fields["sha256"]);
    var sizeBytes :- AsInt(fields["size_bytes"]);
    var schemaVersion :- GetOptionalString(fields, "schema_version");
    Some(ArtifactReference(artifactId, name, category, relativePath, mediaType, sha256, sizeBytes, schemaVersion))
  }

  const ERROR_KEYS: set<string> := {"error_code", "safe_message", "retryable", "occurred_at", "technical_details"}

  function EncodeError(x: StructuredError): Json {
    Obj(map[
      "error_code" := Str(x.code), "safe_message" := Str(x.safeMessage), "retryable" := Bool(x.retryable),
      "occurred_at" := Str(FormatInstant(x.occurredAt)),
      "technical_details" := match x.details case None => Null case Some(d) => Obj(d)])
  }

  function AsOptionalObject(j: Json): Option<Option<map<string, Json>>> {
    if j.Null? then Some(None) else if j.Obj? then Some(Some(j.fields)) else None
  }

  function DecodeError(j: Json): Option<StructuredError> {
    var fields :- ExactKeys(j, ERROR_KEYS, {});
    var code :- AsString(fields["error_code"]);
    var safeMessage :- AsString(fields["safe_message"]);
    var retryable :- AsBool(fields["retryable"]);
    var occurredAt :- AsInstant(fields["occurred_at"]);
    var details :- AsOptionalObject(fields["technical_details"]);
    Some(StructuredError(code, safeMessage, retryable, occurredAt, details))
  }

  function EncodeOptionalError(x: Option<StructuredError>): Option<Json> {
    match x
    case None => None
    case Some(e) => Some(EncodeError(e))
  }

  /** `error` may be null in a stage, and any other empty value reads like null. */
  function AsOptionalError(j: Json): Option<Option<StructuredError>> {
    if Falsy(j) then Some(None)
    else
      var e :- DecodeError(j);
      Some(Some(e))
  }

  predicate Falsy(j: Json) {
    match j
    case Null => true
    case Bool(b) => !b
    case Int(i) => i == 0
    case Float(r) => r == 0.0
    case Str(s) => s == ""
    case Arr(items) => items == []
    case Obj(fields) => fields == map[]
  }

  lemma InputsRoundTrip(x: InputReference)
    ensures DecodeInput(EncodeInput(x)) == Some(x)
  {
  }

  lemma CodesRoundTrip(x: CodeReference)
    ensures DecodeCode(EncodeCode(x)) == Some(x)
  {
  }

  lemma ModelsRoundTrip(x: ModelReference)
    ensures DecodeModel(EncodeModel(x)) == Some(x)
  {
  }

  lemma ArtifactsRoundTrip(x: ArtifactReference)
    ensures DecodeArtifact(EncodeArtifact(x)) == Some(x)
  {
    hide AsMember, CategoryText;
    CategoriesRoundTrip(x.category);
  }

  lemma ErrorsRoundTrip(x: StructuredError)
    ensures DecodeError(EncodeError(x)) == Some(x)
  {
    hide AsInstant, FormatInstant;
    InstantFieldsRoundTrip(x.occurredAt);
  }

  // -- stages ----------------------------------------------------------------

  const STAGE_KEYS: set<string> := {
    "stage_id", "stage_name", "required", "status", "progress_percent", "attempt_number", "started_at",
    "finished_at", "produced_artifact_ids", "error", "performance_metrics", "message"}

  const EncodeString: string -> Json := (x: string) => Str(x)
  const DecodeString: Json -> Option<string> := (j: Json) => AsString(j)

  function EncodeStage(x: Stage): Json {
    Obj(map[
      "stage_id" := Str(x.id), "stage_name" := Str(StageText(x.name)), "required" := Bool(x.required),
      "status" := Str(StageStatusText(x.status)), "progress_percent" := Float(x.progress),
      "attempt_number" := Int(x.attempt), "started_at" := NullOr(JsonInstant(x.startedAt)),
      "finished_at" := NullOr(JsonInstant(x.finishedAt)),
      "produced_artifact_ids" := Arr(EncodeSeq(x.producedArtifactIds, EncodeString)),
      "error" := NullOr(EncodeOptionalError(x.error)), "performance_metrics" := Obj(x.metrics),
      "message" := NullOr(JsonString(x.message))])
  }

  function AsStringArray(j: Json): Option<seq<string>> {
    var items :- AsArray(j);
    DecodeSeq(items, DecodeString)
  }

  /** Only a valid record is ever built. */
  function CheckedStage(x: Stage): Option<Stage> {
    if ValidStage(x) then Some(x) else None
  }

  function DecodeStage(j: Json): Option<Stage> {
    var fields :- ExactKeys(j, STAGE_KEYS, {});
    var id :- AsString(fields["stage_id"]);
    var name :- AsMember(fields["stage_name"], STAGE_NAMES, StageNameOf);
    var required :- AsBool(fields["required"]);
    var status :- AsMember(fields["status"], STAGE_STATUSES, StageStatusOf);
    var progress :- AsNumber(fields["progress_percent"]);
    var attempt :- AsInt(fields["attempt_number"]);
    var startedAt :- AsOptionalInstant(fields["started_at"]);
    var finishedAt :- AsOptionalInstant(fields["finished_at"]);
    var produced :- AsStringArray(fields["produced_artifact_ids"]);
    var error :- AsOptionalError(fields["error"]);
    var metrics :- AsObject(fields["performance_metrics"]);
    var message :- AsOptionalString(fields["message"]);
    CheckedStage(Stage(
      id, name, required, status, progress, attempt, startedAt, finishedAt, produced, error, metrics, message))
  }

  lemma StringArraysRoundTrip(items: seq<string>)
    ensures AsStringArray(Arr(EncodeSeq(items, EncodeString))) == Some(items)
  {
    SequencesRoundTrip(items, EncodeString, DecodeString);
  }

  lemma ErrorObjectsAreNotEmpty(x: StructuredError)
    ensures !Falsy(EncodeError(x))
  {
    assert "error_code" in EncodeError(x).fields;
  }

  lemma OptionalErrorsRoundTrip(x: Option<StructuredError>)
    ensures AsOptionalError(NullOr(EncodeOptionalError(x))) == Some(x)
  {
    hide DecodeError, EncodeError;
    if x.Some? {
      ErrorsRoundTrip(x.value);
      ErrorObjectsAreNotEmpty(x.value);
    }
  }

  lemma StageKeysAreExact(x: Stage)
    ensures EncodeStage(x).Obj? && EncodeStage(x).fields.Keys == STAGE_KEYS
    ensures ExactKeys(EncodeStage(x), STAGE_KEYS, {}) == Some(EncodeStage(x).fields)
  {
    hide StageText, StageStatusText, JsonInstant, EncodeSeq, EncodeOptionalError, NullOr, JsonString;
  }

  lemma StageLookups(x: Stage)
    ensures "stage_id" in STAGE_KEYS && EncodeStage(x).fields["stage_id"] == Str(x.id)
    ensures "stage_name" in STAGE_KEYS && EncodeStage(x).fields["stage_name"] == Str(StageText(x.name))
    ensures "required" in STAGE_KEYS && EncodeStage(x).fields["required"] == Bool(x.required)
    ensures "status" in STAGE_KEYS && EncodeStage(x).fields["status"] == Str(StageStatusText(x.status))
    ensures "progress_percent" in STAGE_KEYS && EncodeStage(x).fields["progress_percent"] == Float(x.progress)
    ensures "attempt_number" in STAGE_KEYS && EncodeStage(x).fields["attempt_number"] == Int(x.attempt)
  {
    hide StageText, StageStatusText, JsonInstant, EncodeSeq, EncodeOptionalError, NullOr, JsonString;
  }

  lemma MoreStageLookups(x: Stage)
    ensures "started_at" in STAGE_KEYS && EncodeStage(x).fields["started_at"] == NullOr(JsonInstant(x.startedAt))
    ensures "finished_at" in STAGE_KEYS && EncodeStage(x).fields["finished_at"] == NullOr(JsonInstant(x.finishedAt))
    ensures "produced_artifact_ids" in STAGE_KEYS
      && EncodeStage(x).fields["produced_artifact_ids"] == Arr(EncodeSeq(x.producedArtifactIds, EncodeString))
    ensures "error" in STAGE_KEYS && EncodeStage(x).fields["error"] == NullOr(EncodeOptionalError(x.error))
    ensures "performance_metrics" in STAGE_KEYS && EncodeStage(x).fields["performance_metrics"] == Obj(x.metrics)
    ensures "message" in STAGE_KEYS && EncodeStage(x).fields["message"] == NullOr(JsonString(x.message))
  {
    hide StageText, StageStatusText, JsonInstant, EncodeSeq, EncodeOptionalError, NullOr, JsonString;
  }

  lemma StagesRoundTrip(x: Stage)
    requires ValidStage(x)
    ensures DecodeStage(EncodeStage(x)) == Some(x)
  {
    hide EncodeStage, AsMember, StageText, StageStatusText, AsOptionalInstant, JsonInstant, AsStringArray, EncodeSeq,
      AsOptionalError, EncodeOptionalError, ValidStage, ExactKeys;
    StageKeysAreExact(x);
    StageLookups(x);
    MoreStageLookups(x);
    StageNamesRoundTrip(x.name);
    StageStatusesRoundTrip(x.status);
    OptionalInstantsRoundTrip(x.startedAt);
    OptionalInstantsRoundTrip(x.finishedAt);
    StringArraysRoundTrip(x.producedArtifactIds);
    OptionalErrorsRoundTrip(x.error);
  }

  // -- the attempt -----------------------------------------------------------

  const RUN_KEYS: set<string> := {
    "contract_version", "logical_analysis_id", "run_id", "attempt_number", "previous_attempt_run_id", "status",
    "data_origin", "input", "code", "pipeline_version", "parameters", "models", "artifacts", "stages", "created_at"}
  const OPTIONAL_RUN_KEYS: set<string> := {
    "started_at", "completed_at", "failure", "partial_reason", "cancellation_reason"}

  const EncodeModelItem: ModelReference -> Json := (x: ModelReference) => EncodeModel(x)
  const DecodeModelItem: Json -> Option<ModelReference> := (j: Json) => DecodeModel(j)
  const EncodeArtifactItem: ArtifactReference -> Json := (x: ArtifactReference) => EncodeArtifact(x)
  const DecodeArtifactItem: Json -> Option<ArtifactReference> := (j: Json) => DecodeArtifact(j)
  const EncodeStageItem: Stage -> Json := (x: Stage) => EncodeStage(x)
  const DecodeStageItem: Json -> Option<Stage> := (j: Json) => DecodeStage(j)

  function RequiredFields(x: AnalysisRun): map<string, Json> {
    map[
      "contract_version" := Str(x.contractVersion), "logical_analysis_id" := Str(x.logicalId),
      "run_id" := Str(x.runId), "attempt_number" := Int(x.attempt),
      "previous_attempt_run_id" := NullOr(JsonString(x.previousRunId)), "status" := Str(StatusText(x.status)),
      "data_origin" := Str(OriginText(x.origin)), "input" := EncodeInput(x.input), "code" := EncodeCode(x.code),
      "pipeline_version" := Str(x.pipelineVersion), "parameters" := Obj(x.parameters),
      "models" := Arr(EncodeSeq(x.models, EncodeModelItem)),
      "artifacts" := Arr(EncodeSeq(x.artifacts, EncodeArtifactItem)),
      "stages" := Arr(EncodeSeq(x.stages, EncodeStageItem)), "created_at" := Str(FormatInstant(x.createdAt))]
  }

  /** Absent fields are left out, never written as null. */
  function OptionalFields(x: AnalysisRun): map<string, Json> {
    OptionalField("started_at", JsonInstant(x.startedAt)) + OptionalField("completed_at", JsonInstant(x.completedAt))
    + OptionalField("failure", EncodeOptionalError(x.failure))
    + OptionalField("partial_reason", JsonString(x.partialReason))
    + OptionalField("cancellation_reason", JsonString(x.cancellationReason))
  }

  function ToDict(x: AnalysisRun): Json {
    Obj(RequiredFields(x) + OptionalFields(x))
  }

  function AsModels(j: Json): Option<seq<ModelReference>> {
    var items :- AsArray(j);
    DecodeSeq(items, DecodeModelItem)
  }

  function AsArtifacts(j: Json): Option<seq<ArtifactReference>> {
    var items :- AsArray(j);
    DecodeSeq(items, DecodeArtifactItem)
  }

  function AsStages(j: Json): Option<seq<Stage>> {
    var items :- AsArray(j);
    DecodeSeq(items, DecodeStageItem)
  }

  function GetOptionalError(fields: map<string, Json>, key: string): Option<Option<StructuredError>> {
    if key !in fields then Some(None)
    else
      var e :- DecodeError(fields[key]);
      Some(Some(e))
  }

  function CheckedRun(x: AnalysisRun): Option<AnalysisRun> {
    if ValidRun(x) then Some(x) else None
  }

  function FromDict(j: Json): Option<AnalysisRun> {
    var fields :- ExactKeys(j, RUN_KEYS, OPTIONAL_RUN_KEYS);
    var contractVersion :- AsString(fields["contract_version"]);
    var logicalId :- AsString(fields["logical_analysis_id"]);
    var runId :- AsString(fields["run_id"]);
    var attempt :- AsInt(fields["attempt_number"]);
    var previousRunId :- AsOptionalString(fields["previous_attempt_run_id"]);
    var status :- AsMember(fields["status"], RUN_STATUSES, StatusOf);
    var origin :- AsMember(fields["data_origin"], ORIGINS, OriginOf);
    var input :- DecodeInput(fields["input"]);
    var code :- DecodeCode(fields["code"]);
    var pipelineVersion :- AsString(fields["pipeline_version"]);
    var parameters :- AsObject(fields["parameters"]);
    var models :- AsModels(fields["models"]);
    var artifacts :- AsArtifacts(fields["artifacts"]);
    var stages :- AsStages(fields["stages"]);
    var createdAt :- AsInstant(fields["created_at"]);
    var startedAt :- GetOptionalInstant(fields, "started_at");
    var completedAt :- GetOptionalInstant(fields, "completed_at");
    var failure :- GetOptionalError(fields, "failure");
    var partialReason :- GetOptionalString(fields, "partial_reason");
    var cancellationReason :- GetOptionalString(fields, "cancellation_reason");
    CheckedRun(AnalysisRun(
      logicalId, runId, attempt, previousRunId, status, origin, input, code, pipelineVersion, parameters, models,
      artifacts, stages, createdAt, startedAt, completedAt, failure, partialReason, cancellationReason,
      contractVersion))
  }

  lemma ModelArraysRoundTrip(items: seq<ModelReference>)
    ensures AsModels(Arr(EncodeSeq(items, EncodeModelItem))) == Some(items)
  {
    forall x ensures DecodeModelItem(EncodeModelItem(x)) == Some(x) {
      ModelsRoundTrip(x);
    }
    SequencesRoundTrip(items, EncodeModelItem, DecodeModelItem);
  }

  lemma ArtifactArraysRoundTrip(items: seq<ArtifactReference>)
    ensures AsArtifacts(Arr(EncodeSeq(items, EncodeArtifactItem))) == Some(items)
  {
    forall x ensures DecodeArtifactItem(EncodeArtifactItem(x)) == Some(x) {
      ArtifactsRoundTrip(x);
    }
    SequencesRoundTrip(items, EncodeArtifactItem, DecodeArtifactItem);
  }

  lemma StageArraysRoundTrip(items: seq<Stage>)
    requires forall x :: x in items ==> ValidStage(x)
    ensures AsStages(Arr(EncodeSeq(items, EncodeStageItem))) == Some(items)
  {
    forall x | x in items ensures DecodeStageItem(EncodeStageItem(x)) == Some(x) {
      StagesRoundTrip(x);
    }
    SequencesRoundTrip(items, EncodeStageItem, DecodeStageItem);
  }

  lemma RequiredKeysAreWritten(x: AnalysisRun)
    ensures RequiredFields(x).Keys == RUN_KEYS
  {
    hide EncodeSeq, EncodeInput, EncodeCode, FormatInstant, StatusText, OriginText, NullOr, JsonString;
  }

  lemma OptionalKeysAreKnown(x: AnalysisRun)
    ensures OptionalFields(x).Keys <= OPTIONAL_RUN_KEYS
  {
    hide JsonInstant, EncodeOptionalError, JsonString;
  }

  lemma KeysAreDisjoint()
    ensures RUN_KEYS !! OPTIONAL_RUN_KEYS
  {
  }

  /** The object has exactly its keys: the required ones, and an optional one when there is something to say. */
  lemma WrittenKeysAreExact(x: AnalysisRun)
    ensures ToDict(x).Obj? && RequiredFields(x).Keys == RUN_KEYS && OptionalFields(x).Keys <= OPTIONAL_RUN_KEYS
    ensures ExactKeys(ToDict(x), RUN_KEYS, OPTIONAL_RUN_KEYS) == Some(ToDict(x).fields)
    ensures forall key :: key in RUN_KEYS ==> key in ToDict(x).fields && ToDict(x).fields[key] == RequiredFields(x)[key]
    ensures forall key :: key in OPTIONAL_RUN_KEYS ==>
      && (key in ToDict(x).fields <==> key in OptionalFields(x))
      && (key in OptionalFields(x) ==> ToDict(x).fields[key] == OptionalFields(x)[key])
  {
    hide RequiredFields, OptionalFields;
    RequiredKeysAreWritten(x);
    OptionalKeysAreKnown(x);
    KeysAreDisjoint();
  }

  lemma IdentityLookups(x: AnalysisRun)
    ensures "contract_version" in RUN_KEYS && RequiredFields(x)["contract_version"] == Str(x.contractVersion)
    ensures "logical_analysis_id" in RUN_KEYS && RequiredFields(x)["logical_analysis_id"] == Str(x.logicalId)
    ensures "run_id" in RUN_KEYS && RequiredFields(x)["run_id"] == Str(x.runId)
    ensures "attempt_number" in RUN_KEYS && RequiredFields(x)["attempt_number"] == Int(x.attempt)
    ensures "previous_attempt_run_id" in RUN_KEYS
      && RequiredFields(x)["previous_attempt_run_id"] == NullOr(JsonString(x.previousRunId))
  {
    hide EncodeSeq, EncodeInput, EncodeCode, FormatInstant, StatusText, OriginText, NullOr, JsonString;
  }

  lemma ProvenanceLookups(x: AnalysisRun)
    ensures "status" in RUN_KEYS && RequiredFields(x)["status"] == Str(StatusText(x.status))
    ensures "data_origin" in RUN_KEYS && RequiredFields(x)["data_origin"] == Str(OriginText(x.origin))
    ensures "input" in RUN_KEYS && RequiredFields(x)["input"] == EncodeInput(x.input)
    ensures "code" in RUN_KEYS && RequiredFields(x)["code"] == EncodeCode(x.code)
    ensures "pipeline_version" in RUN_KEYS && RequiredFields(x)["pipeline_version"] == Str(x.pipelineVersion)
  {
    hide EncodeSeq, EncodeInput, EncodeCode, FormatInstant, StatusText, OriginText, NullOr, JsonString;
  }

  lemma ContentLookups(x: AnalysisRun)
    ensures "parameters" in RUN_KEYS && RequiredFields(x)["parameters"] == Obj(x.parameters)
    ensures "models" in RUN_KEYS && RequiredFields(x)["models"] == Arr(EncodeSeq(x.models, EncodeModelItem))
    ensures "artifacts" in RUN_KEYS && RequiredFields(x)["artifacts"] == Arr(EncodeSeq(x.artifacts, EncodeArtifactItem))
    ensures "stages" in RUN_KEYS && RequiredFields(x)["stages"] == Arr(EncodeSeq(x.stages, EncodeStageItem))
    ensures "created_at" in RUN_KEYS && RequiredFields(x)["created_at"] == Str(FormatInstant(x.createdAt))
  {
    hide EncodeSeq, EncodeInput, EncodeCode, FormatInstant, StatusText, OriginText, NullOr, JsonString;
  }

  ghost predicate SaysOptionally(fields: map<string, Json>, key: string, value: Option<Json>) {
    if value.Some? then key in fields && fields[key] == value.value else key !in fields
  }

  lemma OptionalKeysAreListed()
    ensures "started_at" in OPTIONAL_RUN_KEYS && "completed_at" in OPTIONAL_RUN_KEYS && "failure" in OPTIONAL_RUN_KEYS
    ensures "partial_reason" in OPTIONAL_RUN_KEYS && "cancellation_reason" in OPTIONAL_RUN_KEYS
  {
  }

  lemma OptionalTimeLookups(x: AnalysisRun)
    ensures SaysOptionally(OptionalFields(x), "started_at", JsonInstant(x.startedAt))
    ensures SaysOptionally(OptionalFields(x), "completed_at", JsonInstant(x.completedAt))
  {
    hide JsonInstant, EncodeOptionalError, JsonString;
  }

  lemma OptionalReasonLookups(x: AnalysisRun)
    ensures SaysOptionally(OptionalFields(x), "failure", EncodeOptionalError(x.failure))
    ensures SaysOptionally(OptionalFields(x), "partial_reason", JsonString(x.partialReason))
    ensures SaysOptionally(OptionalFields(x), "cancellation_reason", JsonString(x.cancellationReason))
  {
    hide JsonInstant, EncodeOptionalError, JsonString;
  }

  lemma OptionalInstantIsRead(fields: map<string, Json>, key: string, value: Option<Instant>)
    requires SaysOptionally(fields, key, JsonInstant(value))
    ensures GetOptionalInstant(fields, key) == Some(value)
  {
    hide AsInstant, FormatInstant;
    if value.Some? {
      InstantFieldsRoundTrip(value.value);
    }
  }

  lemma OptionalErrorIsRead(fields: map<string, Json>, key: string, value: Option<StructuredError>)
    requires SaysOptionally(fields, key, EncodeOptionalError(value))
    ensures GetOptionalError(fields, key) == Some(value)
  {
    hide DecodeError, EncodeError;
    if value.Some? {
      ErrorsRoundTrip(value.value);
    }
  }

  lemma OptionalStringIsRead(fields: map<string, Json>, key: string, value: Option<string>)
    requires SaysOptionally(fields, key, JsonString(value))
    ensures GetOptionalString(fields, key) == Some(value)
  {
  }

  lemma OptionalFieldsAreRead(x: AnalysisRun)
    ensures var fields := ToDict(x).fields;
      && GetOptionalInstant(fields, "started_at") == Some(x.startedAt)
      && GetOptionalInstant(fields, "completed_at") == Some(x.completedAt)
      && GetOptionalError(fields, "failure") == Some(x.failure)
      && GetOptionalString(fields, "partial_reason") == Some(x.partialReason)
      && GetOptionalString(fields, "cancellation_reason") == Some(x.cancellationReason)
  {
    hide ToDict, JsonInstant, EncodeOptionalError, JsonString, GetOptionalInstant, GetOptionalError, GetOptionalString;
    OptionalFieldsAreWritten(x);
    OptionalInstantIsRead(ToDict(x).fields, "started_at", x.startedAt);
    OptionalInstantIsRead(ToDict(x).fields, "completed_at", x.completedAt);
    OptionalErrorIsRead(ToDict(x).fields, "failure", x.failure);
    OptionalStringIsRead(ToDict(x).fields, "partial_reason", x.partialReason);
    OptionalStringIsRead(ToDict(x).fields, "cancellation_reason", x.cancellationReason);
  }

  /** Every valid attempt survives the wire form: reading back what was written gives the same record. */
  lemma RunsRoundTrip(x: AnalysisRun)
    requires ValidRun(x)
    ensures FromDict(ToDict(x)) == Some(x)
  {
    StageArraysRoundTrip(x.stages);
    hide ValidRun, ToDict, RequiredFields, OptionalFields, EncodeSeq, EncodeInput, EncodeCode, FormatInstant,
      StatusText, OriginText, AsMember, DecodeInput, DecodeCode, AsModels, AsArtifacts, AsStages, AsInstant,
      GetOptionalInstant, GetOptionalError, GetOptionalString, ExactKeys;
    WrittenKeysAreExact(x);
    IdentityLookups(x);
    ProvenanceLookups(x);
    ContentLookups(x);
    OptionalFieldsAreRead(x);
    StatusesRoundTrip(x.status);
    OriginsRoundTrip(x.origin);
    InputsRoundTrip(x.input);
    CodesRoundTrip(x.code);
    ModelArraysRoundTrip(x.models);
    ArtifactArraysRoundTrip(x.artifacts);
    InstantFieldsRoundTrip(x.createdAt);
  }

  /** So no two valid attempts share a wire form. */
  lemma WireFormsDiffer(a: AnalysisRun, b: AnalysisRun)
    requires ValidRun(a) && ValidRun(b) && a != b
    ensures ToDict(a) != ToDict(b)
  {
    hide ValidRun, ToDict, FromDict;
    RunsRoundTrip(a);
    RunsRoundTrip(b);
  }

  // -- the texts on the wire -------------------------------------------------

  /** The status of an attempt and the origin of its data, as they are written. */
  lemma StatusAndOriginAreWritten(x: AnalysisRun)
    ensures var fields := ToDict(x).fields;
      && "status" in fields && "data_origin" in fields
      && (fields["status"] == Str("queued") <==> x.status.Queued?)
      && (fields["status"] == Str("running") <==> x.status.Running?)
      && (fields["status"] == Str("succeeded") <==> x.status.Succeeded?)
      && (fields["status"] == Str("partial") <==> x.status.Partial?)
      && (fields["status"] == Str("failed") <==> x.status.Failed?)
      && (fields["status"] == Str("cancelled") <==> x.status.Cancelled?)
      && (fields["data_origin"] == Str("real") <==> x.origin.Real?)
      && (fields["data_origin"] == Str("synthetic") <==> x.origin.Synthetic?)
      && (fields["data_origin"] == Str("evaluation") <==> x.origin.Evaluation?)
      && (fields["data_origin"] == Str("legacy_v1") <==> x.origin.LegacyV1?)
  {
    hide ToDict, RequiredFields, OptionalFields;
    WrittenKeysAreExact(x);
    ProvenanceLookups(x);
  }

  /** The name and the status of a stage, as they are written. */
  lemma StageTextsAreWritten(x: Stage)
    ensures var fields := EncodeStage(x).fields;
      && "stage_name" in fields && "status" in fields
      && (fields["stage_name"] == Str("ingestion") <==> x.name.Ingestion?)
      && (fields["stage_name"] == Str("video_validation") <==> x.name.VideoValidation?)
      && (fields["stage_name"] == Str("detection") <==> x.name.Detection?)
      && (fields["stage_name"] == Str("tracking") <==> x.name.Tracking?)
      && (fields["stage_name"] == Str("identity_resolution") <==> x.name.IdentityResolution?)
      && (fields["stage_name"] == Str("pitch_calibration") <==> x.name.PitchCalibration?)
      && (fields["stage_name"] == Str("metrics") <==> x.name.Metrics?)
      && (fields["stage_name"] == Str("workload_advisory") <==> x.name.WorkloadAdvisory?)
      && (fields["stage_name"] == Str("artifact_publication") <==> x.name.ArtifactPublication?)
      && (fields["status"] == Str("queued") <==> x.status.StageQueued?)
      && (fields["status"] == Str("running") <==> x.status.StageRunning?)
      && (fields["status"] == Str("succeeded") <==> x.status.StageSucceeded?)
      && (fields["status"] == Str("partial") <==> x.status.StagePartial?)
      && (fields["status"] == Str("failed") <==> x.status.StageFailed?)
      && (fields["status"] == Str("cancelled") <==> x.status.StageCancelled?)
      && (fields["status"] == Str("skipped") <==> x.status.StageSkipped?)
  {
    hide EncodeStage;
    StageKeysAreExact(x);
    StageLookups(x);
  }

  /** An artifact and its category, as they are written. */
  lemma ArtifactsAreWritten(x: ArtifactReference)
    ensures var fields := EncodeArtifact(x).fields;
      && ARTIFACT_KEYS <= fields.Keys <= ARTIFACT_KEYS + {"schema_version"}
      && fields["artifact_id"] == Str(x.artifactId) && fields["name"] == Str(x.name)
      && fields["relative_path"] == Str(x.relativePath) && fields["media_type"] == Str(x.mediaType)
      && fields["sha256"] == Str(x.sha256) && fields["size_bytes"] == Int(x.sizeBytes)
      && (fields["category"] == Str("source") <==> x.category.Source?)
      && (fields["category"] == Str("tracks") <==> x.category.Tracks?)
      && (fields["category"] == Str("metrics") <==> x.category.MetricsData?)
      && (fields["category"] == Str("summary") <==> x.category.Summary?)
      && (fields["category"] == Str("workload_advisory") <==> x.category.Advisory?)
      && (fields["category"] == Str("visualization") <==> x.category.Visualization?)
      && (fields["category"] == Str("other") <==> x.category.Other?)
      && SaysOptionally(fields, "schema_version", JsonString(x.schemaVersion))
  {
    hide CategoryText;
    var text := CategoryText(x.category);
    assert EncodeArtifact(x).fields["category"] == Str(text);
    CategoryTexts(x.category);
  }

  lemma CategoryTexts(x: ArtifactCategory)
    ensures CategoryText(x) == "source" <==> x.Source?
    ensures CategoryText(x) == "tracks" <==> x.Tracks?
    ensures CategoryText(x) == "metrics" <==> x.MetricsData?
    ensures CategoryText(x) == "summary" <==> x.Summary?
    ensures CategoryText(x) == "workload_advisory" <==> x.Advisory?
    ensures CategoryText(x) == "visualization" <==> x.Visualization?
    ensures CategoryText(x) == "other" <==> x.Other?
  {
  }

  /** The records of an attempt, as they are written. */
  lemma RecordsAreWritten(x: AnalysisRun)
    ensures var fields := ToDict(x).fields;
      && RUN_KEYS <= fields.Keys
      && fields["run_id"] == Str(x.runId) && fields["logical_analysis_id"] == Str(x.logicalId)
      && fields["attempt_number"] == Int(x.attempt)
      && fields["previous_attempt_run_id"] == (if x.previousRunId.None? then Null else Str(x.previousRunId.value))
      && fields["contract_version"] == Str(x.contractVersion)
      && fields["pipeline_version"] == Str(x.pipelineVersion) && fields["parameters"] == Obj(x.parameters)
      && fields["input"] == Obj(map[
           "uri" := Str(x.input.uri), "sha256" := Str(x.input.sha256), "media_type" := Str(x.input.mediaType)])
      && fields["code"] == Obj(map[
           "repository" := Str(x.code.repository), "revision" := Str(x.code.revision), "dirty" := Bool(x.code.dirty)])
  {
    hide ToDict, RequiredFields, OptionalFields, StatusText, OriginText, FormatInstant;
    WrittenKeysAreExact(x);
    IdentityLookups(x);
    ProvenanceLookups(x);
    ContentLookups(x);
  }

  /** Models, artifacts and stages are written one by one, in their order. */
  lemma ListsAreWritten(x: AnalysisRun)
    ensures var fields := ToDict(x).fields;
      && RUN_KEYS <= fields.Keys
      && fields["models"].Arr? && |fields["models"].items| == |x.models|
      && fields["artifacts"].Arr? && |fields["artifacts"].items| == |x.artifacts|
      && fields["stages"].Arr? && |fields["stages"].items| == |x.stages|
      && (forall i :: 0 <= i < |x.models| ==> fields["models"].items[i] == EncodeModel(x.models[i]))
      && (forall i :: 0 <= i < |x.artifacts| ==> fields["artifacts"].items[i] == EncodeArtifact(x.artifacts[i]))
      && (forall i :: 0 <= i < |x.stages| ==> fields["stages"].items[i] == EncodeStage(x.stages[i]))
  {
    hide ToDict, RequiredFields, OptionalFields, EncodeModel, EncodeArtifact, EncodeStage;
    WrittenKeysAreExact(x);
    ContentLookups(x);
  }

  /** The moments and the reasons of an attempt are written exactly when there are any. */
  lemma OptionalFieldsAreWritten(x: AnalysisRun)
    ensures ToDict(x).Obj?
    ensures var fields := ToDict(x).fields;
      && SaysOptionally(fields, "started_at", JsonInstant(x.startedAt))
      && SaysOptionally(fields, "completed_at", JsonInstant(x.completedAt))
      && SaysOptionally(fields, "failure", EncodeOptionalError(x.failure))
      && SaysOptionally(fields, "partial_reason", JsonString(x.partialReason))
      && SaysOptionally(fields, "cancellation_reason", JsonString(x.cancellationReason))
  {
    hide ToDict, OptionalFields, RequiredFields, JsonInstant, EncodeOptionalError, JsonString, ExactKeys;
    WrittenKeysAreExact(x);
    OptionalKeysAreListed();
    OptionalTimeLookups(x);
    OptionalReasonLookups(x);
  }

  /** A model and an error, as they are written. */
  lemma ModelsAndErrorsAreWritten(m: ModelReference, e: StructuredError)
    ensures EncodeModel(m) == Obj(
      if m.sha256.Some? then map["name" := Str(m.name), "version" := Str(m.version), "sha256" := Str(m.sha256.value)]
      else map["name" := Str(m.name), "version" := Str(m.version)])
    ensures EncodeError(e) == Obj(map[
      "error_code" := Str(e.code), "safe_message" := Str(e.safeMessage), "retryable" := Bool(e.retryable),
      "occurred_at" := Str(FormatInstant(e.occurredAt)),
      "technical_details" := if e.details.Some? then Obj(e.details.value) else Null])
  {
    hide FormatInstant;
  }

  // -- what is read, and what is refused -------------------------------------

  /** Only an object with all of the required keys, and with no unknown one, is read as an attempt. */
  lemma OnlyExactKeysAreRead(j: Json)
    ensures FromDict(j).Some? ==>
      && j.Obj?
      && {"contract_version", "logical_analysis_id", "run_id", "attempt_number", "previous_attempt_run_id", "status",
          "data_origin", "input", "code", "pipeline_version", "parameters", "models", "artifacts", "stages",
          "created_at"} <= j.fields.Keys
      && j.fields.Keys <= RUN_KEYS + {"started_at", "completed_at", "failure", "partial_reason", "cancellation_reason"}
    ensures DecodeStage(j).Some? ==> j.Obj? && j.fields.Keys == STAGE_KEYS
    ensures DecodeError(j).Some? ==>
      j.Obj? && j.fields.Keys == {"error_code", "safe_message", "retryable", "occurred_at", "technical_details"}
    ensures DecodeArtifact(j).Some? ==>
      j.Obj? && ARTIFACT_KEYS <= j.fields.Keys <= ARTIFACT_KEYS + {"schema_version"}
  {
    hide AsMember, AsInstant, DecodeInput, DecodeCode, AsModels, AsArtifacts, AsStages, GetOptionalInstant,
      GetOptionalError, GetOptionalString, CheckedRun, CheckedStage, AsOptionalInstant, AsStringArray,
      AsOptionalError;
  }

  /** What is read is a valid attempt, and says what the object says. */
  lemma ReadRunsSayWhatWasSent(j: Json)
    requires FromDict(j).Some?
    ensures j.Obj? && RUN_KEYS <= j.fields.Keys
    ensures var x, fields := FromDict(j).value, j.fields;
      && ValidRun(x)
      && fields["run_id"] == Str(x.runId) && fields["logical_analysis_id"] == Str(x.logicalId)
      && fields["attempt_number"] == Int(x.attempt) && fields["contract_version"] == Str(x.contractVersion)
      && fields["previous_attempt_run_id"] == (if x.previousRunId.None? then Null else Str(x.previousRunId.value))
      && fields["pipeline_version"] == Str(x.pipelineVersion) && fields["parameters"] == Obj(x.parameters)
  {
    hide ValidRun, AsMember, AsInstant, DecodeInput, DecodeCode, AsModels, AsArtifacts, AsStages, GetOptionalInstant,
      GetOptionalError, GetOptionalString;
  }

  lemma {:induction false} NamedIsAMember<T>(members: seq<T>, text: T -> string, wanted: string)
    ensures Named(members, text, wanted).Some? ==> text(Named(members, text, wanted).value) == wanted
  {
    if members != [] && text(members[0]) != wanted {
      NamedIsAMember(members[1..], text, wanted);
    }
  }

  lemma MembersAreTexts<T>(j: Json, members: seq<T>, text: T -> string)
    ensures AsMember(j, members, text).Some? ==> j == Str(text(AsMember(j, members, text).value))
  {
    hide Named;
    if j.Str? {
      NamedIsAMember(members, text, j.s);
    }
  }

  /** Only the texts of the contract are read as a status or an origin, and each as the one it names. */
  lemma ReadTextsAreTheWritten(j: Json)
    requires FromDict(j).Some?
    ensures j.Obj? && RUN_KEYS <= j.fields.Keys
    ensures j.fields["status"] == Str(StatusText(FromDict(j).value.status))
    ensures j.fields["data_origin"] == Str(OriginText(FromDict(j).value.origin))
  {
    hide ValidRun, AsMember, AsInstant, DecodeInput, DecodeCode, AsModels, AsArtifacts, AsStages, GetOptionalInstant,
      GetOptionalError, GetOptionalString, StatusText, OriginText;
    ReadRunsSayWhatWasSent(j);
    MembersAreTexts(j.fields["status"], RUN_STATUSES, StatusOf);
    MembersAreTexts(j.fields["data_origin"], ORIGINS, OriginOf);
  }

  /** A stage may give a whole percentage without a fraction. */
  lemma WholePercentagesAreRead(x: Stage, percent: int)
    requires ValidStage(x) && x.progress == percent as real
    ensures EncodeStage(x).Obj?
    ensures DecodeStage(Obj(EncodeStage(x).fields["progress_percent" := Int(percent)])) == Some(x)
  {
    hide EncodeStage, AsMember, StageText, StageStatusText, AsOptionalInstant, JsonInstant, AsStringArray, EncodeSeq,
      AsOptionalError, EncodeOptionalError, ValidStage, NullOr, JsonString, AsOptionalString;
    StageKeysAreExact(x);
    StageLookups(x);
    MoreStageLookups(x);
    OnlyThePercentageChanges(x, percent);
    StagesRoundTrip(x);
  }

  lemma OnlyThePercentageChanges(x: Stage, percent: int)
    ensures EncodeStage(x).Obj?
    ensures var fields := EncodeStage(x).fields["progress_percent" := Int(percent)];
      && fields.Keys == STAGE_KEYS
      && forall key :: key in STAGE_KEYS && key != "progress_percent" ==> fields[key] == EncodeStage(x).fields[key]
  {
    hide EncodeStage;
    StageKeysAreExact(x);
    StageLookups(x);
  }

  /** Where an error may stand, any empty value reads like none. */
  lemma EmptyErrorsReadLikeNone(j: Json)
    ensures AsOptionalError(j) == Some(None) <==>
      j in {Null, Bool(false), Int(0), Float(0.0), Str(""), Arr([]), Obj(map[])}
  {
    hide DecodeError;
  }
}
