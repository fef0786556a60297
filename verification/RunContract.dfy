/** One immutable attempt of a logical analysis: its record, its validation, and its transitions. */
module RunContract {
  import opened Common

  /** Any JSON value. A number keeps whether it was written as an integer. */
  datatype Json =
    | Null
    | Bool(b: bool)
    | Int(i: int)
    | Float(r: real)
    | Str(s: string)
    | Arr(items: seq<Json>)
    | Obj(fields: map<string, Json>)

  /** A UTC instant: microseconds since the start of year 1. */
  const END_OF_TIME: nat := 3_652_059 * 86_400_000_000
  type Instant = t: nat | t < END_OF_TIME

  const CONTRACT_VERSION := "footballai.analysis-run/v1"

  datatype DataOrigin = Real | Synthetic | Evaluation | LegacyV1

  datatype RunStatus = Queued | Running | Succeeded | Partial | Failed | Cancelled {
    predicate Terminal() {
      Succeeded? || Partial? || Failed? || Cancelled?
    }
  }

  datatype StageName =
    | Ingestion | VideoValidation | Detection | Tracking | IdentityResolution | PitchCalibration
    | Metrics | WorkloadAdvisory | ArtifactPublication

  datatype StageStatus =
    | StageQueued | StageRunning | StageSucceeded | StagePartial | StageFailed | StageCancelled | StageSkipped {
    predicate Terminal() {
      !StageQueued? && !StageRunning?
    }
  }

  function StageText(name: StageName): string {
    match name
    case Ingestion => "ingestion"
    case VideoValidation => "video_validation"
    case Detection => "detection"
    case Tracking => "tracking"
    case IdentityResolution => "identity_resolution"
    case PitchCalibration => "pitch_calibration"
    case Metrics => "metrics"
    case WorkloadAdvisory => "workload_advisory"
    case ArtifactPublication => "artifact_publication"
  }

  function StageTitle(name: StageName): string {
    match name
    case Ingestion => "Ingestion"
    case VideoValidation => "Video Validation"
    case Detection => "Detection"
    case Tracking => "Tracking"
    case IdentityResolution => "Identity Resolution"
    case PitchCalibration => "Pitch Calibration"
    case Metrics => "Metrics"
    case WorkloadAdvisory => "Workload Advisory"
    case ArtifactPublication => "Artifact Publication"
  }

  datatype ArtifactCategory = Source | Tracks | MetricsData | Summary | Advisory | Visualization | Other

  datatype InputReference = InputReference(uri: string, sha256: string, mediaType: string)
  datatype CodeReference = CodeReference(repository: string, revision: string, dirty: bool)
  datatype ModelReference = ModelReference(name: string, version: string, sha256: Option<string>)

  datatype ArtifactReference = ArtifactReference(
    artifactId: string, name: string, category: ArtifactCategory, relativePath: string, mediaType: string,
    sha256: string, sizeBytes: int, schemaVersion: Option<string>)

  datatype StructuredError = StructuredError(
    code: string, safeMessage: string, retryable: bool, occurredAt: Instant, details: Option<map<string, Json>>)

  datatype Stage = Stage(
    id: string, name: StageName, required: bool, status: StageStatus, progress: real, attempt: int,
    startedAt: Option<Instant>, finishedAt: Option<Instant>, producedArtifactIds: seq<string>,
    error: Option<StructuredError>, metrics: map<string, Json>, message: Option<string>)

  datatype AnalysisRun = AnalysisRun(
    logicalId: string, runId: string, attempt: int, previousRunId: Option<string>, status: RunStatus,
    origin: DataOrigin, input: InputReference, code: CodeReference, pipelineVersion: string,
    parameters: map<string, Json>, models: seq<ModelReference>, artifacts: seq<ArtifactReference>,
    stages: seq<Stage>, createdAt: Instant, startedAt: Option<Instant>, completedAt: Option<Instant>,
    failure: Option<StructuredError>, partialReason: Option<string>, cancellationReason: Option<string>,
    contractVersion: string)

  // -- validation ------------------------------------------------------------

  predicate NotBefore(later: Option<Instant>, earlier: Instant) {
    later.Some? ==> earlier <= later.value
  }

  predicate ValidStage(s: Stage) {
    && 0.0 <= s.progress <= 100.0
    && s.attempt >= 1
    && (s.startedAt.Some? ==> NotBefore(s.finishedAt, s.startedAt.value))
    && (s.status.StageQueued? ==> s.startedAt.None? && s.finishedAt.None?)
    && (s.status.StageRunning? ==> s.startedAt.Some? && s.finishedAt.None?)
    && (s.status.Terminal() ==> s.finishedAt.Some?)
    && (s.status.StageSucceeded? ==> s.progress == 100.0)
    && (s.status.StageFailed? ==> s.error.Some?)
    && AllDistinct(s.producedArtifactIds)
  }

  predicate ValidAttemptChain(r: AnalysisRun) {
    && r.attempt >= 1
    && (r.attempt == 1 <==> r.previousRunId.None?)
    && r.previousRunId != Some(r.runId)
  }

  predicate ValidTimes(r: AnalysisRun) {
    && NotBefore(r.startedAt, r.createdAt)
    && NotBefore(r.completedAt, if r.startedAt.Some? then r.startedAt.value else r.createdAt)
  }

  function ModelNames(models: seq<ModelReference>): seq<string> {
    seq(|models|, i requires 0 <= i < |models| => models[i].name)
  }

  function ArtifactIds(artifacts: seq<ArtifactReference>): (ids: seq<string>)
    ensures |ids| == |artifacts|
    ensures forall i :: 0 <= i < |ids| ==> ids[i] == artifacts[i].artifactId
  {
    seq(|artifacts|, i requires 0 <= i < |artifacts| => artifacts[i].artifactId)
  }

  function ArtifactNames(artifacts: seq<ArtifactReference>): seq<string> {
    seq(|artifacts|, i requires 0 <= i < |artifacts| => artifacts[i].name)
  }

  function ArtifactPaths(artifacts: seq<ArtifactReference>): seq<string> {
    seq(|artifacts|, i requires 0 <= i < |artifacts| => artifacts[i].relativePath)
  }

  function StageIds(stages: seq<Stage>): (ids: seq<string>)
    ensures |ids| == |stages| && forall i :: 0 <= i < |ids| ==> ids[i] == stages[i].id
  {
    seq(|stages|, i requires 0 <= i < |stages| => stages[i].id)
  }

  function StageNames(stages: seq<Stage>): (names: seq<StageName>)
    ensures |names| == |stages| && forall i :: 0 <= i < |names| ==> names[i] == stages[i].name
  {
    seq(|stages|, i requires 0 <= i < |stages| => stages[i].name)
  }

  predicate UniqueArtifacts(artifacts: seq<ArtifactReference>) {
    && AllDistinct(ArtifactIds(artifacts))
    && AllDistinct(ArtifactNames(artifacts))
    && AllDistinct(ArtifactPaths(artifacts))
  }

  predicate UniqueStages(stages: seq<Stage>) {
    AllDistinct(StageIds(stages)) && AllDistinct(StageNames(stages))
  }

  predicate ValidLinks(r: AnalysisRun) {
    forall s :: s in r.stages ==>
      && s.attempt == r.attempt
      && forall id :: id in s.producedArtifactIds ==> id in ArtifactIds(r.artifacts)
  }

  predicate AnyStage(stages: seq<Stage>, which: StageStatus -> bool) {
    exists s :: s in stages && which(s.status)
  }

  const Active: StageStatus -> bool := (s: StageStatus) => s.StageQueued? || s.StageRunning?
  const NotQueued: StageStatus -> bool := (s: StageStatus) => !s.StageQueued?
  const InProgress: StageStatus -> bool := (s: StageStatus) => s.StageRunning?

  predicate Incomplete(s: StageStatus) {
    s.StagePartial? || s.StageFailed? || s.StageCancelled? || s.StageSkipped?
  }

  predicate ValidLifecycle(r: AnalysisRun) {
    match r.status
    case Queued =>
      && r.startedAt.None? && r.completedAt.None? && r.failure.None? && r.artifacts == []
      && r.partialReason.None? && r.cancellationReason.None?
      && !AnyStage(r.stages, NotQueued)
    case Running =>
      && r.startedAt.Some? && r.completedAt.None? && r.failure.None? && r.artifacts == []
      && r.partialReason.None? && r.cancellationReason.None?
    case Succeeded =>
      && r.startedAt.Some? && r.completedAt.Some? && r.failure.None?
      && r.partialReason.None? && r.cancellationReason.None?
      && r.artifacts != [] && r.stages != []
      && !AnyStage(r.stages, Active)
      && (forall s :: s in r.stages && s.required ==> s.status.StageSucceeded?)
    case Partial =>
      && r.startedAt.Some? && r.completedAt.Some? && r.failure.None?
      && r.partialReason.Some? && r.cancellationReason.None?
      && r.artifacts != [] && r.stages != []
      && !AnyStage(r.stages, Active)
      && (exists s :: s in r.stages && s.required && Incomplete(s.status))
    case Failed =>
      && r.completedAt.Some? && r.failure.Some? && r.artifacts == []
      && r.partialReason.None? && r.cancellationReason.None?
      && !AnyStage(r.stages, InProgress)
    case Cancelled =>
      && r.completedAt.Some? && r.failure.None? && r.artifacts == []
      && r.partialReason.None?
      && !AnyStage(r.stages, InProgress)
  }

  predicate ValidRun(r: AnalysisRun) {
    && r.contractVersion == CONTRACT_VERSION
    && ValidAttemptChain(r)
    && ValidTimes(r)
    && AllDistinct(ModelNames(r.models))
    && UniqueArtifacts(r.artifacts)
    && UniqueStages(r.stages)
    && (forall s :: s in r.stages ==> ValidStage(s))
    && ValidLinks(r)
    && ValidLifecycle(r)
  }

  // -- construction and transitions ------------------------------------------

  datatype ContractError = Invalid | InvalidTransition

  /** Building a record validates it, and an invalid record is never returned. */
  function Checked(r: AnalysisRun): Result<AnalysisRun, ContractError> {
    if ValidRun(r) then Ok(r) else Err(Invalid)
  }

  /** The provenance a new attempt is created from. */
  datatype Provenance = Provenance(
    code: CodeReference, pipelineVersion: string, parameters: map<string, Json>, models: seq<ModelReference>)

  function NewRun(
      logicalId: string, runId: string, origin: DataOrigin, input: InputReference, provenance: Provenance,
      stages: seq<Stage>, now: Instant): Result<AnalysisRun, ContractError>
  {
    Checked(AnalysisRun(
      logicalId, runId, 1, None, Queued, origin, input, provenance.code, provenance.pipelineVersion,
      provenance.parameters, provenance.models, [], stages, now, None, None, None, None, None, CONTRACT_VERSION))
  }

  function RetryFrom(previous: AnalysisRun, runId: string, provenance: Provenance, now: Instant)
    : Result<AnalysisRun, ContractError>
  {
    if !previous.status.Failed? && !previous.status.Partial? then Err(InvalidTransition)
    else Checked(AnalysisRun(
      previous.logicalId, runId, previous.attempt + 1, Some(previous.runId), Queued, previous.origin,
      previous.input, provenance.code, provenance.pipelineVersion, provenance.parameters, provenance.models,
      [], [], now, None, None, None, None, None, CONTRACT_VERSION))
  }

  function Start(r: AnalysisRun, now: Instant): Result<AnalysisRun, ContractError> {
    if !r.status.Queued? then Err(InvalidTransition)
    else Checked(r.(status := Running, startedAt := Some(now)))
  }

  function WithStages(r: AnalysisRun, stages: seq<Stage>): Result<AnalysisRun, ContractError> {
    if r.status.Terminal() then Err(InvalidTransition) else Checked(r.(stages := stages))
  }

  function Succeed(r: AnalysisRun, artifacts: seq<ArtifactReference>, stages: seq<Stage>, now: Instant)
    : Result<AnalysisRun, ContractError>
  {
    if !r.status.Running? then Err(InvalidTransition)
    else Checked(r.(status := Succeeded, artifacts := artifacts, stages := stages, completedAt := Some(now)))
  }

  function CompletePartial(
      r: AnalysisRun, artifacts: seq<ArtifactReference>, reason: string, stages: seq<Stage>, now: Instant)
    : Result<AnalysisRun, ContractError>
  {
    if !r.status.Running? then Err(InvalidTransition)
    else Checked(r.(
      status := Partial, artifacts := artifacts, stages := stages, partialReason := Some(reason),
      completedAt := Some(now)))
  }

  function Fail(r: AnalysisRun, failure: StructuredError, stages: seq<Stage>, now: Instant)
    : Result<AnalysisRun, ContractError>
  {
    if r.status.Terminal() then Err(InvalidTransition)
    else Checked(r.(status := Failed, failure := Some(failure), stages := stages, completedAt := Some(now)))
  }

  function Cancel(r: AnalysisRun, reason: string, stages: seq<Stage>, now: Instant)
    : Result<AnalysisRun, ContractError>
  {
    if r.status.Terminal() then Err(InvalidTransition)
    else Checked(r.(
      status := Cancelled, cancellationReason := Some(reason), stages := stages, completedAt := Some(now)))
  }
}
