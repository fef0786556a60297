/** The stage executor as a machine: one step for each thing it does to the stored run. */
module Executor {
  import opened Common
  import opened RunContract
  import opened Lifecycle
  import opened RunStore

  datatype Profile = DemoFast | V1Compat | TestFail

  datatype Job = Job(runId: string, attempt: int, profile: Profile)

  datatype Failure = Failure(code: string, message: string)

  /** One artifact, as it will be written. An unusable one raises when it is prepared. */
  datatype Item =
    | Item(artifactId: string, name: string, category: ArtifactCategory, path: string, content: Bytes,
        mediaType: string, schemaVersion: string)
    | Unusable

  /**
   * One payload of the pipeline: a finished file, or a document with the encodings that are made of it. `schema` and
   * `tracks` are missing when the document has no such key.
   */
  datatype Payload =
    | Generated(artifactId: string, name: string, category: ArtifactCategory, path: string, content: Bytes,
        mediaType: string, schemaVersion: string)
    | Document(schema: Option<string>, indented: Bytes, compact: Bytes, tracks: Option<Bytes>)

  datatype Entry = Entry(key: string, payload: Payload)

  /** What the pipeline adapter returned: payloads by key, in order. */
  datatype Build = Build(entries: seq<Entry>)

  datatype BuildOutcome = Built(build: Build) | BuildRaised(failure: Failure) | BuildCancelled

  datatype Outcome = Returned(status: RunStatus) | Raised

  /** Where a delivery stands between two accesses to the store. */
  datatype Point =
    | Idle
    | Claimed
    | CancellingQueued
    | Starting
    | AtStage(i: nat, build: Option<Build>)
    | Checked(i: nat, build: Option<Build>)
    | InStage(i: nat, build: Option<Build>)
    | PastCheckpoint(i: nat, build: Option<Build>)
    | Publishing(payloads: Build, references: seq<ArtifactReference>)
    | Verified(payloads: Build, references: seq<ArtifactReference>)
    | Completing(payloads: Build, references: seq<ArtifactReference>)
    | Cancelling(active: int)
    | RecordingCancel(active: int)
    | Failing(active: int, failure: Failure)
    | RecordingFailure(active: int, failure: Failure)
    | Finished(outcome: Outcome)
  {
    predicate Busy() {
      !Idle? && !Finished?
    }

    /** The loop is over and the payloads are there. */
    predicate Publishes() {
      Publishing? || Verified? || Completing?
    }

    predicate Stops() {
      Cancelling? || RecordingCancel? || Failing? || RecordingFailure?
    }
  }

  /** One run as the store holds it. */
  datatype Cell = Cell(run: AnalysisRun, files: Files, marked: bool)

  /** `local` is the record in the memory of the worker. */
  datatype World = World(cell: Cell, local: AnalysisRun, clock: Instant, point: Point)

  /** What the world outside the store answers during one step. */
  datatype Answers = Answers(build: BuildOutcome, metrics: Option<map<string, Json>>)

  datatype Event =
    | RequestCancellation
    | EndElsewhere(run: AnalysisRun)
    | Crash
    | Deliver
    | Work(at: Instant, end: Instant, answers: Answers)

  // -- texts and records the executor writes ---------------------------------

  const UNEXPECTED := Failure("execution_failed", "Analysis execution failed safely.")
  const TEST_FAILURE := Failure("test_stage_failure", "The test profile stopped at detection.")
  const INTEGRITY_FAILURE :=
    Failure("artifact_integrity_failed", "A generated artifact failed integrity verification.")
  const ARTIFACTS := "artifacts/"
  const TRACK_SUMMARY_PATH := ARTIFACTS + "track-summary.json"
  const WORKLOAD_ADVISORY_PATH := ARTIFACTS + "workload-advisory.json"
  const SUMMARY_ALIAS_PATH := ARTIFACTS + "dashboard-track-summary.json"
  const ADVISORY_ALIAS_PATH := ARTIFACTS + "dashboard-workload-advisory.json"

  predicate Done(s: Stage) {
    s.status.StageSucceeded? || s.status.StageSkipped?
  }

  /** A stage the V1-compatible profile leaves out, without looking at the cancellation mark. */
  predicate Skippable(job: Job, s: Stage) {
    job.profile.V1Compat? && !s.required
  }

  function SkippedStage(s: Stage, at: Instant): Stage {
    s.(status := StageSkipped, finishedAt := Some(at),
       message := Some("Unsupported by the V1-compatible algorithm family"))
  }

  function RunningStage(s: Stage, at: Instant): Stage {
    s.(status := StageRunning, progress := 10.0, startedAt := if s.startedAt.Some? then s.startedAt else Some(at),
       finishedAt := None, error := None, message := Some(StageTitle(s.name) + " in progress"))
  }

  function SucceededStage(s: Stage, at: Instant, metrics: map<string, Json>): Stage {
    s.(status := StageSucceeded, progress := 100.0, finishedAt := Some(at), metrics := metrics,
       producedArtifactIds := [], message := Some(StageTitle(s.name) + " completed"))
  }

  function CancelledStage(s: Stage, at: Instant): Stage {
    s.(status := StageCancelled, finishedAt := Some(at), message := Some("Cancelled at a safe checkpoint"))
  }

  function FailedStage(s: Stage, at: Instant, failure: Failure): Stage {
    s.(status := StageFailed, finishedAt := Some(at), message := Some(failure.message),
       error := Some(StructuredError(failure.code, failure.message, true, at, None)))
  }

  function PartialStage(s: Stage): Stage {
    s.(status := StagePartial, progress := 80.0,
       message := Some("Useful artifacts published before a controlled partial stop"))
  }

  /** Replaces the active stage, when there is one and it is running. */
  function StopActive(stages: seq<Stage>, active: int, stopped: Stage -> Stage): seq<Stage> {
    if 0 <= active < |stages| && stages[active].status.StageRunning?
    then stages[active := stopped(stages[active])]
    else stages
  }

  function CancelActive(stages: seq<Stage>, active: int, at: Instant): seq<Stage> {
    StopActive(stages, active, (s: Stage) => CancelledStage(s, at))
  }

  function FailActive(stages: seq<Stage>, active: int, at: Instant, failure: Failure): seq<Stage> {
    StopActive(stages, active, (s: Stage) => FailedStage(s, at, failure))
  }

  function RunFailure(stages: seq<Stage>, active: int, at: Instant, failure: Failure): StructuredError {
    var where := if 0 <= active < |stages| then StageText(stages[active].name) else "ingestion";
    StructuredError(failure.code, failure.message, true, at, Some(map["stage" := Str(where)]))
  }

  function ProducedIds(name: StageName, ids: seq<string>): seq<string> {
    if name.Detection? && "detections" in ids then ["detections"]
    else if name.Tracking? && "tracklets" in ids then ["tracklets"]
    else if name.ArtifactPublication? then ids
    else []
  }

  function PublishedStages(stages: seq<Stage>, ids: seq<string>): (published: seq<Stage>)
    ensures |published| == |stages|
    ensures forall i :: 0 <= i < |stages| ==>
      published[i] == stages[i].(producedArtifactIds := ProducedIds(stages[i].name, ids))
  {
    seq(|stages|, i requires 0 <= i < |stages| =>
      stages[i].(producedArtifactIds := ProducedIds(stages[i].name, ids)))
  }

  predicate ForcedPartial(run: AnalysisRun) {
    "force_partial" in run.parameters && run.parameters["force_partial"] == Bool(true)
  }

  const PARTIAL_REASON := "Controlled partial completion with useful artifacts."

  /** The completed record, when the contract accepts it. */
  function CompletedRun(run: AnalysisRun, references: seq<ArtifactReference>, end: Instant)
    : Result<AnalysisRun, ContractError>
  {
    var stages := PublishedStages(run.stages, ArtifactIds(references));
    if !ForcedPartial(run) then Succeed(run, references, stages, end)
    else if stages == [] then Err(Invalid)
    else
      CompletePartial(
        run, references, PARTIAL_REASON, stages[|stages| - 1 := PartialStage(stages[|stages| - 1])], end)
  }

  function CancelledRun(run: AnalysisRun, active: int, at: Instant, end: Instant): Result<AnalysisRun, ContractError> {
    Cancel(run, "Cancellation requested by user.", CancelActive(run.stages, active, at), end)
  }

  function FailedRun(run: AnalysisRun, active: int, failure: Failure, at: Instant, end: Instant)
    : Result<AnalysisRun, ContractError>
  {
    Fail(run, RunFailure(run.stages, active, at, failure), FailActive(run.stages, active, at, failure), end)
  }

  // -- steps -----------------------------------------------------------------

  predicate SaveAllowed(digest: Digest, cell: Cell, run: AnalysisRun) {
    && EnsureTransitionAllowed(cell.run, run).None?
    && (run.status.Succeeded? || run.status.Partial? ==> VerifyArtifacts(digest, cell.files, run.artifacts))
  }

  /** Saves a record that was built, and otherwise leaves the store alone. */
  function SaveOr(digest: Digest, w: World, built: Result<AnalysisRun, ContractError>, next: Point, refused: Point)
    : World
  {
    if built.Ok? && SaveAllowed(digest, w.cell, built.value)
    then w.(cell := w.cell.(run := built.value), local := built.value, point := next)
    else w.(point := refused)
  }

  /** The stage an exception is blamed on once the loop is over. */
  function LastIndex(run: AnalysisRun): int {
    |run.stages| - 1
  }

  /** The adapter raised. It reports a cancellation only when it saw the mark. */
  function BuildStopped(w: World, active: int, outcome: BuildOutcome): World
    requires !outcome.Built?
  {
    match outcome
    case BuildRaised(failure) => w.(point := Failing(active, failure))
    case BuildCancelled => if w.cell.marked then w.(point := Cancelling(active)) else w
  }

  /** The top of the loop: skip what is finished or unsupported, and stop when cancelled. */
  function EnterStage(digest: Digest, job: Job, w: World, at: Instant): World
    requires w.point.AtStage? && w.point.i < |w.local.stages|
  {
    var i, stage := w.point.i, w.local.stages[w.point.i];
    if Done(stage) then w.(point := AtStage(i + 1, w.point.build))
    else if Skippable(job, stage) then
      SaveOr(digest, w, WithStages(w.local, w.local.stages[i := SkippedStage(stage, at)]),
        AtStage(i + 1, w.point.build), Failing(i, UNEXPECTED))
    else if w.cell.marked then w.(point := Cancelling(i))
    else if job.profile.TestFail? && job.attempt == 1 && i == 2 then w.(point := Failing(i, TEST_FAILURE))
    else w.(point := Checked(i, w.point.build))
  }

  function BeginStage(digest: Digest, w: World, at: Instant): World
    requires w.point.Checked? && w.point.i < |w.local.stages|
  {
    var i := w.point.i;
    SaveOr(digest, w, WithStages(w.local, w.local.stages[i := RunningStage(w.local.stages[i], at)]),
      InStage(i, w.point.build), Failing(i, UNEXPECTED))
  }

  predicate BuildsHere(job: Job, stage: Stage) {
    job.profile.V1Compat? && stage.name.Detection?
  }

  /** The second checkpoint, after the detection stage of the V1-compatible profile has run the pipeline. */
  function LeaveStage(job: Job, w: World, outcome: BuildOutcome): World
    requires w.point.InStage? && w.point.i < |w.local.stages|
  {
    var i, builds := w.point.i, BuildsHere(job, w.local.stages[w.point.i]);
    if builds && !outcome.Built? then BuildStopped(w, i, outcome)
    else if w.cell.marked then w.(point := Cancelling(i))
    else w.(point := PastCheckpoint(i, if builds then Some(outcome.build) else w.point.build))
  }

  function FinishStage(digest: Digest, w: World, at: Instant, metrics: Option<map<string, Json>>): World
    requires w.point.PastCheckpoint? && w.point.i < |w.local.stages|
  {
    var i := w.point.i;
    if metrics.None? then w.(point := Failing(i, UNEXPECTED))
    else
      SaveOr(digest, w, WithStages(w.local, w.local.stages[i := SucceededStage(w.local.stages[i], at, metrics.value)]),
        AtStage(i + 1, w.point.build), Failing(i, UNEXPECTED))
  }

  const SUMMARY_KEY := "track-summary"
  const ADVISORY_KEY := "workload-advisory"

  /** The title, the category and the path under which a document is published. */
  datatype Slot = Slot(title: string, category: ArtifactCategory, path: string)

  function SlotOf(key: string): Option<Slot> {
    match key
    case "team-summary" => Some(Slot("Team Summary", Summary, ARTIFACTS + "team-summary.json"))
    case "track-summary" => Some(Slot("Track Summary", Tracks, TRACK_SUMMARY_PATH))
    case "track-detail" => Some(Slot("Track Detail", Tracks, ARTIFACTS + "track-detail.json"))
    case "workload-advisory" => Some(Slot("Workload Advisory", Advisory, WORKLOAD_ADVISORY_PATH))
    case "analysis-diagnostics" => Some(Slot("Analysis Diagnostics", Other, ARTIFACTS + "analysis-diagnostics.json"))
    case _ => None
  }

  function ItemOf(entry: Entry): Item {
    match entry.payload
    case Generated(artifactId, name, category, path, content, mediaType, schemaVersion) =>
      Item(artifactId, name, category, path, content, mediaType, schemaVersion)
    case Document(schema, indented, _, _) =>
      var slot := SlotOf(entry.key);
      if slot.None? || schema.None? then Unusable
      else
        Item(entry.key, slot.value.title, slot.value.category, slot.value.path, indented, "application/json",
          schema.value)
  }

  /** The payload under a key, and of several the last. */
  function PayloadOf(entries: seq<Entry>, key: string): Option<Payload> {
    if entries == [] then None
    else if entries[|entries| - 1].key == key then Some(entries[|entries| - 1].payload)
    else PayloadOf(entries[..|entries| - 1], key)
  }

  /** The dashboard aliases are made of two of the documents. Without such a document there is nothing to write. */
  function SummaryAlias(build: Build): Item {
    match PayloadOf(build.entries, SUMMARY_KEY)
    case Some(Document(_, _, compact, _)) =>
      Item("legacy-player-summary", "Dashboard track summary", Summary, SUMMARY_ALIAS_PATH, compact,
        "application/json", "footballai.track-summary/v1")
    case _ => Unusable
  }

  function AdvisoryAlias(build: Build): Item {
    match PayloadOf(build.entries, ADVISORY_KEY)
    case Some(Document(_, _, _, Some(tracks))) =>
      Item("dashboard-workload-advisory", "Dashboard workload advisory", Advisory, ADVISORY_ALIAS_PATH, tracks,
        "application/json", "footballai.workload-advisory/v1")
    case _ => Unusable
  }

  /** How many artifacts a build leads to: one for each payload, and the two aliases. */
  function Size(build: Build): nat {
    |build.entries| + 2
  }

  /** The next artifact to write: the payloads in order, then the two dashboard aliases. */
  function NextItem(build: Build, written: nat): Item {
    if written < |build.entries| then ItemOf(build.entries[written])
    else if written == |build.entries| then SummaryAlias(build)
    else AdvisoryAlias(build)
  }

  function ReferenceTo(digest: Digest, item: Item): ArtifactReference
    requires item.Item?
  {
    ArtifactReference(item.artifactId, item.name, item.category, item.path, item.mediaType,
      digest(item.content), |item.content|, Some(item.schemaVersion))
  }

  predicate WriteAllowed(cell: Cell, path: string) {
    cell.run.status.Running? && SafeArtifactPath(path) && path !in cell.files
  }

  /** Writes the next artifact, or reads all of them back, which is one step because no file ever changes. */
  function PublishNext(digest: Digest, w: World): World
    requires w.point.Publishing?
  {
    var build, references, last := w.point.payloads, w.point.references, LastIndex(w.local);
    if |references| < Size(build) then
      var item := NextItem(build, |references|);
      if item.Unusable? || !WriteAllowed(w.cell, item.path) then w.(point := Failing(last, UNEXPECTED))
      else w.(
        cell := w.cell.(files := w.cell.files[item.path := item.content]),
        point := Publishing(build, references + [ReferenceTo(digest, item)]))
    else if !VerifyArtifacts(digest, w.cell.files, references) then w.(point := Failing(last, INTEGRITY_FAILURE))
    else w.(point := Verified(build, references))
  }

  function RecordCompletion(digest: Digest, w: World, end: Instant): World
    requires w.point.Completing?
  {
    var completed := CompletedRun(w.local, w.point.references, end);
    SaveOr(digest, w, completed, Finished(Returned(if completed.Ok? then completed.value.status else Failed)),
      Failing(LastIndex(w.local), UNEXPECTED))
  }

  /** The exit for an observed cancellation, with the run as loaded again. When that ended meanwhile, it raises. */
  function RecordCancelled(digest: Digest, w: World, at: Instant, end: Instant): World
    requires w.point.RecordingCancel?
  {
    SaveOr(digest, w, CancelledRun(w.local, w.point.active, at, end), Finished(Returned(Cancelled)), Finished(Raised))
  }

  /** The exit for everything else that went wrong returns the status of a run that ended meanwhile. */
  function LoadAfterFailure(w: World): World
    requires w.point.Failing?
  {
    if w.cell.run.status.Terminal() then w.(point := Finished(Returned(w.cell.run.status)))
    else w.(local := w.cell.run, point := RecordingFailure(w.point.active, w.point.failure))
  }

  function RecordFailed(digest: Digest, w: World, at: Instant, end: Instant): World
    requires w.point.RecordingFailure?
  {
    SaveOr(digest, w, FailedRun(w.local, w.point.active, w.point.failure, at, end),
      Finished(Returned(Failed)), Finished(Raised))
  }

  function WorkStep(digest: Digest, job: Job, w: World, at: Instant, end: Instant, answers: Answers): World {
    match w.point
    case Idle => w
    case Finished(_) => w
    case Claimed => w.(point := if w.cell.marked then CancellingQueued else Starting)
    case CancellingQueued =>
      SaveOr(digest, w, Cancel(w.local, "Cancelled before execution.", w.local.stages, end),
        Finished(Returned(Cancelled)), Finished(Raised))
    case Starting => SaveOr(digest, w, Start(w.local, end), AtStage(0, None), Finished(Raised))
    case AtStage(i, build) =>
      if i < |w.local.stages| then EnterStage(digest, job, w, at)
      else if build.Some? then w.(point := Publishing(build.value, []))
      else if answers.build.Built? then w.(point := Publishing(answers.build.build, []))
      else BuildStopped(w, LastIndex(w.local), answers.build)
    case Checked(i, _) => if i < |w.local.stages| then BeginStage(digest, w, at) else w
    case InStage(i, _) => if i < |w.local.stages| then LeaveStage(job, w, answers.build) else w
    case PastCheckpoint(i, _) => if i < |w.local.stages| then FinishStage(digest, w, at, answers.metrics) else w
    case Publishing(_, _) => PublishNext(digest, w)
    case Verified(build, references) => w.(local := w.cell.run, point := Completing(build, references))
    case Completing(_, _) => RecordCompletion(digest, w, end)
    case Cancelling(active) => w.(local := w.cell.run, point := RecordingCancel(active))
    case RecordingCancel(_) => RecordCancelled(digest, w, at, end)
    case Failing(_, _) => LoadAfterFailure(w)
    case RecordingFailure(_, _) => RecordFailed(digest, w, at, end)
  }

  /** A delivery loads the run and goes by its stored status. */
  function DeliverStep(w: World): World {
    if w.point.Busy() then w
    else
      var status, loaded := w.cell.run.status, w.(local := w.cell.run);
      if status.Terminal() then loaded.(point := Finished(Returned(status)))
      else if status.Queued? then loaded.(point := Claimed)
      else loaded.(point := AtStage(0, None))
  }

  /** A client that loaded the run while it was queued may end it: the cancel route, or a failed enqueue. */
  predicate EndsQueuedRecord(run: AnalysisRun) {
    && (run.status.Cancelled? || run.status.Failed?)
    && ValidRun(run)
    && forall s :: s in run.stages ==> s.status.StageQueued?
  }

  function Step(digest: Digest, job: Job, w: World, e: Event): World {
    match e
    case RequestCancellation =>
      if w.cell.run.status.Terminal() then w else w.(cell := w.cell.(marked := true))
    case EndElsewhere(run) =>
      if EndsQueuedRecord(run) && SaveAllowed(digest, w.cell, run) then w.(cell := w.cell.(run := run)) else w
    case Crash => w.(point := Idle)
    case Deliver => DeliverStep(w)
    case Work(at, end, answers) =>
      if w.clock <= at <= end then WorkStep(digest, job, w.(clock := end), at, end, answers) else w
  }

  function Run(digest: Digest, job: Job, w: World, events: seq<Event>): World {
    if events == [] then w else Step(digest, job, Run(digest, job, w, events[..|events| - 1]), events[|events| - 1])
  }
}
