/** What a delivery writes into the record, and what sends it to the failure exit. */
module ExecutorRecords {
  import opened Common
  import opened RunContract
  import opened Lifecycle
  import opened RunStore
  import opened Executor
  import opened ExecutorSteps
  import opened ExecutorHistories
  import opened ExecutorCancellation
  import opened ExecutorTheorems
  import opened ExecutorCompletion

  // -- why a delivery fails --------------------------------------------------

  /** The next access of the delivery asks the pipeline, on behalf of this stage. */
  ghost predicate AsksThePipeline(job: Job, w: World, active: int) {
    || (w.point.InStage? && active == w.point.i < |w.local.stages|
        && job.profile.V1Compat? && w.local.stages[w.point.i].name == Detection)
    || (w.point.AtStage? && w.point.i >= |w.local.stages| && w.point.build.None? && active == |w.local.stages| - 1)
  }

  /** The planned failure of the test profile: at the third stage of a first attempt, unless it was cancelled. */
  ghost predicate FailsOnPurpose(job: Job, w: World) {
    && w.point.AtStage? && w.point.i == 2 < |w.local.stages| && job.profile.TestFail? && job.attempt == 1
    && w.local.stages[2].status != StageSucceeded && w.local.stages[2].status != StageSkipped
    && !w.cell.marked
  }

  /** What the pipeline reported of a stage cannot be read. */
  ghost predicate MetricsAreUnreadable(w: World, answers: Answers) {
    w.point.PastCheckpoint? && answers.metrics.None?
  }

  /** The next artifact cannot be written: it could not be prepared, its path is unsafe, or there is a file already. */
  ghost predicate CannotBeWritten(w: World) {
    && w.point.Publishing? && |w.point.references| < |w.point.payloads.entries| + 2
    && var item := NextItem(w.point.payloads, |w.point.references|);
       item.Unusable? || !SafeArtifactPath(item.path) || item.path in w.cell.files
  }

  /** The contract refuses the completed record. */
  ghost predicate CannotBeCompleted(w: World) {
    w.point.Completing? && !CanComplete(w.cell.run, w.point.references)
  }

  /** What sends a live delivery to the failure exit: exactly five things, each with its code and its stage. */
  ghost predicate FailsFor(job: Job, w: World, answers: Answers, next: Point) {
    var safely := Failure("execution_failed", "Analysis execution failed safely.");
    var last := |w.cell.run.stages| - 1;
    && (FailsOnPurpose(job, w) ==>
          next == Failing(2, Failure("test_stage_failure", "The test profile stopped at detection.")))
    && (forall active :: AsksThePipeline(job, w, active) && answers.build.BuildRaised? ==>
          next == Failing(active, answers.build.failure))
    && (MetricsAreUnreadable(w, answers) ==> next == Failing(w.point.i, safely))
    && (CannotBeWritten(w) || CannotBeCompleted(w) ==> next == Failing(last, safely))
    && (next.Failing? ==>
          || FailsOnPurpose(job, w) || MetricsAreUnreadable(w, answers) || CannotBeWritten(w) || CannotBeCompleted(w)
          || (answers.build.BuildRaised? && AsksThePipeline(job, w, next.active)))
  }

  lemma StageRoundsFailFor(digest: Digest, job: Job, w: World, at: Instant, answers: Answers)
    requires Working(job, w, at) && InLoop(w.point) && w.point.i < |w.local.stages|
    ensures FailsFor(job, w, answers, WorkStep(digest, job, w, at, w.clock, answers).point)
  {
    hide ValidRun, SaveOr, WithStages, SkippedStage, RunningStage, SucceededStage, Replaces, Prefix, CanComplete;
    var i, stage, build := w.point.i, w.local.stages[w.point.i], w.point.build;
    StageIsUsable(w.cell.run, i);
    match w.point {
      case AtStage(_, _) =>
        if !Done(stage) && Skippable(job, stage) {
          WrittenStagesAreSaved(digest, job, w, i, at, map[], AtStage(i + 1, build));
        }
      case Checked(_, _) => WrittenStagesAreSaved(digest, job, w, i, at, map[], InStage(i, build));
      case InStage(_, _) =>
      case PastCheckpoint(_, _) =>
        if answers.metrics.Some? {
          WrittenStagesAreSaved(digest, job, w, i, at, answers.metrics.value, AtStage(i + 1, build));
        }
    }
  }

  /** Whatever the loop writes of a stage that is not finished is saved. */
  lemma WrittenStagesAreSaved(
      digest: Digest, job: Job, w: World, i: nat, at: Instant, metrics: map<string, Json>, next: Point)
    requires Working(job, w, at) && w.cell.run.status.Running? && i < |w.cell.run.stages|
    requires !FinishedStage(w.cell.run.stages[i])
    ensures var stage, refused := w.local.stages[i], Failing(i, UNEXPECTED);
      && SaveOr(
           digest, w, WithStages(w.local, w.local.stages[i := SkippedStage(stage, at)]), next, refused).point == next
      && SaveOr(
           digest, w, WithStages(w.local, w.local.stages[i := RunningStage(stage, at)]), next, refused).point == next
      && (stage.status.StageRunning? ==>
            SaveOr(
              digest, w, WithStages(w.local, w.local.stages[i := SucceededStage(stage, at, metrics)]), next,
              refused).point == next)
  {
    hide ValidRun, SaveOr, WithStages, SkippedStage, RunningStage, SucceededStage, Replaces;
    var stage := w.cell.run.stages[i];
    StageIsUsable(w.cell.run, i);
    WrittenStagesFit(stage, at, at, metrics);
    WrittenStagesStart(stage, at, metrics);
    StageSavesSucceed(digest, job, w, i, SkippedStage(stage, at), next);
    StageSavesSucceed(digest, job, w, i, RunningStage(stage, at), next);
    if stage.status.StageRunning? {
      StageSavesSucceed(digest, job, w, i, SucceededStage(stage, at, metrics), next);
    }
  }

  lemma WrittenStagesStart(s: Stage, at: Instant, metrics: map<string, Json>)
    requires Before(s.startedAt, at)
    ensures Before(SkippedStage(s, at).startedAt, at) && Before(RunningStage(s, at).startedAt, at)
    ensures Before(SucceededStage(s, at, metrics).startedAt, at)
  {
  }

  lemma DeliveriesFailFor(digest: Digest, job: Job, w: World, at: Instant, end: Instant, answers: Answers)
    requires Advances(job, w) && ReferencesAreIntact(digest, w) && w.clock <= at <= end
    ensures FailsFor(job, w, answers, Step(digest, job, w, Work(at, end, answers)).point)
  {
    hide ValidRun, SaveOr, CanComplete, RecordCompletion, NextItem, ReferenceTo, Written, CompletedRecord, WithStages,
      Start, Cancel, SafeArtifactPath, VerifyArtifacts, RecordCancelled, RecordFailed, Prefix, StartedBefore,
      EnterStage, BeginStage, LeaveStage, FinishStage;
    var v := w.(clock := end);
    ClockMayMove(job, w, at, end);
    match w.point {
      case Starting => StartingStarts(digest, job, w, at, end, answers);
      case CancellingQueued => CancellingQueuedEnds(digest, job, w, at, end, answers);
      case Completing(_, _) => CompletionEnds(digest, job, v, at);
      case RecordingCancel(_) => CancellingEnds(digest, job, v, at);
      case RecordingFailure(_, _) => FailingEnds(digest, job, v, at);
      case Publishing(_, _) => WrittenReferencesVerify(digest, w);
      case Claimed =>
      case Verified(_, _) =>
      case Cancelling(_) =>
      case Failing(_, _) =>
      case Idle =>
      case Finished(_) =>
      case _ =>
        if w.point.i < |w.local.stages| {
          StageRoundsFailFor(digest, job, v, at, answers);
        }
    }
  }

  // -- what a delivery writes ------------------------------------------------

  /** Nothing but the stages may differ, and of those only one. */
  ghost predicate OnlyStageChanges(before: AnalysisRun, after: AnalysisRun, i: int) {
    && after == before.(stages := after.stages) && |after.stages| == |before.stages|
    && forall k :: 0 <= k < |before.stages| && k != i ==> after.stages[k] == before.stages[k]
  }

  /** A stage keeps what it was planned as. */
  predicate SamePlannedStage(before: Stage, after: Stage) {
    && after.id == before.id && after.name == before.name && after.required == before.required
    && after.attempt == before.attempt && after.producedArtifactIds == []
  }

  /** A stage and its successor in one save of the loop. */
  ghost predicate MovesOneStage(before: World, after: World, i: nat) {
    && i < |before.cell.run.stages|
    && OnlyStageChanges(before.cell.run, after.cell.run, i)
    && (after.cell.run != before.cell.run ==> SamePlannedStage(before.cell.run.stages[i], after.cell.run.stages[i]))
  }

  /** Only a stage that is not required, and that one profile lacks, is left out; every other one waits. */
  lemma SkippingMovesOneStage(digest: Digest, job: Job, w: World, at: Instant, answers: Answers)
    requires Working(job, w, at) && w.point.AtStage? && w.point.i < |w.local.stages|
    ensures var i, next := w.point.i, WorkStep(digest, job, w, at, w.clock, answers);
      var before := w.cell.run.stages[i];
      && MovesOneStage(w, next, i)
      && (if !Done(before) && Skippable(job, before) then
            var after := next.cell.run.stages[i];
            && after.status == StageSkipped && after.finishedAt == Some(at) && after.startedAt == before.startedAt
            && !before.required && job.profile == V1Compat
            && after.message == Some("Unsupported by the V1-compatible algorithm family")
          else next.cell == w.cell)
  {
    hide ValidRun, StageTitle, Prefix, StartedBefore, SaveAllowed, WithStages;
    var stage := w.cell.run.stages[w.point.i];
    StageIsUsable(w.cell.run, w.point.i);
    if !Done(stage) && Skippable(job, stage) {
      StageIsSaved(digest, job, w, w.point.i, at, map[]);
    }
  }

  /** A stage begins at ten percent, and keeps the moment at which it was first begun. */
  lemma BeginningMovesOneStage(digest: Digest, job: Job, w: World, at: Instant, answers: Answers)
    requires Working(job, w, at) && w.point.Checked? && w.point.i < |w.local.stages|
    ensures var i, next := w.point.i, WorkStep(digest, job, w, at, w.clock, answers);
      var before, after := w.cell.run.stages[i], next.cell.run.stages[i];
      && MovesOneStage(w, next, i)
      && after.status == StageRunning && after.progress == 10.0 && after.finishedAt == None && after.error == None
      && after.message == Some(StageTitle(before.name) + " in progress")
      && after.startedAt == if before.startedAt.Some? then before.startedAt else Some(at)
  {
    hide ValidRun, StageTitle, Prefix, StartedBefore, SaveAllowed, WithStages;
    StageIsUsable(w.cell.run, w.point.i);
    StageIsSaved(digest, job, w, w.point.i, at, map[]);
  }

  /** A stage is done with the metrics that were reported of it. */
  lemma FinishingMovesOneStage(digest: Digest, job: Job, w: World, at: Instant, answers: Answers)
    requires Working(job, w, at) && w.point.PastCheckpoint? && w.point.i < |w.local.stages| && answers.metrics.Some?
    ensures var i, next := w.point.i, WorkStep(digest, job, w, at, w.clock, answers);
      var before, after := w.cell.run.stages[i], next.cell.run.stages[i];
      && MovesOneStage(w, next, i)
      && after.status == StageSucceeded && after.progress == 100.0 && after.finishedAt == Some(at)
      && after.startedAt == before.startedAt && after.metrics == answers.metrics.value
      && after.message == Some(StageTitle(before.name) + " completed")
  {
    hide ValidRun, StageTitle, Prefix, StartedBefore, SaveAllowed, WithStages;
    StageIsUsable(w.cell.run, w.point.i);
    StageIsSaved(digest, job, w, w.point.i, at, answers.metrics.value);
  }

  /** The pipeline at work writes nothing into the record. */
  lemma StageWorkWritesNothing(digest: Digest, job: Job, w: World, at: Instant, answers: Answers)
    requires Working(job, w, at) && InLoop(w.point) && w.point.i < |w.local.stages|
    requires w.point.InStage? || (w.point.PastCheckpoint? && answers.metrics.None?)
    ensures WorkStep(digest, job, w, at, w.clock, answers).cell == w.cell
  {
    hide ValidRun, StageTitle, Prefix, StartedBefore, SaveAllowed, WithStages;
  }

  /** The record that is built is the one that is saved. */
  lemma StageIsSaved(digest: Digest, job: Job, w: World, i: nat, at: Instant, metrics: map<string, Json>)
    requires Working(job, w, at) && w.cell.run.status.Running? && i < |w.cell.run.stages|
    requires !FinishedStage(w.cell.run.stages[i])
    ensures StageIsAccepted(digest, w, i, SkippedStage(w.cell.run.stages[i], at))
    ensures StageIsAccepted(digest, w, i, RunningStage(w.cell.run.stages[i], at))
    ensures w.cell.run.stages[i].status.StageRunning? ==>
      StageIsAccepted(digest, w, i, SucceededStage(w.cell.run.stages[i], at, metrics))
  {
    hide ValidRun, SaveOr, WithStages, SkippedStage, RunningStage, SucceededStage, Replaces, StageIsAccepted;
    var stage := w.cell.run.stages[i];
    StageIsUsable(w.cell.run, i);
    WrittenStagesFit(stage, at, at, metrics);
    WrittenStagesStart(stage, at, metrics);
    AcceptStage(digest, w, at, i, SkippedStage(stage, at));
    AcceptStage(digest, w, at, i, RunningStage(stage, at));
    if stage.status.StageRunning? {
      AcceptStage(digest, w, at, i, SucceededStage(stage, at, metrics));
    }
  }

  ghost predicate StageIsAccepted(digest: Digest, w: World, i: nat, s: Stage)
    requires i < |w.cell.run.stages|
  {
    var run := w.cell.run.(stages := w.cell.run.stages[i := s]);
    WithStages(w.cell.run, run.stages) == Ok(run) && SaveAllowed(digest, w.cell, run)
  }

  lemma AcceptStage(digest: Digest, w: World, at: Instant, i: nat, s: Stage)
    requires ValidRun(w.cell.run) && w.cell.run.status.Running? && StartedBefore(w.cell.run, at)
    requires i < |w.cell.run.stages| && Replaces(w.cell.run.stages[i], s) && Before(s.startedAt, at)
    ensures StageIsAccepted(digest, w, i, s)
  {
    hide ValidRun, WithStages, SaveAllowed, Replaces;
    MovedStageIsSaved(digest, w.cell, at, i, s, at);
  }

  /** Both exits change the active stage alone, and only when it was running; the record says why and when. */
  lemma ExitsRecordTheReason(digest: Digest, job: Job, w: World, at: Instant, i: nat)
    requires Working(job, w, at) && i < |w.cell.run.stages|
    ensures w.point.RecordingCancel? ==>
      var before, run := w.cell.run, RecordCancelled(digest, w, at, w.clock).cell.run;
      && run == before.(
           status := Cancelled, cancellationReason := Some("Cancellation requested by user."), stages := run.stages,
           completedAt := Some(w.clock))
      && |run.stages| == |before.stages|
      && (if i == w.point.active && before.stages[i].status.StageRunning?
          then run.stages[i] == before.stages[i].(
                 status := StageCancelled, finishedAt := Some(at), message := Some("Cancelled at a safe checkpoint"))
          else run.stages[i] == before.stages[i])
    ensures w.point.RecordingFailure? ==>
      var before, run := w.cell.run, RecordFailed(digest, w, at, w.clock).cell.run;
      && run == before.(
           status := Failed, failure := run.failure, stages := run.stages, completedAt := Some(w.clock))
      && run.failure.Some? && run.failure.value.safeMessage == w.point.failure.message
      && run.failure.value.retryable && run.failure.value.occurredAt == at
      && (i == w.point.active && before.stages[i].status.StageRunning? ==>
            && run.stages[i].finishedAt == Some(at) && run.stages[i].message == Some(w.point.failure.message)
            && run.stages[i].error == Some(
                 StructuredError(w.point.failure.code, w.point.failure.message, true, at, None)))
  {
    hide ValidRun, SaveAllowed, StageText;
    if w.point.RecordingCancel? {
      CancellingEnds(digest, job, w, at);
    } else if w.point.RecordingFailure? {
      FailingEnds(digest, job, w, at);
    }
  }

  // -- what a completed run holds --------------------------------------------

  /** A stored file and the reference that was registered for it. */
  ghost predicate IsStoredAs(
      digest: Digest, files: Files, a: ArtifactReference, id: string, name: string, category: ArtifactCategory,
      path: string, content: Bytes, mediaType: string, schema: string)
  {
    && a == ArtifactReference(id, name, category, path, mediaType, digest(content), |content|, Some(schema))
    && path in files && files[path] == content
  }

  /** A document is stored indented, under the title, category and path of its key; there are five such keys. */
  ghost predicate IsStoredDocument(
      digest: Digest, files: Files, a: ArtifactReference, key: string, indented: Bytes, schema: string)
  {
    var json := "application/json";
    && key in {"team-summary", "track-summary", "track-detail", "workload-advisory", "analysis-diagnostics"}
    && (key == "team-summary" ==> IsStoredAs(
          digest, files, a, key, "Team Summary", Summary, "artifacts/" + "team-summary.json", indented, json, schema))
    && (key == "track-summary" ==> IsStoredAs(
          digest, files, a, key, "Track Summary", Tracks, "artifacts/" + "track-summary.json", indented, json, schema))
    && (key == "track-detail" ==> IsStoredAs(
          digest, files, a, key, "Track Detail", Tracks, "artifacts/" + "track-detail.json", indented, json, schema))
    && (key == "workload-advisory" ==> IsStoredAs(
          digest, files, a, key, "Workload Advisory", Advisory, "artifacts/" + "workload-advisory.json", indented, json,
          schema))
    && (key == "analysis-diagnostics" ==> IsStoredAs(
          digest, files, a, key, "Analysis Diagnostics", Other, "artifacts/" + "analysis-diagnostics.json", indented,
          json, schema))
  }

  /** The last entry under a key. */
  ghost predicate IsLastEntry(entries: seq<Entry>, i: int, key: string) {
    0 <= i < |entries| && entries[i].key == key && forall j :: i < j < |entries| ==> entries[j].key != key
  }

  lemma {:induction false} PayloadOfIsTheLast(entries: seq<Entry>, key: string) returns (i: int)
    requires PayloadOf(entries, key).Some?
    ensures IsLastEntry(entries, i, key) && PayloadOf(entries, key) == Some(entries[i].payload)
  {
    var last := |entries| - 1;
    if entries[last].key == key {
      i := last;
    } else {
      i := PayloadOfIsTheLast(entries[..last], key);
    }
  }

  /** What the artifact at one position of a published build is. */
  ghost predicate IsPublished(digest: Digest, files: Files, entries: seq<Entry>, k: nat, a: ArtifactReference) {
    if k < |entries| then
      match entries[k].payload
      case Generated(id, name, category, path, content, mediaType, schema) =>
        IsStoredAs(digest, files, a, id, name, category, path, content, mediaType, schema)
      case Document(schema, indented, _, _) =>
        schema.Some? && IsStoredDocument(digest, files, a, entries[k].key, indented, schema.value)
    else if k == |entries| then
      exists i :: IsLastEntry(entries, i, "track-summary") && entries[i].payload.Document? && IsStoredAs(
        digest, files, a, "legacy-player-summary", "Dashboard track summary", Summary,
        "artifacts/" + "dashboard-track-summary.json", entries[i].payload.compact, "application/json",
        "footballai.track-summary/v1")
    else
      exists i :: IsLastEntry(entries, i, "workload-advisory") && entries[i].payload.Document?
        && entries[i].payload.tracks.Some? && IsStoredAs(
          digest, files, a, "dashboard-workload-advisory", "Dashboard workload advisory", Advisory,
          "artifacts/" + "dashboard-workload-advisory.json", entries[i].payload.tracks.value, "application/json",
          "footballai.workload-advisory/v1")
  }

  lemma SlotsAre(key: string)
    ensures SlotOf(key).Some? <==>
      key in {"team-summary", "track-summary", "track-detail", "workload-advisory", "analysis-diagnostics"}
    ensures key == "team-summary" ==>
      SlotOf(key) == Some(Slot("Team Summary", Summary, "artifacts/" + "team-summary.json"))
    ensures key == "track-summary" ==>
      SlotOf(key) == Some(Slot("Track Summary", Tracks, "artifacts/" + "track-summary.json"))
    ensures key == "track-detail" ==>
      SlotOf(key) == Some(Slot("Track Detail", Tracks, "artifacts/" + "track-detail.json"))
    ensures key == "workload-advisory" ==>
      SlotOf(key) == Some(Slot("Workload Advisory", Advisory, "artifacts/" + "workload-advisory.json"))
    ensures key == "analysis-diagnostics" ==>
      SlotOf(key) == Some(Slot("Analysis Diagnostics", Other, "artifacts/" + "analysis-diagnostics.json"))
  {
  }

  lemma DocumentsArePublished(digest: Digest, files: Files, build: Build, k: nat, a: ArtifactReference)
    requires k < |build.entries| && build.entries[k].payload.Document? && Written(digest, files, build, k, a)
    ensures var payload := build.entries[k].payload;
      payload.schema.Some?
      && IsStoredDocument(digest, files, a, build.entries[k].key, payload.indented, payload.schema.value)
  {
    hide SlotOf, SafeArtifactPath;
    SlotsAre(build.entries[k].key);
  }

  lemma WrittenIsPublished(digest: Digest, files: Files, build: Build, k: nat, a: ArtifactReference)
    requires k < |build.entries| + 2 && Written(digest, files, build, k, a)
    ensures IsPublished(digest, files, build.entries, k, a)
  {
    hide SlotOf, SafeArtifactPath, PayloadOf, IsLastEntry, IsStoredDocument;
    if k < |build.entries| {
      if build.entries[k].payload.Document? {
        DocumentsArePublished(digest, files, build, k, a);
      }
    } else if k == |build.entries| {
      var i := PayloadOfIsTheLast(build.entries, "track-summary");
      EntriesHaveAnIndex(build.entries, i, "track-summary");
    } else {
      var i := PayloadOfIsTheLast(build.entries, "workload-advisory");
      EntriesHaveAnIndex(build.entries, i, "workload-advisory");
    }
  }

  lemma EntriesHaveAnIndex(entries: seq<Entry>, i: int, key: string)
    requires IsLastEntry(entries, i, key)
    ensures 0 <= i < |entries|
  {
  }

  /** The artifacts of a completed run are its payloads in their order, then two excerpts for the dashboard. */
  lemma CompletedRunsHoldTheBuild(
      digest: Digest, job: Job, w: World, at: Instant, end: Instant, answers: Answers, k: nat)
    requires Advances(job, w) && ReferencesAreIntact(digest, w) && w.clock <= at <= end
    requires Completed(Step(digest, job, w, Work(at, end, answers)).cell.run)
    ensures w.point.Completing?
    ensures var run, entries := Step(digest, job, w, Work(at, end, answers)).cell.run, w.point.payloads.entries;
      && |run.artifacts| == |entries| + 2
      && (k < |entries| + 2 ==> IsPublished(digest, w.cell.files, entries, k, run.artifacts[k]))
  {
    hide Step, Written, IsPublished, Completed, Advances, ReferencesAreIntact;
    CompletionPublishesThePayloads(digest, job, w, at, end, answers);
    if k < |w.point.payloads.entries| + 2 {
      WrittenIsPublished(
        digest, w.cell.files, w.point.payloads, k, Step(digest, job, w, Work(at, end, answers)).cell.run.artifacts[k]);
    }
  }

  lemma ProducedIdsAre(name: StageName, ids: seq<string>)
    ensures ProducedIds(name, ids) == match name
      case Detection => if "detections" in ids then ["detections"] else []
      case Tracking => if "tracklets" in ids then ["tracklets"] else []
      case ArtifactPublication => ids
      case _ => []
  {
  }

  /** The publication stage produced everything; detection and tracking their own artifact; the others nothing. */
  lemma ProducedArtifactsAre(run: AnalysisRun, references: seq<ArtifactReference>, end: Instant, i: nat)
    requires i < |run.stages|
    ensures var completed := CompletedRecord(run, references, end);
      var registered := (id: string) => exists a :: a in completed.artifacts && a.artifactId == id;
      && completed.artifacts == references && |completed.stages| == |run.stages|
      && var produced := completed.stages[i].producedArtifactIds;
         match run.stages[i].name
         case Detection => produced == if registered("detections") then ["detections"] else []
         case Tracking => produced == if registered("tracklets") then ["tracklets"] else []
         case ArtifactPublication =>
           |produced| == |references| && forall k :: 0 <= k < |produced| ==> produced[k] == references[k].artifactId
         case _ => produced == []
  {
    hide ForcedPartial, ProducedIds;
    var ids := ArtifactIds(references);
    assert CompletedRecord(run, references, end).stages[i].producedArtifactIds == ProducedIds(run.stages[i].name, ids);
    ProducedIdsAre(run.stages[i].name, ids);
    forall id: string ensures id in ids <==> exists a :: a in references && a.artifactId == id {
      if id in ids {
        var k :| 0 <= k < |ids| && ids[k] == id;
        assert references[k] in references;
      }
    }
  }
}
