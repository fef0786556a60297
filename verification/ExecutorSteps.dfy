/** What every step of the executor keeps, and what its four exits need. */
module ExecutorSteps {
  import opened Common
  import opened RunContract
  import opened Lifecycle
  import opened RunStore
  import opened Executor

  // -- the shape of a live run -----------------------------------------------

  predicate FinishedStage(s: Stage) {
    s.status.StageSucceeded? || (s.status.StageSkipped? && !s.required)
  }

  predicate Live(s: Stage) {
    FinishedStage(s) || s.status.StageRunning? || s.status.StageQueued?
  }

  /** Finished stages, then at most one that is running, then queued ones. */
  ghost predicate Prefix(stages: seq<Stage>) {
    && (forall i :: 0 <= i < |stages| ==> Live(stages[i]))
    && (forall i, j :: 0 <= i < j < |stages| && !stages[j].status.StageQueued? ==> FinishedStage(stages[i]))
  }

  ghost predicate DoneBefore(stages: seq<Stage>, n: int) {
    n <= |stages| && forall i :: 0 <= i < n ==> FinishedStage(stages[i])
  }

  /** Nothing but the active stage is running. */
  ghost predicate OnlyActiveRuns(stages: seq<Stage>, active: int) {
    forall i :: 0 <= i < |stages| && i != active ==> !stages[i].status.StageRunning?
  }

  predicate Before(t: Option<Instant>, clock: Instant) {
    t.Some? ==> t.value <= clock
  }

  ghost predicate StartedBefore(run: AnalysisRun, clock: Instant) {
    && run.createdAt <= clock
    && Before(run.startedAt, clock)
    && forall i :: 0 <= i < |run.stages| ==> Before(run.stages[i].startedAt, clock)
  }

  ghost predicate PointFits(job: Job, w: World) {
    var run, stages := w.cell.run, w.cell.run.stages;
    match w.point
    case Idle => true
    case Finished(_) => false
    case Claimed => run.status.Queued?
    case CancellingQueued => run.status.Queued?
    case Starting => run.status.Queued?
    case AtStage(i, _) => run.status.Running? && DoneBefore(stages, i)
    case Checked(i, _) =>
      && run.status.Running? && i < |stages|
      && DoneBefore(stages, i) && !FinishedStage(stages[i]) && !Skippable(job, stages[i])
    case InStage(i, _) =>
      run.status.Running? && i < |stages| && stages[i].status.StageRunning? && !Skippable(job, stages[i])
    case PastCheckpoint(i, _) =>
      run.status.Running? && i < |stages| && stages[i].status.StageRunning? && !Skippable(job, stages[i])
    case Publishing(build, references) =>
      run.status.Running? && DoneBefore(stages, |stages|) && |references| <= Size(build)
    case Verified(build, references) =>
      run.status.Running? && DoneBefore(stages, |stages|) && |references| == Size(build)
    case Completing(build, references) =>
      run.status.Running? && DoneBefore(stages, |stages|) && |references| == Size(build)
    case Cancelling(active) => StopsAt(run, active)
    case RecordingCancel(active) => StopsAt(run, active)
    case Failing(active, _) => StopsAt(run, active)
    case RecordingFailure(active, _) => StopsAt(run, active)
  }

  ghost predicate StopsAt(run: AnalysisRun, active: int) {
    run.status.Running? && -1 <= active < |run.stages| && OnlyActiveRuns(run.stages, active)
  }

  ghost predicate LiveInvariant(job: Job, w: World) {
    && StartedBefore(w.cell.run, w.clock)
    && Prefix(w.cell.run.stages)
    && (w.point.Busy() ==> w.local == w.cell.run)
    && PointFits(job, w)
  }

  ghost predicate Invariant(job: Job, w: World) {
    && ValidRun(w.cell.run)
    && (!w.cell.run.status.Terminal() ==> LiveInvariant(job, w))
    && (w.point.Finished? && w.point.outcome.Returned? ==> w.point.outcome.status == w.cell.run.status)
  }

  // -- records stay valid ----------------------------------------------------

  /** A stage may take the place of another one in an unfinished run. */
  predicate Replaces(before: Stage, after: Stage) {
    && after.id == before.id && after.name == before.name && after.attempt == before.attempt
    && after.required == before.required
    && after.producedArtifactIds == []
    && ValidStage(after)
  }

  lemma UnfinishedRunsProduceNothing(run: AnalysisRun, i: nat)
    requires ValidRun(run) && run.artifacts == [] && i < |run.stages|
    ensures run.stages[i].producedArtifactIds == []
  {
    var ids := run.stages[i].producedArtifactIds;
    assert run.stages[i] in run.stages;
    assert forall id :: id in ids ==> id in ArtifactIds(run.artifacts);
    assert forall k :: 0 <= k < |ids| ==> ids[k] in ids;
    assert ArtifactIds(run.artifacts) == [];
  }

  lemma SameKeys(stages: seq<Stage>, i: nat, s: Stage)
    requires i < |stages| && s.id == stages[i].id && s.name == stages[i].name
    ensures StageIds(stages[i := s]) == StageIds(stages)
    ensures StageNames(stages[i := s]) == StageNames(stages)
  {
  }

  lemma ReplacedStagesFit(run: AnalysisRun, i: nat, s: Stage)
    requires ValidRun(run) && i < |run.stages| && Replaces(run.stages[i], s)
    ensures var stages := run.stages[i := s];
      && UniqueStages(stages)
      && (forall t :: t in stages ==> ValidStage(t))
      && ValidLinks(run.(stages := stages))
  {
    SameKeys(run.stages, i, s);
    assert run.stages[i] in run.stages;
    forall t | t in run.stages[i := s] ensures t == s || t in run.stages {
    }
  }

  lemma ReplacingKeepsValid(run: AnalysisRun, i: nat, s: Stage)
    requires ValidRun(run) && run.status.Running? && i < |run.stages| && Replaces(run.stages[i], s)
    ensures WithStages(run, run.stages[i := s]) == Ok(run.(stages := run.stages[i := s]))
    ensures ValidRun(run.(stages := run.stages[i := s]))
  {
    ReplacedStagesFit(run, i, s);
  }

  lemma UnfinishedSavesAreAllowed(digest: Digest, cell: Cell, run: AnalysisRun)
    requires !cell.run.status.Terminal() && SameProvenance(cell.run, run)
    requires run.status.Queued? ==> cell.run.status.Queued?
    requires run.status.Succeeded? || run.status.Partial? ==>
      cell.run.status.Running? && VerifyArtifacts(digest, cell.files, run.artifacts)
    ensures SaveAllowed(digest, cell, run)
  {
    TransitionAllowedIff(cell.run, run);
  }

  // -- each step of a live run -----------------------------------------------

  lemma QueuedRunsCanBeCancelled(run: AnalysisRun, end: Instant)
    requires ValidRun(run) && run.status.Queued? && run.createdAt <= end
    ensures Cancel(run, "Cancelled before execution.", run.stages, end).Ok?
  {
    forall s | s in run.stages ensures !s.status.StageRunning? {
      assert !AnyStage(run.stages, RunContract.NotQueued);
      assert !RunContract.NotQueued(s.status);
    }
  }

  lemma QueuedRunsCanStart(run: AnalysisRun, end: Instant)
    requires ValidRun(run) && run.status.Queued? && run.createdAt <= end
    ensures Start(run, end).Ok?
  {
  }

  lemma CancellingQueuedEnds(digest: Digest, job: Job, w: World, at: Instant, end: Instant, answers: Answers)
    requires Invariant(job, w) && w.clock <= at <= end && !w.cell.run.status.Terminal() && w.point.CancellingQueued?
    ensures var w' := Step(digest, job, w, Work(at, end, answers));
      w'.point == Finished(Returned(Cancelled)) && ValidRun(w'.cell.run) && w'.cell.run.status.Cancelled?
  {
    QueuedRunsCanBeCancelled(w.cell.run, end);
    UnfinishedSavesAreAllowed(
      digest, w.cell, Cancel(w.local, "Cancelled before execution.", w.local.stages, end).value);
  }

  lemma StartingStarts(digest: Digest, job: Job, w: World, at: Instant, end: Instant, answers: Answers)
    requires Invariant(job, w) && w.clock <= at <= end && !w.cell.run.status.Terminal() && w.point.Starting?
    ensures var w' := Step(digest, job, w, Work(at, end, answers));
      w'.point == AtStage(0, None) && w'.cell.run.status.Running? && Invariant(job, w')
  {
    QueuedRunsCanStart(w.cell.run, end);
    UnfinishedSavesAreAllowed(digest, w.cell, Start(w.local, end).value);
  }

  /** One stage moved on in a sequence of stages that is finished up to there. */
  lemma MovedStageKeepsPrefix(stages: seq<Stage>, i: nat, s: Stage)
    requires Prefix(stages) && DoneBefore(stages, i) && i < |stages|
    requires Live(s) && !s.status.StageQueued?
    requires !FinishedStage(s) ==> !FinishedStage(stages[i])
    ensures Prefix(stages[i := s])
    ensures DoneBefore(stages[i := s], if FinishedStage(s) then i + 1 else i)
  {
  }

  /** Saving a running record with one stage moved on keeps the run live. */
  lemma MovedStageIsSaved(digest: Digest, cell: Cell, clock: Instant, i: nat, s: Stage, end: Instant)
    requires ValidRun(cell.run) && cell.run.status.Running? && StartedBefore(cell.run, clock) && clock <= end
    requires i < |cell.run.stages| && Replaces(cell.run.stages[i], s) && Before(s.startedAt, end)
    ensures var run := cell.run.(stages := cell.run.stages[i := s]);
      && WithStages(cell.run, run.stages) == Ok(run) && ValidRun(run)
      && StartedBefore(run, end)
      && SaveAllowed(digest, cell, run)
  {
    ReplacingKeepsValid(cell.run, i, s);
    UnfinishedSavesAreAllowed(digest, cell, cell.run.(stages := cell.run.stages[i := s]));
  }

  lemma OnlyTheCurrentStageRuns(stages: seq<Stage>, i: nat)
    requires Prefix(stages) && i < |stages| && !FinishedStage(stages[i])
    ensures stages[i].status.StageRunning? || DoneBefore(stages, i) ==> OnlyActiveRuns(stages, i)
  {
  }

  /** What every save of the loop writes takes the place of a stage that was queued or running. */
  lemma WrittenStagesFit(s: Stage, clock: Instant, at: Instant, metrics: map<string, Json>)
    requires ValidStage(s) && s.producedArtifactIds == [] && Before(s.startedAt, clock) && clock <= at
    requires s.status.StageQueued? || s.status.StageRunning?
    ensures Replaces(s, SkippedStage(s, at)) && Replaces(s, RunningStage(s, at))
    ensures s.status.StageRunning? ==> Replaces(s, SucceededStage(s, at, metrics))
  {
  }

  lemma StageIsUsable(run: AnalysisRun, i: nat)
    requires ValidRun(run) && !run.status.Terminal() && i < |run.stages|
    ensures ValidStage(run.stages[i]) && run.stages[i].producedArtifactIds == []
  {
    UnfinishedRunsProduceNothing(run, i);
    assert run.stages[i] in run.stages;
  }

  /** Still live, and still at work. */
  ghost predicate Advances(job: Job, w: World) {
    Invariant(job, w) && !w.cell.run.status.Terminal() && w.point.Busy()
  }

  /** A live world whose times all lie before the first of the two clock readings of this step. */
  ghost predicate Working(job: Job, w: World, at: Instant) {
    Advances(job, w) && at <= w.clock && StartedBefore(w.cell.run, at)
  }

  lemma EnteringAdvances(digest: Digest, job: Job, w: World, at: Instant)
    requires Working(job, w, at) && w.point.AtStage? && w.point.i < |w.local.stages|
    ensures Advances(job, EnterStage(digest, job, w, at))
  {
    hide ValidRun, SaveAllowed, WithStages, StageTitle;
    var i, run := w.point.i, w.cell.run;
    var stage := run.stages[i];
    StageIsUsable(run, i);
    if Done(stage) {
    } else if Skippable(job, stage) {
      WrittenStagesFit(stage, at, at, map[]);
      MovedStageKeepsPrefix(run.stages, i, SkippedStage(stage, at));
      MovedStageIsSaved(digest, w.cell, at, i, SkippedStage(stage, at), w.clock);
    } else {
      OnlyTheCurrentStageRuns(run.stages, i);
    }
  }

  lemma BeginningAdvances(digest: Digest, job: Job, w: World, at: Instant)
    requires Working(job, w, at) && w.point.Checked? && w.point.i < |w.local.stages|
    ensures Advances(job, BeginStage(digest, w, at))
  {
    hide ValidRun, SaveAllowed, WithStages, StageTitle;
    var i, run := w.point.i, w.cell.run;
    StageIsUsable(run, i);
    WrittenStagesFit(run.stages[i], at, at, map[]);
    MovedStageKeepsPrefix(run.stages, i, RunningStage(run.stages[i], at));
    MovedStageIsSaved(digest, w.cell, at, i, RunningStage(run.stages[i], at), w.clock);
  }

  lemma LeavingAdvances(job: Job, w: World, at: Instant, outcome: BuildOutcome)
    requires Working(job, w, at) && w.point.InStage? && w.point.i < |w.local.stages|
    ensures Advances(job, LeaveStage(job, w, outcome))
  {
    hide ValidRun;
    OnlyTheCurrentStageRuns(w.cell.run.stages, w.point.i);
  }

  lemma FinishingAdvances(digest: Digest, job: Job, w: World, at: Instant, metrics: Option<map<string, Json>>)
    requires Working(job, w, at) && w.point.PastCheckpoint? && w.point.i < |w.local.stages|
    ensures Advances(job, FinishStage(digest, w, at, metrics))
  {
    hide ValidRun, SaveAllowed, WithStages, StageTitle;
    var i, run := w.point.i, w.cell.run;
    OnlyTheCurrentStageRuns(run.stages, i);
    if metrics.Some? {
      var stage := SucceededStage(run.stages[i], at, metrics.value);
      StageIsUsable(run, i);
      WrittenStagesFit(run.stages[i], at, at, metrics.value);
      MovedStageKeepsPrefix(run.stages, i, stage);
      MovedStageIsSaved(digest, w.cell, at, i, stage, w.clock);
    }
  }

  // -- the four exits --------------------------------------------------------

  lemma NoStageRuns(stages: seq<Stage>)
    requires forall i :: 0 <= i < |stages| ==> !stages[i].status.StageRunning?
    ensures !AnyStage(stages, InProgress)
  {
    forall s | s in stages ensures !InProgress(s.status) {
    }
  }

  /** Stopping the active stage leaves stages that an ended run may hold. */
  lemma StoppedStagesFit(run: AnalysisRun, active: int, stopped: Stage -> Stage)
    requires ValidRun(run) && run.status.Running? && OnlyActiveRuns(run.stages, active)
    requires 0 <= active < |run.stages| && run.stages[active].status.StageRunning? ==>
      Replaces(run.stages[active], stopped(run.stages[active])) && !stopped(run.stages[active]).status.StageRunning?
    ensures var stages := StopActive(run.stages, active, stopped);
      && UniqueStages(stages)
      && (forall t :: t in stages ==> ValidStage(t))
      && ValidLinks(run.(stages := stages))
      && !AnyStage(stages, InProgress)
  {
    if 0 <= active < |run.stages| && run.stages[active].status.StageRunning? {
      ReplacedStagesFit(run, active, stopped(run.stages[active]));
    }
    NoStageRuns(StopActive(run.stages, active, stopped));
  }

  lemma StoppedStagesReplace(s: Stage, at: Instant, failure: Failure)
    requires ValidStage(s) && s.producedArtifactIds == [] && Before(s.startedAt, at)
    ensures Replaces(s, CancelledStage(s, at)) && Replaces(s, FailedStage(s, at, failure))
  {
  }

  lemma EndedRecordsAreValid(run: AnalysisRun, ended: AnalysisRun, end: Instant)
    requires ValidRun(run) && run.status.Running? && StartedBefore(run, end)
    requires UniqueStages(ended.stages) && (forall t :: t in ended.stages ==> ValidStage(t))
    requires ValidLinks(run.(stages := ended.stages)) && !AnyStage(ended.stages, InProgress)
    requires
      || (ended.failure.Some? && ended == run.(
           status := Failed, failure := ended.failure, stages := ended.stages, completedAt := Some(end)))
      || ended == run.(
           status := Cancelled, cancellationReason := ended.cancellationReason, stages := ended.stages,
           completedAt := Some(end))
    ensures ValidRun(ended) && SameProvenance(run, ended)
  {
    assert ValidLinks(ended);
  }

  /** Both exits for a stopped run build a record that the contract accepts, wherever the run stopped. */
  lemma StoppedRunsCanEnd(run: AnalysisRun, active: int, failure: Failure, at: Instant, end: Instant)
    requires ValidRun(run) && run.status.Running? && StartedBefore(run, at) && at <= end
    requires OnlyActiveRuns(run.stages, active)
    ensures CancelledRun(run, active, at, end).Ok? && SameProvenance(run, CancelledRun(run, active, at, end).value)
    ensures FailedRun(run, active, failure, at, end).Ok?
      && SameProvenance(run, FailedRun(run, active, failure, at, end).value)
  {
    if 0 <= active < |run.stages| {
      StageIsUsable(run, active);
      StoppedStagesReplace(run.stages[active], at, failure);
    }
    StoppedStagesFit(run, active, (s: Stage) => CancelledStage(s, at));
    StoppedStagesFit(run, active, (s: Stage) => FailedStage(s, at, failure));
    EndedRecordsAreValid(run, run.(
      status := Cancelled, cancellationReason := Some("Cancellation requested by user."),
      stages := CancelActive(run.stages, active, at), completedAt := Some(end)), end);
    EndedRecordsAreValid(run, run.(
      status := Failed, failure := Some(RunFailure(run.stages, active, at, failure)),
      stages := FailActive(run.stages, active, at, failure), completedAt := Some(end)), end);
  }

  lemma CancellingEnds(digest: Digest, job: Job, w: World, at: Instant)
    requires Working(job, w, at) && w.point.RecordingCancel?
    ensures var w' := RecordCancelled(digest, w, at, w.clock);
      w'.point == Finished(Returned(Cancelled)) && ValidRun(w'.cell.run) && w'.cell.run.status.Cancelled?
  {
    StoppedRunsCanEnd(w.cell.run, w.point.active, UNEXPECTED, at, w.clock);
    UnfinishedSavesAreAllowed(digest, w.cell, CancelledRun(w.cell.run, w.point.active, at, w.clock).value);
  }

  lemma FailingEnds(digest: Digest, job: Job, w: World, at: Instant)
    requires Working(job, w, at) && w.point.RecordingFailure?
    ensures var w' := RecordFailed(digest, w, at, w.clock);
      w'.point == Finished(Returned(Failed)) && ValidRun(w'.cell.run) && w'.cell.run.status.Failed?
  {
    StoppedRunsCanEnd(w.cell.run, w.point.active, w.point.failure, at, w.clock);
    UnfinishedSavesAreAllowed(
      digest, w.cell, FailedRun(w.cell.run, w.point.active, w.point.failure, at, w.clock).value);
  }

  /** When the last record can be built: it needs stages, artifacts that differ, and somewhere to stop short. */
  predicate CanComplete(run: AnalysisRun, references: seq<ArtifactReference>) {
    && run.stages != []
    && UniqueArtifacts(references)
    && (ForcedPartial(run) ==> run.stages[|run.stages| - 1].required)
  }

  function FinalStages(run: AnalysisRun, references: seq<ArtifactReference>): (stages: seq<Stage>)
    requires run.stages != []
    ensures |stages| == |run.stages|
  {
    var stages := PublishedStages(run.stages, ArtifactIds(references));
    if ForcedPartial(run) then stages[|stages| - 1 := PartialStage(stages[|stages| - 1])] else stages
  }

  lemma FinalStageFits(run: AnalysisRun, references: seq<ArtifactReference>, i: nat)
    requires ValidRun(run) && i < |run.stages| && FinishedStage(run.stages[i]) && UniqueArtifacts(references)
    ensures var s := FinalStages(run, references)[i];
      && ValidStage(s) && s.attempt == run.attempt
      && s.id == run.stages[i].id && s.name == run.stages[i].name && s.required == run.stages[i].required
      && (s.status == run.stages[i].status || (ForcedPartial(run) && i == |run.stages| - 1 && s.status.StagePartial?))
      && forall id :: id in s.producedArtifactIds ==> id in ArtifactIds(references)
  {
    assert run.stages[i] in run.stages;
  }

  lemma FinalStagesFit(run: AnalysisRun, references: seq<ArtifactReference>)
    requires ValidRun(run) && run.status.Running? && DoneBefore(run.stages, |run.stages|) && run.stages != []
    requires UniqueArtifacts(references)
    ensures var stages := FinalStages(run, references);
      && UniqueStages(stages)
      && (forall t :: t in stages ==> ValidStage(t))
      && ValidLinks(run.(stages := stages, artifacts := references))
      && !AnyStage(stages, Active)
  {
    var stages := FinalStages(run, references);
    forall i | 0 <= i < |stages|
      ensures && ValidStage(stages[i]) && stages[i].attempt == run.attempt && !Active(stages[i].status)
        && stages[i].id == run.stages[i].id && stages[i].name == run.stages[i].name
        && forall id :: id in stages[i].producedArtifactIds ==> id in ArtifactIds(references)
    {
      FinalStageFits(run, references, i);
    }
    assert StageIds(stages) == StageIds(run.stages) && StageNames(stages) == StageNames(run.stages);
  }

  function CompletedRecord(run: AnalysisRun, references: seq<ArtifactReference>, end: Instant): AnalysisRun
    requires run.stages != []
  {
    run.(
      status := if ForcedPartial(run) then Partial else Succeeded, artifacts := references,
      stages := FinalStages(run, references),
      partialReason := if ForcedPartial(run) then Some(PARTIAL_REASON) else run.partialReason,
      completedAt := Some(end))
  }

  lemma CompletedRunIsTheRecord(run: AnalysisRun, references: seq<ArtifactReference>, end: Instant)
    requires ValidRun(run) && run.status.Running?
    ensures CompletedRun(run, references, end) ==
      if run.stages != [] && ValidRun(CompletedRecord(run, references, end))
      then Ok(CompletedRecord(run, references, end)) else Err(Invalid)
  {
  }

  lemma CompletedRecordIsValid(run: AnalysisRun, references: seq<ArtifactReference>, end: Instant)
    requires ValidRun(run) && run.status.Running? && DoneBefore(run.stages, |run.stages|)
    requires StartedBefore(run, end) && references != [] && CanComplete(run, references)
    ensures ValidRun(CompletedRecord(run, references, end))
  {
    var r, last := CompletedRecord(run, references, end), |run.stages| - 1;
    FinalStagesFit(run, references);
    assert ValidLinks(r);
    FinalStageFits(run, references, last);
    assert r.stages[last] in r.stages;
    if !ForcedPartial(run) {
      forall i | 0 <= i < |r.stages| && r.stages[i].required ensures r.stages[i].status.StageSucceeded? {
        FinalStageFits(run, references, i);
      }
    }
  }

  lemma ValidCompletedRecordsFit(run: AnalysisRun, references: seq<ArtifactReference>, end: Instant)
    requires ValidRun(run) && run.status.Running? && DoneBefore(run.stages, |run.stages|) && run.stages != []
    requires ValidRun(CompletedRecord(run, references, end))
    ensures CanComplete(run, references)
  {
    var r := CompletedRecord(run, references, end);
    if ForcedPartial(run) {
      var s :| s in r.stages && s.required && Incomplete(s.status);
      var i :| 0 <= i < |r.stages| && r.stages[i] == s;
      FinalStageFits(run, references, i);
    }
  }

  /** A run whose stages are all finished completes exactly when the contract's three demands are met. */
  lemma CompletesIff(run: AnalysisRun, references: seq<ArtifactReference>, end: Instant)
    requires ValidRun(run) && run.status.Running? && DoneBefore(run.stages, |run.stages|)
    requires StartedBefore(run, end) && references != []
    ensures CompletedRun(run, references, end).Ok? <==> CanComplete(run, references)
    ensures CanComplete(run, references) ==>
      CompletedRun(run, references, end).value == CompletedRecord(run, references, end)
  {
    CompletedRunIsTheRecord(run, references, end);
    if CanComplete(run, references) {
      CompletedRecordIsValid(run, references, end);
    } else if run.stages != [] && ValidRun(CompletedRecord(run, references, end)) {
      ValidCompletedRecordsFit(run, references, end);
    }
  }

  lemma LoopSteps(digest: Digest, job: Job, w: World, at: Instant, end: Instant, answers: Answers)
    requires w.clock <= at <= end
    requires w.point.AtStage? || w.point.Checked? || w.point.InStage? || w.point.PastCheckpoint?
    requires w.point.i < |w.local.stages|
    ensures var v, next := w.(clock := end), Step(digest, job, w, Work(at, end, answers));
      && (w.point.AtStage? ==> next == EnterStage(digest, job, v, at))
      && (w.point.Checked? ==> next == BeginStage(digest, v, at))
      && (w.point.InStage? ==> next == LeaveStage(job, v, answers.build))
      && (w.point.PastCheckpoint? ==> next == FinishStage(digest, v, at, answers.metrics))
  {
    hide EnterStage, BeginStage, LeaveStage, FinishStage;
  }

  lemma EndSteps(digest: Digest, job: Job, w: World, at: Instant, end: Instant, answers: Answers)
    requires w.clock <= at <= end
    ensures var v, next := w.(clock := end), Step(digest, job, w, Work(at, end, answers));
      && (w.point.Completing? ==> next == RecordCompletion(digest, v, end))
      && (w.point.RecordingCancel? ==> next == RecordCancelled(digest, v, at, end))
      && (w.point.Failing? ==> next == LoadAfterFailure(v))
      && (w.point.RecordingFailure? ==> next == RecordFailed(digest, v, at, end))
  {
    hide RecordCompletion, RecordCancelled, LoadAfterFailure, RecordFailed;
  }

  /** What a step of an unfinished run leads to: more work, or the end of the delivery with an ended record. */
  ghost predicate Proceeds(job: Job, w: World) {
    || Advances(job, w)
    || (w.point == Finished(Returned(w.cell.run.status)) && w.cell.run.status.Terminal() && ValidRun(w.cell.run))
  }

  /** The references collected so far are those of the payloads, in order, and each file holds what was written. */
  ghost predicate ReferencesAreIntact(digest: Digest, w: World) {
    w.point.Publishes() ==>
      forall k :: 0 <= k < |w.point.references| ==>
        Written(digest, w.cell.files, w.point.payloads, k, w.point.references[k])
  }

  ghost predicate Written(digest: Digest, files: Files, payloads: Build, k: nat, reference: ArtifactReference) {
    var item := NextItem(payloads, k);
    && item.Item? && SafeArtifactPath(item.path) && reference == ReferenceTo(digest, item)
    && item.path in files && files[item.path] == item.content
  }

  lemma WrittenReferencesVerify(digest: Digest, w: World)
    requires w.point.Publishes() && ReferencesAreIntact(digest, w)
    ensures VerifyArtifacts(digest, w.cell.files, w.point.references)
  {
    var references := w.point.references;
    forall k | 0 <= k < |references| ensures FileMatches(digest, w.cell.files, references[k]) {
      assert Written(digest, w.cell.files, w.point.payloads, k, references[k]);
    }
  }

  lemma PublishingKeepsIntact(digest: Digest, w: World)
    requires w.point.Publishing? && ReferencesAreIntact(digest, w)
    ensures ReferencesAreIntact(digest, PublishNext(digest, w))
  {
    hide ValidRun, SaveAllowed, CompletedRun, NextItem, SafeArtifactPath, VerifyArtifacts;
    var build, references, w' := w.point.payloads, w.point.references, PublishNext(digest, w);
    forall k | w'.point.Publishes() && 0 <= k < |w'.point.references|
      ensures Written(digest, w'.cell.files, build, k, w'.point.references[k])
    {
      assert k < |references| ==> Written(digest, w.cell.files, build, k, references[k]);
    }
  }

  lemma PublishingAdvances(digest: Digest, job: Job, w: World, at: Instant)
    requires Working(job, w, at) && w.point.Publishing?
    ensures Advances(job, PublishNext(digest, w))
  {
    hide ValidRun, VerifyArtifacts, NextItem, ReferenceTo, SafeArtifactPath;
  }

  /** What a completion comes to: the record when the contract accepts it, and otherwise the failure exit. */
  lemma CompletionEnds(digest: Digest, job: Job, w: World, at: Instant)
    requires Working(job, w, at) && w.point.Completing? && ReferencesAreIntact(digest, w)
    ensures var references, w' := w.point.references, RecordCompletion(digest, w, w.clock);
      if CanComplete(w.cell.run, references)
      then
        && w'.cell == w.cell.(run := CompletedRecord(w.cell.run, references, w.clock))
        && w'.point == Finished(Returned(w'.cell.run.status)) && ValidRun(w'.cell.run)
        && w'.cell.run.status == (if ForcedPartial(w.cell.run) then Partial else Succeeded)
      else w' == w.(point := Failing(LastIndex(w.local), UNEXPECTED))
  {
    hide ValidRun, SaveAllowed, CompletedRecord, CompletedRun, CanComplete, Written;
    WrittenReferencesVerify(digest, w);
    CompletesIff(w.cell.run, w.point.references, w.clock);
    if CanComplete(w.cell.run, w.point.references) {
      CompletedRecordIsSaved(digest, w.cell, w.point.references, w.clock);
    }
  }

  lemma PublishingProceeds(digest: Digest, job: Job, w: World, at: Instant)
    requires Working(job, w, at) && w.point.Publishes() && ReferencesAreIntact(digest, w)
    ensures w.point.Publishing? ==> Proceeds(job, PublishNext(digest, w))
    ensures w.point.Completing? ==> Proceeds(job, RecordCompletion(digest, w, w.clock))
  {
    hide ValidRun, CanComplete, CompletedRecord, PublishNext, RecordCompletion;
    if w.point.Publishing? {
      PublishingAdvances(digest, job, w, at);
    } else if w.point.Completing? {
      CompletionEnds(digest, job, w, at);
    }
  }

  lemma CompletedRecordIsSaved(digest: Digest, cell: Cell, references: seq<ArtifactReference>, end: Instant)
    requires ValidRun(cell.run) && cell.run.status.Running? && DoneBefore(cell.run.stages, |cell.run.stages|)
    requires StartedBefore(cell.run, end) && references != []
    requires CanComplete(cell.run, references) && VerifyArtifacts(digest, cell.files, references)
    ensures var completed := CompletedRecord(cell.run, references, end);
      && ValidRun(completed) && SaveAllowed(digest, cell, completed)
      && completed.status == if ForcedPartial(cell.run) then Partial else Succeeded
  {
    CompletedRecordIsValid(cell.run, references, end);
    UnfinishedSavesAreAllowed(digest, cell, CompletedRecord(cell.run, references, end));
  }

  lemma OtherStepsKeepIntact(digest: Digest, job: Job, w: World, e: Event)
    requires ReferencesAreIntact(digest, w)
    requires !(w.point.Publishing? && e.Work?)
    ensures ReferencesAreIntact(digest, Step(digest, job, w, e))
  {
    hide SaveAllowed, CompletedRun, CancelledRun, FailedRun, EndsQueuedRecord, Written, VerifyArtifacts, PublishNext;
  }
}
