/** How deliveries begin, which build they publish, and when they raise. */
module ExecutorDeliveries {
  import opened Common
  import opened RunContract
  import opened Lifecycle
  import opened RunStore
  import opened Executor
  import opened ExecutorSteps
  import opened ExecutorHistories
  import opened ExecutorCancellation

  // -- a run that was cancelled while it was queued --------------------------

  /** The record of a run that was cancelled before it was started: no stage was touched. */
  ghost predicate CancelledUnstarted(created: AnalysisRun, run: AnalysisRun) {
    && run.completedAt.Some?
    && run == created.(
         status := Cancelled, cancellationReason := Some("Cancelled before execution."),
         completedAt := run.completedAt)
  }

  /** Where a run stands that was marked while no worker had looked at it. */
  ghost predicate WillNotStart(created: AnalysisRun, w: World) {
    && w.cell.marked
    && (|| (&& w.cell.run == created && w.point in {Idle, Claimed, CancellingQueued}
            && (w.point != Idle ==> w.local == created))
        || (CancelledUnstarted(created, w.cell.run) && w.point in {Idle, Finished(Returned(Cancelled))}))
  }

  lemma StepKeepsWillNotStart(digest: Digest, job: Job, created: AnalysisRun, w: World, e: Event)
    requires created.status.Queued? && WillNotStart(created, w) && Invariant(job, w) && !e.EndElsewhere?
    ensures WillNotStart(created, Step(digest, job, w, e))
  {
    hide ValidRun, PointFits;
    if e.Work? && w.clock <= e.at <= e.end && w.point.CancellingQueued? {
      CancellingQueuedEnds(digest, job, w, e.at, e.end, e.answers);
      var cancelled := Cancel(w.local, "Cancelled before execution.", w.local.stages, e.end);
      assert w.cell.run == created && Step(digest, job, w, e).cell.run == cancelled.value;
    }
  }

  /** A run that is marked before any worker looks at it is never started: it stays as it is, or ends cancelled. */
  lemma {:induction false} MarkedRunsAreNeverStarted(digest: Digest, job: Job, w: World, events: seq<Event>)
    requires Created(w.(cell := w.cell.(marked := false))) && w.cell.marked
    requires forall i :: 0 <= i < |events| ==> !events[i].EndElsewhere?
    ensures var run := Run(digest, job, w, events).cell.run;
      run == w.cell.run || CancelledUnstarted(w.cell.run, run)
    ensures WillNotStart(w.cell.run, Run(digest, job, w, events))
  {
    hide ValidRun, Step, Invariant;
    if events != [] {
      var earlier := events[..|events| - 1];
      MarkedRunsAreNeverStarted(digest, job, w, earlier);
      MarkedRunsFit(digest, job, w, earlier);
      StepKeepsWillNotStart(digest, job, w.cell.run, Run(digest, job, w, earlier), events[|events| - 1]);
    }
  }

  lemma MarkedRunsFit(digest: Digest, job: Job, w: World, events: seq<Event>)
    requires Created(w.(cell := w.cell.(marked := false)))
    ensures Invariant(job, Run(digest, job, w, events))
  {
    hide ValidRun, Run, LiveInvariant;
    CreatedRunsFit(job, w.(cell := w.cell.(marked := false)));
    MarksDoNotMatter(job, w);
    EveryHistoryKeepsInvariant(digest, job, w, events);
  }

  lemma MarksDoNotMatter(job: Job, w: World)
    requires w.point.Idle? && Invariant(job, w.(cell := w.cell.(marked := false)))
    ensures Invariant(job, w)
  {
    hide ValidRun;
  }

  /** A run that was not marked is started when it is claimed, at the time of the claim, and nothing else changes. */
  lemma ClaimedRunsAreStarted(digest: Digest, job: Job, w: World, at: Instant, end: Instant, answers: Answers)
    requires Advances(job, w) && w.clock <= at <= end && w.point.Starting?
    ensures var next := Step(digest, job, w, Work(at, end, answers));
      && next.cell.run == w.cell.run.(status := Running, startedAt := Some(end))
      && next.cell.files == w.cell.files && next.point == AtStage(0, None)
  {
    hide ValidRun, PointFits;
    StartingStarts(digest, job, w, at, end, answers);
  }

  // -- one build for each delivery -------------------------------------------

  /** The build that a delivery has in hand. */
  function InHand(point: Point): Option<Build> {
    match point
    case AtStage(_, build) => build
    case Checked(_, build) => build
    case InStage(_, build) => build
    case PastCheckpoint(_, build) => build
    case Publishing(payloads, _) => Some(payloads)
    case Verified(payloads, _) => Some(payloads)
    case Completing(payloads, _) => Some(payloads)
    case _ => None
  }

  /** The pipeline was asked in this step, and returned this build. */
  ghost predicate Takes(job: Job, w: World, e: Event, build: Build) {
    && e.Work? && w.clock <= e.at <= e.end && e.answers.build == Built(build)
    && (|| (w.point.InStage? && w.point.i < |w.local.stages|
            && job.profile == V1Compat && w.local.stages[w.point.i].name == Detection)
        || (w.point.AtStage? && w.point.i >= |w.local.stages| && w.point.build == None))
  }

  lemma BuildsAreTakenInHand(digest: Digest, job: Job, w: World, e: Event, build: Build)
    requires Takes(job, w, e, build)
    ensures var next := Step(digest, job, w, e);
      if w.cell.marked && w.point.InStage? then next.point == Cancelling(w.point.i)
      else InHand(next.point) == Some(build) && next.cell == w.cell
  {
  }

  /** A build in hand stays in hand, unless another one is taken or the delivery comes to an exit. */
  lemma StepKeepsTheBuild(digest: Digest, job: Job, w: World, e: Event, build: Build)
    ensures InHand(Step(digest, job, w, e).point) == Some(build) ==>
      InHand(w.point) == Some(build) || Takes(job, w, e, build)
    ensures InHand(w.point) == Some(build) && e != Crash ==>
      var next := Step(digest, job, w, e).point;
      || InHand(next) == Some(build) || next.Stops() || next.Finished?
      || (InHand(next).Some? && Takes(job, w, e, InHand(next).value))
  {
    hide SaveAllowed, WithStages, SkippedStage, RunningStage, SucceededStage, CompletedRun, CancelledRun, FailedRun,
      Start, Cancel, NextItem, ReferenceTo, VerifyArtifacts, WriteAllowed, EndsQueuedRecord;
  }

  /** The build in hand is one that the pipeline returned at a step of this history, and has not changed since. */
  lemma {:induction false} BuildsComeFromThePipeline(
      digest: Digest, job: Job, w: World, events: seq<Event>, build: Build) returns (i: nat)
    requires InHand(w.point) == None && InHand(Run(digest, job, w, events).point) == Some(build)
    ensures i < |events| && Takes(job, Run(digest, job, w, events[..i]), events[i], build)
    ensures forall j :: i < j <= |events| ==> InHand(Run(digest, job, w, events[..j]).point) == Some(build)
  {
    hide Step, Takes;
    var earlier, last := events[..|events| - 1], events[|events| - 1];
    assert events[..|events|] == events;
    StepKeepsTheBuild(digest, job, Run(digest, job, w, earlier), last, build);
    if Takes(job, Run(digest, job, w, earlier), last, build) {
      i := |events| - 1;
    } else {
      i := BuildsComeFromThePipeline(digest, job, w, earlier, build);
      assert events[..i] == earlier[..i];
      forall j | i < j <= |events| ensures InHand(Run(digest, job, w, events[..j]).point) == Some(build) {
        if j < |events| {
          assert events[..j] == earlier[..j];
        }
      }
    }
  }

  // -- when a delivery raises ------------------------------------------------

  /** Where a delivery writes a record without a way to the failure exit. */
  ghost predicate HasNoWayOut(point: Point) {
    point.CancellingQueued? || point.Starting? || point.RecordingCancel? || point.RecordingFailure?
  }

  lemma EndedRunsTakeNoSave(digest: Digest, w: World, built: Result<AnalysisRun, ContractError>, p: Point, q: Point)
    requires w.cell.run.status.Terminal()
    ensures SaveOr(digest, w, built, p, q) == w.(point := q)
  {
    if built.Ok? {
      TransitionAllowedIff(w.cell.run, built.value);
    }
  }

  /**
   * A delivery raises exactly when another client ended the run before it could write its own end or its start. On its
   * way to the failure exit it notices, and returns the status that was stored.
   */
  lemma DeliveriesRaiseIff(digest: Digest, job: Job, w: World, at: Instant, end: Instant, answers: Answers)
    requires Invariant(job, w) && ReferencesAreIntact(digest, w) && w.point.Busy() && w.clock <= at <= end
    ensures var next := Step(digest, job, w, Work(at, end, answers));
      && (next.point == Finished(Raised) <==> w.cell.run.status.Terminal() && HasNoWayOut(w.point))
      && (w.cell.run.status.Terminal() ==> next.cell == w.cell)
      && (w.cell.run.status.Terminal() && w.point.Failing? ==>
            next.point == Finished(Returned(w.cell.run.status)))
  {
    hide ValidRun, PointFits, SaveOr, Written, WithStages, CompletedRun, CancelledRun, FailedRun, Start, Cancel,
      NextItem, ReferenceTo, VerifyArtifacts;
    if w.cell.run.status.Terminal() {
      forall built, p, q ensures SaveOr(digest, w.(clock := end), built, p, q) == w.(clock := end, point := q) {
        EndedRunsTakeNoSave(digest, w.(clock := end), built, p, q);
      }
    } else {
      hide Step;
      WorkProceeds(digest, job, w, at, end, answers);
    }
  }
}
