/** Cancellation: how much can still happen after a request, and when a request comes too late. */
module ExecutorCancellation {
  import opened Common
  import opened RunContract
  import opened Lifecycle
  import opened RunStore
  import opened Executor
  import opened ExecutorSteps
  import opened ExecutorHistories
  import Coordinator

  // -- cancellation: at most one more stage succeeds -------------------------

  function SucceededCount(stages: seq<Stage>): nat {
    if stages == [] then 0
    else SucceededCount(stages[..|stages| - 1]) + (if stages[|stages| - 1].status.StageSucceeded? then 1 else 0)
  }

  function One(s: Stage): nat {
    if s.status.StageSucceeded? then 1 else 0
  }

  lemma {:induction false} CountOfUpdate(stages: seq<Stage>, i: nat, s: Stage)
    requires i < |stages|
    ensures SucceededCount(stages[i := s]) == SucceededCount(stages) - One(stages[i]) + One(s)
  {
    var last := |stages| - 1;
    if i == last {
      assert stages[i := s][..last] == stages[..last];
    } else {
      CountOfUpdate(stages[..last], i, s);
      assert stages[i := s][..last] == stages[..last][i := s];
    }
  }

  lemma {:induction false} FewerSucceed(stages: seq<Stage>, others: seq<Stage>)
    requires |stages| == |others|
    requires forall i :: 0 <= i < |stages| ==> One(others[i]) <= One(stages[i])
    ensures SucceededCount(others) <= SucceededCount(stages)
  {
    if stages != [] {
      FewerSucceed(stages[..|stages| - 1], others[..|others| - 1]);
    }
  }

  lemma {:induction false} NoneSucceeded(stages: seq<Stage>)
    requires forall s :: s in stages ==> s.status.StageQueued?
    ensures SucceededCount(stages) == 0
  {
    if stages != [] {
      NoneSucceeded(stages[..|stages| - 1]);
      assert stages[|stages| - 1] in stages;
    }
  }

  /** The stages that succeeded, and the one whose success can no longer be stopped. */
  function Potential(w: World): nat {
    SucceededCount(w.cell.run.stages)
    + (if w.point.PastCheckpoint? && !w.cell.run.status.Terminal() then 1 else 0)
  }

  lemma StagesOfTheEnd(digest: Digest, w: World, at: Instant)
    requires w.local == w.cell.run && (w.point.RecordingCancel? || w.point.RecordingFailure?)
    ensures w.point.RecordingCancel? ==>
      SucceededCount(RecordCancelled(digest, w, at, w.clock).cell.run.stages) <= SucceededCount(w.cell.run.stages)
    ensures w.point.RecordingFailure? ==>
      SucceededCount(RecordFailed(digest, w, at, w.clock).cell.run.stages) <= SucceededCount(w.cell.run.stages)
  {
    hide SaveAllowed, ValidRun, SucceededCount;
    var stages, active := w.cell.run.stages, w.point.active;
    if 0 <= active < |stages| {
      CountOfUpdate(stages, active, CancelledStage(stages[active], at));
      if w.point.RecordingFailure? {
        CountOfUpdate(stages, active, FailedStage(stages[active], at, w.point.failure));
      }
    }
  }

  lemma StagesOfTheCompletion(run: AnalysisRun, references: seq<ArtifactReference>)
    requires run.stages != []
    ensures SucceededCount(FinalStages(run, references)) <= SucceededCount(run.stages)
  {
    FewerSucceed(run.stages, FinalStages(run, references));
  }

  lemma PublishingKeepsPotential(digest: Digest, job: Job, w: World, at: Instant)
    requires Working(job, w, at) && w.point.Publishes() && ReferencesAreIntact(digest, w)
    ensures w.point.Publishing? ==> Potential(PublishNext(digest, w)) <= Potential(w)
    ensures w.point.Completing? ==> Potential(RecordCompletion(digest, w, w.clock)) <= Potential(w)
  {
    hide ValidRun, Written, SucceededCount, RecordCompletion, VerifyArtifacts, NextItem, ReferenceTo;
    if w.point.Completing? {
      CompletionEnds(digest, job, w, at);
      if CanComplete(w.cell.run, w.point.references) {
        StagesOfTheCompletion(w.cell.run, w.point.references);
      }
    }
  }

  lemma SavingKeepsPotential(digest: Digest, w: World, i: nat, s: Stage, next: Point, refused: Point)
    requires w.local == w.cell.run && !w.cell.run.status.Terminal() && i < |w.local.stages|
    requires !next.PastCheckpoint? && !refused.PastCheckpoint?
    requires One(s) <= One(w.local.stages[i]) + (if w.point.PastCheckpoint? then 1 else 0)
    ensures Potential(SaveOr(digest, w, WithStages(w.local, w.local.stages[i := s]), next, refused)) <= Potential(w)
  {
    hide SaveAllowed, ValidRun, SucceededCount, WithStages, Potential, SaveOr;
    CountOfUpdate(w.local.stages, i, s);
    BuiltStages(w.local, w.local.stages[i := s]);
    SavedPotential(digest, w, WithStages(w.local, w.local.stages[i := s]), next, refused);
    assert Potential(w) == SucceededCount(w.local.stages) + (if w.point.PastCheckpoint? then 1 else 0) by {
      PotentialOf(w);
    }
  }

  lemma PotentialOf(w: World)
    requires !w.cell.run.status.Terminal()
    ensures Potential(w) == SucceededCount(w.cell.run.stages) + (if w.point.PastCheckpoint? then 1 else 0)
  {
  }

  lemma BuiltStages(run: AnalysisRun, stages: seq<Stage>)
    ensures WithStages(run, stages).Ok? ==> WithStages(run, stages).value.stages == stages
  {
    hide ValidRun;
  }

  lemma SavedPotential(
      digest: Digest, w: World, built: Result<AnalysisRun, ContractError>, next: Point, refused: Point)
    requires !next.PastCheckpoint? && !refused.PastCheckpoint?
    ensures var w' := SaveOr(digest, w, built, next, refused);
      || Potential(w') == SucceededCount(w.cell.run.stages)
      || (built.Ok? && Potential(w') == SucceededCount(built.value.stages))
  {
    hide SaveAllowed, SucceededCount;
  }

  lemma LoopKeepsPotential(digest: Digest, job: Job, w: World, at: Instant, answers: Answers)
    requires Working(job, w, at) && w.cell.marked
    requires w.point.AtStage? || w.point.Checked? || w.point.InStage? || w.point.PastCheckpoint?
    ensures Potential(WorkStep(digest, job, w, at, w.clock, answers)) <= Potential(w)
  {
    hide ValidRun, SaveOr, Potential, SucceededCount, StageTitle;
    var stages, i, build := w.cell.run.stages, w.point.i, w.point.build;
    if i < |stages| {
      match w.point {
        case AtStage(_, _) =>
          SavingKeepsPotential(
            digest, w, i, SkippedStage(stages[i], at), AtStage(i + 1, build), Failing(i, UNEXPECTED));
          UnsavedKeepsPotential(w, WorkStep(digest, job, w, at, w.clock, answers).point);
        case Checked(_, _) =>
          SavingKeepsPotential(digest, w, i, RunningStage(stages[i], at), InStage(i, build), Failing(i, UNEXPECTED));
        case InStage(_, _) =>
          UnsavedKeepsPotential(w, WorkStep(digest, job, w, at, w.clock, answers).point);
        case PastCheckpoint(_, _) =>
          if answers.metrics.Some? {
            SavingKeepsPotential(digest, w, i, SucceededStage(stages[i], at, answers.metrics.value),
              AtStage(i + 1, build), Failing(i, UNEXPECTED));
          } else {
            UnsavedKeepsPotential(w, Failing(i, UNEXPECTED));
          }
      }
    } else {
      UnsavedKeepsPotential(w, WorkStep(digest, job, w, at, w.clock, answers).point);
    }
  }

  lemma UnsavedKeepsPotential(w: World, next: Point)
    ensures next.PastCheckpoint? || Potential(w.(point := next)) <= Potential(w)
  {
  }

  lemma WorkKeepsPotential(digest: Digest, job: Job, w: World, at: Instant, end: Instant, answers: Answers)
    requires Advances(job, w) && w.clock <= at <= end && w.cell.marked && ReferencesAreIntact(digest, w)
    ensures Potential(Step(digest, job, w, Work(at, end, answers))) <= Potential(w)
  {
    hide ValidRun, SaveAllowed, CompletedRun, RecordCancelled, RecordFailed, EnterStage, BeginStage, LeaveStage,
      FinishStage, PublishNext, RecordCompletion, SucceededCount;
    var v := w.(clock := end);
    assert Working(job, v, at);
    match w.point {
      case Publishing(_, _) => PublishingKeepsPotential(digest, job, v, at);
      case Verified(_, _) =>
      case Completing(_, _) => PublishingKeepsPotential(digest, job, v, at);
      case Cancelling(_) =>
      case RecordingCancel(_) => CancellingEnds(digest, job, v, at); StagesOfTheEnd(digest, v, at);
      case Failing(_, _) =>
      case RecordingFailure(_, _) => FailingEnds(digest, job, v, at); StagesOfTheEnd(digest, v, at);
      case Claimed =>
      case CancellingQueued =>
      case Starting =>
      case _ => LoopKeepsPotential(digest, job, v, at, answers);
    }
  }

  lemma OutsideEventsKeepPotential(digest: Digest, job: Job, w: World, e: Event)
    requires !w.cell.run.status.Terminal() && !e.Work?
    ensures Potential(Step(digest, job, w, e)) <= Potential(w)
    ensures w.cell.marked ==> Step(digest, job, w, e).cell.marked
  {
    hide ValidRun, SaveAllowed, SucceededCount, WorkStep;
    if e.EndElsewhere? && EndsQueuedRecord(e.run) {
      NoneSucceeded(e.run.stages);
    }
  }

  lemma MarksStay(digest: Digest, job: Job, w: World, at: Instant, end: Instant, answers: Answers)
    ensures WorkStep(digest, job, w, at, end, answers).cell.marked == w.cell.marked
  {
    hide SaveAllowed, CompletedRun, CancelledRun, FailedRun, WithStages, Start, Cancel, NextItem, VerifyArtifacts;
  }

  lemma StepKeepsPotential(digest: Digest, job: Job, w: World, e: Event)
    requires Invariant(job, w) && ReferencesAreIntact(digest, w) && w.cell.marked
    ensures Potential(Step(digest, job, w, e)) <= Potential(w)
    ensures Step(digest, job, w, e).cell.marked
  {
    hide ValidRun, SaveAllowed, SucceededCount, WorkStep, DeliverStep, PointFits, Written;
    if w.cell.run.status.Terminal() {
      TerminalRecordsStay(digest, job, w, e);
    } else if !e.Work? {
      OutsideEventsKeepPotential(digest, job, w, e);
    } else if w.clock <= e.at <= e.end {
      MarksStay(digest, job, w.(clock := e.end), e.at, e.end, e.answers);
      if w.point.Busy() {
        WorkKeepsPotential(digest, job, w, e.at, e.end, e.answers);
      } else {
        RestingStays(digest, job, w.(clock := e.end), e.at, e.end, e.answers);
      }
    }
  }

  lemma RestingStays(digest: Digest, job: Job, w: World, at: Instant, end: Instant, answers: Answers)
    requires !w.point.Busy()
    ensures WorkStep(digest, job, w, at, end, answers) == w
  {
  }

  /**
   * After a cancellation was requested at most one more stage ever succeeds, crashes and redeliveries included: the one
   * whose second checkpoint was already passed.
   */
  lemma {:induction false} AtMostOneMoreStageSucceeds(digest: Digest, job: Job, w: World, events: seq<Event>)
    requires Invariant(job, w) && ReferencesAreIntact(digest, w) && w.cell.marked
    ensures Potential(Run(digest, job, w, events)) <= Potential(w)
    ensures SucceededCount(Run(digest, job, w, events).cell.run.stages)
      <= SucceededCount(w.cell.run.stages) + (if w.point.PastCheckpoint? then 1 else 0)
    ensures Run(digest, job, w, events).cell.marked
  {
    hide Step, SucceededCount, Invariant, ReferencesAreIntact;
    if events != [] {
      var earlier := Run(digest, job, w, events[..|events| - 1]);
      AtMostOneMoreStageSucceeds(digest, job, w, events[..|events| - 1]);
      EveryHistoryKeepsInvariant(digest, job, w, events[..|events| - 1]);
      StepKeepsPotential(digest, job, earlier, events[|events| - 1]);
    }
  }

  // -- cancellation: no completion while a checkpoint lies ahead -------------

  /** Some later access will still look at the mark. */
  ghost predicate CheckpointAhead(job: Job, w: World) {
    var run := w.cell.run;
    || (run.status.Queued? && !w.point.Starting?)
    || exists j :: 0 <= j < |run.stages| && AwaitsCheckpoint(job, w, j)
  }

  ghost predicate AwaitsCheckpoint(job: Job, w: World, j: nat)
    requires j < |w.cell.run.stages|
  {
    var stage := w.cell.run.stages[j];
    !FinishedStage(stage) && !Skippable(job, stage) && !(w.point.PastCheckpoint? && w.point.i == j)
  }

  predicate Completed(run: AnalysisRun) {
    run.status.Succeeded? || run.status.Partial?
  }

  /** The mark is set and will still be seen, or the run has already ended without artifacts. */
  ghost predicate Doomed(job: Job, w: World) {
    if w.cell.run.status.Terminal() then !Completed(w.cell.run) else w.cell.marked && CheckpointAhead(job, w)
  }

  lemma SavedStageKeepsDoomed(digest: Digest, job: Job, w: World, i: nat, s: Stage, next: Point)
    requires Advances(job, w) && Doomed(job, w) && i < |w.local.stages| && !w.cell.run.status.Queued?
    requires FinishedStage(s) ==> Skippable(job, w.local.stages[i]) || (w.point.PastCheckpoint? && w.point.i == i)
    requires s.required == w.local.stages[i].required && !next.PastCheckpoint?
    ensures Doomed(job, SaveOr(digest, w, WithStages(w.local, w.local.stages[i := s]), next, Failing(i, UNEXPECTED)))
  {
    hide ValidRun, SaveAllowed;
    var j :| 0 <= j < |w.cell.run.stages| && AwaitsCheckpoint(job, w, j);
    var w' := SaveOr(digest, w, WithStages(w.local, w.local.stages[i := s]), next, Failing(i, UNEXPECTED));
    assert AwaitsCheckpoint(job, w', j);
  }

  lemma UnsavedKeepsDoomed(job: Job, w: World, next: Point)
    requires Doomed(job, w) && !next.PastCheckpoint? && (w.cell.run.status.Queued? ==> !next.Starting?)
    ensures Doomed(job, w.(point := next))
  {
    hide ValidRun;
    if !w.cell.run.status.Terminal() && !w.cell.run.status.Queued? {
      var j :| 0 <= j < |w.cell.run.stages| && AwaitsCheckpoint(job, w, j);
      assert AwaitsCheckpoint(job, w.(point := next), j);
    }
  }

  lemma AFinishedLoopHasNoCheckpointAhead(job: Job, w: World)
    requires Advances(job, w) && DoneBefore(w.cell.run.stages, |w.cell.run.stages|) && w.cell.run.status.Running?
    ensures !Doomed(job, w)
  {
    hide ValidRun;
  }

  lemma LoopKeepsDoomed(digest: Digest, job: Job, w: World, at: Instant, answers: Answers)
    requires Working(job, w, at) && Doomed(job, w)
    requires w.point.AtStage? || w.point.Checked? || w.point.InStage? || w.point.PastCheckpoint?
    ensures Doomed(job, WorkStep(digest, job, w, at, w.clock, answers))
  {
    hide ValidRun, SaveOr, Doomed, StageTitle;
    var stages, i, build := w.cell.run.stages, w.point.i, w.point.build;
    assert w.cell.marked by { MarkedWhileDoomed(job, w); }
    if i >= |stages| {
      AFinishedLoopHasNoCheckpointAhead(job, w);
      assert false;
    }
    match w.point {
      case AtStage(_, _) =>
        if Skippable(job, stages[i]) {
          SavedStageKeepsDoomed(digest, job, w, i, SkippedStage(stages[i], at), AtStage(i + 1, build));
        }
        UnsavedKeepsDoomed(job, w, AtStage(i + 1, build));
        UnsavedKeepsDoomed(job, w, Cancelling(i));
      case Checked(_, _) =>
        SavedStageKeepsDoomed(digest, job, w, i, RunningStage(stages[i], at), InStage(i, build));
      case InStage(_, _) =>
        UnsavedKeepsDoomed(job, w, WorkStep(digest, job, w, at, w.clock, answers).point);
      case PastCheckpoint(_, _) =>
        if answers.metrics.Some? {
          SavedStageKeepsDoomed(
            digest, job, w, i, SucceededStage(stages[i], at, answers.metrics.value), AtStage(i + 1, build));
        }
        UnsavedKeepsDoomed(job, w, Failing(i, UNEXPECTED));
    }
  }

  lemma MarkedWhileDoomed(job: Job, w: World)
    requires Doomed(job, w) && !w.cell.run.status.Terminal()
    ensures w.cell.marked
  {
  }

  lemma StartKeepsDoomed(digest: Digest, job: Job, w: World, at: Instant, end: Instant, answers: Answers)
    requires Advances(job, w) && Doomed(job, w) && w.clock <= at <= end
    requires w.point.Claimed? || w.point.CancellingQueued? || w.point.Starting?
    ensures Doomed(job, Step(digest, job, w, Work(at, end, answers)))
  {
    hide ValidRun, SaveAllowed;
    if w.point.CancellingQueued? {
      CancellingQueuedEnds(digest, job, w, at, end, answers);
    } else if w.point.Starting? {
      StartingStarts(digest, job, w, at, end, answers);
      var j :| 0 <= j < |w.cell.run.stages| && AwaitsCheckpoint(job, w, j);
      assert AwaitsCheckpoint(job, Step(digest, job, w, Work(at, end, answers)), j);
    }
  }

  lemma WorkKeepsDoomed(digest: Digest, job: Job, w: World, at: Instant, end: Instant, answers: Answers)
    requires Advances(job, w) && Doomed(job, w) && w.clock <= at <= end
    ensures Doomed(job, Step(digest, job, w, Work(at, end, answers)))
  {
    hide ValidRun, SaveOr, EnterStage, BeginStage, LeaveStage, FinishStage, PublishNext, RecordCompletion,
      RecordCancelled, RecordFailed, Doomed;
    var v := w.(clock := end);
    assert Working(job, v, at);
    assert Doomed(job, v) by { DoomIsInTheStore(job, w, end, w.local); }
    match w.point {
      case Publishing(_, _) => AFinishedLoopHasNoCheckpointAhead(job, w);
      case Verified(_, _) => AFinishedLoopHasNoCheckpointAhead(job, w);
      case Completing(_, _) => AFinishedLoopHasNoCheckpointAhead(job, w);
      case Cancelling(active) => UnsavedKeepsDoomed(job, v, RecordingCancel(active));
      case RecordingCancel(_) =>
        CancellingEnds(digest, job, v, at);
        EndedWithoutArtifactsIsDoomed(job, Step(digest, job, w, Work(at, end, answers)));
      case Failing(active, failure) => UnsavedKeepsDoomed(job, v, RecordingFailure(active, failure));
      case RecordingFailure(_, _) =>
        FailingEnds(digest, job, v, at);
        EndedWithoutArtifactsIsDoomed(job, Step(digest, job, w, Work(at, end, answers)));
      case Claimed => StartKeepsDoomed(digest, job, w, at, end, answers);
      case CancellingQueued => StartKeepsDoomed(digest, job, w, at, end, answers);
      case Starting => StartKeepsDoomed(digest, job, w, at, end, answers);
      case _ => LoopKeepsDoomed(digest, job, v, at, answers);
    }
  }

  lemma DoomIsInTheStore(job: Job, w: World, clock: Instant, local: AnalysisRun)
    requires Doomed(job, w)
    ensures Doomed(job, w.(clock := clock, local := local))
  {
    if !w.cell.run.status.Terminal() && !(w.cell.run.status.Queued? && !w.point.Starting?) {
      var j :| 0 <= j < |w.cell.run.stages| && AwaitsCheckpoint(job, w, j);
      assert AwaitsCheckpoint(job, w.(clock := clock, local := local), j);
    }
  }

  lemma OutsideEventsKeepDoomed(digest: Digest, job: Job, w: World, e: Event)
    requires Doomed(job, w) && !w.cell.run.status.Terminal() && !e.Work?
    ensures Doomed(job, Step(digest, job, w, e))
  {
    hide ValidRun, SaveAllowed, WorkStep, Doomed;
    match e {
      case Crash => UnsavedKeepsDoomed(job, w, Idle);
      case EndElsewhere(run) =>
        if EndsQueuedRecord(run) {
          EndedWithoutArtifactsIsDoomed(job, w.(cell := w.cell.(run := run)));
        }
      case Deliver =>
        if !w.point.Busy() {
          DoomIsInTheStore(job, w, w.clock, w.cell.run);
          UnsavedKeepsDoomed(job, w.(local := w.cell.run), DeliverStep(w).point);
        }
      case RequestCancellation => MarkedWhileDoomed(job, w); assert w.cell.(marked := true) == w.cell;
    }
  }

  lemma EndedWithoutArtifactsIsDoomed(job: Job, w: World)
    requires w.cell.run.status.Cancelled? || w.cell.run.status.Failed?
    ensures Doomed(job, w)
  {
  }

  lemma StepKeepsDoomed(digest: Digest, job: Job, w: World, e: Event)
    requires Invariant(job, w) && Doomed(job, w)
    ensures Doomed(job, Step(digest, job, w, e))
  {
    hide ValidRun, SaveAllowed, WorkStep, DeliverStep, PointFits, CheckpointAhead;
    if w.cell.run.status.Terminal() {
      TerminalRecordsStay(digest, job, w, e);
    } else if !e.Work? {
      OutsideEventsKeepDoomed(digest, job, w, e);
    } else if w.clock <= e.at <= e.end {
      if w.point.Busy() {
        WorkKeepsDoomed(digest, job, w, e.at, e.end, e.answers);
      } else {
        RestingStays(digest, job, w.(clock := e.end), e.at, e.end, e.answers);
        DoomIsInTheStore(job, w, e.end, w.local);
      }
    }
  }

  /** A run that was asked to stop while a checkpoint lay ahead never completes, however often it is delivered again. */
  lemma {:induction false} CancelledBeforeTheLastCheckpointNeverCompletes(
      digest: Digest, job: Job, w: World, events: seq<Event>)
    requires Invariant(job, w) && ReferencesAreIntact(digest, w)
    requires w.cell.marked && !w.cell.run.status.Terminal() && CheckpointAhead(job, w)
    ensures !Completed(Run(digest, job, w, events).cell.run)
    ensures Doomed(job, Run(digest, job, w, events))
  {
    hide Step, Invariant, ReferencesAreIntact, CheckpointAhead;
    if events != [] {
      CancelledBeforeTheLastCheckpointNeverCompletes(digest, job, w, events[..|events| - 1]);
      EveryHistoryKeepsInvariant(digest, job, w, events[..|events| - 1]);
      StepKeepsDoomed(digest, job, Run(digest, job, w, events[..|events| - 1]), events[|events| - 1]);
    }
  }

  // -- a request that comes too late -----------------------------------------

  function Unmarked(w: World): World {
    w.(cell := w.cell.(marked := false))
  }

  predicate EqualButForTheMark(v: World, u: World) {
    v == u.(cell := u.cell.(marked := v.cell.marked))
  }

  /** A started run whose delivery looks at the mark no more: every checkpoint is past, or it is on its way out. */
  ghost predicate Blind(job: Job, w: World) {
    && w.cell.run.status.Running?
    && (w.point.Stops() || forall j :: 0 <= j < |w.cell.run.stages| ==> !AwaitsCheckpoint(job, w, j))
  }

  /** Even a later delivery would not look at it. */
  ghost predicate NothingAwaits(job: Job, w: World) {
    forall j :: 0 <= j < |w.cell.run.stages| ==>
      FinishedStage(w.cell.run.stages[j]) || Skippable(job, w.cell.run.stages[j])
  }

  lemma SavesIgnoreTheMark(
      digest: Digest, v: World, u: World, built: Result<AnalysisRun, ContractError>, next: Point, refused: Point)
    requires EqualButForTheMark(v, u)
    ensures EqualButForTheMark(SaveOr(digest, v, built, next, refused), SaveOr(digest, u, built, next, refused))
  {
    hide EnsureTransitionAllowed, VerifyArtifacts;
  }

  lemma LoopIgnoresTheMark(digest: Digest, job: Job, v: World, u: World, at: Instant, end: Instant, answers: Answers)
    requires Advances(job, v) && Blind(job, v) && !answers.build.BuildCancelled? && EqualButForTheMark(v, u)
    requires v.point.AtStage? || v.point.Checked? || v.point.InStage? || v.point.PastCheckpoint?
    ensures EqualButForTheMark(WorkStep(digest, job, v, at, end, answers), WorkStep(digest, job, u, at, end, answers))
  {
    hide ValidRun, SaveOr, WithStages, SkippedStage, RunningStage, SucceededStage;
    var stages, i := v.local.stages, v.point.i;
    if i < |stages| {
      assert !AwaitsCheckpoint(job, v, i);
      SavesIgnoreTheMark(digest, v, u, WithStages(v.local, stages[i := SkippedStage(stages[i], at)]),
        AtStage(i + 1, v.point.build), Failing(i, UNEXPECTED));
      if answers.metrics.Some? {
        SavesIgnoreTheMark(
          digest, v, u, WithStages(v.local, stages[i := SucceededStage(stages[i], at, answers.metrics.value)]),
          AtStage(i + 1, v.point.build), Failing(i, UNEXPECTED));
      }
    }
  }

  lemma WorkIgnoresTheMark(digest: Digest, job: Job, v: World, u: World, at: Instant, end: Instant, answers: Answers)
    requires Advances(job, v) && v.clock <= at <= end && Blind(job, v) && !answers.build.BuildCancelled?
    requires EqualButForTheMark(v, u)
    ensures EqualButForTheMark(
      Step(digest, job, v, Work(at, end, answers)), Step(digest, job, u, Work(at, end, answers)))
  {
    hide ValidRun, CompletedRun, FailedRun, CancelledRun, SaveOr, VerifyArtifacts, NextItem, EnterStage, BeginStage,
      LeaveStage, FinishStage, ReferenceTo;
    var v', u' := v.(clock := end), u.(clock := end);
    match v.point {
      case Publishing(_, _) =>
      case Verified(_, _) =>
      case Completing(_, references) =>
        var completed := CompletedRun(v.local, references, end);
        SavesIgnoreTheMark(digest, v', u', completed,
          Finished(Returned(if completed.Ok? then completed.value.status else Failed)),
          Failing(LastIndex(v.local), UNEXPECTED));
      case Cancelling(_) =>
      case RecordingCancel(active) =>
        SavesIgnoreTheMark(digest, v', u', CancelledRun(v.local, active, at, end),
          Finished(Returned(Cancelled)), Finished(Raised));
      case Failing(_, _) =>
      case RecordingFailure(active, failure) =>
        SavesIgnoreTheMark(digest, v', u', FailedRun(v.local, active, failure, at, end),
          Finished(Returned(Failed)), Finished(Raised));
      case _ =>
        SameStagesKeepBlind(job, v, v');
        LoopIgnoresTheMark(digest, job, v', u', at, end, answers);
    }
  }

  lemma SameStagesKeepBlind(job: Job, w: World, w': World)
    requires Blind(job, w) && !w.point.Stops() && w'.cell.run == w.cell.run
    requires w.point.PastCheckpoint? ==> w'.point == w.point || w'.point.Stops()
    ensures Blind(job, w')
  {
    if !w'.point.Stops() {
      forall j | 0 <= j < |w'.cell.run.stages| ensures !AwaitsCheckpoint(job, w', j) {
        assert !AwaitsCheckpoint(job, w, j);
      }
    }
  }

  lemma SavedStageKeepsBlind(digest: Digest, job: Job, w: World, i: nat, s: Stage, next: Point)
    requires Advances(job, w) && Blind(job, w) && !w.point.Stops() && i < |w.local.stages|
    requires FinishedStage(s) && !next.PastCheckpoint? && !next.Stops() && (w.point.PastCheckpoint? ==> w.point.i == i)
    requires SaveOr(digest, w, WithStages(w.local, w.local.stages[i := s]), next, Failing(i, UNEXPECTED)).point == next
    ensures Blind(job, SaveOr(digest, w, WithStages(w.local, w.local.stages[i := s]), next, Failing(i, UNEXPECTED)))
  {
    hide ValidRun, SaveAllowed;
    var w' := SaveOr(digest, w, WithStages(w.local, w.local.stages[i := s]), next, Failing(i, UNEXPECTED));
    forall j | 0 <= j < |w'.cell.run.stages| ensures !AwaitsCheckpoint(job, w', j) {
      assert !AwaitsCheckpoint(job, w, j);
    }
  }

  lemma LoopKeepsBlind(digest: Digest, job: Job, w: World, at: Instant, answers: Answers)
    requires Working(job, w, at) && Blind(job, w) && !answers.build.BuildCancelled?
    requires w.point.AtStage? || w.point.Checked? || w.point.InStage? || w.point.PastCheckpoint?
    ensures Blind(job, WorkStep(digest, job, w, at, w.clock, answers))
  {
    hide ValidRun, WithStages, StageTitle, SaveAllowed;
    var stages, i, build := w.cell.run.stages, w.point.i, w.point.build;
    var w' := WorkStep(digest, job, w, at, w.clock, answers);
    if i < |stages| {
      assert !AwaitsCheckpoint(job, w, i);
      if w'.point == AtStage(i + 1, build) && w.point.AtStage? && !Done(stages[i]) {
        SavedStageKeepsBlind(digest, job, w, i, SkippedStage(stages[i], at), AtStage(i + 1, build));
      } else if w'.point == AtStage(i + 1, build) && w.point.PastCheckpoint? {
        SavedStageKeepsBlind(
          digest, job, w, i, SucceededStage(stages[i], at, answers.metrics.value), AtStage(i + 1, build));
      } else {
        SameStagesKeepBlind(job, w, w');
      }
    } else {
      SameStagesKeepBlind(job, w, w');
    }
  }

  lemma WorkKeepsBlind(digest: Digest, job: Job, w: World, at: Instant, end: Instant, answers: Answers)
    requires Advances(job, w) && ReferencesAreIntact(digest, w) && w.clock <= at <= end
    requires Blind(job, w) && !answers.build.BuildCancelled?
    ensures var w' := Step(digest, job, w, Work(at, end, answers)); w'.cell.run.status.Terminal() || Blind(job, w')
  {
    hide ValidRun, SaveOr, EnterStage, BeginStage, LeaveStage, FinishStage, RecordCompletion, RecordCancelled,
      RecordFailed, VerifyArtifacts, NextItem, ReferenceTo, CompletedRecord, CanComplete, Blind;
    var v, w' := w.(clock := end), Step(digest, job, w, Work(at, end, answers));
    assert Working(job, v, at);
    StartedWhileBlind(job, w);
    match w.point {
      case Publishing(_, _) => SameStagesKeepBlind(job, w, w');
      case Verified(_, _) => SameStagesKeepBlind(job, w, w');
      case Completing(_, _) =>
        CompletionEnds(digest, job, v, at);
        if !w'.cell.run.status.Terminal() { SameStagesKeepBlind(job, w, w'); }
      case Cancelling(_) => StoppingIsBlind(job, w');
      case RecordingCancel(_) => CancellingEnds(digest, job, v, at);
      case Failing(_, _) => StoppingIsBlind(job, w');
      case RecordingFailure(_, _) => FailingEnds(digest, job, v, at);
      case _ =>
        SameStagesKeepBlind(job, w, v);
        LoopKeepsBlind(digest, job, v, at, answers);
    }
  }

  lemma StartedWhileBlind(job: Job, w: World)
    requires Blind(job, w)
    ensures w.cell.run.status.Running?
  {
  }

  lemma StoppingIsBlind(job: Job, w: World)
    requires w.cell.run.status.Running? && w.point.Stops()
    ensures Blind(job, w)
  {
  }

  /** What the delivery may still meet: an adapter that does not look either, and no crash that makes a stage rerun. */
  ghost predicate LooksNoMore(job: Job, w: World, e: Event) {
    && (e.Work? ==> !e.answers.build.BuildCancelled?)
    && (e.Crash? ==> w.cell.run.status.Terminal() || NothingAwaits(job, w))
  }

  lemma StepKeepsBlind(digest: Digest, job: Job, w: World, e: Event)
    requires Invariant(job, w) && ReferencesAreIntact(digest, w) && Blind(job, w) && LooksNoMore(job, w, e)
    ensures var w' := Step(digest, job, w, e); w'.cell.run.status.Terminal() || Blind(job, w')
  {
    hide ValidRun, SaveAllowed, WorkStep, Written;
    if e.Work? && w.clock <= e.at <= e.end {
      if w.point.Busy() {
        WorkKeepsBlind(digest, job, w, e.at, e.end, e.answers);
      } else {
        RestingStays(digest, job, w.(clock := e.end), e.at, e.end, e.answers);
        SameStagesKeepBlind(job, w, Step(digest, job, w, e));
      }
    } else if e.Deliver? && !w.point.Busy() {
      SameStagesKeepBlind(job, w, Step(digest, job, w, e));
    } else if e.Crash? {
      forall j | 0 <= j < |w.cell.run.stages| ensures !AwaitsCheckpoint(job, Step(digest, job, w, e), j) {
        assert FinishedStage(w.cell.run.stages[j]) || Skippable(job, w.cell.run.stages[j]);
      }
    } else if e.RequestCancellation? && !w.point.Stops() {
      SameStagesKeepBlind(job, w, Step(digest, job, w, e));
    }
  }

  lemma StepIgnoresTheMark(digest: Digest, job: Job, v: World, u: World, e: Event)
    requires Invariant(job, v) && Blind(job, v) && LooksNoMore(job, v, e) && EqualButForTheMark(v, u)
    ensures EqualButForTheMark(Step(digest, job, v, e), Step(digest, job, u, e))
  {
    hide ValidRun, WorkStep, VerifyArtifacts, EndsQueuedRecord, EnsureTransitionAllowed, Blind;
    StartedWhileBlind(job, v);
    if e.Work? && v.clock <= e.at <= e.end {
      if v.point.Busy() {
        WorkIgnoresTheMark(digest, job, v, u, e.at, e.end, e.answers);
      } else {
        RestingStays(digest, job, v.(clock := e.end), e.at, e.end, e.answers);
        RestingStays(digest, job, u.(clock := e.end), e.at, e.end, e.answers);
      }
    }
  }

  /** The stored record and its files are the same, and until the run has ended so is the delivery. */
  predicate SameButForTheMark(v: World, u: World) {
    && v.cell == u.cell.(marked := v.cell.marked)
    && (!v.cell.run.status.Terminal() ==> EqualButForTheMark(v, u))
  }

  /** A request past the last checkpoint changes nothing: the stored run goes the same way as without it. */
  lemma {:induction false} LateRequestsChangeNothing(digest: Digest, job: Job, w: World, events: seq<Event>)
    requires Invariant(job, w) && ReferencesAreIntact(digest, w) && Blind(job, w)
    requires forall i :: 0 <= i < |events| ==> LooksNoMore(job, Run(digest, job, w, events[..i]), events[i])
    ensures var v := Run(digest, job, w, events);
      SameButForTheMark(v, Run(digest, job, Unmarked(w), events)) && (v.cell.run.status.Terminal() || Blind(job, v))
  {
    hide ValidRun, Step, Invariant, ReferencesAreIntact, LooksNoMore, Blind;
    if events != [] {
      var earlier, e := events[..|events| - 1], events[|events| - 1];
      forall i | 0 <= i < |earlier| ensures LooksNoMore(job, Run(digest, job, w, earlier[..i]), earlier[i]) {
        assert earlier[..i] == events[..i];
      }
      LateRequestsChangeNothing(digest, job, w, earlier);
      EveryHistoryKeepsInvariant(digest, job, w, earlier);
      var v, u := Run(digest, job, w, earlier), Run(digest, job, Unmarked(w), earlier);
      if v.cell.run.status.Terminal() {
        TerminalRecordsStay(digest, job, v, e);
        TerminalRecordsStay(digest, job, u, e);
      } else {
        assert LooksNoMore(job, v, e);
        StepIgnoresTheMark(digest, job, v, u, e);
        StepKeepsBlind(digest, job, v, e);
      }
    }
  }

  // -- the last checkpoint of the runs that the coordinator creates -----------

  predicate SameStages(stages: seq<Stage>, others: seq<Stage>) {
    && |stages| == |others|
    && forall i :: 0 <= i < |stages| ==> others[i].name == stages[i].name && others[i].required == stages[i].required
  }

  ghost predicate SamePlan(before: AnalysisRun, after: AnalysisRun) {
    SameStages(before.stages, after.stages) && after.parameters == before.parameters
  }

  lemma SavedStageKeepsPlan(digest: Digest, w: World, i: nat, s: Stage, next: Point, refused: Point)
    requires w.local == w.cell.run && i < |w.local.stages|
    requires s.name == w.local.stages[i].name && s.required == w.local.stages[i].required
    ensures SamePlan(w.cell.run, SaveOr(digest, w, WithStages(w.local, w.local.stages[i := s]), next, refused).cell.run)
  {
    hide ValidRun, SaveAllowed;
  }

  lemma WorkKeepsPlan(digest: Digest, job: Job, w: World, at: Instant, end: Instant, answers: Answers)
    requires Advances(job, w) && ReferencesAreIntact(digest, w) && w.clock <= at <= end
    requires !Step(digest, job, w, Work(at, end, answers)).cell.run.status.Terminal()
    ensures SamePlan(w.cell.run, Step(digest, job, w, Work(at, end, answers)).cell.run)
  {
    hide ValidRun, SaveAllowed, SaveOr, CompletedRun, CancelledRun, FailedRun, Written, VerifyArtifacts, NextItem,
      ReferenceTo, StageTitle, CanComplete, CompletedRecord, RecordCompletion, RecordCancelled, RecordFailed,
      WithStages, SkippedStage, RunningStage, SucceededStage, Cancel, PointFits, Prefix, StartedBefore;
    var v := w.(clock := end);
    assert Working(job, v, at) by { ClockMayMove(job, w, at, end); }
    match w.point {
      case CancellingQueued => CancellingQueuedEnds(digest, job, w, at, end, answers);
      case Starting => StartedRunsKeepPlan(digest, v);
      case Completing(_, _) => CompletionEnds(digest, job, v, at);
      case RecordingCancel(_) => CancellingEnds(digest, job, v, at);
      case RecordingFailure(_, _) => FailingEnds(digest, job, v, at);
      case AtStage(i, _) => if i < |w.local.stages| { LoopKeepsPlan(digest, job, v, at, answers); }
      case Checked(i, _) => if i < |w.local.stages| { LoopKeepsPlan(digest, job, v, at, answers); }
      case PastCheckpoint(i, _) => if i < |w.local.stages| { LoopKeepsPlan(digest, job, v, at, answers); }
      case _ =>
    }
  }

  lemma ClockMayMove(job: Job, w: World, at: Instant, end: Instant)
    requires Advances(job, w) && w.clock <= at <= end
    ensures Working(job, w.(clock := end), at)
  {
    hide ValidRun;
  }

  lemma StartedRunsKeepPlan(digest: Digest, w: World)
    requires w.local == w.cell.run
    ensures SamePlan(
      w.cell.run, SaveOr(digest, w, Start(w.local, w.clock), AtStage(0, None), Finished(Raised)).cell.run)
  {
    hide ValidRun, SaveAllowed;
  }

  lemma LoopKeepsPlan(digest: Digest, job: Job, w: World, at: Instant, answers: Answers)
    requires w.local == w.cell.run && (w.point.AtStage? || w.point.Checked? || w.point.PastCheckpoint?)
    requires w.point.i < |w.local.stages|
    ensures SamePlan(w.cell.run, WorkStep(digest, job, w, at, w.clock, answers).cell.run)
  {
    hide ValidRun, SaveAllowed, SaveOr, WithStages, StageTitle;
    var stages, i, build := w.local.stages, w.point.i, w.point.build;
    SavedStageKeepsPlan(digest, w, i, SkippedStage(stages[i], at), AtStage(i + 1, build), Failing(i, UNEXPECTED));
    SavedStageKeepsPlan(digest, w, i, RunningStage(stages[i], at), InStage(i, build), Failing(i, UNEXPECTED));
    if answers.metrics.Some? {
      SavedStageKeepsPlan(digest, w, i, SucceededStage(stages[i], at, answers.metrics.value), AtStage(i + 1, build),
        Failing(i, UNEXPECTED));
    }
  }

  /** Until a run ends, no event adds, drops or reorders stages, nor changes what the run was created with. */
  lemma StepKeepsPlan(digest: Digest, job: Job, w: World, e: Event)
    requires Invariant(job, w) && ReferencesAreIntact(digest, w)
    requires !Step(digest, job, w, e).cell.run.status.Terminal()
    ensures SamePlan(w.cell.run, Step(digest, job, w, e).cell.run)
  {
    hide ValidRun, SaveAllowed, Written, WorkStep;
    if w.cell.run.status.Terminal() {
      TerminalRecordsStay(digest, job, w, e);
    } else if e.Work? && w.clock <= e.at <= e.end {
      if w.point.Busy() {
        WorkKeepsPlan(digest, job, w, e.at, e.end, e.answers);
      } else {
        RestingStays(digest, job, w.(clock := e.end), e.at, e.end, e.answers);
      }
    }
  }

  lemma {:induction false} HistoriesKeepPlan(digest: Digest, job: Job, w: World, events: seq<Event>)
    requires Invariant(job, w) && ReferencesAreIntact(digest, w)
    requires !Run(digest, job, w, events).cell.run.status.Terminal()
    ensures SamePlan(w.cell.run, Run(digest, job, w, events).cell.run)
  {
    hide ValidRun, Step, Invariant, ReferencesAreIntact;
    if events != [] {
      var earlier, e := events[..|events| - 1], events[|events| - 1];
      EveryHistoryKeepsInvariant(digest, job, w, earlier);
      if Run(digest, job, w, earlier).cell.run.status.Terminal() {
        TerminalRecordsStay(digest, job, Run(digest, job, w, earlier), e);
      }
      HistoriesKeepPlan(digest, job, w, earlier);
      StepKeepsPlan(digest, job, Run(digest, job, w, earlier), e);
    }
  }

  /** The second checkpoint of the last stage was passed, in this delivery or, when the stage succeeded, in any. */
  predicate PastTheLastCheckpoint(w: World) {
    var last := |w.cell.run.stages| - 1;
    last >= 0 && (FinishedStage(w.cell.run.stages[last]) || (w.point.PastCheckpoint? && w.point.i == last))
  }

  /** When the last stage cannot be skipped, its second checkpoint is the last one of the run. */
  lemma TheLastStageHasTheLastCheckpoint(job: Job, w: World)
    requires Invariant(job, w) && !w.cell.run.status.Terminal()
    requires w.cell.run.stages != [] && w.cell.run.stages[|w.cell.run.stages| - 1].required
    ensures CheckpointAhead(job, w) <==> !PastTheLastCheckpoint(w)
    ensures PastTheLastCheckpoint(w) ==> Blind(job, w)
  {
    var stages, last := w.cell.run.stages, |w.cell.run.stages| - 1;
    if !PastTheLastCheckpoint(w) {
      assert AwaitsCheckpoint(job, w, last);
    }
  }

  /**
   * A run with the stages that the coordinator queues for some profile. An upload queues those of a profile that
   * supports every stage, whatever the profile of its job.
   */
  ghost predicate Coordinated(run: AnalysisRun) {
    exists text :: run.stages == Coordinator.QueuedStages(run.attempt, text)
  }

  /**
   * For every run that the coordinator creates: a request before the second checkpoint of the publication stage is
   * passed rules out completion for good, whatever happened before it and whatever happens after.
   */
  lemma RequestsBeforeTheLastCheckpointWin(
      digest: Digest, job: Job, w: World, before: seq<Event>, after: seq<Event>)
    requires Created(w) && Coordinated(w.cell.run)
    requires var v := Run(digest, job, w, before); !v.cell.run.status.Terminal() && !PastTheLastCheckpoint(v)
    ensures !Completed(
      Run(digest, job, Step(digest, job, Run(digest, job, w, before), RequestCancellation), after).cell.run)
  {
    hide ValidRun, Invariant, ReferencesAreIntact, CheckpointAhead;
    var v := Run(digest, job, w, before);
    CoordinatedHistoriesFit(digest, job, w, before);
    RequestsAreMarked(digest, job, v);
    CancelledBeforeTheLastCheckpointNeverCompletes(digest, job, Step(digest, job, v, RequestCancellation), after);
  }

  /** And a request after it is not seen by anyone any more. */
  lemma RequestsPastTheLastCheckpointChangeNothing(
      digest: Digest, job: Job, w: World, before: seq<Event>, after: seq<Event>)
    requires Created(w) && Coordinated(w.cell.run)
    requires var v := Run(digest, job, w, before);
      !v.cell.run.status.Terminal() && PastTheLastCheckpoint(v) && !v.cell.marked
    requires var v := Step(digest, job, Run(digest, job, w, before), RequestCancellation);
      forall i :: 0 <= i < |after| ==> LooksNoMore(job, Run(digest, job, v, after[..i]), after[i])
    ensures var v := Run(digest, job, w, before);
      SameButForTheMark(
        Run(digest, job, Step(digest, job, v, RequestCancellation), after), Run(digest, job, v, after))
  {
    hide ValidRun, Invariant, ReferencesAreIntact, Blind, LooksNoMore;
    var v := Run(digest, job, w, before);
    CoordinatedHistoriesFit(digest, job, w, before);
    RequestsAreMarked(digest, job, v);
    assert Unmarked(Step(digest, job, v, RequestCancellation)) == v;
    LateRequestsChangeNothing(digest, job, Step(digest, job, v, RequestCancellation), after);
  }

  lemma RequestsAreMarked(digest: Digest, job: Job, w: World)
    requires Invariant(job, w) && ReferencesAreIntact(digest, w) && !w.cell.run.status.Terminal()
    ensures var v := Step(digest, job, w, RequestCancellation);
      && v == w.(cell := w.cell.(marked := true))
      && Invariant(job, v) && ReferencesAreIntact(digest, v)
      && (CheckpointAhead(job, w) <==> CheckpointAhead(job, v)) && (Blind(job, w) <==> Blind(job, v))
  {
    hide ValidRun, Written;
    var v := Step(digest, job, w, RequestCancellation);
    assert forall j :: 0 <= j < |w.cell.run.stages| ==> (AwaitsCheckpoint(job, w, j) <==> AwaitsCheckpoint(job, v, j));
  }

  lemma CoordinatedHistoriesFit(digest: Digest, job: Job, w: World, events: seq<Event>)
    requires Created(w) && Coordinated(w.cell.run)
    requires !Run(digest, job, w, events).cell.run.status.Terminal()
    ensures var v := Run(digest, job, w, events);
      && Invariant(job, v) && ReferencesAreIntact(digest, v)
      && (CheckpointAhead(job, v) <==> !PastTheLastCheckpoint(v))
      && (PastTheLastCheckpoint(v) ==> Blind(job, v))
  {
    hide ValidRun, Invariant, ReferencesAreIntact, CheckpointAhead, PastTheLastCheckpoint, Blind;
    assert Invariant(job, w) && ReferencesAreIntact(digest, w) by {
      CreatedRunsFit(job, w);
      ReferencesAreIntactAtRest(digest, w);
    }
    EveryHistoryKeepsInvariant(digest, job, w, events);
    HistoriesKeepPlan(digest, job, w, events);
    TheLastStageHasTheLastCheckpoint(job, Run(digest, job, w, events));
  }

  lemma ReferencesAreIntactAtRest(digest: Digest, w: World)
    requires !w.point.Busy()
    ensures ReferencesAreIntact(digest, w)
  {
  }
}
