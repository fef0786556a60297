/** What holds over every history of one run: cancellations, foreign endings, crashes and redeliveries included. */
module ExecutorHistories {
  import opened Common
  import opened RunContract
  import opened Lifecycle
  import opened RunStore
  import opened Executor
  import opened ExecutorSteps

  // -- one step --------------------------------------------------------------

  /** A finished record, its files and its mark are never touched again, and a delivery of it returns its status. */
  lemma TerminalRecordsStay(digest: Digest, job: Job, w: World, e: Event)
    requires w.cell.run.status.Terminal()
    ensures Step(digest, job, w, e).cell == w.cell
    ensures !w.point.Busy() && e.Deliver? ==>
      Step(digest, job, w, e).point == Finished(Returned(w.cell.run.status))
    ensures var next := Step(digest, job, w, e).point;
      next.Finished? && next.outcome.Returned? ==> next == w.point || next.outcome.status == w.cell.run.status
  {
    hide CompletedRun, CancelledRun, FailedRun, EndsQueuedRecord, WithStages, Start, Cancel;
  }

  lemma WorkProceeds(digest: Digest, job: Job, w: World, at: Instant, end: Instant, answers: Answers)
    requires Advances(job, w) && w.clock <= at <= end && ReferencesAreIntact(digest, w)
    ensures Proceeds(job, Step(digest, job, w, Work(at, end, answers)))
  {
    hide ValidRun, SaveOr, EnterStage, BeginStage, LeaveStage, FinishStage, PublishNext, RecordCompletion,
      RecordCancelled, RecordFailed, Written;
    var v := w.(clock := end);
    assert Working(job, v, at);
    match w.point {
      case Claimed =>
      case CancellingQueued => CancellingQueuedEnds(digest, job, w, at, end, answers);
      case Starting => StartingStarts(digest, job, w, at, end, answers);
      case AtStage(i, _) => if i < |w.local.stages| { EnteringAdvances(digest, job, v, at); }
      case Checked(_, _) => BeginningAdvances(digest, job, v, at);
      case InStage(_, _) => LeavingAdvances(job, v, at, answers.build);
      case PastCheckpoint(_, _) => FinishingAdvances(digest, job, v, at, answers.metrics);
      case Publishing(_, _) => PublishingProceeds(digest, job, v, at);
      case Verified(_, _) =>
      case Completing(_, _) => PublishingProceeds(digest, job, v, at);
      case Cancelling(_) =>
      case RecordingCancel(_) => CancellingEnds(digest, job, v, at);
      case Failing(_, _) =>
      case RecordingFailure(_, _) => FailingEnds(digest, job, v, at);
    }
  }

  lemma DeliveryKeepsInvariant(digest: Digest, job: Job, w: World)
    requires Invariant(job, w)
    ensures Invariant(job, Step(digest, job, w, Deliver))
  {
    hide ValidRun;
  }

  lemma OutsideEventsKeepInvariant(digest: Digest, job: Job, w: World, e: Event)
    requires Invariant(job, w) && !w.cell.run.status.Terminal()
    requires e.RequestCancellation? || e.EndElsewhere? || e.Crash?
    ensures Invariant(job, Step(digest, job, w, e))
  {
    hide ValidRun, SaveAllowed;
  }

  lemma StepKeepsInvariant(digest: Digest, job: Job, w: World, e: Event)
    requires Invariant(job, w) && ReferencesAreIntact(digest, w)
    ensures Invariant(job, Step(digest, job, w, e))
    ensures ReferencesAreIntact(digest, Step(digest, job, w, e))
  {
    hide ValidRun, SaveAllowed, CompletedRun, CancelledRun, FailedRun, WithStages, Start, Cancel;
    StepKeepsIntact(digest, job, w, e);
    if w.cell.run.status.Terminal() {
      TerminalRecordsStay(digest, job, w, e);
    } else {
      match e {
        case Deliver => DeliveryKeepsInvariant(digest, job, w);
        case Work(at, end, answers) =>
          if w.clock <= at <= end && w.point.Busy() { WorkProceeds(digest, job, w, at, end, answers); }
        case _ => OutsideEventsKeepInvariant(digest, job, w, e);
      }
    }
  }

  lemma StepKeepsIntact(digest: Digest, job: Job, w: World, e: Event)
    requires Invariant(job, w) && ReferencesAreIntact(digest, w)
    ensures ReferencesAreIntact(digest, Step(digest, job, w, e))
  {
    hide Written, PublishNext;
    if w.point.Publishing? && e.Work? {
      PublishingKeepsIntact(digest, w.(clock := e.end));
    } else {
      OtherStepsKeepIntact(digest, job, w, e);
    }
  }

  // -- whole histories -------------------------------------------------------

  /** A run as its coordinator creates it: valid, queued, and not delivered yet. */
  ghost predicate Created(w: World) {
    && ValidRun(w.cell.run) && w.cell.run.status.Queued?
    && w.cell.run.createdAt <= w.clock
    && !w.cell.marked && w.point.Idle?
  }

  lemma CreatedRunsFit(job: Job, w: World)
    requires Created(w)
    ensures Invariant(job, w)
  {
    var stages := w.cell.run.stages;
    forall i | 0 <= i < |stages| ensures stages[i].status.StageQueued? && stages[i].startedAt.None? {
      assert stages[i] in stages;
      assert !AnyStage(stages, RunContract.NotQueued);
      assert !RunContract.NotQueued(stages[i].status);
    }
  }

  /** Whatever happens, in whatever order, the stored run keeps its shape and the delivery fits it. */
  lemma {:induction false} EveryHistoryKeepsInvariant(digest: Digest, job: Job, w: World, events: seq<Event>)
    requires Invariant(job, w) && ReferencesAreIntact(digest, w)
    ensures Invariant(job, Run(digest, job, w, events))
    ensures ReferencesAreIntact(digest, Run(digest, job, w, events))
  {
    hide ValidRun, Step, Invariant, ReferencesAreIntact;
    if events != [] {
      EveryHistoryKeepsInvariant(digest, job, w, events[..|events| - 1]);
      StepKeepsInvariant(digest, job, Run(digest, job, w, events[..|events| - 1]), events[|events| - 1]);
    }
  }

  /**
   * At every moment of every history of a created run: the stored record is valid, an unfinished one holds finished
   * stages, then at most one running stage, then queued ones, and a delivery that ended returned the stored status.
   */
  lemma StoredRunsKeepTheirShape(digest: Digest, job: Job, w: World, events: seq<Event>, i: nat, j: nat)
    requires Created(w)
    ensures var run := Run(digest, job, w, events).cell.run;
      && ValidRun(run)
      && (!run.status.Terminal() && i < j < |run.stages| && !run.stages[j].status.StageQueued? ==>
            FinishedStage(run.stages[i]))
      && (!run.status.Terminal() && i < |run.stages| ==> Live(run.stages[i]))
    ensures var v := Run(digest, job, w, events);
      v.point.Finished? ==>
        && v.cell.run.status.Terminal()
        && (v.point.outcome.Returned? ==> v.point.outcome.status == v.cell.run.status)
  {
    hide ValidRun;
    CreatedRunsFit(job, w);
    EveryHistoryKeepsInvariant(digest, job, w, events);
  }

  /** Delivering a finished run again, however often, changes nothing and returns its status. */
  lemma {:induction false} RedeliveryChangesNothing(digest: Digest, job: Job, w: World, events: seq<Event>)
    requires w.cell.run.status.Terminal()
    ensures Run(digest, job, w, events).cell == w.cell
    ensures
      events != [] && events[|events| - 1].Deliver? && !Run(digest, job, w, events[..|events| - 1]).point.Busy() ==>
      Run(digest, job, w, events).point == Finished(Returned(w.cell.run.status))
  {
    hide Step;
    if events != [] {
      RedeliveryChangesNothing(digest, job, w, events[..|events| - 1]);
      TerminalRecordsStay(digest, job, Run(digest, job, w, events[..|events| - 1]), events[|events| - 1]);
    }
  }
}
