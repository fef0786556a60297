/** The end of a delivery: it always comes, nothing escapes, and the ended record says what happened. */
module ExecutorTheorems {
  import opened Common
  import opened RunContract
  import opened Lifecycle
  import opened RunStore
  import opened Executor
  import opened ExecutorSteps
  import opened ExecutorHistories
  import opened ExecutorCancellation

  // -- an undisturbed delivery ends ------------------------------------------

  /** How many accesses of the loop are left before the publication. */
  function LoopLeft(w: World): nat {
    var n := |w.local.stages|;
    match w.point
    case Claimed => 4 * n + 10
    case Starting => 4 * n + 9
    case CancellingQueued => 1
    case AtStage(i, _) => if i <= n then 4 * (n - i) + 6 else 0
    case Checked(i, _) => if i <= n then 4 * (n - i) + 5 else 0
    case InStage(i, _) => if i <= n then 4 * (n - i) + 4 else 0
    case PastCheckpoint(i, _) => if i <= n then 4 * (n - i) + 3 else 0
    case Publishing(_, _) => 5
    case Verified(_, _) => 4
    case Completing(_, _) => 3
    case Cancelling(_) => 2
    case RecordingCancel(_) => 1
    case Failing(_, _) => 2
    case RecordingFailure(_, _) => 1
    case _ => 0
  }

  function WritesLeft(w: World): nat {
    if w.point.Publishing? && |w.point.references| <= Size(w.point.payloads)
    then Size(w.point.payloads) - |w.point.references| else 0
  }

  ghost predicate Closer(after: World, before: World) {
    || LoopLeft(after) < LoopLeft(before)
    || (LoopLeft(after) == LoopLeft(before) && WritesLeft(after) < WritesLeft(before))
  }

  /** The adapter reports a cancellation only when it saw the mark. */
  predicate Feasible(w: World, answers: Answers) {
    answers.build.BuildCancelled? ==> w.cell.marked
  }

  lemma LoopComesCloser(digest: Digest, job: Job, w: World, at: Instant, answers: Answers)
    requires Working(job, w, at) && Feasible(w, answers)
    requires w.point.AtStage? || w.point.Checked? || w.point.InStage? || w.point.PastCheckpoint?
    ensures Closer(WorkStep(digest, job, w, at, w.clock, answers), w)
  {
    hide ValidRun, SaveAllowed, WithStages, SkippedStage, RunningStage, SucceededStage;
    var stages, i := w.local.stages, w.point.i;
    if i < |stages| {
      BuiltStages(w.local, stages[i := SkippedStage(stages[i], at)]);
      BuiltStages(w.local, stages[i := RunningStage(stages[i], at)]);
      if answers.metrics.Some? {
        BuiltStages(w.local, stages[i := SucceededStage(stages[i], at, answers.metrics.value)]);
      }
    }
  }

  lemma PublishingComesCloser(digest: Digest, job: Job, w: World)
    requires Advances(job, w) && w.point.Publishing?
    ensures Closer(PublishNext(digest, w), w)
  {
    hide ValidRun, SaveAllowed, CompletedRun, NextItem, ReferenceTo, VerifyArtifacts;
  }

  lemma WorkComesCloser(digest: Digest, job: Job, w: World, at: Instant, end: Instant, answers: Answers)
    requires Advances(job, w) && ReferencesAreIntact(digest, w) && w.clock <= at <= end && Feasible(w, answers)
    ensures Proceeds(job, Step(digest, job, w, Work(at, end, answers)))
    ensures Advances(job, Step(digest, job, w, Work(at, end, answers))) ==>
      Closer(Step(digest, job, w, Work(at, end, answers)), w)
  {
    hide ValidRun, SaveOr, EnterStage, BeginStage, LeaveStage, FinishStage, PublishNext, RecordCompletion, Written,
      CompletedRecord, CanComplete, VerifyArtifacts;
    var v := w.(clock := end);
    assert Working(job, v, at);
    WorkProceeds(digest, job, w, at, end, answers);
    match w.point {
      case Publishing(_, _) => PublishingComesCloser(digest, job, v);
      case Verified(_, _) =>
      case Completing(_, _) => CompletionEnds(digest, job, v, at);
      case Cancelling(_) =>
      case RecordingCancel(_) => CancellingEnds(digest, job, v, at);
      case Failing(_, _) =>
      case RecordingFailure(_, _) => FailingEnds(digest, job, v, at);
      case Claimed =>
      case CancellingQueued => CancellingQueuedEnds(digest, job, w, at, end, answers);
      case Starting => StartingStarts(digest, job, w, at, end, answers); StartingComesCloser(digest, job, v, end);
      case _ => LoopComesCloser(digest, job, v, at, answers);
    }
  }

  lemma StartingComesCloser(digest: Digest, job: Job, w: World, end: Instant)
    requires w.point.Starting?
    ensures Closer(SaveOr(digest, w, Start(w.local, end), AtStage(0, None), Finished(Raised)), w)
  {
    hide ValidRun, SaveAllowed;
  }

  /** A worker and its surroundings: what happens next, given all that happened. */
  type Worker = World -> Event

  ghost predicate Diligent(worker: Worker) {
    forall w: World :: (var e := worker(w); e.Work? && w.clock <= e.at <= e.end && Feasible(w, e.answers))
  }

  /** A delivery that is left alone always ends, with the status under which the run is then stored for good. */
  lemma {:induction false} EveryUndisturbedDeliveryEnds(digest: Digest, job: Job, w: World, worker: Worker)
    returns (events: seq<Event>)
    requires Invariant(job, w) && ReferencesAreIntact(digest, w)
    requires w.point.Busy() && !w.cell.run.status.Terminal() && Diligent(worker)
    ensures forall i :: 0 <= i < |events| ==> events[i] == worker(Run(digest, job, w, events[..i]))
    ensures var v := Run(digest, job, w, events);
      v.cell.run.status.Terminal() && v.point == Finished(Returned(v.cell.run.status))
    decreases LoopLeft(w), WritesLeft(w)
  {
    hide ValidRun, Invariant, ReferencesAreIntact, Step, Closer, LoopLeft, WritesLeft;
    var e := worker(w);
    var next := Step(digest, job, w, e);
    DiligentStep(digest, job, w, worker);
    if next.point.Finished? {
      events := [e];
      assert Run(digest, job, w, events[..0]) == w;
    } else {
      var rest := EveryUndisturbedDeliveryEnds(digest, job, next, worker);
      events := [e] + rest;
      forall i | 0 <= i < |events| ensures events[i] == worker(Run(digest, job, w, events[..i])) {
        if i > 0 {
          assert events[..i] == [e] + rest[..i - 1];
          RunFromTheFront(digest, job, w, e, rest[..i - 1]);
        } else {
          assert Run(digest, job, w, events[..0]) == w;
        }
      }
      RunFromTheFront(digest, job, w, e, rest);
    }
  }

  lemma DiligentStep(digest: Digest, job: Job, w: World, worker: Worker)
    requires Invariant(job, w) && ReferencesAreIntact(digest, w)
    requires w.point.Busy() && !w.cell.run.status.Terminal() && Diligent(worker)
    ensures var next := Step(digest, job, w, worker(w));
      if next.point.Finished?
      then next.cell.run.status.Terminal() && next.point == Finished(Returned(next.cell.run.status))
      else
        && Invariant(job, next) && ReferencesAreIntact(digest, next)
        && next.point.Busy() && !next.cell.run.status.Terminal()
        && (LoopLeft(next) < LoopLeft(w) || (LoopLeft(next) == LoopLeft(w) && WritesLeft(next) < WritesLeft(w)))
  {
    hide ValidRun, WorkStep, PointFits, LoopLeft, WritesLeft, Written;
    var e := worker(w);
    WorkComesCloser(digest, job, w, e.at, e.end, e.answers);
    StepKeepsIntact(digest, job, w, e);
  }

  lemma {:induction false} RunFromTheFront(digest: Digest, job: Job, w: World, e: Event, rest: seq<Event>)
    ensures Run(digest, job, w, [e] + rest) == Run(digest, job, Step(digest, job, w, e), rest)
  {
    hide Step;
    if rest == [] {
      assert Run(digest, job, w, [e] + rest) == Step(digest, job, Run(digest, job, w, []), e) by {
        assert ([e] + rest)[..0] == [];
      }
    } else {
      RunFromTheFront(digest, job, w, e, rest[..|rest| - 1]);
      assert ([e] + rest)[..|rest|] == [e] + rest[..|rest| - 1];
    }
  }

  // -- an exception escapes only when another client ended the run -----------

  /** The record was finished by this delivery, or not at all. */
  ghost predicate EndedHere(w: World) {
    && (w.cell.run.status.Terminal() ==> !w.point.Busy())
    && w.point != Finished(Raised)
  }

  lemma StepKeepsEndedHere(digest: Digest, job: Job, w: World, e: Event)
    requires Invariant(job, w) && ReferencesAreIntact(digest, w) && EndedHere(w) && !e.EndElsewhere?
    ensures EndedHere(Step(digest, job, w, e))
  {
    hide ValidRun, WorkStep, PointFits, Written;
    if e.Work? && w.clock <= e.at <= e.end {
      if w.point.Busy() {
        WorkProceeds(digest, job, w, e.at, e.end, e.answers);
      } else {
        RestingStays(digest, job, w.(clock := e.end), e.at, e.end, e.answers);
      }
    }
  }

  lemma {:induction false} NothingEscapesUnlessEndedElsewhere(digest: Digest, job: Job, w: World, events: seq<Event>)
    requires Created(w) && forall i :: 0 <= i < |events| ==> !events[i].EndElsewhere?
    ensures Run(digest, job, w, events).point != Finished(Raised)
    ensures EndedHere(Run(digest, job, w, events))
  {
    hide ValidRun, Step, Invariant, ReferencesAreIntact;
    if events != [] {
      NothingEscapesUnlessEndedElsewhere(digest, job, w, events[..|events| - 1]);
      CreatedHistoriesFit(digest, job, w, events[..|events| - 1]);
      StepKeepsEndedHere(digest, job, Run(digest, job, w, events[..|events| - 1]), events[|events| - 1]);
    }
  }

  lemma CreatedHistoriesFit(digest: Digest, job: Job, w: World, events: seq<Event>)
    requires Created(w)
    ensures Invariant(job, Run(digest, job, w, events)) && ReferencesAreIntact(digest, Run(digest, job, w, events))
  {
    hide ValidRun, Step;
    CreatedRunsFit(job, w);
    EveryHistoryKeepsInvariant(digest, job, w, events);
  }

  // -- what an ended record says ---------------------------------------------

  /** The last step of a publication registers exactly the payloads, in order, and then the two aliases. */
  lemma CompletionPublishesThePayloads(digest: Digest, job: Job, w: World, at: Instant, end: Instant, answers: Answers)
    requires Advances(job, w) && ReferencesAreIntact(digest, w) && w.clock <= at <= end
    requires Completed(Step(digest, job, w, Work(at, end, answers)).cell.run)
    ensures w.point.Completing?
    ensures var run := Step(digest, job, w, Work(at, end, answers)).cell.run;
      && |run.artifacts| == Size(w.point.payloads)
      && forall k :: 0 <= k < |run.artifacts| ==>
           Written(digest, w.cell.files, w.point.payloads, k, run.artifacts[k])
  {
    hide ValidRun, SaveAllowed, SaveOr, Written, NextItem, ReferenceTo, FinalStages, PublishedStages, RecordCompletion,
      WithStages, Start, Cancel, VerifyArtifacts;
    var v := w.(clock := end);
    ClockMayMove(job, w, at, end);
    match w.point {
      case Completing(_, _) => CompletionEnds(digest, job, v, at);
      case CancellingQueued => CancellingQueuedEnds(digest, job, w, at, end, answers);
      case Starting => StartingStarts(digest, job, w, at, end, answers);
      case RecordingCancel(_) => CancellingEnds(digest, job, v, at);
      case RecordingFailure(_, _) => FailingEnds(digest, job, v, at);
      case AtStage(i, _) => if i < |w.local.stages| { EnteringAdvances(digest, job, v, at); }
      case Checked(_, _) => BeginningAdvances(digest, job, v, at);
      case PastCheckpoint(_, _) => FinishingAdvances(digest, job, v, at, answers.metrics);
      case _ =>
    }
  }

  /** Every artifact of a completed run was produced by its publication stage, and every produced id is registered. */
  lemma EveryArtifactIsProduced(run: AnalysisRun, references: seq<ArtifactReference>, end: Instant, i: nat, id: string)
    requires run.stages != [] && i < |run.stages|
    ensures var completed := CompletedRecord(run, references, end);
      && (id in completed.stages[i].producedArtifactIds ==> id in ArtifactIds(completed.artifacts))
      && (run.stages[i].name.ArtifactPublication? && id in ArtifactIds(completed.artifacts) ==>
            id in completed.stages[i].producedArtifactIds)
  {
  }

  /** A failure is blamed on the active stage alone: no other stage changes, and the run's failure names it. */
  lemma FailureIsBlamedOnTheActiveStage(digest: Digest, job: Job, w: World, at: Instant, i: nat)
    requires Working(job, w, at) && w.point.RecordingFailure? && i < |w.cell.run.stages|
    ensures var before, run := w.cell.run.stages[i], RecordFailed(digest, w, at, w.clock).cell.run;
      && run.status.Failed? && run.failure.Some? && run.failure.value.code == w.point.failure.code
      && |run.stages| == |w.cell.run.stages|
      && (i == w.point.active ==>
            && run.failure.value.details == Some(map["stage" := Str(StageText(before.name))])
            && (before.status.StageRunning? ==>
                  && run.stages[i].status.StageFailed? && run.stages[i].error.Some?
                  && run.stages[i].error.value.code == w.point.failure.code))
      && (i != w.point.active || !before.status.StageRunning? ==> run.stages[i] == before)
  {
    hide StageText;
    FailingEnds(digest, job, w, at);
  }

  // -- which completion a run gets -------------------------------------------

  ghost predicate StagesFinished(stages: seq<Stage>, n: int) {
    n <= |stages| && forall i :: 0 <= i < n ==>
      stages[i].status.StageSucceeded? || (stages[i].status.StageSkipped? && !stages[i].required)
  }

  /** A run whose parameters force it to stop short ends partial in its last stage; any other one succeeds. */
  ghost predicate CompletedAsAsked(run: AnalysisRun) {
    var n := |run.stages|;
    if "force_partial" in run.parameters && run.parameters["force_partial"] == Bool(true) then
      && run.status == Partial
      && run.partialReason == Some("Controlled partial completion with useful artifacts.")
      && n > 0 && run.stages[n - 1].status == StagePartial && run.stages[n - 1].progress == 80.0
      && StagesFinished(run.stages, n - 1)
    else run.status == Succeeded && run.partialReason == None && n > 0 && StagesFinished(run.stages, n)
  }

  lemma CompletionIsAsAsked(digest: Digest, job: Job, w: World, at: Instant)
    requires Working(job, w, at) && w.point.Completing? && ReferencesAreIntact(digest, w)
    requires CanComplete(w.cell.run, w.point.references)
    ensures var run := RecordCompletion(digest, w, w.clock).cell.run;
      CompletedAsAsked(run) && run.parameters == w.cell.run.parameters && run.completedAt == Some(w.clock)
  {
    hide ValidRun, RecordCompletion, VerifyArtifacts, Written, PublishedStages, ProducedIds;
    CompletionEnds(digest, job, w, at);
    RunningRunsHaveNoReason(w.cell.run);
  }

  lemma RunningRunsHaveNoReason(run: AnalysisRun)
    requires ValidRun(run) && run.status.Running?
    ensures run.partialReason.None?
  {
  }

  /** What the history of a created run keeps: its parameters, and that it completes only as they ask. */
  ghost predicate AsksFor(parameters: map<string, Json>, w: World) {
    && (!w.cell.run.status.Terminal() || Completed(w.cell.run) ==> w.cell.run.parameters == parameters)
    && (Completed(w.cell.run) ==> CompletedAsAsked(w.cell.run))
  }

  lemma StepKeepsAsksFor(digest: Digest, job: Job, parameters: map<string, Json>, w: World, e: Event)
    requires Invariant(job, w) && ReferencesAreIntact(digest, w) && AsksFor(parameters, w)
    ensures AsksFor(parameters, Step(digest, job, w, e))
  {
    hide ValidRun, WorkStep, PointFits, Written, CompletedAsAsked, SaveAllowed;
    var next := Step(digest, job, w, e);
    if w.cell.run.status.Terminal() {
      TerminalRecordsStay(digest, job, w, e);
    } else if !next.cell.run.status.Terminal() {
      StepKeepsPlan(digest, job, w, e);
    } else if Completed(next.cell.run) && e.Work? && w.clock <= e.at <= e.end {
      if w.point.Busy() {
        CompletionPublishesThePayloads(digest, job, w, e.at, e.end, e.answers);
        ClockMayMove(job, w, e.at, e.end);
        CompletingStepsAreAsAsked(digest, job, w, e.at, e.end, e.answers);
      } else {
        RestingStays(digest, job, w.(clock := e.end), e.at, e.end, e.answers);
      }
    }
  }

  lemma CompletingStepsAreAsAsked(
      digest: Digest, job: Job, w: World, at: Instant, end: Instant, answers: Answers)
    requires Advances(job, w) && w.clock <= at <= end && ReferencesAreIntact(digest, w) && w.point.Completing?
    requires Completed(Step(digest, job, w, Work(at, end, answers)).cell.run)
    ensures var run := Step(digest, job, w, Work(at, end, answers)).cell.run;
      CompletedAsAsked(run) && run.parameters == w.cell.run.parameters
  {
    hide ValidRun, RecordCompletion, CompletedRecord, CanComplete, Written, CompletedAsAsked, PointFits;
    var v := w.(clock := end);
    ClockMayMove(job, w, at, end);
    EndSteps(digest, job, w, at, end, answers);
    CompletionEnds(digest, job, v, at);
    if CanComplete(w.cell.run, w.point.references) {
      CompletionIsAsAsked(digest, job, v, at);
    }
  }

  lemma {:induction false} HistoriesCompleteAsAsked(
      digest: Digest, job: Job, parameters: map<string, Json>, w: World, events: seq<Event>)
    requires Invariant(job, w) && ReferencesAreIntact(digest, w) && AsksFor(parameters, w)
    ensures AsksFor(parameters, Run(digest, job, w, events))
  {
    hide ValidRun, Step, Invariant, ReferencesAreIntact, AsksFor;
    if events != [] {
      HistoriesCompleteAsAsked(digest, job, parameters, w, events[..|events| - 1]);
      EveryHistoryKeepsInvariant(digest, job, w, events[..|events| - 1]);
      StepKeepsAsksFor(
        digest, job, parameters, Run(digest, job, w, events[..|events| - 1]), events[|events| - 1]);
    }
  }

  /**
   * Over every history of a created run: if it completes, it is partial exactly when the parameter it was created with
   * is the JSON value true, and then in its last stage alone; otherwise it has succeeded.
   */
  lemma RunsCompleteAsAsked(digest: Digest, job: Job, w: World, events: seq<Event>)
    requires Created(w) && Completed(Run(digest, job, w, events).cell.run)
    ensures var run, asked := Run(digest, job, w, events).cell.run, w.cell.run.parameters;
      && CompletedAsAsked(run)
      && (run.status.Partial? <==> "force_partial" in asked && asked["force_partial"] == Bool(true))
      && (run.status.Succeeded? <==> !("force_partial" in asked && asked["force_partial"] == Bool(true)))
  {
    hide ValidRun, Run, Invariant;
    assert ReferencesAreIntact(digest, w) by { ReferencesAreIntactAtRest(digest, w); }
    CreatedRunsFit(job, w);
    HistoriesCompleteAsAsked(digest, job, w.cell.run.parameters, w, events);
  }
}
