/** Which runs can still complete: exactly those whose files leave room for everything their adapter would publish. */
module ExecutorCompletion {
  import opened Common
  import opened RunContract
  import opened Lifecycle
  import opened RunStore
  import opened Executor
  import opened ExecutorSteps
  import opened ExecutorHistories
  import opened ExecutorCancellation
  import opened ExecutorTheorems
  import Coordinator

  /** What the pipeline adapter of a run may return. */
  type Adapter = Build -> bool

  // -- what a completion needs -----------------------------------------------

  ghost predicate Usable(item: Item) {
    item.Item? && SafeArtifactPath(item.path)
  }

  ghost predicate Differ(a: Item, b: Item) {
    a.Item? && b.Item? ==> a.artifactId != b.artifactId && a.name != b.name && a.path != b.path
  }

  /** Every payload and both aliases can be written, and the contract accepts them together. */
  ghost predicate Publishable(build: Build) {
    && (forall k :: 0 <= k < Size(build) ==> Usable(NextItem(build, k)))
    && (forall i, k :: 0 <= i < k < Size(build) ==> Differ(NextItem(build, i), NextItem(build, k)))
  }

  function PathsOf(build: Build): set<string> {
    set k | 0 <= k < Size(build) && NextItem(build, k).Item? :: NextItem(build, k).path
  }

  ghost predicate Suits(adapter: Adapter, build: Build, files: Files) {
    adapter(build) && Publishable(build) && PathsOf(build) !! files.Keys
  }

  /** The profile that fails on purpose, at the third stage of a first attempt. */
  predicate PlannedFailure(job: Job, run: AnalysisRun) {
    job.profile.TestFail? && job.attempt == 1 && |run.stages| > 2 && !Done(run.stages[2])
  }

  /** What the contract asks of the stages: there are some, and a forced stop falls on a required one. */
  predicate StagesAllowIt(run: AnalysisRun) {
    run.stages != [] && (ForcedPartial(run) ==> run.stages[|run.stages| - 1].required)
  }

  ghost predicate HasRoom(job: Job, adapter: Adapter, cell: Cell) {
    && StagesAllowIt(cell.run) && !PlannedFailure(job, cell.run)
    && exists build :: Suits(adapter, build, cell.files)
  }

  ghost predicate Offered(adapter: Adapter, events: seq<Event>) {
    forall i :: 0 <= i < |events| ==> OffersOnly(adapter, events[i])
  }

  predicate OffersOnly(adapter: Adapter, e: Event) {
    e.Work? && e.answers.build.Built? ==> adapter(e.answers.build.build)
  }

  // -- necessary: a completed run had room -----------------------------------

  function CarriedBuild(point: Point): Option<Build> {
    if point.AtStage? || point.Checked? || point.InStage? || point.PastCheckpoint? then point.build
    else if point.Publishes() then Some(point.payloads)
    else None
  }

  /** The third stage has not begun, so the planned failure still comes. */
  predicate FailureComes(job: Job, w: World) {
    && PlannedFailure(job, w.cell.run)
    && (w.point.Checked? || w.point.InStage? || w.point.PastCheckpoint? ==> w.point.i != 2)
  }

  /** How a world is related to the stored run that it came from. */
  ghost predicate CameFrom(job: Job, adapter: Adapter, origin: Cell, w: World) {
    if w.cell.run.status.Terminal() then Completed(w.cell.run) ==> HasRoom(job, adapter, origin)
    else
      && SamePlan(origin.run, w.cell.run)
      && (PlannedFailure(job, origin.run) ==> FailureComes(job, w))
      && origin.files.Keys <= w.cell.files.Keys
      && (CarriedBuild(w.point).Some? ==> adapter(CarriedBuild(w.point).value))
      && (w.point.Publishes() ==> WroteOnlyNew(origin.files, w.point.references))
  }

  ghost predicate WroteOnlyNew(files: Files, references: seq<ArtifactReference>) {
    forall k :: 0 <= k < |references| ==> references[k].relativePath !in files
  }

  lemma WrittenBuildsArePublishable(digest: Digest, w: World)
    requires w.point.Publishes() && ReferencesAreIntact(digest, w)
    requires |w.point.references| == Size(w.point.payloads) && UniqueArtifacts(w.point.references)
    ensures Publishable(w.point.payloads)
    ensures forall k :: 0 <= k < Size(w.point.payloads) ==>
      NextItem(w.point.payloads, k).Item? && NextItem(w.point.payloads, k).path == w.point.references[k].relativePath
  {
    hide NextItem, SafeArtifactPath;
    var build, references := w.point.payloads, w.point.references;
    forall k | 0 <= k < Size(build)
      ensures Usable(NextItem(build, k)) && references[k] == ReferenceTo(digest, NextItem(build, k))
    {
      assert Written(digest, w.cell.files, build, k, references[k]);
    }
    forall i, k | 0 <= i < k < Size(build) ensures Differ(NextItem(build, i), NextItem(build, k)) {
      var ids, names, paths := ArtifactIds(references), ArtifactNames(references), ArtifactPaths(references);
      assert ids[i] != ids[k] && names[i] != names[k] && paths[i] != paths[k];
    }
  }

  lemma CompletionHadRoom(digest: Digest, job: Job, adapter: Adapter, origin: Cell, w: World, at: Instant)
    requires Working(job, w, at) && ReferencesAreIntact(digest, w) && w.point.Completing?
    requires CameFrom(job, adapter, origin, w)
    ensures CameFrom(job, adapter, origin, RecordCompletion(digest, w, w.clock))
  {
    hide ValidRun, RecordCompletion, NextItem, SafeArtifactPath, CompletedRecord, Publishable;
    var build, references := w.point.payloads, w.point.references;
    CompletionEnds(digest, job, w, at);
    if CanComplete(w.cell.run, references) {
      WrittenBuildsArePublishable(digest, w);
      forall path | path in PathsOf(build) ensures path !in origin.files {
        var k :| 0 <= k < Size(build) && NextItem(build, k).Item? && NextItem(build, k).path == path;
        assert references[k].relativePath == path;
      }
      assert Suits(adapter, build, origin.files);
    }
  }

  lemma PublishingKeepsCameFrom(digest: Digest, job: Job, adapter: Adapter, origin: Cell, w: World)
    requires w.point.Publishing? && !w.cell.run.status.Terminal() && CameFrom(job, adapter, origin, w)
    ensures CameFrom(job, adapter, origin, PublishNext(digest, w))
  {
    hide NextItem, SafeArtifactPath, VerifyArtifacts, SamePlan, PlannedFailure;
  }

  predicate InLoop(point: Point) {
    point.AtStage? || point.Checked? || point.InStage? || point.PastCheckpoint?
  }

  /** What a step at one stage of the loop can do to the stages and to the files, and where it can lead. */
  ghost predicate LoopMove(job: Job, w: World, answers: Answers, w': World)
    requires InLoop(w.point)
  {
    && |w'.cell.run.stages| == |w.cell.run.stages|
    && (forall k :: 0 <= k < |w.cell.run.stages| && k != w.point.i ==> w'.cell.run.stages[k] == w.cell.run.stages[k])
    && w'.cell.files == w.cell.files
    && (w.point.AtStage? && w.point.i < |w.local.stages| && !Skippable(job, w.local.stages[w.point.i]) ==>
          w'.cell == w.cell)
    && !w'.point.Publishes()
    && (InLoop(w'.point) ==>
          && (w'.point.build == w.point.build
              || (answers.build.Built? && w'.point.build == Some(answers.build.build)))
          && (w'.point.i == w.point.i || (w'.point.AtStage? && w'.point.i == w.point.i + 1))
          && (w'.point.InStage? || w'.point.PastCheckpoint? ==> !w.point.AtStage?)
          && (w'.point.Checked? ==>
                w.point.AtStage? && !(job.profile.TestFail? && job.attempt == 1 && w.point.i == 2)))
  }

  lemma SavingIsALoopMove(
      digest: Digest, job: Job, w: World, answers: Answers, s: Stage, next: Point)
    requires w.local == w.cell.run && InLoop(w.point) && w.point.i < |w.local.stages|
    requires next == AtStage(w.point.i + 1, w.point.build) || next == InStage(w.point.i, w.point.build)
    requires w.point.AtStage? ==> next.AtStage? && Skippable(job, w.local.stages[w.point.i])
    ensures LoopMove(job, w, answers, SaveOr(digest, w, WithStages(w.local, w.local.stages[w.point.i := s]), next,
      Failing(w.point.i, UNEXPECTED)))
  {
    hide ValidRun, SaveAllowed;
  }

  lemma LoopMoves(digest: Digest, job: Job, w: World, at: Instant, answers: Answers)
    requires w.local == w.cell.run && InLoop(w.point) && w.point.i < |w.local.stages|
    ensures LoopMove(job, w, answers, WorkStep(digest, job, w, at, w.clock, answers))
  {
    hide ValidRun, SaveOr, WithStages, StageTitle, SkippedStage, RunningStage, SucceededStage;
    var stages, i, build := w.local.stages, w.point.i, w.point.build;
    match w.point {
      case AtStage(_, _) =>
        if Skippable(job, stages[i]) {
          SavingIsALoopMove(digest, job, w, answers, SkippedStage(stages[i], at), AtStage(i + 1, build));
        }
      case Checked(_, _) => SavingIsALoopMove(digest, job, w, answers, RunningStage(stages[i], at), InStage(i, build));
      case InStage(_, _) =>
      case PastCheckpoint(_, _) =>
        if answers.metrics.Some? {
          SavingIsALoopMove(
            digest, job, w, answers, SucceededStage(stages[i], at, answers.metrics.value), AtStage(i + 1, build));
        }
    }
  }

  lemma LoopKeepsCameFrom(
      digest: Digest, job: Job, adapter: Adapter, origin: Cell, w: World, at: Instant, answers: Answers)
    requires Advances(job, w) && InLoop(w.point) && w.point.i < |w.local.stages|
    requires CameFrom(job, adapter, origin, w) && (answers.build.Built? ==> adapter(answers.build.build))
    requires var w' := WorkStep(digest, job, w, at, w.clock, answers);
      SamePlan(w.cell.run, w'.cell.run) && !w'.cell.run.status.Terminal()
    ensures CameFrom(job, adapter, origin, WorkStep(digest, job, w, at, w.clock, answers))
  {
    hide ValidRun, WorkStep, Prefix, StartedBefore;
    var w' := WorkStep(digest, job, w, at, w.clock, answers);
    LoopMoves(digest, job, w, at, answers);
    assert PlannedFailure(job, origin.run) && w.point.AtStage? ==> w.point.i <= 2;
  }

  lemma StartKeepsFiles(digest: Digest, w: World)
    requires w.local == w.cell.run
    ensures var w' := SaveOr(digest, w, Start(w.local, w.clock), AtStage(0, None), Finished(Raised));
      && w'.cell.files == w.cell.files && w'.cell.run.stages == w.cell.run.stages
      && w'.cell.marked == w.cell.marked
  {
    hide ValidRun, SaveAllowed;
  }

  lemma LoopAdvances(digest: Digest, job: Job, w: World, at: Instant, answers: Answers)
    requires Working(job, w, at) && InLoop(w.point) && w.point.i < |w.local.stages|
    ensures Advances(job, WorkStep(digest, job, w, at, w.clock, answers))
  {
    hide ValidRun, EnterStage, BeginStage, LeaveStage, FinishStage;
    match w.point {
      case AtStage(_, _) => EnteringAdvances(digest, job, w, at);
      case Checked(_, _) => BeginningAdvances(digest, job, w, at);
      case InStage(_, _) => LeavingAdvances(job, w, at, answers.build);
      case PastCheckpoint(_, _) => FinishingAdvances(digest, job, w, at, answers.metrics);
    }
  }

  lemma InTheLoop(job: Job, w: World)
    requires Advances(job, w) && InLoop(w.point) && w.point.i >= |w.local.stages|
    ensures w.point.AtStage?
  {
  }

  lemma TheEndOfTheLoopKeepsCameFrom(
      digest: Digest, job: Job, adapter: Adapter, origin: Cell, w: World, at: Instant, answers: Answers)
    requires Advances(job, w) && w.point.AtStage? && w.point.i >= |w.local.stages|
    requires CameFrom(job, adapter, origin, w) && (answers.build.Built? ==> adapter(answers.build.build))
    ensures CameFrom(job, adapter, origin, WorkStep(digest, job, w, at, w.clock, answers))
  {
    hide ValidRun, SamePlan, Prefix, StartedBefore;
  }

  lemma LoopStepsKeepCameFrom(
      digest: Digest, job: Job, adapter: Adapter, origin: Cell, w: World, at: Instant, answers: Answers)
    requires Working(job, w, at) && InLoop(w.point) && CameFrom(job, adapter, origin, w)
    requires answers.build.Built? ==> adapter(answers.build.build)
    requires var w' := WorkStep(digest, job, w, at, w.clock, answers);
      !w'.cell.run.status.Terminal() ==> SamePlan(w.cell.run, w'.cell.run)
    ensures CameFrom(job, adapter, origin, WorkStep(digest, job, w, at, w.clock, answers))
  {
    hide ValidRun, WorkStep, PointFits, Prefix, StartedBefore, CameFrom;
    if w.point.i < |w.local.stages| {
      LoopAdvances(digest, job, w, at, answers);
      LoopKeepsCameFrom(digest, job, adapter, origin, w, at, answers);
    } else {
      InTheLoop(job, w);
      TheEndOfTheLoopKeepsCameFrom(digest, job, adapter, origin, w, at, answers);
    }
  }

  lemma WorkKeepsCameFrom(
      digest: Digest, job: Job, adapter: Adapter, origin: Cell, w: World, at: Instant, end: Instant, answers: Answers)
    requires Advances(job, w) && ReferencesAreIntact(digest, w) && w.clock <= at <= end
    requires CameFrom(job, adapter, origin, w) && (answers.build.Built? ==> adapter(answers.build.build))
    ensures CameFrom(job, adapter, origin, Step(digest, job, w, Work(at, end, answers)))
  {
    hide ValidRun, SaveOr, EnterStage, BeginStage, LeaveStage, FinishStage, PublishNext, RecordCompletion,
      RecordCancelled, RecordFailed, Written, CompletedRecord, CanComplete, VerifyArtifacts, PointFits, Prefix,
      StartedBefore;
    var v, w' := w.(clock := end), Step(digest, job, w, Work(at, end, answers));
    ClockMayMove(job, w, at, end);
    if !w'.cell.run.status.Terminal() {
      WorkKeepsPlan(digest, job, w, at, end, answers);
    }
    match w.point {
      case Claimed =>
      case CancellingQueued => CancellingQueuedEnds(digest, job, w, at, end, answers);
      case Starting => StartingStarts(digest, job, w, at, end, answers); StartKeepsFiles(digest, v);
      case Publishing(_, _) => PublishingKeepsCameFrom(digest, job, adapter, origin, v);
      case Verified(_, _) =>
      case Completing(_, _) => CompletionHadRoom(digest, job, adapter, origin, v, at);
      case Cancelling(_) =>
      case RecordingCancel(_) => CancellingEnds(digest, job, v, at);
      case Failing(_, _) =>
      case RecordingFailure(_, _) => FailingEnds(digest, job, v, at);
      case Idle =>
      case Finished(_) =>
      case _ => LoopStepsKeepCameFrom(digest, job, adapter, origin, v, at, answers);
    }
  }

  lemma OutsideEventsKeepCameFrom(digest: Digest, job: Job, adapter: Adapter, origin: Cell, w: World, e: Event)
    requires Invariant(job, w) && !w.cell.run.status.Terminal() && !e.Work? && CameFrom(job, adapter, origin, w)
    ensures CameFrom(job, adapter, origin, Step(digest, job, w, e))
  {
    hide ValidRun, SaveAllowed, WorkStep, SamePlan, Prefix, StartedBefore;
  }

  lemma StepKeepsCameFrom(digest: Digest, job: Job, adapter: Adapter, origin: Cell, w: World, e: Event)
    requires Invariant(job, w) && ReferencesAreIntact(digest, w) && OffersOnly(adapter, e)
    requires CameFrom(job, adapter, origin, w)
    ensures CameFrom(job, adapter, origin, Step(digest, job, w, e))
  {
    hide ValidRun, Written, WorkStep, PointFits, Prefix, StartedBefore;
    if w.cell.run.status.Terminal() {
      TerminalRecordsStay(digest, job, w, e);
    } else if !e.Work? {
      OutsideEventsKeepCameFrom(digest, job, adapter, origin, w, e);
    } else if w.clock <= e.at <= e.end {
      if w.point.Busy() {
        WorkKeepsCameFrom(digest, job, adapter, origin, w, e.at, e.end, e.answers);
      } else {
        RestingStays(digest, job, w.(clock := e.end), e.at, e.end, e.answers);
      }
    }
  }

  lemma {:induction false} HistoriesKeepCameFrom(
      digest: Digest, job: Job, adapter: Adapter, origin: Cell, w: World, events: seq<Event>)
    requires Invariant(job, w) && ReferencesAreIntact(digest, w) && Offered(adapter, events)
    requires CameFrom(job, adapter, origin, w)
    ensures CameFrom(job, adapter, origin, Run(digest, job, w, events))
  {
    hide ValidRun, Step, Invariant, ReferencesAreIntact, CameFrom;
    if events != [] {
      var earlier, e := events[..|events| - 1], events[|events| - 1];
      HistoriesKeepCameFrom(digest, job, adapter, origin, w, earlier);
      EveryHistoryKeepsInvariant(digest, job, w, earlier);
      StepKeepsCameFrom(digest, job, adapter, origin, Run(digest, job, w, earlier), e);
    }
  }

  /** At rest: no delivery is under way, and the run has not ended. */
  ghost predicate AtRest(job: Job, w: World) {
    Invariant(job, w) && w.point.Idle? && !w.cell.run.status.Terminal()
  }

  lemma CompletedRunsHadRoom(digest: Digest, job: Job, adapter: Adapter, w: World, events: seq<Event>)
    requires AtRest(job, w) && Offered(adapter, events) && Completed(Run(digest, job, w, events).cell.run)
    ensures HasRoom(job, adapter, w.cell)
    ensures w.cell.marked ==> Blind(job, w)
  {
    hide ValidRun, Invariant, HasRoom;
    assert ReferencesAreIntact(digest, w) by { ReferencesAreIntactAtRest(digest, w); }
    HistoriesKeepCameFrom(digest, job, adapter, w.cell, w, events);
    if w.cell.marked && CheckpointAhead(job, w) {
      CancelledBeforeTheLastCheckpointNeverCompletes(digest, job, w, events);
      assert false;
    }
  }

  // -- sufficient: a delivery left alone completes a run with room -----------

  /** A delivery under way that will publish `build` and complete. */
  ghost predicate OnTrack(digest: Digest, job: Job, build: Build, w: World) {
    && Advances(job, w) && ReferencesAreIntact(digest, w)
    && Publishable(build) && StagesAllowIt(w.cell.run) && !PlannedFailure(job, w.cell.run)
    && (w.cell.marked ==> Blind(job, w))
    && !w.point.Stops() && !w.point.CancellingQueued?
    && (CarriedBuild(w.point).Some? ==> CarriedBuild(w.point).value == build)
    && RoomLeft(build, w)
  }

  /** What is still to be written finds its path free. */
  ghost predicate RoomLeft(build: Build, w: World) {
    var written := if w.point.Publishes() then |w.point.references| else 0;
    forall k :: written <= k < Size(build) ==> NextItem(build, k).Item? && NextItem(build, k).path !in w.cell.files
  }

  /** What happens next when the worker is left alone and the pipeline returns `build`. */
  function Undisturbed(build: Build, w: World): Event {
    Work(w.clock, w.clock, Answers(Built(build), Some(map[])))
  }

  ghost predicate Returns(build: Build, e: Event) {
    e.Work? && e.answers.build == Built(build)
  }

  lemma DeliveriesAreOnTrack(digest: Digest, job: Job, adapter: Adapter, build: Build, w: World)
    requires AtRest(job, w) && Suits(adapter, build, w.cell.files)
    requires StagesAllowIt(w.cell.run) && !PlannedFailure(job, w.cell.run) && (w.cell.marked ==> Blind(job, w))
    ensures OnTrack(digest, job, build, Step(digest, job, w, Deliver))
  {
    hide ValidRun, NextItem, Publishable;
    var w' := Step(digest, job, w, Deliver);
    DeliveryKeepsInvariant(digest, job, w);
    forall k | 0 <= k < Size(build) ensures NextItem(build, k).Item? && NextItem(build, k).path !in w.cell.files {
      assert Usable(NextItem(build, k)) by { ItemsAreUsable(build, k); }
      assert NextItem(build, k).path in PathsOf(build);
    }
    if w.cell.marked {
      SameStagesKeepBlind(job, w, w');
    }
  }

  lemma ItemsAreUsable(build: Build, k: nat)
    requires Publishable(build) && k < Size(build)
    ensures Usable(NextItem(build, k))
  {
  }

  lemma StageSavesSucceed(digest: Digest, job: Job, w: World, i: nat, s: Stage, next: Point)
    requires Advances(job, w) && w.cell.run.status.Running? && i < |w.cell.run.stages|
    requires Replaces(w.cell.run.stages[i], s) && Before(s.startedAt, w.clock)
    ensures SaveOr(digest, w, WithStages(w.local, w.local.stages[i := s]), next, Failing(i, UNEXPECTED)).point == next
  {
    hide ValidRun, SaveAllowed, WithStages, PointFits, Prefix;
    MovedStageIsSaved(digest, w.cell, w.clock, i, s, w.clock);
  }

  /** With no obstacle ahead, each access of the loop leads on to the next. */
  lemma LoopGoesOn(digest: Digest, job: Job, build: Build, w: World)
    requires OnTrack(digest, job, build, w) && InLoop(w.point) && w.point.i < |w.local.stages|
    ensures InLoop(WorkStep(digest, job, w, w.clock, w.clock, Undisturbed(build, w).answers).point)
  {
    hide ValidRun, SaveOr, WithStages, StageTitle, NextItem, Publishable, ReferencesAreIntact, Replaces;
    var i, stages, now, carried := w.point.i, w.cell.run.stages, w.clock, w.point.build;
    var stage := stages[i];
    assert w.cell.marked ==> !AwaitsCheckpoint(job, w, i);
    StageIsUsable(w.cell.run, i);
    match w.point {
      case AtStage(_, _) =>
        if !Done(stage) && Skippable(job, stage) {
          WrittenStagesFit(stage, now, now, map[]);
          StageSavesSucceed(digest, job, w, i, SkippedStage(stage, now), AtStage(i + 1, carried));
        }
      case Checked(_, _) =>
        WrittenStagesFit(stage, now, now, map[]);
        StageSavesSucceed(digest, job, w, i, RunningStage(stage, now), InStage(i, carried));
      case InStage(_, _) =>
      case PastCheckpoint(_, _) =>
        WrittenStagesFit(stage, now, now, map[]);
        StageSavesSucceed(digest, job, w, i, SucceededStage(stage, now, map[]), AtStage(i + 1, carried));
    }
  }

  lemma LoopStaysOnTrack(digest: Digest, job: Job, build: Build, w: World)
    requires OnTrack(digest, job, build, w) && InLoop(w.point) && w.point.i < |w.local.stages|
    ensures OnTrack(digest, job, build, Step(digest, job, w, Undisturbed(build, w)))
  {
    hide ValidRun, WorkStep, Publishable, NextItem, Prefix, StartedBefore, Written, Blind, ForcedPartial;
    var e := Undisturbed(build, w);
    var w' := Step(digest, job, w, e);
    assert w' == WorkStep(digest, job, w, w.clock, w.clock, e.answers);
    LoopGoesOn(digest, job, build, w);
    LoopAdvances(digest, job, w, w.clock, e.answers);
    LoopMoves(digest, job, w, w.clock, e.answers);
    WorkKeepsPlan(digest, job, w, w.clock, w.clock, e.answers);
    PlansAllowTheSame(w.cell.run, w'.cell.run);
    MarksStay(digest, job, w, w.clock, w.clock, e.answers);
    if w.cell.marked {
      StepKeepsBlind(digest, job, w, e);
    }
    NoFailureIsPlanned(job, w);
  }

  lemma PlansAllowTheSame(before: AnalysisRun, after: AnalysisRun)
    requires SamePlan(before, after)
    ensures StagesAllowIt(before) <==> StagesAllowIt(after)
  {
  }

  lemma NoFailureIsPlanned(job: Job, w: World)
    requires Advances(job, w) && !PlannedFailure(job, w.cell.run) && InLoop(w.point)
    ensures w.point.i == 2 && job.profile.TestFail? && job.attempt == 1 && |w.cell.run.stages| > 2 ==>
      w.point.AtStage? && !Skippable(job, w.cell.run.stages[2])
  {
  }

  lemma TheEndOfTheLoopIsOnTrack(digest: Digest, job: Job, build: Build, w: World)
    requires OnTrack(digest, job, build, w) && w.point.AtStage? && w.point.i >= |w.local.stages|
    ensures OnTrack(digest, job, build, Step(digest, job, w, Undisturbed(build, w)))
    ensures Step(digest, job, w, Undisturbed(build, w)).point == Publishing(build, [])
  {
    hide ValidRun, Publishable, NextItem, Prefix, StartedBefore, Written, ForcedPartial;
    if w.cell.marked {
      SameStagesKeepBlind(job, w, Step(digest, job, w, Undisturbed(build, w)));
    }
  }

  lemma QueuedRunsAreOnTrack(digest: Digest, job: Job, build: Build, w: World)
    requires OnTrack(digest, job, build, w) && (w.point.Claimed? || w.point.Starting?)
    ensures OnTrack(digest, job, build, Step(digest, job, w, Undisturbed(build, w)))
    ensures !Step(digest, job, w, Undisturbed(build, w)).point.Publishes()
  {
    hide ValidRun, SaveOr, Start, Publishable, NextItem, Prefix, StartedBefore, Written, ForcedPartial;
    var e := Undisturbed(build, w);
    assert !w.cell.marked;
    if w.point.Starting? {
      StartingStarts(digest, job, w, w.clock, w.clock, e.answers);
      StartKeepsFiles(digest, w);
      WorkKeepsPlan(digest, job, w, w.clock, w.clock, e.answers);
      PlansAllowTheSame(w.cell.run, Step(digest, job, w, e).cell.run);
    }
  }

  lemma WritingIsOnTrack(digest: Digest, job: Job, build: Build, w: World)
    requires OnTrack(digest, job, build, w) && w.point.Publishing? && |w.point.references| < Size(build)
    ensures var w' := Step(digest, job, w, Undisturbed(build, w));
      && OnTrack(digest, job, build, w')
      && w'.point.Publishing? && |w'.point.references| == |w.point.references| + 1
  {
    hide ValidRun, Publishable, NextItem, Prefix, StartedBefore, Written, ForcedPartial, SafeArtifactPath, ReferenceTo;
    var k, e := |w.point.references|, Undisturbed(build, w);
    var w' := Step(digest, job, w, e);
    ItemsAreUsable(build, k);
    PublishingAdvances(digest, job, w, w.clock);
    PublishingKeepsIntact(digest, w);
    assert w' == PublishNext(digest, w);
    assert w'.point.Publishing? && |w'.point.references| == k + 1;
    forall j | k + 1 <= j < Size(build) ensures NextItem(build, j).Item? && NextItem(build, j).path !in w'.cell.files {
      ItemsDiffer(build, k, j);
    }
    if w.cell.marked {
      SameStagesKeepBlind(job, w, w');
    }
  }

  lemma ItemsDiffer(build: Build, i: nat, k: nat)
    requires Publishable(build) && i < k < Size(build)
    ensures Differ(NextItem(build, i), NextItem(build, k))
  {
  }

  lemma WrittenReferencesDiffer(digest: Digest, build: Build, w: World)
    requires Publishable(build) && ReferencesAreIntact(digest, w) && w.point.Publishes() && w.point.payloads == build
    requires |w.point.references| == Size(build)
    ensures UniqueArtifacts(w.point.references)
  {
    hide NextItem, SafeArtifactPath;
    var references := w.point.references;
    forall k | 0 <= k < Size(build)
      ensures NextItem(build, k).Item? && references[k] == ReferenceTo(digest, NextItem(build, k))
    {
      assert Written(digest, w.cell.files, build, k, references[k]);
    }
    forall i, k | 0 <= i < k < Size(build)
      ensures references[i].artifactId != references[k].artifactId && references[i].name != references[k].name
        && references[i].relativePath != references[k].relativePath
    {
      ItemsDiffer(build, i, k);
    }
  }

  lemma ReadingBackIsOnTrack(digest: Digest, job: Job, build: Build, w: World)
    requires OnTrack(digest, job, build, w) && (w.point.Publishing? || w.point.Verified?)
    requires |w.point.references| == Size(build)
    ensures var w' := Step(digest, job, w, Undisturbed(build, w));
      && OnTrack(digest, job, build, w')
      && w'.point == (if w.point.Publishing? then Verified(build, w.point.references)
                      else Completing(build, w.point.references))
  {
    hide ValidRun, Publishable, NextItem, Prefix, StartedBefore, Written, ForcedPartial, VerifyArtifacts;
    WrittenReferencesVerify(digest, w);
    if w.cell.marked {
      SameStagesKeepBlind(job, w, Step(digest, job, w, Undisturbed(build, w)));
    }
  }

  /** Once everything is written: read back, load, and save. */
  lemma PublishedRunsComplete(digest: Digest, job: Job, build: Build, w: World) returns (events: seq<Event>)
    requires OnTrack(digest, job, build, w) && w.point.Publishes()
    requires w.point.Publishing? ==> |w.point.references| == Size(build)
    ensures forall i :: 0 <= i < |events| ==> Returns(build, events[i])
    ensures Completed(Run(digest, job, w, events).cell.run)
    decreases LoopLeft(w)
  {
    hide ValidRun, Publishable, NextItem, Prefix, StartedBefore, Written, SafeArtifactPath, ForcedPartial, Blind,
      CompletedRecord;
    var e := Undisturbed(build, w);
    var w' := Step(digest, job, w, e);
    WrittenReferencesDiffer(digest, build, w);
    if w.point.Completing? {
      CompletionEnds(digest, job, w, w.clock);
      events := [e];
      assert Run(digest, job, w, []) == w && [e][..0] == [];
    } else {
      ReadingBackIsOnTrack(digest, job, build, w);
      var rest := PublishedRunsComplete(digest, job, build, w');
      events := [e] + rest;
      RunFromTheFront(digest, job, w, e, rest);
    }
  }

  /** A delivery that is on track reaches the moment at which any given number of artifacts is written. */
  lemma {:induction false} DeliveriesReachEachWrite(digest: Digest, job: Job, build: Build, w: World, written: nat)
    returns (events: seq<Event>)
    requires OnTrack(digest, job, build, w) && written <= Size(build) && !w.point.Verified? && !w.point.Completing?
    requires w.point.Publishing? ==> |w.point.references| <= written
    ensures forall i :: 0 <= i < |events| ==> Returns(build, events[i])
    ensures var v := Run(digest, job, w, events);
      OnTrack(digest, job, build, v) && v.point.Publishing? && |v.point.references| == written
    decreases LoopLeft(w), WritesLeft(w)
  {
    hide ValidRun, Publishable, NextItem, Invariant, ReferencesAreIntact, ForcedPartial, Blind, LoopLeft, WritesLeft,
      RoomLeft, Step, PlannedFailure, StagesAllowIt;
    if w.point.Publishing? && |w.point.references| == written {
      events := [];
    } else {
      var e := Undisturbed(build, w);
      var w' := Step(digest, job, w, e);
      NextOnTrack(digest, job, build, w);
      var rest := DeliveriesReachEachWrite(digest, job, build, w', written);
      events := [e] + rest;
      RunFromTheFront(digest, job, w, e, rest);
    }
  }

  lemma NextOnTrack(digest: Digest, job: Job, build: Build, w: World)
    requires OnTrack(digest, job, build, w) && !w.point.Verified? && !w.point.Completing?
    requires w.point.Publishing? ==> |w.point.references| < Size(build)
    ensures var w' := Step(digest, job, w, Undisturbed(build, w));
      && OnTrack(digest, job, build, w') && !w'.point.Verified? && !w'.point.Completing?
      && (w'.point.Publishing? ==>
            |w'.point.references| == if w.point.Publishing? then |w.point.references| + 1 else 0)
      && (LoopLeft(w') < LoopLeft(w) || (LoopLeft(w') == LoopLeft(w) && WritesLeft(w') < WritesLeft(w)))
  {
    hide ValidRun, Publishable, NextItem, Invariant, ReferencesAreIntact, ForcedPartial, Blind, LoopLeft, WritesLeft,
      RoomLeft, Step, PlannedFailure, StagesAllowIt;
    WorkComesCloser(digest, job, w, w.clock, w.clock, Undisturbed(build, w).answers);
    if InLoop(w.point) {
      if w.point.i < |w.local.stages| {
        LoopGoesOn(digest, job, build, w);
        LoopStaysOnTrack(digest, job, build, w);
        LoopStaysInTheLoop(digest, job, build, w);
      } else {
        InTheLoop(job, w);
        TheEndOfTheLoopIsOnTrack(digest, job, build, w);
      }
    } else if w.point.Publishing? {
      WritingIsOnTrack(digest, job, build, w);
    } else {
      QueuedRunsAreOnTrack(digest, job, build, w);
    }
  }

  lemma LoopStaysInTheLoop(digest: Digest, job: Job, build: Build, w: World)
    requires OnTrack(digest, job, build, w) && InLoop(w.point) && w.point.i < |w.local.stages|
    ensures InLoop(Step(digest, job, w, Undisturbed(build, w)).point)
  {
    hide OnTrack, WorkStep;
    LoopGoesOn(digest, job, build, w);
  }

  lemma {:induction false} RunConcatenates(digest: Digest, job: Job, w: World, first: seq<Event>, second: seq<Event>)
    ensures Run(digest, job, w, first + second) == Run(digest, job, Run(digest, job, w, first), second)
  {
    hide Step;
    if second == [] {
      assert first + second == first;
    } else {
      RunConcatenates(digest, job, w, first, second[..|second| - 1]);
      assert (first + second)[..|first + second| - 1] == first + second[..|second| - 1];
    }
  }

  /** A delivery that is on track completes when it is left alone. */
  lemma DeliveriesOnTrackComplete(digest: Digest, job: Job, build: Build, w: World) returns (events: seq<Event>)
    requires OnTrack(digest, job, build, w) && !w.point.Publishes()
    ensures forall i :: 0 <= i < |events| ==> Returns(build, events[i])
    ensures Completed(Run(digest, job, w, events).cell.run)
  {
    hide ValidRun, Publishable, Invariant, Blind, Step, OnTrack, PlannedFailure, StagesAllowIt;
    var writing := DeliveriesReachEachWrite(digest, job, build, w, Size(build));
    var ending := PublishedRunsComplete(digest, job, build, Run(digest, job, w, writing));
    events := writing + ending;
    RunConcatenates(digest, job, w, writing, ending);
  }

  /** A run with room for some build of its adapter completes when its next delivery is left alone. */
  lemma RunsWithRoomComplete(digest: Digest, job: Job, adapter: Adapter, w: World) returns (events: seq<Event>)
    requires AtRest(job, w) && HasRoom(job, adapter, w.cell) && (w.cell.marked ==> Blind(job, w))
    ensures Offered(adapter, events) && Completed(Run(digest, job, w, events).cell.run)
  {
    hide ValidRun, Publishable, Invariant, Blind, Step, OnTrack, PlannedFailure, StagesAllowIt;
    var build :| Suits(adapter, build, w.cell.files);
    var delivered := Step(digest, job, w, Deliver);
    DeliveriesAreOnTrack(digest, job, adapter, build, w);
    assert !delivered.point.Publishes() by { DeliveriesDoNotPublish(digest, job, w); }
    var rest := DeliveriesOnTrackComplete(digest, job, build, delivered);
    events := [Deliver] + rest;
    RunFromTheFront(digest, job, w, Deliver, rest);
  }

  lemma DeliveriesDoNotPublish(digest: Digest, job: Job, w: World)
    requires w.point.Idle?
    ensures !Step(digest, job, w, Deliver).point.Publishes()
  {
  }

  /**
   * A run at rest can still complete if and only if no file is in the way of some build of its adapter, its stages
   * allow it, no failure is planned, and no request to cancel it has still to be seen.
   */
  lemma RunsCompleteIff(digest: Digest, job: Job, adapter: Adapter, w: World)
    requires AtRest(job, w)
    ensures (exists events :: Offered(adapter, events) && Completed(Run(digest, job, w, events).cell.run))
      <==> HasRoom(job, adapter, w.cell) && (w.cell.marked ==> Blind(job, w))
  {
    hide ValidRun, AtRest, HasRoom, Blind, Offered, Run;
    if events :| Offered(adapter, events) && Completed(Run(digest, job, w, events).cell.run) {
      CompletedRunsHadRoom(digest, job, adapter, w, events);
    }
    if HasRoom(job, adapter, w.cell) && (w.cell.marked ==> Blind(job, w)) {
      var events := RunsWithRoomComplete(digest, job, adapter, w);
    }
  }

  // -- the paths that are always in the way ----------------------------------

  /** The sources of the two aliases, and the aliases. */
  const FORCED_PATHS: set<string> := {
    TRACK_SUMMARY_PATH, WORKLOAD_ADVISORY_PATH, SUMMARY_ALIAS_PATH, ADVISORY_ALIAS_PATH}

  lemma {:induction false} PayloadsAreListed(entries: seq<Entry>, key: string) returns (k: nat)
    requires PayloadOf(entries, key).Some?
    ensures k < |entries| && entries[k] == Entry(key, PayloadOf(entries, key).value)
  {
    if entries[|entries| - 1].key == key {
      k := |entries| - 1;
    } else {
      k := PayloadsAreListed(entries[..|entries| - 1], key);
    }
  }

  /** The track summary comes before its alias, under its own path. */
  lemma TheSummaryIsWritten(build: Build) returns (k: nat)
    requires Publishable(build)
    ensures k < |build.entries| && NextItem(build, k).Item? && NextItem(build, k).path == TRACK_SUMMARY_PATH
  {
    hide SafeArtifactPath;
    ItemsAreUsable(build, |build.entries|);
    k := PayloadsAreListed(build.entries, SUMMARY_KEY);
    ItemsAreUsable(build, k);
  }

  lemma TheAdvisoryIsWritten(build: Build) returns (k: nat)
    requires Publishable(build)
    ensures k < |build.entries| && NextItem(build, k).Item? && NextItem(build, k).path == WORKLOAD_ADVISORY_PATH
  {
    hide SafeArtifactPath;
    ItemsAreUsable(build, |build.entries| + 1);
    k := PayloadsAreListed(build.entries, ADVISORY_KEY);
    ItemsAreUsable(build, k);
  }

  lemma EveryBuildNeedsTheForcedPaths(build: Build)
    requires Publishable(build)
    ensures FORCED_PATHS <= PathsOf(build)
  {
    hide SafeArtifactPath;
    var n := |build.entries|;
    var i := TheSummaryIsWritten(build);
    var k := TheAdvisoryIsWritten(build);
    ItemsAreUsable(build, n);
    ItemsAreUsable(build, n + 1);
    assert NextItem(build, n).path == SUMMARY_ALIAS_PATH && NextItem(build, n + 1).path == ADVISORY_ALIAS_PATH;
    assert NextItem(build, i).path in PathsOf(build) && NextItem(build, k).path in PathsOf(build);
    assert NextItem(build, n).path in PathsOf(build) && NextItem(build, n + 1).path in PathsOf(build);
  }

  lemma {:induction false} SplitOfName(name: string)
    requires '/' !in name
    ensures SplitPath(name) == [name]
  {
    if name != "" {
      SplitOfName(name[1..]);
      assert [name[0]] + name[1..] == name;
    }
  }

  lemma {:induction false} SplitBelow(dir: string, name: string)
    requires '/' !in dir && '/' !in name
    ensures SplitPath(dir + "/" + name) == [dir, name]
  {
    var path := dir + "/" + name;
    if dir == "" {
      SplitOfName(name);
      assert path[1..] == name;
    } else {
      SplitBelow(dir[1..], name);
      assert path[1..] == dir[1..] + "/" + name;
      assert [dir[0]] + dir[1..] == dir;
    }
  }

  /** A file right below the artifact directory. */
  lemma FlatPathsAreSafe(name: string)
    requires '/' !in name && '\\' !in name && |name| > 2
    ensures SafeArtifactPath(ARTIFACTS + name)
  {
    SplitBelow("artifacts", name);
    assert "artifacts" + "/" + name == ARTIFACTS + name;
  }

  lemma TrackSummaryPathIsSafe()
    ensures SafeArtifactPath(TRACK_SUMMARY_PATH)
  {
    hide SafeArtifactPath;
    FlatPathsAreSafe("track-summary.json");
  }

  lemma WorkloadAdvisoryPathIsSafe()
    ensures SafeArtifactPath(WORKLOAD_ADVISORY_PATH)
  {
    hide SafeArtifactPath;
    FlatPathsAreSafe("workload-advisory.json");
  }

  lemma SummaryAliasPathIsSafe()
    ensures SafeArtifactPath(SUMMARY_ALIAS_PATH)
  {
    hide SafeArtifactPath;
    FlatPathsAreSafe("dashboard-track-summary.json");
  }

  lemma AdvisoryAliasPathIsSafe()
    ensures SafeArtifactPath(ADVISORY_ALIAS_PATH)
  {
    hide SafeArtifactPath;
    FlatPathsAreSafe("dashboard-workload-advisory.json");
  }

  /** The least that an adapter can return for a completion. */
  const SMALLEST_BUILD := Build([
    Entry(SUMMARY_KEY, Document(Some("footballai.track-summary/v1"), [], [], None)),
    Entry(ADVISORY_KEY, Document(Some("footballai.workload-advisory/v1"), [], [], Some([])))])

  lemma {:induction false} TheLastPayloadOfAKey(entries: seq<Entry>, k: nat)
    requires k < |entries| && forall j :: k < j < |entries| ==> entries[j].key != entries[k].key
    ensures PayloadOf(entries, entries[k].key) == Some(entries[k].payload)
  {
    if k < |entries| - 1 {
      TheLastPayloadOfAKey(entries[..|entries| - 1], k);
    }
  }

  lemma SmallestItems()
    ensures NextItem(SMALLEST_BUILD, 0) == Item(SUMMARY_KEY, "Track Summary", Tracks, TRACK_SUMMARY_PATH, [],
      "application/json", "footballai.track-summary/v1")
    ensures NextItem(SMALLEST_BUILD, 1) == Item(ADVISORY_KEY, "Workload Advisory", Advisory, WORKLOAD_ADVISORY_PATH, [],
      "application/json", "footballai.workload-advisory/v1")
    ensures NextItem(SMALLEST_BUILD, 2) == Item("legacy-player-summary", "Dashboard track summary", Summary,
      SUMMARY_ALIAS_PATH, [], "application/json", "footballai.track-summary/v1")
    ensures NextItem(SMALLEST_BUILD, 3) == Item("dashboard-workload-advisory", "Dashboard workload advisory", Advisory,
      ADVISORY_ALIAS_PATH, [], "application/json", "footballai.workload-advisory/v1")
  {
    assert |ADVISORY_KEY| != |SUMMARY_KEY|;
    TheLastPayloadOfAKey(SMALLEST_BUILD.entries, 0);
    TheLastPayloadOfAKey(SMALLEST_BUILD.entries, 1);
  }

  lemma TheSmallestBuildIsPublishable()
    ensures Publishable(SMALLEST_BUILD) && PathsOf(SMALLEST_BUILD) == FORCED_PATHS
  {
    hide SafeArtifactPath, NextItem;
    SmallestItems();
    TrackSummaryPathIsSafe();
    WorkloadAdvisoryPathIsSafe();
    SummaryAliasPathIsSafe();
    AdvisoryAliasPathIsSafe();
    LengthsOfTheForced();
    EveryBuildNeedsTheForcedPaths(SMALLEST_BUILD);
  }

  lemma LengthsOfTheForced()
    ensures |TRACK_SUMMARY_PATH| == 28 && |WORKLOAD_ADVISORY_PATH| == 32
    ensures |SUMMARY_ALIAS_PATH| == 38 && |ADVISORY_ALIAS_PATH| == 42
    ensures |SUMMARY_KEY| == 13 && |ADVISORY_KEY| == 17
    ensures |"legacy-player-summary"| == 21 && |"dashboard-workload-advisory"| == 27
    ensures |"Track Summary"| == 13 && |"Workload Advisory"| == 17
    ensures |"Dashboard track summary"| == 23 && |"Dashboard workload advisory"| == 27
  {
  }

  // -- the shipped adapters --------------------------------------------------

  const DOCUMENT_KEYS: seq<string> := [
    "team-summary", "track-summary", "track-detail", "workload-advisory", "analysis-diagnostics"]

  /** The five documents that both adapters return, from entry `first` on. */
  predicate EndsWithTheDocuments(build: Build, first: nat) {
    && |build.entries| == first + 5
    && (forall i :: 0 <= i < 5 ==>
          && build.entries[first + i].key == DOCUMENT_KEYS[i]
          && build.entries[first + i].payload.Document? && build.entries[first + i].payload.schema.Some?)
    && build.entries[first + 3].payload.Document? && build.entries[first + 3].payload.tracks.Some?
  }

  /** What the demonstration pipeline returns. */
  const DemoAdapter: Adapter := (build: Build) => EndsWithTheDocuments(build, 0)

  predicate IsGenerated(entry: Entry, id: string, name: string, path: string) {
    entry.payload.Generated? && entry.key == id && entry.payload.artifactId == id && entry.payload.name == name
    && entry.payload.path == path
  }

  /** What the V1-compatible pipeline returns: two files of its own come first. */
  const V1Adapter: Adapter := (build: Build) =>
    && EndsWithTheDocuments(build, 2)
    && IsGenerated(build.entries[0], "detections", "Cached detections", DETECTIONS_PATH)
    && IsGenerated(build.entries[1], "tracklets", "Temporary tracklets", TRACKLETS_PATH)

  const DETECTIONS_PATH := ARTIFACTS + "detections.parquet"
  const TRACKLETS_PATH := ARTIFACTS + "tracklets.parquet"
  const TEAM_SUMMARY_PATH := ARTIFACTS + "team-summary.json"
  const TRACK_DETAIL_PATH := ARTIFACTS + "track-detail.json"
  const DIAGNOSTICS_PATH := ARTIFACTS + "analysis-diagnostics.json"

  const DEMO_PATHS: set<string> := FORCED_PATHS + {TEAM_SUMMARY_PATH, TRACK_DETAIL_PATH, DIAGNOSTICS_PATH}
  const V1_PATHS: set<string> := DEMO_PATHS + {DETECTIONS_PATH, TRACKLETS_PATH}

  predicate Looks(item: Item, id: string, name: string, path: string) {
    item.Item? && item.artifactId == id && item.name == name && item.path == path
  }

  lemma ItemsOfTheDocuments(build: Build, first: nat)
    requires EndsWithTheDocuments(build, first)
    ensures Size(build) == first + 7
    ensures Looks(NextItem(build, first), "team-summary", "Team Summary", TEAM_SUMMARY_PATH)
    ensures Looks(NextItem(build, first + 1), "track-summary", "Track Summary", TRACK_SUMMARY_PATH)
    ensures Looks(NextItem(build, first + 2), "track-detail", "Track Detail", TRACK_DETAIL_PATH)
    ensures Looks(NextItem(build, first + 3), "workload-advisory", "Workload Advisory", WORKLOAD_ADVISORY_PATH)
    ensures Looks(NextItem(build, first + 4), "analysis-diagnostics", "Analysis Diagnostics", DIAGNOSTICS_PATH)
  {
    assert DOCUMENT_KEYS[0] == "team-summary" && DOCUMENT_KEYS[1] == "track-summary";
    assert DOCUMENT_KEYS[2] == "track-detail" && DOCUMENT_KEYS[3] == "workload-advisory";
    assert DOCUMENT_KEYS[4] == "analysis-diagnostics";
  }

  lemma AliasesOfTheDocuments(build: Build, first: nat)
    requires EndsWithTheDocuments(build, first)
    ensures Looks(NextItem(build, first + 5), "legacy-player-summary", "Dashboard track summary", SUMMARY_ALIAS_PATH)
    ensures Looks(
      NextItem(build, first + 6), "dashboard-workload-advisory", "Dashboard workload advisory", ADVISORY_ALIAS_PATH)
  {
    assert |DOCUMENT_KEYS[1]| == 13 && |DOCUMENT_KEYS[2]| == 12 && |DOCUMENT_KEYS[3]| == 17 && |DOCUMENT_KEYS[4]| == 20;
    TheLastPayloadOfAKey(build.entries, first + 1);
    TheLastPayloadOfAKey(build.entries, first + 3);
  }

  /** All that the items of the shipped adapters have to differ in. */
  lemma LengthsOfTheShipped()
    ensures |TEAM_SUMMARY_PATH| == 27 && |TRACK_DETAIL_PATH| == 27 && |DIAGNOSTICS_PATH| == 35
    ensures |DETECTIONS_PATH| == 28 && |TRACKLETS_PATH| == 27
    ensures TEAM_SUMMARY_PATH[11] == 'e' && TRACK_DETAIL_PATH[11] == 'r' && TRACK_DETAIL_PATH[15] == '-'
    ensures TEAM_SUMMARY_PATH[10] == 't' && TRACKLETS_PATH[11] == 'r' && TRACKLETS_PATH[15] == 'l'
    ensures DETECTIONS_PATH[10] == 'd' && TRACK_SUMMARY_PATH[10] == 't'
    ensures |"team-summary"| == 12 && |"track-detail"| == 12 && |"analysis-diagnostics"| == 20
    ensures |"detections"| == 10 && |"tracklets"| == 9
    ensures "team-summary"[1] == 'e' && "track-detail"[1] == 'r'
    ensures |"Team Summary"| == 12 && |"Track Detail"| == 12 && |"Analysis Diagnostics"| == 20
    ensures |"Cached detections"| == 17 && |"Temporary tracklets"| == 19
    ensures "Team Summary"[1] == 'e' && "Track Detail"[1] == 'r'
    ensures "Cached detections"[0] == 'C' && "Workload Advisory"[0] == 'W'
  {
  }

  /** The identity of each of the last seven items of a shipped adapter. */
  const DOCUMENT_IDS: seq<string> :=
    DOCUMENT_KEYS + ["legacy-player-summary", "dashboard-workload-advisory"]
  const DOCUMENT_NAMES: seq<string> := [
    "Team Summary", "Track Summary", "Track Detail", "Workload Advisory", "Analysis Diagnostics",
    "Dashboard track summary", "Dashboard workload advisory"]
  const DOCUMENT_PATHS: seq<string> := [
    TEAM_SUMMARY_PATH, TRACK_SUMMARY_PATH, TRACK_DETAIL_PATH, WORKLOAD_ADVISORY_PATH, DIAGNOSTICS_PATH,
    SUMMARY_ALIAS_PATH, ADVISORY_ALIAS_PATH]

  lemma DocumentIdsDiffer(i: nat, k: nat)
    requires i < k < 7
    ensures DOCUMENT_IDS[i] != DOCUMENT_IDS[k]
  {
    LengthsOfTheForced();
    LengthsOfTheShipped();
  }

  lemma DocumentNamesDiffer(i: nat, k: nat)
    requires i < k < 7
    ensures DOCUMENT_NAMES[i] != DOCUMENT_NAMES[k]
  {
    LengthsOfTheForced();
    LengthsOfTheShipped();
  }

  lemma DocumentPathsDiffer(i: nat, k: nat)
    requires i < k < 7
    ensures DOCUMENT_PATHS[i] != DOCUMENT_PATHS[k]
  {
    hide TRACK_SUMMARY_PATH, WORKLOAD_ADVISORY_PATH, SUMMARY_ALIAS_PATH, ADVISORY_ALIAS_PATH, TEAM_SUMMARY_PATH,
      TRACK_DETAIL_PATH, DIAGNOSTICS_PATH;
    LengthsOfTheForced();
    LengthsOfTheShipped();
  }

  lemma DocumentItemsLook(build: Build, first: nat, i: nat)
    requires EndsWithTheDocuments(build, first) && i < 7
    ensures Looks(NextItem(build, first + i), DOCUMENT_IDS[i], DOCUMENT_NAMES[i], DOCUMENT_PATHS[i])
  {
    hide NextItem, EndsWithTheDocuments, Looks;
    ItemsOfTheDocuments(build, first);
    AliasesOfTheDocuments(build, first);
  }

  lemma TheDocumentsDiffer(build: Build, first: nat, i: nat, k: nat)
    requires EndsWithTheDocuments(build, first) && first <= i < k < first + 7
    ensures Differ(NextItem(build, i), NextItem(build, k))
  {
    hide NextItem, EndsWithTheDocuments, DOCUMENT_IDS, DOCUMENT_NAMES, DOCUMENT_PATHS;
    DocumentItemsLook(build, first, i - first);
    DocumentItemsLook(build, first, k - first);
    DocumentIdsDiffer(i - first, k - first);
    DocumentNamesDiffer(i - first, k - first);
    DocumentPathsDiffer(i - first, k - first);
  }

  lemma DocumentPathsAreSafe()
    ensures SafeArtifactPath(TEAM_SUMMARY_PATH) && SafeArtifactPath(TRACK_DETAIL_PATH)
    ensures SafeArtifactPath(DIAGNOSTICS_PATH)
  {
    hide SafeArtifactPath;
    FlatPathsAreSafe("team-summary.json");
    FlatPathsAreSafe("track-detail.json");
    FlatPathsAreSafe("analysis-diagnostics.json");
  }

  lemma GeneratedPathsAreSafe()
    ensures SafeArtifactPath(DETECTIONS_PATH) && SafeArtifactPath(TRACKLETS_PATH)
  {
    hide SafeArtifactPath;
    FlatPathsAreSafe("detections.parquet");
    FlatPathsAreSafe("tracklets.parquet");
  }

  lemma TheDocumentsAreUsable(build: Build, first: nat, k: nat)
    requires EndsWithTheDocuments(build, first) && first <= k < first + 7
    ensures Usable(NextItem(build, k)) && NextItem(build, k).path in DEMO_PATHS
  {
    hide NextItem, EndsWithTheDocuments, SafeArtifactPath;
    ItemsOfTheDocuments(build, first);
    AliasesOfTheDocuments(build, first);
    DocumentPathsAreSafe();
    TrackSummaryPathIsSafe();
    WorkloadAdvisoryPathIsSafe();
    SummaryAliasPathIsSafe();
    AdvisoryAliasPathIsSafe();
  }

  /** The paths of the demonstration pipeline are always the same seven. */
  lemma DemoBuildsAreFixed(build: Build)
    requires DemoAdapter(build)
    ensures Publishable(build) && PathsOf(build) == DEMO_PATHS
  {
    hide NextItem, EndsWithTheDocuments, SafeArtifactPath, FORCED_PATHS;
    ItemsOfTheDocuments(build, 0);
    forall k | 0 <= k < Size(build) ensures Usable(NextItem(build, k)) && NextItem(build, k).path in DEMO_PATHS {
      TheDocumentsAreUsable(build, 0, k);
    }
    forall i, k | 0 <= i < k < Size(build) ensures Differ(NextItem(build, i), NextItem(build, k)) {
      TheDocumentsDiffer(build, 0, i, k);
    }
    EveryBuildNeedsTheForcedPaths(build);
    assert NextItem(build, 0).path in PathsOf(build) && NextItem(build, 2).path in PathsOf(build)
      && NextItem(build, 4).path in PathsOf(build);
  }

  /** And those of the V1-compatible pipeline the same nine. */
  lemma V1BuildsAreFixed(build: Build)
    requires V1Adapter(build)
    ensures Publishable(build) && PathsOf(build) == V1_PATHS
  {
    hide NextItem, EndsWithTheDocuments, SafeArtifactPath, FORCED_PATHS, DEMO_PATHS;
    GeneratedItems(build);
    GeneratedPathsAreSafe();
    forall k | 0 <= k < Size(build) ensures Usable(NextItem(build, k)) && NextItem(build, k).path in V1_PATHS {
      if k >= 2 { TheDocumentsAreUsable(build, 2, k); }
    }
    forall i, k | 0 <= i < k < Size(build) ensures Differ(NextItem(build, i), NextItem(build, k)) {
      if i >= 2 { TheDocumentsDiffer(build, 2, i, k); } else { GeneratedItemsDiffer(build, i, k); }
    }
    EveryBuildNeedsTheForcedPaths(build);
    ItemsOfTheDocuments(build, 2);
    assert NextItem(build, 0).path in PathsOf(build) && NextItem(build, 1).path in PathsOf(build)
      && NextItem(build, 2).path in PathsOf(build) && NextItem(build, 4).path in PathsOf(build)
      && NextItem(build, 6).path in PathsOf(build);
    V1PathsAre(PathsOf(build));
  }

  lemma V1PathsAre(paths: set<string>)
    requires FORCED_PATHS <= paths <= V1_PATHS
    requires TEAM_SUMMARY_PATH in paths && TRACK_DETAIL_PATH in paths && DIAGNOSTICS_PATH in paths
    requires DETECTIONS_PATH in paths && TRACKLETS_PATH in paths
    ensures paths == V1_PATHS
  {
    hide FORCED_PATHS;
  }

  lemma GeneratedItems(build: Build)
    requires V1Adapter(build)
    ensures Looks(NextItem(build, 0), "detections", "Cached detections", DETECTIONS_PATH)
    ensures Looks(NextItem(build, 1), "tracklets", "Temporary tracklets", TRACKLETS_PATH)
    ensures EndsWithTheDocuments(build, 2) && Size(build) == 9
  {
  }

  lemma GeneratedItemsDiffer(build: Build, i: nat, k: nat)
    requires V1Adapter(build) && i < 2 && i < k < 9
    ensures Differ(NextItem(build, i), NextItem(build, k))
  {
    hide NextItem, EndsWithTheDocuments;
    GeneratedItems(build);
    ItemsOfTheDocuments(build, 2);
    AliasesOfTheDocuments(build, 2);
    LengthsOfTheForced();
    LengthsOfTheShipped();
  }

  // -- whose run can complete, adapter by adapter ----------------------------

  /** With an adapter that always publishes the same paths, any one of them in the way is too many. */
  lemma FixedAdaptersHaveRoomIff(job: Job, adapter: Adapter, paths: set<string>, cell: Cell)
    requires exists build :: adapter(build)
    requires forall build :: adapter(build) ==> Publishable(build) && PathsOf(build) == paths
    ensures HasRoom(job, adapter, cell) <==>
      StagesAllowIt(cell.run) && !PlannedFailure(job, cell.run) && paths !! cell.files.Keys
  {
    hide Publishable, PathsOf, StagesAllowIt, PlannedFailure;
    var build :| adapter(build);
    if paths !! cell.files.Keys {
      assert Suits(adapter, build, cell.files);
    }
  }

  const AnyAdapter: Adapter := (build: Build) => true

  /** If the adapter may return anything, the two sources and their aliases have to be free, and that is enough. */
  lemma SomeAdapterHasRoomIff(job: Job, cell: Cell)
    ensures HasRoom(job, AnyAdapter, cell) <==>
      StagesAllowIt(cell.run) && !PlannedFailure(job, cell.run) && FORCED_PATHS !! cell.files.Keys
  {
    hide Publishable, PathsOf, StagesAllowIt, PlannedFailure;
    if HasRoom(job, AnyAdapter, cell) {
      var build :| Suits(AnyAdapter, build, cell.files);
      EveryBuildNeedsTheForcedPaths(build);
    } else if FORCED_PATHS !! cell.files.Keys {
      TheSmallestBuildIsPublishable();
      assert Suits(AnyAdapter, SMALLEST_BUILD, cell.files) || !StagesAllowIt(cell.run) || PlannedFailure(job, cell.run);
    }
  }

  function AnyDocument(key: string): Entry {
    Entry(key, Document(Some("footballai." + key), [], [], Some([])))
  }

  const DEMO_ENTRIES: seq<Entry> := [
    AnyDocument("team-summary"), AnyDocument("track-summary"), AnyDocument("track-detail"),
    AnyDocument("workload-advisory"), AnyDocument("analysis-diagnostics")]

  /** A run of the demonstration pipeline can still complete exactly when none of its seven files is there yet. */
  lemma DemoRunsCompleteIff(digest: Digest, job: Job, w: World)
    requires AtRest(job, w) && StagesAllowIt(w.cell.run) && !PlannedFailure(job, w.cell.run)
    requires w.cell.marked ==> Blind(job, w)
    ensures (exists events :: Offered(DemoAdapter, events) && Completed(Run(digest, job, w, events).cell.run))
      <==> DEMO_PATHS !! w.cell.files.Keys
  {
    hide AtRest, Offered, Run, Publishable, PathsOf, StagesAllowIt, PlannedFailure, Blind, DEMO_PATHS, HasRoom;
    assert DemoAdapter(Build(DEMO_ENTRIES));
    forall build | DemoAdapter(build) ensures Publishable(build) && PathsOf(build) == DEMO_PATHS {
      DemoBuildsAreFixed(build);
    }
    FixedAdaptersHaveRoomIff(job, DemoAdapter, DEMO_PATHS, w.cell);
    RunsCompleteIff(digest, job, DemoAdapter, w);
  }

  /** And a run of the V1-compatible one exactly when none of its nine files is. */
  lemma V1RunsCompleteIff(digest: Digest, job: Job, w: World)
    requires AtRest(job, w) && StagesAllowIt(w.cell.run) && !PlannedFailure(job, w.cell.run)
    requires w.cell.marked ==> Blind(job, w)
    ensures (exists events :: Offered(V1Adapter, events) && Completed(Run(digest, job, w, events).cell.run))
      <==> V1_PATHS !! w.cell.files.Keys
  {
    hide AtRest, Offered, Run, Publishable, PathsOf, StagesAllowIt, PlannedFailure, Blind, V1_PATHS, HasRoom;
    SomeV1Build();
    forall build | V1Adapter(build) ensures Publishable(build) && PathsOf(build) == V1_PATHS {
      V1BuildsAreFixed(build);
    }
    FixedAdaptersHaveRoomIff(job, V1Adapter, V1_PATHS, w.cell);
    RunsCompleteIff(digest, job, V1Adapter, w);
  }

  lemma SomeV1Build()
    ensures exists build :: V1Adapter(build)
  {
    var detections := Generated(
      "detections", "Cached detections", Other, DETECTIONS_PATH, [], "application/vnd.apache.parquet",
      "footballai.detections/v1");
    var tracklets := Generated(
      "tracklets", "Temporary tracklets", Tracks, TRACKLETS_PATH, [], "application/vnd.apache.parquet",
      "footballai.tracklets/v1");
    assert V1Adapter(Build([Entry("detections", detections), Entry("tracklets", tracklets)] + DEMO_ENTRIES));
  }

  // -- a worker that dies while publishing -----------------------------------

  /**
   * A worker that dies after writing a file that every build of the adapter needs leaves a run that can be delivered
   * again, as often as one likes, and can never complete.
   */
  lemma AnInterruptedPublicationNeverCompletes(
      digest: Digest, job: Job, adapter: Adapter, w: World, k: nat, events: seq<Event>)
    requires Invariant(job, w) && ReferencesAreIntact(digest, w) && !w.cell.run.status.Terminal()
    requires w.point.Publishes() && k < |w.point.references|
    requires forall build ::
      adapter(build) && Publishable(build) ==> w.point.references[k].relativePath in PathsOf(build)
    requires Offered(adapter, events)
    ensures AtRest(job, Step(digest, job, w, Crash))
    ensures !Completed(Run(digest, job, Step(digest, job, w, Crash), events).cell.run)
  {
    hide ValidRun, Invariant, Offered, Run, Publishable, PathsOf, StagesAllowIt, PlannedFailure, NextItem, Blind;
    var v := Step(digest, job, w, Crash);
    OutsideEventsKeepInvariant(digest, job, w, Crash);
    assert w.point.references[k].relativePath in v.cell.files by {
      assert Written(digest, w.cell.files, w.point.payloads, k, w.point.references[k]);
    }
    forall build ensures !Suits(adapter, build, v.cell.files) {
    }
    if Completed(Run(digest, job, v, events).cell.run) {
      CompletedRunsHadRoom(digest, job, adapter, v, events);
    }
  }

  /**
   * Every run that could complete can be left like that, by a crash right after its track summary is written and before
   * either alias is: no later delivery completes it, whatever its pipeline returns.
   */
  lemma EveryRunCanBeLeftUnable(digest: Digest, job: Job, adapter: Adapter, w: World) returns (events: seq<Event>)
    requires AtRest(job, w) && HasRoom(job, adapter, w.cell) && (w.cell.marked ==> Blind(job, w))
    ensures Offered(adapter, events) && AtRest(job, Run(digest, job, w, events))
    ensures var files := Run(digest, job, w, events).cell.files;
      TRACK_SUMMARY_PATH in files && SUMMARY_ALIAS_PATH !in files && ADVISORY_ALIAS_PATH !in files
    ensures forall later :: !Completed(Run(digest, job, Run(digest, job, w, events), later).cell.run)
  {
    hide ValidRun, Publishable, Invariant, Blind, Step, OnTrack, PlannedFailure, StagesAllowIt, Run;
    var build :| Suits(adapter, build, w.cell.files);
    var delivered := Step(digest, job, w, Deliver);
    DeliveriesAreOnTrack(digest, job, adapter, build, w);
    assert !delivered.point.Publishes() by { DeliveriesDoNotPublish(digest, job, w); }
    var k := TheSummaryIsWritten(build);
    var writing := DeliveriesReachEachWrite(digest, job, build, delivered, k + 1);
    events := [Deliver] + (writing + [Crash]);
    RunFromTheFront(digest, job, w, Deliver, writing + [Crash]);
    RunConcatenates(digest, job, delivered, writing, [Crash]);
    RunOnce(digest, job, Run(digest, job, delivered, writing), Crash);
    CrashesLeaveTheSummary(digest, job, build, Run(digest, job, delivered, writing), k);
  }

  lemma RunOnce(digest: Digest, job: Job, w: World, e: Event)
    ensures Run(digest, job, w, [e]) == Step(digest, job, w, e)
  {
    assert Run(digest, job, w, []) == w && [e][..0] == [];
  }

  lemma CrashesLeaveTheSummary(digest: Digest, job: Job, build: Build, w: World, k: nat)
    requires OnTrack(digest, job, build, w) && w.point.Publishing? && |w.point.references| == k + 1
    requires k < |build.entries| && NextItem(build, k).Item? && NextItem(build, k).path == TRACK_SUMMARY_PATH
    ensures var v := Step(digest, job, w, Crash);
      && AtRest(job, v)
      && TRACK_SUMMARY_PATH in v.cell.files
      && SUMMARY_ALIAS_PATH !in v.cell.files && ADVISORY_ALIAS_PATH !in v.cell.files
      && forall later :: !Completed(Run(digest, job, v, later).cell.run)
  {
    hide ValidRun, Publishable, Run, Blind, Prefix, StartedBefore, SafeArtifactPath, ForcedPartial, NextItem;
    var v, n := Step(digest, job, w, Crash), |build.entries|;
    AliasesHaveTheirPaths(build);
    assert Written(digest, w.cell.files, build, k, w.point.references[k]);
    assert NextItem(build, n).path !in w.cell.files && NextItem(build, n + 1).path !in w.cell.files;
    forall other | AnyAdapter(other) && Publishable(other)
      ensures w.point.references[k].relativePath in PathsOf(other)
    {
      EveryBuildNeedsTheForcedPaths(other);
    }
    forall later ensures !Completed(Run(digest, job, v, later).cell.run) {
      AnInterruptedPublicationNeverCompletes(digest, job, AnyAdapter, w, k, later);
    }
    AnInterruptedPublicationNeverCompletes(digest, job, AnyAdapter, w, k, []);
  }

  lemma AliasesHaveTheirPaths(build: Build)
    requires Publishable(build)
    ensures var n := |build.entries|;
      && NextItem(build, n).Item? && NextItem(build, n).path == SUMMARY_ALIAS_PATH
      && NextItem(build, n + 1).Item? && NextItem(build, n + 1).path == ADVISORY_ALIAS_PATH
  {
    hide SafeArtifactPath;
    ItemsAreUsable(build, |build.entries|);
    ItemsAreUsable(build, |build.entries| + 1);
  }

  // -- one run, before and after such a crash --------------------------------

  const EXAMPLE_JOB := Job("run", 1, DemoFast)

  function SucceededAtOnce(s: Stage): Stage {
    SucceededStage(RunningStage(s, 0), 0, map[])
  }

  /** All nine stages of a demonstration run have succeeded. */
  function ExampleRun(): AnalysisRun {
    var queued := Coordinator.QueuedStages(1, "demo_fast");
    AnalysisRun(
      "analysis", "run", 1, None, Running, Synthetic, InputReference("run-input://source.mp4", "digest", "video/mp4"),
      CodeReference("repository", "revision", false), "demo_fast/1.0.0", map[], [], [],
      seq(|queued|, i requires 0 <= i < |queued| => SucceededAtOnce(queued[i])), 0, Some(0), None, None, None, None,
      CONTRACT_VERSION)
  }

  function ExampleWorld(files: Files): World {
    World(Cell(ExampleRun(), files, false), ExampleRun(), 0, Idle)
  }

  /** The worker died after its first file of the four: what it left is valid, and was a run like any other. */
  const CRASHED_WORLD := ExampleWorld(map[TRACK_SUMMARY_PATH := []])

  lemma ExampleStagesFit()
    ensures |ExampleRun().stages| == 9 && UniqueStages(ExampleRun().stages)
    ensures forall s :: s in ExampleRun().stages ==>
      ValidStage(s) && FinishedStage(s) && s.startedAt == Some(0) && s.attempt == 1 && s.producedArtifactIds == []
  {
    hide StageTitle, StageText, Coordinator.QueuedStages, Coordinator.STAGE_ORDER, AllDistinct;
    var stages := ExampleRun().stages;
    assert |Coordinator.STAGE_ORDER| == 9 by { TheStagesAreNine(); }
    Coordinator.StageTextsDiffer();
    forall i | 0 <= i < |stages|
      ensures stages[i].id == StageText(Coordinator.STAGE_ORDER[i]) && stages[i].name == Coordinator.STAGE_ORDER[i]
    {
    }
    assert Distinct(StageIds(stages)) && Distinct(StageNames(stages));
  }

  lemma TheStagesAreNine()
    ensures |Coordinator.STAGE_ORDER| == 9
  {
  }

  lemma TheExampleIsValid()
    ensures ValidRun(ExampleRun())
  {
    hide ValidStage, UniqueStages, FinishedStage;
    ExampleStagesFit();
  }

  lemma TheExampleIsAtRest(files: Files)
    ensures AtRest(EXAMPLE_JOB, ExampleWorld(files))
    ensures StagesAllowIt(ExampleRun()) && !PlannedFailure(EXAMPLE_JOB, ExampleRun())
  {
    hide ValidRun, ValidStage, UniqueStages;
    ExampleStagesFit();
    TheExampleIsValid();
    var stages := ExampleRun().stages;
    assert forall i :: 0 <= i < |stages| ==> stages[i] in stages;
  }

  /** Delivered again, it goes through all of its stages and never completes; without that file, it can. */
  lemma TheCrashedWorldNeverCompletes(digest: Digest, later: seq<Event>) returns (otherwise: seq<Event>)
    ensures AtRest(EXAMPLE_JOB, CRASHED_WORLD)
    ensures Step(digest, EXAMPLE_JOB, CRASHED_WORLD, Deliver).point == AtStage(0, None)
    ensures !Completed(Run(digest, EXAMPLE_JOB, CRASHED_WORLD, later).cell.run)
    ensures Completed(Run(digest, EXAMPLE_JOB, ExampleWorld(map[]), otherwise).cell.run)
  {
    hide ValidRun, AtRest, HasRoom, StagesAllowIt, PlannedFailure, Run;
    TheExampleIsAtRest(map[]);
    TheExampleIsAtRest(CRASHED_WORLD.cell.files);
    SomeAdapterHasRoomIff(EXAMPLE_JOB, CRASHED_WORLD.cell);
    SomeAdapterHasRoomIff(EXAMPLE_JOB, ExampleWorld(map[]).cell);
    assert TRACK_SUMMARY_PATH in CRASHED_WORLD.cell.files;
    if Completed(Run(digest, EXAMPLE_JOB, CRASHED_WORLD, later).cell.run) {
      CompletedRunsHadRoom(digest, EXAMPLE_JOB, AnyAdapter, CRASHED_WORLD, later);
    }
    otherwise := RunsWithRoomComplete(digest, EXAMPLE_JOB, AnyAdapter, ExampleWorld(map[]));
  }

  // -- a request that comes too late does not prevent completion -------------

  /**
   * For every run that the coordinator creates: a request past the last checkpoint leaves a run at rest as able to
   * complete as it was.
   */
  lemma LateRequestsLeaveRunsAbleToComplete(
      digest: Digest, job: Job, adapter: Adapter, w: World, before: seq<Event>) returns (after: seq<Event>)
    requires Created(w) && Coordinated(w.cell.run)
    requires var v := Run(digest, job, w, before);
      v.point.Idle? && !v.cell.run.status.Terminal() && PastTheLastCheckpoint(v) && HasRoom(job, adapter, v.cell)
    ensures Offered(adapter, after)
    ensures Completed(
      Run(digest, job, Step(digest, job, Run(digest, job, w, before), RequestCancellation), after).cell.run)
  {
    hide ValidRun, Invariant, ReferencesAreIntact, CheckpointAhead, Blind, StagesAllowIt, PlannedFailure, Run;
    var v := Run(digest, job, w, before);
    CoordinatedHistoriesFit(digest, job, w, before);
    RequestsAreMarked(digest, job, v);
    after := RunsWithRoomComplete(digest, job, adapter, Step(digest, job, v, RequestCancellation));
  }

  /** And a delivery that has passed the last checkpoint goes on to complete in spite of the request. */
  lemma LateRequestsDoNotStopTheDelivery(
      digest: Digest, job: Job, build: Build, w: World, before: seq<Event>) returns (after: seq<Event>)
    requires Created(w) && Coordinated(w.cell.run)
    requires var v := Run(digest, job, w, before);
      OnTrack(digest, job, build, v) && !v.point.Publishes() && PastTheLastCheckpoint(v)
    ensures forall i :: 0 <= i < |after| ==> Returns(build, after[i])
    ensures Completed(
      Run(digest, job, Step(digest, job, Run(digest, job, w, before), RequestCancellation), after).cell.run)
  {
    hide ValidRun, Invariant, ReferencesAreIntact, CheckpointAhead, Blind, StagesAllowIt, PlannedFailure, Run,
      Publishable, NextItem;
    var v := Run(digest, job, w, before);
    CoordinatedHistoriesFit(digest, job, w, before);
    RequestsAreMarked(digest, job, v);
    after := DeliveriesOnTrackComplete(digest, job, build, Step(digest, job, v, RequestCancellation));
  }
}
