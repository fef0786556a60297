/** The executor as the worker runs it: a loop over the stages, with saves to a shared store and four exits. */
module ExecutorRuntime {
  import opened Common
  import opened RunContract
  import opened Lifecycle
  import opened RunStore
  import opened Executor
  import opened ExecutorSteps
  import opened ExecutorHistories

  function View(s: Store, id: string): Cell
    requires id in s.runs
  {
    Cell(s.runs[id], FilesOf(s, id), id in s.cancelMarks)
  }

  lemma SavingIsSeen(digest: Digest, s: Store, run: AnalysisRun)
    requires run.runId in s.runs
    ensures SaveRefusal(digest, s, run).None? <==> SaveAllowed(digest, View(s, run.runId), run)
    ensures View(WithRun(s, run), run.runId) == View(s, run.runId).(run := run)
  {
    SaveFollowsTheLifecycle(digest, s, run);
  }

  /** How the body of the `try` ended. */
  datatype Stop =
    | Complete(status: RunStatus)
    | CancellationObserved(active: int)
    | ExecutionFailed(active: int, failure: Failure)
    | Died
  {
    /** The point of the machine that this exit stands for. */
    ghost function Point(): Point {
      match this
      case Complete(status) => Finished(Returned(status))
      case CancellationObserved(active) => Cancelling(active)
      case ExecutionFailed(active, failure) => Failing(active, failure)
      case Died => Idle
    }
  }

  /** For the steps that ask nothing of the pipeline. */
  const QUIET := Answers(Built(Build([])), None)

  class AnalysisExecutor {
    const repository: LocalAnalysisRunStore
    var clock: Instant
    /** The machine that this delivery follows, and the events that took it there. */
    ghost var world: World
    ghost var events: seq<Event>

    constructor (repository: LocalAnalysisRunStore, clock: Instant, ghost world: World)
      ensures this.repository == repository && this.clock == clock && this.world == world && events == []
    {
      this.repository, this.clock, this.world, this.events := repository, clock, world, [];
    }

    ghost predicate Sees(job: Job, origin: World)
      reads this, repository
    {
      && job.runId in repository.runs
      && world.cell == View(repository.State(), job.runId)
      && world.cell.run.runId == job.runId && world.local.runId == job.runId
      && world == Run(repository.digest, job, origin, events)
    }

    ghost predicate Follows(job: Job, origin: World)
      reads this, repository
    {
      Sees(job, origin) && world.clock == clock
    }

    ghost method Note(job: Job, origin: World, e: Event)
      requires world == Run(repository.digest, job, origin, events)
      modifies this`world, this`events
      ensures world == Step(repository.digest, job, old(world), e)
      ensures world == Run(repository.digest, job, origin, events)
    {
      world := Step(repository.digest, job, world, e);
      events := events + [e];
      assert events[..|events| - 1] == old(events);
    }

    /** A reading of the clock, which never goes back. */
    method Now() returns (now: Instant)
      modifies this`clock
      ensures now == clock && old(clock) <= clock
    {
      now :| clock <= now;
      clock := now;
    }

    method OthersCancel(job: Job, ghost origin: World)
      requires Follows(job, origin)
      modifies this`world, this`events, repository
      ensures Follows(job, origin) && world.local == old(world.local)
      ensures world.point == old(world.point) && world.cell.files == old(world.cell.files)
    {
      repository.RequestCancellation(job.runId);
      Note(job, origin, RequestCancellation);
    }

    method OthersEnd(job: Job, ghost origin: World)
      requires Follows(job, origin)
      modifies this`world, this`events, repository
      ensures Follows(job, origin) && world.local == old(world.local)
      ensures world.point == old(world.point) && world.cell.files == old(world.cell.files)
    {
      hide ValidRun, SaveAllowed, SaveRefusal;
      var run: AnalysisRun := *;
      if run.runId == job.runId && EndsQueuedRecord(run) {
        SavingIsSeen(repository.digest, repository.State(), run);
        var refusal := repository.Save(run);
        Note(job, origin, EndElsewhere(run));
      }
    }

    /** Between two accesses other clients act on the store, and the worker may die. */
    method Meanwhile(job: Job, ghost origin: World) returns (alive: bool)
      requires Follows(job, origin)
      modifies this`world, this`events, repository
      ensures Follows(job, origin) && world.local == old(world.local)
      ensures world.point == if alive then old(world.point) else Idle
      ensures world.cell.files == old(world.cell.files)
    {
      hide ValidRun, SaveAllowed, WorkStep, View;
      if * {
        OthersCancel(job, origin);
      }
      if * {
        OthersEnd(job, origin);
      }
      alive := *;
      if !alive {
        Note(job, origin, Crash);
      }
    }

    /** Saves a record if it could be built at all. */
    method TrySave(job: Job, ghost origin: World, built: Result<AnalysisRun, ContractError>) returns (saved: bool)
      requires Sees(job, origin) && (built.Ok? ==> built.value.runId == job.runId)
      modifies repository
      ensures saved <==> built.Ok? && SaveAllowed(repository.digest, world.cell, built.value)
      ensures job.runId in repository.runs
      ensures View(repository.State(), job.runId) ==
        if saved then world.cell.(run := built.value) else world.cell
    {
      if built.Err? {
        return false;
      }
      SavingIsSeen(repository.digest, repository.State(), built.value);
      var refusal := repository.Save(built.value);
      return refusal.None?;
    }

    /** A step of the machine that saves a record. */
    method SaveStep(
        job: Job, ghost origin: World, built: Result<AnalysisRun, ContractError>, ghost e: Event,
        ghost next: Point, ghost refused: Point)
      returns (saved: bool)
      requires Sees(job, origin) && (built.Ok? ==> built.value.runId == job.runId)
      requires e.Work? && e.end == clock
      requires Step(repository.digest, job, world, e)
        == SaveOr(repository.digest, world.(clock := clock), built, next, refused)
      modifies this`world, this`events, repository
      ensures Follows(job, origin)
      ensures saved ==> built.Ok? && world.point == next && world.local == built.value
      ensures !saved ==> world.point == refused && world.local == old(world.local)
    {
      hide ValidRun, SaveAllowed, Step, View;
      saved := TrySave(job, origin, built);
      Note(job, origin, e);
    }

    /** The part of a delivery before the `try`: a queued run is cancelled or started. */
    method Begin(job: Job, ghost origin: World, run: AnalysisRun)
      returns (started: Result<AnalysisRun, Option<Outcome>>)
      requires Follows(job, origin) && world.point == Claimed && world.local == run
      modifies this, repository
      ensures Follows(job, origin)
      ensures started.Ok? ==> world.point == AtStage(0, None) && world.local == started.value
      ensures started.Err? ==> world.point == if started.error.Some? then Finished(started.error.value) else Idle
    {
      hide ValidRun, SaveOr, View;
      var alive := Meanwhile(job, origin);
      if !alive { return Err(None); }
      var requested := Checkpoint(job, origin);
      alive := Meanwhile(job, origin);
      if !alive { return Err(None); }
      var end := Now();
      if requested {
        var built := Cancel(run, "Cancelled before execution.", run.stages, end);
        var saved := SaveStep(
          job, origin, built, Work(end, end, QUIET), Finished(Returned(Cancelled)), Finished(Raised));
        return Err(Some(if saved then Returned(Cancelled) else Raised));
      }
      var built := Start(run, end);
      var saved := SaveStep(job, origin, built, Work(end, end, QUIET), AtStage(0, None), Finished(Raised));
      if !saved { return Err(Some(Raised)); }
      return Ok(built.value);
    }

    /** Reads the mark of a claimed run. */
    method Checkpoint(job: Job, ghost origin: World) returns (requested: bool)
      requires Follows(job, origin) && world.point == Claimed
      modifies this`world, this`events
      ensures Follows(job, origin) && world.local == old(world.local)
      ensures world.point == if requested then CancellingQueued else Starting
    {
      requested := repository.CancellationRequested(job.runId);
      Note(job, origin, Work(clock, clock, QUIET));
    }

    // -- the stages ----------------------------------------------------------

    /** The first checkpoint of a stage, and the planned failure of the test profile. */
    method FirstCheckpoint(job: Job, ghost origin: World, index: nat, build: Option<Build>) returns (stop: Option<Stop>)
      requires Follows(job, origin) && world.point == AtStage(index, build) && index < |world.local.stages|
      requires !Done(world.local.stages[index]) && !Skippable(job, world.local.stages[index])
      modifies this`world, this`events
      ensures Follows(job, origin) && world.local == old(world.local)
      ensures world.point == if stop.None? then Checked(index, build) else stop.value.Point()
    {
      hide ValidRun, SaveOr;
      var requested := repository.CancellationRequested(job.runId);
      Note(job, origin, Work(clock, clock, QUIET));
      if requested {
        return Some(CancellationObserved(index));
      }
      if job.profile.TestFail? && job.attempt == 1 && index == 2 {
        return Some(ExecutionFailed(index, TEST_FAILURE));
      }
      return None;
    }

    /** What the pipeline adapter answers. It asks for the cancellation mark itself. */
    method BuildArtifacts(job: Job) returns (outcome: BuildOutcome)
      ensures outcome.BuildCancelled? ==> job.runId in repository.cancelMarks
    {
      outcome := *;
      if outcome.BuildCancelled? {
        var requested := repository.CancellationRequested(job.runId);
        if !requested {
          outcome := BuildRaised(UNEXPECTED);
        }
      }
    }

    /** From the running stage to its second checkpoint, with the pipeline on the way where it belongs. */
    method SecondCheckpoint(job: Job, ghost origin: World, run: AnalysisRun, index: nat, build: Option<Build>)
      returns (stop: Option<Stop>, built: Option<Build>)
      requires Follows(job, origin) && world.point == InStage(index, build) && world.local == run
      requires index < |run.stages|
      modifies this`world, this`events, repository
      ensures Follows(job, origin) && world.local == run
      ensures world.point == if stop.None? then PastCheckpoint(index, built) else stop.value.Point()
    {
      hide ValidRun, SaveOr, Step;
      built := build;
      var outcome := Built(Build([]));
      if BuildsHere(job, run.stages[index]) {
        outcome := BuildArtifacts(job);
        if !outcome.Built? {
          LoopSteps(repository.digest, job, world, clock, clock, Answers(outcome, None));
          Note(job, origin, Work(clock, clock, Answers(outcome, None)));
          stop := Some(
            if outcome.BuildRaised? then ExecutionFailed(index, outcome.failure) else CancellationObserved(index));
          return;
        }
        built := Some(outcome.build);
      }
      var alive := Meanwhile(job, origin);
      if !alive { return Some(Died), built; }
      var requested := repository.CancellationRequested(job.runId);
      LoopSteps(repository.digest, job, world, clock, clock, Answers(outcome, None));
      Note(job, origin, Work(clock, clock, Answers(outcome, None)));
      stop := if requested then Some(CancellationObserved(index)) else None;
    }

    method SaveStages(
        job: Job, ghost origin: World, run: AnalysisRun, index: nat, stage: Stage, ghost e: Event, ghost next: Point)
      returns (stop: Option<Stop>, saved: AnalysisRun)
      requires Sees(job, origin) && world.local == run && index < |run.stages| && e.Work? && e.end == clock
      requires Step(repository.digest, job, world, e) == SaveOr(
        repository.digest, world.(clock := clock), WithStages(run, run.stages[index := stage]), next,
        Failing(index, UNEXPECTED))
      modifies this`world, this`events, repository
      ensures Follows(job, origin) && world.local == saved
      ensures world.point == if stop.None? then next else stop.value.Point()
      ensures stop.None? ==> saved.stages == run.stages[index := stage]
    {
      hide ValidRun, SaveOr, Step, View;
      var built := WithStages(run, run.stages[index := stage]);
      var done := SaveStep(job, origin, built, e, next, Failing(index, UNEXPECTED));
      if done {
        return None, built.value;
      }
      return Some(ExecutionFailed(index, UNEXPECTED)), run;
    }

    /** One round of the stage loop. */
    method RunStage(job: Job, ghost origin: World, run: AnalysisRun, index: nat, build: Option<Build>)
      returns (stop: Option<Stop>, saved: AnalysisRun, built: Option<Build>)
      requires Follows(job, origin) && world.point == AtStage(index, build) && world.local == run
      requires index < |run.stages|
      modifies this, repository
      ensures Follows(job, origin)
      ensures stop.None? ==> world.local == saved && world.point == AtStage(index + 1, built)
      ensures stop.None? ==> |saved.stages| == |run.stages| && saved.stages[index + 1..] == run.stages[index + 1..]
      ensures stop.Some? ==> world.point == stop.value.Point()
    {
      hide ValidRun, SaveOr, View, WithStages, Step;
      var stage := run.stages[index];
      saved, built := run, build;
      if Done(stage) {
        LoopSteps(repository.digest, job, world, clock, clock, QUIET);
        Note(job, origin, Work(clock, clock, QUIET));
        return None, saved, built;
      }
      if Skippable(job, stage) {
        var now := Now();
        LoopSteps(repository.digest, job, world, now, now, QUIET);
        stop, saved := SaveStages(
          job, origin, run, index, SkippedStage(stage, now), Work(now, now, QUIET), AtStage(index + 1, build));
        return;
      }
      var alive := Meanwhile(job, origin);
      if !alive { return Some(Died), saved, built; }
      stop := FirstCheckpoint(job, origin, index, build);
      if stop.Some? { return; }
      stop, saved, built := WorkOnStage(job, origin, run, index, build);
    }

    /** The rest of the round, once the first checkpoint let the stage begin. */
    method WorkOnStage(job: Job, ghost origin: World, run: AnalysisRun, index: nat, build: Option<Build>)
      returns (stop: Option<Stop>, saved: AnalysisRun, built: Option<Build>)
      requires Follows(job, origin) && world.point == Checked(index, build) && world.local == run
      requires index < |run.stages|
      modifies this, repository
      ensures Follows(job, origin)
      ensures stop.None? ==> world.local == saved && world.point == AtStage(index + 1, built)
      ensures stop.None? ==> |saved.stages| == |run.stages| && saved.stages[index + 1..] == run.stages[index + 1..]
      ensures stop.Some? ==> world.point == stop.value.Point()
    {
      hide ValidRun, SaveOr, View, WithStages;
      saved, built := run, build;
      var alive := Meanwhile(job, origin);
      if !alive { return Some(Died), saved, built; }
      var now := Now();
      stop, saved := SaveStages(
        job, origin, run, index, RunningStage(run.stages[index], now), Work(now, now, QUIET), InStage(index, build));
      if stop.Some? { return; }
      alive := Meanwhile(job, origin);
      if !alive { return Some(Died), saved, built; }
      stop, built := SecondCheckpoint(job, origin, saved, index, build);
      if stop.Some? { return; }
      stop, saved := EndStage(job, origin, saved, index, built);
    }

    /** The metrics of a finished stage, from what the pipeline reported. Unreadable reports raise. */
    method StageResult() returns (metrics: Option<map<string, Json>>)
    {
      metrics := *;
    }

    /** Past the second checkpoint: the stage succeeds unless its metrics cannot be read. */
    method EndStage(job: Job, ghost origin: World, run: AnalysisRun, index: nat, build: Option<Build>)
      returns (stop: Option<Stop>, saved: AnalysisRun)
      requires Follows(job, origin) && world.point == PastCheckpoint(index, build) && world.local == run
      requires index < |run.stages|
      modifies this, repository
      ensures Follows(job, origin)
      ensures stop.None? ==> world.local == saved && world.point == AtStage(index + 1, build)
      ensures stop.None? ==> |saved.stages| == |run.stages| && saved.stages[index + 1..] == run.stages[index + 1..]
      ensures stop.Some? ==> world.point == stop.value.Point()
    {
      hide ValidRun, SaveOr, View, WithStages, Step;
      saved := run;
      var alive := Meanwhile(job, origin);
      if !alive { return Some(Died), saved; }
      var metrics := StageResult();
      var now := Now();
      var answers := Answers(Built(Build([])), metrics);
      LoopSteps(repository.digest, job, world, now, now, answers);
      if metrics.None? {
        Note(job, origin, Work(now, now, answers));
        return Some(ExecutionFailed(index, UNEXPECTED)), saved;
      }
      stop, saved := SaveStages(
        job, origin, run, index, SucceededStage(run.stages[index], now, metrics.value), Work(now, now, answers),
        AtStage(index + 1, build));
    }

    // -- the publication -----------------------------------------------------

    /** Writes one artifact once; any refusal raises. */
    method WriteItem(job: Job, ghost origin: World, build: Build, references: seq<ArtifactReference>)
      returns (reference: Option<ArtifactReference>)
      requires Follows(job, origin) && world.point == Publishing(build, references)
      requires |references| < Size(build)
      modifies this`world, this`events, repository
      ensures Follows(job, origin) && world.local == old(world.local)
      ensures world.point ==
        if reference.Some? then Publishing(build, references + [reference.value])
        else Failing(LastIndex(world.local), UNEXPECTED)
    {
      hide ValidRun, SaveOr, CompletedRun, VerifyArtifacts, SafeArtifactPath, NextItem;
      var item := NextItem(build, |references|);
      if item.Unusable? {
        Note(job, origin, Work(clock, clock, QUIET));
        return None;
      }
      var written := repository.WriteArtifact(
        job.runId, item.artifactId, item.name, item.category, item.path, item.content, item.mediaType,
        Some(item.schemaVersion));
      Note(job, origin, Work(clock, clock, QUIET));
      return if written.Ok? then Some(written.value) else None;
    }

    /** Writes all payloads and the two aliases, reads everything back, and saves the completed record. */
    method Publish(job: Job, ghost origin: World, run: AnalysisRun, build: Build) returns (stop: Stop)
      requires Follows(job, origin) && world.point == Publishing(build, []) && world.local == run
      modifies this, repository
      ensures Follows(job, origin) && world.point == stop.Point()
    {
      hide ValidRun, View;
      var references: seq<ArtifactReference> := [];
      while |references| < Size(build)
        invariant Follows(job, origin) && world.point == Publishing(build, references) && world.local == run
        invariant |references| <= Size(build)
        decreases Size(build) - |references|
      {
        var alive := Meanwhile(job, origin);
        if !alive { return Died; }
        var reference := WriteItem(job, origin, build, references);
        if reference.None? {
          return ExecutionFailed(LastIndex(run), UNEXPECTED);
        }
        references := references + [reference.value];
      }
      var alive := Meanwhile(job, origin);
      if !alive { return Died; }
      stop := Finish(job, origin, run, build, references);
    }

    /** Reads every artifact back, loads the run again, and saves it completed. */
    method Finish(
        job: Job, ghost origin: World, run: AnalysisRun, build: Build, references: seq<ArtifactReference>)
      returns (stop: Stop)
      requires Follows(job, origin) && world.point == Publishing(build, references) && world.local == run
      requires |references| == Size(build)
      modifies this, repository
      ensures Follows(job, origin) && world.point == stop.Point()
    {
      hide ValidRun, SaveOr, CompletedRun, VerifyArtifacts;
      var intact := repository.ArtifactsAreIntact(job.runId, references);
      Note(job, origin, Work(clock, clock, QUIET));
      if !intact {
        return ExecutionFailed(LastIndex(run), INTEGRITY_FAILURE);
      }
      var alive := Meanwhile(job, origin);
      if !alive { return Died; }
      var current := LoadAgain(job, origin);
      alive := Meanwhile(job, origin);
      if !alive { return Died; }
      stop := SaveCompleted(job, origin, current, build, references);
    }

    /** Loads the run into the memory of the worker. */
    method LoadAgain(job: Job, ghost origin: World) returns (current: AnalysisRun)
      requires Follows(job, origin)
      requires world.point.Verified? || world.point.Cancelling?
      modifies this`world, this`events
      ensures Follows(job, origin) && world.local == current
      ensures world.point == match old(world.point)
        case Verified(build, references) => Completing(build, references)
        case Cancelling(active) => RecordingCancel(active)
    {
      hide ValidRun;
      var loaded := repository.Load(job.runId);
      current := loaded.value;
      Note(job, origin, Work(clock, clock, QUIET));
    }

    method SaveCompleted(
        job: Job, ghost origin: World, current: AnalysisRun, build: Build, references: seq<ArtifactReference>)
      returns (stop: Stop)
      requires Follows(job, origin) && world.point == Completing(build, references) && world.local == current
      modifies this, repository
      ensures Follows(job, origin) && world.point == stop.Point()
    {
      hide ValidRun, SaveOr, CompletedRun, View, Step;
      var end := Now();
      var completed := CompletedRun(current, references, end);
      EndSteps(repository.digest, job, world, end, end, QUIET);
      BuiltRunsKeepTheirId(current, references, end, 0, UNEXPECTED, end);
      var status := if completed.Ok? then completed.value.status else Failed;
      var saved := SaveStep(
        job, origin, completed, Work(end, end, QUIET), Finished(Returned(status)),
        Failing(LastIndex(current), UNEXPECTED));
      return if saved then Complete(status) else ExecutionFailed(LastIndex(current), UNEXPECTED);
    }

    // -- the exits -----------------------------------------------------------

    /** `None` when the worker died on the way out. */
    method ExitCancelled(job: Job, ghost origin: World, active: int) returns (outcome: Option<Outcome>)
      requires Follows(job, origin) && world.point == Cancelling(active)
      modifies this, repository
      ensures Follows(job, origin)
      ensures world.point == if outcome.Some? then Finished(outcome.value) else Idle
    {
      hide ValidRun, SaveOr, CancelledRun, View, Step;
      var current := LoadAgain(job, origin);
      var alive := Meanwhile(job, origin);
      if !alive { return None; }
      var now := Now();
      EndSteps(repository.digest, job, world, now, now, QUIET);
      var built := CancelledRun(current, active, now, now);
      BuiltRunsKeepTheirId(current, [], now, active, UNEXPECTED, now);
      var saved := SaveStep(
        job, origin, built, Work(now, now, QUIET), Finished(Returned(Cancelled)), Finished(Raised));
      return Some(if saved then Returned(Cancelled) else Raised);
    }

    method ExitFailed(job: Job, ghost origin: World, active: int, failure: Failure) returns (outcome: Option<Outcome>)
      requires Follows(job, origin) && world.point == Failing(active, failure)
      modifies this, repository
      ensures Follows(job, origin)
      ensures world.point == if outcome.Some? then Finished(outcome.value) else Idle
    {
      hide ValidRun, SaveOr, FailedRun, Step;
      var loaded := repository.Load(job.runId);
      var current := loaded.value;
      EndSteps(repository.digest, job, world, clock, clock, QUIET);
      Note(job, origin, Work(clock, clock, QUIET));
      if current.status.Terminal() {
        return Some(Returned(current.status));
      }
      var alive := Meanwhile(job, origin);
      if !alive { return None; }
      var now := Now();
      EndSteps(repository.digest, job, world, now, now, QUIET);
      var built := FailedRun(current, active, failure, now, now);
      BuiltRunsKeepTheirId(current, [], now, active, failure, now);
      var saved := SaveStep(job, origin, built, Work(now, now, QUIET), Finished(Returned(Failed)), Finished(Raised));
      return Some(if saved then Returned(Failed) else Raised);
    }

    // -- a delivery ----------------------------------------------------------

    /** The body of the `try`. */
    method Attempt(job: Job, ghost origin: World, started: AnalysisRun) returns (stop: Stop)
      requires Follows(job, origin) && world.point == AtStage(0, None) && world.local == started
      modifies this, repository
      ensures Follows(job, origin) && world.point == stop.Point()
    {
      hide ValidRun, View, SaveOr;
      var run, build: Option<Build> := started, None;
      for index := 0 to |started.stages|
        invariant Follows(job, origin) && world.point == AtStage(index, build) && world.local == run
        invariant |run.stages| == |started.stages| && run.stages[index..] == started.stages[index..]
      {
        assert run.stages[index] == run.stages[index..][0];
        var stopped, saved, built := RunStage(job, origin, run, index, build);
        if stopped.Some? {
          return stopped.value;
        }
        assert run.stages[index + 1..] == run.stages[index..][1..];
        assert started.stages[index + 1..] == started.stages[index..][1..];
        run, build := saved, built;
      }
      var alive := Meanwhile(job, origin);
      if !alive { return Died; }
      stop := BuildAndPublish(job, origin, run, build);
    }

    method BuildAndPublish(job: Job, ghost origin: World, run: AnalysisRun, build: Option<Build>) returns (stop: Stop)
      requires Follows(job, origin) && world.point == AtStage(|run.stages|, build) && world.local == run
      modifies this, repository
      ensures Follows(job, origin) && world.point == stop.Point()
    {
      hide ValidRun, SaveOr;
      if build.Some? {
        Note(job, origin, Work(clock, clock, QUIET));
        stop := Publish(job, origin, run, build.value);
        return;
      }
      var outcome := BuildArtifacts(job);
      Note(job, origin, Work(clock, clock, Answers(outcome, None)));
      match outcome {
        case BuildRaised(failure) => return ExecutionFailed(LastIndex(run), failure);
        case BuildCancelled => return CancellationObserved(LastIndex(run));
        case Built(payloads) => stop := Publish(job, origin, run, payloads);
      }
    }

    method Deliver(job: Job, ghost origin: World) returns (outcome: Option<Outcome>)
      requires Follows(job, origin) && !world.point.Busy()
      modifies this, repository
      ensures Follows(job, origin)
      ensures world.point == if outcome.Some? then Finished(outcome.value) else Idle
      ensures old(world.cell.run.status.Terminal()) ==>
        repository.State() == old(repository.State()) && outcome == Some(Returned(old(world.cell.run.status)))
    {
      hide ValidRun;
      var loaded := repository.Load(job.runId);
      var run := loaded.value;
      Note(job, origin, Event.Deliver);
      if run.status.Terminal() {
        return Some(Returned(run.status));
      }
      if run.status.Queued? {
        var started := Begin(job, origin, run);
        if started.Err? {
          return started.error;
        }
        run := started.value;
      }
      var stop := Attempt(job, origin, run);
      match stop {
        case Complete(status) => return Some(Returned(status));
        case CancellationObserved(active) =>
          outcome := ExitCancelled(job, origin, active);
        case ExecutionFailed(active, failure) =>
          outcome := ExitFailed(job, origin, active, failure);
        case Died => return None;
      }
    }

    /**
     * One delivery of a job, through whatever others do to the run meanwhile. It follows the machine, leaves a run that
     * can be delivered again, and ends only with a finished run, whose status is what it returns.
     */
    method Execute(job: Job) returns (outcome: Option<Outcome>, ghost origin: World)
      requires job.runId in repository.runs && repository.runs[job.runId].runId == job.runId
      requires Deliverable(repository.runs[job.runId], clock)
      modifies this, repository
      ensures old(origin == World(View(repository.State(), job.runId), repository.runs[job.runId], clock, Idle))
      ensures Follows(job, origin)
      ensures job.runId in repository.runs && Deliverable(repository.runs[job.runId], clock)
      ensures outcome.Some? ==> repository.runs[job.runId].status.Terminal()
      ensures outcome.Some? && outcome.value.Returned? ==>
        outcome.value.status == repository.runs[job.runId].status
      ensures old(repository.runs[job.runId].status.Terminal()) ==>
        && repository.State() == old(repository.State())
        && outcome == Some(Returned(old(repository.runs[job.runId].status)))
    {
      hide ValidRun, Step;
      origin := World(View(repository.State(), job.runId), repository.runs[job.runId], clock, Idle);
      world, events := origin, [];
      outcome := Deliver(job, origin);
      EveryHistoryKeepsInvariant(repository.digest, job, origin, events);
    }
  }

  /** Any state a run can be left in between deliveries. */
  ghost predicate Deliverable(run: AnalysisRun, clock: Instant) {
    ValidRun(run) && (!run.status.Terminal() ==> StartedBefore(run, clock) && Prefix(run.stages))
  }

  lemma BuiltRunsKeepTheirId(
      run: AnalysisRun, references: seq<ArtifactReference>, at: Instant, active: int, failure: Failure, end: Instant)
    ensures CompletedRun(run, references, end).Ok? ==> CompletedRun(run, references, end).value.runId == run.runId
    ensures CancelledRun(run, active, at, end).Ok? ==> CancelledRun(run, active, at, end).value.runId == run.runId
    ensures FailedRun(run, active, failure, at, end).Ok? ==>
      FailedRun(run, active, failure, at, end).value.runId == run.runId
  {
    hide ValidRun, PublishedStages, CancelActive, FailActive, RunFailure;
  }
}
