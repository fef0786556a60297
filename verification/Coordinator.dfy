/** New attempts: a retry or a clone is created, its input copied and its job enqueued, or it is recorded as failed. */
module Coordinator {
  import opened Common
  import opened RunContract
  import opened Lifecycle
  import opened RunStore
  import opened Executor
  import StoreHistories

  const PROFILE_KEY := "pipeline_profile"

  /** A profile that is not text reads like an unknown one. */
  function ProfileText(value: Json): string {
    if value.Str? then value.s else ""
  }

  function KnownProfile(text: string): Option<Profile> {
    match text
    case "demo_fast" => Some(DemoFast)
    case "v1_compat" => Some(V1Compat)
    case "test_fail" => Some(TestFail)
    case _ => None
  }

  function PipelineVersionFor(profile: string): string {
    if profile == "v1_compat" then "v1_compat/2.1.0" else profile + "/1.0.0"
  }

  const STAGE_ORDER: seq<StageName> := [
    Ingestion, VideoValidation, Detection, Tracking, IdentityResolution, PitchCalibration, Metrics, WorkloadAdvisory,
    ArtifactPublication]

  predicate Unsupported(profile: string, name: StageName) {
    profile == "v1_compat" && (name.IdentityResolution? || name.PitchCalibration?)
  }

  function QueuedStage(name: StageName, attempt: int, profile: string): Stage {
    Stage(
      StageText(name), name, !Unsupported(profile, name), StageQueued, 0.0, attempt, None, None, [], None, map[], None)
  }

  function QueuedStages(attempt: int, profile: string): (stages: seq<Stage>)
    ensures |stages| == |STAGE_ORDER|
    ensures forall i :: 0 <= i < |stages| ==> stages[i] == QueuedStage(STAGE_ORDER[i], attempt, profile)
  {
    seq(|STAGE_ORDER|, i requires 0 <= i < |STAGE_ORDER| => QueuedStage(STAGE_ORDER[i], attempt, profile))
  }

  /** The queue may refuse a job, and may even report a refusal for a job that it took. */
  datatype QueueAnswer = Accepts | Refuses | RefusesButTakes

  datatype CoordinatorError = UnknownRun | NoProfile | NotAllowed | NamespaceTaken | InputNotCopied | NotEnqueued

  function CopyFailure(now: Instant): StructuredError {
    StructuredError("input_copy_failed", "The source input could not be copied safely.", false, now, None)
  }

  /** A queued attempt can always be recorded as failed. */
  lemma QueuedAttemptsCanFail(digest: Digest, s: Store, run: AnalysisRun, now: Instant)
    requires ValidRun(run) && run.status.Queued? && run.createdAt <= now
    requires run.runId in s.runs && s.runs[run.runId] == run
    ensures Fail(run, CopyFailure(now), run.stages, now).Ok?
    ensures SaveRefusal(digest, s, Fail(run, CopyFailure(now), run.stages, now).value) == None
  {
    forall t | t in run.stages ensures !t.status.StageRunning? {
      assert !AnyStage(run.stages, RunContract.NotQueued);
      assert !RunContract.NotQueued(t.status);
    }
    var failed := Fail(run, CopyFailure(now), run.stages, now).value;
    SaveFollowsTheLifecycle(digest, s, failed);
    TransitionAllowedIff(run, failed);
  }

  /** The record of a queued attempt that could not be supplied. */
  function UnsuppliedRecord(created: AnalysisRun, now: Instant): AnalysisRun {
    created.(status := Failed, failure := Some(CopyFailure(now)), completedAt := Some(now))
  }

  /** The input of a run is there, as it was registered, and the other run has none. */
  ghost predicate CanBeCopied(
      digest: Digest, runs: map<string, AnalysisRun>, inputs: map<string, Bytes>, fromId: string, toId: string)
  {
    fromId in runs && fromId in inputs && toId !in inputs && digest(inputs[fromId]) == runs[fromId].input.sha256
  }

  /** The inputs after a supply: one more when it could be copied. */
  ghost function InputsAfter(
      inputs: map<string, Bytes>, fromId: string, toId: string, copied: bool): map<string, Bytes>
    requires copied ==> fromId in inputs
  {
    if copied then inputs[toId := inputs[fromId]] else inputs
  }

  /** The jobs after a supply: one more when there was an input and a profile, and the queue took it. */
  ghost function QueueAfter(
      queue: seq<Job>, created: AnalysisRun, profile: Option<Profile>, copied: bool, answer: QueueAnswer): seq<Job>
  {
    if copied && profile.Some? && answer != Refuses then queue + [Job(created.runId, created.attempt, profile.value)]
    else queue
  }

  class AnalysisCoordinator {
    const repository: LocalAnalysisRunStore
    /** The single input object of each run, and the jobs handed to the queue. */
    var inputs: map<string, Bytes>
    var queue: seq<Job>

    constructor (repository: LocalAnalysisRunStore)
      ensures this.repository == repository && inputs == map[] && queue == []
    {
      this.repository := repository;
      inputs, queue := map[], [];
    }

    /** Copies the input of one run to another, and keeps the copy only when its digest is the registered one. */
    method CopyInput(fromId: string, toId: string) returns (copied: bool)
      modifies this`inputs
      ensures copied <==>
        && fromId in repository.runs && fromId in old(inputs) && toId !in old(inputs)
        && repository.digest(old(inputs)[fromId]) == repository.runs[fromId].input.sha256
      ensures inputs == if copied then old(inputs)[toId := old(inputs)[fromId]] else old(inputs)
    {
      var source := repository.Load(fromId);
      if source.Err? || fromId !in inputs || toId in inputs {
        return false;
      }
      var content := inputs[fromId];
      inputs := inputs[toId := content];
      if repository.digest(content) != source.value.input.sha256 {
        inputs := inputs - {toId};
        return false;
      }
      return true;
    }

    method Enqueue(job: Job, answer: QueueAnswer) returns (accepted: bool)
      modifies this`queue
      ensures queue == old(queue) + if answer == Refuses then [] else [job]
      ensures accepted <==> answer == Accepts
    {
      if !answer.Refuses? {
        queue := queue + [job];
      }
      return answer.Accepts?;
    }

    /** The second half of a retry or a clone: the attempt gets its input and its job, or is recorded as failed. */
    method SupplyAttempt(
        previousId: string, created: AnalysisRun, profile: string, now: Instant, answer: QueueAnswer)
      returns (failure: Option<CoordinatorError>)
      requires created.runId in repository.runs && repository.runs[created.runId] == created
      requires ValidRun(created) && created.status.Queued? && created.createdAt <= now
      modifies this, repository
      ensures var copied :=
          CanBeCopied(repository.digest, old(repository.runs), old(inputs), previousId, created.runId);
        && (failure == Some(InputNotCopied) <==> !copied)
        && (failure == Some(NotEnqueued) <==> copied && !(KnownProfile(profile).Some? && answer == Accepts))
        && (failure == None <==> copied && KnownProfile(profile).Some? && answer == Accepts)
        && inputs == InputsAfter(old(inputs), previousId, created.runId, copied)
        && queue == QueueAfter(old(queue), created, KnownProfile(profile), copied, answer)
      ensures repository.State() ==
        if failure.None? then old(repository.State())
        else WithRun(old(repository.State()), UnsuppliedRecord(created, now))
    {
      hide ValidRun, SaveRefusal, PipelineVersionFor;
      QueuedAttemptsCanFail(repository.digest, repository.State(), created, now);
      failure := None;
      var copied := CopyInput(previousId, created.runId);
      if !copied {
        failure := Some(InputNotCopied);
      } else {
        var known := KnownProfile(profile);
        if known.None? {
          failure := Some(NotEnqueued);
        } else {
          var accepted := Enqueue(Job(created.runId, created.attempt, known.value), answer);
          failure := if accepted then None else Some(NotEnqueued);
        }
      }
      if failure.Some? {
        var failed := Fail(created, CopyFailure(now), created.stages, now);
        var refused := repository.Save(failed.value);
      }
    }

    /** Creates the next attempt of a failed or partial run. */
    method Retry(previousId: string, newId: string, code: CodeReference, now: Instant, answer: QueueAnswer)
      returns (result: Result<AnalysisRun, CoordinatorError>)
      requires previousId in repository.runs ==>
        ValidRun(repository.runs[previousId]) && repository.runs[previousId].runId == previousId
      modifies this, repository
      ensures result == Err(UnknownRun) <==> previousId !in old(repository.runs)
      ensures previousId in old(repository.runs) ==>
        var previous := old(repository.runs[previousId]);
        var hasProfile := "pipeline_profile" in previous.parameters;
        var allowed := previous.status in {Failed, Partial} && newId != previousId;
        && (result == Err(NoProfile) <==> !hasProfile)
        && (result == Err(NotAllowed) <==> hasProfile && !allowed)
        && (result == Err(NamespaceTaken) <==> hasProfile && allowed && newId in old(repository.runs))
      ensures result.Err? && result.error !in {InputNotCopied, NotEnqueued} ==>
        repository.State() == old(repository.State()) && inputs == old(inputs) && queue == old(queue)
      ensures result.Ok? || result.error in {InputNotCopied, NotEnqueued} ==>
        && newId in repository.runs
        && IsRetryOf(repository.runs[newId], old(repository.runs[previousId]), newId, code, now)
        && IsSupplied(
             repository.digest, old(repository.State()), old(inputs), old(queue), repository.State(), inputs, queue,
             previousId, newId, now, answer, result)
    {
      hide ValidRun, PipelineVersionFor, QueuedStages, IsNewAttempt, KnownProfile, ProfileText;
      var loaded := repository.Load(previousId);
      if loaded.Err? {
        return Err(UnknownRun);
      }
      var previous := loaded.value;
      if PROFILE_KEY !in previous.parameters {
        return Err(NoProfile);
      }
      var retry := RetryRecord(previous, newId, code, now);
      RetriesAreBuilt(previous, newId, code, ProfileOf(previous), now);
      if retry.Err? {
        return Err(NotAllowed);
      }
      RetriesAreLinked(previous, newId, code, now);
      var refused := repository.Create(retry.value);
      if refused.Some? {
        return Err(NamespaceTaken);
      }
      var failure := SupplyAttempt(previousId, retry.value, ProfileOf(previous), now, answer);
      if failure.Some? {
        UnsuppliedRecordsKeepTheAttempt(retry.value, previous, newId, code, now);
        return Err(failure.value);
      }
      return Ok(retry.value);
    }

    /** Starts a new analysis from the input and parameters of an existing run. */
    method Clone(
        previousId: string, logicalId: string, newId: string, code: CodeReference, now: Instant, answer: QueueAnswer)
      returns (result: Result<AnalysisRun, CoordinatorError>)
      requires previousId in repository.runs ==> ValidRun(repository.runs[previousId])
      modifies this, repository
      ensures result == Err(UnknownRun) <==> previousId !in old(repository.runs)
      ensures result != Err(NotAllowed)
      ensures previousId in old(repository.runs) ==>
        var hasProfile := "pipeline_profile" in old(repository.runs[previousId]).parameters;
        && (result == Err(NoProfile) <==> !hasProfile)
        && (result == Err(NamespaceTaken) <==> hasProfile && newId in old(repository.runs))
      ensures result.Err? && result.error !in {InputNotCopied, NotEnqueued} ==>
        repository.State() == old(repository.State()) && inputs == old(inputs) && queue == old(queue)
      ensures result.Ok? || result.error in {InputNotCopied, NotEnqueued} ==>
        && newId in repository.runs
        && IsCloneOf(repository.runs[newId], old(repository.runs[previousId]), logicalId, newId, code, now)
        && IsSupplied(
             repository.digest, old(repository.State()), old(inputs), old(queue), repository.State(), inputs, queue,
             previousId, newId, now, answer, result)
    {
      hide ValidRun, PipelineVersionFor, QueuedStages, IsNewAttempt, KnownProfile, ProfileText;
      var loaded := repository.Load(previousId);
      if loaded.Err? {
        return Err(UnknownRun);
      }
      var previous := loaded.value;
      if PROFILE_KEY !in previous.parameters {
        return Err(NoProfile);
      }
      ClonesAreBuilt(previous, logicalId, newId, code, now);
      var clone := CloneOf(previous, logicalId, newId, code, now);
      var refused := repository.Create(clone.value);
      if refused.Some? {
        return Err(NamespaceTaken);
      }
      var failure := SupplyAttempt(previousId, clone.value, ProfileOf(previous), now, answer);
      if failure.Some? {
        UnsuppliedRecordsKeepTheAttempt(clone.value, previous, newId, code, now);
        return Err(failure.value);
      }
      return Ok(clone.value);
    }
  }

  /**
   * What creating and supplying an attempt leaves in the repository, the inputs and the queue: the attempt queued with
   * its input and its job, or failed with as much of them as there was.
   */
  ghost predicate IsSupplied(
      digest: Digest, before: Store, inputsBefore: map<string, Bytes>, queueBefore: seq<Job>, after: Store,
      inputs: map<string, Bytes>, queue: seq<Job>, previousId: string, newId: string, now: Instant,
      answer: QueueAnswer, result: Result<AnalysisRun, CoordinatorError>)
    requires newId in after.runs && previousId in before.runs
  {
    var run, profile := after.runs[newId], KnownProfile(ProfileOf(before.runs[previousId]));
    var copied := CanBeCopied(digest, before.runs, inputsBefore, previousId, newId);
    && newId !in before.runs && after == WithRun(before, run)
    && inputs == InputsAfter(inputsBefore, previousId, newId, copied)
    && queue == QueueAfter(queueBefore, run, profile, copied, answer)
    && (result == Err(InputNotCopied) <==> !copied)
    && (result == Err(NotEnqueued) <==> copied && !(profile.Some? && answer == Accepts))
    && (result.Ok? <==> copied && profile.Some? && answer == Accepts)
    && (if result.Ok? then result.value == run && run.status == Queued && run.failure == None
        else run.status == Failed && run.completedAt == Some(now) && run.failure == Some(StructuredError(
          "input_copy_failed", "The source input could not be copied safely.", false, now, None)))
  }

  function CloneOf(
      previous: AnalysisRun, logicalId: string, newId: string, code: CodeReference, now: Instant)
    : Result<AnalysisRun, ContractError>
  {
    NewRun(
      logicalId, newId, previous.origin, previous.input,
      Provenance(code, PipelineVersionFor(ProfileOf(previous)), previous.parameters, previous.models),
      QueuedStages(1, ProfileOf(previous)), now)
  }

  /** The nine stages in their order, all queued, and all required apart from the two that one profile lacks. */
  ghost predicate AreNineQueuedStages(stages: seq<Stage>, attempt: int, compatible: bool) {
    && StageNames(stages) == [
         Ingestion, VideoValidation, Detection, Tracking, IdentityResolution, PitchCalibration, Metrics,
         WorkloadAdvisory, ArtifactPublication]
    && StageIds(stages) == [
         "ingestion", "video_validation", "detection", "tracking", "identity_resolution", "pitch_calibration",
         "metrics", "workload_advisory", "artifact_publication"]
    && forall t :: t in stages ==>
         && (t.required <==> !(compatible && t.name in {IdentityResolution, PitchCalibration}))
         && t.status == StageQueued && t.progress == 0.0 && t.attempt == attempt
         && t.startedAt == None && t.finishedAt == None && t.producedArtifactIds == []
         && t.error == None && t.message == None && t.metrics == map[]
  }

  /** What a retry and a clone have in common: the provenance of now, and the parameters and models of before. */
  ghost predicate IsNewAttempt(
      run: AnalysisRun, previous: AnalysisRun, newId: string, code: CodeReference, now: Instant)
  {
    && run.runId == newId && run.code == code && run.createdAt == now
    && run.origin == previous.origin && run.input == previous.input
    && run.parameters == previous.parameters && run.models == previous.models
    && run.artifacts == [] && run.startedAt == None
    && "pipeline_profile" in run.parameters
    && var value := run.parameters["pipeline_profile"];
       && (value == Str("demo_fast") ==> run.pipelineVersion == "demo_fast/1.0.0")
       && (value == Str("v1_compat") ==> run.pipelineVersion == "v1_compat/2.1.0")
       && (value == Str("test_fail") ==> run.pipelineVersion == "test_fail/1.0.0")
       && AreNineQueuedStages(run.stages, run.attempt, value == Str("v1_compat"))
  }

  /** A first attempt of its own analysis, with the input, origin, parameters and models of another run. */
  ghost predicate IsCloneOf(
      run: AnalysisRun, previous: AnalysisRun, logicalId: string, newId: string, code: CodeReference, now: Instant)
  {
    && IsNewAttempt(run, previous, newId, code, now)
    && run.logicalId == logicalId && run.attempt == 1 && run.previousRunId == None
  }

  /** The profiles that have an executor. */
  lemma KnownProfilesAre(text: string)
    ensures KnownProfile(text) == Some(DemoFast) <==> text == "demo_fast"
    ensures KnownProfile(text) == Some(V1Compat) <==> text == "v1_compat"
    ensures KnownProfile(text) == Some(TestFail) <==> text == "test_fail"
    ensures KnownProfile(text) == None <==> text !in {"demo_fast", "v1_compat", "test_fail"}
  {
  }

  lemma NewStagesAreTheNine(attempt: int, profile: string)
    ensures AreNineQueuedStages(QueuedStages(attempt, profile), attempt, profile == "v1_compat")
  {
    var stages := QueuedStages(attempt, profile);
    assert StageNames(stages) == STAGE_ORDER;
    assert StageIds(stages) == TextsOf(STAGE_ORDER);
    StageTextsInOrder();
    hide StageText;
    assert |STAGE_ORDER| == 9;
  }

  ghost function TextsOf(names: seq<StageName>): seq<string> {
    seq(|names|, i requires 0 <= i < |names| => StageText(names[i]))
  }

  lemma StageTextsInOrder()
    ensures TextsOf(STAGE_ORDER) == [
      "ingestion", "video_validation", "detection", "tracking", "identity_resolution", "pitch_calibration",
      "metrics", "workload_advisory", "artifact_publication"]
  {
  }

  /** The versions and stages of a new attempt follow its profile. */
  lemma NewAttemptsFollowTheProfile(
      run: AnalysisRun, previous: AnalysisRun, newId: string, code: CodeReference, now: Instant)
    requires PROFILE_KEY in previous.parameters
    requires run.runId == newId && run.code == code && run.createdAt == now
    requires run.origin == previous.origin && run.input == previous.input
    requires run.parameters == previous.parameters && run.models == previous.models
    requires run.artifacts == [] && run.startedAt == None
    requires run.pipelineVersion == PipelineVersionFor(ProfileOf(previous))
    requires run.stages == QueuedStages(run.attempt, ProfileOf(previous))
    ensures IsNewAttempt(run, previous, newId, code, now)
  {
    hide AreNineQueuedStages, QueuedStages;
    NewStagesAreTheNine(run.attempt, ProfileOf(previous));
  }

  /** The record of a failed supply is still that of the attempt. */
  lemma UnsuppliedRecordsKeepTheAttempt(
      created: AnalysisRun, previous: AnalysisRun, newId: string, code: CodeReference, now: Instant)
    requires IsNewAttempt(created, previous, newId, code, now)
    ensures IsNewAttempt(UnsuppliedRecord(created, now), previous, newId, code, now)
  {
    hide AreNineQueuedStages;
  }

  /** Any valid run can be cloned, whatever its status: the clone is a first attempt of a new analysis. */
  lemma ClonesAreBuilt(previous: AnalysisRun, logicalId: string, newId: string, code: CodeReference, now: Instant)
    requires ValidRun(previous)
    ensures var clone := CloneOf(previous, logicalId, newId, code, now);
      && clone.Ok? && ValidRun(clone.value) && clone.value.status.Queued?
      && clone.value.attempt == 1 && clone.value.previousRunId == None
      && clone.value.input == previous.input && clone.value.origin == previous.origin
      && clone.value.createdAt == now && clone.value.runId == newId && clone.value.failure == None
      && (PROFILE_KEY in previous.parameters ==> IsCloneOf(clone.value, previous, logicalId, newId, code, now))
  {
    hide StageText, PipelineVersionFor, STAGE_ORDER, AllDistinct, IsNewAttempt;
    var stages := QueuedStages(1, ProfileOf(previous));
    StageTextsDiffer();
    assert UniqueStages(stages);
    if PROFILE_KEY in previous.parameters {
      NewAttemptsFollowTheProfile(
        CloneOf(previous, logicalId, newId, code, now).value, previous, newId, code, now);
    }
  }

  function ProfileOf(run: AnalysisRun): string {
    if PROFILE_KEY in run.parameters then ProfileText(run.parameters[PROFILE_KEY]) else ""
  }

  /** The next attempt: linked to the previous one, with the same analysis and the same parameters and models. */
  ghost predicate IsRetryOf(
      run: AnalysisRun, previous: AnalysisRun, newId: string, code: CodeReference, now: Instant)
  {
    && IsNewAttempt(run, previous, newId, code, now)
    && previous.status in {Failed, Partial}
    && run.logicalId == previous.logicalId && run.attempt == previous.attempt + 1
    && run.previousRunId == Some(previous.runId)
  }

  function RetryRecord(previous: AnalysisRun, newId: string, code: CodeReference, now: Instant)
    : Result<AnalysisRun, ContractError>
  {
    StoreHistories.RetryOf(
      previous, newId,
      Provenance(code, PipelineVersionFor(ProfileOf(previous)), previous.parameters, previous.models),
      QueuedStages(previous.attempt + 1, ProfileOf(previous)), now)
  }

  lemma RetriesAreLinked(previous: AnalysisRun, newId: string, code: CodeReference, now: Instant)
    requires PROFILE_KEY in previous.parameters && RetryRecord(previous, newId, code, now).Ok?
    ensures var retry := RetryRecord(previous, newId, code, now).value;
      && ValidRun(retry) && retry.status.Queued? && retry.createdAt == now && retry.failure == None
      && IsRetryOf(retry, previous, newId, code, now)
  {
    hide PipelineVersionFor, QueuedStages, IsNewAttempt;
    NewAttemptsFollowTheProfile(RetryRecord(previous, newId, code, now).value, previous, newId, code, now);
  }

  /** A retryable attempt can always be retried under a new id: its nine stages are queued and its link is set. */
  lemma RetriesAreBuilt(previous: AnalysisRun, newId: string, code: CodeReference, profile: string, now: Instant)
    requires ValidRun(previous)
    ensures var provenance := Provenance(code, PipelineVersionFor(profile), previous.parameters, previous.models);
      StoreHistories.RetryOf(previous, newId, provenance, QueuedStages(previous.attempt + 1, profile), now).Ok?
      <==> StoreHistories.CanBeRetried(previous) && newId != previous.runId
  {
    var stages := QueuedStages(previous.attempt + 1, profile);
    var provenance := Provenance(code, PipelineVersionFor(profile), previous.parameters, previous.models);
    StageTextsDiffer();
    if StoreHistories.CanBeRetried(previous) && newId != previous.runId {
      var bare := RetryFrom(previous, newId, provenance, now);
      assert bare.Ok?;
      assert UniqueStages(stages);
      assert ValidRun(bare.value.(stages := stages));
    }
  }

  lemma StageTextsDiffer()
    ensures Distinct(STAGE_ORDER)
    ensures forall a: StageName, b: StageName :: StageText(a) == StageText(b) ==> a == b
  {
  }
}
