/** One question to the agent, from the route to the answer and its trace. */
module AgentAnswer {
  import opened Common
  import opened Pricing
  import opened Provider
  import opened Grounding
  import opened Evidence
  import opened AgentTools
  import opened AgentTrace
  import opened AgentMonitor
  import opened AgentLoop
  import Budget

  /** What the caller sees. Anything but an explanation has a fixed text for its reason, and cites nothing. */
  datatype Reaction =
    | Explanation(answer: string, citations: seq<Citation>, mode: ModelMode)
    | Unavailable(reason: StopReason, mode: ModelMode)

  datatype AgentResult = AgentResult(reaction: Reaction, trace: Trace)

  /** The question as the router saw it: unsupported, or the claims it may be answered from. */
  datatype Question = Unsupported | Routed(route: Route)

  // -- grounding one selection -----------------------------------------------

  /** A selection that passed, or the reason that it did not. */
  datatype Verdict =
    | Grounded(shown: seq<Claim>)
    | NotGrounded(reason: StopReason, known: seq<string>, rejected: nat)

  function KnownIds(ids: seq<string>, retrieved: map<string, Claim>): seq<string> {
    if ids == [] then []
    else KnownIds(ids[..|ids| - 1], retrieved) + if ids[|ids| - 1] in retrieved then [ids[|ids| - 1]] else []
  }

  lemma {:induction false} KnownIdsAre(ids: seq<string>, retrieved: map<string, Claim>)
    ensures forall id :: id in KnownIds(ids, retrieved) <==> id in ids && id in retrieved
    ensures Distinct(ids) ==> Distinct(KnownIds(ids, retrieved))
  {
    if ids != [] {
      var earlier, last := ids[..|ids| - 1], ids[|ids| - 1];
      KnownIdsAre(earlier, retrieved);
      assert ids == earlier + [last];
    }
  }

  lemma {:induction false} AllKnownIff(ids: seq<string>, retrieved: map<string, Claim>)
    ensures |KnownIds(ids, retrieved)| <= |ids|
    ensures |KnownIds(ids, retrieved)| == |ids| <==> forall id :: id in ids ==> id in retrieved
    ensures |KnownIds(ids, retrieved)| == |ids| ==> KnownIds(ids, retrieved) == ids
  {
    if ids != [] {
      var earlier, last := ids[..|ids| - 1], ids[|ids| - 1];
      AllKnownIff(earlier, retrieved);
      assert ids == earlier + [last];
    }
  }

  lemma KnownIdsIff(ids: seq<string>, retrieved: map<string, Claim>)
    ensures forall id :: id in KnownIds(ids, retrieved) <==> id in ids && id in retrieved
    ensures |KnownIds(ids, retrieved)| <= |ids|
    ensures |KnownIds(ids, retrieved)| == |ids| <==> forall id :: id in ids ==> id in retrieved
    ensures |KnownIds(ids, retrieved)| == |ids| ==> KnownIds(ids, retrieved) == ids
    ensures Distinct(ids) ==> Distinct(KnownIds(ids, retrieved))
  {
    hide KnownIds;
    KnownIdsAre(ids, retrieved);
    AllKnownIff(ids, retrieved);
  }

  function ClaimsNamed(byId: map<string, Claim>, ids: seq<string>): seq<Claim>
    requires forall id :: id in ids ==> id in byId
  {
    seq(|ids|, i requires 0 <= i < |ids| && ids[i] in ids => byId[ids[i]])
  }

  /** The claims shown are the server's: the label first, then selected claims that the route allows. */
  ghost predicate ShownAsPromised(shown: seq<Claim>, catalog: seq<Claim>, route: Route, selected: seq<string>) {
    && shown != [] && shown[0].id == OUTPUT_NATURE_CLAIM_ID
    && (forall k :: 0 <= k < |shown| ==> shown[k].id in ById(catalog) && ById(catalog)[shown[k].id] == shown[k])
    && (forall k :: 1 <= k < |shown| ==>
          shown[k].id in selected && shown[k].id in route && shown[k].id != OUTPUT_NATURE_CLAIM_ID)
    && Distinct(ClaimIdsOf(shown))
  }

  lemma {:induction false} EligibleClaimsAreTheServers(catalog: seq<Claim>, route: Route, id: string)
    ensures id in ById(Eligible(catalog, route)) <==>
      id in ById(catalog) && (id in route || id == OUTPUT_NATURE_CLAIM_ID)
    ensures id in ById(Eligible(catalog, route)) ==> ById(Eligible(catalog, route))[id] == ById(catalog)[id]
  {
    if catalog != [] {
      var earlier, last := catalog[..|catalog| - 1], catalog[|catalog| - 1];
      EligibleClaimsAreTheServers(earlier, route, id);
      if last.id in route || last.id == OUTPUT_NATURE_CLAIM_ID {
        var eligible := Eligible(catalog, route);
        assert eligible[..|eligible| - 1] == Eligible(earlier, route);
      } else {
        assert Eligible(catalog, route) == Eligible(earlier, route);
      }
    }
  }

  lemma SelectedClaimsAreEligible(catalog: seq<Claim>, route: Route, ids: seq<string>, c: Claim)
    requires Selected(ById(Eligible(catalog, route)), ids).Some?
    requires c in Selected(ById(Eligible(catalog, route)), ids).value
    ensures c.id in ids && c.id in ById(catalog) && ById(catalog)[c.id] == c
    ensures c.id in route || c.id == OUTPUT_NATURE_CLAIM_ID
    ensures c.id in ById(Eligible(catalog, route)) && ById(Eligible(catalog, route))[c.id] == c
  {
    var byId := ById(Eligible(catalog, route));
    SelectedIff(byId, ids);
    var id :| id in ids && id in byId && byId[id] == c;
    ByIdFinds(Eligible(catalog, route), id);
    EligibleClaimsAreTheServers(catalog, route, id);
  }

  lemma DistinctClaimsHaveDistinctIds(shown: seq<Claim>, byId: map<string, Claim>)
    requires Distinct(shown)
    requires forall k :: 0 <= k < |shown| ==> shown[k].id in byId && byId[shown[k].id] == shown[k]
    ensures Distinct(ClaimIdsOf(shown))
  {
  }

  /** Whatever was selected, greedy rendering shows only what was promised. */
  lemma RenderingShowsWhatWasPromised(catalog: seq<Claim>, route: Route, ids: seq<string>)
    requires var rendered := ShownClaims(Eligible(catalog, route), ids, route);
      rendered.Ok? && rendered.value.Some?
    ensures ShownAsPromised(ShownClaims(Eligible(catalog, route), ids, route).value.value, catalog, route, ids)
  {
    var byId := ById(Eligible(catalog, route));
    var selected := Selected(byId, ids).value;
    var labelClaim := byId[OUTPUT_NATURE_CLAIM_ID];
    var shown := Greedy(labelClaim, selected).0;
    ByIdFinds(Eligible(catalog, route), OUTPUT_NATURE_CLAIM_ID);
    EligibleClaimsAreTheServers(catalog, route, OUTPUT_NATURE_CLAIM_ID);
    GreedyLengthIsTheAnswers(labelClaim, selected);
    ShownWereSelected(labelClaim, selected);
    SelectedIff(byId, ids);
    ShownStayDistinct(labelClaim, selected);
    forall k | 0 <= k < |shown|
      ensures shown[k].id in byId && byId[shown[k].id] == shown[k]
      ensures shown[k].id in ById(catalog) && ById(catalog)[shown[k].id] == shown[k]
      ensures k >= 1 ==> shown[k].id in ids && shown[k].id in route && shown[k].id != OUTPUT_NATURE_CLAIM_ID
    {
      if k >= 1 {
        SelectedClaimsAreEligible(catalog, route, ids, shown[k]);
      }
    }
    DistinctClaimsHaveDistinctIds(shown, byId);
  }

  lemma RetrievedSelectionsAreApproved(
      catalog: seq<Claim>, route: Route, retrieved: map<string, Claim>, returned: seq<string>, ids: seq<string>)
    requires ServerClaimsOnly(retrieved, Eligible(catalog, route), returned)
    requires forall id :: id in ids ==> id in retrieved
    ensures ShownClaims(Eligible(catalog, route), ids, route).Ok?
  {
    SelectedIff(ById(Eligible(catalog, route)), ids);
  }

  /** The ids that were retrieved, in their order. */
  method Known(claimIds: seq<string>, retrieved: map<string, Claim>) returns (known: seq<string>)
    ensures known == KnownIds(claimIds, retrieved)
  {
    known := [];
    for i := 0 to |claimIds|
      invariant known == KnownIds(claimIds[..i], retrieved)
    {
      assert claimIds[..i + 1][..i] == claimIds[..i];
      if claimIds[i] in retrieved {
        known := known + [claimIds[i]];
      }
    }
    assert claimIds[..|claimIds|] == claimIds;
  }

  /** How a selection ends the question: each ending exactly under its condition, in the order of the checks. */
  ghost predicate SelectionEndsAs(
      evidence: RunEvidence, runId: string, catalog: seq<Claim>, route: Route, retrieved: map<string, Claim>,
      claimIds: seq<string>, termination: StopReason, rendered: seq<string>)
  {
    var shown := ShownClaims(Eligible(catalog, route), claimIds, route);
    var allRetrieved := forall id :: id in claimIds ==> id in retrieved;
    var someShown := allRetrieved && shown.Ok? && shown.value.Some?;
    && (termination == SelectionRejected <==> !allRetrieved)
    && (termination == NoRelevantClaim <==> allRetrieved && shown == Ok(None))
    && (termination == CitationRejected <==> someShown && !AllShownCitationsValid(shown.value.value, evidence, runId))
    && (termination == Answered <==> someShown && AllShownCitationsValid(shown.value.value, evidence, runId))
    && rendered == if termination == Answered && someShown then ClaimIdsOf(shown.value.value) else []
  }

  ghost predicate AllShownCitationsValid(shown: seq<Claim>, evidence: RunEvidence, runId: string) {
    forall c :: c in MergeAll(AllCitations(shown)) ==> ValidCitation(c, evidence, runId)
  }

  /** Publishes a selection only when every id was retrieved and every citation of what is shown is valid. */
  method Ground(
      evidence: RunEvidence, runId: string, catalog: seq<Claim>, route: Route, retrieved: map<string, Claim>,
      claimIds: seq<string>, ghost returned: seq<string>) returns (verdict: Verdict, known: seq<string>)
    requires ServerClaimsOnly(retrieved, Eligible(catalog, route), returned) && Distinct(claimIds)
    ensures known == KnownIds(claimIds, retrieved)
    ensures verdict.NotGrounded? ==>
      verdict.known == known && verdict.rejected == |claimIds| - |known| && !verdict.reason.Answered?
    ensures verdict.NotGrounded? && verdict.reason.SelectionRejected? <==>
      exists id :: id in claimIds && id !in retrieved
    ensures var rendered := ShownClaims(Eligible(catalog, route), known, route);
      verdict.NotGrounded? && verdict.reason.NoRelevantClaim? <==>
        (forall id :: id in claimIds ==> id in retrieved) && rendered == Ok(None)
    ensures var rendered := ShownClaims(Eligible(catalog, route), known, route);
      verdict.Grounded? <==>
        && (forall id :: id in claimIds ==> id in retrieved)
        && rendered.Ok? && rendered.value.Some?
        && forall c :: c in MergeAll(AllCitations(rendered.value.value)) ==> ValidCitation(c, evidence, runId)
    ensures verdict.Grounded? ==>
      && (forall id :: id in claimIds ==> id in retrieved)
      && ShownAsPromised(verdict.shown, catalog, route, known)
      && (forall c :: c in MergeAll(AllCitations(verdict.shown)) ==> ValidCitation(c, evidence, runId))
      && (|verdict.shown[0].text| <= MAX_ANSWER_CHARS ==> |Answer(verdict.shown)| <= MAX_ANSWER_CHARS)
    ensures AllCitationsValid(catalog, evidence, runId) ==>
      !(verdict.NotGrounded? && verdict.reason.CitationRejected?)
    ensures SelectionEndsAs(
      evidence, runId, catalog, route, retrieved, claimIds, if verdict.Grounded? then Answered else verdict.reason,
      if verdict.Grounded? then ClaimIdsOf(verdict.shown) else [])
  {
    hide KnownIds, ShownClaims, MergeAll, AllCitations, ValidCitation, Answer, Eligible, ShownAsPromised,
      ServerClaimsOnly;
    known := Known(claimIds, retrieved);
    KnownIdsIff(claimIds, retrieved);
    if |known| != |claimIds| {
      return NotGrounded(SelectionRejected, known, |claimIds| - |known|), known;
    }
    RetrievedSelectionsAreApproved(catalog, route, retrieved, returned, known);
    var shown := ClaimsToRender(Eligible(catalog, route), known, route);
    if shown.Err? {
      // Unreachable: a retrieved id is always approved, so only a citation can still be refused.
      assert false;
    }
    if shown.value.None? {
      return NotGrounded(NoRelevantClaim, known, 0), known;
    }
    var claims := shown.value.value;
    RenderingShowsWhatWasPromised(catalog, route, known);
    var forged := ValidateCitations(MergeAll(AllCitations(claims)), evidence, runId);
    if forged.Some? {
      if AllCitationsValid(catalog, evidence, runId) {
        ShownCitationsAreTheCatalogs(claims, catalog, evidence, runId);
      }
      return NotGrounded(CitationRejected, known, 0), known;
    }
    ShownAnswersAreBounded(Eligible(catalog, route), known, route);
    return Grounded(claims), known;
  }

  lemma ShownAnswersAreBounded(eligible: seq<Claim>, ids: seq<string>, route: Route)
    requires ShownClaims(eligible, ids, route).Ok? && ShownClaims(eligible, ids, route).value.Some?
    ensures var shown := ShownClaims(eligible, ids, route).value.value;
      shown != [] && (|shown[0].text| <= MAX_ANSWER_CHARS ==> |Answer(shown)| <= MAX_ANSWER_CHARS)
  {
    var byId := ById(eligible);
    GreedyLengthIsTheAnswers(byId[OUTPUT_NATURE_CLAIM_ID], Selected(byId, ids).value);
    AnswersAreBounded(byId[OUTPUT_NATURE_CLAIM_ID], Selected(byId, ids).value);
  }

  lemma ShownCitationsAreTheCatalogs(shown: seq<Claim>, catalog: seq<Claim>, evidence: RunEvidence, runId: string)
    requires forall k :: 0 <= k < |shown| ==> shown[k].id in ById(catalog) && ById(catalog)[shown[k].id] == shown[k]
    requires AllCitationsValid(catalog, evidence, runId)
    ensures forall c :: c in MergeAll(AllCitations(shown)) ==> ValidCitation(c, evidence, runId)
  {
    forall c | c in MergeAll(AllCitations(shown)) ensures ValidCitation(c, evidence, runId) {
      MergedAreTheLastOfEachKey(AllCitations(shown));
      AllCitationsIff(shown, c);
      var claim :| claim in shown && c in claim.citations;
      ByIdFinds(catalog, claim.id);
    }
  }

  // -- the whole question ----------------------------------------------------

  /** What holds of every result, whatever the model and the tools do. */
  ghost predicate KeepsItsPromises(
      result: AgentResult, evidence: RunEvidence, runId: string, catalog: seq<Claim>, question: Question)
  {
    var trace := result.trace;
    && ValidTrace(trace)
    && trace.mode == result.reaction.mode
    && (trace.termination.Answered? <==> result.reaction.Explanation?)
    && (result.reaction.Explanation? ==>
          question.Routed? && ExplainsAsPromised(result, evidence, runId, catalog, question.route))
    && (result.reaction.Unavailable? ==> trace.rendered == [] && result.reaction.reason == trace.termination)
    && (forall id :: id in trace.selected ==> id in trace.returned)
    && trace.validToolCalls + trace.invalidToolCalls == |trace.toolCalls|
    && trace.usage == SumUsage(trace.turns)
    && (trace.usageComplete <==> forall t :: t in trace.turns ==> t.usage.Some?)
    && trace.modelTurns == |trace.turns|
  }

  /** An explanation shows the label first, and after it only the server's own, selected, retrieved, routed claims. */
  ghost predicate ExplainsAsPromised(
      result: AgentResult, evidence: RunEvidence, runId: string, catalog: seq<Claim>, route: Route)
    requires result.reaction.Explanation?
  {
    var trace := result.trace;
    && (forall id :: id in trace.rendered ==> id in ById(catalog))
    && var shown := ClaimsNamed(ById(catalog), trace.rendered);
       && ShownAsPromised(shown, catalog, route, trace.selected)
       && ClaimIdsOf(shown) == trace.rendered
       && result.reaction.answer == Answer(shown)
       && ReadsAsShown(result.reaction.answer, shown)
       && result.reaction.citations == MergeAll(AllCitations(shown))
       && (forall c :: c in result.reaction.citations ==> ValidCitation(c, evidence, runId))
       && (|shown[0].text| <= MAX_ANSWER_CHARS ==> |result.reaction.answer| <= MAX_ANSWER_CHARS)
  }

  /** The text begins with the label, and holds each shown claim in its place and nothing else. */
  ghost predicate ReadsAsShown(answer: string, shown: seq<Claim>) {
    && shown != [] && shown[0].text <= answer
    && |answer| == TextLengths(shown) + |shown| - 1
    && forall k :: 0 <= k < |shown| ==> StandsInPlace(answer, shown, k)
  }

  lemma AnswersReadAsShown(shown: seq<Claim>)
    requires shown != []
    ensures ReadsAsShown(Answer(shown), shown)
  {
    hide StandsInPlace;
    AnswersBeginWithTheFirst(shown);
    AnswersJoinTheTexts(shown, 0);
    forall k | 0 <= k < |shown| ensures StandsInPlace(Answer(shown), shown, k) {
      AnswersJoinTheTexts(shown, k);
    }
  }

  lemma NamedClaimsAreTheShown(shown: seq<Claim>, byId: map<string, Claim>)
    requires forall k :: 0 <= k < |shown| ==> shown[k].id in byId && byId[shown[k].id] == shown[k]
    ensures forall id :: id in ClaimIdsOf(shown) ==> id in byId
    ensures ClaimsNamed(byId, ClaimIdsOf(shown)) == shown
  {
    var ids := ClaimIdsOf(shown);
    forall id | id in ids ensures id in byId {
      var k :| 0 <= k < |ids| && ids[k] == id;
    }
    forall k | 0 <= k < |ids| ensures ids[k] in ids {
    }
  }

  lemma IdsOfAreValid(ids: seq<string>, catalog: seq<Claim>)
    requires Distinct(ids) && TraceableCatalog(catalog) && forall id :: id in ids ==> id in ById(catalog)
    ensures ValidIds(ids)
  {
    var known := set c | c in catalog :: c.id;
    forall id | id in ids ensures ValidClaimId(id) && id in known {
      ByIdFinds(catalog, id);
    }
    DistinctFitsInSet(ids, known);
  }

  lemma {:induction false} EligibleIsTraceable(catalog: seq<Claim>, route: Route)
    requires TraceableCatalog(catalog)
    ensures TraceableCatalog(Eligible(catalog, route))
  {
    forall c | c in Eligible(catalog, route) ensures c in catalog {
      EligibleIff(catalog, route, c);
    }
    var part, whole := set c | c in Eligible(catalog, route) :: c.id, set c | c in catalog :: c.id;
    assert part <= whole;
    SubsetsAreSmaller(part, whole);
  }

  lemma {:induction false} SubsetsAreSmaller(part: set<string>, whole: set<string>)
    requires part <= whole
    ensures |part| <= |whole|
  {
    if part != {} {
      var x :| x in part;
      SubsetsAreSmaller(part - {x}, whole - {x});
    }
  }

  lemma ResultsKeepTheirPromises(
      facts: Facts, price: Option<ModelPrice>, refused: nat, peak: nat, ending: Ending, reaction: Reaction,
      evidence: RunEvidence, runId: string, catalog: seq<Claim>, question: Question)
    requires Consistent(facts, price) && ValidTrace(TraceOf(facts, price, refused, peak, ending))
    requires ending.mode == reaction.mode && (ending.termination.Answered? <==> reaction.Explanation?)
    requires forall id :: id in ending.selected ==> id in facts.returned
    requires reaction.Unavailable? ==> ending.rendered == [] && reaction.reason == ending.termination
    requires reaction.Explanation? ==> question.Routed? && ExplainsAsPromised(
      AgentResult(reaction, TraceOf(facts, price, refused, peak, ending)), evidence, runId, catalog, question.route)
    ensures KeepsItsPromises(
      AgentResult(reaction, TraceOf(facts, price, refused, peak, ending)), evidence, runId, catalog, question)
  {
    hide ExplainsAsPromised, ValidTrace;
    EveryCallIsValidOrNot(facts.toolCalls);
  }

  /** What a trace takes over from the recorder at the end of a conversation. */
  ghost predicate Takes(
      trace: Trace, price: Option<ModelPrice>, facts: Facts, refused: nat, peakPromptChars: nat)
  {
    && AccountsFor(trace, price)
    && trace.turns == facts.turns && trace.toolCalls == facts.toolCalls && trace.returned == facts.returned
    && trace.usage == facts.usage && trace.usageComplete == facts.usageComplete
    && trace.toolCallsRefused == refused && trace.peakPromptChars == peakPromptChars
  }

  lemma TracesTake(facts: Facts, price: Option<ModelPrice>, refused: nat, peakPromptChars: nat, ending: Ending)
    requires Consistent(facts, price)
    ensures Takes(TraceOf(facts, price, refused, peakPromptChars, ending), price, facts, refused, peakPromptChars)
  {
    TracesAccount(facts, price, refused, peakPromptChars, ending);
  }

  ghost predicate GroundsAs(
      evidence: RunEvidence, runId: string, catalog: seq<Claim>, route: Route, retrieved: map<string, Claim>,
      claimIds: seq<string>, trace: Trace)
  {
    && SelectionEndsAs(evidence, runId, catalog, route, retrieved, claimIds, trace.termination, trace.rendered)
    && trace.detail == NoDetail && trace.selected == KnownIds(claimIds, retrieved)
    && trace.selectedIdsRejected == |claimIds| - |trace.selected|
  }

  class AgentService {
    const agent: ReadOnlyAgent
    const modelMode: ModelMode
    const price: Option<ModelPrice>

    constructor (agent: ReadOnlyAgent, modelMode: ModelMode, price: Option<ModelPrice>)
      requires price.Some? ==> SanePrice(price.value)
      ensures this.agent == agent && this.modelMode == modelMode && this.price == price
    {
      this.agent, this.modelMode, this.price := agent, modelMode, price;
    }

    function SettingOf(catalog: seq<Claim>, route: Route, userMessage: string): Setting {
      agent.SettingFor(Eligible(catalog, route), userMessage)
    }

    /** The finished trace is that of everything recorded, with this ending. */
    ghost predicate TraceSays(trace: Trace, recorder: TraceRecorder, ending: Ending)
      reads recorder
    {
      && trace == TraceOf(
           recorder.State(), recorder.price, recorder.toolCallsRefused, recorder.peakPromptChars, ending)
      && Takes(trace, recorder.price, recorder.State(), recorder.toolCallsRefused, recorder.peakPromptChars)
      && trace.termination == ending.termination && trace.detail == ending.detail
      && trace.selected == ending.selected && trace.rendered == ending.rendered
      && trace.selectedIdsRejected == ending.selectedIdsRejected
    }

    function ModeOf(turns: seq<TurnTrace>): ModelMode {
      if turns != [] then modelMode else NotInvoked
    }

    /** The result was closed at the last reading of the clock. */
    ghost predicate TookUntilNow(trace: Trace, started: real)
      reads agent
    {
      && agent.readings >= 1
      && var seconds := agent.clock(agent.readings - 1) - started;
         trace.durationMs == if seconds > 0.0 then seconds * 1000.0 else 0.0
    }

    /** A result names the mode of the model when a turn was recorded, or when the model has had its say. */
    predicate NamesTheMode(trace: Trace) {
      trace.mode ==
        if trace.turns != [] || trace.termination in {Answered, NoRelevantClaim} then modelMode else NotInvoked
    }

    /** The conversation of a question starts at the second reading of the clock. */
    function BoundsOf(start: nat): Bounds {
      agent.BoundsFor(price, start + 1, agent.clock(start) + agent.limits.totalTimeoutSeconds)
    }

    /**
     * The ending and the trace of a result are those that the model's replies, the limits and the clock determine; the
     * question came at reading `start`.
     */
    ghost predicate FollowsTheConversation(
        trace: Trace, evidence: RunEvidence, runId: string, catalog: seq<Claim>, question: Question,
        userMessage: string, start: nat)
      reads agent
    {
      if question.Unsupported? then trace.termination == UnsupportedQuestion && trace.detail == NoDetail
      else if !CanAnswer(Eligible(catalog, question.route), question.route) then
        trace.termination == EvidenceNotAvailable && trace.detail == NoDetail
      else
        ConcludesAs(
          trace, evidence, runId, catalog, question.route, SettingOf(catalog, question.route, userMessage),
          BoundsOf(start))
    }

    ghost predicate ConcludesAs(
        trace: Trace, evidence: RunEvidence, runId: string, catalog: seq<Claim>, route: Route, setting: Setting,
        bounds: Bounds)
      reads agent
    {
      var stop := HowItEnds(setting, bounds, agent.asked);
      && Takes(
           trace, bounds.price, FactsAtEnd(setting, bounds, agent.asked), RefusedAtEnd(setting, bounds, agent.asked),
           PeakAtEnd(setting, bounds, agent.asked))
      && NamesTheMode(trace)
      && (stop.Ended? ==>
            && trace.termination == stop.reason && trace.detail == stop.detail
            && trace.selected == [] && trace.rendered == [] && trace.selectedIdsRejected == 0)
      && (stop.Selection? ==>
            GroundsAs(evidence, runId, catalog, route, RetrievedAfter(setting, agent.asked), stop.claimIds, trace))
    }

    /** Closes the trace; an exception escapes when its schema refuses it. */
    method Finish(
        reaction: Reaction, recorder: TraceRecorder, started: real, termination: StopReason, detail: StopDetail,
        selected: seq<string>, rendered: seq<string>, rejected: nat, ghost evidence: RunEvidence, ghost runId: string,
        ghost catalog: seq<Claim>, ghost question: Question)
      returns (result: Option<AgentResult>)
      requires Consistent(recorder.State(), recorder.price)
      requires recorder.price.Some? ==> SanePrice(recorder.price.value)
      requires termination.Answered? <==> reaction.Explanation?
      requires reaction.Unavailable? ==> rendered == [] && reaction.reason == termination
      requires forall id :: id in selected ==> id in recorder.returned
      requires reaction.Explanation? ==> question.Routed? && forall trace: Trace ::
        trace.selected == selected && trace.rendered == rendered ==>
          ExplainsAsPromised(AgentResult(reaction, trace), evidence, runId, catalog, question.route)
      modifies agent`readings
      ensures result.Some? ==>
        && KeepsItsPromises(result.value, evidence, runId, catalog, question)
        && result.value.reaction == reaction && result.value.trace.mode == reaction.mode
        && result.value.trace.termination == termination && result.value.trace.turns == recorder.turns
        && result.value.trace.selected == selected
        && TraceSays(
             result.value.trace, recorder,
             Ending(termination, detail, reaction.mode, agent.clock(old(agent.readings)) - started, selected, rendered,
               rejected))
      ensures result.Some? ==> TookUntilNow(result.value.trace, started)
      ensures result.Some? <==> ValidIds(recorder.returned) && ValidIds(selected) && ValidIds(rendered)
    {
      hide KeepsItsPromises, ExplainsAsPromised, AccountsFor;
      var now := agent.Now();
      var ending := Ending(termination, detail, reaction.mode, now - started, selected, rendered, rejected);
      TracesAreAcceptedIff(
        recorder.State(), recorder.price, recorder.toolCallsRefused, recorder.peakPromptChars, ending);
      TracesTake(recorder.State(), recorder.price, recorder.toolCallsRefused, recorder.peakPromptChars, ending);
      var trace := recorder.Build(ending);
      if trace.None? {
        return None;
      }
      ResultsKeepTheirPromises(
        recorder.State(), recorder.price, recorder.toolCallsRefused, recorder.peakPromptChars, ending, reaction,
        evidence, runId, catalog, question);
      return Some(AgentResult(reaction, trace.value));
    }

    /** Publishes a grounded selection, or the reason why it was not. */
    method Publish(
        evidence: RunEvidence, runId: string, catalog: seq<Claim>, route: Route, retrieved: map<string, Claim>,
        claimIds: seq<string>, recorder: TraceRecorder, started: real)
      returns (result: Option<AgentResult>)
      requires agent.Tracks(recorder, retrieved, Eligible(catalog, route)) && Distinct(claimIds)
      requires recorder.price.Some? ==> SanePrice(recorder.price.value)
      modifies agent`readings
      ensures result.Some? ==> KeepsItsPromises(result.value, evidence, runId, catalog, Routed(route))
      ensures result.Some? ==> result.value.trace.turns == recorder.turns
      ensures result.Some? ==>
        && Takes(
             result.value.trace, recorder.price, recorder.State(), recorder.toolCallsRefused,
             recorder.peakPromptChars)
        && GroundsAs(evidence, runId, catalog, route, retrieved, claimIds, result.value.trace)
        && NamesTheMode(result.value.trace) && TookUntilNow(result.value.trace, started)
      ensures result.Some? && result.value.reaction.Explanation? ==>
        result.value.trace.selected == claimIds && forall id :: id in claimIds ==> id in retrieved
      ensures TraceableCatalog(catalog) ==> result.Some?
      ensures AllCitationsValid(catalog, evidence, runId) && result.Some? ==>
        !result.value.trace.termination.CitationRejected?
    {
      hide KeepsItsPromises, Consistent, AllCitationsValid, ShownAsPromised, Eligible, ServerClaimsOnly,
        TraceableCatalog, SelectionEndsAs, TraceOf, ShownClaims, KnownIds, MergeAll, AllCitations, Takes;
      var verdict, known := Ground(evidence, runId, catalog, route, retrieved, claimIds, recorder.returned);
      KnownAreReturned(claimIds, retrieved, Eligible(catalog, route), recorder.returned);
      KnownIdsIff(claimIds, retrieved);
      IdListsFit(recorder.State(), recorder.price, known, catalog, route);
      if verdict.NotGrounded? {
        var mode := if verdict.reason.NoRelevantClaim? then modelMode else ModeOf(recorder.turns);
        result := Finish(
          Unavailable(verdict.reason, mode), recorder, started, verdict.reason, NoDetail, known, [], verdict.rejected,
          evidence, runId, catalog, Routed(route));
        return;
      }
      var shown := verdict.shown;
      var (answer, citations) := RenderClaims(shown);
      var reaction := Explanation(answer, citations, modelMode);
      ExplanationsKeepPromises(reaction, shown, evidence, runId, catalog, route, known);
      ShownIdsFit(shown, catalog, route, known);
      result := Finish(
        reaction, recorder, started, Answered, NoDetail, known, ClaimIdsOf(shown), 0, evidence, runId, catalog,
        Routed(route));
    }

    /**
     * One question, whatever the model and the tool handlers do. The result keeps its promises, or an exception of the
     * trace escaped. Over a catalog of at most 32 valid ids that happens exactly when calls that were let through
     * returned more than the trace can list, and never with the shipped tools.
     */
    method AnswerQuestion(
        evidence: RunEvidence, runId: string, catalog: seq<Claim>, question: Question, userMessage: string)
      returns (result: Option<AgentResult>)
      requires agent.Valid() && (price.Some? ==> SanePrice(price.value))
      modifies agent
      ensures result.Some? ==> KeepsItsPromises(result.value, evidence, runId, catalog, question)
      ensures result.Some? ==> |result.value.trace.turns| == CountRecorded(agent.model, agent.asked)
      ensures GoodConversation(agent.asked, agent.settings) && |agent.asked| <= agent.limits.maxModelTurns
      ensures Conforms(Histories(agent.asked))
      ensures question.Routed? ==> FollowsTheModel(SettingOf(catalog, question.route, userMessage), agent.asked)
      ensures result.Some? && result.value.reaction.Explanation? ==>
        && question.Routed?
        && var setting := SettingOf(catalog, question.route, userMessage);
           && IsTheSelection(setting, agent.asked, result.value.trace.selected)
           && forall id :: id in result.value.trace.selected ==> id in RetrievedAfter(setting, agent.asked)
      ensures question.Unsupported? || !CanAnswer(Eligible(catalog, question.route), question.route) ==>
        agent.asked == [] && result.Some? && result.value.reaction.Unavailable? && result.value.trace.mode.NotInvoked?
      ensures TraceableCatalog(catalog) && question.Routed?
        && ShortAnswers(agent.specs, Eligible(catalog, question.route))
        ==> result.Some?
      ensures question.Routed? && TraceableCatalog(catalog) ==>
        (result.None? <==> agent.Overflowed(SettingOf(catalog, question.route, userMessage)))
      ensures TraceableCatalog(catalog) && DistinctClaimIds(catalog) && agent.specs == READ_ONLY_TOOLS ==> result.Some?
      ensures AllCitationsValid(catalog, evidence, runId) && result.Some? ==>
        !result.value.trace.termination.CitationRejected?
      ensures result.Some? ==>
        FollowsTheConversation(
          result.value.trace, evidence, runId, catalog, question, userMessage, old(agent.readings))
        && TookUntilNow(result.value.trace, agent.clock(old(agent.readings)))
      ensures question.Routed? && CanAnswer(Eligible(catalog, question.route), question.route) ==>
        var setting, bounds := SettingOf(catalog, question.route, userMessage), BoundsOf(old(agent.readings));
        && IsOver(setting, bounds, agent.asked) && TimedRequests(setting, bounds, agent.asked)
        && agent.BoundRequests(Eligible(catalog, question.route))
    {
      hide KeepsItsPromises, Consistent, AllCitationsValid, Eligible, ServerClaimsOnly, TraceableCatalog, ShortAnswers,
        GoodConversation, Conforms, CanAnswer, ReturnedAreKnown, FollowsTheModel, IsTheSelection, RetrievedAfter,
        RoundsFit, LetThrough, DistinctClaimIds, READ_ONLY_TOOLS, HowItEnds, FactsAtEnd, RefusedAtEnd, PeakAtEnd,
        GroundsAs, IsOver, TimedRequests, Takes, TraceOf, Traceable, ConcludesAs;
      var started := agent.Now();
      agent.asked, agent.late := [], false;
      NothingAsked(agent.settings);
      if question.Routed? {
        ConversationStarts(SettingOf(catalog, question.route, userMessage), agent.settings);
        NothingLetThrough(SettingOf(catalog, question.route, userMessage), agent.limits);
      }
      var recorder := new TraceRecorder(price);
      NothingIsConsistent(price);
      if question.Unsupported? {
        result := Abstain(recorder, started, UnsupportedQuestion, evidence, runId, catalog, question);
        return;
      }
      var route := question.route;
      var eligible := Eligible(catalog, route);
      if !CanAnswer(eligible, route) {
        result := Abstain(recorder, started, EvidenceNotAvailable, evidence, runId, catalog, question);
        return;
      }
      result := AnswerRouted(evidence, runId, catalog, route, userMessage, recorder, started, old(agent.readings));
    }

    /** A question that its route has claims for: the conversation, and what it leads to. */
    method AnswerRouted(
        evidence: RunEvidence, runId: string, catalog: seq<Claim>, route: Route, userMessage: string,
        recorder: TraceRecorder, started: real, ghost start: nat)
      returns (result: Option<AgentResult>)
      requires agent.Valid() && recorder.price == price && (price.Some? ==> SanePrice(price.value))
      requires recorder.State() == NOTHING && recorder.toolCallsRefused == 0 && recorder.peakPromptChars == 0
      requires agent.readings == start + 1 && started == agent.clock(start)
      modifies agent, recorder
      ensures GoodConversation(agent.asked, agent.settings) && |agent.asked| <= agent.limits.maxModelTurns
      ensures Conforms(Histories(agent.asked))
      ensures FollowsTheModel(SettingOf(catalog, route, userMessage), agent.asked)
      ensures result.Some? ==>
        && KeepsItsPromises(result.value, evidence, runId, catalog, Routed(route))
        && |result.value.trace.turns| == CountRecorded(agent.model, agent.asked)
        && ConcludesAs(
             result.value.trace, evidence, runId, catalog, route, SettingOf(catalog, route, userMessage),
             BoundsOf(start))
        && TookUntilNow(result.value.trace, started)
      ensures result.Some? && result.value.reaction.Explanation? ==>
        var setting := SettingOf(catalog, route, userMessage);
        && IsTheSelection(setting, agent.asked, result.value.trace.selected)
        && forall id :: id in result.value.trace.selected ==> id in RetrievedAfter(setting, agent.asked)
      ensures TraceableCatalog(catalog) ==>
        (result.None? <==> agent.Overflowed(SettingOf(catalog, route, userMessage)))
      ensures TraceableCatalog(catalog) && ShortAnswers(agent.specs, Eligible(catalog, route)) ==> result.Some?
      ensures TraceableCatalog(catalog) && DistinctClaimIds(catalog) && agent.specs == READ_ONLY_TOOLS ==> result.Some?
      ensures AllCitationsValid(catalog, evidence, runId) && result.Some? ==>
        !result.value.trace.termination.CitationRejected?
      ensures IsOver(SettingOf(catalog, route, userMessage), BoundsOf(start), agent.asked)
      ensures agent.BoundRequests(Eligible(catalog, route))
      ensures TimedRequests(SettingOf(catalog, route, userMessage), BoundsOf(start), agent.asked)
    {
      hide KeepsItsPromises, Consistent, AllCitationsValid, Eligible, ServerClaimsOnly, TraceableCatalog, ShortAnswers,
        GoodConversation, Conforms, ReturnedAreKnown, FollowsTheModel, IsTheSelection, RetrievedAfter, RoundsFit,
        LetThrough, DistinctClaimIds, READ_ONLY_TOOLS, HowItEnds, FactsAtEnd, RefusedAtEnd, PeakAtEnd, GroundsAs,
        IsOver, TimedRequests, Takes, Traceable, ConcludesAs, CountRecorded;
      var stop, retrieved := agent.Converse(userMessage, Eligible(catalog, route), recorder, started);
      GoodConversationsConform(agent.asked, agent.settings);
      EligibleStaysTraceable(agent.specs, catalog, route);
      ShippedToolsStayTraceable(catalog, route);
      result := Conclude(
        stop, retrieved, evidence, runId, catalog, route, recorder, started, SettingOf(catalog, route, userMessage),
        BoundsOf(start));
    }

    /** What the end of the conversation leads to: a typed reason, a selection to publish, or an exception. */
    method Conclude(
        stop: Stop, retrieved: map<string, Claim>, evidence: RunEvidence, runId: string, catalog: seq<Claim>,
        route: Route, recorder: TraceRecorder, started: real, ghost setting: Setting, ghost bounds: Bounds)
      returns (result: Option<AgentResult>)
      requires agent.Tracks(recorder, retrieved, Eligible(catalog, route))
      requires agent.EndedOnRecord(setting, bounds, recorder, stop)
      requires stop.Selection? ==>
        Distinct(stop.claimIds) && retrieved == RetrievedAfter(setting, agent.asked)
      requires stop.Ended? ==> LoopReason(stop.reason)
      requires recorder.price == price && (price.Some? ==> SanePrice(price.value))
      modifies agent`readings
      ensures result.Some? ==>
        && KeepsItsPromises(result.value, evidence, runId, catalog, Routed(route))
        && result.value.trace.turns == recorder.turns
        && ConcludesAs(result.value.trace, evidence, runId, catalog, route, setting, bounds)
        && TookUntilNow(result.value.trace, started)
      ensures stop == Escaped ==> result.None?
      ensures stop != Escaped && TraceableCatalog(catalog) ==> result.Some?
      ensures result.Some? && result.value.reaction.Explanation? ==>
        stop.Selection? && result.value.trace.selected == stop.claimIds
        && forall id :: id in stop.claimIds ==> id in retrieved
      ensures AllCitationsValid(catalog, evidence, runId) && result.Some? ==>
        !result.value.trace.termination.CitationRejected?
    {
      hide KeepsItsPromises, Consistent, AllCitationsValid, Eligible, ServerClaimsOnly, TraceableCatalog,
        ReturnedAreKnown, RetrievedAfter, HowItEnds, FactsAtEnd, RefusedAtEnd, PeakAtEnd, GroundsAs, IsOver,
        TimedRequests, Takes, TraceOf;
      match stop {
        case Escaped =>
          return None;
        case Ended(reason, detail) =>
          IdListsFit(recorder.State(), price, [], catalog, route);
          result := Finish(
            Unavailable(reason, ModeOf(recorder.turns)), recorder, started, reason, detail, [], [], 0, evidence, runId,
            catalog, Routed(route));
        case Selection(claimIds) =>
          result := Publish(evidence, runId, catalog, route, retrieved, claimIds, recorder, started);
      }
    }

    /** A deterministic abstention: no model ran. */
    method Abstain(
        recorder: TraceRecorder, started: real, reason: StopReason, ghost evidence: RunEvidence, ghost runId: string,
        ghost catalog: seq<Claim>, ghost question: Question)
      returns (result: Option<AgentResult>)
      requires recorder.State() == NOTHING && (recorder.price.Some? ==> SanePrice(recorder.price.value))
      requires reason.UnsupportedQuestion? || reason.EvidenceNotAvailable?
      modifies agent`readings
      ensures result.Some? && KeepsItsPromises(result.value, evidence, runId, catalog, question)
      ensures result.value.reaction == Unavailable(reason, NotInvoked) && result.value.trace.turns == []
      ensures result.value.trace.termination == reason && result.value.trace.mode == NotInvoked
      ensures result.value.trace.detail == NoDetail && TookUntilNow(result.value.trace, started)
    {
      hide Consistent;
      NothingIsConsistent(recorder.price);
      result := Finish(
        Unavailable(reason, NotInvoked), recorder, started, reason, NoDetail, [], [], 0, evidence, runId, catalog,
        question);
    }
  }

  lemma NothingAsked(settings: Settings)
    ensures GoodConversation([], settings) && Conforms(Histories([]))
  {
  }

  lemma NothingLetThrough(setting: Setting, limits: Limits)
    ensures !LetThrough(setting, limits, [])
  {
  }

  lemma EligibleStaysTraceable(specs: seq<ToolSpec>, catalog: seq<Claim>, route: Route)
    ensures TraceableCatalog(catalog) && ShortAnswers(specs, Eligible(catalog, route)) ==>
      Traceable(specs, Eligible(catalog, route))
  {
    if TraceableCatalog(catalog) {
      EligibleIsTraceable(catalog, route);
    }
  }

  lemma {:induction false} EligibleIdsStayDistinct(catalog: seq<Claim>, route: Route)
    requires DistinctClaimIds(catalog)
    ensures DistinctClaimIds(Eligible(catalog, route))
  {
    if catalog != [] {
      var earlier, last := catalog[..|catalog| - 1], catalog[|catalog| - 1];
      EligibleIdsStayDistinct(earlier, route);
      forall c | c in Eligible(earlier, route) ensures c.id != last.id {
        EligibleIff(earlier, route, c);
        var i :| 0 <= i < |earlier| && earlier[i] == c;
        assert catalog[i] == c;
      }
    }
  }

  lemma ShippedToolsStayTraceable(catalog: seq<Claim>, route: Route)
    ensures TraceableCatalog(catalog) && DistinctClaimIds(catalog) ==>
      Traceable(READ_ONLY_TOOLS, Eligible(catalog, route))
  {
    if TraceableCatalog(catalog) && DistinctClaimIds(catalog) {
      EligibleIsTraceable(catalog, route);
      EligibleIdsStayDistinct(catalog, route);
      ShippedToolsAreTraceable(Eligible(catalog, route));
    }
  }

  lemma KnownAreReturned(
      claimIds: seq<string>, retrieved: map<string, Claim>, eligible: seq<Claim>, returned: seq<string>)
    requires ServerClaimsOnly(retrieved, eligible, returned) && Distinct(claimIds)
    ensures var known := KnownIds(claimIds, retrieved);
      Distinct(known) && forall id :: id in known ==> id in returned
  {
    KnownIdsIff(claimIds, retrieved);
  }

  lemma IdListsFit(
      facts: Facts, price: Option<ModelPrice>, known: seq<string>, catalog: seq<Claim>, route: Route)
    requires Consistent(facts, price) && ReturnedAreKnown(facts.returned, Eligible(catalog, route))
    requires Distinct(known) && forall id :: id in known ==> id in facts.returned
    ensures TraceableCatalog(catalog) ==> ValidIds(facts.returned) && ValidIds(known)
  {
    if TraceableCatalog(catalog) {
      EligibleIsTraceable(catalog, route);
      IdsOfAreValid(facts.returned, Eligible(catalog, route));
      IdsOfAreValid(known, Eligible(catalog, route));
    }
  }

  lemma ShownIdsFit(shown: seq<Claim>, catalog: seq<Claim>, route: Route, known: seq<string>)
    requires ShownAsPromised(shown, catalog, route, known)
    ensures TraceableCatalog(catalog) ==> ValidIds(ClaimIdsOf(shown))
  {
    if TraceableCatalog(catalog) {
      NamedClaimsAreTheShown(shown, ById(catalog));
      IdsOfAreValid(ClaimIdsOf(shown), catalog);
    }
  }

  lemma ExplanationsKeepPromises(
      reaction: Reaction, shown: seq<Claim>, evidence: RunEvidence, runId: string, catalog: seq<Claim>, route: Route,
      known: seq<string>)
    requires ShownAsPromised(shown, catalog, route, known)
    requires reaction.Explanation? && reaction.answer == Answer(shown)
    requires reaction.citations == MergeAll(AllCitations(shown))
    requires forall c :: c in reaction.citations ==> ValidCitation(c, evidence, runId)
    requires |shown[0].text| <= MAX_ANSWER_CHARS ==> |Answer(shown)| <= MAX_ANSWER_CHARS
    ensures forall trace: Trace :: trace.selected == known && trace.rendered == ClaimIdsOf(shown) ==>
      ExplainsAsPromised(AgentResult(reaction, trace), evidence, runId, catalog, route)
  {
    hide MergeAll, AllCitations, Answer, ValidCitation, ReadsAsShown;
    NamedClaimsAreTheShown(shown, ById(catalog));
    AnswersReadAsShown(shown);
  }
}
