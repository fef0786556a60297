/** Server-authored claims, and how a validated selection of them becomes an answer. */
module Grounding {
  import opened Common

  datatype Citation = Citation(
    runId: string, fieldPath: string, artifactId: Option<string>, schemaVersion: Option<string>,
    sourceSha256: Option<string>)

  datatype Claim = Claim(id: string, text: string, citations: seq<Citation>)

  /** The claim ids a question may be answered from. */
  type Route = set<string>

  const OUTPUT_NATURE_CLAIM_ID := "output_nature"
  const MAX_ANSWER_CHARS: nat := 4000

  datatype GroundingError = ForgedCitation

  // -- looking claims up -----------------------------------------------------

  function Eligible(catalog: seq<Claim>, route: Route): seq<Claim> {
    if catalog == [] then []
    else
      var last := catalog[|catalog| - 1];
      Eligible(catalog[..|catalog| - 1], route)
      + if last.id in route || last.id == OUTPUT_NATURE_CLAIM_ID then [last] else []
  }

  predicate CanAnswer(eligible: seq<Claim>, route: Route) {
    exists c :: c in eligible && c.id in route
  }

  /** By id; a later claim replaces an earlier one of the same id. */
  function ById(claims: seq<Claim>): map<string, Claim> {
    if claims == [] then map[]
    else var last := claims[|claims| - 1]; ById(claims[..|claims| - 1])[last.id := last]
  }

  lemma {:induction false} EligibleIff(catalog: seq<Claim>, route: Route, c: Claim)
    ensures c in Eligible(catalog, route) <==> c in catalog && (c.id in route || c.id == OUTPUT_NATURE_CLAIM_ID)
  {
    if catalog != [] {
      EligibleIff(catalog[..|catalog| - 1], route, c);
      assert catalog == catalog[..|catalog| - 1] + [catalog[|catalog| - 1]];
    }
  }

  lemma {:induction false} ByIdFinds(claims: seq<Claim>, id: string)
    ensures id in ById(claims) <==> exists c :: c in claims && c.id == id
    ensures id in ById(claims) ==> ById(claims)[id] in claims && ById(claims)[id].id == id
  {
    if claims != [] {
      var earlier, last := claims[..|claims| - 1], claims[|claims| - 1];
      ByIdFinds(earlier, id);
      assert claims == earlier + [last];
      assert last in claims;
    }
  }

  /** The last of the claims with its id. */
  ghost predicate IsLast(claims: seq<Claim>, c: Claim) {
    exists i :: 0 <= i < |claims| && claims[i] == c && forall j :: i < j < |claims| ==> claims[j].id != c.id
  }

  lemma {:induction false} ByIdHoldsTheLast(claims: seq<Claim>, c: Claim)
    ensures c.id in ById(claims) && ById(claims)[c.id] == c <==> IsLast(claims, c)
  {
    if claims != [] {
      var earlier, last := claims[..|claims| - 1], claims[|claims| - 1];
      ByIdHoldsTheLast(earlier, c);
      if last.id == c.id {
        assert claims[|claims| - 1].id == c.id;
      } else {
        assert IsLast(earlier, c) ==> IsLast(claims, c);
        if i :| 0 <= i < |claims| && claims[i] == c && forall j :: i < j < |claims| ==> claims[j].id != c.id {
          assert earlier[i] == c;
        }
      }
    }
  }

  /** The selected claims in order, each once; `None` when an id is not among them. */
  function Selected(byId: map<string, Claim>, ids: seq<string>): Option<seq<Claim>> {
    if ids == [] then Some([])
    else
      var id := ids[|ids| - 1];
      match Selected(byId, ids[..|ids| - 1])
      case None => None
      case Some(earlier) =>
        if id !in byId then None
        else if byId[id] in earlier then Some(earlier)
        else Some(earlier + [byId[id]])
  }

  lemma {:induction false} SelectedIff(byId: map<string, Claim>, ids: seq<string>)
    ensures Selected(byId, ids).Some? <==> forall id :: id in ids ==> id in byId
    ensures Selected(byId, ids).Some? ==>
      && Distinct(Selected(byId, ids).value)
      && forall c :: c in Selected(byId, ids).value <==> exists id :: id in ids && id in byId && byId[id] == c
  {
    if ids != [] {
      var earlier, id := ids[..|ids| - 1], ids[|ids| - 1];
      SelectedIff(byId, earlier);
      assert ids == earlier + [id];
      if Selected(byId, ids).Some? {
        forall c ensures c in Selected(byId, ids).value <==> exists i :: i in ids && i in byId && byId[i] == c {
          if c == byId[id] {
            assert id in ids;
          }
        }
      }
    }
  }

  // -- greedy rendering ------------------------------------------------------

  predicate Fits(length: nat, c: Claim) {
    length + 1 + |c.text| <= MAX_ANSWER_CHARS
  }

  /** The claims shown after the label, and the length of the answer with them. */
  function Greedy(labelClaim: Claim, selected: seq<Claim>): (seq<Claim>, nat) {
    if selected == [] then ([labelClaim], |labelClaim.text|)
    else
      var (shown, length) := Greedy(labelClaim, selected[..|selected| - 1]);
      var c := selected[|selected| - 1];
      if c != labelClaim && Fits(length, c) then (shown + [c], length + 1 + |c.text|) else (shown, length)
  }

  function ShownClaims(eligible: seq<Claim>, ids: seq<string>, route: Route)
    : Result<Option<seq<Claim>>, GroundingError>
  {
    var byId := ById(eligible);
    match Selected(byId, ids)
    case None => Err(ForgedCitation)
    case Some(selected) =>
      if OUTPUT_NATURE_CLAIM_ID !in byId || !CanAnswer(selected, route) then Ok(None)
      else Ok(Some(Greedy(byId[OUTPUT_NATURE_CLAIM_ID], selected).0))
  }

  method ClaimsToRender(eligible: seq<Claim>, ids: seq<string>, route: Route)
    returns (shown: Result<Option<seq<Claim>>, GroundingError>)
    ensures shown == ShownClaims(eligible, ids, route)
  {
    var byId: map<string, Claim> := map[];
    for i := 0 to |eligible|
      invariant byId == ById(eligible[..i])
    {
      assert eligible[..i + 1][..i] == eligible[..i];
      byId := byId[eligible[i].id := eligible[i]];
    }
    assert eligible[..|eligible|] == eligible;
    var selected: seq<Claim> := [];
    for i := 0 to |ids|
      invariant Selected(byId, ids[..i]) == Some(selected)
    {
      assert ids[..i + 1][..i] == ids[..i];
      if ids[i] !in byId {
        SelectedIff(byId, ids);
        assert ids[i] in ids;
        return Err(ForgedCitation);
      }
      if byId[ids[i]] !in selected {
        selected := selected + [byId[ids[i]]];
      }
    }
    assert ids[..|ids|] == ids;
    if OUTPUT_NATURE_CLAIM_ID !in byId || !CanAnswer(selected, route) {
      return Ok(None);
    }
    var labelClaim := byId[OUTPUT_NATURE_CLAIM_ID];
    var rendered, length := [labelClaim], |labelClaim.text|;
    for i := 0 to |selected|
      invariant (rendered, length) == Greedy(labelClaim, selected[..i])
    {
      assert selected[..i + 1][..i] == selected[..i];
      var c := selected[i];
      if c != labelClaim && length + 1 + |c.text| <= MAX_ANSWER_CHARS {
        rendered := rendered + [c];
        length := length + 1 + |c.text|;
      }
    }
    assert selected[..|selected|] == selected;
    return Ok(Some(rendered));
  }

  // -- the answer ------------------------------------------------------------

  /** The texts of the claims, joined by single spaces. */
  function Answer(shown: seq<Claim>): string {
    if shown == [] then ""
    else if |shown| == 1 then shown[0].text
    else Answer(shown[..|shown| - 1]) + " " + shown[|shown| - 1].text
  }

  /** What makes two citations the same one in an answer. */
  datatype Key = Key(runId: string, fieldPath: string, artifactId: Option<string>)

  function KeyOf(c: Citation): Key {
    Key(c.runId, c.fieldPath, c.artifactId)
  }

  function AllCitations(shown: seq<Claim>): seq<Citation> {
    if shown == [] then [] else AllCitations(shown[..|shown| - 1]) + shown[|shown| - 1].citations
  }

  /** An earlier citation of the same key keeps its place and takes the new value. */
  function Merge(merged: seq<Citation>, c: Citation): seq<Citation> {
    if merged == [] then [c]
    else if KeyOf(merged[0]) == KeyOf(c) then [c] + merged[1..]
    else [merged[0]] + Merge(merged[1..], c)
  }

  function MergeAll(cited: seq<Citation>): seq<Citation> {
    if cited == [] then [] else Merge(MergeAll(cited[..|cited| - 1]), cited[|cited| - 1])
  }

  function RenderClaims(shown: seq<Claim>): (string, seq<Citation>) {
    (Answer(shown), MergeAll(AllCitations(shown)))
  }

  lemma {:induction false} AllCitationsIff(shown: seq<Claim>, c: Citation)
    ensures c in AllCitations(shown) <==> exists k :: k in shown && c in k.citations
  {
    if shown != [] {
      AllCitationsIff(shown[..|shown| - 1], c);
      assert shown == shown[..|shown| - 1] + [shown[|shown| - 1]];
      assert shown[|shown| - 1] in shown;
    }
  }

  ghost predicate DistinctKeys(cited: seq<Citation>) {
    forall i, j :: 0 <= i < j < |cited| ==> KeyOf(cited[i]) != KeyOf(cited[j])
  }

  lemma {:induction false} MergeReplacesOneKey(merged: seq<Citation>, c: Citation)
    requires DistinctKeys(merged)
    ensures DistinctKeys(Merge(merged, c))
    ensures forall x :: x in Merge(merged, c) <==> x == c || (x in merged && KeyOf(x) != KeyOf(c))
  {
    if merged != [] {
      var rest := merged[1..];
      assert merged == [merged[0]] + rest;
      MergeReplacesOneKey(rest, c);
      var next := Merge(rest, c);
      if KeyOf(merged[0]) == KeyOf(c) {
        assert forall x :: x in rest ==> KeyOf(x) != KeyOf(c);
      } else {
        assert forall i :: 0 <= i < |next| ==> next[i] in next;
      }
    }
  }

  /** The last one of its key. */
  ghost predicate LastOfItsKey(cited: seq<Citation>, c: Citation) {
    exists i :: 0 <= i < |cited| && cited[i] == c && forall j :: i < j < |cited| ==> KeyOf(cited[j]) != KeyOf(c)
  }

  lemma LastOfItsKeyOneMore(cited: seq<Citation>, last: Citation, c: Citation)
    ensures LastOfItsKey(cited + [last], c) <==> c == last || (LastOfItsKey(cited, c) && KeyOf(c) != KeyOf(last))
  {
    var all := cited + [last];
    if LastOfItsKey(all, c) {
      var i :| 0 <= i < |all| && all[i] == c && forall j :: i < j < |all| ==> KeyOf(all[j]) != KeyOf(c);
      if i < |cited| {
        assert cited[i] == c && KeyOf(all[|cited|]) != KeyOf(c);
        assert forall j :: i < j < |cited| ==> KeyOf(all[j]) == KeyOf(cited[j]);
      }
    }
    if LastOfItsKey(cited, c) && KeyOf(c) != KeyOf(last) {
      var i :| 0 <= i < |cited| && cited[i] == c && forall j :: i < j < |cited| ==> KeyOf(cited[j]) != KeyOf(c);
      assert all[i] == c;
    }
    assert all[|cited|] == last;
  }

  /** The citations of an answer are those of the claims shown, one for each key: the last one given. */
  lemma {:induction false} MergedAreTheLastOfEachKey(cited: seq<Citation>)
    ensures DistinctKeys(MergeAll(cited))
    ensures forall c :: c in MergeAll(cited) <==> LastOfItsKey(cited, c)
  {
    if cited != [] {
      var earlier, last := cited[..|cited| - 1], cited[|cited| - 1];
      MergedAreTheLastOfEachKey(earlier);
      MergeReplacesOneKey(MergeAll(earlier), last);
      assert cited == earlier + [last];
      forall c ensures LastOfItsKey(cited, c) <==> c == last || (LastOfItsKey(earlier, c) && KeyOf(c) != KeyOf(last)) {
        LastOfItsKeyOneMore(earlier, last, c);
      }
    }
  }

  /** Two citations are the same one in an answer when they are of one run, one path and one artifact. */
  lemma CitationsAreMergedByRunPathAndArtifact(cited: seq<Citation>)
    ensures forall i, j :: 0 <= i < j < |MergeAll(cited)| ==>
      var a, b := MergeAll(cited)[i], MergeAll(cited)[j];
      a.runId != b.runId || a.fieldPath != b.fieldPath || a.artifactId != b.artifactId
    ensures forall c :: c in cited ==> exists kept ::
      kept in MergeAll(cited) && kept.runId == c.runId && kept.fieldPath == c.fieldPath
      && kept.artifactId == c.artifactId
  {
    hide MergeAll;
    MergedAreTheLastOfEachKey(cited);
    forall c | c in cited
      ensures exists kept ::
        kept in MergeAll(cited) && kept.runId == c.runId && kept.fieldPath == c.fieldPath
        && kept.artifactId == c.artifactId
    {
      var kept := EveryKeyIsKept(cited, c);
    }
  }

  /** No key of a shown claim is lost: some citation carries it. */
  lemma {:induction false} EveryKeyIsKept(cited: seq<Citation>, c: Citation) returns (kept: Citation)
    requires c in cited
    ensures kept in MergeAll(cited) && kept in cited && KeyOf(kept) == KeyOf(c)
  {
    var earlier, last := cited[..|cited| - 1], cited[|cited| - 1];
    assert cited == earlier + [last];
    MergedAreTheLastOfEachKey(earlier);
    MergeReplacesOneKey(MergeAll(earlier), last);
    if KeyOf(last) == KeyOf(c) {
      kept := last;
    } else {
      kept := EveryKeyIsKept(earlier, c);
    }
  }

  // -- what greedy rendering guarantees --------------------------------------

  lemma {:induction false} GreedyLengthIsTheAnswers(labelClaim: Claim, selected: seq<Claim>)
    ensures var (shown, length) := Greedy(labelClaim, selected);
      shown != [] && shown[0] == labelClaim && length == |Answer(shown)|
  {
    if selected != [] {
      var earlier := selected[..|selected| - 1];
      GreedyLengthIsTheAnswers(labelClaim, earlier);
      var shown, c := Greedy(labelClaim, earlier).0, selected[|selected| - 1];
      assert (shown + [c])[..|shown|] == shown;
    }
  }

  /** Whole claims only: an answer is never longer than the limit, unless the label alone is. */
  lemma {:induction false} AnswersAreBounded(labelClaim: Claim, selected: seq<Claim>)
    ensures Greedy(labelClaim, selected).1 <=
      if |labelClaim.text| <= MAX_ANSWER_CHARS then MAX_ANSWER_CHARS else |labelClaim.text|
    ensures |labelClaim.text| <= Greedy(labelClaim, selected).1
  {
    if selected != [] {
      AnswersAreBounded(labelClaim, selected[..|selected| - 1]);
    }
  }

  /** A selected claim is left out only when there was no room for it, and there is none at the end either. */
  lemma {:induction false} NoDroppedClaimWouldFit(labelClaim: Claim, selected: seq<Claim>, c: Claim)
    requires c in selected && c != labelClaim
    ensures var (shown, length) := Greedy(labelClaim, selected); c in shown || !Fits(length, c)
  {
    var earlier, last := selected[..|selected| - 1], selected[|selected| - 1];
    if c in earlier {
      NoDroppedClaimWouldFit(labelClaim, earlier, c);
    } else {
      assert selected == earlier + [last];
    }
  }

  lemma {:induction false} ShownWereSelected(labelClaim: Claim, selected: seq<Claim>)
    ensures forall k :: 1 <= k < |Greedy(labelClaim, selected).0| ==>
      Greedy(labelClaim, selected).0[k] in selected && Greedy(labelClaim, selected).0[k] != labelClaim
  {
    if selected != [] {
      var earlier, last := selected[..|selected| - 1], selected[|selected| - 1];
      ShownWereSelected(labelClaim, earlier);
      assert selected == earlier + [last];
      assert last in selected;
      GreedyLengthIsTheAnswers(labelClaim, earlier);
    }
  }

  lemma {:induction false} AnyShownFitsBesideTheLabel(labelClaim: Claim, selected: seq<Claim>)
    ensures |Greedy(labelClaim, selected).0| > 1 ==>
      exists c :: c in selected && c != labelClaim && Fits(|labelClaim.text|, c)
  {
    if selected != [] {
      var earlier, last := selected[..|selected| - 1], selected[|selected| - 1];
      AnyShownFitsBesideTheLabel(labelClaim, earlier);
      AnswersAreBounded(labelClaim, earlier);
      assert selected == earlier + [last];
      assert last in selected;
    }
  }

  lemma {:induction false} LabelAloneMeansNoLength(labelClaim: Claim, selected: seq<Claim>)
    ensures |Greedy(labelClaim, selected).0| >= 1
    ensures |Greedy(labelClaim, selected).0| == 1 ==> Greedy(labelClaim, selected).1 == |labelClaim.text|
  {
    if selected != [] {
      LabelAloneMeansNoLength(labelClaim, selected[..|selected| - 1]);
    }
  }

  /** Something besides the label is shown exactly when some selected claim fits beside the label. */
  lemma MoreThanTheLabelIsShownIff(labelClaim: Claim, selected: seq<Claim>)
    ensures |Greedy(labelClaim, selected).0| > 1 <==>
      exists c :: c in selected && c != labelClaim && Fits(|labelClaim.text|, c)
  {
    AnyShownFitsBesideTheLabel(labelClaim, selected);
    LabelAloneMeansNoLength(labelClaim, selected);
    GreedyLengthIsTheAnswers(labelClaim, selected);
    if c :| c in selected && c != labelClaim && Fits(|labelClaim.text|, c) {
      NoDroppedClaimWouldFit(labelClaim, selected, c);
    }
  }

  lemma {:induction false} ShownStayDistinct(labelClaim: Claim, selected: seq<Claim>)
    requires Distinct(selected)
    ensures Distinct(Greedy(labelClaim, selected).0)
  {
    if selected != [] {
      var earlier := selected[..|selected| - 1];
      ShownStayDistinct(labelClaim, earlier);
      ShownWereSelected(labelClaim, earlier);
      GreedyLengthIsTheAnswers(labelClaim, earlier);
    }
  }

  // -- where each claim stands in the answer ---------------------------------

  function TextLengths(shown: seq<Claim>): nat {
    if shown == [] then 0 else TextLengths(shown[..|shown| - 1]) + |shown[|shown| - 1].text|
  }

  /** Claim `k` starts after the earlier texts, and one space for each. */
  function PlaceOf(shown: seq<Claim>, k: nat): nat
    requires k < |shown|
  {
    TextLengths(shown[..k]) + k
  }

  /** The text of claim `k` stands at its place, behind a space unless it is the first. */
  ghost predicate StandsInPlace(answer: string, shown: seq<Claim>, k: nat)
    requires k < |shown|
  {
    var at := PlaceOf(shown, k);
    && at + |shown[k].text| <= |answer|
    && answer[at..at + |shown[k].text|] == shown[k].text
    && (k > 0 ==> answer[at - 1] == ' ')
  }

  /** The answer is the texts of the claims in their order, with one space between neighbours, and nothing else. */
  lemma {:induction false} AnswersJoinTheTexts(shown: seq<Claim>, k: nat)
    requires k < |shown|
    ensures |Answer(shown)| == TextLengths(shown) + |shown| - 1
    ensures StandsInPlace(Answer(shown), shown, k)
  {
    var n := |shown| - 1;
    if n == 0 {
      assert shown[..0] == [];
    } else {
      var earlier := shown[..n];
      AnswersJoinTheTexts(earlier, if k < n then k else n - 1);
      assert Answer(shown) == Answer(earlier) + " " + shown[n].text;
      assert TextLengths(shown) == TextLengths(earlier) + |shown[n].text|;
      hide Answer, TextLengths;
      if k < n {
        assert earlier[..k] == shown[..k];
        LongerAnswersKeepTheirPlaces(earlier, shown, k);
      } else {
        assert PlaceOf(shown, n) == |Answer(earlier)| + 1;
      }
    }
  }

  lemma LongerAnswersKeepTheirPlaces(earlier: seq<Claim>, shown: seq<Claim>, k: nat)
    requires k < |earlier| <= |shown| && earlier[..k] == shown[..k] && earlier[k] == shown[k]
    requires Answer(earlier) <= Answer(shown) && StandsInPlace(Answer(earlier), earlier, k)
    ensures StandsInPlace(Answer(shown), shown, k)
  {
    hide Answer, TextLengths;
    assert PlaceOf(shown, k) == PlaceOf(earlier, k);
    PrefixesKeepTheirPlaces(Answer(earlier), Answer(shown), PlaceOf(shown, k), shown[k].text);
  }

  lemma PrefixesKeepTheirPlaces(part: string, whole: string, at: nat, text: string)
    requires part <= whole && at + |text| <= |part| && part[at..at + |text|] == text
    ensures at + |text| <= |whole| && whole[at..at + |text|] == text
    ensures 0 < at ==> whole[at - 1] == part[at - 1]
  {
    assert part == whole[..|part|];
    assert whole[at..at + |text|] == whole[..|part|][at..at + |text|];
  }

  /** So an answer begins with the text of its first claim. */
  lemma AnswersBeginWithTheFirst(shown: seq<Claim>)
    requires shown != []
    ensures shown[0].text <= Answer(shown)
  {
    AnswersJoinTheTexts(shown, 0);
    assert shown[..0] == [];
  }

  // -- exactly which claims are shown ----------------------------------------

  ghost predicate HasClaim(claims: seq<Claim>, id: string) {
    exists c :: c in claims && c.id == id
  }

  /** A selection is rejected for an unknown id, and unanswered without a label or without a routed id. */
  lemma SelectionsAreAnsweredIff(eligible: seq<Claim>, ids: seq<string>, route: Route)
    ensures var shown := ShownClaims(eligible, ids, route);
      && (shown.Err? <==> exists id :: id in ids && !HasClaim(eligible, id))
      && (shown == Ok(None) <==>
            && (forall id :: id in ids ==> HasClaim(eligible, id))
            && (!HasClaim(eligible, "output_nature") || forall id :: id in ids ==> id !in route))
  {
    var byId := ById(eligible);
    SelectedIff(byId, ids);
    forall id ensures id in byId <==> HasClaim(eligible, id) {
      ByIdFinds(eligible, id);
    }
    assert OUTPUT_NATURE_CLAIM_ID == "output_nature";
    if Selected(byId, ids).Some? {
      var selected := Selected(byId, ids).value;
      forall id | id in ids ensures byId[id].id == id && byId[id] in selected {
        ByIdFinds(eligible, id);
      }
      assert CanAnswer(selected, route) <==> exists id :: id in ids && id in route;
    }
  }

  /** Of distinct ids, the selected claims are the server's, in the order of the ids. */
  lemma {:induction false} SelectedInOrder(byId: map<string, Claim>, ids: seq<string>)
    requires Distinct(ids) && forall id :: id in ids ==> id in byId && byId[id].id == id
    ensures Selected(byId, ids).Some? && |Selected(byId, ids).value| == |ids|
    ensures forall i :: 0 <= i < |ids| ==> ids[i] in byId && Selected(byId, ids).value[i] == byId[ids[i]]
  {
    if ids != [] {
      var earlier, last := ids[..|ids| - 1], ids[|ids| - 1];
      SelectedInOrder(byId, earlier);
      var selected := Selected(byId, earlier).value;
      assert forall i :: 0 <= i < |earlier| ==> selected[i].id == ids[i] && earlier[i] == ids[i];
      assert last in ids && byId[last] !in selected;
    }
  }

  lemma {:induction false} GreedyGrows(labelClaim: Claim, selected: seq<Claim>, k: nat)
    requires k <= |selected|
    ensures var earlier, all := Greedy(labelClaim, selected[..k]).0, Greedy(labelClaim, selected).0;
      && earlier <= all
      && forall i :: |earlier| <= i < |all| ==> all[i] in selected[k..]
  {
    if k == |selected| {
      assert selected[..k] == selected;
    } else {
      var n := |selected| - 1;
      GreedyGrows(labelClaim, selected[..n], k);
      assert selected[..n][..k] == selected[..k];
      assert selected[k..] == selected[..n][k..] + [selected[n]];
    }
  }

  /**
   * Each selected claim is shown exactly when it fits behind what is shown of the claims selected before it: those are
   * the first `p` claims shown, the label among them.
   */
  lemma GreedyIsExact(labelClaim: Claim, selected: seq<Claim>, k: nat) returns (p: nat)
    requires Distinct(selected) && k < |selected| && selected[k] != labelClaim
    ensures var shown := Greedy(labelClaim, selected).0;
      && 1 <= p <= |shown|
      && (forall i :: 1 <= i < |shown| ==> (shown[i] in selected[..k] <==> i < p))
      && (selected[k] in shown <==> |Answer(shown[..p])| + 1 + |selected[k].text| <= 4000)
      && (selected[k] in shown ==> p < |shown| && shown[p] == selected[k])
  {
    hide Greedy, Answer;
    var shown, before := Greedy(labelClaim, selected).0, Greedy(labelClaim, selected[..k]).0;
    var after := Greedy(labelClaim, selected[..k + 1]).0;
    p := |before|;
    GreedyGrows(labelClaim, selected, k);
    GreedyGrows(labelClaim, selected, k + 1);
    OneStepOfGreedy(labelClaim, selected, k);
    ShownWereSelected(labelClaim, selected[..k]);
    PartsAreDisjoint(selected, k);
    PartsAreDisjoint(selected, k + 1);
    assert shown[..p] == before;
    assert selected[k] in selected[..k + 1] && selected[k] in selected[k..];
    forall i | 1 <= i < |shown| ensures shown[i] in selected[..k] <==> i < p {
      if i < p {
        assert shown[i] == before[i];
      }
    }
    if |after| > p {
      assert shown[p] == after[p] == selected[k];
    }
  }

  lemma PartsAreDisjoint(selected: seq<Claim>, k: nat)
    requires Distinct(selected) && k <= |selected|
    ensures forall x :: x in selected[k..] ==> x !in selected[..k]
  {
  }

  lemma OneStepOfGreedy(labelClaim: Claim, selected: seq<Claim>, k: nat)
    requires k < |selected| && selected[k] != labelClaim
    ensures var before, after := Greedy(labelClaim, selected[..k]).0, Greedy(labelClaim, selected[..k + 1]).0;
      && |before| >= 1 && before[0] == labelClaim
      && after == if |Answer(before)| + 1 + |selected[k].text| <= 4000 then before + [selected[k]] else before
  {
    assert selected[..k + 1][..k] == selected[..k];
    GreedyLengthIsTheAnswers(labelClaim, selected[..k]);
  }

  // -- where each citation stands --------------------------------------------

  /** Where a key first occurs; the length, when it does not. */
  function FirstPlace(cited: seq<Citation>, key: Key): nat {
    if cited == [] || KeyOf(cited[0]) == key then 0 else 1 + FirstPlace(cited[1..], key)
  }

  lemma {:induction false} FirstPlaceOneMore(cited: seq<Citation>, last: Citation, key: Key)
    ensures FirstPlace(cited, key) <= |cited|
    ensures FirstPlace(cited, key) < |cited| <==> exists c :: c in cited && KeyOf(c) == key
    ensures FirstPlace(cited, key) < |cited| ==> FirstPlace(cited + [last], key) == FirstPlace(cited, key)
    ensures FirstPlace(cited, key) == |cited| && KeyOf(last) == key ==> FirstPlace(cited + [last], key) == |cited|
  {
    if cited != [] {
      FirstPlaceOneMore(cited[1..], last, key);
      assert (cited + [last])[1..] == cited[1..] + [last];
      assert cited == [cited[0]] + cited[1..];
    }
  }

  lemma {:induction false} MergeKeepsPlaces(merged: seq<Citation>, c: Citation)
    ensures var next := Merge(merged, c);
      && |merged| <= |next| <= |merged| + 1
      && (forall i :: 0 <= i < |merged| ==> KeyOf(next[i]) == KeyOf(merged[i]))
      && (|next| == |merged| + 1 ==> next[|merged|] == c && forall x :: x in merged ==> KeyOf(x) != KeyOf(c))
  {
    if merged != [] && KeyOf(merged[0]) != KeyOf(c) {
      MergeKeepsPlaces(merged[1..], c);
      assert merged == [merged[0]] + merged[1..];
    }
  }

  /** The citations of an answer stand in the order in which their keys first occurred. */
  lemma {:induction false} MergedInOrder(cited: seq<Citation>, i: nat, j: nat)
    requires i < j < |MergeAll(cited)|
    ensures FirstPlace(cited, KeyOf(MergeAll(cited)[i])) < FirstPlace(cited, KeyOf(MergeAll(cited)[j])) < |cited|
  {
    hide Merge, FirstPlace;
    var earlier, last := cited[..|cited| - 1], cited[|cited| - 1];
    var merged, next := MergeAll(earlier), MergeAll(cited);
    assert cited == earlier + [last];
    MergeKeepsPlaces(merged, last);
    var a, b := KeyOf(next[i]), KeyOf(next[j]);
    assert a == KeyOf(merged[i]);
    FirstPlaceOneMore(earlier, last, a);
    FirstPlaceOneMore(earlier, last, b);
    MergedAreCited(earlier, i);
    if j < |merged| {
      MergedAreCited(earlier, j);
      MergedInOrder(earlier, i, j);
    } else {
      NewKeysWereNotCited(earlier, last);
    }
  }

  lemma MergedAreCited(cited: seq<Citation>, i: nat)
    requires i < |MergeAll(cited)|
    ensures exists c :: c in cited && KeyOf(c) == KeyOf(MergeAll(cited)[i])
  {
    MergedAreTheLastOfEachKey(cited);
    assert MergeAll(cited)[i] in MergeAll(cited);
  }

  lemma NewKeysWereNotCited(cited: seq<Citation>, c: Citation)
    requires forall x :: x in MergeAll(cited) ==> KeyOf(x) != KeyOf(c)
    ensures forall x :: x in cited ==> KeyOf(x) != KeyOf(c)
  {
    forall x | x in cited ensures KeyOf(x) != KeyOf(c) {
      var kept := EveryKeyIsKept(cited, x);
    }
  }
}
