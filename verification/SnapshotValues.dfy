/** What a snapshot says: every value in it is taken from the payload or the run, and which ones are taken. */
module SnapshotValues {
  import opened Common
  import opened RunContract
  import opened Evidence
  import opened Snapshot
  import RunJson

  // -- fields taken from a payload -------------------------------------------

  /** A finite number that is not negative. */
  predicate IsAmount(value: Json) {
    (value.Int? && value.i >= 0 && FitsAFloat(value.i)) || (value.Float? && value.r >= 0.0)
  }

  predicate IsCount(value: Json) {
    value.Int? && IsAmount(value)
  }

  predicate IsNumber(value: Json) {
    value.Float? || (value.Int? && FitsAFloat(value.i))
  }

  /** Of the named fields, those that are as wanted, each with its own value; no other field. */
  ghost predicate Takes(
      before: map<string, Json>, after: map<string, Json>, names: set<string>, wanted: Json -> bool)
  {
    forall name ::
      && (name in after <==> name in names && name in before && wanted(before[name]))
      && (name in after ==> after[name] == before[name])
  }

  /** The same for an object below an object. */
  ghost predicate TakesBelow(
      before: map<string, Json>, after: map<string, Json>, part: string, names: set<string>)
  {
    && (part in after <==> part in before && before[part].Obj?)
    && (part in after ==> after[part].Obj? && Takes(before[part].fields, after[part].fields, names, IsAmount))
  }

  /** A text is taken up to a limit, and a missing one is null. */
  ghost predicate TakesText(before: map<string, Json>, key: string, after: Json, limit: nat) {
    if key in before && before[key].Str? then
      && after.Str? && after.s <= before[key].s
      && |after.s| == if |before[key].s| > limit then limit else |before[key].s|
    else after == Null
  }

  ghost predicate TakesOne(before: map<string, Json>, key: string, after: Json, wanted: Json -> bool) {
    after == if key in before && wanted(before[key]) then before[key] else Null
  }

  /** Three fields that are always there: a text of at most 400 characters, a count and an amount. */
  ghost predicate TakesCriterion(before: map<string, Json>, after: Json) {
    && after.Obj? && after.fields.Keys == {"criterion", "count", "percentage"}
    && TakesText(before, "criterion", after.fields["criterion"], 400)
    && TakesOne(before, "count", after.fields["count"], IsCount)
    && TakesOne(before, "percentage", after.fields["percentage"], IsAmount)
  }

  lemma ReadersTakeWhatIsWanted(value: Json)
    ensures ReadMetric(value) == if IsAmount(value) then Some(value) else None
    ensures ReadCount(value) == if IsCount(value) then Some(value) else None
    ensures ReadNumber(value) == if IsNumber(value) then Some(value) else None
    ensures !IsAmount(Null) && !IsCount(Null) && !IsNumber(Null)
  {
    hide FitsAFloat;
  }

  lemma KeptIsTaken(
      fields: map<string, Json>, names: set<string>, read: Json -> Option<Json>, wanted: Json -> bool)
    requires forall value :: read(value) == if wanted(value) then Some(value) else None
    requires !wanted(Null)
    ensures Takes(fields, Kept(fields, names, read), names, wanted)
  {
  }

  lemma AmountsAreTaken(fields: map<string, Json>, names: set<string>)
    ensures Takes(fields, Kept(fields, names, ReadMetric), names, IsAmount)
    ensures Takes(fields, Kept(fields, names, ReadCount), names, IsCount)
    ensures Takes(fields, Kept(fields, names, ReadNumber), names, IsNumber)
  {
    hide Takes, Kept, IsAmount, IsCount, IsNumber, Number, Metric, Count;
    forall value
      ensures ReadMetric(value) == if IsAmount(value) then Some(value) else None
      ensures ReadCount(value) == if IsCount(value) then Some(value) else None
      ensures ReadNumber(value) == if IsNumber(value) then Some(value) else None
    {
      ReadersTakeWhatIsWanted(value);
    }
    ReadersTakeWhatIsWanted(Null);
    KeptIsTaken(fields, names, ReadMetric, IsAmount);
    KeptIsTaken(fields, names, ReadCount, IsCount);
    KeptIsTaken(fields, names, ReadNumber, IsNumber);
  }

  lemma CriteriaAreTaken(fields: map<string, Json>)
    ensures TakesCriterion(fields, CriterionBlock(fields))
  {
    hide FitsAFloat;
  }

  // -- the observed metrics --------------------------------------------------

  /** Where a field of several objects put together comes from: of two with its name, the later. */
  lemma FourMaps(
      a: map<string, Json>, b: map<string, Json>, c: map<string, Json>, d: map<string, Json>, name: string)
    ensures var all := a + b + c + d;
      && (name in all <==> name in a || name in b || name in c || name in d)
      && (name in d ==> all[name] == d[name])
      && (name !in d && name in c ==> all[name] == c[name])
      && (name !in d && name !in c && name in b ==> all[name] == b[name])
      && (name !in d && name !in c && name !in b && name in a ==> all[name] == a[name])
  {
  }

  const CORE_NAMES: set<string> := {
    "total_detections", "total_tracklets", "tracklets_per_video_minute", "track_start_rate_per_minute",
    "track_end_rate_per_minute", "detection_assignment_fraction"}
  const PART_NAMES: set<string> := {
    "tracklet_duration_seconds", "observations_per_tracklet", "insufficient_tracklets",
    "active_simultaneous_tracklets"}

  lemma NamesOfPartsDiffer()
    ensures CORE_NAMES !! PART_NAMES
    ensures "short_tracklets" !in CORE_NAMES + PART_NAMES && "fragmentation_trend_bins" !in CORE_NAMES + PART_NAMES
    ensures "short_tracklets" != "fragmentation_trend_bins"
  {
    OddNamesDiffer();
    assert "tracklet_duration_seconds" !in CORE_NAMES by {
      assert "track_end_rate_per_minute"[5] == '_' && "tracklet_duration_seconds"[5] == 'l';
    }
    assert "observations_per_tracklet" !in CORE_NAMES by {
      assert "track_end_rate_per_minute"[0] == 't' && "observations_per_tracklet"[0] == 'o';
    }
    assert "insufficient_tracklets" !in CORE_NAMES;
    assert "active_simultaneous_tracklets" !in CORE_NAMES by {
      assert "detection_assignment_fraction"[0] == 'd' && "active_simultaneous_tracklets"[0] == 'a';
    }
    hide CORE_NAMES;
  }

  lemma OddNamesDiffer()
    ensures "short_tracklets" !in CORE_NAMES + PART_NAMES && "fragmentation_trend_bins" !in CORE_NAMES + PART_NAMES
    ensures "short_tracklets" != "fragmentation_trend_bins"
  {
    assert |"short_tracklets"| == 15 && |"fragmentation_trend_bins"| == 24;
    assert "short_tracklets"[0] == 's' && "total_tracklets"[0] == 't';
  }

  lemma CoreMetricsAreTaken(observed: map<string, Json>)
    ensures CoreMetrics(observed).Keys <= CORE_NAMES
    ensures forall name :: name in {"total_detections", "total_tracklets"} ==>
      && (name in CoreMetrics(observed) <==> name in observed && IsCount(observed[name]))
      && (name in CoreMetrics(observed) ==> CoreMetrics(observed)[name] == observed[name])
    ensures forall name :: name in CORE_NAMES - {"total_detections", "total_tracklets"} ==>
      && (name in CoreMetrics(observed) <==> name in observed && IsAmount(observed[name]))
      && (name in CoreMetrics(observed) ==> CoreMetrics(observed)[name] == observed[name])
  {
    hide Kept, IsAmount, IsCount, IsNumber;
    AmountsAreTaken(observed, {"total_detections", "total_tracklets"});
    AmountsAreTaken(observed, RATE_NAMES);
    TotalsAreNoRates();
  }

  lemma TotalsAreNoRates()
    ensures "total_detections" !in RATE_NAMES && "total_tracklets" !in RATE_NAMES
    ensures CORE_NAMES == {"total_detections", "total_tracklets"} + RATE_NAMES
  {
    assert forall name :: name in RATE_NAMES ==> |name| >= 25;
    assert |"total_detections"| == 16 && |"total_tracklets"| == 15;
  }

  lemma PartsAreTaken(observed: map<string, Json>)
    ensures MetricParts(observed).Keys <= PART_NAMES
    ensures TakesBelow(
      observed, MetricParts(observed), "tracklet_duration_seconds", {"min", "median", "mean", "p90", "p95", "max"})
    ensures TakesBelow(observed, MetricParts(observed), "observations_per_tracklet", {"median", "mean"})
    ensures TakesBelow(
      observed, MetricParts(observed), "active_simultaneous_tracklets", {"median", "mean", "p95", "max"})
    ensures var part := "insufficient_tracklets";
      && (part in MetricParts(observed) <==> part in observed && observed[part].Obj?)
      && (part in MetricParts(observed) ==> TakesCriterion(observed[part].fields, MetricParts(observed)[part]))
  {
    hide Kept, IsAmount, IsCount, IsNumber, Takes, TakesCriterion, CriterionBlock;
    FourPartsAreTaken(observed);
    forall fields: map<string, Json>
      ensures Takes(fields, Distribution(fields).fields, {"min", "median", "mean", "p90", "p95", "max"}, IsAmount)
      ensures Takes(fields, Observations(fields).fields, {"median", "mean"}, IsAmount)
      ensures Takes(fields, ActiveTracklets(fields).fields, {"median", "mean", "p95", "max"}, IsAmount)
      ensures TakesCriterion(fields, Criterion(fields))
    {
      AmountsAreTaken(fields, DISTRIBUTION_NAMES);
      AmountsAreTaken(fields, OBSERVATION_NAMES);
      AmountsAreTaken(fields, ACTIVE_NAMES);
      CriteriaAreTaken(fields);
    }
  }

  /** Each of the four parts is what was read below its own name. */
  lemma FourPartsAreTaken(observed: map<string, Json>)
    ensures var parts := MetricParts(observed);
      && parts.Keys <= PART_NAMES
      && IsPart(observed, parts, "tracklet_duration_seconds", Distribution)
      && IsPart(observed, parts, "observations_per_tracklet", Observations)
      && IsPart(observed, parts, "insufficient_tracklets", Criterion)
      && IsPart(observed, parts, "active_simultaneous_tracklets", ActiveTracklets)
  {
    hide Part, IsPart, Distribution, Observations, Criterion, ActiveTracklets;
    PartNamesDiffer();
    var a := Part(observed, "tracklet_duration_seconds", Distribution);
    var b := Part(observed, "observations_per_tracklet", Observations);
    var c := Part(observed, "insufficient_tracklets", Criterion);
    var d := Part(observed, "active_simultaneous_tracklets", ActiveTracklets);
    OnePart(observed, "tracklet_duration_seconds", Distribution, a + b + c + d);
    OnePart(observed, "observations_per_tracklet", Observations, a + b + c + d);
    OnePart(observed, "insufficient_tracklets", Criterion, a + b + c + d);
    OnePart(observed, "active_simultaneous_tracklets", ActiveTracklets, a + b + c + d);
  }

  lemma OnePart(
      fields: map<string, Json>, name: string, read: map<string, Json> -> Json, all: map<string, Json>)
    ensures Part(fields, name, read).Keys <= {name}
    ensures
      (name in all <==> name in Part(fields, name, read))
      && (name in all ==> all[name] == Part(fields, name, read)[name])
      ==> IsPart(fields, all, name, read)
  {
  }

  ghost predicate IsPart(
      before: map<string, Json>, after: map<string, Json>, name: string, read: map<string, Json> -> Json)
  {
    && (name in after <==> name in before && before[name].Obj?)
    && (name in after ==> after[name] == read(before[name].fields))
  }

  lemma PartNamesDiffer()
    ensures "tracklet_duration_seconds" != "observations_per_tracklet"
    ensures "insufficient_tracklets" !in {
      "tracklet_duration_seconds", "observations_per_tracklet", "active_simultaneous_tracklets"}
    ensures "active_simultaneous_tracklets" !in {"tracklet_duration_seconds", "observations_per_tracklet"}
  {
    assert |"insufficient_tracklets"| == 22 && |"active_simultaneous_tracklets"| == 29;
    assert |"tracklet_duration_seconds"| == 25 && |"observations_per_tracklet"| == 25;
    assert "tracklet_duration_seconds"[0] == 't' && "observations_per_tracklet"[0] == 'o';
  }

  /** Core metrics and their parts: which fields are taken, each with the value of the payload. */
  lemma ObservedMetricsAreTaken(observed: map<string, Json>)
    ensures var metrics := ObservedMetrics(observed);
      && metrics.Keys <= CORE_NAMES + PART_NAMES + {"short_tracklets", "fragmentation_trend_bins"}
      && (forall name :: name in {"total_detections", "total_tracklets"} ==>
            && (name in metrics <==> name in observed && IsCount(observed[name]))
            && (name in metrics ==> metrics[name] == observed[name]))
      && (forall name :: name in CORE_NAMES - {"total_detections", "total_tracklets"} ==>
            && (name in metrics <==> name in observed && IsAmount(observed[name]))
            && (name in metrics ==> metrics[name] == observed[name]))
      && TakesBelow(observed, metrics, "tracklet_duration_seconds", {"min", "median", "mean", "p90", "p95", "max"})
      && TakesBelow(observed, metrics, "observations_per_tracklet", {"median", "mean"})
      && TakesBelow(observed, metrics, "active_simultaneous_tracklets", {"median", "mean", "p95", "max"})
      && ("insufficient_tracklets" in metrics <==>
            "insufficient_tracklets" in observed && observed["insufficient_tracklets"].Obj?)
      && ("insufficient_tracklets" in metrics ==>
            TakesCriterion(observed["insufficient_tracklets"].fields, metrics["insufficient_tracklets"]))
  {
    hide CoreMetrics, MetricParts, ShortTracklets, IsAmount, IsCount, Takes, TakesCriterion, CORE_NAMES, PART_NAMES;
    NamesOfPartsDiffer();
    CoreMetricsAreTaken(observed);
    PartsAreTaken(observed);
    PartNamesAre();
    forall name
      ensures name in CORE_NAMES ==>
        && (name in ObservedMetrics(observed) <==> name in CoreMetrics(observed))
        && (name in CoreMetrics(observed) ==> ObservedMetrics(observed)[name] == CoreMetrics(observed)[name])
      ensures name in PART_NAMES ==>
        && (name in ObservedMetrics(observed) <==> name in MetricParts(observed))
        && (name in MetricParts(observed) ==> ObservedMetrics(observed)[name] == MetricParts(observed)[name])
      ensures name in ObservedMetrics(observed) ==>
        name in CORE_NAMES + PART_NAMES + {"short_tracklets", "fragmentation_trend_bins"}
    {
      FourMaps(
        CoreMetrics(observed), MetricParts(observed), Part(observed, SHORT_TRACKLETS, ShortTracklets),
        TrendBins(observed), name);
    }
  }

  lemma PartNamesAre()
    ensures "tracklet_duration_seconds" in PART_NAMES && "observations_per_tracklet" in PART_NAMES
    ensures "active_simultaneous_tracklets" in PART_NAMES && "insufficient_tracklets" in PART_NAMES
    ensures "total_detections" in CORE_NAMES && "total_tracklets" in CORE_NAMES
  {
  }

  /** Thresholds are taken with their criteria, and of the trend only how many bins it has. */
  lemma ThresholdsAndTrendAreTaken(observed: map<string, Json>)
    ensures var metrics, short := ObservedMetrics(observed), "short_tracklets";
      && (short in metrics <==> short in observed && observed[short].Obj?)
      && (short in metrics ==>
            && metrics[short].Obj?
            && forall key ::
                 && (key in metrics[short].fields <==>
                       key in observed[short].fields && observed[short].fields[key].Obj?)
                 && (key in metrics[short].fields ==>
                       TakesCriterion(observed[short].fields[key].fields, metrics[short].fields[key])))
    ensures var metrics, bins, trend := ObservedMetrics(observed), "fragmentation_trend_bins", "fragmentation_trend";
      && (bins in metrics <==> trend in observed && observed[trend].Arr?)
      && (bins in metrics ==> metrics[bins] == Int(|observed[trend].items|))
  {
    hide CoreMetrics, MetricParts, TakesCriterion, CriterionBlock, CORE_NAMES, PART_NAMES;
    NamesOfPartsDiffer();
    CoreMetricsAreTaken(observed);
    PartsAreTaken(observed);
    var core, parts := CoreMetrics(observed), MetricParts(observed);
    var short, trend := Part(observed, SHORT_TRACKLETS, ShortTracklets), TrendBins(observed);
    FourMaps(core, parts, short, trend, "short_tracklets");
    FourMaps(core, parts, short, trend, "fragmentation_trend_bins");
    forall fields ensures TakesCriterion(fields, CriterionBlock(fields)) {
      CriteriaAreTaken(fields);
    }
  }

  // -- the approved diagnostics ----------------------------------------------

  /** When the diagnostics of a real run are approved. */
  lemma RealDiagnosticsAreApprovedIff(schema: string, payload: map<string, Json>)
    ensures ApprovedReal(schema, payload).Some? <==>
      && "observed_metrics" in payload && payload["observed_metrics"].Obj?
      && var observed := payload["observed_metrics"].fields;
         && "total_detections" in observed && IsCount(observed["total_detections"])
         && "total_tracklets" in observed && IsCount(observed["total_tracklets"])
         && ("data_quality" in payload ==> payload["data_quality"].Null? || payload["data_quality"].Str?)
  {
    hide ObservedMetrics, FitsAFloat, Labels, Judgements;
  }

  lemma LabelsAreTaken(schema: string, payload: map<string, Json>)
    requires var quality := Get(payload, "data_quality"); quality.Null? || Words(quality, LABEL_TEXT).Some?
    ensures var labels := Labels(schema, Get(payload, "data_quality"));
      && "schema" in labels && labels["schema"] == Str(schema) && labels.Keys <= {"schema", "data_quality"}
      && ("data_quality" in labels <==> "data_quality" in payload && payload["data_quality"].Str?)
      && ("data_quality" in labels ==> TakesText(payload, "data_quality", labels["data_quality"], 40))
  {
    assert |"schema"| == 6 && |"data_quality"| == 12;
  }

  /** Which sections the approved diagnostics of a real run have. */
  lemma RealDiagnosticsAreTaken(schema: string, payload: map<string, Json>)
    requires ApprovedReal(schema, payload).Some?
    ensures "observed_metrics" in payload && payload["observed_metrics"].Obj?
    ensures var approved := ApprovedReal(schema, payload).value;
      && approved.Keys <= {"schema", "data_quality", "observed_metrics", "interpretation", "ground_truth_metrics"}
      && "schema" in approved && approved["schema"] == Str(schema)
      && "observed_metrics" in approved
      && approved["observed_metrics"] == Obj(ObservedMetrics(payload["observed_metrics"].fields))
      && ("data_quality" in approved <==> "data_quality" in payload && payload["data_quality"].Str?)
      && ("data_quality" in approved ==> TakesText(payload, "data_quality", approved["data_quality"], 40))
  {
    hide ObservedMetrics, FitsAFloat, Labels, Judgements, Count, Words, TakesText;
    SectionNamesDiffer();
    LabelsAreTaken(schema, payload);
    assert Judgements(payload).Keys <= {"interpretation", "ground_truth_metrics"} by {
      NamesOfJudgements(payload);
    }
  }

  lemma NamesOfJudgements(payload: map<string, Json>)
    ensures Judgements(payload).Keys <= {"interpretation", "ground_truth_metrics"}
  {
    hide Interpretation, GroundTruth;
  }

  lemma SectionNamesDiffer()
    ensures "schema" !in {"data_quality", "observed_metrics", "interpretation", "ground_truth_metrics"}
    ensures "data_quality" !in {"observed_metrics", "interpretation", "ground_truth_metrics"}
    ensures "observed_metrics" !in {"interpretation", "ground_truth_metrics"}
    ensures "interpretation" != "ground_truth_metrics"
  {
    assert |"schema"| == 6 && |"data_quality"| == 12 && |"observed_metrics"| == 16;
    assert |"interpretation"| == 14 && |"ground_truth_metrics"| == 20;
  }

  /** A status and one more text, both taken from the payload. */
  ghost predicate TakesStatus(before: map<string, Json>, after: Json, text: string) {
    && after.Obj? && after.fields.Keys == {"status", text}
    && TakesText(before, "status", after.fields["status"], 400)
    && TakesText(before, text, after.fields[text], 600)
  }

  lemma JudgementsAreTaken(schema: string, payload: map<string, Json>)
    requires ApprovedReal(schema, payload).Some?
    ensures var approved := ApprovedReal(schema, payload).value;
      && ("interpretation" in approved <==> "interpretation" in payload && payload["interpretation"].Obj?)
      && ("interpretation" in approved ==>
            TakesStatus(payload["interpretation"].fields, approved["interpretation"], "summary"))
      && ("ground_truth_metrics" in approved <==>
            "ground_truth_metrics" in payload && payload["ground_truth_metrics"].Obj?)
      && ("ground_truth_metrics" in approved ==>
            TakesStatus(payload["ground_truth_metrics"].fields, approved["ground_truth_metrics"], "reason"))
  {
    hide ObservedMetrics, FitsAFloat, Count, TakesStatus, StatusAnd;
    SectionNamesDiffer();
    forall fields
      ensures TakesStatus(fields, Interpretation(fields), "summary")
      ensures TakesStatus(fields, GroundTruth(fields), "reason")
    {
      StatusesAreTaken(fields, "summary");
      StatusesAreTaken(fields, "reason");
    }
  }

  lemma StatusesAreTaken(fields: map<string, Json>, text: string)
    requires text == "summary" || text == "reason"
    ensures TakesStatus(fields, StatusAnd(fields, text), text)
  {
    assert |"status"| == 6 && "status"[1] == 't' && "reason"[1] == 'e' && |"summary"| == 7;
  }

  const TEXT_NAMES: set<string> := {"generator_profile", "data_quality", "message"}
  const NUMBER_NAMES: set<string> := {"output_count", "input_count", "deterministic_seed"}

  /** Where a field of approved synthetic diagnostics comes from. */
  lemma SyntheticFieldsComeFrom(schema: string, payload: map<string, Json>, name: string)
    ensures var approved := ApprovedSynthetic(schema, payload);
      && "schema" in approved
      && (name in TEXT_NAMES ==>
            && (name in approved <==> name in Kept(payload, TEXT_NAMES, ReadLongText))
            && (name in approved ==> approved[name] == Kept(payload, TEXT_NAMES, ReadLongText)[name]))
      && (name in NUMBER_NAMES ==>
            && (name in approved <==> name in Kept(payload, NUMBER_NAMES, ReadNumber))
            && (name in approved ==> approved[name] == Kept(payload, NUMBER_NAMES, ReadNumber)[name]))
      && approved["schema"] == Str(schema)
      && (name in approved ==> name in TEXT_NAMES + NUMBER_NAMES + {"schema", "tracking"})
  {
    SyntheticNamesDiffer();
    KeptNamesAreNamed(payload, TEXT_NAMES, ReadLongText);
    KeptNamesAreNamed(payload, NUMBER_NAMES, ReadNumber);
    SyntheticIsPutTogether(schema, payload);
    hide ApprovedSynthetic, Kept, TEXT_NAMES, NUMBER_NAMES, TrackingBlock;
    var named: map<string, Json> := map["schema" := Str(schema)];
    var texts, numbers := Kept(payload, TEXT_NAMES, ReadLongText), Kept(payload, NUMBER_NAMES, ReadNumber);
    FourMaps(named, texts, numbers, TrackingBlock(payload), name);
    FourMaps(named, texts, numbers, TrackingBlock(payload), "schema");
  }

  function TrackingBlock(payload: map<string, Json>): map<string, Json> {
    var tracking := Get(payload, "tracking");
    var counts := if tracking.Obj? then Kept(tracking.fields, LEGACY_TRACKING_NAMES, ReadCount) else map[];
    if Get(payload, "data_quality") != Str("synthetic") && counts.Keys == LEGACY_TRACKING_NAMES
    then map["tracking" := Obj(counts)] else map[]
  }

  lemma SyntheticIsPutTogether(schema: string, payload: map<string, Json>)
    ensures ApprovedSynthetic(schema, payload) == map["schema" := Str(schema)]
      + Kept(payload, TEXT_NAMES, ReadLongText) + Kept(payload, NUMBER_NAMES, ReadNumber) + TrackingBlock(payload)
    ensures TrackingBlock(payload).Keys <= {"tracking"}
  {
    hide Kept, LEGACY_TRACKING_NAMES;
  }

  lemma KeptNamesAreNamed(fields: map<string, Json>, names: set<string>, read: Json -> Option<Json>)
    ensures Kept(fields, names, read).Keys <= names
  {
  }

  /** What is approved of synthetic diagnostics: three texts and three numbers, and the tracking counts. */
  lemma SyntheticDiagnosticsAreTaken(schema: string, payload: map<string, Json>)
    ensures var approved := ApprovedSynthetic(schema, payload);
      && approved.Keys <= TEXT_NAMES + NUMBER_NAMES + {"schema", "tracking"}
      && "schema" in approved && approved["schema"] == Str(schema)
      && (forall name :: name in TEXT_NAMES ==>
            && (name in approved <==> name in payload && payload[name].Str?)
            && (name in approved ==> TakesText(payload, name, approved[name], 600)))
      && (forall name :: name in NUMBER_NAMES ==>
            && (name in approved <==> name in payload && IsNumber(payload[name]))
            && (name in approved ==> approved[name] == payload[name]))
  {
    hide ApprovedSynthetic, Kept, IsNumber, IsAmount, IsCount, TakesText, TEXT_NAMES, NUMBER_NAMES;
    AmountsAreTaken(payload, NUMBER_NAMES);
    LongTextsAreTaken(payload, TEXT_NAMES);
    forall name
      ensures var approved := ApprovedSynthetic(schema, payload);
        && "schema" in approved && approved["schema"] == Str(schema)
        && (name in TEXT_NAMES ==>
              && (name in approved <==> name in Kept(payload, TEXT_NAMES, ReadLongText))
              && (name in approved ==> approved[name] == Kept(payload, TEXT_NAMES, ReadLongText)[name]))
        && (name in NUMBER_NAMES ==>
              && (name in approved <==> name in Kept(payload, NUMBER_NAMES, ReadNumber))
              && (name in approved ==> approved[name] == Kept(payload, NUMBER_NAMES, ReadNumber)[name]))
        && (name in approved ==> name in TEXT_NAMES + NUMBER_NAMES + {"schema", "tracking"})
    {
      SyntheticFieldsComeFrom(schema, payload, name);
    }
  }

  lemma LongTextsAreTaken(fields: map<string, Json>, names: set<string>)
    ensures forall name ::
      && (name in Kept(fields, names, ReadLongText) <==> name in names && name in fields && fields[name].Str?)
      && (name in Kept(fields, names, ReadLongText) ==>
            TakesText(fields, name, Kept(fields, names, ReadLongText)[name], 600))
  {
  }

  lemma SyntheticNamesDiffer()
    ensures "schema" !in TEXT_NAMES + NUMBER_NAMES + {"tracking"} && "tracking" !in TEXT_NAMES + NUMBER_NAMES
    ensures TEXT_NAMES !! NUMBER_NAMES
  {
    assert |"schema"| == 6 && |"tracking"| == 8 && |"generator_profile"| == 17 && |"data_quality"| == 12;
    assert |"message"| == 7 && |"output_count"| == 12 && |"input_count"| == 11 && |"deterministic_seed"| == 18;
    assert "data_quality"[0] == 'd' && "output_count"[0] == 'o';
  }

  /** The tracking counts of data that is not synthetic are taken when all four are there, and not otherwise. */
  lemma TrackingCountsAreTakenIff(schema: string, payload: map<string, Json>)
    ensures var approved := ApprovedSynthetic(schema, payload);
      "tracking" in approved <==>
        && !("data_quality" in payload && payload["data_quality"] == Str("synthetic"))
        && "tracking" in payload && payload["tracking"].Obj?
        && forall name :: name in {"detection_rows", "tracked_ids", "frames_processed", "max_track_observations"} ==>
             name in payload["tracking"].fields && IsCount(payload["tracking"].fields[name])
    ensures var approved := ApprovedSynthetic(schema, payload);
      "tracking" in approved ==>
        && approved["tracking"].Obj?
        && Takes(payload["tracking"].fields, approved["tracking"].fields,
             {"detection_rows", "tracked_ids", "frames_processed", "max_track_observations"}, IsCount)
  {
    hide Kept, Number, IsCount, IsNumber, IsAmount, Words, Count, LEGACY_TRACKING_NAMES;
    TrackingIsItsOwnPart(schema, payload);
    if "tracking" in payload && payload["tracking"].Obj? {
      var fields := payload["tracking"].fields;
      AmountsAreTaken(fields, LEGACY_TRACKING_NAMES);
      TrackingNamesAre();
      assert Kept(fields, LEGACY_TRACKING_NAMES, ReadCount).Keys <= LEGACY_TRACKING_NAMES;
    }
  }

  lemma TrackingNamesAre()
    ensures LEGACY_TRACKING_NAMES == {
      "detection_rows", "tracked_ids", "frames_processed", "max_track_observations"}
  {
  }

  lemma TrackingIsItsOwnPart(schema: string, payload: map<string, Json>)
    ensures var approved, tracking := ApprovedSynthetic(schema, payload), Get(payload, "tracking");
      && ("tracking" in approved <==>
            && Get(payload, "data_quality") != Str("synthetic")
            && tracking.Obj? && Kept(tracking.fields, LEGACY_TRACKING_NAMES, ReadCount).Keys == LEGACY_TRACKING_NAMES)
      && ("tracking" in approved ==>
            tracking.Obj? && approved["tracking"] == Obj(Kept(tracking.fields, LEGACY_TRACKING_NAMES, ReadCount)))
  {
    SyntheticNamesDiffer();
    KeptNamesAreNamed(payload, TEXT_NAMES, ReadLongText);
    KeptNamesAreNamed(payload, NUMBER_NAMES, ReadNumber);
    SyntheticIsPutTogether(schema, payload);
    BlocksHoldTheCounts(payload);
    hide ApprovedSynthetic, Kept, TEXT_NAMES, NUMBER_NAMES, TrackingBlock, LEGACY_TRACKING_NAMES;
    var named: map<string, Json> := map["schema" := Str(schema)];
    var texts, numbers := Kept(payload, TEXT_NAMES, ReadLongText), Kept(payload, NUMBER_NAMES, ReadNumber);
    FourMaps(named, texts, numbers, TrackingBlock(payload), "tracking");
    assert "schema" != "tracking";
  }

  lemma BlocksHoldTheCounts(payload: map<string, Json>)
    ensures var tracking := Get(payload, "tracking");
      && ("tracking" in TrackingBlock(payload) <==>
            && Get(payload, "data_quality") != Str("synthetic")
            && tracking.Obj? && Kept(tracking.fields, LEGACY_TRACKING_NAMES, ReadCount).Keys == LEGACY_TRACKING_NAMES)
      && ("tracking" in TrackingBlock(payload) ==>
            TrackingBlock(payload)["tracking"] == Obj(Kept(tracking.fields, LEGACY_TRACKING_NAMES, ReadCount)))
  {
    hide Kept;
    assert "tracked_ids" in LEGACY_TRACKING_NAMES;
  }

  // -- the sections ----------------------------------------------------------

  lemma FixedSectionsAre(run: AnalysisRun, w: Wordings)
    ensures var sections := FixedSections(run, w);
      && sections.Keys ==
           {"run", "output_nature", "source_video", "models", "code", "limitations", "missing_evidence"}
      && sections["source_video"] == SourceVideo(run) && sections["code"] == CodeSection(run.code)
      && sections["models"] == Models(run.models)
  {
    hide Section, Models, Texts, SourceVideo, CodeSection;
  }

  /** A snapshot is its fixed sections, its artifacts, and the diagnostics that were loaded. */
  lemma SectionsArePutTogether(
      run: AnalysisRun, diagnostics: Option<Diagnostics>, intact: string -> bool, w: Wordings, name: string)
    ensures SnapshotOf(run, diagnostics, intact, w).Obj?
    ensures var fields, fixed := SnapshotOf(run, diagnostics, intact, w).fields, FixedSections(run, w);
      && (name in fields <==> name in fixed || name == "artifacts" || (name == "diagnostics" && diagnostics.Some?))
      && (name in fixed && name != "artifacts" && name != "diagnostics" ==> fields[name] == fixed[name])
      && (name == "artifacts" && name != "diagnostics" ==>
            fields[name] == Obj(ArtifactEntries(run.artifacts, intact)))
      && (name == "diagnostics" && diagnostics.Some? ==> fields[name] == Obj(diagnostics.value.approved))
  {
    hide FixedSections, ArtifactEntries;
  }

  /** The provenance sections repeat the record of the run, and the diagnostics are those approved. */
  lemma ProvenanceIsTheRuns(run: AnalysisRun, diagnostics: Option<Diagnostics>, intact: string -> bool, w: Wordings)
    ensures var snapshot := SnapshotOf(run, diagnostics, intact, w);
      && snapshot.Obj?
      && {"code", "source_video", "artifacts"} <= snapshot.fields.Keys
      && snapshot.fields["code"] == Obj(map[
           "repository" := Str(run.code.repository), "revision" := Str(run.code.revision),
           "dirty" := Bool(run.code.dirty)])
      && snapshot.fields["source_video"] == Obj(
           map["sha256" := Str(run.input.sha256), "media_type" := Str(run.input.mediaType)] + SafeDuration(run))
      && snapshot.fields["artifacts"] == Obj(ArtifactEntries(run.artifacts, intact))
      && ("diagnostics" in snapshot.fields <==> diagnostics.Some?)
      && (diagnostics.Some? ==> snapshot.fields["diagnostics"] == Obj(diagnostics.value.approved))
  {
    hide FixedSections, ArtifactEntries, SafeDuration, SnapshotOf;
    FixedSectionsAre(run, w);
    SnapshotNamesDiffer();
    SectionsArePutTogether(run, diagnostics, intact, w, "code");
    SectionsArePutTogether(run, diagnostics, intact, w, "source_video");
    SectionsArePutTogether(run, diagnostics, intact, w, "artifacts");
    SectionsArePutTogether(run, diagnostics, intact, w, "diagnostics");
  }

  lemma SnapshotNamesDiffer()
    ensures "artifacts" !in {
      "run", "output_nature", "source_video", "models", "code", "limitations", "missing_evidence", "diagnostics"}
    ensures "diagnostics" !in {
      "run", "output_nature", "source_video", "models", "code", "limitations", "missing_evidence"}
    ensures "code" !in {"run", "output_nature", "source_video", "models", "limitations", "missing_evidence"}
    ensures "source_video" !in {"run", "output_nature", "models", "code", "limitations", "missing_evidence"}
    ensures "duration_seconds" !in {"sha256", "media_type"}
  {
    assert |"artifacts"| == 9 && |"diagnostics"| == 11 && |"code"| == 4 && |"source_video"| == 12 && |"run"| == 3;
    assert |"output_nature"| == 13 && |"models"| == 6 && |"limitations"| == 11 && |"missing_evidence"| == 16;
    assert |"duration_seconds"| == 16 && |"sha256"| == 6 && |"media_type"| == 10;
    assert "limitations"[0] == 'l' && "diagnostics"[0] == 'd';
  }

  /** A duration is given exactly when the probe recorded a positive finite one. */
  lemma DurationsAreTheProbes(run: AnalysisRun)
    ensures "duration_seconds" in SafeDuration(run) <==>
      && "video_probe" in run.parameters && run.parameters["video_probe"].Obj?
      && "duration_seconds" in run.parameters["video_probe"].fields
      && var duration := run.parameters["video_probe"].fields["duration_seconds"];
         IsNumber(duration) && (if duration.Int? then duration.i > 0 else duration.r > 0.0)
    ensures "duration_seconds" in SafeDuration(run) ==>
      && "video_probe" in run.parameters && run.parameters["video_probe"].Obj?
      && "duration_seconds" in run.parameters["video_probe"].fields
      && var duration := run.parameters["video_probe"].fields["duration_seconds"];
         SafeDuration(run)["duration_seconds"] ==
           Float(if duration.Int? then duration.i as real else if duration.Float? then duration.r else 0.0)
  {
    hide FitsAFloat;
  }

  /** Each artifact stands under its id as it was registered, with the state its integrity check found. */
  lemma {:induction false} ArtifactsAreTheRuns(artifacts: seq<ArtifactReference>, intact: string -> bool, i: nat)
    requires i < |artifacts|
    requires forall j :: i < j < |artifacts| ==> artifacts[j].artifactId != artifacts[i].artifactId
    ensures var entries, a := ArtifactEntries(artifacts, intact), artifacts[i];
      && a.artifactId in entries && entries[a.artifactId].Obj?
      && var fields := entries[a.artifactId].fields;
         && {"name", "relative_path", "media_type", "size_bytes", "sha256", "schema_version", "integrity_state"}
            <= fields.Keys
         && fields["name"] == Str(a.name) && fields["relative_path"] == Str(a.relativePath)
         && fields["media_type"] == Str(a.mediaType) && fields["size_bytes"] == Int(a.sizeBytes)
         && fields["sha256"] == Str(a.sha256)
         && fields["schema_version"] == (if a.schemaVersion.Some? then Str(a.schemaVersion.value) else Null)
         && fields["integrity_state"] == Str(if intact(a.artifactId) then "verified" else "invalid")
  {
    hide RunJson.CategoryText;
    var last := |artifacts| - 1;
    if i < last {
      hide ArtifactEntry;
      ArtifactsAreTheRuns(artifacts[..last], intact, i);
    }
  }

  /** Its category is written as in the record of the run. */
  lemma {:induction false} CategoriesAreTheRuns(artifacts: seq<ArtifactReference>, intact: string -> bool, i: nat)
    requires i < |artifacts|
    requires forall j :: i < j < |artifacts| ==> artifacts[j].artifactId != artifacts[i].artifactId
    ensures var entries, a := ArtifactEntries(artifacts, intact), artifacts[i];
      && a.artifactId in entries && entries[a.artifactId].Obj? && "category" in entries[a.artifactId].fields
      && entries[a.artifactId].fields["category"] == RunJson.EncodeArtifact(a).fields["category"]
  {
    hide RunJson.CategoryText;
    var last := |artifacts| - 1;
    if i < last {
      hide ArtifactEntry;
      CategoriesAreTheRuns(artifacts[..last], intact, i);
    }
  }

  /** Models are listed in their order as in the record of the run. */
  lemma ModelsAreTheRuns(run: AnalysisRun, w: Wordings, i: nat)
    requires i < |run.models|
    ensures "models" in FixedSections(run, w) && FixedSections(run, w)["models"].Arr?
    ensures var items := FixedSections(run, w)["models"].items;
      |items| == |run.models| && items[i] == RunJson.EncodeModel(run.models[i])
  {
    hide Section, Texts, SourceVideo, CodeSection, FixedSections;
    FixedSectionsAre(run, w);
  }
}
