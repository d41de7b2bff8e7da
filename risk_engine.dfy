/**
 * The risk intelligence engine: a five-factor weighted risk score, the
 * per-factor contribution breakdown behind it, a confidence band derived from
 * how many factors cross their trigger thresholds, the list of active
 * triggers, and the four-tier risk category.
 *
 * Scores are real numbers; nothing is clamped from below, so negative readings
 * give negative scores exactly as the Python code does.
 */
module RiskEngine {
  import opened Prelude

  /** One reading of the five environmental factors. */
  datatype RiskFactors = RiskFactors(
    rainfall: real,        // mm
    slope: real,           // degrees
    soilMoisture: real,    // percent
    deforestation: real,   // percent
    roadCuts: real)        // percent
  {
    /** The reading of one factor. */
    function Reading(f: Factor): real
    {
      match f
      case Rainfall => rainfall
      case Slope => slope
      case SoilMoisture => soilMoisture
      case RoadCuts => roadCuts
      case Deforestation => deforestation
    }

    /** The factor is above its trigger threshold. */
    predicate Exceeds(f: Factor)
    {
      Reading(f) > Threshold(f)
    }
  }

  datatype Factor = Rainfall | Slope | SoilMoisture | RoadCuts | Deforestation

  /** The trigger thresholds, each compared with a strict `>`. */
  function Threshold(f: Factor): real
  {
    match f
    case Rainfall => 250.0
    case Slope => 40.0
    case SoilMoisture => 60.0
    case RoadCuts => 15.0
    case Deforestation => 15.0
  }

  // ---------------------------------------------------------------------------
  // Weighted score

  /** Rainfall normalised against 400 mm, capped at 100, weighted 0.35. */
  function RainfallScore(rainfall: real): (t: real)
    ensures t <= 35.0
    ensures rainfall >= 0.0 ==> t >= 0.0
    ensures rainfall >= 400.0 ==> t == 35.0
  {
    Min(rainfall / 400.0 * 100.0, 100.0) * 0.35
  }

  /** Slope normalised against 50 degrees, capped at 100, weighted 0.30. */
  function SlopeScore(slope: real): (t: real)
    ensures t <= 30.0
    ensures slope >= 0.0 ==> t >= 0.0
    ensures slope >= 50.0 ==> t == 30.0
  {
    Min(slope / 50.0 * 100.0, 100.0) * 0.30
  }

  /** Soil moisture (already a percentage), capped at 100, weighted 0.20. */
  function MoistureScore(soilMoisture: real): (t: real)
    ensures t <= 20.0
    ensures soilMoisture >= 0.0 ==> t >= 0.0
    ensures soilMoisture >= 100.0 ==> t == 20.0
  {
    Min(soilMoisture / 100.0 * 100.0, 100.0) * 0.20
  }

  /** Deforestation normalised against 30%, capped at 100, weighted 0.10. */
  function DeforestScore(deforestation: real): (t: real)
    ensures t <= 10.0
    ensures deforestation >= 0.0 ==> t >= 0.0
    ensures deforestation >= 30.0 ==> t == 10.0
  {
    Min(deforestation / 30.0 * 100.0, 100.0) * 0.10
  }

  /** Road cutting normalised against 30%, capped at 100, weighted 0.05. */
  function RoadcutScore(roadCuts: real): (t: real)
    ensures t <= 5.0
    ensures roadCuts >= 0.0 ==> t >= 0.0
    ensures roadCuts >= 30.0 ==> t == 5.0
  {
    Min(roadCuts / 30.0 * 100.0, 100.0) * 0.05
  }

  /** The composite risk score: the five weighted terms summed, capped at 100
      (there is no lower cap). */
  function ComputeRiskScore(rainfall: real, slope: real, soilMoisture: real,
                            deforestation: real, roadCuts: real): (score: real)
    ensures score <= 100.0
  {
    var total := RainfallScore(rainfall) + SlopeScore(slope) + MoistureScore(soilMoisture)
               + DeforestScore(deforestation) + RoadcutScore(roadCuts);
    Min(total, 100.0)
  }

  /** The score of a `RiskFactors` record, arguments in the score's own order. */
  function ScoreOf(f: RiskFactors): real
  {
    ComputeRiskScore(f.rainfall, f.slope, f.soilMoisture, f.deforestation, f.roadCuts)
  }

  /** Non-negative readings give a score in [0, 100]. */
  lemma ScoreInRange(rainfall: real, slope: real, soilMoisture: real,
                     deforestation: real, roadCuts: real)
    requires rainfall >= 0.0 && slope >= 0.0 && soilMoisture >= 0.0
    requires deforestation >= 0.0 && roadCuts >= 0.0
    ensures 0.0 <= ComputeRiskScore(rainfall, slope, soilMoisture, deforestation, roadCuts) <= 100.0
  {
  }

  /** The cap at 100 never binds: the five capped terms add up to at most 100,
      so the score is their plain sum. */
  lemma ScoreIsSumOfTerms(rainfall: real, slope: real, soilMoisture: real,
                          deforestation: real, roadCuts: real)
    ensures ComputeRiskScore(rainfall, slope, soilMoisture, deforestation, roadCuts)
         == RainfallScore(rainfall) + SlopeScore(slope) + MoistureScore(soilMoisture)
          + DeforestScore(deforestation) + RoadcutScore(roadCuts)
  {
  }

  /** All-zero readings score 0. */
  lemma ScoreOfZeroReadings()
    ensures ComputeRiskScore(0.0, 0.0, 0.0, 0.0, 0.0) == 0.0
  {
  }

  /** Readings at or above the saturation points 400/50/100/30/30 score exactly 100. */
  lemma ScoreOfSaturatedReadings(rainfall: real, slope: real, soilMoisture: real,
                                 deforestation: real, roadCuts: real)
    requires rainfall >= 400.0 && slope >= 50.0 && soilMoisture >= 100.0
    requires deforestation >= 30.0 && roadCuts >= 30.0
    ensures ComputeRiskScore(rainfall, slope, soilMoisture, deforestation, roadCuts) == 100.0
  {
  }

  /** Raising any one factor never lowers the score. */
  lemma ScoreMonotone(a: RiskFactors, b: RiskFactors)
    requires a.rainfall <= b.rainfall && a.slope <= b.slope && a.soilMoisture <= b.soilMoisture
    requires a.deforestation <= b.deforestation && a.roadCuts <= b.roadCuts
    ensures ScoreOf(a) <= ScoreOf(b)
  {
    assert RainfallScore(a.rainfall) <= RainfallScore(b.rainfall);
    assert SlopeScore(a.slope) <= SlopeScore(b.slope);
    assert MoistureScore(a.soilMoisture) <= MoistureScore(b.soilMoisture);
    assert DeforestScore(a.deforestation) <= DeforestScore(b.deforestation);
    assert RoadcutScore(a.roadCuts) <= RoadcutScore(b.roadCuts);
  }

  // ---------------------------------------------------------------------------
  // Contributions

  /** One labelled entry of the explainability breakdown. */
  datatype Contribution = Contribution(name: string, points: real)

  /** The sum of the points of a breakdown. */
  function TotalPoints(cs: seq<Contribution>): real
  {
    if cs == [] then 0.0 else cs[0].points + TotalPoints(cs[1..])
  }

  /** The breakdown, in the order the source builds its dictionary; each entry
      is the reading scaled straight to its weight and capped at that weight. */
  function CalculateRiskContributions(rainfall: real, slope: real, soilMoisture: real,
                                      deforestation: real, roadCuts: real): (cs: seq<Contribution>)
    ensures |cs| == 5
    ensures cs[0].name == "Rainfall surge" && cs[0].points <= 35.0
    ensures cs[1].name == "Steep slope" && cs[1].points <= 30.0
    ensures cs[2].name == "Soil moisture" && cs[2].points <= 20.0
    ensures cs[3].name == "Vegetation loss" && cs[3].points <= 10.0
    ensures cs[4].name == "Road cutting" && cs[4].points <= 5.0
  {
    [ Contribution("Rainfall surge", Min(rainfall / 400.0 * 35.0, 35.0)),
      Contribution("Steep slope", Min(slope / 50.0 * 30.0, 30.0)),
      Contribution("Soil moisture", Min(soilMoisture / 100.0 * 20.0, 20.0)),
      Contribution("Vegetation loss", Min(deforestation / 30.0 * 10.0, 10.0)),
      Contribution("Road cutting", Min(roadCuts / 30.0 * 5.0, 5.0)) ]
  }

  /** The breakdown adds up exactly to the score, for every input: each entry
      equals the corresponding weighted term, and the outer cap never binds. */
  lemma ContributionsSumToScore(rainfall: real, slope: real, soilMoisture: real,
                                deforestation: real, roadCuts: real)
    ensures TotalPoints(CalculateRiskContributions(rainfall, slope, soilMoisture, deforestation, roadCuts))
         == ComputeRiskScore(rainfall, slope, soilMoisture, deforestation, roadCuts)
  {
    var cs := CalculateRiskContributions(rainfall, slope, soilMoisture, deforestation, roadCuts);
    assert cs[0].points == RainfallScore(rainfall);
    assert cs[1].points == SlopeScore(slope);
    assert cs[2].points == MoistureScore(soilMoisture);
    assert cs[3].points == DeforestScore(deforestation);
    assert cs[4].points == RoadcutScore(roadCuts);
    assert TotalPoints(cs[4..]) == cs[4].points by { assert cs[4..][1..] == []; }
    assert TotalPoints(cs[3..]) == cs[3].points + TotalPoints(cs[4..]) by { assert cs[3..][1..] == cs[4..]; }
    assert TotalPoints(cs[2..]) == cs[2].points + TotalPoints(cs[3..]) by { assert cs[2..][1..] == cs[3..]; }
    assert TotalPoints(cs[1..]) == cs[1].points + TotalPoints(cs[2..]) by { assert cs[1..][1..] == cs[2..]; }
    ScoreIsSumOfTerms(rainfall, slope, soilMoisture, deforestation, roadCuts);
  }

  // ---------------------------------------------------------------------------
  // Confidence band

  datatype Confidence = High | HighMedium | Medium | MediumLow | Low
  {
    function Label(): string
    {
      match this
      case High => "High"
      case HighMedium => "High-Medium"
      case Medium => "Medium"
      case MediumLow => "Medium-Low"
      case Low => "Low"
    }

    /** 4 for High down to 0 for Low. */
    function Strength(): nat
    {
      match this
      case High => 4
      case HighMedium => 3
      case Medium => 2
      case MediumLow => 1
      case Low => 0
    }
  }

  /** How many of the five thresholds are exceeded, in the confidence
      function's argument order (road cuts before deforestation). */
  function TriggerCount(rainfall: real, slope: real, soilMoisture: real,
                        roadCuts: real, deforestation: real): (n: nat)
    ensures n <= 5
  {
    (if rainfall > 250.0 then 1 else 0) + (if slope > 40.0 then 1 else 0)
    + (if soilMoisture > 60.0 then 1 else 0) + (if roadCuts > 15.0 then 1 else 0)
    + (if deforestation > 15.0 then 1 else 0)
  }

  /** The short names of the active triggers, in the order rainfall, slope,
      saturation, road-cuts, deforestation. */
  function TriggerNames(rainfall: real, slope: real, soilMoisture: real,
                        roadCuts: real, deforestation: real): (names: seq<string>)
    ensures |names| == TriggerCount(rainfall, slope, soilMoisture, roadCuts, deforestation)
  {
    Named(rainfall > 250.0, "rainfall") + Named(slope > 40.0, "slope")
    + Named(soilMoisture > 60.0, "saturation") + Named(roadCuts > 15.0, "road-cuts")
    + Named(deforestation > 15.0, "deforestation")
  }

  /** `[name]` when the trigger is active, nothing otherwise. */
  function Named(active: bool, name: string): seq<string>
  {
    if active then [name] else []
  }

  /** The confidence strength is the trigger count, saturating at 4. */
  function ConfidenceFor(count: nat): (c: Confidence)
    ensures c.Strength() == if count >= 4 then 4 else count
  {
    if count >= 4 then Confidence.High
    else if count == 3 then HighMedium
    else if count == 2 then Medium
    else if count == 1 then MediumLow
    else Confidence.Low
  }

  /** The +/- uncertainty in points for a trigger count. */
  function UncertaintyFor(count: nat): (u: int)
    ensures 5 <= u <= 15
  {
    if count >= 4 then 5
    else if count == 3 then 7
    else if count == 2 then 10
    else if count == 1 then 12
    else 15
  }

  /** A joined list of at most the first three names, wrapped in any prefix
      and a closing parenthesis, names the first one. */
  lemma JoinedContainsFirst(prefix: string, names: seq<string>)
    requires |names| >= 1
    ensures Contains(prefix + Join(SliceTo(names, 3), ", ") + ")", names[0])
  {
    var sliced := SliceTo(names, 3);
    assert |sliced| >= 1 && sliced[0] == names[0];
    if |sliced| == 1 {
      ContainsAfter(prefix, names[0], ")");
    } else {
      var rest := ", " + Join(sliced[1..], ", ");
      assert Join(sliced, ", ") == names[0] + rest;
      assert prefix + (names[0] + rest) + ")" == prefix + names[0] + (rest + ")");
      ContainsAfter(prefix, names[0], rest + ")");
    }
  }

  /** The explanation text: the fixed fallback exactly when no trigger is
      active (that it names the first trigger otherwise is
      `ExplanationNamesFirstTrigger`). */
  function ExplanationFor(names: seq<string>): (e: string)
    ensures |names| == 0 <==> e == "Limited trigger activation"
  {
    if |names| >= 4 then
      assert ("Multiple independent factors detected (" + Join(SliceTo(names, 3), ", ") + ")")[0] == 'M';
      "Multiple independent factors detected (" + Join(SliceTo(names, 3), ", ") + ")"
    else if |names| == 3 then
      assert ("Strong multi-factor signal (" + Join(SliceTo(names, 3), ", ") + ")")[0] == 'S';
      "Strong multi-factor signal (" + Join(SliceTo(names, 3), ", ") + ")"
    else if |names| == 2 then
      assert ("Moderate confidence with 2 factors (" + Join(SliceTo(names, 3), ", ") + ")")[0] == 'M';
      "Moderate confidence with 2 factors (" + Join(SliceTo(names, 3), ", ") + ")"
    else if |names| == 1 then
      assert ("Single dominant factor (" + names[0] + ")")[0] == 'S';
      "Single dominant factor (" + names[0] + ")"
    else "Limited trigger activation"
  }

  /** Counts the active triggers one by one and reads off the confidence band. */
  method CalculateConfidenceLevel(rainfall: real, slope: real, soilMoisture: real,
                                  roadCuts: real, deforestation: real)
    returns (confidence: Confidence, uncertainty: int, explanation: string)
    ensures confidence == ConfidenceFor(TriggerCount(rainfall, slope, soilMoisture, roadCuts, deforestation))
    ensures uncertainty == UncertaintyFor(TriggerCount(rainfall, slope, soilMoisture, roadCuts, deforestation))
    ensures explanation == ExplanationFor(TriggerNames(rainfall, slope, soilMoisture, roadCuts, deforestation))
  {
    var activeTriggers := 0;
    var triggerNames: seq<string> := [];

    if rainfall > 250.0 {
      activeTriggers := activeTriggers + 1;
      triggerNames := triggerNames + ["rainfall"];
    }
    assert triggerNames == Named(rainfall > 250.0, "rainfall") && activeTriggers == |triggerNames|;
    if slope > 40.0 {
      activeTriggers := activeTriggers + 1;
      triggerNames := triggerNames + ["slope"];
    }
    assert triggerNames == Named(rainfall > 250.0, "rainfall") + Named(slope > 40.0, "slope")
      && activeTriggers == |triggerNames|;
    if soilMoisture > 60.0 {
      activeTriggers := activeTriggers + 1;
      triggerNames := triggerNames + ["saturation"];
    }
    assert triggerNames == Named(rainfall > 250.0, "rainfall") + Named(slope > 40.0, "slope")
      + Named(soilMoisture > 60.0, "saturation") && activeTriggers == |triggerNames|;
    if roadCuts > 15.0 {
      activeTriggers := activeTriggers + 1;
      triggerNames := triggerNames + ["road-cuts"];
    }
    assert triggerNames == Named(rainfall > 250.0, "rainfall") + Named(slope > 40.0, "slope")
      + Named(soilMoisture > 60.0, "saturation") + Named(roadCuts > 15.0, "road-cuts")
      && activeTriggers == |triggerNames|;
    if deforestation > 15.0 {
      activeTriggers := activeTriggers + 1;
      triggerNames := triggerNames + ["deforestation"];
    }
    assert triggerNames == TriggerNames(rainfall, slope, soilMoisture, roadCuts, deforestation);
    assert activeTriggers == |triggerNames|
        == TriggerCount(rainfall, slope, soilMoisture, roadCuts, deforestation);

    confidence, uncertainty := ConfidenceFor(activeTriggers), UncertaintyFor(activeTriggers);
    explanation := ExplanationFor(triggerNames);
  }

  /** More triggers never mean less confidence or more uncertainty. */
  lemma ConfidenceMonotoneInCount(m: nat, n: nat)
    requires m <= n
    ensures ConfidenceFor(m).Strength() <= ConfidenceFor(n).Strength()
    ensures UncertaintyFor(n) <= UncertaintyFor(m)
  {
  }

  /** Readings that are pointwise no lower activate at least as many triggers,
      hence give no less confidence and no more uncertainty. */
  lemma ConfidenceMonotoneInReadings(a: RiskFactors, b: RiskFactors)
    requires a.rainfall <= b.rainfall && a.slope <= b.slope && a.soilMoisture <= b.soilMoisture
    requires a.deforestation <= b.deforestation && a.roadCuts <= b.roadCuts
    ensures TriggerCount(a.rainfall, a.slope, a.soilMoisture, a.roadCuts, a.deforestation)
         <= TriggerCount(b.rainfall, b.slope, b.soilMoisture, b.roadCuts, b.deforestation)
    ensures UncertaintyFor(TriggerCount(b.rainfall, b.slope, b.soilMoisture, b.roadCuts, b.deforestation))
         <= UncertaintyFor(TriggerCount(a.rainfall, a.slope, a.soilMoisture, a.roadCuts, a.deforestation))
  {
  }

  /** Both thresholds for road cuts and deforestation are 15, so the trigger
      count does not change when a caller passes those two readings in the
      score's order instead of the confidence function's order. */
  lemma CountIgnoresRoadCutsDeforestationOrder(rainfall: real, slope: real, soilMoisture: real,
                                               x: real, y: real)
    ensures TriggerCount(rainfall, slope, soilMoisture, x, y) == TriggerCount(rainfall, slope, soilMoisture, y, x)
  {
  }

  /** With at least one trigger, the explanation names the first of them; with
      exactly one it is the fixed single-factor text around that name. */
  lemma ExplanationNamesFirstTrigger(names: seq<string>)
    requires |names| >= 1
    ensures Contains(ExplanationFor(names), names[0])
    ensures |names| == 1 ==> ExplanationFor(names) == "Single dominant factor (" + names[0] + ")"
  {
    if |names| >= 4 {
      JoinedContainsFirst("Multiple independent factors detected (", names);
    } else if |names| == 3 {
      JoinedContainsFirst("Strong multi-factor signal (", names);
    } else if |names| == 2 {
      JoinedContainsFirst("Moderate confidence with 2 factors (", names);
    } else {
      ContainsAfter("Single dominant factor (", names[0], ")");
    }
  }


  /** Only the count and the first three names matter to the explanation. */
  lemma ExplanationUsesFirstThree(a: seq<string>, b: seq<string>)
    requires |a| == |b| >= 3 && a[..3] == b[..3]
    ensures ExplanationFor(a) == ExplanationFor(b)
  {
    assert SliceTo(a, 3) == a[..3];
    assert SliceTo(b, 3) == b[..3];
  }

  // ---------------------------------------------------------------------------
  // Active triggers

  /** One active trigger: which factor crossed its threshold, and its reading
      (the source renders the reading into a display string). */
  datatype Trigger = Trigger(factor: Factor, reading: real)

  /** The position of a factor in the trigger report: rainfall, soil moisture,
      road cuts, deforestation, slope. */
  function ReportRank(f: Factor): (rank: nat)
    ensures rank < 5
  {
    match f
    case Rainfall => 0
    case SoilMoisture => 1
    case RoadCuts => 2
    case Deforestation => 3
    case Slope => 4
  }

  /** The report entry for one factor: its reading when it exceeds its
      threshold, nothing otherwise. */
  function TriggerFor(fs: RiskFactors, f: Factor): seq<Trigger>
  {
    if fs.Exceeds(f) then [Trigger(f, fs.Reading(f))] else []
  }

  /** The trigger report: one entry per exceeded factor, checked in the order
      rainfall, soil moisture, road cuts, deforestation, slope. */
  function ActiveTriggers(fs: RiskFactors): seq<Trigger>
  {
    TriggerFor(fs, Rainfall) + TriggerFor(fs, SoilMoisture) + TriggerFor(fs, RoadCuts)
    + TriggerFor(fs, Deforestation) + TriggerFor(fs, Slope)
  }

  /** `t` names an exceeded factor together with that factor's reading. */
  predicate IsTriggerOf(fs: RiskFactors, t: Trigger)
  {
    fs.Exceeds(t.factor) && t.reading == fs.Reading(t.factor)
  }

  /** Entries appear in strictly increasing report rank. */
  predicate InReportOrder(ts: seq<Trigger>)
  {
    forall i, j :: 0 <= i < j < |ts| ==> ReportRank(ts[i].factor) < ReportRank(ts[j].factor)
  }

  /** Every entry's report rank is below `k`. */
  predicate RanksBelow(ts: seq<Trigger>, k: nat)
  {
    forall i :: 0 <= i < |ts| ==> ReportRank(ts[i].factor) < k
  }

  /** Appending the entry of the next factor in report order keeps the order. */
  lemma AppendInReportOrder(fs: RiskFactors, ts: seq<Trigger>, f: Factor)
    requires InReportOrder(ts) && RanksBelow(ts, ReportRank(f))
    ensures InReportOrder(ts + TriggerFor(fs, f))
    ensures RanksBelow(ts + TriggerFor(fs, f), ReportRank(f) + 1)
  {
    var us := ts + TriggerFor(fs, f);
    forall i, j | 0 <= i < j < |us|
      ensures ReportRank(us[i].factor) < ReportRank(us[j].factor)
    {
      if j >= |ts| {
        assert us[j].factor == f;
        assert us[i] == ts[i];
      }
    }
  }

  /** The report lists the triggers in report order. */
  lemma ActiveTriggersInReportOrder(fs: RiskFactors)
    ensures InReportOrder(ActiveTriggers(fs))
  {
    var t0: seq<Trigger> := [];
    AppendInReportOrder(fs, t0, Rainfall);
    var t1 := t0 + TriggerFor(fs, Rainfall);
    assert t1 == TriggerFor(fs, Rainfall);
    AppendInReportOrder(fs, t1, SoilMoisture);
    var t2 := t1 + TriggerFor(fs, SoilMoisture);
    AppendInReportOrder(fs, t2, RoadCuts);
    var t3 := t2 + TriggerFor(fs, RoadCuts);
    AppendInReportOrder(fs, t3, Deforestation);
    var t4 := t3 + TriggerFor(fs, Deforestation);
    AppendInReportOrder(fs, t4, Slope);
  }

  /** Every entry of the report is an exceeded factor with its own reading. */
  lemma ActiveTriggersSound(fs: RiskFactors)
    ensures forall i :: 0 <= i < |ActiveTriggers(fs)| ==> IsTriggerOf(fs, ActiveTriggers(fs)[i])
  {
  }

  /** A factor is reported exactly when it exceeds its threshold. */
  lemma ActiveTriggersComplete(fs: RiskFactors, f: Factor)
    ensures fs.Exceeds(f) <==> Trigger(f, fs.Reading(f)) in ActiveTriggers(fs)
  {
    assert fs.Exceeds(f) ==> Trigger(f, fs.Reading(f)) in TriggerFor(fs, f);
  }

  /** The report has one entry per trigger the confidence count sees. */
  lemma ActiveTriggersCount(fs: RiskFactors)
    ensures |ActiveTriggers(fs)| == TriggerCount(fs.rainfall, fs.slope, fs.soilMoisture, fs.roadCuts, fs.deforestation)
  {
  }

  /** Collects the active triggers one threshold at a time, in report order. */
  method IdentifyActiveTriggers(rainfall: real, slope: real, soilMoisture: real,
                                roadCuts: real, deforestation: real)
    returns (triggers: seq<Trigger>)
    ensures triggers == ActiveTriggers(RiskFactors(rainfall, slope, soilMoisture, deforestation, roadCuts))
    ensures |triggers| == TriggerCount(rainfall, slope, soilMoisture, roadCuts, deforestation)
    ensures forall i :: 0 <= i < |triggers| ==>
      IsTriggerOf(RiskFactors(rainfall, slope, soilMoisture, deforestation, roadCuts), triggers[i])
    ensures InReportOrder(triggers)
    ensures forall f: Factor ::
      RiskFactors(rainfall, slope, soilMoisture, deforestation, roadCuts).Exceeds(f)
      <==> Trigger(f, RiskFactors(rainfall, slope, soilMoisture, deforestation, roadCuts).Reading(f)) in triggers
  {
    ghost var fs := RiskFactors(rainfall, slope, soilMoisture, deforestation, roadCuts);
    triggers := [];
    if rainfall > 250.0 {
      triggers := triggers + [Trigger(Rainfall, rainfall)];
    }
    assert triggers == TriggerFor(fs, Rainfall);
    if soilMoisture > 60.0 {
      triggers := triggers + [Trigger(SoilMoisture, soilMoisture)];
    }
    assert triggers == TriggerFor(fs, Rainfall) + TriggerFor(fs, SoilMoisture);
    if roadCuts > 15.0 {
      triggers := triggers + [Trigger(RoadCuts, roadCuts)];
    }
    assert triggers == TriggerFor(fs, Rainfall) + TriggerFor(fs, SoilMoisture) + TriggerFor(fs, RoadCuts);
    if deforestation > 15.0 {
      triggers := triggers + [Trigger(Deforestation, deforestation)];
    }
    assert triggers == TriggerFor(fs, Rainfall) + TriggerFor(fs, SoilMoisture) + TriggerFor(fs, RoadCuts)
                     + TriggerFor(fs, Deforestation);
    if slope > 40.0 {
      triggers := triggers + [Trigger(Slope, slope)];
    }
    assert triggers == ActiveTriggers(fs);
    ActiveTriggersCount(fs);
    ActiveTriggersSound(fs);
    ActiveTriggersInReportOrder(fs);
    forall f: Factor
      ensures fs.Exceeds(f) <==> Trigger(f, fs.Reading(f)) in triggers
    {
      ActiveTriggersComplete(fs, f);
    }
  }

  // ---------------------------------------------------------------------------
  // Risk category

  datatype RiskCategory = Low | Moderate | High | Critical
  {
    function Name(): string
    {
      match this
      case Low => "Low"
      case Moderate => "Moderate"
      case High => "High"
      case Critical => "Critical"
    }

    function Color(): string
    {
      match this
      case Low => "#4caf50"
      case Moderate => "#ffd700"
      case High => "#ff9800"
      case Critical => "#ff4444"
    }

    /** 0 for Low up to 3 for Critical. */
    function Rank(): nat
    {
      match this
      case Low => 0
      case Moderate => 1
      case High => 2
      case Critical => 3
    }
  }

  /** The category's rank counts the thresholds 40, 60 and 75 the score reaches. */
  function GetRiskCategory(score: real): (c: RiskCategory)
    ensures c.Rank() == (if score >= 40.0 then 1 else 0) + (if score >= 60.0 then 1 else 0)
                        + (if score >= 75.0 then 1 else 0)
  {
    if score >= 75.0 then Critical
    else if score >= 60.0 then RiskCategory.High
    else if score >= 40.0 then Moderate
    else RiskCategory.Low
  }

  /** The categories are the closed-open bands [75, inf), [60, 75), [40, 60)
      and (-inf, 40). */
  lemma CategoryBands(score: real)
    ensures GetRiskCategory(score) == Critical <==> 75.0 <= score
    ensures GetRiskCategory(score) == RiskCategory.High <==> 60.0 <= score < 75.0
    ensures GetRiskCategory(score) == Moderate <==> 40.0 <= score < 60.0
    ensures GetRiskCategory(score) == RiskCategory.Low <==> score < 40.0
  {
  }

  /** A higher score never gives a lower category. */
  lemma CategoryMonotone(s: real, t: real)
    requires s <= t
    ensures GetRiskCategory(s).Rank() <= GetRiskCategory(t).Rank()
  {
  }
}
