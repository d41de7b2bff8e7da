/**
 * The alert engine: from a risk score to an alert level, a repeat frequency, a
 * set of delivery channels and a localised message; SMS truncation; the
 * static escalation matrix; and the metadata and delivery records that bundle
 * these. Timestamps are left out of both records.
 */
module AlertEngine {
  import opened Prelude
  import RiskEngine

  /** The four alert states; the source spells the lowest one "No Alert". */
  datatype AlertLevel = NoAlert | Advisory | Warning | Evacuate
  {
    function Label(): string
    {
      match this
      case NoAlert => "No Alert"
      case Advisory => "Advisory"
      case Warning => "Warning"
      case Evacuate => "Evacuate"
    }

    /** 0 for No Alert up to 3 for Evacuate. */
    function Severity(): nat
    {
      match this
      case NoAlert => 0
      case Advisory => 1
      case Warning => 2
      case Evacuate => 3
    }
  }

  /** The level's severity counts the thresholds 40, 60 and 75 the score reaches. */
  function DetermineAlertLevel(riskScore: real): (level: AlertLevel)
    ensures level.Severity() == (if riskScore >= 40.0 then 1 else 0) + (if riskScore >= 60.0 then 1 else 0)
                                + (if riskScore >= 75.0 then 1 else 0)
  {
    if riskScore >= 75.0 then Evacuate
    else if riskScore >= 60.0 then Warning
    else if riskScore >= 40.0 then Advisory
    else NoAlert
  }

  /** The levels are the closed-open bands [75, inf), [60, 75), [40, 60), (-inf, 40),
      and a higher score never gives a lower level. */
  lemma AlertLevelBands(s: real, t: real)
    ensures DetermineAlertLevel(s) == Evacuate <==> 75.0 <= s
    ensures DetermineAlertLevel(s) == Warning <==> 60.0 <= s < 75.0
    ensures DetermineAlertLevel(s) == Advisory <==> 40.0 <= s < 60.0
    ensures DetermineAlertLevel(s) == NoAlert <==> s < 40.0
    ensures s <= t ==> DetermineAlertLevel(s).Severity() <= DetermineAlertLevel(t).Severity()
  {
  }

  /** The frequency attached to each level. */
  function FrequencyOf(level: AlertLevel): string
  {
    match level
    case Evacuate => "every 15 minutes"
    case Warning => "every 2 hours"
    case Advisory => "every 6 hours"
    case NoAlert => "daily"
  }

  /** The repeat frequency is the one attached to the score's alert level. */
  function GetAlertFrequency(riskScore: real): (frequency: string)
    ensures frequency == FrequencyOf(DetermineAlertLevel(riskScore))
  {
    if riskScore >= 75.0 then "every 15 minutes"
    else if riskScore >= 60.0 then "every 2 hours"
    else if riskScore >= 40.0 then "every 6 hours"
    else "daily"
  }

  /** The frequency switches at exactly the level thresholds, and distinct levels
      have distinct frequencies. */
  lemma FrequencyFollowsLevel(s: real, t: real)
    ensures GetAlertFrequency(s) == FrequencyOf(DetermineAlertLevel(s))
    ensures GetAlertFrequency(s) == GetAlertFrequency(t) <==> DetermineAlertLevel(s) == DetermineAlertLevel(t)
  {
  }

  /** SMS only below 40; Voice IVR, Community Radio and Emergency Sirens are
      added at 40, 60 and 75. */
  function GetDeliveryChannels(riskScore: real): (channels: seq<string>)
    ensures 1 <= |channels| <= 4 && channels[0] == "SMS"
    ensures |channels| == DetermineAlertLevel(riskScore).Severity() + 1
  {
    if riskScore >= 75.0 then ["SMS", "Voice IVR", "Community Radio", "Emergency Sirens"]
    else if riskScore >= 60.0 then ["SMS", "Voice IVR", "Community Radio"]
    else if riskScore >= 40.0 then ["SMS", "Voice IVR"]
    else ["SMS"]
  }

  /** Escalation only ever adds channels: the list for a lower score is a prefix
      of the list for a higher one. */
  lemma ChannelsEscalate(s: real, t: real)
    requires s <= t
    ensures GetDeliveryChannels(s) <= GetDeliveryChannels(t)
    ensures |GetDeliveryChannels(s)| <= |GetDeliveryChannels(t)|
  {
  }

  // ---------------------------------------------------------------------------
  // Messages

  /** A message template: fixed text before the village name, between it and the
      risk category, and after the category. */
  datatype Template = Template(before: string, between: string, after: string)
  {
    function Render(villageName: string, category: string): (text: string)
      ensures Contains(text, villageName) && Contains(text, category)
    {
      var text := before + villageName + between + category + after;
      assert text == before + villageName + (between + category + after);
      ContainsAfter(before, villageName, between + category + after);
      ContainsAfter(before + villageName + between, category, after);
      text
    }
  }

  /** The warning-sign emoji (with its variation selector) and the siren emoji
      that open the Advisory and Warning texts; they count towards the SMS
      length like any other character. */
  const AdvisoryMark := "\U{26A0}\U{FE0F} "
  const WarningMark := "\U{1F6A8} "

  const SupportedLanguages: set<string> := {"English", "Hindi", "Khasi"}
  const SupportedLevels: set<string> := {"Advisory", "Warning", "Evacuate"}

  /** The message table keyed by language, then by alert level label. */
  function Messages(): map<string, map<string, Template>>
  {
    map["English" := EnglishMessages(), "Hindi" := HindiMessages(), "Khasi" := KhasiMessages()]
  }

  function EnglishMessages(): map<string, Template>
  {
    map[
      "Advisory" := Template(AdvisoryMark + "Landslide Risk Advisory for ", ". Risk Level: ", ". Monitor weather conditions closely."),
      "Warning" := Template(WarningMark + "Landslide Warning for ", "! Risk Level: ", ". Prepare for possible evacuation."),
      "Evacuate" := Template("IMMEDIATE EVACUATION REQUIRED for ", ". Risk Level: ", ". Move to designated shelters now.")]
  }

  function HindiMessages(): map<string, Template>
  {
    map[
      "Advisory" := Template(AdvisoryMark, " के लिए भूस्खलन जोखिम सलाह। जोखिम स्तर: ", "। मौसम की स्थिति की निगरानी करें।"),
      "Warning" := Template(WarningMark, " के लिए भूस्खलन चेतावनी! जोखिम स्तर: ", "। संभावित निकासी के लिए तैयार रहें।"),
      "Evacuate" := Template("तत्काल निकासी आवश्यक ", "। जोखिम स्तर: ", "। अभी सुरक्षित आश्रयों में जाएं।")]
  }

  function KhasiMessages(): map<string, Template>
  {
    map[
      "Advisory" := Template(AdvisoryMark + "Ka jingsngewbha ha ", ". Jingialang: ", ". Khlain ruh ka bynta."),
      "Warning" := Template(WarningMark + "Ka jingsngewbha kaba bha ha ", "! Jingialang: ", ". Lah bynta sha ka evacuation."),
      "Evacuate" := Template("PYRSHAH EVACUATION HA ", ". Jingialang: ", ". Shong da ka jingïaiñ mynta.")]
  }

  /** A language's table has a template for every alert level, each with text
      between the village name and the category. */
  predicate CompleteTable(t: map<string, Template>)
  {
    t.Keys == SupportedLevels && forall level :: level in t ==> |t[level].between| > 0
  }

  lemma EnglishComplete()
    ensures CompleteTable(EnglishMessages())
  {
  }

  lemma HindiComplete()
    ensures CompleteTable(HindiMessages())
  {
  }

  lemma KhasiComplete()
    ensures CompleteTable(KhasiMessages())
  {
  }

  /** Every supported language has a complete table. */
  lemma MessagesShape()
    ensures Messages().Keys == SupportedLanguages
    ensures forall language :: language in Messages() ==> CompleteTable(Messages()[language])
  {
    EnglishComplete();
    HindiComplete();
    KhasiComplete();
  }

  /** Looks up the (language, level) template, falling back to English for an
      unknown language and to the empty string for an unknown level. */
  function GenerateAlertMessage(villageName: string, riskScore: real, alertLevel: string,
                                language: string): (text: string)
    ensures alertLevel !in SupportedLevels ==> text == ""
    ensures alertLevel in SupportedLevels ==>
      Contains(text, villageName) && Contains(text, RiskEngine.GetRiskCategory(riskScore).Name())
  {
    var category := RiskEngine.GetRiskCategory(riskScore).Name();
    var table := if language in Messages() then Messages()[language] else Messages()["English"];
    MessagesShape();
    assert table.Keys == SupportedLevels;
    if alertLevel in table then table[alertLevel].Render(villageName, category) else ""
  }

  /** An unsupported language gives exactly the English message. */
  lemma UnsupportedLanguageFallsBackToEnglish(villageName: string, riskScore: real,
                                              alertLevel: string, language: string)
    requires language !in SupportedLanguages
    ensures GenerateAlertMessage(villageName, riskScore, alertLevel, language)
         == GenerateAlertMessage(villageName, riskScore, alertLevel, "English")
  {
  }

  /** For a supported level, in any language, the message is non-empty and names
      both the village and the risk category; any other level, "No Alert"
      included, gives the empty string. */
  lemma MessageNamesVillage(villageName: string, riskScore: real, alertLevel: string, language: string)
    ensures var text := GenerateAlertMessage(villageName, riskScore, alertLevel, language);
      if alertLevel in SupportedLevels then
        |text| > 0 && Contains(text, villageName)
        && Contains(text, RiskEngine.GetRiskCategory(riskScore).Name())
      else text == ""
  {
    MessagesShape();
    var table := if language in Messages() then Messages()[language] else Messages()["English"];
    assert table.Keys == SupportedLevels;
    if alertLevel in SupportedLevels {
      var t := table[alertLevel];
      assert |t.between| > 0;
      var category := RiskEngine.GetRiskCategory(riskScore).Name();
      assert GenerateAlertMessage(villageName, riskScore, alertLevel, language) == t.Render(villageName, category);
    }
  }

  // ---------------------------------------------------------------------------
  // SMS

  /** The source's default SMS length limit. */
  const SmsLimit: int := 160

  /** The SMS text: empty below the Advisory threshold, otherwise the full
      message, truncated with "..." when it is longer than `maxLength`
      (with Python's slicing for any `maxLength`). */
  function FormatSmsAlert(villageName: string, riskScore: real, language: string, maxLength: int): (sms: string)
    ensures riskScore < 40.0 ==> sms == ""
    ensures maxLength >= 3 ==> |sms| <= maxLength
    ensures riskScore >= 40.0 ==>
      var full := GenerateAlertMessage(villageName, riskScore, DetermineAlertLevel(riskScore).Label(), language);
      if |full| <= maxLength then sms == full
      else maxLength >= 3 ==> sms == full[..maxLength - 3] + "..."
  {
    var alertLevel := DetermineAlertLevel(riskScore);
    if alertLevel == NoAlert then ""
    else
      var fullMessage := GenerateAlertMessage(villageName, riskScore, alertLevel.Label(), language);
      if |fullMessage| > maxLength then SliceTo(fullMessage, maxLength - 3) + "..." else fullMessage
  }

  /** An English Advisory is 90 characters plus the village name, the opening
      mark included, so the 160-character SMS is cut exactly when the name is
      longer than 70 characters. */
  lemma EnglishAdvisorySmsCut(villageName: string, riskScore: real)
    requires 40.0 <= riskScore < 60.0
    ensures |GenerateAlertMessage(villageName, riskScore, "Advisory", "English")| == |villageName| + 90
    ensures var full := GenerateAlertMessage(villageName, riskScore, "Advisory", "English");
      var sms := FormatSmsAlert(villageName, riskScore, "English", 160);
      if |villageName| > 70 then sms == full[..157] + "..." else sms == full
  {
    var template := EnglishMessages()["Advisory"];
    assert |template.before| == 31 && |template.between| == 14 && |template.after| == 37;
    assert RiskEngine.GetRiskCategory(riskScore).Name() == "Moderate";
    var full := GenerateAlertMessage(villageName, riskScore, "Advisory", "English");
    assert full == template.Render(villageName, "Moderate");
    assert |full| == |villageName| + 90;
    assert DetermineAlertLevel(riskScore) == Advisory;
    assert FormatSmsAlert(villageName, riskScore, "English", 160)
        == if |full| > 160 then SliceTo(full, 157) + "..." else full;
  }

  /** Above the Advisory threshold the SMS is never empty, and it is a prefix of the
      full message or that prefix followed by "...". */
  lemma SmsIsMessagePrefix(villageName: string, riskScore: real, language: string, maxLength: int)
    requires riskScore >= 40.0
    ensures var full := GenerateAlertMessage(villageName, riskScore, DetermineAlertLevel(riskScore).Label(), language);
      var sms := FormatSmsAlert(villageName, riskScore, language, maxLength);
      |sms| > 0 && (sms == full || (sms[..|sms| - 3] <= full && sms[|sms| - 3..] == "..."))
  {
    var level := DetermineAlertLevel(riskScore);
    var full := GenerateAlertMessage(villageName, riskScore, level.Label(), language);
    MessageNamesVillage(villageName, riskScore, level.Label(), language);
    assert level.Label() in SupportedLevels;
    assert |full| > 0;
    if |full| > maxLength {
      var kept := SliceTo(full, maxLength - 3);
      var sms := kept + "...";
      assert FormatSmsAlert(villageName, riskScore, language, maxLength) == sms;
      assert sms[..|sms| - 3] == kept && sms[|sms| - 3..] == "...";
    }
  }

  // ---------------------------------------------------------------------------
  // Escalation matrix

  /** One row of the reference table shown to operators. */
  datatype EscalationRow = EscalationRow(
    scoreRange: string, alertLevel: string, frequency: string, channels: string, action: string)

  /** The escalation matrix as written: four rows in ascending score order. */
  function CreateAlertEscalationMatrix(): (rows: seq<EscalationRow>)
    ensures |rows| == 4
    ensures rows[0].scoreRange == "0-40" && rows[1].scoreRange == "40-60"
    ensures rows[2].scoreRange == "60-75" && rows[3].scoreRange == "75-100"
    ensures rows[0].alertLevel == "Advisory" && rows[1].alertLevel == "Advisory"
    ensures rows[2].alertLevel == "Warning" && rows[3].alertLevel == "Evacuate"
  {
    [ EscalationRow("0-40", "Advisory", "Daily", "SMS", "Monitor"),
      EscalationRow("40-60", "Advisory", "Every 6 hours", "SMS + Voice", "Prepare"),
      EscalationRow("60-75", "Warning", "Every 2 hours", "SMS + Voice + Radio", "Ready to evacuate"),
      EscalationRow("75-100", "Evacuate", "Every 15 min", "All + Sirens", "Immediate evacuation") ]
  }

  /** The score band a matrix row describes: [lo, hi), the last row open above. */
  predicate InRow(row: nat, score: real)
    requires row < 4
  {
    match row
    case 0 => score < 40.0
    case 1 => 40.0 <= score < 60.0
    case 2 => 60.0 <= score < 75.0
    case 3 => 75.0 <= score
  }

  /** As written, the first row disagrees with the level the engine actually
      assigns to every score in its band. */
  lemma MatrixFirstRowDisagrees(score: real)
    requires 0.0 <= score < 40.0
    ensures CreateAlertEscalationMatrix()[0].alertLevel != DetermineAlertLevel(score).Label()
  {
  }

  /** The matrix with the first row labelled the way the engine labels it. */
  function CorrectedEscalationMatrix(): (rows: seq<EscalationRow>)
    ensures |rows| == 4
    ensures forall row: nat, score: real :: row < 4 && InRow(row, score) ==>
      rows[row].alertLevel == DetermineAlertLevel(score).Label()
  {
    var written := CreateAlertEscalationMatrix();
    [written[0].(alertLevel := NoAlert.Label())] + written[1..]
  }

  // ---------------------------------------------------------------------------
  // Records

  /** Alert metadata for tracking; the timestamp is not part of this model. */
  datatype AlertMetadata = AlertMetadata(
    village: string, riskScore: real, alertLevel: AlertLevel, channels: seq<string>,
    frequency: string, householdsAffected: int, populationAffected: int,
    deliveryCount: int, status: string)

  function GenerateAlertMetadata(villageName: string, riskScore: real,
                                 householdsAffected: int, population: int): (m: AlertMetadata)
    ensures m.status == "active" <==> m.alertLevel != NoAlert
    ensures m.status == "active" || m.status == "monitoring"
    ensures m.deliveryCount == 2 * householdsAffected
    ensures m.alertLevel == DetermineAlertLevel(riskScore)
    ensures m.channels == GetDeliveryChannels(riskScore) && m.frequency == GetAlertFrequency(riskScore)
  {
    var alertLevel := DetermineAlertLevel(riskScore);
    AlertMetadata(villageName, riskScore, alertLevel, GetDeliveryChannels(riskScore),
                  GetAlertFrequency(riskScore), householdsAffected, population,
                  householdsAffected * 2, if alertLevel != NoAlert then "active" else "monitoring")
  }

  /** The outcome of a simulated delivery; the timestamp is not part of this model. */
  datatype Delivery =
    | NoAlertNeeded
    | Delivered(alertLevel: AlertLevel, channelsUsed: seq<string>, smsMessage: string,
                voiceMessage: string, mobileNumbersReached: int, frequency: string, language: string)
  {
    function Status(): string
    {
      if NoAlertNeeded? then "no_alert_needed" else "delivered"
    }

    /** The record's alert level; the short-circuit record reports "No Alert". */
    function Level(): AlertLevel
    {
      if NoAlertNeeded? then NoAlert else alertLevel
    }
  }

  function SimulateAlertDelivery(villageName: string, riskScore: real, households: int,
                                 language: string): (d: Delivery)
    ensures d.Status() == "no_alert_needed" <==> riskScore < 40.0
    ensures d.Level() == DetermineAlertLevel(riskScore)
    ensures d.Delivered? ==>
      && d.mobileNumbersReached == 2 * households
      && d.channelsUsed == GetDeliveryChannels(riskScore)
      && d.frequency == GetAlertFrequency(riskScore)
      && d.smsMessage == FormatSmsAlert(villageName, riskScore, language, SmsLimit)
      && d.voiceMessage == GenerateAlertMessage(villageName, riskScore, d.alertLevel.Label(), language)
  {
    var alertLevel := DetermineAlertLevel(riskScore);
    if alertLevel == NoAlert then NoAlertNeeded
    else
      Delivered(alertLevel, GetDeliveryChannels(riskScore),
                FormatSmsAlert(villageName, riskScore, language, SmsLimit),
                GenerateAlertMessage(villageName, riskScore, alertLevel.Label(), language),
                households * 2, GetAlertFrequency(riskScore), language)
  }

  /** A delivered alert carries a non-empty SMS within the 160-character limit. */
  lemma DeliveredSmsFits(villageName: string, riskScore: real, households: int, language: string)
    ensures var d := SimulateAlertDelivery(villageName, riskScore, households, language);
      d.Delivered? ==> 0 < |d.smsMessage| <= SmsLimit
  {
    if riskScore >= 40.0 {
      SmsIsMessagePrefix(villageName, riskScore, language, SmsLimit);
    }
  }

  /** A delivered alert's voice message names the village. */
  lemma DeliveredVoiceNamesVillage(villageName: string, riskScore: real, households: int, language: string)
    ensures var d := SimulateAlertDelivery(villageName, riskScore, households, language);
      d.Delivered? ==> Contains(d.voiceMessage, villageName)
  {
    if riskScore >= 40.0 {
      var level := DetermineAlertLevel(riskScore);
      assert level.Label() in SupportedLevels;
      MessageNamesVillage(villageName, riskScore, level.Label(), language);
    }
  }
}
