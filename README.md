# Landslide decision pipeline — a Dafny model

This project models the decision core of a landslide early-warning dashboard: the
three rule engines under `logic/` that turn raw environmental readings into a risk
assessment, a phased household evacuation plan, and multi-channel alerts.

- **RiskEngine** (`risk_engine.dfy`): the five-factor weighted risk score (rainfall,
  slope, soil moisture, deforestation, road cuts, weighted 35/30/20/10/5), its
  labelled contribution breakdown, the confidence band read off the number of
  factors above their trigger thresholds, the ordered active-trigger list, and the
  four-tier risk category.
- **EvacuationPlanner** (`evacuation_planner.dfy`): the additive household priority
  with lenient defaults for unknown labels, the four-phase partition of a roster,
  per-band statistics, the road-cut route switch, the shelter list, and the
  action summary card.
- **AlertEngine** (`alert_engine.dfy`): score to alert level, repeat frequency and
  delivery channels; the (language, level) message table with its fallbacks; SMS
  truncation; the escalation matrix; the metadata and delivery records.
- **Pipeline** (`pipeline.dfy`): lemmas that the thresholds each engine hard-codes
  agree across engines, and the integration scenario traced through all three.
- **Prelude** (`prelude.dfy`): Python's `min`, prefix slice `s[:k]`, `str.join` and
  substring test, stated once.

Scores are Dafny `real`s. The Python code clamps only from above (`min(total, 100)`,
`min(priority, 100)`), and the model does the same, so negative readings give
negative scores. Where the Python code mutates step by step (the trigger counter,
the priority accumulator, the phase loop, the route dictionary) the model is a
method proved against a specification function or against an explicit postcondition;
everything else is a pure function.

A few consequences of the code that are easy to miss:
- Over the documented domain the lowest household priority is 5, because "Good"
  drainage still scores 5 (`PriorityInRange`).
- The integration reading 320/42/65/20/18 scores exactly 1138/15 (about 75.87),
  which is Critical (`IntegrationScenario`).
- The contribution breakdown sums to the score for every input: each entry is
  capped at its own weight and the weights add to 100, so the outer cap never
  binds (`ContributionsSumToScore`).
- `generate_alert_message` returns the empty string for a level outside its
  table, "No Alert" included (`MessageNamesVillage`).

## Model

| member | source | states |
|---|---|---|
| RiskEngine.RainfallScore | logic/risk_engine.py:58 | the rainfall term is at most 35, non-negative for non-negative rainfall, and exactly 35 from 400 mm up |
| RiskEngine.SlopeScore | logic/risk_engine.py:59 | the slope term is at most 30, non-negative for non-negative slope, and exactly 30 from 50 degrees up |
| RiskEngine.MoistureScore | logic/risk_engine.py:60 | the moisture term is at most 20, non-negative for non-negative moisture, and exactly 20 from 100% up |
| RiskEngine.DeforestScore | logic/risk_engine.py:61 | the deforestation term is at most 10, non-negative for non-negative input, and exactly 10 from 30% up |
| RiskEngine.RoadcutScore | logic/risk_engine.py:62 | the road-cut term is at most 5, non-negative for non-negative input, and exactly 5 from 30% up |
| RiskEngine.ComputeRiskScore | logic/risk_engine.py:26-67 | the composite score never exceeds 100 |
| RiskEngine.ScoreInRange | logic/risk_engine.py:58-67 | non-negative readings give a score in [0, 100] |
| RiskEngine.ScoreIsSumOfTerms | logic/risk_engine.py:64-67 | the outer cap never binds: the score is exactly the sum of the five capped terms |
| RiskEngine.ScoreOfZeroReadings | logic/risk_engine.py:58-67 | all-zero readings score 0 |
| RiskEngine.ScoreOfSaturatedReadings | logic/risk_engine.py:58-67 | readings at or above 400/50/100/30/30 score exactly 100 |
| RiskEngine.ScoreMonotone | logic/risk_engine.py:58-65 | raising any factor (others fixed or raised too) never lowers the score |
| RiskEngine.CalculateRiskContributions | logic/risk_engine.py:91-103 | five entries with the source's labels in the source's order, each at most its weight 35/30/20/10/5 |
| RiskEngine.ContributionsSumToScore | logic/risk_engine.py:58-103 | for every input the five contributions add up exactly to the risk score |
| RiskEngine.TriggerCount | logic/risk_engine.py:132-149 | the number of active triggers is at most 5 |
| RiskEngine.TriggerNames | logic/risk_engine.py:133-149 | the collected trigger names number exactly the trigger count, in order rainfall, slope, saturation, road-cuts, deforestation |
| RiskEngine.ConfidenceFor | logic/risk_engine.py:152-171 | the confidence band's strength is the trigger count, saturating at 4 (High) for four or more triggers |
| RiskEngine.UncertaintyFor | logic/risk_engine.py:152-171 | the uncertainty for any trigger count lies in [5, 15] |
| RiskEngine.ExplanationFor | logic/risk_engine.py:152-171 | the explanation is the fixed "Limited trigger activation" text exactly when no trigger is active |
| RiskEngine.CalculateConfidenceLevel | logic/risk_engine.py:106-173 | the step-by-step count yields the confidence label, uncertainty and explanation of the trigger count and the collected names |
| RiskEngine.ConfidenceMonotoneInCount | logic/risk_engine.py:152-171 | more triggers never lower the confidence nor raise the uncertainty |
| RiskEngine.ConfidenceMonotoneInReadings | logic/risk_engine.py:135-171 | pointwise higher readings activate no fewer triggers and give no more uncertainty |
| RiskEngine.CountIgnoresRoadCutsDeforestationOrder | logic/risk_engine.py:144-149 | swapping the road-cut and deforestation arguments (both thresholds 15) leaves the trigger count unchanged |
| RiskEngine.ExplanationNamesFirstTrigger | logic/risk_engine.py:152-167 | with at least one trigger the explanation contains the first trigger's name; with exactly one it is the single-factor text around it |
| RiskEngine.ExplanationUsesFirstThree | logic/risk_engine.py:155-163 | the explanation depends only on the count and the first three names |
| RiskEngine.IdentifyActiveTriggers | logic/risk_engine.py:176-210 | the step-by-step appends build the report of the five thresholds; hence one trigger per exceeded threshold (as many as the confidence count), each carrying its reading, in order rainfall, moisture, road cuts, deforestation, slope, and every exceeded factor listed |
| RiskEngine.ActiveTriggersSound | logic/risk_engine.py:197-208 | every reported trigger is a factor above its threshold, with that factor's reading |
| RiskEngine.ActiveTriggersComplete | logic/risk_engine.py:197-208 | a factor is reported exactly when it exceeds its threshold |
| RiskEngine.ActiveTriggersInReportOrder | logic/risk_engine.py:199-208 | the report lists rainfall, moisture, road cuts, deforestation, slope in that order |
| RiskEngine.ActiveTriggersCount | logic/risk_engine.py:197-208 | the report has as many entries as the confidence calculation counts triggers |
| RiskEngine.GetRiskCategory | logic/risk_engine.py:213-232 | the category's rank (Low 0 … Critical 3) is the number of thresholds 40, 60, 75 the score reaches |
| RiskEngine.CategoryBands | logic/risk_engine.py:225-232 | the category is Critical, High, Moderate, Low exactly on [75,inf), [60,75), [40,60), (-inf,40) |
| RiskEngine.CategoryMonotone | logic/risk_engine.py:225-232 | a higher score never gives a lower category |
| AlertEngine.DetermineAlertLevel | logic/alert_engine.py:24-49 | the alert level's severity (No Alert 0 … Evacuate 3) is the number of thresholds 40, 60, 75 the score reaches |
| AlertEngine.GetAlertFrequency | logic/alert_engine.py:52-69 | the repeat frequency is the one attached to the alert level the same score determines |
| AlertEngine.AlertLevelBands | logic/alert_engine.py:42-49 | Evacuate, Warning, Advisory, No Alert exactly on [75,inf), [60,75), [40,60), (-inf,40); the level is monotone in the score |
| AlertEngine.FrequencyFollowsLevel | logic/alert_engine.py:62-69 | the frequency is the level's frequency; two scores share a frequency exactly when they share a level |
| AlertEngine.GetDeliveryChannels | logic/alert_engine.py:90-97 | the channel list is non-empty, starts with SMS, and has one more entry than the level's severity (1 to 4) |
| AlertEngine.ChannelsEscalate | logic/alert_engine.py:90-97 | the channel list for a lower score is a prefix of the list for a higher score |
| AlertEngine.EnglishComplete | logic/alert_engine.py:127-131 | the English table has a template for each of Advisory, Warning, Evacuate |
| AlertEngine.HindiComplete | logic/alert_engine.py:132-136 | the Hindi table has a template for each of Advisory, Warning, Evacuate |
| AlertEngine.KhasiComplete | logic/alert_engine.py:137-141 | the Khasi table has a template for each of Advisory, Warning, Evacuate |
| AlertEngine.MessagesShape | logic/alert_engine.py:126-142 | the table covers exactly English, Hindi and Khasi, each with all three alert levels |
| AlertEngine.UnsupportedLanguageFallsBackToEnglish | logic/alert_engine.py:144 | an unsupported language yields exactly the English message |
| AlertEngine.MessageNamesVillage | logic/alert_engine.py:123-144 | for Advisory/Warning/Evacuate in any language the message is non-empty and contains the village name and the risk category; any other level gives the empty string |
| AlertEngine.GenerateAlertMessage | logic/alert_engine.py:100-144 | a level outside the table gives the empty text; a supported level gives a text naming the village and the score's risk category |
| AlertEngine.FormatSmsAlert | logic/alert_engine.py:240-250 | empty below 40; at most max_length characters when max_length >= 3; otherwise the full message, or its first max_length-3 characters followed by "..." when it is too long |
| AlertEngine.EnglishAdvisorySmsCut | logic/alert_engine.py:222-250 | an English Advisory is the village name plus 90 characters, its warning-sign mark included, so the 160-character SMS is cut to 157 characters plus "..." exactly when the name exceeds 70 characters |
| AlertEngine.SmsIsMessagePrefix | logic/alert_engine.py:240-250 | from 40 up the SMS is non-empty and is the full message or a prefix of it followed by "..." |
| AlertEngine.CreateAlertEscalationMatrix | logic/alert_engine.py:154-183 | four rows in ascending score-range order labelled Advisory, Advisory, Warning, Evacuate |
| AlertEngine.MatrixFirstRowDisagrees | logic/alert_engine.py:154-161 | the 0-40 row's level differs from the level the engine gives every score in that band |
| AlertEngine.CorrectedEscalationMatrix | logic/alert_engine.py:154-183 | with the first row labelled "No Alert", every row's level is the engine's level for every score in the row's band |
| AlertEngine.GenerateAlertMetadata | logic/alert_engine.py:204-219 | status is "active" exactly when the level is not No Alert (else "monitoring"); delivery count is twice the households; level, channels and frequency are the engine's |
| AlertEngine.SimulateAlertDelivery | logic/alert_engine.py:253-292 | "no_alert_needed" exactly below 40; otherwise the engine's level, channels and frequency, twice the households reached, the formatted SMS and the localised voice message |
| AlertEngine.DeliveredSmsFits | logic/alert_engine.py:271-292 | a delivered alert's SMS is non-empty and within 160 characters |
| AlertEngine.DeliveredVoiceNamesVillage | logic/alert_engine.py:271-292 | a delivered alert's voice message names the village |
| EvacuationPlanner.DrainageScore | logic/evacuation_planner.py:61-62 | the drainage term is one of 30, 15, 5 |
| EvacuationPlanner.AccessScore | logic/evacuation_planner.py:65-66 | the access term is one of 25, 10, 0 |
| EvacuationPlanner.UnknownLabelsScoreAsDefaults | logic/evacuation_planner.py:61-66 | an unknown drainage label scores 15 like Fair and an unknown access label 10 like Moderate |
| EvacuationPlanner.HouseholdPriority | logic/evacuation_planner.py:55-72 | the priority never exceeds 100 |
| EvacuationPlanner.CalculateHouseholdPriority | logic/evacuation_planner.py:29-72 | the accumulated priority is the capped sum of the four terms, hence at most 100 |
| EvacuationPlanner.PriorityInRange | logic/evacuation_planner.py:55-72 | for distance in [5,500] and risk in [0,100] the priority lies in [5,100]; 500/Good/Good/0 gives 5 and 5/Poor/Limited/100 gives 100 |
| EvacuationPlanner.PriorityMonotone | logic/evacuation_planner.py:58-69 | priority is non-increasing in distance and non-decreasing in village risk |
| EvacuationPlanner.PhaseOf | logic/evacuation_planner.py:100-107 | a household lands in Phase 1 exactly from priority 75, Phase 2 exactly in [60, 75), Phase 3 exactly in [45, 60), and monitoring exactly below 45 |
| EvacuationPlanner.FilterConcat | logic/evacuation_planner.py:99-107 | selecting a bucket distributes over concatenation of rosters, so each bucket keeps roster order |
| EvacuationPlanner.PhaseSizesAddUp | logic/evacuation_planner.py:92-109 | the four bucket sizes add up to the roster length |
| EvacuationPlanner.PhasesPartition | logic/evacuation_planner.py:92-109 | the four buckets together hold exactly the roster, as a multiset |
| EvacuationPlanner.FilterKeeps | logic/evacuation_planner.py:100-107 | a selected household comes from the roster and passes the selection test |
| EvacuationPlanner.MembersInBand | logic/evacuation_planner.py:100-107 | every household in a bucket comes from the roster and has a priority in that bucket's band |
| EvacuationPlanner.GenerateEvacuationPhases | logic/evacuation_planner.py:75-109 | the loop fills exactly the four phase keys, each with that phase's households in roster order |
| EvacuationPlanner.CalculateEvacuationStatistics | logic/evacuation_planner.py:122-123 | the totals are the roster length and its occupant sum |
| EvacuationPlanner.StatisticsMatchPhases | logic/evacuation_planner.py:125-127 | the critical/high/moderate counts equal the Phase 1/2/3 bucket sizes |
| EvacuationPlanner.StatisticsBounded | logic/evacuation_planner.py:122-142 | the three band counts add up to at most the total households, and the band people to at most the total people |
| EvacuationPlanner.GenerateEvacuationRoutes | logic/evacuation_planner.py:156-167 | four keys; status "compromised" and Route B exactly when the road-cut reading is at least 20, otherwise "good" and Route A |
| EvacuationPlanner.InsertShape | logic/evacuation_planner.py:202 | inserting adds one shelter and starts with it or with the old first shelter |
| EvacuationPlanner.InsertPermutes | logic/evacuation_planner.py:202 | inserting adds exactly the new shelter, as a multiset |
| EvacuationPlanner.InsertSorted | logic/evacuation_planner.py:202 | inserting into a distance-ordered list keeps it ordered |
| EvacuationPlanner.SortSorts | logic/evacuation_planner.py:202 | sorting by distance gives a distance-ordered permutation |
| EvacuationPlanner.SortKeepsSorted | logic/evacuation_planner.py:202 | sorting an already ordered list returns it unchanged |
| EvacuationPlanner.IdentifyShelterCapacity | logic/evacuation_planner.py:180-202 | the same three shelters, ordered by ascending distance, whatever the head count |
| EvacuationPlanner.FocusIndex | logic/evacuation_planner.py:247-248 | the focus-area index is in [0, 4) |
| EvacuationPlanner.GenerateActionSummary | logic/evacuation_planner.py:224-276 | critical count <= evacuate count <= roster size; the focus area is one of the four; Route B exactly when road cuts exceed 20 |
| EvacuationPlanner.SummaryCountsMatchStatistics | logic/evacuation_planner.py:243-244 | the summary's critical count is the critical band and its evacuate count the critical plus high bands |
| EvacuationPlanner.SummaryRoute | logic/evacuation_planner.py:250-254 | the summary recommends one of the two route texts, and Route B exactly when road cuts exceed 20 |
| EvacuationPlanner.SummaryRouteDisagreesAtTwenty | logic/evacuation_planner.py:250-254 | at road cuts of exactly 20 the route table calls the road compromised while the summary recommends Route A |
| EvacuationPlanner.SummaryRouteCorrected | logic/evacuation_planner.py:250-254 | the corrected summary route is Route B exactly when the route table calls the road compromised |
| Pipeline.CategoryAndAlertLevelAligned | logic/alert_engine.py:42-49 | risk category and alert level switch at the same scores 40/60/75 |
| Pipeline.SummaryAgreesWithOtherStages | logic/evacuation_planner.py:224-264 | the summary's action and priority tier are those of the risk category, and its frequency is the alert engine's |
| Pipeline.IntegrationScenario | tests/test_compatibility.py:176-185 | 320/42/65/20/18 scores 1138/15: Critical, Evacuate, four channels, every 15 minutes |
| Pipeline.CompatibilityAlertLevels | tests/test_compatibility.py:135-140 | scores 30/50/65/80 give No Alert/Advisory/Warning/Evacuate |

## Left out

- PrimaryRoute, AlternativeRoute: the source's route descriptions contain a mis-encoded arrow character; the model spells that arrow "->".
- Timestamps (`datetime.now()` in the metadata and delivery records): clock input, not part of the records here.
- The focus-area hash: Python's string hash is salted per process, so the hash is a caller-supplied `string -> int`; only the index range is stated.
- Emoji icons in the action summary: display characters that no operation measures or compares.
- The `:.0f` rendering inside active-trigger descriptions: a trigger is modelled as its factor and its reading.
- IEEE floating-point rounding: scores are exact reals.
- Household coordinates: no logic reads them.
- Python default arguments (`language="English"`, `max_length=160`): every argument is explicit; `SmsLimit` is the 160 the delivery record uses.
- The contribution and statistics dictionaries' string keys: the model uses labelled records and fields in the same order.
- The dashboard, its inline copies of these rules, and the random demo data: not part of this model.

## Findings

| source | as written | input that shows it | evidently intended | confidence | as-written member | corrected member |
|---|---|---|---|---|---|---|
| logic/evacuation_planner.py:251 | the summary recommends Route B only when `road_cuts > 20` | road cuts exactly 20: the route table says "compromised" / Route B, the summary says Route A | the summary reuses the route table's `>= 20` switch | medium, not executed | EvacuationPlanner.SummaryRouteDisagreesAtTwenty | EvacuationPlanner.SummaryRouteCorrected |
| logic/alert_engine.py:157 | the 0-40 row of the escalation matrix is labelled "Advisory" | any score in [0, 40): the engine's level is "No Alert" | the row carries the level the engine assigns, "No Alert" | medium, not executed | AlertEngine.MatrixFirstRowDisagrees | AlertEngine.CorrectedEscalationMatrix |
