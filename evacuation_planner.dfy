/**
 * The micro-evacuation planner: a per-household priority score, the partition
 * of a village roster into four evacuation phases, per-band statistics, the
 * road-cut route switch, the shelter list, and the one-glance action summary.
 *
 * A household's coordinates are not used by any of this logic and are not
 * part of the model.
 */
module EvacuationPlanner {
  import opened Prelude

  datatype Household = Household(
    id: string,
    distanceToSlope: real,   // metres
    drainageQuality: string, // "Poor" / "Fair" / "Good"
    roadAccess: string,      // "Limited" / "Moderate" / "Good"
    occupants: nat,
    priorityScore: real)

  // ---------------------------------------------------------------------------
  // Household priority

  /** Drainage points; an unknown label scores like "Fair". */
  function DrainageScore(drainageQuality: string): (p: real)
    ensures p == 30.0 || p == 15.0 || p == 5.0
  {
    var scores := map["Poor" := 30.0, "Fair" := 15.0, "Good" := 5.0];
    if drainageQuality in scores then scores[drainageQuality] else 15.0
  }

  /** Road-access points; an unknown label scores like "Moderate". */
  function AccessScore(roadAccess: string): (p: real)
    ensures p == 25.0 || p == 10.0 || p == 0.0
  {
    var scores := map["Limited" := 25.0, "Moderate" := 10.0, "Good" := 0.0];
    if roadAccess in scores then scores[roadAccess] else 10.0
  }

  /** The lenient defaults: an unknown drainage label scores 15 like "Fair", an
      unknown access label 10 like "Moderate". */
  lemma UnknownLabelsScoreAsDefaults(drainageQuality: string, roadAccess: string)
    ensures drainageQuality !in {"Poor", "Fair", "Good"} ==>
      DrainageScore(drainageQuality) == DrainageScore("Fair") == 15.0
    ensures roadAccess !in {"Limited", "Moderate", "Good"} ==>
      AccessScore(roadAccess) == AccessScore("Moderate") == 10.0
  {
  }

  /** The closeness points: 40 at the slope, falling linearly to 0 at 500 m. */
  function DistanceScore(distanceToSlope: real): real
  {
    (500.0 - distanceToSlope) / 500.0 * 40.0
  }

  /** The village-risk points: up to 20 for a village score of 100. */
  function VillageRiskScore(villageRiskScore: real): real
  {
    villageRiskScore / 100.0 * 20.0
  }

  /** The priority as one expression: the four terms summed and capped at 100. */
  function HouseholdPriority(distanceToSlope: real, drainageQuality: string,
                             roadAccess: string, villageRiskScore: real): (p: real)
    ensures p <= 100.0
  {
    Min(DistanceScore(distanceToSlope) + DrainageScore(drainageQuality)
        + AccessScore(roadAccess) + VillageRiskScore(villageRiskScore), 100.0)
  }

  /** Accumulates the four terms into a running priority, then caps it. */
  method CalculateHouseholdPriority(distanceToSlope: real, drainageQuality: string,
                                    roadAccess: string, villageRiskScore: real)
    returns (priority: real)
    ensures priority == HouseholdPriority(distanceToSlope, drainageQuality, roadAccess, villageRiskScore)
    ensures priority <= 100.0
  {
    priority := 0.0;
    priority := priority + (500.0 - distanceToSlope) / 500.0 * 40.0;
    var drainageScores := map["Poor" := 30.0, "Fair" := 15.0, "Good" := 5.0];
    priority := priority + if drainageQuality in drainageScores then drainageScores[drainageQuality] else 15.0;
    var accessScores := map["Limited" := 25.0, "Moderate" := 10.0, "Good" := 0.0];
    priority := priority + if roadAccess in accessScores then accessScores[roadAccess] else 10.0;
    priority := priority + villageRiskScore / 100.0 * 20.0;
    priority := Min(priority, 100.0);
  }

  /** Over the documented input domain the priority lies in [5, 100]; the lowest
      value is 5 because "Good" drainage still scores 5. */
  lemma PriorityInRange(distanceToSlope: real, drainageQuality: string,
                        roadAccess: string, villageRiskScore: real)
    requires 5.0 <= distanceToSlope <= 500.0 && 0.0 <= villageRiskScore <= 100.0
    ensures 5.0 <= HouseholdPriority(distanceToSlope, drainageQuality, roadAccess, villageRiskScore) <= 100.0
    ensures HouseholdPriority(500.0, "Good", "Good", 0.0) == 5.0
    ensures HouseholdPriority(5.0, "Poor", "Limited", 100.0) == 100.0
  {
  }

  /** Moving closer to the slope, or a riskier village, never lowers priority. */
  lemma PriorityMonotone(d1: real, d2: real, drainageQuality: string, roadAccess: string, v1: real, v2: real)
    requires d1 <= d2 && v1 <= v2
    ensures HouseholdPriority(d2, drainageQuality, roadAccess, v1)
         <= HouseholdPriority(d1, drainageQuality, roadAccess, v2)
  {
  }

  // ---------------------------------------------------------------------------
  // Phases

  datatype Phase = Immediate | HighPriority | ModeratePriority | Monitoring
  {
    /** The dictionary key the source files the bucket under. */
    function Key(): string
    {
      match this
      case Immediate => "Phase 1: Immediate (0-30 min)"
      case HighPriority => "Phase 2: High Priority (30-120 min)"
      case ModeratePriority => "Phase 3: Moderate Priority (2-4 hours)"
      case Monitoring => "Monitoring: Stay Alert"
    }
  }

  const AllPhases: set<Phase> := {Immediate, HighPriority, ModeratePriority, Monitoring}

  /** The phase a priority score falls in: [75, inf), [60, 75), [45, 60), (-inf, 45). */
  function PhaseOf(priority: real): (p: Phase)
    ensures p == Immediate <==> 75.0 <= priority
    ensures p == HighPriority <==> 60.0 <= priority < 75.0
    ensures p == ModeratePriority <==> 45.0 <= priority < 60.0
    ensures p == Monitoring <==> priority < 45.0
  {
    if priority >= 75.0 then Immediate
    else if priority >= 60.0 then HighPriority
    else if priority >= 45.0 then ModeratePriority
    else Monitoring
  }

  /** The members of `hs` that `keep` accepts, in roster order. */
  function Filter(hs: seq<Household>, keep: Household -> bool): (r: seq<Household>)
    ensures |r| <= |hs|
  {
    if hs == [] then []
    else (if keep(hs[0]) then [hs[0]] else []) + Filter(hs[1..], keep)
  }

  /** A filter keeps only roster members that pass the test. */
  lemma {:induction false} FilterKeeps(hs: seq<Household>, keep: Household -> bool, h: Household)
    requires h in Filter(hs, keep)
    ensures h in hs && keep(h)
  {
    if h != hs[0] || !keep(hs[0]) {
      FilterKeeps(hs[1..], keep, h);
    }
  }

  /** Filtering distributes over concatenation, so a filter keeps roster order. */
  lemma {:induction false} FilterConcat(a: seq<Household>, b: seq<Household>, keep: Household -> bool)
    ensures Filter(a + b, keep) == Filter(a, keep) + Filter(b, keep)
  {
    if a == [] {
      assert a + b == b;
    } else {
      assert (a + b)[0] == a[0];
      assert (a + b)[1..] == a[1..] + b;
      FilterConcat(a[1..], b, keep);
      calc {
        Filter(a + b, keep);
        (if keep(a[0]) then [a[0]] else []) + Filter(a[1..] + b, keep);
        (if keep(a[0]) then [a[0]] else []) + (Filter(a[1..], keep) + Filter(b, keep));
        ((if keep(a[0]) then [a[0]] else []) + Filter(a[1..], keep)) + Filter(b, keep);
      }
    }
  }

  /** Two predicates that agree on the roster select the same households. */
  lemma {:induction false} FilterAgree(hs: seq<Household>, p: Household -> bool, q: Household -> bool)
    requires forall h :: h in hs ==> p(h) == q(h)
    ensures Filter(hs, p) == Filter(hs, q)
  {
    if hs != [] {
      FilterAgree(hs[1..], p, q);
    }
  }

  /** The test "this household belongs to `phase`". */
  function InPhase(phase: Phase): Household -> bool
  {
    (h: Household) => PhaseOf(h.priorityScore) == phase
  }

  /** The households of one phase, in roster order. */
  function Members(hs: seq<Household>, phase: Phase): seq<Household>
  {
    Filter(hs, InPhase(phase))
  }

  /** `[h]` in the bucket of phase `k`, nothing in the others. */
  function Pick(h: Household, k: Phase, phase: Phase): seq<Household>
  {
    if k == phase then [h] else []
  }

  lemma MembersStep(hs: seq<Household>, h: Household, phase: Phase)
    ensures Members(hs + [h], phase) == Members(hs, phase) + Pick(h, PhaseOf(h.priorityScore), phase)
  {
    FilterConcat(hs, [h], InPhase(phase));
    assert [h][1..] == [];
  }

  /** Peeling the first household off the roster. */
  lemma MembersCons(hs: seq<Household>, phase: Phase)
    requires hs != []
    ensures Members(hs, phase) == Pick(hs[0], PhaseOf(hs[0].priorityScore), phase) + Members(hs[1..], phase)
  {
  }

  /** The four bucket sizes add up to the roster's length. */
  lemma {:induction false} PhaseSizesAddUp(hs: seq<Household>)
    ensures |Members(hs, Immediate)| + |Members(hs, HighPriority)|
          + |Members(hs, ModeratePriority)| + |Members(hs, Monitoring)| == |hs|
  {
    if hs != [] {
      PhaseSizesAddUp(hs[1..]);
      MembersCons(hs, Immediate);
      MembersCons(hs, HighPriority);
      MembersCons(hs, ModeratePriority);
      MembersCons(hs, Monitoring);
    }
  }

  /** Adding one household to exactly one of four buckets adds it once to
      their union. */
  lemma AddToOneBucket(h: Household, k: Phase, a: seq<Household>, b: seq<Household>,
                       c: seq<Household>, d: seq<Household>)
    ensures multiset(Pick(h, k, Immediate) + a) + multiset(Pick(h, k, HighPriority) + b)
          + multiset(Pick(h, k, ModeratePriority) + c) + multiset(Pick(h, k, Monitoring) + d)
         == multiset{h} + (multiset(a) + multiset(b) + multiset(c) + multiset(d))
  {
    assert [] + a == a && [] + b == b && [] + c == c && [] + d == d;
  }

  /** A roster is its first household plus the rest, as a multiset. */
  lemma MultisetCons(hs: seq<Household>)
    requires hs != []
    ensures multiset(hs) == multiset{hs[0]} + multiset(hs[1..])
  {
    assert hs == [hs[0]] + hs[1..];
  }

  /** Together the four buckets hold exactly the roster's households, each as
      often as it occurs in the roster. */
  lemma {:induction false} PhasesPartition(hs: seq<Household>)
    ensures multiset(Members(hs, Immediate)) + multiset(Members(hs, HighPriority))
          + multiset(Members(hs, ModeratePriority)) + multiset(Members(hs, Monitoring)) == multiset(hs)
  {
    if hs != [] {
      var h, rest := hs[0], hs[1..];
      PhasesPartition(rest);
      MembersCons(hs, Immediate);
      MembersCons(hs, HighPriority);
      MembersCons(hs, ModeratePriority);
      MembersCons(hs, Monitoring);
      AddToOneBucket(h, PhaseOf(h.priorityScore), Members(rest, Immediate), Members(rest, HighPriority),
                     Members(rest, ModeratePriority), Members(rest, Monitoring));
      MultisetCons(hs);
    }
  }

  /** Every household in a bucket has a priority in that bucket's band. */
  lemma MembersInBand(hs: seq<Household>, phase: Phase, h: Household)
    requires h in Members(hs, phase)
    ensures h in hs && PhaseOf(h.priorityScore) == phase
  {
    FilterKeeps(hs, InPhase(phase), h);
  }

  /** `phases` buckets `prefix`: one bucket per phase, each holding that
      phase's households in roster order. */
  ghost predicate Bucketing(phases: map<Phase, seq<Household>>, prefix: seq<Household>)
  {
    phases.Keys == AllPhases && forall phase :: phase in phases ==> phases[phase] == Members(prefix, phase)
  }

  /** Appending the next household to its own bucket buckets the longer prefix. */
  lemma BucketsStep(phases: map<Phase, seq<Household>>, prefix: seq<Household>, hh: Household)
    requires Bucketing(phases, prefix)
    ensures var k := PhaseOf(hh.priorityScore);
      Bucketing(phases[k := phases[k] + [hh]], prefix + [hh])
  {
    var k := PhaseOf(hh.priorityScore);
    var next := phases[k := phases[k] + [hh]];
    forall p | p in next
      ensures next[p] == Members(prefix + [hh], p)
    {
      MembersStep(prefix, hh, p);
    }
  }

  /** Walks the roster once, appending each household to the bucket of its phase. */
  method GenerateEvacuationPhases(households: seq<Household>) returns (phases: map<Phase, seq<Household>>)
    ensures phases.Keys == AllPhases
    ensures forall phase :: phase in phases ==> phases[phase] == Members(households, phase)
  {
    phases := map[Immediate := [], HighPriority := [], ModeratePriority := [], Monitoring := []];
    assert households[..0] == [];
    for i := 0 to |households|
      invariant Bucketing(phases, households[..i])
    {
      var hh := households[i];
      var phase := if hh.priorityScore >= 75.0 then Immediate
                   else if hh.priorityScore >= 60.0 then HighPriority
                   else if hh.priorityScore >= 45.0 then ModeratePriority
                   else Monitoring;
      assert phase == PhaseOf(hh.priorityScore);
      BucketsStep(phases, households[..i], hh);
      assert households[..i + 1] == households[..i] + [hh];
      phases := phases[phase := phases[phase] + [hh]];
    }
    assert households[..|households|] == households;
  }

  // ---------------------------------------------------------------------------
  // Statistics

  datatype EvacuationStatistics = EvacuationStatistics(
    totalHouseholds: nat, totalPeople: nat,
    criticalHouseholds: nat, criticalPeople: nat,
    highPriorityHouseholds: nat, highPriorityPeople: nat,
    moderatePriorityHouseholds: nat, moderatePriorityPeople: nat)

  /** The sum of occupants over a list of households. */
  function People(hs: seq<Household>): nat
  {
    if hs == [] then 0 else hs[0].occupants + People(hs[1..])
  }

  predicate IsCritical(h: Household) { h.priorityScore >= 75.0 }
  predicate IsHighPriority(h: Household) { 60.0 <= h.priorityScore < 75.0 }
  predicate IsModeratePriority(h: Household) { 45.0 <= h.priorityScore < 60.0 }

  function CalculateEvacuationStatistics(households: seq<Household>): (stats: EvacuationStatistics)
    ensures stats.totalHouseholds == |households| && stats.totalPeople == People(households)
  {
    var critical := Filter(households, IsCritical);
    var high := Filter(households, IsHighPriority);
    var moderate := Filter(households, IsModeratePriority);
    EvacuationStatistics(|households|, People(households),
                         |critical|, People(critical),
                         |high|, People(high),
                         |moderate|, People(moderate))
  }

  /** The three band counts are the sizes of phase buckets 1 to 3 for the same roster. */
  lemma StatisticsMatchPhases(hs: seq<Household>)
    ensures CalculateEvacuationStatistics(hs).criticalHouseholds == |Members(hs, Immediate)|
    ensures CalculateEvacuationStatistics(hs).highPriorityHouseholds == |Members(hs, HighPriority)|
    ensures CalculateEvacuationStatistics(hs).moderatePriorityHouseholds == |Members(hs, ModeratePriority)|
  {
    FilterAgree(hs, IsCritical, InPhase(Immediate));
    FilterAgree(hs, IsHighPriority, InPhase(HighPriority));
    FilterAgree(hs, IsModeratePriority, InPhase(ModeratePriority));
  }

  /** Three bands that no household belongs to twice hold no more households,
      and no more people, than the whole roster. */
  lemma {:induction false} DisjointBandsBounded(hs: seq<Household>)
    ensures |Filter(hs, IsCritical)| + |Filter(hs, IsHighPriority)| + |Filter(hs, IsModeratePriority)| <= |hs|
    ensures People(Filter(hs, IsCritical)) + People(Filter(hs, IsHighPriority))
          + People(Filter(hs, IsModeratePriority)) <= People(hs)
  {
    if hs != [] {
      DisjointBandsBounded(hs[1..]);
      PeopleConcat(if IsCritical(hs[0]) then [hs[0]] else [], Filter(hs[1..], IsCritical));
      PeopleConcat(if IsHighPriority(hs[0]) then [hs[0]] else [], Filter(hs[1..], IsHighPriority));
      PeopleConcat(if IsModeratePriority(hs[0]) then [hs[0]] else [], Filter(hs[1..], IsModeratePriority));
    }
  }

  lemma {:induction false} PeopleConcat(a: seq<Household>, b: seq<Household>)
    ensures People(a + b) == People(a) + People(b)
  {
    if a == [] {
      assert a + b == b;
    } else {
      assert (a + b)[1..] == a[1..] + b;
      PeopleConcat(a[1..], b);
    }
  }

  /** The band counts add up to at most the roster size and each band's people
      to at most the roster's people. */
  lemma StatisticsBounded(hs: seq<Household>)
    ensures var stats := CalculateEvacuationStatistics(hs);
      && stats.criticalHouseholds + stats.highPriorityHouseholds + stats.moderatePriorityHouseholds
         <= stats.totalHouseholds
      && stats.criticalPeople + stats.highPriorityPeople + stats.moderatePriorityPeople <= stats.totalPeople
  {
    DisjointBandsBounded(hs);
  }

  // ---------------------------------------------------------------------------
  // Routes

  const PrimaryRoute := "Village Road -> NH-106 -> Relief Camp A (5 km)"
  const AlternativeRoute := "Forest Path -> State Highway -> Relief Camp B (7 km)"
  const UseRouteB := "Use Route B (Route A compromised)"
  const UseRouteA := "Use Route A (road intact)"

  /** The route table's switch: road cuts of 20% or more compromise Route A. */
  predicate RoadCompromised(roadCondition: real)
  {
    roadCondition >= 20.0
  }

  /** The route table; the "recommendation" entry is added once the table exists. */
  method GenerateEvacuationRoutes(villageName: string, roadCondition: real) returns (routes: map<string, string>)
    ensures routes.Keys == {"primary", "alternative", "status", "recommendation"}
    ensures routes["primary"] == PrimaryRoute && routes["alternative"] == AlternativeRoute
    ensures routes["status"] == "compromised" <==> RoadCompromised(roadCondition)
    ensures routes["status"] == "good" <==> !RoadCompromised(roadCondition)
    ensures routes["recommendation"] == UseRouteB <==> RoadCompromised(roadCondition)
    ensures routes["recommendation"] == UseRouteA <==> !RoadCompromised(roadCondition)
  {
    routes := map[
      "primary" := PrimaryRoute,
      "alternative" := AlternativeRoute,
      "status" := if roadCondition < 20.0 then "good" else "compromised"];
    if roadCondition >= 20.0 {
      routes := routes["recommendation" := UseRouteB];
    } else {
      routes := routes["recommendation" := UseRouteA];
    }
  }

  // ---------------------------------------------------------------------------
  // Shelters

  datatype Shelter = Shelter(name: string, distanceKm: real, capacity: nat, kind: string)

  function ShelterTable(): seq<Shelter>
  {
    [ Shelter("Community Hall", 1.2, 150, "Emergency Shelter"),
      Shelter("School Building", 2.5, 200, "Designated Shelter"),
      Shelter("District Relief Camp", 5.0, 500, "Long-term Shelter") ]
  }

  predicate SortedByDistance(s: seq<Shelter>)
  {
    forall i, j :: 0 <= i < j < |s| ==> s[i].distanceKm <= s[j].distanceKm
  }

  /** Inserts a shelter in front of the first one that is not nearer. */
  function Insert(x: Shelter, s: seq<Shelter>): seq<Shelter>
  {
    if s == [] || x.distanceKm <= s[0].distanceKm then [x] + s
    else [s[0]] + Insert(x, s[1..])
  }

  /** The stable sort by distance. */
  function SortByDistance(s: seq<Shelter>): seq<Shelter>
  {
    if s == [] then [] else Insert(s[0], SortByDistance(s[1..]))
  }

  /** Inserting adds one shelter, and the result starts with the new shelter
      or with the old first one. */
  lemma {:induction false} InsertShape(x: Shelter, s: seq<Shelter>)
    ensures |Insert(x, s)| == |s| + 1
    ensures Insert(x, s)[0] == x || (s != [] && Insert(x, s)[0] == s[0])
  {
    if s != [] && x.distanceKm > s[0].distanceKm {
      InsertShape(x, s[1..]);
    }
  }

  /** Inserting adds exactly the new shelter. */
  lemma {:induction false} InsertPermutes(x: Shelter, s: seq<Shelter>)
    ensures multiset(Insert(x, s)) == multiset(s) + multiset{x}
  {
    if s != [] && x.distanceKm > s[0].distanceKm {
      InsertPermutes(x, s[1..]);
      assert s == [s[0]] + s[1..];
      assert multiset([s[0]] + Insert(x, s[1..])) == multiset{s[0]} + multiset(Insert(x, s[1..]));
    }
  }

  /** Inserting into a distance-ordered list keeps it ordered. */
  lemma {:induction false} InsertSorted(x: Shelter, s: seq<Shelter>)
    requires SortedByDistance(s)
    ensures SortedByDistance(Insert(x, s))
  {
    InsertShape(x, s);
    if s != [] && x.distanceKm > s[0].distanceKm {
      var t := Insert(x, s[1..]);
      InsertSorted(x, s[1..]);
      InsertShape(x, s[1..]);
      var r := [s[0]] + t;
      assert Insert(x, s) == r;
      assert s[0].distanceKm <= t[0].distanceKm;
      forall i, j | 0 <= i < j < |r|
        ensures r[i].distanceKm <= r[j].distanceKm
      {
        if i == 0 {
          assert r[j] == t[j - 1];
          assert t[0].distanceKm <= t[j - 1].distanceKm;
        } else {
          assert r[i] == t[i - 1] && r[j] == t[j - 1];
        }
      }
    }
  }

  lemma {:induction false} SortSorts(s: seq<Shelter>)
    ensures SortedByDistance(SortByDistance(s)) && multiset(SortByDistance(s)) == multiset(s)
  {
    if s != [] {
      SortSorts(s[1..]);
      InsertSorted(s[0], SortByDistance(s[1..]));
      InsertPermutes(s[0], SortByDistance(s[1..]));
      assert s == [s[0]] + s[1..];
    }
  }

  /** Sorting a list that is already in order changes nothing. */
  lemma {:induction false} SortKeepsSorted(s: seq<Shelter>)
    requires SortedByDistance(s)
    ensures SortByDistance(s) == s
  {
    if s != [] {
      SortKeepsSorted(s[1..]);
    }
  }

  /** The shelters sorted by distance; the head count plays no part. */
  function IdentifyShelterCapacity(numPeople: int): (shelters: seq<Shelter>)
    ensures SortedByDistance(shelters)
    ensures multiset(shelters) == multiset(ShelterTable())
    ensures shelters == ShelterTable()
  {
    SortSorts(ShelterTable());
    SortKeepsSorted(ShelterTable());
    SortByDistance(ShelterTable())
  }

  // ---------------------------------------------------------------------------
  // Action summary

  datatype ActionSummary = ActionSummary(
    action: string, priority: string,
    householdsEvacuate: nat, householdsCritical: nat,
    focusArea: string, route: string, alertFrequency: string, timeframe: string)

  const FocusAreas: seq<string> := ["eastern slope", "northern ridge", "western valley", "southern approach"]

  /** Picks a focus area from a hash of the village name; the hash is supplied by
      the caller, as the source's string hash is salted per process. */
  function FocusIndex(villageName: string, hash: string -> int): (i: int)
    ensures 0 <= i < |FocusAreas|
  {
    hash(villageName) % |FocusAreas|
  }

  /** The summary's route line as written: Route B only when road cuts exceed 20. */
  function SummaryRoute(roadCuts: real): (r: string)
    ensures r == "Route B (Route A compromised)" <==> roadCuts > 20.0
    ensures r == "Route B (Route A compromised)" || r == "Route A (road intact)"
  {
    if roadCuts > 20.0 then "Route B (Route A compromised)" else "Route A (road intact)"
  }

  /** At exactly 20 the summary recommends Route A while the route table
      already calls the road compromised and recommends Route B. */
  lemma SummaryRouteDisagreesAtTwenty()
    ensures RoadCompromised(20.0) && SummaryRoute(20.0) == "Route A (road intact)"
  {
  }

  /** The summary route aligned with the route table's `>= 20` switch. */
  function SummaryRouteCorrected(roadCuts: real): (r: string)
    ensures r == "Route B (Route A compromised)" <==> RoadCompromised(roadCuts)
    ensures r == "Route A (road intact)" <==> !RoadCompromised(roadCuts)
  {
    if roadCuts >= 20.0 then "Route B (Route A compromised)" else "Route A (road intact)"
  }

  predicate IsHighRisk(h: Household) { h.priorityScore >= 60.0 }

  /** The decision card: action tier, household counts, focus area, route and
      alert frequency. The emoji icon is not part of this model. */
  function GenerateActionSummary(villageRiskScore: real, households: seq<Household>,
                                 villageName: string, roadCuts: real,
                                 hash: string -> int): (s: ActionSummary)
    ensures s.householdsCritical <= s.householdsEvacuate <= |households|
    ensures s.focusArea in FocusAreas
    ensures s.route == "Route B (Route A compromised)" <==> roadCuts > 20.0
    ensures s.timeframe == "Next 6 Hours"
  {
    var (action, priority) :=
      if villageRiskScore >= 75.0 then ("IMMEDIATE EVACUATION", "CRITICAL")
      else if villageRiskScore >= 60.0 then ("PREPARE FOR EVACUATION", "HIGH")
      else if villageRiskScore >= 40.0 then ("ENHANCED MONITORING", "MODERATE")
      else ("ROUTINE MONITORING", "LOW");
    var highRisk := Filter(households, IsHighRisk);
    var critical := Filter(households, IsCritical);
    FilterWeaker(households, IsCritical, IsHighRisk);
    var alertFreq :=
      if villageRiskScore >= 75.0 then "every 15 minutes"
      else if villageRiskScore >= 60.0 then "every 2 hours"
      else if villageRiskScore >= 40.0 then "every 6 hours"
      else "daily";
    ActionSummary(action, priority, |highRisk|, |critical|,
                  FocusAreas[FocusIndex(villageName, hash)], SummaryRoute(roadCuts),
                  alertFreq, "Next 6 Hours")
  }

  /** A stricter filter keeps no more households than a weaker one. */
  lemma {:induction false} FilterWeaker(hs: seq<Household>, strong: Household -> bool, weak: Household -> bool)
    requires forall h :: strong(h) ==> weak(h)
    ensures |Filter(hs, strong)| <= |Filter(hs, weak)|
  {
    if hs != [] {
      FilterWeaker(hs[1..], strong, weak);
    }
  }

  /** The summary's counts agree with the statistics for the same roster: the
      critical count is the critical band, and the households to evacuate are
      the critical and high bands together. */
  lemma SummaryCountsMatchStatistics(villageRiskScore: real, households: seq<Household>,
                                     villageName: string, roadCuts: real, hash: string -> int)
    ensures var s := GenerateActionSummary(villageRiskScore, households, villageName, roadCuts, hash);
      var stats := CalculateEvacuationStatistics(households);
      s.householdsCritical == stats.criticalHouseholds
      && s.householdsEvacuate == stats.criticalHouseholds + stats.highPriorityHouseholds
  {
    HighRiskSplits(households);
  }

  lemma {:induction false} HighRiskSplits(hs: seq<Household>)
    ensures |Filter(hs, IsHighRisk)| == |Filter(hs, IsCritical)| + |Filter(hs, IsHighPriority)|
  {
    if hs != [] {
      HighRiskSplits(hs[1..]);
    }
  }
}
