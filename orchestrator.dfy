/** The orchestrator (orchestrator.py): collecting the three agents' settled
    outcomes into a name-keyed table, splitting the attractions into two
    days, assigning time-of-day slots, costing each day, reconciling the
    budget with the planned cost, and assembling the itinerary. The agents'
    concurrent execution and the external-data fetch are replaced by their
    settled results. */
module Orchestrator {
  import opened Common
  import opened Models
  import ExternalApis

  // ---------------------------------------------------------------------------
  // The agent-results table
  // ---------------------------------------------------------------------------

  /** One entry of `agent_results`: the dictionary of a returned response,
      or the failure entry an exception becomes. */
  datatype AgentRecord =
    | Reported(response: AgentResponse)
    | Failed(error: string)
  {
    predicate Success()
    {
      match this
      case Reported(r) => r.success
      case Failed(_) => false
    }

    function Data(): AgentData
    {
      match this
      case Reported(r) => r.data
      case Failed(_) => NoData
    }
  }

  const AgentKeys: seq<string> := ["explorer", "budget", "food"]

  /** How one settled outcome enters the table: an exception becomes an
      unsuccessful entry with its message and empty data; a response is
      kept as it is. */
  function RecordOf(outcome: Outcome<AgentResponse>): (rec: AgentRecord)
    ensures outcome.Raised? ==> !rec.Success() && rec.Data() == NoData && rec == Failed(outcome.error)
    ensures outcome.Returned? ==>
              rec.Success() == outcome.value.success && rec.Data() == outcome.value.data
  {
    match outcome
    case Returned(r) => Reported(r)
    case Raised(e) => Failed(e)
  }

  /** `_run_agents_parallel`: the outcomes, in the order explorer, budget,
      food, are entered under those names. */
  method RunAgentsParallel(results: seq<Outcome<AgentResponse>>) returns (agentResults: map<string, AgentRecord>)
    requires |results| == 3
    ensures agentResults.Keys == {"explorer", "budget", "food"}
    ensures agentResults["explorer"] == RecordOf(results[0])
    ensures agentResults["budget"] == RecordOf(results[1])
    ensures agentResults["food"] == RecordOf(results[2])
  {
    agentResults := map[];
    var agentNames := AgentKeys;
    for i := 0 to |results|
      invariant agentResults.Keys == set j | 0 <= j < i :: agentNames[j]
      invariant forall j :: 0 <= j < i ==> agentResults[agentNames[j]] == RecordOf(results[j])
    {
      var agentName := agentNames[i];
      match results[i]
      case Raised(e) =>
        agentResults := agentResults[agentName := Failed(e)];
      case Returned(r) =>
        agentResults := agentResults[agentName := Reported(r)];
    }
    assert agentNames[0] in agentResults && agentNames[1] in agentResults && agentNames[2] in agentResults;
  }

  /** `.get("attractions", [])` on an agent's data. */
  function AttractionsOf(d: AgentData): seq<Attraction>
  {
    if d.ExplorerData? then d.attractions else []
  }

  /** `.get("recommendations", [])` on an agent's data. */
  function RecommendationsOf(d: AgentData): seq<string>
  {
    match d
    case ExplorerData(_, _, recs) => recs
    case BudgetData(_, _, recs, _) => recs
    case _ => []
  }

  /** `.get("food_recommendations", [])` on an agent's data. */
  function FoodRecommendationsOf(d: AgentData): seq<string>
  {
    if d.FoodData? then d.foodRecommendations else []
  }

  /** `.get("meal_suggestions", {})` on an agent's data. */
  function MealSuggestionsOf(d: AgentData): MealSuggestions
  {
    if d.FoodData? then d.mealSuggestions else map[]
  }

  /** `meal_suggestions.get(day, {})`. */
  function DayMeals(ms: MealSuggestions, day: string): map<string, seq<Restaurant>>
  {
    if day in ms then ms[day] else map[]
  }

  // ---------------------------------------------------------------------------
  // Days and slots
  // ---------------------------------------------------------------------------

  /** `attractions[:n//2]` for day 1 and `attractions[n//2:]` for day 2:
      together they are the list, and day 2 has as many entries as day 1 or
      one more. */
  function DayHalves(attractions: seq<Attraction>): (halves: (seq<Attraction>, seq<Attraction>))
    ensures halves.0 + halves.1 == attractions
    ensures |halves.1| == |halves.0| || |halves.1| == |halves.0| + 1
  {
    (attractions[..|attractions| / 2], attractions[|attractions| / 2..])
  }

  datatype Slots = Slots(morning: seq<Attraction>, afternoon: seq<Attraction>, evening: seq<Attraction>)

  /** The slot lists in the order the day's cost loop visits them. */
  function Occurrences(s: Slots): seq<Attraction>
  {
    s.morning + s.afternoon + s.evening
  }

  /** The morning, afternoon and evening slots for a day's attractions,
      chosen by the 2/4/6 length thresholds. Each slot holds at most two
      attractions, all from the day's list; with six or more the three slots
      are the first six in order. */
  function AssignSlots(items: seq<Attraction>): (s: Slots)
    ensures |s.morning| <= 2 && |s.afternoon| <= 2 && |s.evening| <= 2
    ensures forall a :: a in Occurrences(s) ==> a in items
    ensures |items| >= 6 ==> Occurrences(s) == items[..6]
  {
    var n := |items|;
    var s := Slots(
      if n >= 2 then Slice(items, 0, 2) else Slice(items, 0, 1),
      if n >= 4 then Slice(items, 2, 4) else if n > 1 then Slice(items, 1, 3) else [],
      if n >= 6 then Slice(items, 4, 6) else if n > 2 then Slice(items, 2, 4) else []);
    assert forall a :: a in Occurrences(s) ==> a in s.morning || a in s.afternoon || a in s.evening;
    s
  }

  /** With at most one attraction it goes to the morning, and the later
      slots are empty: no attraction is in two slots. */
  lemma SlotsSmall(items: seq<Attraction>)
    requires |items| <= 1
    ensures var s := AssignSlots(items);
      s.morning == items && s.afternoon == [] && s.evening == []
  {
  }

  /** From two to five attractions the slots overlap: with two or three the
      second attraction is in the morning and the afternoon, with three the
      third is in the afternoon and the evening, with four or five the
      afternoon and the evening are both the third and fourth. */
  lemma SlotsOverlap(items: seq<Attraction>)
    requires 2 <= |items| <= 5
    ensures var s := AssignSlots(items);
      && (|items| <= 3 ==> s.morning == items[..2] && s.afternoon[0] == s.morning[1] == items[1])
      && (|items| == 3 ==> s.afternoon == items[1..3] && s.evening == [items[2]])
      && (|items| >= 4 ==> s.morning == items[..2] && s.afternoon == s.evening == items[2..4])
  {
  }

  // ---------------------------------------------------------------------------
  // Meals and cost
  // ---------------------------------------------------------------------------

  /** The first option of one meal of the day, when the day's table is
      non-empty and lists that meal with at least one restaurant. */
  function MealPick(dayMeals: map<string, seq<Restaurant>>, meal: string): (r: Option<Restaurant>)
    ensures r.Some? <==> meal in dayMeals && dayMeals[meal] != []
    ensures r.Some? ==> r.value == dayMeals[meal][0]
  {
    if dayMeals == map[] then None
    else
      var options := if meal in dayMeals then dayMeals[meal] else [];
      if options != [] then Some(options[0]) else None
  }

  /** A present, non-zero entry fee counts once per traveller; a missing or
      zero fee adds nothing. */
  function FeeCost(a: Attraction, groupSize: int): real
  {
    if a.entryFee.Some? && a.entryFee.value != 0.0 then a.entryFee.value * groupSize as real else 0.0
  }

  /** The fees of a list of slot occurrences. */
  function FeesCost(acts: seq<Attraction>, groupSize: int): real
    decreases |acts|
  {
    if acts == [] then 0.0
    else FeesCost(acts[..|acts| - 1], groupSize) + FeeCost(acts[|acts| - 1], groupSize)
  }

  /** A chosen restaurant with a non-zero cost per person counts once per
      traveller. */
  function MealCost(r: Option<Restaurant>, groupSize: int): real
  {
    if r.Some? && r.value.estimatedCostPerPerson != 0.0 then r.value.estimatedCostPerPerson * groupSize as real
    else 0.0
  }

  /** A day's estimated cost: every slot occurrence's fee, then lunch, then
      dinner. */
  function DayCost(s: Slots, lunch: Option<Restaurant>, dinner: Option<Restaurant>, groupSize: int): real
  {
    FeesCost(Occurrences(s), groupSize) + MealCost(lunch, groupSize) + MealCost(dinner, groupSize)
  }

  lemma FeesCostStep(acts: seq<Attraction>, i: nat, groupSize: int)
    requires i < |acts|
    ensures FeesCost(acts[..i + 1], groupSize) == FeesCost(acts[..i], groupSize) + FeeCost(acts[i], groupSize)
  {
    assert acts[..i + 1][..i] == acts[..i];
  }

  /** The fees of two lists are the sum of their fees. */
  lemma {:induction false} FeesCostConcat(a: seq<Attraction>, b: seq<Attraction>, groupSize: int)
    ensures FeesCost(a + b, groupSize) == FeesCost(a, groupSize) + FeesCost(b, groupSize)
    decreases |b|
  {
    if b == [] {
      assert a + b == a;
    } else {
      var init := b[..|b| - 1];
      assert (a + b)[..|a + b| - 1] == a + init;
      FeesCostConcat(a, init, groupSize);
    }
  }

  /** With non-negative fees and group size the fees are non-negative. */
  lemma {:induction false} FeesCostNonNegative(acts: seq<Attraction>, groupSize: int)
    requires groupSize >= 0
    requires forall a :: a in acts && a.entryFee.Some? ==> a.entryFee.value >= 0.0
    ensures FeesCost(acts, groupSize) >= 0.0
    decreases |acts|
  {
    if acts != [] {
      var init := acts[..|acts| - 1];
      assert forall a :: a in init ==> a in acts;
      assert acts[|acts| - 1] in acts;
      FeesCostNonNegative(init, groupSize);
    }
  }

  /** The day's cost is non-negative when the fees, the meal costs and the
      group size are. */
  lemma DayCostNonNegative(items: seq<Attraction>, lunch: Option<Restaurant>, dinner: Option<Restaurant>, groupSize: int)
    requires groupSize >= 0
    requires forall a :: a in items && a.entryFee.Some? ==> a.entryFee.value >= 0.0
    requires lunch.Some? ==> lunch.value.estimatedCostPerPerson >= 0.0
    requires dinner.Some? ==> dinner.value.estimatedCostPerPerson >= 0.0
    ensures DayCost(AssignSlots(items), lunch, dinner, groupSize) >= 0.0
  {
    FeesCostNonNegative(Occurrences(AssignSlots(items)), groupSize);
  }

  /** An attraction in two slots is paid for twice: with four or five
      attractions the third and fourth are counted in the afternoon and
      again in the evening. */
  lemma OverlapCountedTwice(items: seq<Attraction>, groupSize: int)
    requires 4 <= |items| <= 5
    ensures FeesCost(Occurrences(AssignSlots(items)), groupSize) ==
              FeesCost(items[..2], groupSize) + 2.0 * FeesCost(items[2..4], groupSize)
  {
    var s := AssignSlots(items);
    SlotsOverlap(items);
    FeesCostConcat(s.morning + s.afternoon, s.evening, groupSize);
    FeesCostConcat(s.morning, s.afternoon, groupSize);
  }

  // ---------------------------------------------------------------------------
  // Day plans
  // ---------------------------------------------------------------------------

  /** The plan `_create_single_day_plan` builds for day `day`. */
  function DayPlanFor(day: int, attractions: seq<Attraction>, dayMeals: map<string, seq<Restaurant>>,
                      request: TravelRequest): DayPlan
  {
    var s := AssignSlots(attractions);
    var lunch := MealPick(dayMeals, "lunch");
    var dinner := MealPick(dayMeals, "dinner");
    DayPlan(day, Some(PlanDate(request.startDate, day - 1)), s.morning, lunch, s.afternoon, dinner, s.evening,
            DayCost(s, lunch, dinner, request.groupSize))
  }

  /** The fee loop of `_create_single_day_plan`: a fee that is present and
      non-zero is paid by each member of the group. */
  method SumFees(activities: seq<Attraction>, groupSize: int) returns (total: real)
    ensures total == FeesCost(activities, groupSize)
  {
    total := 0.0;
    for i := 0 to |activities|
      invariant total == FeesCost(activities[..i], groupSize)
    {
      FeesCostStep(activities, i, groupSize);
      var activity := activities[i];
      if activity.entryFee.Some? && activity.entryFee.value != 0.0 {
        total := total + activity.entryFee.value * groupSize as real;
      }
    }
    assert activities[..|activities|] == activities;
  }

  /** `_create_single_day_plan`: the slots, the first lunch and dinner, and
      the cost accumulated over the slot occurrences and the two meals. The
      restaurant list it is handed is not used. */
  method CreateSingleDayPlan(day: int, attractions: seq<Attraction>, restaurants: seq<Restaurant>,
                             mealSuggestions: map<string, seq<Restaurant>>, request: TravelRequest)
    returns (plan: DayPlan)
    ensures plan == DayPlanFor(day, attractions, mealSuggestions, request)
  {
    var currentDate := PlanDate(request.startDate, day - 1);
    var slots := AssignSlots(attractions);

    var lunchRestaurant: Option<Restaurant> := None;
    var dinnerRestaurant: Option<Restaurant> := None;
    if mealSuggestions != map[] {
      var lunchOptions := if "lunch" in mealSuggestions then mealSuggestions["lunch"] else [];
      var dinnerOptions := if "dinner" in mealSuggestions then mealSuggestions["dinner"] else [];
      if lunchOptions != [] {
        lunchRestaurant := Some(lunchOptions[0]);
      }
      if dinnerOptions != [] {
        dinnerRestaurant := Some(dinnerOptions[0]);
      }
    }
    assert lunchRestaurant == MealPick(mealSuggestions, "lunch");
    assert dinnerRestaurant == MealPick(mealSuggestions, "dinner");

    var totalCost := SumFees(Occurrences(slots), request.groupSize);

    if lunchRestaurant.Some? && lunchRestaurant.value.estimatedCostPerPerson != 0.0 {
      totalCost := totalCost + lunchRestaurant.value.estimatedCostPerPerson * request.groupSize as real;
    }
    if dinnerRestaurant.Some? && dinnerRestaurant.value.estimatedCostPerPerson != 0.0 {
      totalCost := totalCost + dinnerRestaurant.value.estimatedCostPerPerson * request.groupSize as real;
    }

    assert totalCost == DayCost(slots, lunchRestaurant, dinnerRestaurant, request.groupSize);
    plan := DayPlan(day, Some(currentDate), slots.morning, lunchRestaurant, slots.afternoon,
                    dinnerRestaurant, slots.evening, totalCost);
  }

  /** The two plans built from an attraction list and a meal table. */
  function DayPlansFor(attractions: seq<Attraction>, ms: MealSuggestions, request: TravelRequest): seq<DayPlan>
  {
    var halves := DayHalves(attractions);
    [DayPlanFor(1, halves.0, DayMeals(ms, "day_1"), request),
     DayPlanFor(2, halves.1, DayMeals(ms, "day_2"), request)]
  }

  /** The attractions the day plans use: the explorer's, when it succeeded. */
  function PlannedAttractions(agentResults: map<string, AgentRecord>): seq<Attraction>
    requires "explorer" in agentResults
  {
    if agentResults["explorer"].Success() then AttractionsOf(agentResults["explorer"].Data()) else []
  }

  /** Python's message for reading a local variable that was never bound. */
  const UnboundMealSuggestions: string :=
    "cannot access local variable 'meal_suggestions' where it is not associated with a value"

  /** `_create_day_plans` as the source has it: `meal_suggestions` is bound
      only when the food agent succeeded, so building day 1 raises
      otherwise. */
  method CreateDayPlansAsWritten(agentResults: map<string, AgentRecord>, request: TravelRequest)
    returns (r: Outcome<seq<DayPlan>>)
    requires "explorer" in agentResults && "food" in agentResults
    ensures !agentResults["food"].Success() ==> r == Raised(UnboundMealSuggestions)
    ensures agentResults["food"].Success() ==>
              r == Returned(DayPlansFor(PlannedAttractions(agentResults),
                                        MealSuggestionsOf(agentResults["food"].Data()), request))
  {
    var attractions: seq<Attraction> := [];
    if agentResults["explorer"].Success() {
      attractions := AttractionsOf(agentResults["explorer"].Data());
    }
    var mealSuggestions: Option<MealSuggestions> := None;
    var restaurants: seq<Restaurant> := [];
    if agentResults["food"].Success() {
      var data := agentResults["food"].Data();
      restaurants := if data.FoodData? then data.restaurants else [];
      mealSuggestions := Some(MealSuggestionsOf(data));
    }
    var halves := DayHalves(attractions);
    if mealSuggestions.None? {
      return Raised(UnboundMealSuggestions);
    }
    var day1 := CreateSingleDayPlan(1, halves.0, restaurants, DayMeals(mealSuggestions.value, "day_1"), request);
    var day2 := CreateSingleDayPlan(2, halves.1, restaurants, DayMeals(mealSuggestions.value, "day_2"), request);
    r := Returned([day1, day2]);
  }

  /** The meal table the day plans use: the food agent's, when it succeeded,
      otherwise none. */
  function PlannedMeals(agentResults: map<string, AgentRecord>): MealSuggestions
    requires "food" in agentResults
  {
    if agentResults["food"].Success() then MealSuggestionsOf(agentResults["food"].Data()) else map[]
  }

  /** `_create_day_plans` as evidently intended: an unsuccessful food agent
      leaves the days without meals. */
  method CreateDayPlans(agentResults: map<string, AgentRecord>, request: TravelRequest)
    returns (plans: seq<DayPlan>)
    requires "explorer" in agentResults && "food" in agentResults
    ensures plans == DayPlansFor(PlannedAttractions(agentResults), PlannedMeals(agentResults), request)
  {
    var attractions: seq<Attraction> := [];
    if agentResults["explorer"].Success() {
      attractions := AttractionsOf(agentResults["explorer"].Data());
    }
    var restaurants: seq<Restaurant> := [];
    var mealSuggestions: MealSuggestions := map[];
    if agentResults["food"].Success() {
      var data := agentResults["food"].Data();
      restaurants := if data.FoodData? then data.restaurants else [];
      mealSuggestions := MealSuggestionsOf(data);
    }
    var halves := DayHalves(attractions);
    var day1 := CreateSingleDayPlan(1, halves.0, restaurants, DayMeals(mealSuggestions, "day_1"), request);
    var day2 := CreateSingleDayPlan(2, halves.1, restaurants, DayMeals(mealSuggestions, "day_2"), request);
    plans := [day1, day2];
  }

  /** A plan's slot occurrences in visiting order. */
  function Activities(p: DayPlan): seq<Attraction>
  {
    p.morningActivities + p.afternoonActivities + p.eveningActivities
  }

  /** The two plans are days 1 and 2 on the start date and the day after;
      day 1 draws its slots from the first half of the attractions and day 2
      from the second; without meals a day's cost is its fees alone. */
  lemma DayPlansShape(attractions: seq<Attraction>, ms: MealSuggestions, request: TravelRequest)
    ensures var plans := DayPlansFor(attractions, ms, request);
      var halves := DayHalves(attractions);
      && |plans| == 2
      && plans[0].day == 1 && plans[0].date == Some(PlanDate(request.startDate, 0))
      && plans[1].day == 2 && plans[1].date == Some(PlanDate(request.startDate, 1))
      && (forall i, a :: 0 <= i < 2 && a in Activities(plans[i]) ==> a in (if i == 0 then halves.0 else halves.1))
      && (ms == map[] ==> forall i :: 0 <= i < 2 ==>
            plans[i].lunch.None? && plans[i].dinner.None? &&
            plans[i].totalEstimatedCost == FeesCost(Activities(plans[i]), request.groupSize))
  {
  }

  // ---------------------------------------------------------------------------
  // Budget reconciliation
  // ---------------------------------------------------------------------------

  /** The allocation used when the budget agent failed: 40 % accommodation,
      10 % transportation, 30 % food, 20 % activities and nothing else. */
  function DefaultBreakdown(budget: real): (b: BudgetBreakdown)
    ensures b.totalBudget == budget && b.miscellaneous == 0.0 && b.remainingBudget == 0.0
    ensures Allocated(b) == budget
    ensures budget > 0.0 ==> b.accommodation > 0.0 && b.transportation > 0.0 && b.food > 0.0 && b.activities > 0.0
  {
    BudgetBreakdown(budget, budget * 0.4, budget * 0.1, budget * 0.3, budget * 0.2, 0.0, 0.0)
  }

  /** A successful budget entry carries a breakdown, as the budget agent's
      successful responses do. */
  predicate BudgetRecordOk(rec: AgentRecord)
  {
    rec.Success() ==> rec.Data().BudgetData?
  }

  /** The breakdown reconciliation starts from: the budget agent's, or the
      default allocation when it failed. */
  function InitialBreakdown(rec: AgentRecord, budget: real): BudgetBreakdown
    requires BudgetRecordOk(rec)
  {
    if rec.Success() then rec.Data().budgetBreakdown else DefaultBreakdown(budget)
  }

  /** The summed estimated cost of the day plans. */
  function PlannedCost(plans: seq<DayPlan>): real
    decreases |plans|
  {
    if plans == [] then 0.0 else PlannedCost(plans[..|plans| - 1]) + plans[|plans| - 1].totalEstimatedCost
  }

  /** The breakdown after reconciling with the planned cost `spent`:
      activities rise to the planned cost when it exceeds them, the
      miscellaneous bucket shrinks by the excess but not below 0, the other
      buckets and the total stay, and the remaining budget is the total
      less the five buckets, unclamped. */
  function Reconciled(b: BudgetBreakdown, spent: real): (r: BudgetBreakdown)
    ensures r.totalBudget == b.totalBudget && r.accommodation == b.accommodation
    ensures r.transportation == b.transportation && r.food == b.food
    ensures r.activities == MaxReal(b.activities, spent)
    ensures spent > b.activities ==> r.miscellaneous == MaxReal(0.0, b.miscellaneous - (spent - b.activities))
    ensures spent <= b.activities ==> r.miscellaneous == b.miscellaneous
    ensures Allocated(r) + r.remainingBudget == r.totalBudget
  {
    var adjusted :=
      if spent > b.activities then
        b.(activities := spent, miscellaneous := MaxReal(0.0, b.miscellaneous - (spent - b.activities)))
      else b;
    adjusted.(remainingBudget := adjusted.totalBudget - Allocated(adjusted))
  }

  /** Starting from a breakdown whose buckets use the whole budget and leave
      nothing miscellaneous, as the budget agent's and the default do, the
      remaining budget is 0 when the plans fit the activities bucket and
      otherwise the overspend, negative. */
  lemma ReconciledRemaining(b: BudgetBreakdown, spent: real)
    requires Allocated(b) == b.totalBudget && b.miscellaneous == 0.0
    ensures spent <= b.activities ==> Reconciled(b, spent).remainingBudget == 0.0
    ensures spent > b.activities ==> Reconciled(b, spent).remainingBudget == b.activities - spent < 0.0
  {
  }

  /** A non-negative miscellaneous bucket stays non-negative. */
  lemma ReconciledKeepsMiscNonNegative(b: BudgetBreakdown, spent: real)
    requires b.miscellaneous >= 0.0
    ensures Reconciled(b, spent).miscellaneous >= 0.0
  {
  }

  /** `_reconcile_budget`: builds the starting breakdown, raises the
      activities bucket and shrinks the miscellaneous one in place when the
      planned cost exceeds the activities, then sets the remaining budget. */
  method ReconcileBudget(agentResults: map<string, AgentRecord>, dayPlans: seq<DayPlan>, request: TravelRequest)
    returns (b: BudgetBreakdown)
    requires "budget" in agentResults && BudgetRecordOk(agentResults["budget"])
    ensures b == Reconciled(InitialBreakdown(agentResults["budget"], request.budget), PlannedCost(dayPlans))
  {
    var budgetBreakdown: Option<BudgetBreakdown> := None;
    if agentResults["budget"].Success() {
      budgetBreakdown := Some(agentResults["budget"].Data().budgetBreakdown);
    }
    if budgetBreakdown.None? {
      b := BudgetBreakdown(request.budget, request.budget * 0.4, request.budget * 0.1,
                           request.budget * 0.3, request.budget * 0.2, 0.0, 0.0);
    } else {
      b := budgetBreakdown.value;
    }

    var totalActivityCost := 0.0;
    for i := 0 to |dayPlans|
      invariant totalActivityCost == PlannedCost(dayPlans[..i])
    {
      assert dayPlans[..i + 1][..i] == dayPlans[..i];
      totalActivityCost := totalActivityCost + dayPlans[i].totalEstimatedCost;
    }
    assert dayPlans[..|dayPlans|] == dayPlans;

    if totalActivityCost > b.activities {
      var excess := totalActivityCost - b.activities;
      b := b.(activities := totalActivityCost);
      b := b.(miscellaneous := MaxReal(0.0, b.miscellaneous - excess));
    }
    var totalAllocated := b.accommodation + b.transportation + b.food + b.activities + b.miscellaneous;
    b := b.(remainingBudget := b.totalBudget - totalAllocated);
  }

  // ---------------------------------------------------------------------------
  // Assembly
  // ---------------------------------------------------------------------------

  const EmergencyContacts: seq<string> := [
    "Local Emergency: 911 (or local emergency number)",
    "Tourist Information Center",
    "Your accommodation front desk",
    "Local embassy/consulate (if international travel)"
  ]

  /** The recommendations of one agent entry under the key the orchestrator
      reads, or none when the agent failed. */
  function SuccessfulRecommendations(rec: AgentRecord, foodKey: bool): seq<string>
  {
    if !rec.Success() then []
    else if foodKey then FoodRecommendationsOf(rec.Data())
    else RecommendationsOf(rec.Data())
  }

  /** The weather report's recommendations, when there is a report. */
  function WeatherRecommendations(weather: Option<ExternalApis.WeatherReport>): seq<string>
  {
    if weather.Some? then weather.value.recommendations else []
  }

  /** All recommendations in the fixed order explorer, budget, food,
      weather. */
  function AllRecommendations(agentResults: map<string, AgentRecord>,
                              weather: Option<ExternalApis.WeatherReport>): seq<string>
    requires "explorer" in agentResults && "budget" in agentResults && "food" in agentResults
  {
    SuccessfulRecommendations(agentResults["explorer"], false)
    + SuccessfulRecommendations(agentResults["budget"], false)
    + SuccessfulRecommendations(agentResults["food"], true)
    + WeatherRecommendations(weather)
  }

  /** Every recommendation comes from a successful agent or from the
      weather report, and a failed agent contributes nothing. */
  lemma RecommendationsFromSuccesses(agentResults: map<string, AgentRecord>,
                                     weather: Option<ExternalApis.WeatherReport>, line: string)
    requires "explorer" in agentResults && "budget" in agentResults && "food" in agentResults
    requires line in AllRecommendations(agentResults, weather)
    ensures || (agentResults["explorer"].Success() && line in RecommendationsOf(agentResults["explorer"].Data()))
            || (agentResults["budget"].Success() && line in RecommendationsOf(agentResults["budget"].Data()))
            || (agentResults["food"].Success() && line in FoodRecommendationsOf(agentResults["food"].Data()))
            || (weather.Some? && line in weather.value.recommendations)
  {
  }

  /** The planned cost plus accommodation and transportation. */
  function TotalEstimatedCost(dayPlans: seq<DayPlan>, b: BudgetBreakdown): real
  {
    PlannedCost(dayPlans) + b.accommodation + b.transportation
  }

  /** The cost as a percentage of a positive budget; 0 otherwise. */
  function UtilizationPercentage(total: real, budget: real): (p: real)
    ensures budget <= 0.0 ==> p == 0.0
    ensures budget > 0.0 ==> p * budget == total * 100.0
  {
    if budget > 0.0 then total / budget * 100.0 else 0.0
  }

  /** Within a positive budget, a non-negative cost uses between 0 and 100
      percent of it. */
  lemma UtilizationWithinBudget(total: real, budget: real)
    requires budget > 0.0 && 0.0 <= total <= budget
    ensures 0.0 <= UtilizationPercentage(total, budget) <= 100.0
  {
    var p := UtilizationPercentage(total, budget);
    assert p * budget == total * 100.0;
  }

  /** The cost loop of `_assemble_itinerary`: the sum of the day plans' costs. */
  method SumPlannedCost(dayPlans: seq<DayPlan>) returns (total: real)
    ensures total == PlannedCost(dayPlans)
  {
    total := 0.0;
    for i := 0 to |dayPlans|
      invariant total == PlannedCost(dayPlans[..i])
    {
      assert dayPlans[..i + 1][..i] == dayPlans[..i];
      total := total + dayPlans[i].totalEstimatedCost;
    }
    assert dayPlans[..|dayPlans|] == dayPlans;
  }

  /** The recommendation steps of `_assemble_itinerary`: each successful
      agent's list, then the weather's, appended in turn. */
  method CollectRecommendations(agentResults: map<string, AgentRecord>,
                                weather: Option<ExternalApis.WeatherReport>)
    returns (recs: seq<string>)
    requires "explorer" in agentResults && "budget" in agentResults && "food" in agentResults
    ensures recs == AllRecommendations(agentResults, weather)
  {
    recs := [];
    if agentResults["explorer"].Success() {
      recs := recs + RecommendationsOf(agentResults["explorer"].Data());
    }
    assert recs == SuccessfulRecommendations(agentResults["explorer"], false);
    if agentResults["budget"].Success() {
      recs := recs + RecommendationsOf(agentResults["budget"].Data());
    }
    assert recs == SuccessfulRecommendations(agentResults["explorer"], false)
                   + SuccessfulRecommendations(agentResults["budget"], false);
    if agentResults["food"].Success() {
      recs := recs + FoodRecommendationsOf(agentResults["food"].Data());
    }
    if weather.Some? {
      recs := recs + weather.value.recommendations;
    }
  }

  /** `_assemble_itinerary`: the totals, the recommendations extended step
      by step in the order explorer, budget, food, weather, and the fixed
      emergency contacts. */
  method AssembleItinerary(request: TravelRequest, agentResults: map<string, AgentRecord>,
                           dayPlans: seq<DayPlan>, b: BudgetBreakdown,
                           weather: Option<ExternalApis.WeatherReport>)
    returns (it: TravelItinerary)
    requires "explorer" in agentResults && "budget" in agentResults && "food" in agentResults
    ensures it.destination == request.destination && it.totalBudget == request.budget
    ensures it.budgetBreakdown == b && it.dayPlans == dayPlans
    ensures it.totalEstimatedCost == TotalEstimatedCost(dayPlans, b)
    ensures it.budgetUtilizationPercentage == UtilizationPercentage(it.totalEstimatedCost, request.budget)
    ensures it.recommendations == AllRecommendations(agentResults, weather)
    ensures it.emergencyContacts == EmergencyContacts
  {
    var totalEstimatedCost := SumPlannedCost(dayPlans);
    totalEstimatedCost := totalEstimatedCost + b.accommodation + b.transportation;

    var budgetUtilization := if request.budget > 0.0 then totalEstimatedCost / request.budget * 100.0 else 0.0;

    var allRecommendations := CollectRecommendations(agentResults, weather);

    it := TravelItinerary(request.destination, request.budget, b, dayPlans, totalEstimatedCost,
                          budgetUtilization, allRecommendations, EmergencyContacts);
  }

  // ---------------------------------------------------------------------------
  // The pipeline
  // ---------------------------------------------------------------------------

  /** The itinerary `create_itinerary` assembles from the three agents'
      outcomes: the request's destination and budget, two days planned from
      the explorer's attractions and the food agent's meals, the budget
      breakdown reconciled with the planned cost, the total and utilisation
      computed from them, the recommendations in agent order followed by the
      weather's, and the fixed emergency contacts. */
  predicate AssembledFrom(request: TravelRequest, outcomes: seq<Outcome<AgentResponse>>,
                          weather: Option<ExternalApis.WeatherReport>, it: TravelItinerary)
    requires |outcomes| == 3 && BudgetRecordOk(RecordOf(outcomes[1]))
  {
    var agentResults := map["explorer" := RecordOf(outcomes[0]), "budget" := RecordOf(outcomes[1]),
                            "food" := RecordOf(outcomes[2])];
    && it.destination == request.destination
    && it.totalBudget == request.budget
    && it.dayPlans == DayPlansFor(PlannedAttractions(agentResults), PlannedMeals(agentResults), request)
    && it.budgetBreakdown == Reconciled(InitialBreakdown(RecordOf(outcomes[1]), request.budget),
                                        PlannedCost(it.dayPlans))
    && it.totalEstimatedCost == TotalEstimatedCost(it.dayPlans, it.budgetBreakdown)
    && it.budgetUtilizationPercentage == UtilizationPercentage(it.totalEstimatedCost, request.budget)
    && it.recommendations == AllRecommendations(agentResults, weather)
    && it.emergencyContacts == EmergencyContacts
  }

  /** `create_itinerary` as the source has it: collect the agents' outcomes,
      build the day plans (which raises when the food agent did not
      succeed), reconcile the budget, assemble. */
  method CreateItineraryAsWritten(request: TravelRequest, outcomes: seq<Outcome<AgentResponse>>,
                                  weather: Option<ExternalApis.WeatherReport>)
    returns (r: Outcome<TravelItinerary>)
    requires |outcomes| == 3 && BudgetRecordOk(RecordOf(outcomes[1]))
    ensures r.Raised? <==> !RecordOf(outcomes[2]).Success()
    ensures r.Raised? ==> r.error == UnboundMealSuggestions
    ensures r.Returned? ==> AssembledFrom(request, outcomes, weather, r.value)
    ensures r.Returned? ==> |r.value.dayPlans| == 2
    ensures r.Returned? ==>
              Allocated(r.value.budgetBreakdown) + r.value.budgetBreakdown.remainingBudget
              == r.value.budgetBreakdown.totalBudget
  {
    var agentResults := RunAgentsParallel(outcomes);
    var dayPlans := CreateDayPlansAsWritten(agentResults, request);
    if dayPlans.Raised? {
      return Raised(dayPlans.error);
    }
    var finalBudget := ReconcileBudget(agentResults, dayPlans.value, request);
    var itinerary := AssembleItinerary(request, agentResults, dayPlans.value, finalBudget, weather);
    r := Returned(itinerary);
  }

  /** `create_itinerary` with the intended day plans: two days from the
      explorer's attractions, a reconciled breakdown whose buckets and
      remaining budget add up to the total, and the recommendations in
      agent order followed by the weather's. */
  method CreateItinerary(request: TravelRequest, outcomes: seq<Outcome<AgentResponse>>,
                         weather: Option<ExternalApis.WeatherReport>)
    returns (it: TravelItinerary)
    requires |outcomes| == 3 && BudgetRecordOk(RecordOf(outcomes[1]))
    ensures AssembledFrom(request, outcomes, weather, it)
    ensures |it.dayPlans| == 2
    ensures Allocated(it.budgetBreakdown) + it.budgetBreakdown.remainingBudget == it.budgetBreakdown.totalBudget
  {
    var agentResults := RunAgentsParallel(outcomes);
    assert agentResults == map["explorer" := RecordOf(outcomes[0]), "budget" := RecordOf(outcomes[1]),
                               "food" := RecordOf(outcomes[2])];
    var dayPlans := CreateDayPlans(agentResults, request);
    var finalBudget := ReconcileBudget(agentResults, dayPlans, request);
    it := AssembleItinerary(request, agentResults, dayPlans, finalBudget, weather);
  }
}
