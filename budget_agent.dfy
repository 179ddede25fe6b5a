/** The budget agent (agents/budget_agent.py): the tier-fraction breakdown,
    the activity-cost table, the budget advice, the utilisation percentages
    and the shape of the agent's response. The tier table of config.py:23-27
    is written out here. */
module BudgetAgent {
  import opened Common
  import opened Models

  const AgentName: string := "Budget Agent"

  // ---------------------------------------------------------------------------
  // Breakdown
  // ---------------------------------------------------------------------------

  /** The share of the total each bucket receives. */
  datatype Allocation = Allocation(accommodation: real, food: real, activities: real, transportation: real)

  /** The tier table, keyed by tier value. */
  const TierTable: map<string, Allocation> := map[
    "budget" := Allocation(0.3, 0.4, 0.2, 0.1),
    "moderate" := Allocation(0.4, 0.3, 0.2, 0.1),
    "luxury" := Allocation(0.5, 0.25, 0.15, 0.1)]

  /** The allocation of a tier value, or the moderate one for a value the
      table does not list. Every allocation divides the whole total into
      four positive shares. */
  function AllocationFor(key: string): (a: Allocation)
    ensures key !in TierTable ==> a == TierTable["moderate"]
    ensures a.accommodation + a.food + a.activities + a.transportation == 1.0
    ensures a.accommodation > 0.0 && a.food > 0.0 && a.activities > 0.0 && a.transportation > 0.0
  {
    if key in TierTable then TierTable[key] else TierTable["moderate"]
  }

  /** `_create_budget_breakdown`: each of the four buckets is the total times
      its tier share; miscellaneous is what the four leave over and the
      remaining budget is the whole total. */
  function CreateBudgetBreakdown(request: TravelRequest): (b: BudgetBreakdown)
    ensures b.totalBudget == request.budget && b.remainingBudget == request.budget
    ensures Allocated(b) == request.budget
    ensures b.miscellaneous == 0.0
    ensures request.budget > 0.0 ==>
              b.accommodation > 0.0 && b.food > 0.0 && b.activities > 0.0 && b.transportation > 0.0
    ensures var a := AllocationFor(request.budgetCategory.Value());
              b.accommodation == request.budget * a.accommodation && b.food == request.budget * a.food &&
              b.activities == request.budget * a.activities && b.transportation == request.budget * a.transportation
  {
    var total := request.budget;
    var a := AllocationFor(request.budgetCategory.Value());
    var accommodation := total * a.accommodation;
    var food := total * a.food;
    var activities := total * a.activities;
    var transportation := total * a.transportation;
    BudgetBreakdown(total, accommodation, transportation, food, activities,
                    total - (accommodation + food + activities + transportation), total)
  }

  // ---------------------------------------------------------------------------
  // Activity-cost table
  // ---------------------------------------------------------------------------

  /** The `entry_fee` entry of an attraction dictionary: missing, present but
      None, or a number. */
  datatype FeeField = Absent | Null | Present(value: real)

  /** An attraction as the context hands it over: its `name` entry, if any,
      and its `entry_fee` entry. */
  datatype ActivityInput = ActivityInput(name: Option<string>, entryFee: FeeField)

  const LocalTransportation: string := "Local Transportation"
  const TotalActivities: string := "Total Activities"
  const NoneTimesIntError: string := "unsupported operand type(s) for *: 'NoneType' and 'int'"

  function NameOf(a: ActivityInput): string
  {
    if a.name.Some? then a.name.value else "Unknown"
  }

  /** The per-person fee: a number as given, and 0 for a missing fee or (in
      the corrected reading) a None one. */
  function FeeOf(a: ActivityInput): real
  {
    if a.entryFee.Present? then a.entryFee.value else 0.0
  }

  /** Local transport for the whole party: 20, 40 or 80 per person. */
  function TransportCost(tier: BudgetCategory, groupSize: int): real
  {
    (match tier case Budget => 20.0 case Moderate => 40.0 case Luxury => 80.0) * groupSize as real
  }

  /** Name → fee × group size, a later attraction with the same name
      replacing the earlier entry. */
  function FeeTable(inputs: seq<ActivityInput>, groupSize: int): map<string, real>
    decreases |inputs|
  {
    if inputs == [] then map[]
    else
      FeeTable(inputs[..|inputs| - 1], groupSize)[NameOf(inputs[|inputs| - 1]) := FeeOf(inputs[|inputs| - 1]) * groupSize as real]
  }

  /** The running total: every attraction's fee × group size, duplicates
      included. */
  function FeeSum(inputs: seq<ActivityInput>, groupSize: int): real
    decreases |inputs|
  {
    if inputs == [] then 0.0
    else
      var last := inputs[|inputs| - 1];
      FeeSum(inputs[..|inputs| - 1], groupSize) + FeeOf(last) * groupSize as real
  }

  lemma FeeUnfold(s: seq<ActivityInput>, groupSize: int)
    requires s != []
    ensures FeeTable(s, groupSize) ==
            FeeTable(s[..|s| - 1], groupSize)[NameOf(s[|s| - 1]) := FeeOf(s[|s| - 1]) * groupSize as real]
    ensures FeeSum(s, groupSize) == FeeSum(s[..|s| - 1], groupSize) + FeeOf(s[|s| - 1]) * groupSize as real
  {
  }

  /** One more attraction extends the table and the running total by it. */
  lemma FeeStep(inputs: seq<ActivityInput>, groupSize: int, i: nat)
    requires i < |inputs|
    ensures FeeTable(inputs[..i + 1], groupSize) ==
            FeeTable(inputs[..i], groupSize)[NameOf(inputs[i]) := FeeOf(inputs[i]) * groupSize as real]
    ensures FeeSum(inputs[..i + 1], groupSize) == FeeSum(inputs[..i], groupSize) + FeeOf(inputs[i]) * groupSize as real
  {
    var s := inputs[..i + 1];
    assert s[..|s| - 1] == inputs[..i];
    FeeUnfold(s, groupSize);
  }

  /** The table `_estimate_activity_costs` returns. */
  function ActivityTable(inputs: seq<ActivityInput>, groupSize: int, tier: BudgetCategory): map<string, real>
  {
    var transport := TransportCost(tier, groupSize);
    FeeTable(inputs, groupSize)[LocalTransportation := transport][TotalActivities := FeeSum(inputs, groupSize) + transport]
  }

  /** The fee table has exactly one key per attraction name. */
  lemma {:induction false} FeeTableKeys(inputs: seq<ActivityInput>, groupSize: int, k: string)
    ensures k in FeeTable(inputs, groupSize) <==> exists i :: 0 <= i < |inputs| && NameOf(inputs[i]) == k
    decreases |inputs|
  {
    if inputs != [] {
      var init := inputs[..|inputs| - 1];
      FeeTableKeys(init, groupSize, k);
      if exists i :: 0 <= i < |inputs| && NameOf(inputs[i]) == k {
        var i :| 0 <= i < |inputs| && NameOf(inputs[i]) == k;
        if i < |inputs| - 1 {
          assert init[i] == inputs[i];
        }
      }
      if exists i :: 0 <= i < |init| && NameOf(init[i]) == k {
        var i :| 0 <= i < |init| && NameOf(init[i]) == k;
        assert inputs[i] == init[i];
      }
    }
  }

  /** The entry for a name is the cost of the last attraction with that
      name. */
  lemma {:induction false} FeeTableLastWins(inputs: seq<ActivityInput>, groupSize: int, i: nat)
    requires i < |inputs|
    requires forall j :: i < j < |inputs| ==> NameOf(inputs[j]) != NameOf(inputs[i])
    ensures NameOf(inputs[i]) in FeeTable(inputs, groupSize)
    ensures FeeTable(inputs, groupSize)[NameOf(inputs[i])] == FeeOf(inputs[i]) * groupSize as real
    decreases |inputs|
  {
    if i < |inputs| - 1 {
      var init := inputs[..|inputs| - 1];
      forall j | i < j < |init| ensures NameOf(init[j]) != NameOf(init[i]) {
        assert init[j] == inputs[j];
      }
      FeeTableLastWins(init, groupSize, i);
    }
  }

  /** The running total distributes over concatenation, so a repeated name
      is counted every time it occurs. */
  lemma {:induction false} FeeSumConcat(a: seq<ActivityInput>, b: seq<ActivityInput>, groupSize: int)
    ensures FeeSum(a + b, groupSize) == FeeSum(a, groupSize) + FeeSum(b, groupSize)
    decreases |b|
  {
    if b != [] {
      var b' := b[..|b| - 1];
      assert (a + b)[..|a + b| - 1] == a + b';
      FeeSumConcat(a, b', groupSize);
    } else {
      assert a + b == a;
    }
  }

  /** Some attraction carries an `entry_fee` key whose value is None. */
  predicate HasNullFee(inputs: seq<ActivityInput>)
  {
    exists i :: 0 <= i < |inputs| && inputs[i].entryFee.Null?
  }

  /** `_estimate_activity_costs` as written: a fee entry that is present but
      None is multiplied by the group size and raises a TypeError. */
  method EstimateActivityCostsAsWritten(inputs: seq<ActivityInput>, groupSize: int, tier: BudgetCategory)
    returns (r: Outcome<map<string, real>>)
    ensures r.Raised? <==> HasNullFee(inputs)
    ensures r.Raised? ==> r.error == NoneTimesIntError
    ensures r.Returned? ==> r.value == ActivityTable(inputs, groupSize, tier)
  {
    var costs: map<string, real> := map[];
    var total := 0.0;
    var i := 0;
    while i < |inputs|
      invariant 0 <= i <= |inputs|
      invariant forall j :: 0 <= j < i ==> !inputs[j].entryFee.Null?
      invariant costs == FeeTable(inputs[..i], groupSize)
      invariant total == FeeSum(inputs[..i], groupSize)
    {
      assert inputs[..i + 1][..i] == inputs[..i];
      var name := if inputs[i].name.Some? then inputs[i].name.value else "Unknown";
      if inputs[i].entryFee.Null? {
        return Raised(NoneTimesIntError);
      }
      var fee := if inputs[i].entryFee.Present? then inputs[i].entryFee.value else 0.0;
      var cost := fee * groupSize as real;
      assert name == NameOf(inputs[i]);
      assert cost == FeeOf(inputs[i]) * groupSize as real;
      costs := costs[name := cost];
      total := total + cost;
      FeeStep(inputs, groupSize, i);
      assert costs == FeeTable(inputs[..i + 1], groupSize);
      i := i + 1;
    }
    assert inputs[..i] == inputs;
    costs := costs[LocalTransportation := TransportCost(tier, groupSize)];
    costs := costs[TotalActivities := total + costs[LocalTransportation]];
    r := Returned(costs);
  }

  /** `_estimate_activity_costs` as evidently intended: a None fee counts as
      a free attraction, like a missing one. */
  method EstimateActivityCosts(inputs: seq<ActivityInput>, groupSize: int, tier: BudgetCategory)
    returns (costs: map<string, real>)
    ensures costs == ActivityTable(inputs, groupSize, tier)
    ensures LocalTransportation in costs && costs[LocalTransportation] == TransportCost(tier, groupSize)
    ensures TotalActivities in costs && costs[TotalActivities] == FeeSum(inputs, groupSize) + TransportCost(tier, groupSize)
  {
    costs := map[];
    var total := 0.0;
    var i := 0;
    while i < |inputs|
      invariant 0 <= i <= |inputs|
      invariant costs == FeeTable(inputs[..i], groupSize)
      invariant total == FeeSum(inputs[..i], groupSize)
    {
      assert inputs[..i + 1][..i] == inputs[..i];
      var name := if inputs[i].name.Some? then inputs[i].name.value else "Unknown";
      var fee := if inputs[i].entryFee.Present? then inputs[i].entryFee.value else 0.0;
      var cost := fee * groupSize as real;
      assert name == NameOf(inputs[i]);
      assert cost == FeeOf(inputs[i]) * groupSize as real;
      costs := costs[name := cost];
      total := total + cost;
      FeeStep(inputs, groupSize, i);
      assert costs == FeeTable(inputs[..i + 1], groupSize);
      i := i + 1;
    }
    assert inputs[..i] == inputs;
    costs := costs[LocalTransportation := TransportCost(tier, groupSize)];
    costs := costs[TotalActivities := total + costs[LocalTransportation]];
  }

  /** A free attraction whose fee is None: the code as written raises, the
      corrected table lists it at 0. */
  method NullFeeExample() returns (asWritten: Outcome<map<string, real>>, corrected: map<string, real>)
    ensures asWritten == Raised(NoneTimesIntError)
    ensures "Park" in corrected && corrected["Park"] == 0.0
  {
    var inputs := [ActivityInput(Some("Park"), Null)];
    asWritten := EstimateActivityCostsAsWritten(inputs, 2, Moderate);
    corrected := EstimateActivityCosts(inputs, 2, Moderate);
    assert inputs[..0] == [];
    FeeTableLastWins(inputs, 2, 0);
  }

  // ---------------------------------------------------------------------------
  // Advice
  // ---------------------------------------------------------------------------

  const BudgetTip1: string := "Consider staying in hostels or budget hotels to maximize your accommodation budget"
  const BudgetTip2: string := "Look for free walking tours and free museum days"
  const BudgetTip3: string := "Eat at local markets and street food for authentic and affordable meals"
  const BudgetTip4: string := "Use public transportation or walk between attractions"
  const ModerateTip1: string := "Mix of mid-range hotels and unique accommodations"
  const ModerateTip2: string := "Balance between restaurants and local food experiences"
  const ModerateTip3: string := "Consider combo tickets for multiple attractions"
  const ModerateTip4: string := "Use a mix of public transport and occasional taxis"
  const LuxuryTip1: string := "Stay at premium hotels or unique boutique accommodations"
  const LuxuryTip2: string := "Dine at top-rated restaurants and try local specialties"
  const LuxuryTip3: string := "Book private tours and premium experiences"
  const LuxuryTip4: string := "Use private transportation or premium car services"

  function TierAdvice(tier: BudgetCategory): (r: seq<string>)
    ensures |r| == 4
  {
    match tier
    case Budget => [
      BudgetTip1,
      BudgetTip2,
      BudgetTip3,
      BudgetTip4]
    case Moderate => [
      ModerateTip1,
      ModerateTip2,
      ModerateTip3,
      ModerateTip4]
    case Luxury => [
      LuxuryTip1,
      LuxuryTip2,
      LuxuryTip3,
      LuxuryTip4]
  }

  /** Each tier opens its advice with its own first line, so no two tiers
      give the same advice. */
  lemma TierAdviceDiffers(t1: BudgetCategory, t2: BudgetCategory)
    requires t1 != t2
    ensures TierAdvice(t1)[0] != TierAdvice(t2)[0]
  {
    assert |BudgetTip1| != |ModerateTip1| && |BudgetTip1| != |LuxuryTip1| && |ModerateTip1| != |LuxuryTip1|;
  }

  const ReduceActivitiesLine: string := "Consider reducing activity costs to balance your budget"
  const MoreFoodLine: string := "You might want to allocate more budget for food experiences"

  /** Activities take more than 30% of the total. */
  predicate ActivitiesHeavy(b: BudgetBreakdown)
  {
    b.activities > b.totalBudget * 0.3
  }

  /** Food gets less than 20% of the total. */
  predicate FoodLight(b: BudgetBreakdown)
  {
    b.food < b.totalBudget * 0.2
  }

  /** The budget advice: the four tier lines, then the activities line, then
      the food line, each of the last two present exactly when its test
      holds (the length counts them, and each sits in its place). */
  function BudgetAdvice(b: BudgetBreakdown, tier: BudgetCategory): (r: seq<string>)
    ensures |r| == 4 + (if ActivitiesHeavy(b) then 1 else 0) + (if FoodLight(b) then 1 else 0)
    ensures r[..4] == TierAdvice(tier)
    ensures ActivitiesHeavy(b) ==> r[4] == ReduceActivitiesLine
    ensures FoodLight(b) ==> r[|r| - 1] == MoreFoodLine
  {
    TierAdvice(tier)
    + (if ActivitiesHeavy(b) then [ReduceActivitiesLine] else [])
    + (if FoodLight(b) then [MoreFoodLine] else [])
  }

  /** `_generate_budget_recommendations`: extends with the tier lines, then
      appends the two conditional lines. */
  method GenerateBudgetRecommendations(b: BudgetBreakdown, tier: BudgetCategory) returns (recs: seq<string>)
    ensures recs == BudgetAdvice(b, tier)
  {
    recs := [];
    recs := recs + TierAdvice(tier);
    if b.activities > b.totalBudget * 0.3 {
      recs := recs + [ReduceActivitiesLine];
    }
    if b.food < b.totalBudget * 0.2 {
      recs := recs + [MoreFoodLine];
    }
  }

  /** For a breakdown built from the tier table and a non-negative total,
      neither conditional line fires: the advice is the four tier lines. */
  lemma ConfiguredAdviceIsTierOnly(request: TravelRequest)
    requires request.budget >= 0.0
    ensures BudgetAdvice(CreateBudgetBreakdown(request), request.budgetCategory) == TierAdvice(request.budgetCategory)
  {
    var b := CreateBudgetBreakdown(request);
    ConfiguredShares(request);
    assert !ActivitiesHeavy(b) && !FoodLight(b);
  }

  /** For a negative total both conditional lines fire. */
  lemma NegativeBudgetAdvice(request: TravelRequest)
    requires request.budget < 0.0
    ensures |BudgetAdvice(CreateBudgetBreakdown(request), request.budgetCategory)| == 6
  {
    var b := CreateBudgetBreakdown(request);
    ConfiguredShares(request);
    assert ActivitiesHeavy(b) && FoodLight(b);
  }

  /** With the tier shares, activities get at most 20% and food at least 25%
      of the total, stated for either sign of the total. */
  lemma ConfiguredShares(request: TravelRequest)
    ensures var b := CreateBudgetBreakdown(request);
      && (request.budget >= 0.0 ==> b.activities <= b.totalBudget * 0.2 && b.food >= b.totalBudget * 0.25)
      && (request.budget < 0.0 ==> b.activities >= b.totalBudget * 0.2 && b.food <= b.totalBudget * 0.25)
  {
    var t := request.budget;
    match request.budgetCategory
    case Budget =>
      assert CreateBudgetBreakdown(request).activities == t * 0.2;
      assert CreateBudgetBreakdown(request).food == t * 0.4;
    case Moderate =>
      assert CreateBudgetBreakdown(request).activities == t * 0.2;
      assert CreateBudgetBreakdown(request).food == t * 0.3;
    case Luxury =>
      assert CreateBudgetBreakdown(request).activities == t * 0.15;
      assert CreateBudgetBreakdown(request).food == t * 0.25;
  }

  // ---------------------------------------------------------------------------
  // Utilisation
  // ---------------------------------------------------------------------------

  const FloatDivisionError: string := "float division by zero"

  /** `_calculate_budget_utilization`: each bucket as a percentage of the
      total; a zero total raises. When the buckets sum to the total, the
      percentages sum to 100. */
  function BudgetUtilization(b: BudgetBreakdown): (r: Outcome<Utilization>)
    ensures r.Raised? <==> b.totalBudget == 0.0
    ensures r.Raised? ==> r.error == FloatDivisionError
    ensures r.Returned? && Allocated(b) == b.totalBudget ==>
              r.value.accommodationPercentage + r.value.foodPercentage + r.value.activitiesPercentage
              + r.value.transportationPercentage + r.value.miscellaneousPercentage == 100.0
    ensures r.Returned? && b.totalBudget > 0.0 && b.food >= 0.0 ==> r.value.foodPercentage >= 0.0
  {
    var total := b.totalBudget;
    if total == 0.0 then Raised(FloatDivisionError)
    else
      var u := Utilization(
        (b.accommodation / total) * 100.0, (b.food / total) * 100.0, (b.activities / total) * 100.0,
        (b.transportation / total) * 100.0, (b.miscellaneous / total) * 100.0);
      SharesSum(total, b.accommodation, b.food, b.activities, b.transportation, b.miscellaneous);
      Returned(u)
  }

  /** The tier breakdown's percentages are exactly the tier shares × 100. */
  lemma ConfiguredUtilization(request: TravelRequest)
    requires request.budget != 0.0
    ensures var r := BudgetUtilization(CreateBudgetBreakdown(request));
      var a := AllocationFor(request.budgetCategory.Value());
      r.Returned? && r.value == Utilization(a.accommodation * 100.0, a.food * 100.0, a.activities * 100.0,
                                            a.transportation * 100.0, 0.0)
  {
    var b := CreateBudgetBreakdown(request);
    var a := AllocationFor(request.budgetCategory.Value());
    var t := request.budget;
    ShareBack(t, a.accommodation);
    ShareBack(t, a.food);
    ShareBack(t, a.activities);
    ShareBack(t, a.transportation);
  }

  /** Percentages of one total add up like the amounts they come from. */
  lemma SharesSum(t: real, x1: real, x2: real, x3: real, x4: real, x5: real)
    requires t != 0.0
    ensures (x1 / t) * 100.0 + (x2 / t) * 100.0 + (x3 / t) * 100.0 + (x4 / t) * 100.0 + (x5 / t) * 100.0
            == ((x1 + x2 + x3 + x4 + x5) / t) * 100.0
  {
  }

  /** Dividing a share of a non-zero total by that total gives the share back. */
  lemma ShareBack(t: real, share: real)
    requires t != 0.0
    ensures (t * share) / t == share
  {
  }

  // ---------------------------------------------------------------------------
  // The agent's response
  // ---------------------------------------------------------------------------

  /** `process` as written: the breakdown, the activity table (empty unless
      the context carries attractions), the advice and the percentages. An
      attraction with a null fee makes the table raise a TypeError before the
      percentages are computed; otherwise a zero budget makes the
      percentages raise. `process` turns either exception into an
      unsuccessful response with empty data. */
  method Process(request: TravelRequest, attractions: Option<seq<ActivityInput>>) returns (resp: AgentResponse)
    ensures resp.agentName == AgentName
    ensures attractions.Some? && HasNullFee(attractions.value) ==>
              !resp.success && resp.data == NoData && resp.errorMessage == Some(NoneTimesIntError)
    ensures !(attractions.Some? && HasNullFee(attractions.value)) && request.budget == 0.0 ==>
              !resp.success && resp.data == NoData && resp.errorMessage == Some(FloatDivisionError)
    ensures !(attractions.Some? && HasNullFee(attractions.value)) && request.budget != 0.0 ==>
              var b := CreateBudgetBreakdown(request);
              && resp.success && resp.errorMessage.None?
              && resp.data == BudgetData(
                   b,
                   if attractions.Some? then ActivityTable(attractions.value, request.groupSize, request.budgetCategory)
                   else map[],
                   BudgetAdvice(b, request.budgetCategory),
                   BudgetUtilization(b).value)
  {
    var breakdown := CreateBudgetBreakdown(request);
    var activityCosts: map<string, real> := map[];
    if attractions.Some? {
      var estimated := EstimateActivityCostsAsWritten(attractions.value, request.groupSize, request.budgetCategory);
      if estimated.Raised? {
        return AgentResponse(AgentName, false, NoData, Some(estimated.error));
      }
      activityCosts := estimated.value;
    }
    var recommendations := GenerateBudgetRecommendations(breakdown, request.budgetCategory);
    var utilization := BudgetUtilization(breakdown);
    if utilization.Raised? {
      return AgentResponse(AgentName, false, NoData, Some(utilization.error));
    }
    resp := AgentResponse(AgentName, true,
      BudgetData(breakdown, activityCosts, recommendations, utilization.value), None);
  }

  /** `process` as evidently intended: the corrected table prices a null fee
      at 0, so only a zero budget makes the response unsuccessful. */
  method ProcessIntended(request: TravelRequest, attractions: Option<seq<ActivityInput>>) returns (resp: AgentResponse)
    ensures resp.agentName == AgentName
    ensures request.budget == 0.0 ==>
              !resp.success && resp.data == NoData && resp.errorMessage == Some(FloatDivisionError)
    ensures request.budget != 0.0 ==>
              var b := CreateBudgetBreakdown(request);
              && resp.success && resp.errorMessage.None?
              && resp.data == BudgetData(
                   b,
                   if attractions.Some? then ActivityTable(attractions.value, request.groupSize, request.budgetCategory)
                   else map[],
                   BudgetAdvice(b, request.budgetCategory),
                   BudgetUtilization(b).value)
  {
    var breakdown := CreateBudgetBreakdown(request);
    var activityCosts: map<string, real> := map[];
    if attractions.Some? {
      activityCosts := EstimateActivityCosts(attractions.value, request.groupSize, request.budgetCategory);
    }
    var recommendations := GenerateBudgetRecommendations(breakdown, request.budgetCategory);
    var utilization := BudgetUtilization(breakdown);
    if utilization.Raised? {
      return AgentResponse(AgentName, false, NoData, Some(utilization.error));
    }
    resp := AgentResponse(AgentName, true,
      BudgetData(breakdown, activityCosts, recommendations, utilization.value), None);
  }
}
