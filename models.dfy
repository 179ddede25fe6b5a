/** The service's record types (models.py): two string enumerations and the
    records exchanged between the agents, the orchestrator and the caller,
    with the field bounds and defaults their declarations impose. */
module Models {
  import opened Common

  // ---------------------------------------------------------------------------
  // Enumerations
  // ---------------------------------------------------------------------------

  datatype TravelPreference = Adventure | Culture | Relaxation | Food | Nightlife | Family
  {
    /** The string each member stands for. */
    function Value(): string
    {
      match this
      case Adventure => "adventure"
      case Culture => "culture"
      case Relaxation => "relaxation"
      case Food => "food"
      case Nightlife => "nightlife"
      case Family => "family"
    }
  }

  datatype BudgetCategory = Budget | Moderate | Luxury
  {
    function Value(): string
    {
      match this
      case Budget => "budget"
      case Moderate => "moderate"
      case Luxury => "luxury"
    }
  }

  /** Building an enumeration member from its string, as validation does: the
      string must be one of the members' values. */
  function ParsePreference(s: string): (r: Option<TravelPreference>)
    ensures r.Some? ==> r.value.Value() == s
    ensures forall p: TravelPreference :: p.Value() == s ==> r == Some(p)
  {
    if s == "adventure" then Some(Adventure)
    else if s == "culture" then Some(Culture)
    else if s == "relaxation" then Some(Relaxation)
    else if s == "food" then Some(Food)
    else if s == "nightlife" then Some(Nightlife)
    else if s == "family" then Some(Family)
    else None
  }

  function ParseBudgetCategory(s: string): (r: Option<BudgetCategory>)
    ensures r.Some? ==> r.value.Value() == s
    ensures forall c: BudgetCategory :: c.Value() == s ==> r == Some(c)
  {
    if s == "budget" then Some(Budget)
    else if s == "moderate" then Some(Moderate)
    else if s == "luxury" then Some(Luxury)
    else None
  }

  /** The six preference values are pairwise different, and so are the three
      tier values, so each string names at most one member. */
  lemma EnumValuesDistinct(p: TravelPreference, q: TravelPreference, c: BudgetCategory, d: BudgetCategory)
    ensures p.Value() == q.Value() ==> p == q
    ensures c.Value() == d.Value() ==> c == d
  {
    var _ := ParsePreference(p.Value());
    var _ := ParseBudgetCategory(c.Value());
  }

  // ---------------------------------------------------------------------------
  // Records
  // ---------------------------------------------------------------------------

  datatype Coordinates = Coordinates(lat: real, lng: real)

  datatype Attraction = Attraction(
    name: string,
    description: string,
    location: string,
    openingHours: Option<string>,
    entryFee: Option<real>,
    estimatedDuration: int,
    travelTimeFromPrevious: Option<int>,
    popularityScore: real,
    uniquenessScore: real,
    category: string,
    coordinates: Option<Coordinates>)

  datatype Restaurant = Restaurant(
    name: string,
    cuisineType: string,
    priceRange: string,
    rating: real,
    location: string,
    specialties: seq<string>,
    openingHours: Option<string>,
    estimatedCostPerPerson: real,
    mustTryDishes: seq<string>,
    funTips: seq<string>,
    coordinates: Option<Coordinates>)

  /** The calendar date of a day plan, kept as the trip's start date and the
      number of days after it. */
  datatype PlanDate = PlanDate(startDate: string, daysAfter: int)

  datatype DayPlan = DayPlan(
    day: int,
    date: Option<PlanDate>,
    morningActivities: seq<Attraction>,
    lunch: Option<Restaurant>,
    afternoonActivities: seq<Attraction>,
    dinner: Option<Restaurant>,
    eveningActivities: seq<Attraction>,
    totalEstimatedCost: real)

  datatype BudgetBreakdown = BudgetBreakdown(
    totalBudget: real,
    accommodation: real,
    transportation: real,
    food: real,
    activities: real,
    miscellaneous: real,
    remainingBudget: real)

  datatype TravelRequest = TravelRequest(
    destination: string,
    budget: real,
    budgetCategory: BudgetCategory,
    travelPreferences: seq<TravelPreference>,
    startDate: string,
    groupSize: int,
    specialRequirements: Option<string>)

  /** The final artifact. It has no weather or external-data field: the
      orchestrator passes both, and the record drops them. */
  datatype TravelItinerary = TravelItinerary(
    destination: string,
    totalBudget: real,
    budgetBreakdown: BudgetBreakdown,
    dayPlans: seq<DayPlan>,
    totalEstimatedCost: real,
    budgetUtilizationPercentage: real,
    recommendations: seq<string>,
    emergencyContacts: seq<string>)

  /** The day → meal → restaurants table the food agent produces. */
  type MealSuggestions = map<string, map<string, seq<Restaurant>>>

  /** The budget agent's five percentages. */
  datatype Utilization = Utilization(
    accommodationPercentage: real,
    foodPercentage: real,
    activitiesPercentage: real,
    transportationPercentage: real,
    miscellaneousPercentage: real)

  /** The `data` payload of an agent response: empty on failure, otherwise
      the fields each agent fills in. */
  datatype AgentData =
    | NoData
    | ExplorerData(attractions: seq<Attraction>, totalAttractions: int, recommendations: seq<string>)
    | BudgetData(budgetBreakdown: BudgetBreakdown, activityCosts: map<string, real>,
                 recommendations: seq<string>, budgetUtilization: Utilization)
    | FoodData(restaurants: seq<Restaurant>, foodRecommendations: seq<string>,
               mealSuggestions: MealSuggestions, totalRestaurants: int)

  datatype AgentResponse = AgentResponse(
    agentName: string,
    success: bool,
    data: AgentData,
    errorMessage: Option<string>)

  // ---------------------------------------------------------------------------
  // Field bounds and defaults
  // ---------------------------------------------------------------------------

  /** Both scores lie in [0, 10]. */
  predicate ValidAttraction(a: Attraction)
  {
    0.0 <= a.popularityScore <= 10.0 && 0.0 <= a.uniquenessScore <= 10.0
  }

  /** The rating lies in [0, 5]. */
  predicate ValidRestaurant(r: Restaurant)
  {
    0.0 <= r.rating <= 5.0
  }

  /** The party has between 1 and 10 people. */
  predicate ValidRequest(q: TravelRequest)
  {
    1 <= q.groupSize <= 10
  }

  const DefaultGroupSize: int := 1

  /** A record proposed by the content generator, before validation:
      `complete` says whether every required field is present with its
      declared type; the bounds are checked on `fields`. */
  datatype Candidate<T> = Candidate(fields: T, complete: bool)

  /** The fields of the candidates that are complete and satisfy `valid`, in
      order: the validate-and-keep loop that drops whatever fails to build. */
  function KeepValid<T>(cs: seq<Candidate<T>>, valid: T -> bool): (r: seq<T>)
    ensures |r| <= |cs|
    ensures forall x :: x in r ==> valid(x)
    decreases |cs|
  {
    if cs == [] then []
    else
      var c := cs[|cs| - 1];
      KeepValid(cs[..|cs| - 1], valid) + (if c.complete && valid(c.fields) then [c.fields] else [])
  }

  /** Nothing that validates is dropped. */
  lemma {:induction false} KeepValidKeeps<T>(cs: seq<Candidate<T>>, valid: T -> bool, i: nat)
    requires i < |cs| && cs[i].complete && valid(cs[i].fields)
    ensures cs[i].fields in KeepValid(cs, valid)
    decreases |cs|
  {
    if i < |cs| - 1 {
      KeepValidKeeps(cs[..|cs| - 1], valid, i);
    }
  }

  /** `Attraction(**item)`: accepted exactly when complete and within bounds. */
  function ValidateAttraction(c: Candidate<Attraction>): (r: Option<Attraction>)
    ensures r.Some? <==> c.complete && ValidAttraction(c.fields)
    ensures r.Some? ==> r.value == c.fields && ValidAttraction(r.value)
  {
    if c.complete && ValidAttraction(c.fields) then Some(c.fields) else None
  }

  /** `Restaurant(**item)`: accepted exactly when complete and within bounds. */
  function ValidateRestaurant(c: Candidate<Restaurant>): (r: Option<Restaurant>)
    ensures r.Some? <==> c.complete && ValidRestaurant(c.fields)
    ensures r.Some? ==> r.value == c.fields && ValidRestaurant(r.value)
  {
    if c.complete && ValidRestaurant(c.fields) then Some(c.fields) else None
  }

  /** Constructing a TravelRequest: an omitted group size becomes 1, and a
      group size outside [1, 10] is rejected. */
  function NewTravelRequest(destination: string, budget: real, budgetCategory: BudgetCategory,
                            travelPreferences: seq<TravelPreference>, startDate: string,
                            groupSize: Option<int>, specialRequirements: Option<string>)
    : (r: Outcome<TravelRequest>)
    ensures groupSize.None? ==> r.Returned? && r.value.groupSize == 1
    ensures groupSize.Some? ==> (r.Returned? <==> 1 <= groupSize.value <= 10)
    ensures r.Returned? ==> ValidRequest(r.value)
    ensures r.Returned? ==>
              r.value == TravelRequest(destination, budget, budgetCategory, travelPreferences, startDate,
                                       if groupSize.Some? then groupSize.value else 1, specialRequirements)
  {
    var g := if groupSize.Some? then groupSize.value else DefaultGroupSize;
    if 1 <= g <= 10 then
      Returned(TravelRequest(destination, budget, budgetCategory, travelPreferences, startDate, g, specialRequirements))
    else
      Raised("ValidationError: group_size")
  }

  /** A DayPlan built from its day number alone: no date, no activities, no
      meals and a cost of 0. */
  function NewDayPlan(day: int): (p: DayPlan)
    ensures p.day == day && p.date.None? && p.lunch.None? && p.dinner.None?
    ensures p.morningActivities == p.afternoonActivities == p.eveningActivities == []
    ensures p.totalEstimatedCost == 0.0
  {
    DayPlan(day, None, [], None, [], None, [], 0.0)
  }

  /** A BudgetBreakdown built from the total alone: every bucket and the
      remaining budget are 0. */
  function NewBudgetBreakdown(totalBudget: real): (b: BudgetBreakdown)
    ensures b.totalBudget == totalBudget
    ensures b.accommodation == b.transportation == b.food == b.activities == 0.0
    ensures b.miscellaneous == b.remainingBudget == 0.0
  {
    BudgetBreakdown(totalBudget, 0.0, 0.0, 0.0, 0.0, 0.0, 0.0)
  }

  /** The sum of the five spending buckets. */
  function Allocated(b: BudgetBreakdown): real
  {
    b.accommodation + b.transportation + b.food + b.activities + b.miscellaneous
  }
}
