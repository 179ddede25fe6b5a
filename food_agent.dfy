/** The food agent's deterministic part (agents/food_agent.py): keeping the
    generated restaurants that validate, sorting them into breakfast, lunch
    and dinner buckets, choosing two days of meals from the buckets, the
    dining advice, and the shape of the agent's response. The content
    generator's answer is an input. */
module FoodAgent {
  import opened Common
  import opened Models

  const AgentName: string := "Food Agent"

  // ---------------------------------------------------------------------------
  // Keeping the restaurants that validate
  // ---------------------------------------------------------------------------

  /** The restaurants the generator proposed that validate, in order. */
  function ValidRestaurants(cs: seq<Candidate<Restaurant>>): seq<Restaurant>
  {
    KeepValid(cs, ValidRestaurant)
  }

  /** `_find_restaurants`: builds each candidate and appends it when it
      validates, skipping any that fail. */
  method FindRestaurants(cs: seq<Candidate<Restaurant>>) returns (restaurants: seq<Restaurant>)
    ensures restaurants == ValidRestaurants(cs)
    ensures forall r :: r in restaurants ==> ValidRestaurant(r)
    ensures forall i :: 0 <= i < |cs| && cs[i].complete && ValidRestaurant(cs[i].fields) ==>
              cs[i].fields in restaurants
  {
    restaurants := [];
    var i := 0;
    while i < |cs|
      invariant 0 <= i <= |cs|
      invariant restaurants == KeepValid(cs[..i], ValidRestaurant)
    {
      assert cs[..i + 1][..i] == cs[..i];
      var built := ValidateRestaurant(cs[i]);
      if built.Some? {
        restaurants := restaurants + [built.value];
      }
      i := i + 1;
    }
    assert cs[..i] == cs;
    forall i | 0 <= i < |cs| && cs[i].complete && ValidRestaurant(cs[i].fields)
      ensures cs[i].fields in restaurants
    {
      KeepValidKeeps(cs, ValidRestaurant, i);
    }
  }

  // ---------------------------------------------------------------------------
  // Meal buckets
  // ---------------------------------------------------------------------------

  datatype Meal = Breakfast | Lunch | Dinner

  const BreakfastWords: seq<string> := ["cafe", "coffee", "breakfast", "brunch"]
  const LunchWords: seq<string> := ["lunch", "bistro", "deli"]
  const DinnerWords: seq<string> := ["dinner", "restaurant", "fine"]

  /** `any(word in text for word in words)`. */
  predicate ContainsAny(text: string, words: seq<string>)
  {
    exists i :: 0 <= i < |words| && Contains(text, words[i])
  }

  /** A price range of "$" or "$$". */
  predicate IsCheap(priceRange: string)
  {
    priceRange == "$" || priceRange == "$$"
  }

  /** A price range of "$$$" or "$$$$". */
  predicate IsPremium(priceRange: string)
  {
    priceRange == "$$$" || priceRange == "$$$$"
  }

  /** The bucket of a restaurant: the first rule its lower-cased name
      matches, and otherwise lunch for "$"/"$$" and dinner for the rest. */
  function MealOf(r: Restaurant): Meal
  {
    var name := Lower(r.name);
    if ContainsAny(name, BreakfastWords) then Breakfast
    else if ContainsAny(name, LunchWords) then Lunch
    else if ContainsAny(name, DinnerWords) then Dinner
    else if IsCheap(r.priceRange) then Lunch
    else Dinner
  }

  /** Membership of a restaurant in the bucket of meal `m`. */
  function InMeal(m: Meal): Restaurant -> bool
  {
    (r: Restaurant) => MealOf(r) == m
  }

  /** The restaurants of one bucket, in input order. */
  function Bucket(rs: seq<Restaurant>, m: Meal): seq<Restaurant>
  {
    Filter(rs, InMeal(m))
  }

  /** The categorisation loop of `_create_meal_suggestions`: appends every
      restaurant to the bucket of the first rule it matches. */
  method CategorizeRestaurants(rs: seq<Restaurant>)
    returns (breakfast: seq<Restaurant>, lunch: seq<Restaurant>, dinner: seq<Restaurant>)
    ensures breakfast == Bucket(rs, Breakfast)
    ensures lunch == Bucket(rs, Lunch)
    ensures dinner == Bucket(rs, Dinner)
  {
    breakfast, lunch, dinner := [], [], [];
    var i := 0;
    while i < |rs|
      invariant 0 <= i <= |rs|
      invariant breakfast == Bucket(rs[..i], Breakfast)
      invariant lunch == Bucket(rs[..i], Lunch)
      invariant dinner == Bucket(rs[..i], Dinner)
    {
      assert rs[..i + 1][..i] == rs[..i];
      var r := rs[i];
      var name := Lower(r.name);
      if ContainsAny(name, BreakfastWords) {
        breakfast := breakfast + [r];
      } else if ContainsAny(name, LunchWords) {
        lunch := lunch + [r];
      } else if ContainsAny(name, DinnerWords) {
        dinner := dinner + [r];
      } else if IsCheap(r.priceRange) {
        lunch := lunch + [r];
      } else {
        dinner := dinner + [r];
      }
      i := i + 1;
    }
    assert rs[..i] == rs;
  }

  /** Every restaurant lands in exactly one bucket: the three buckets
      together hold the input, each restaurant as often as it occurs. */
  lemma BucketsPartition(rs: seq<Restaurant>)
    ensures multiset(Bucket(rs, Breakfast)) + multiset(Bucket(rs, Lunch)) + multiset(Bucket(rs, Dinner))
            == multiset(rs)
  {
    FilterPartition3(rs, InMeal(Breakfast), InMeal(Lunch), InMeal(Dinner));
  }

  // ---------------------------------------------------------------------------
  // Two days of meals
  // ---------------------------------------------------------------------------

  /** `restaurants[lo:hi] if len(restaurants) > lo else restaurants[:1]`. */
  function Fallback(rs: seq<Restaurant>, lo: nat, hi: nat): (r: seq<Restaurant>)
    requires lo < hi <= lo + 2
    ensures |r| <= 2
    ensures forall x :: x in r ==> x in rs
    ensures r != [] <==> rs != []
  {
    if |rs| > lo then Slice(rs, lo, hi) else Slice(rs, 0, 1)
  }

  /** A day-1 meal: the first two of its bucket, or the fallback when the
      bucket is empty. */
  function Day1Pick(bucket: seq<Restaurant>, rs: seq<Restaurant>, lo: nat, hi: nat): (r: seq<Restaurant>)
    requires lo < hi <= lo + 2
    ensures |r| <= 2
    ensures bucket != [] ==> r == bucket[..Min(2, |bucket|)]
    ensures bucket == [] ==> r == Fallback(rs, lo, hi)
    ensures (forall x :: x in bucket ==> x in rs) ==>
              (forall x :: x in r ==> x in rs) && (r != [] <==> rs != [])
  {
    if bucket != [] then assert bucket[0] in bucket; Slice(bucket, 0, 2) else Fallback(rs, lo, hi)
  }

  /** A day-2 meal: the third and fourth of its bucket when it has more than
      two, else its first again, else the fallback. */
  function Day2Pick(bucket: seq<Restaurant>, rs: seq<Restaurant>, lo: nat, hi: nat): (r: seq<Restaurant>)
    requires lo < hi <= lo + 2
    ensures |r| <= 2
    ensures |bucket| > 2 ==> r == bucket[2..Min(4, |bucket|)]
    ensures 0 < |bucket| <= 2 ==> r == bucket[..1]
    ensures bucket == [] ==> r == Fallback(rs, lo, hi)
    ensures (forall x :: x in bucket ==> x in rs) ==>
              (forall x :: x in r ==> x in rs) && (r != [] <==> rs != [])
  {
    if |bucket| > 2 then assert bucket[2] in bucket; Slice(bucket, 2, 4)
    else if bucket != [] then assert bucket[0] in bucket; Slice(bucket, 0, 1)
    else Fallback(rs, lo, hi)
  }

  const Days: set<string> := {"day_1", "day_2"}
  const Meals: set<string> := {"breakfast", "lunch", "dinner"}

  /** The meal table `_create_meal_suggestions` returns. */
  function MealTable(rs: seq<Restaurant>): MealSuggestions
  {
    var b, l, d := Bucket(rs, Breakfast), Bucket(rs, Lunch), Bucket(rs, Dinner);
    map[
      "day_1" := map["breakfast" := Day1Pick(b, rs, 0, 1), "lunch" := Day1Pick(l, rs, 1, 3),
                     "dinner" := Day1Pick(d, rs, 2, 4)],
      "day_2" := map["breakfast" := Day2Pick(b, rs, 4, 5), "lunch" := Day2Pick(l, rs, 5, 7),
                     "dinner" := Day2Pick(d, rs, 7, 9)]]
  }

  /** `_create_meal_suggestions`: buckets the restaurants, then fills two
      days of three meals from the buckets. */
  method CreateMealSuggestions(rs: seq<Restaurant>) returns (table: MealSuggestions)
    ensures table == MealTable(rs)
  {
    var b, l, d := CategorizeRestaurants(rs);
    var day1 := map["breakfast" := Day1Pick(b, rs, 0, 1), "lunch" := Day1Pick(l, rs, 1, 3),
                    "dinner" := Day1Pick(d, rs, 2, 4)];
    var day2 := map["breakfast" := Day2Pick(b, rs, 4, 5), "lunch" := Day2Pick(l, rs, 5, 7),
                    "dinner" := Day2Pick(d, rs, 7, 9)];
    table := map["day_1" := day1, "day_2" := day2];
  }

  /** The table has exactly the keys day_1 and day_2, each with exactly
      breakfast, lunch and dinner. */
  lemma MealTableKeys(rs: seq<Restaurant>)
    ensures MealTable(rs).Keys == Days
    ensures forall day :: day in Days ==> MealTable(rs)[day].Keys == Meals
  {
  }

  /** Every meal list has at most two restaurants, all from the input, and
      is non-empty exactly when the input is. */
  lemma MealListsBounded(rs: seq<Restaurant>, day: string, meal: string)
    requires day in Days && meal in Meals
    ensures day in MealTable(rs) && meal in MealTable(rs)[day]
    ensures |MealTable(rs)[day][meal]| <= 2
    ensures forall x :: x in MealTable(rs)[day][meal] ==> x in rs
    ensures MealTable(rs)[day][meal] != [] <==> rs != []
  {
    var b, l, d := Bucket(rs, Breakfast), Bucket(rs, Lunch), Bucket(rs, Dinner);
    var t := MealTable(rs);
    if day == "day_1" {
      if meal == "breakfast" {
        assert t[day][meal] == Day1Pick(b, rs, 0, 1);
      } else if meal == "lunch" {
        assert t[day][meal] == Day1Pick(l, rs, 1, 3);
      } else {
        assert t[day][meal] == Day1Pick(d, rs, 2, 4);
      }
    } else {
      if meal == "breakfast" {
        assert t[day][meal] == Day2Pick(b, rs, 4, 5);
      } else if meal == "lunch" {
        assert t[day][meal] == Day2Pick(l, rs, 5, 7);
      } else {
        assert t[day][meal] == Day2Pick(d, rs, 7, 9);
      }
    }
  }

  /** For a bucket with more than two restaurants, day 1 and day 2 together
      are its first (up to) four, so the two days share no position; with one
      or two, day 2 repeats the first restaurant of day 1. */
  lemma DayTwoFollowsDayOne(rs: seq<Restaurant>, m: Meal, meal: string)
    requires meal == (match m case Breakfast => "breakfast" case Lunch => "lunch" case Dinner => "dinner")
    ensures var bucket := Bucket(rs, m);
      var t := MealTable(rs);
      && (|bucket| > 2 ==> t["day_1"][meal] + t["day_2"][meal] == bucket[..Min(4, |bucket|)])
      && (0 < |bucket| <= 2 ==> t["day_2"][meal] == t["day_1"][meal][..1])
  {
    var bucket := Bucket(rs, m);
    if |bucket| > 2 {
      assert bucket[..2] + bucket[2..Min(4, |bucket|)] == bucket[..Min(4, |bucket|)];
    }
  }

  // ---------------------------------------------------------------------------
  // Dining advice
  // ---------------------------------------------------------------------------

  const BudgetTierLines: seq<string> := [
    "Try local street food and markets for authentic flavors at great prices",
    "Look for lunch specials and early bird dinner deals",
    "Consider sharing dishes to try more variety"]
  const LuxuryTierLines: seq<string> := [
    "Make reservations at top-rated restaurants in advance",
    "Try local specialties at fine dining establishments",
    "Consider wine pairings and tasting menus"]
  const ModerateTierLines: seq<string> := [
    "Mix of casual and upscale dining experiences",
    "Try local specialties at mid-range restaurants",
    "Balance between restaurants and local food markets"]
  const DiversityPrefix: string := "Experience diverse cuisines: "
  const LocalLine: string := "Don't miss the local traditional restaurants for authentic experiences"

  function CheapCount(rs: seq<Restaurant>): nat
  {
    |Filter(rs, (r: Restaurant) => IsCheap(r.priceRange))|
  }

  function PremiumCount(rs: seq<Restaurant>): nat
  {
    |Filter(rs, (r: Restaurant) => IsPremium(r.priceRange))|
  }

  function BudgetCountLine(n: nat): string
  {
    "Focus on " + NatToString(n) + " budget-friendly restaurants to maximize your food budget"
  }

  function LuxuryCountLine(n: nat): string
  {
    "Indulge in " + NatToString(n) + " premium dining experiences"
  }

  function Cuisines(rs: seq<Restaurant>): seq<string>
  {
    seq(|rs|, i requires 0 <= i < |rs| => rs[i].cuisineType)
  }

  /** More than three distinct cuisine types (compared exactly). */
  predicate Diverse(rs: seq<Restaurant>)
  {
    |set r | r in rs :: r.cuisineType| > 3
  }

  /** Some cuisine type, lower-cased, mentions "local" or "traditional". */
  predicate HasLocal(rs: seq<Restaurant>)
  {
    exists i :: 0 <= i < |rs| && (Contains(Lower(rs[i].cuisineType), "local") || Contains(Lower(rs[i].cuisineType), "traditional"))
  }

  /** The three cuisines the diversity line names. */
  function DiversityLine(rs: seq<Restaurant>): string
  {
    var cs := Distinct(Cuisines(rs));
    DiversityPrefix + CommaJoin(cs[..Min(3, |cs|)])
  }

  /** The three fixed lines of a tier. */
  function FixedTierLines(tier: BudgetCategory): seq<string>
  {
    match tier
    case Budget => BudgetTierLines
    case Luxury => LuxuryTierLines
    case Moderate => ModerateTierLines
  }

  /** Whether the tier part opens with a count line: a budget tier with some
      "$"/"$$" restaurant, or a luxury tier with some "$$$"/"$$$$" one. */
  predicate HasCountLine(rs: seq<Restaurant>, tier: BudgetCategory)
  {
    (tier == Budget && CheapCount(rs) > 0) || (tier == Luxury && PremiumCount(rs) > 0)
  }

  /** The tier part of the advice: the tier's three fixed lines, preceded,
      for budget and luxury, by a line counting the restaurants in the
      tier's price ranges when there is any. */
  function TierAdvice(rs: seq<Restaurant>, tier: BudgetCategory): (r: seq<string>)
    ensures |r| == 3 + (if HasCountLine(rs, tier) then 1 else 0)
    ensures r[|r| - 3..] == FixedTierLines(tier)
    ensures tier == Budget && CheapCount(rs) > 0 ==> r[0] == BudgetCountLine(CheapCount(rs))
    ensures tier == Luxury && PremiumCount(rs) > 0 ==> r[0] == LuxuryCountLine(PremiumCount(rs))
  {
    var count :=
      if tier == Budget && CheapCount(rs) > 0 then [BudgetCountLine(CheapCount(rs))]
      else if tier == Luxury && PremiumCount(rs) > 0 then [LuxuryCountLine(PremiumCount(rs))]
      else [];
    assert (count + FixedTierLines(tier))[|count|..] == FixedTierLines(tier);
    count + FixedTierLines(tier)
  }

  /** The whole advice: the tier part, then the diversity line, then the
      local line. */
  function FoodAdvice(rs: seq<Restaurant>, tier: BudgetCategory): seq<string>
  {
    TierAdvice(rs, tier)
    + (if Diverse(rs) then [DiversityLine(rs)] else [])
    + (if HasLocal(rs) then [LocalLine] else [])
  }

  /** How many lines the advice has: three for the tier, one more for a
      non-empty count in the budget and luxury tiers, one for diversity and
      one for local cuisine; the tier lines open the list and the local line,
      when present, closes it. */
  lemma FoodAdviceShape(rs: seq<Restaurant>, tier: BudgetCategory)
    ensures var r := FoodAdvice(rs, tier);
      && |r| == 3 + (if HasCountLine(rs, tier) then 1 else 0) + (if Diverse(rs) then 1 else 0) + (if HasLocal(rs) then 1 else 0)
      && r[..|TierAdvice(rs, tier)|] == TierAdvice(rs, tier)
      && (HasLocal(rs) ==> r[|r| - 1] == LocalLine)
      && (Diverse(rs) ==> StartsWith(r[|TierAdvice(rs, tier)|], DiversityPrefix))
  {
    var r := FoodAdvice(rs, tier);
    var t := TierAdvice(rs, tier);
    assert r[..|t|] == t;
    if Diverse(rs) {
      assert r[|t|] == DiversityLine(rs);
      assert DiversityLine(rs)[..|DiversityPrefix|] == DiversityPrefix;
    }
  }

  /** The diversity test the code performs on its list of distinct cuisines
      agrees with the count of distinct cuisine types. */
  lemma DistinctCuisinesCount(rs: seq<Restaurant>)
    ensures |Distinct(Cuisines(rs))| > 3 <==> Diverse(rs)
  {
    DistinctCard(Cuisines(rs));
    var cs := Cuisines(rs);
    assert (set x | x in cs) == (set r | r in rs :: r.cuisineType) by {
      forall x | x in cs ensures x in (set r | r in rs :: r.cuisineType) {
        var i :| 0 <= i < |cs| && cs[i] == x;
        assert rs[i] in rs;
      }
      forall r | r in rs ensures r.cuisineType in cs {
        var i :| 0 <= i < |rs| && rs[i] == r;
        assert cs[i] == r.cuisineType;
      }
    }
  }

  /** The tier branch of `_generate_food_recommendations`. */
  method TierRecommendations(rs: seq<Restaurant>, tier: BudgetCategory) returns (recs: seq<string>)
    ensures recs == TierAdvice(rs, tier)
  {
    recs := [];
    if tier == Budget {
      var cheap := Filter(rs, (r: Restaurant) => IsCheap(r.priceRange));
      if cheap != [] {
        recs := recs + [BudgetCountLine(|cheap|)];
      }
      recs := recs + BudgetTierLines;
    } else if tier == Luxury {
      var premium := Filter(rs, (r: Restaurant) => IsPremium(r.priceRange));
      if premium != [] {
        recs := recs + [LuxuryCountLine(|premium|)];
      }
      recs := recs + LuxuryTierLines;
    } else {
      recs := recs + ModerateTierLines;
    }
  }

  /** `_generate_food_recommendations`: extends the list with the tier lines
      and appends the diversity and local lines when they apply. */
  method GenerateFoodRecommendations(rs: seq<Restaurant>, tier: BudgetCategory) returns (recs: seq<string>)
    ensures recs == FoodAdvice(rs, tier)
  {
    recs := TierRecommendations(rs, tier);
    var cuisines := Distinct(Cuisines(rs));
    DistinctCuisinesCount(rs);
    if |cuisines| > 3 {
      assert DiversityLine(rs) == DiversityPrefix + CommaJoin(cuisines[..3]);
      recs := recs + [DiversityPrefix + CommaJoin(cuisines[..3])];
    }
    assert recs == TierAdvice(rs, tier) + (if Diverse(rs) then [DiversityLine(rs)] else []);
    var local := Filter(rs, (r: Restaurant) =>
      Contains(Lower(r.cuisineType), "local") || Contains(Lower(r.cuisineType), "traditional"));
    LocalFilter(rs);
    if local != [] {
      recs := recs + [LocalLine];
    }
  }

  /** The list of local restaurants is non-empty exactly when some cuisine
      type mentions "local" or "traditional". */
  lemma LocalFilter(rs: seq<Restaurant>)
    ensures Filter(rs, (r: Restaurant) =>
              Contains(Lower(r.cuisineType), "local") || Contains(Lower(r.cuisineType), "traditional")) != []
            <==> HasLocal(rs)
  {
    var p := (r: Restaurant) =>
      Contains(Lower(r.cuisineType), "local") || Contains(Lower(r.cuisineType), "traditional");
    if HasLocal(rs) {
      var i :| 0 <= i < |rs| && p(rs[i]);
      FilterKeeps(rs, p, i);
    }
    if Filter(rs, p) != [] {
      var x := Filter(rs, p)[0];
      assert x in Filter(rs, p);
      var i :| 0 <= i < |rs| && rs[i] == x;
    }
  }

  // ---------------------------------------------------------------------------
  // The agent's response
  // ---------------------------------------------------------------------------

  /** `process`: when the generator call raises, an unsuccessful response
      with empty data and the exception's message; otherwise a successful
      response with the kept restaurants, the advice, the meal table and the
      restaurant count. */
  method Process(request: TravelRequest, generated: Outcome<seq<Candidate<Restaurant>>>)
    returns (resp: AgentResponse)
    ensures resp.agentName == AgentName
    ensures generated.Raised? ==>
              !resp.success && resp.data == NoData && resp.errorMessage == Some(generated.error)
    ensures generated.Returned? ==>
              var rs := ValidRestaurants(generated.value);
              && resp.success && resp.errorMessage.None?
              && resp.data == FoodData(rs, FoodAdvice(rs, request.budgetCategory), MealTable(rs), |rs|)
  {
    if generated.Raised? {
      return AgentResponse(AgentName, false, NoData, Some(generated.error));
    }
    var restaurants := FindRestaurants(generated.value);
    var advice := GenerateFoodRecommendations(restaurants, request.budgetCategory);
    var meals := CreateMealSuggestions(restaurants);
    resp := AgentResponse(AgentName, true, FoodData(restaurants, advice, meals, |restaurants|), None);
  }
}
