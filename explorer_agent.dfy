/** The explorer agent (agents/explorer_agent.py): keeping the generated
    attractions that validate, scoring them against the traveller's
    preferences and tier, the stable top-12 selection, the advice, and the
    shape of the agent's response. The content generator's answer is an
    input. */
module ExplorerAgent {
  import opened Common
  import opened Models

  const AgentName: string := "Explorer Agent"
  const MaxAttractions: nat := 12

  // ---------------------------------------------------------------------------
  // Keeping the attractions that validate
  // ---------------------------------------------------------------------------

  function ValidAttractions(cs: seq<Candidate<Attraction>>): seq<Attraction>
  {
    KeepValid(cs, ValidAttraction)
  }

  /** `_find_attractions`: builds each candidate and appends it when it
      validates, skipping any that fail. */
  method FindAttractions(cs: seq<Candidate<Attraction>>) returns (attractions: seq<Attraction>)
    ensures attractions == ValidAttractions(cs)
    ensures forall a :: a in attractions ==> ValidAttraction(a)
    ensures forall i :: 0 <= i < |cs| && cs[i].complete && ValidAttraction(cs[i].fields) ==>
              cs[i].fields in attractions
  {
    attractions := [];
    var i := 0;
    while i < |cs|
      invariant 0 <= i <= |cs|
      invariant attractions == KeepValid(cs[..i], ValidAttraction)
    {
      assert cs[..i + 1][..i] == cs[..i];
      var built := ValidateAttraction(cs[i]);
      if built.Some? {
        attractions := attractions + [built.value];
      }
      i := i + 1;
    }
    assert cs[..i] == cs;
    forall i | 0 <= i < |cs| && cs[i].complete && ValidAttraction(cs[i].fields)
      ensures cs[i].fields in attractions
    {
      KeepValidKeeps(cs, ValidAttraction, i);
    }
  }

  // ---------------------------------------------------------------------------
  // Scoring
  // ---------------------------------------------------------------------------

  /** Some preference value occurs in the lower-cased category. */
  predicate MatchesPreference(prefs: seq<TravelPreference>, category: string)
  {
    exists i :: 0 <= i < |prefs| && Contains(Lower(category), prefs[i].Value())
  }

  /** Python truthiness of an optional fee: present and not zero. */
  predicate Truthy(fee: Option<real>)
  {
    fee.Some? && fee.value != 0.0
  }

  /** The mean of the two scores. */
  function BaseScore(a: Attraction): real
  {
    (a.popularityScore + a.uniquenessScore) / 2.0
  }

  /** The combined score: the mean of popularity and uniqueness, one more
      when the category matches a preference, one less for a fee above 50 in
      the budget tier, half less for a (non-zero) fee below 20 in the luxury
      tier. */
  function Score(a: Attraction, prefs: seq<TravelPreference>, tier: BudgetCategory): (s: real)
    ensures var base := BaseScore(a) + (if MatchesPreference(prefs, a.category) then 1.0 else 0.0);
      tier == Budget && Truthy(a.entryFee) && a.entryFee.value > 50.0 ==> s == base - 1.0
    ensures var base := BaseScore(a) + (if MatchesPreference(prefs, a.category) then 1.0 else 0.0);
      tier == Luxury && Truthy(a.entryFee) && a.entryFee.value < 20.0 ==> s == base - 0.5
    ensures var base := BaseScore(a) + (if MatchesPreference(prefs, a.category) then 1.0 else 0.0);
      (!(tier == Budget && Truthy(a.entryFee) && a.entryFee.value > 50.0)
       && !(tier == Luxury && Truthy(a.entryFee) && a.entryFee.value < 20.0)) ==> s == base
    ensures ValidAttraction(a) ==> -1.0 <= s <= 11.0
  {
    var s := BaseScore(a);
    var s := if MatchesPreference(prefs, a.category) then s + 1.0 else s;
    if tier == Budget && Truthy(a.entryFee) && a.entryFee.value > 50.0 then s - 1.0
    else if tier == Luxury && Truthy(a.entryFee) && a.entryFee.value < 20.0 then s - 0.5
    else s
  }

  // ---------------------------------------------------------------------------
  // Stable sort by score, highest first
  // ---------------------------------------------------------------------------

  datatype Scored = Scored(attraction: Attraction, score: real)

  /** Scores never increase along the list. */
  predicate SortedDesc(s: seq<Scored>)
  {
    forall i, j :: 0 <= i < j < |s| ==> s[i].score >= s[j].score
  }

  /** The entries of `s` with score `v`, in order. */
  function WithScore(s: seq<Scored>, v: real): seq<Scored>
  {
    Filter(s, (x: Scored) => x.score == v)
  }

  /** Places `x`, which comes after every entry of `s` in the input, before
      the first entry with a strictly lower score. */
  function InsertAfterTies(x: Scored, s: seq<Scored>): (r: seq<Scored>)
    ensures multiset(r) == multiset(s) + multiset{x}
    decreases |s|
  {
    if s == [] then [x]
    else if s[|s| - 1].score >= x.score then s + [x]
    else
      var init := s[..|s| - 1];
      assert s == init + [s[|s| - 1]];
      InsertAfterTies(x, init) + [s[|s| - 1]]
  }

  lemma {:induction false} InsertAfterTiesSorted(x: Scored, s: seq<Scored>)
    requires SortedDesc(s)
    ensures SortedDesc(InsertAfterTies(x, s))
    decreases |s|
  {
    if s != [] && s[|s| - 1].score < x.score {
      var init := s[..|s| - 1];
      var last := s[|s| - 1];
      InsertAfterTiesSorted(x, init);
      var r := InsertAfterTies(x, init);
      forall y | y in r ensures y.score >= last.score {
        assert y in multiset(r);
        if y != x {
          assert y in multiset(init);
          var k :| 0 <= k < |init| && init[k] == y;
          assert s[k] == y;
        }
      }
      assert InsertAfterTies(x, s) == r + [last];
      forall i, j | 0 <= i < j < |r| + 1 ensures (r + [last])[i].score >= (r + [last])[j].score {
        if j == |r| {
          assert (r + [last])[i] == r[i] && r[i] in r;
        }
      }
    }
  }

  lemma {:induction false} InsertAfterTiesStable(x: Scored, s: seq<Scored>, v: real)
    ensures WithScore(InsertAfterTies(x, s), v) == WithScore(s, v) + (if x.score == v then [x] else [])
    decreases |s|
  {
    if s == [] {
      assert [x][..0] == [];
    } else if s[|s| - 1].score >= x.score {
      assert (s + [x])[..|s|] == s;
    } else {
      var init := s[..|s| - 1];
      var last := s[|s| - 1];
      var inserted := InsertAfterTies(x, init);
      assert (inserted + [last])[..|inserted|] == inserted;
      InsertAfterTiesStable(x, init, v);
    }
  }

  /** The stable descending sort `list.sort(key=score, reverse=True)`
      performs, written as insertion of each entry in input order. */
  function SortByScore(s: seq<Scored>): seq<Scored>
    decreases |s|
  {
    if s == [] then [] else InsertAfterTies(s[|s| - 1], SortByScore(s[..|s| - 1]))
  }

  /** The sort yields scores in non-increasing order and a permutation of
      its input. */
  lemma {:induction false} SortByScoreSortedPermutation(s: seq<Scored>)
    ensures SortedDesc(SortByScore(s))
    ensures multiset(SortByScore(s)) == multiset(s)
    decreases |s|
  {
    if s != [] {
      var init := s[..|s| - 1];
      SortByScoreSortedPermutation(init);
      InsertAfterTiesSorted(s[|s| - 1], SortByScore(init));
      assert s == init + [s[|s| - 1]];
    }
  }

  /** The sort is stable: the entries with any one score keep their input
      order. */
  lemma {:induction false} SortByScoreStable(s: seq<Scored>, v: real)
    ensures WithScore(SortByScore(s), v) == WithScore(s, v)
    decreases |s|
  {
    if s != [] {
      var init := s[..|s| - 1];
      var last := s[|s| - 1];
      SortByScoreStable(init, v);
      InsertAfterTiesStable(last, SortByScore(init), v);
    }
  }

  // ---------------------------------------------------------------------------
  // Selection
  // ---------------------------------------------------------------------------

  /** Every attraction paired with its score, in input order. */
  function ScoreAll(attractions: seq<Attraction>, prefs: seq<TravelPreference>, tier: BudgetCategory): (r: seq<Scored>)
    ensures |r| == |attractions|
    ensures forall i :: 0 <= i < |r| ==> r[i] == Scored(attractions[i], Score(attractions[i], prefs, tier))
  {
    seq(|attractions|, i requires 0 <= i < |attractions| => Scored(attractions[i], Score(attractions[i], prefs, tier)))
  }

  function Unscored(s: seq<Scored>): (r: seq<Attraction>)
    ensures |r| == |s| && forall i :: 0 <= i < |s| ==> r[i] == s[i].attraction
  {
    seq(|s|, i requires 0 <= i < |s| => s[i].attraction)
  }

  /** The ranked, scored list before truncation. */
  function Ranked(attractions: seq<Attraction>, prefs: seq<TravelPreference>, tier: BudgetCategory): seq<Scored>
  {
    SortByScore(ScoreAll(attractions, prefs, tier))
  }

  /** The attractions `_optimize_attractions` keeps: the first min(n, 12) of
      the ranked list. */
  function TopAttractions(attractions: seq<Attraction>, prefs: seq<TravelPreference>, tier: BudgetCategory): seq<Attraction>
  {
    var ranked := Ranked(attractions, prefs, tier);
    SortByScoreSortedPermutation(ScoreAll(attractions, prefs, tier));
    Unscored(ranked[..Min(|ranked|, MaxAttractions)])
  }

  /** Every ranked entry carries its own attraction's score. */
  lemma RankedScores(attractions: seq<Attraction>, prefs: seq<TravelPreference>, tier: BudgetCategory, i: nat)
    requires i < |Ranked(attractions, prefs, tier)|
    ensures var x := Ranked(attractions, prefs, tier)[i];
      x.score == Score(x.attraction, prefs, tier) && x.attraction in attractions
  {
    var all := ScoreAll(attractions, prefs, tier);
    var x := Ranked(attractions, prefs, tier)[i];
    SortByScoreSortedPermutation(all);
    assert x in multiset(all);
    var k :| 0 <= k < |all| && all[k] == x;
  }

  lemma UnscoredConcat(a: seq<Scored>, b: seq<Scored>)
    ensures Unscored(a + b) == Unscored(a) + Unscored(b)
  {
  }

  lemma {:induction false} InsertAfterTiesAttractions(x: Scored, s: seq<Scored>)
    ensures multiset(Unscored(InsertAfterTies(x, s))) == multiset(Unscored(s)) + multiset{x.attraction}
    decreases |s|
  {
    if s == [] {
    } else if s[|s| - 1].score >= x.score {
      UnscoredConcat(s, [x]);
    } else {
      var init := s[..|s| - 1];
      var last := s[|s| - 1];
      assert s == init + [last];
      InsertAfterTiesAttractions(x, init);
      UnscoredConcat(InsertAfterTies(x, init), [last]);
      UnscoredConcat(init, [last]);
    }
  }

  /** Sorting only reorders the attractions. */
  lemma {:induction false} SortByScoreAttractions(s: seq<Scored>)
    ensures multiset(Unscored(SortByScore(s))) == multiset(Unscored(s))
    decreases |s|
  {
    if s != [] {
      var init := s[..|s| - 1];
      var last := s[|s| - 1];
      var sorted := SortByScore(init);
      var m := multiset{last.attraction};
      assert multiset(Unscored(SortByScore(s))) == multiset(Unscored(sorted)) + m by {
        assert SortByScore(s) == InsertAfterTies(last, sorted);
        InsertAfterTiesAttractions(last, sorted);
      }
      assert multiset(Unscored(sorted)) == multiset(Unscored(init)) by {
        SortByScoreAttractions(init);
      }
      assert multiset(Unscored(s)) == multiset(Unscored(init)) + m by {
        assert s == init + [last];
        UnscoredConcat(init, [last]);
        assert Unscored([last]) == [last.attraction];
      }
    }
  }

  /** The selection keeps min(n, 12) attractions, each from the input as
      often as it occurs there at most, in non-increasing score order. */
  lemma TopAttractionsProperties(attractions: seq<Attraction>, prefs: seq<TravelPreference>, tier: BudgetCategory)
    ensures var top := TopAttractions(attractions, prefs, tier);
      && |top| == Min(|attractions|, MaxAttractions)
      && multiset(top) <= multiset(attractions)
      && forall i, j :: 0 <= i < j < |top| ==> Score(top[i], prefs, tier) >= Score(top[j], prefs, tier)
  {
    var all := ScoreAll(attractions, prefs, tier);
    var ranked := Ranked(attractions, prefs, tier);
    SortByScoreSortedPermutation(all);
    var k := Min(|ranked|, MaxAttractions);
    var top := TopAttractions(attractions, prefs, tier);
    assert top == Unscored(ranked[..k]);
    assert |ranked| == |attractions| by {
      assert |multiset(ranked)| == |multiset(all)|;
    }
    forall i, j | 0 <= i < j < |top| ensures Score(top[i], prefs, tier) >= Score(top[j], prefs, tier) {
      RankedScores(attractions, prefs, tier, i);
      RankedScores(attractions, prefs, tier, j);
    }
    assert multiset(Unscored(ranked)) == multiset(attractions) by {
      SortByScoreAttractions(all);
      assert Unscored(all) == attractions;
    }
    assert ranked == ranked[..k] + ranked[k..];
    UnscoredConcat(ranked[..k], ranked[k..]);
  }

  /** `_optimize_attractions`: appends each attraction with its score, sorts
      the pairs stably by score, highest first, and keeps the first
      min(n, 12) attractions. */
  method OptimizeAttractions(attractions: seq<Attraction>, request: TravelRequest) returns (top: seq<Attraction>)
    ensures top == TopAttractions(attractions, request.travelPreferences, request.budgetCategory)
  {
    var prefs, tier := request.travelPreferences, request.budgetCategory;
    var scored: seq<Scored> := [];
    var i := 0;
    while i < |attractions|
      invariant 0 <= i <= |attractions|
      invariant scored == ScoreAll(attractions[..i], prefs, tier)
    {
      var a := attractions[i];
      var combined := (a.popularityScore + a.uniquenessScore) / 2.0;
      if MatchesPreference(prefs, a.category) {
        combined := combined + 1.0;
      }
      if tier == Budget && Truthy(a.entryFee) && a.entryFee.value > 50.0 {
        combined := combined - 1.0;
      } else if tier == Luxury && Truthy(a.entryFee) && a.entryFee.value < 20.0 {
        combined := combined - 0.5;
      }
      assert combined == Score(a, prefs, tier);
      scored := scored + [Scored(a, combined)];
      i := i + 1;
    }
    assert attractions[..i] == attractions;
    var ranked := SortByScore(scored);
    var maxAttractions := Min(|ranked|, MaxAttractions);
    top := Unscored(ranked[..maxAttractions]);
  }

  // ---------------------------------------------------------------------------
  // Advice
  // ---------------------------------------------------------------------------

  function VisitLine(category: string): string
  {
    "Visit multiple " + category + "s to get a comprehensive experience"
  }

  function FreeLine(n: nat): string
  {
    "Consider visiting " + NatToString(n) + " free attractions to save money"
  }

  const PackedLine: string := "Your itinerary is packed - consider prioritizing must-see attractions"

  /** More than 16 hours of visits in total. */
  const PackedMinutes: int := 960

  function Categories(attractions: seq<Attraction>): seq<string>
  {
    seq(|attractions|, i requires 0 <= i < |attractions| => attractions[i].category)
  }

  function InCategory(attractions: seq<Attraction>, c: string): seq<Attraction>
  {
    Filter(attractions, (a: Attraction) => a.category == c)
  }

  /** One line per listed category that has more than one attraction, in the
      order of the list. */
  function VisitLines(categories: seq<string>, attractions: seq<Attraction>): seq<string>
    decreases |categories|
  {
    if categories == [] then []
    else
      VisitLines(categories[..|categories| - 1], attractions)
      + (if |InCategory(attractions, categories[|categories| - 1])| > 1
         then [VisitLine(categories[|categories| - 1])] else [])
  }

  function FreeAttractions(attractions: seq<Attraction>): seq<Attraction>
  {
    Filter(attractions, (a: Attraction) => !Truthy(a.entryFee))
  }

  function TotalDuration(attractions: seq<Attraction>): int
    decreases |attractions|
  {
    if attractions == [] then 0
    else TotalDuration(attractions[..|attractions| - 1]) + attractions[|attractions| - 1].estimatedDuration
  }

  /** The advice: the category lines in order of first appearance, then the
      free-attractions line (budget tier only), then the packed line. */
  function ExplorerAdvice(attractions: seq<Attraction>, tier: BudgetCategory): seq<string>
  {
    VisitLines(Distinct(Categories(attractions)), attractions)
    + (if tier == Budget && FreeAttractions(attractions) != [] then [FreeLine(|FreeAttractions(attractions)|)] else [])
    + (if TotalDuration(attractions) > PackedMinutes then [PackedLine] else [])
  }

  /** Different categories give different lines. */
  lemma VisitLineInjective(c1: string, c2: string)
    requires VisitLine(c1) == VisitLine(c2)
    ensures c1 == c2
  {
    var pre := "Visit multiple ";
    var post := "s to get a comprehensive experience";
    assert |c1| == |c2|;
    assert VisitLine(c1)[|pre|..|pre| + |c1|] == c1;
    assert VisitLine(c2)[|pre|..|pre| + |c2|] == c2;
  }

  /** A category line is listed exactly when the category is among the
      listed ones and has more than one attraction. */
  lemma {:induction false} VisitLinesMembership(categories: seq<string>, attractions: seq<Attraction>, c: string)
    ensures VisitLine(c) in VisitLines(categories, attractions) <==>
              c in categories && |InCategory(attractions, c)| > 1
    decreases |categories|
  {
    if categories != [] {
      var init := categories[..|categories| - 1];
      var last := categories[|categories| - 1];
      VisitLinesMembership(init, attractions, c);
      assert categories == init + [last];
      if VisitLine(c) == VisitLine(last) {
        VisitLineInjective(c, last);
      }
    }
  }

  /** Every advice line that is not a category line is the free line or the
      packed line, and those two close the list; the free line is there
      exactly in the budget tier with some free attraction, the packed line
      exactly above 960 minutes. */
  lemma ExplorerAdviceShape(attractions: seq<Attraction>, tier: BudgetCategory)
    ensures var r := ExplorerAdvice(attractions, tier);
      var v := VisitLines(Distinct(Categories(attractions)), attractions);
      var free := tier == Budget && FreeAttractions(attractions) != [];
      var packed := TotalDuration(attractions) > PackedMinutes;
      && r[..|v|] == v
      && |r| == |v| + (if free then 1 else 0) + (if packed then 1 else 0)
      && (free ==> r[|v|] == FreeLine(|FreeAttractions(attractions)|))
      && (packed ==> r[|r| - 1] == PackedLine)
  {
  }

  /** There is a category line for `c` exactly when `c` is the category of
      more than one of the attractions. */
  lemma ExplorerAdviceCategories(attractions: seq<Attraction>, tier: BudgetCategory, c: string)
    ensures VisitLine(c) in VisitLines(Distinct(Categories(attractions)), attractions) <==>
              |InCategory(attractions, c)| > 1
  {
    var cats := Categories(attractions);
    VisitLinesMembership(Distinct(cats), attractions, c);
    if |InCategory(attractions, c)| > 1 {
      var a := InCategory(attractions, c)[0];
      assert a in InCategory(attractions, c);
      var k :| 0 <= k < |attractions| && attractions[k] == a;
      assert cats[k] == c;
    }
  }

  /** Adding one attraction adds its category to the order of first
      appearance when it is new. */
  lemma OrderStep(prefix: seq<Attraction>, a: Attraction)
    ensures Distinct(Categories(prefix + [a])) ==
              if a.category in Distinct(Categories(prefix)) then Distinct(Categories(prefix))
              else Distinct(Categories(prefix)) + [a.category]
  {
    var cats := Categories(prefix + [a]);
    assert cats[..|cats| - 1] == Categories(prefix);
  }

  /** Adding one attraction adds it to its own category's group only. */
  lemma GroupStep(prefix: seq<Attraction>, a: Attraction, c: string)
    ensures InCategory(prefix + [a], c) == InCategory(prefix, c) + (if a.category == c then [a] else [])
  {
    assert (prefix + [a])[..|prefix|] == prefix;
  }

  /** A category with some attraction so far has been seen. */
  lemma SeenCategory(prefix: seq<Attraction>, c: string)
    ensures InCategory(prefix, c) != [] ==> c in Distinct(Categories(prefix))
  {
    if InCategory(prefix, c) != [] {
      var b := InCategory(prefix, c)[0];
      assert b in InCategory(prefix, c);
      var k :| 0 <= k < |prefix| && prefix[k] == b;
      assert Categories(prefix)[k] == c;
    }
  }

  /** `order` lists the categories of `prefix` by first appearance and
      `groups` maps each of them to its attractions, in order. */
  ghost predicate Grouped(prefix: seq<Attraction>, order: seq<string>, groups: map<string, seq<Attraction>>)
  {
    && order == Distinct(Categories(prefix))
    && (forall c :: c in groups <==> c in order)
    && (forall c :: c in groups ==> groups[c] == InCategory(prefix, c))
  }

  /** One step of the grouping loop keeps `Grouped`: a category seen before
      gets the attraction appended to its group. */
  lemma GroupedStepSeen(prefix: seq<Attraction>, a: Attraction, order: seq<string>, groups: map<string, seq<Attraction>>)
    requires Grouped(prefix, order, groups) && a.category in groups
    ensures Grouped(prefix + [a], order, groups[a.category := groups[a.category] + [a]])
  {
    var c := a.category;
    var next := prefix + [a];
    var g := groups[c := groups[c] + [a]];
    assert Distinct(Categories(next)) == order by {
      OrderStep(prefix, a);
    }
    forall x | x in g
      ensures g[x] == InCategory(next, x)
    {
      GroupStep(prefix, a, x);
    }
  }

  /** One step of the grouping loop keeps `Grouped`: a new category is
      appended to the order with a group of its own. */
  lemma GroupedStepNew(prefix: seq<Attraction>, a: Attraction, order: seq<string>, groups: map<string, seq<Attraction>>)
    requires Grouped(prefix, order, groups) && a.category !in groups
    ensures Grouped(prefix + [a], order + [a.category], groups[a.category := [a]])
  {
    var c := a.category;
    var next := prefix + [a];
    var g := groups[c := [a]];
    assert Distinct(Categories(next)) == order + [c] by {
      OrderStep(prefix, a);
    }
    forall x | x in g
      ensures g[x] == InCategory(next, x)
    {
      GroupStep(prefix, a, x);
      SeenCategory(prefix, c);
    }
  }

  /** The category dictionary the grouping loop builds: the categories in
      insertion order and each one's attractions. */
  function Grouping(attractions: seq<Attraction>): (seq<string>, map<string, seq<Attraction>>)
    decreases |attractions|
  {
    if attractions == [] then ([], map[])
    else
      var (order, groups) := Grouping(attractions[..|attractions| - 1]);
      var a := attractions[|attractions| - 1];
      if a.category in groups then (order, groups[a.category := groups[a.category] + [a]])
      else (order + [a.category], groups[a.category := [a]])
  }

  /** The dictionary's keys, in insertion order, are the distinct
      categories, and each maps to exactly its category's attractions. */
  lemma {:induction false} GroupingIsGrouped(attractions: seq<Attraction>)
    ensures Grouped(attractions, Grouping(attractions).0, Grouping(attractions).1)
    decreases |attractions|
  {
    if attractions == [] {
    } else {
      var init := attractions[..|attractions| - 1];
      var a := attractions[|attractions| - 1];
      GroupingIsGrouped(init);
      var (order, groups) := Grouping(init);
      assert init + [a] == attractions;
      if a.category in groups {
        GroupedStepSeen(init, a, order, groups);
      } else {
        GroupedStepNew(init, a, order, groups);
      }
    }
  }

  /** The grouping loop of `_generate_recommendations`: a dictionary from
      category to its attractions, with the categories in insertion order. */
  method GroupByCategory(attractions: seq<Attraction>)
    returns (order: seq<string>, groups: map<string, seq<Attraction>>)
    ensures (order, groups) == Grouping(attractions)
  {
    order, groups := [], map[];
    var i := 0;
    while i < |attractions|
      invariant 0 <= i <= |attractions|
      invariant (order, groups) == Grouping(attractions[..i])
    {
      var a := attractions[i];
      assert attractions[..i + 1][..i] == attractions[..i];
      ghost var seen := a.category in groups;
      ghost var before := groups;
      ghost var next := if seen then (order, groups[a.category := groups[a.category] + [a]])
                        else (order + [a.category], groups[a.category := [a]]);
      assert next == Grouping(attractions[..i + 1]);
      if a.category !in groups {
        groups := groups[a.category := []];
        order := order + [a.category];
      }
      groups := groups[a.category := groups[a.category] + [a]];
      assert seen ==> (order, groups) == next;
      assert !seen ==> (order, groups) == next by {
        if !seen {
          assert groups[a.category] == [a];
          assert groups.Keys == before.Keys + {a.category};
          assert groups == before[a.category := [a]];
        }
      }
      i := i + 1;
    }
    assert attractions[..i] == attractions;
  }

  /** The line loop of `_generate_recommendations`: a "Visit multiple" line
      for each category, in insertion order, whose group has more than one
      attraction. */
  method CategoryLines(attractions: seq<Attraction>, order: seq<string>, groups: map<string, seq<Attraction>>)
    returns (recs: seq<string>)
    requires Grouped(attractions, order, groups)
    ensures recs == VisitLines(order, attractions)
  {
    recs := [];
    var j := 0;
    while j < |order|
      invariant 0 <= j <= |order|
      invariant recs == VisitLines(order[..j], attractions)
    {
      assert order[..j + 1][..j] == order[..j];
      var category := order[j];
      assert groups[category] == InCategory(attractions, category);
      if |groups[category]| > 1 {
        recs := recs + [VisitLine(category)];
      }
      j := j + 1;
    }
    assert order[..j] == order;
  }

  /** `_generate_recommendations`: groups the attractions by category in a
      dictionary (insertion order kept), emits the category lines, then the
      free and packed lines. */
  method GenerateRecommendations(attractions: seq<Attraction>, tier: BudgetCategory) returns (recs: seq<string>)
    ensures recs == ExplorerAdvice(attractions, tier)
  {
    var order, groups := GroupByCategory(attractions);
    GroupingIsGrouped(attractions);
    recs := CategoryLines(attractions, order, groups);
    ghost var visits := recs;

    if tier == Budget {
      var free := FreeAttractions(attractions);
      if free != [] {
        recs := recs + [FreeLine(|free|)];
      }
    }
    assert recs == visits + (if tier == Budget && FreeAttractions(attractions) != []
                             then [FreeLine(|FreeAttractions(attractions)|)] else []);
    var totalDuration := TotalDuration(attractions);
    if totalDuration > PackedMinutes {
      recs := recs + [PackedLine];
    }
  }

  // ---------------------------------------------------------------------------
  // The agent's response
  // ---------------------------------------------------------------------------

  /** `process`: when the generator call raises, an unsuccessful response
      with empty data and the exception's message; otherwise a successful
      response with the selected attractions, their number and the advice
      about them. */
  method Process(request: TravelRequest, generated: Outcome<seq<Candidate<Attraction>>>)
    returns (resp: AgentResponse)
    ensures resp.agentName == AgentName
    ensures generated.Raised? ==>
              !resp.success && resp.data == NoData && resp.errorMessage == Some(generated.error)
    ensures generated.Returned? ==>
              var top := TopAttractions(ValidAttractions(generated.value), request.travelPreferences, request.budgetCategory);
              && resp.success && resp.errorMessage.None?
              && resp.data == ExplorerData(top, |top|, ExplorerAdvice(top, request.budgetCategory))
  {
    if generated.Raised? {
      return AgentResponse(AgentName, false, NoData, Some(generated.error));
    }
    var attractions := FindAttractions(generated.value);
    var optimized := OptimizeAttractions(attractions, request);
    var recommendations := GenerateRecommendations(optimized, request.budgetCategory);
    resp := AgentResponse(AgentName, true, ExplorerData(optimized, |optimized|, recommendations), None);
  }
}
