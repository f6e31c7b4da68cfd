/** The typed trip plan the service builds when it synthesises one itself, and the JSON value
    it becomes once sent (the same shape the recalculation pass walks). */
module Plan {
  import opened Wrappers
  import opened Json
  import opened Transport
  import opened Recalculate

  /** The request: endpoints, dates as given, trip length, party size and budget mode (an
      unvalidated string; the service only ever compares it with the three known modes). */
  datatype TripParams = TripParams(from: string, to: string, startDate: string, endDate: string, numDays: nat,
                                   travelers: int, mode: string)

  datatype Activity = Activity(time: string, activity: string, description: string, location: string,
                               estimatedCost: int, duration: string, tips: string)

  datatype Meal = Meal(place: string, cuisine: string, estimatedCost: int)

  datatype Meals = Meals(breakfast: Meal, lunch: Meal, dinner: Meal)

  datatype Accommodation = Accommodation(name: string, kind: string, estimatedCost: int, location: string)

  datatype DayPlan = DayPlan(day: int, date: string, title: string, activities: seq<Activity>, meals: Meals,
                             accommodation: Accommodation, dailyTotal: int)

  datatype TripSummary = TripSummary(from: string, to: string, startDate: string, endDate: string, totalDays: int,
                                     travelers: int, mode: string, estimatedTotalCost: string,
                                     estimatedTravelCost: int, currency: string, currencySymbol: string)

  datatype Route = Route(overview: string, transportation: string, travelOptions: seq<TravelOption>)

  datatype TripPlan = TripPlan(tripSummary: TripSummary, route: Route, returnRoute: Route, days: seq<DayPlan>,
                               packingTips: seq<string>, localTips: seq<string>)

  // ---------------------------------------------------------------------------------------
  // What the typed plan promises
  // ---------------------------------------------------------------------------------------

  /** The summed activity costs. */
  function ActivitiesCost(acts: seq<Activity>): int
  {
    if |acts| == 0 then 0 else ActivitiesCost(acts[..|acts| - 1]) + acts[|acts| - 1].estimatedCost
  }

  /** The summed costs of a day: its activities, its three meals and its accommodation. */
  function DayCost(d: DayPlan): int
  {
    ActivitiesCost(d.activities) + d.meals.breakfast.estimatedCost + d.meals.lunch.estimatedCost +
    d.meals.dinner.estimatedCost + d.accommodation.estimatedCost
  }

  /** The sum of the stored day totals. */
  function DailyTotals(days: seq<DayPlan>): int
  {
    if |days| == 0 then 0 else DailyTotals(days[..|days| - 1]) + days[|days| - 1].dailyTotal
  }

  /** The symbol a template literal prints for the summary (`currencySymbol || "₹"`). */
  function SummarySymbol(s: TripSummary): string
  {
    if s.currencySymbol == "" then DefaultSymbol else s.currencySymbol
  }

  /** Every day's total is the sum of its costs, and the summary's total is the symbol followed
      by the sum of the day totals plus the travel cost. */
  predicate TotalsAgree(p: TripPlan)
  {
    && (forall k :: 0 <= k < |p.days| ==> p.days[k].dailyTotal == DayCost(p.days[k]))
    && p.tripSummary.estimatedTotalCost ==
         SummarySymbol(p.tripSummary) + IntToString(DailyTotals(p.days) + p.tripSummary.estimatedTravelCost)
  }

  // ---------------------------------------------------------------------------------------
  // The JSON form
  // ---------------------------------------------------------------------------------------

  function Strings(items: seq<string>): (r: seq<Json>)
    ensures |r| == |items|
    ensures forall k :: 0 <= k < |items| ==> r[k] == JStr(items[k])
  {
    seq(|items|, k requires 0 <= k < |items| => JStr(items[k]))
  }

  function ActivityToJson(a: Activity): Json
  {
    JObj(map["time" := JStr(a.time), "activity" := JStr(a.activity), "description" := JStr(a.description),
             "location" := JStr(a.location), "estimatedCost" := JNum(a.estimatedCost),
             "duration" := JStr(a.duration), "tips" := JStr(a.tips)])
  }

  function ActivitiesToJson(acts: seq<Activity>): (r: seq<Json>)
    ensures |r| == |acts|
    ensures forall k :: 0 <= k < |acts| ==> r[k] == ActivityToJson(acts[k])
  {
    seq(|acts|, k requires 0 <= k < |acts| => ActivityToJson(acts[k]))
  }

  function MealToJson(m: Meal): Json
  {
    JObj(map["place" := JStr(m.place), "cuisine" := JStr(m.cuisine), "estimatedCost" := JNum(m.estimatedCost)])
  }

  function MealsToJson(m: Meals): Json
  {
    JObj(map["breakfast" := MealToJson(m.breakfast), "lunch" := MealToJson(m.lunch), "dinner" := MealToJson(m.dinner)])
  }

  function AccommodationToJson(a: Accommodation): Json
  {
    JObj(map["name" := JStr(a.name), "type" := JStr(a.kind), "estimatedCost" := JNum(a.estimatedCost),
             "location" := JStr(a.location)])
  }

  function DayToJson(d: DayPlan): Json
  {
    JObj(map["day" := JNum(d.day), "date" := JStr(d.date), "title" := JStr(d.title),
             "activities" := JArr(ActivitiesToJson(d.activities)), "meals" := MealsToJson(d.meals),
             "accommodation" := AccommodationToJson(d.accommodation), "dailyTotal" := JNum(d.dailyTotal)])
  }

  function DaysToJson(days: seq<DayPlan>): (r: seq<Json>)
    ensures |r| == |days|
    ensures forall k :: 0 <= k < |days| ==> r[k] == DayToJson(days[k])
  {
    seq(|days|, k requires 0 <= k < |days| => DayToJson(days[k]))
  }

  function SummaryToJson(s: TripSummary): Json
  {
    JObj(map["from" := JStr(s.from), "to" := JStr(s.to), "startDate" := JStr(s.startDate),
             "endDate" := JStr(s.endDate), "totalDays" := JNum(s.totalDays), "travelers" := JNum(s.travelers),
             "mode" := JStr(s.mode), "estimatedTotalCost" := JStr(s.estimatedTotalCost),
             "estimatedTravelCost" := JNum(s.estimatedTravelCost), "currency" := JStr(s.currency),
             "currencySymbol" := JStr(s.currencySymbol)])
  }

  function OptionToJson(o: TravelOption): Json
  {
    JObj(map["type" := JStr(o.kind), "estimatedCost" := JNum(o.estimatedCost), "duration" := JStr(o.duration),
             "details" := JStr(o.details), "recommended" := JBool(o.recommended)])
  }

  function RouteToJson(r: Route): Json
  {
    JObj(map["overview" := JStr(r.overview), "transportation" := JStr(r.transportation),
             "travelOptions" := JArr(seq(|r.travelOptions|, k requires 0 <= k < |r.travelOptions| => OptionToJson(r.travelOptions[k])))])
  }

  function ToJson(p: TripPlan): Json
  {
    JObj(map["tripSummary" := SummaryToJson(p.tripSummary), "route" := RouteToJson(p.route),
             "returnRoute" := RouteToJson(p.returnRoute), "days" := JArr(DaysToJson(p.days)),
             "packingTips" := JArr(Strings(p.packingTips)), "localTips" := JArr(Strings(p.localTips))])
  }

  // ---------------------------------------------------------------------------------------
  // A plan whose totals agree is one the recalculation pass leaves as it is
  // ---------------------------------------------------------------------------------------

  /** The pass reads back the activity costs of the JSON form. */
  lemma {:induction false} ActivitiesSumOfJson(acts: seq<Activity>)
    ensures ActivitiesSum(ActivitiesToJson(acts)) == Some(ActivitiesCost(acts))
  {
    if |acts| > 0 {
      var init := acts[..|acts| - 1];
      ActivitiesSumOfJson(init);
      assert ActivitiesToJson(acts)[..|acts| - 1] == ActivitiesToJson(init);
      ActivityCostOfJson(acts[|acts| - 1]);
    }
  }

  /** The pass reads back the cost of one activity's JSON form. */
  lemma ActivityCostOfJson(a: Activity)
    ensures ActivityCost(ActivityToJson(a)) == Some(a.estimatedCost)
  {
    assert Get(ActivityToJson(a), "estimatedCost") == Some(JNum(a.estimatedCost));
  }

  /** The pass reads back the meal costs of the JSON form. */
  lemma MealsSumOfJson(m: Meals)
    ensures MealsSum(MealsToJson(m), MealKeys) ==
      m.breakfast.estimatedCost + m.lunch.estimatedCost + m.dinner.estimatedCost
  {
    var j := MealsToJson(m);
    assert MealKeys[..2][..1] == [MealKeys[0]];
    assert MealKeys[..2] == [MealKeys[0], MealKeys[1]];
    assert MealsSum(j, MealKeys) == MealsSum(j, MealKeys[..2]) + MealCost(j, MealKeys[2]);
    assert MealsSum(j, MealKeys[..2]) == MealsSum(j, [MealKeys[0]]) + MealCost(j, MealKeys[1]);
    assert MealsSum(j, [MealKeys[0]]) == MealCost(j, MealKeys[0]);
    assert Get(j, "breakfast") == Some(MealToJson(m.breakfast));
    assert Get(j, "lunch") == Some(MealToJson(m.lunch));
    assert Get(j, "dinner") == Some(MealToJson(m.dinner));
    MealCostOfJson(m.breakfast);
    MealCostOfJson(m.lunch);
    MealCostOfJson(m.dinner);
  }

  lemma MealCostOfJson(m: Meal)
    ensures Truthy(MealToJson(m)) && CostAt(MealToJson(m), "estimatedCost") == m.estimatedCost
  {
    assert Get(MealToJson(m), "estimatedCost") == Some(JNum(m.estimatedCost));
  }

  /** The activities the pass finds in a day's JSON form. */
  lemma DayJsonActivities(d: DayPlan)
    ensures ActivitiesOf(DayToJson(d)) == ActivitiesToJson(d.activities)
  {
    assert Get(DayToJson(d), "activities") == Some(JArr(ActivitiesToJson(d.activities)));
  }

  /** The meals total the pass finds in a day's JSON form. */
  lemma DayJsonMeals(d: DayPlan)
    ensures DayMeals(DayToJson(d)) ==
      d.meals.breakfast.estimatedCost + d.meals.lunch.estimatedCost + d.meals.dinner.estimatedCost
  {
    assert Get(DayToJson(d), "meals") == Some(MealsToJson(d.meals));
    MealsSumOfJson(d.meals);
  }

  /** The accommodation cost the pass finds in a day's JSON form. */
  lemma DayJsonAccommodation(d: DayPlan)
    ensures DayAccommodation(DayToJson(d)) == d.accommodation.estimatedCost
  {
    assert Get(DayToJson(d), "accommodation") == Some(AccommodationToJson(d.accommodation));
    assert Get(AccommodationToJson(d.accommodation), "estimatedCost") == Some(JNum(d.accommodation.estimatedCost));
  }

  /** The pass recomputes the day total of the JSON form as the typed day's cost. */
  lemma DaySumOfJson(d: DayPlan)
    ensures DaySum(DayToJson(d)) == Some(DayCost(d))
  {
    ActivitiesSumOfJson(d.activities);
    DayJsonActivities(d);
    DayJsonMeals(d);
    DayJsonAccommodation(d);
  }

  /** The `dailyTotal` the JSON form of a day stores. */
  lemma DayJsonTotal(d: DayPlan)
    ensures Get(DayToJson(d), "dailyTotal") == Some(JNum(d.dailyTotal))
  {
  }

  /** The JSON form of days whose totals are their costs is consistent, and the stored totals
      add up to the typed days' totals. */
  lemma {:induction false} DaysOfJsonConsistent(days: seq<DayPlan>)
    requires forall k :: 0 <= k < |days| ==> days[k].dailyTotal == DayCost(days[k])
    ensures forall k :: 0 <= k < |days| ==> DayConsistent(DaysToJson(days)[k])
    ensures DaysTotal(DaysToJson(days)) == DailyTotals(days)
  {
    forall k | 0 <= k < |days|
      ensures DayConsistent(DaysToJson(days)[k]) && DayValue(DaysToJson(days)[k]) == days[k].dailyTotal
    {
      DaySumOfJson(days[k]);
      DayJsonTotal(days[k]);
    }
    if |days| > 0 {
      var init := days[..|days| - 1];
      DaysOfJsonConsistent(init);
      assert DaysToJson(days)[..|days| - 1] == DaysToJson(init);
    }
  }

  /** The symbol the pass reads from the JSON summary is the typed summary's symbol. */
  lemma SymbolOfJson(s: TripSummary)
    ensures SymbolOf(SummaryToJson(s)) == SummarySymbol(s)
  {
    assert Get(SummaryToJson(s), "currencySymbol") == Some(JStr(s.currencySymbol));
  }

  /** The days and the summary the pass finds in a plan's JSON form. */
  lemma ToJsonParts(p: TripPlan)
    ensures DaysOf(ToJson(p)) == DaysToJson(p.days)
    ensures SummaryOf(ToJson(p)) == Some(SummaryToJson(p.tripSummary))
  {
    assert Get(ToJson(p), "days") == Some(JArr(DaysToJson(p.days)));
    assert Get(ToJson(p), "tripSummary") == Some(SummaryToJson(p.tripSummary));
  }

  /** A summary whose total is its symbol followed by `daysTotal` plus its travel cost has a
      consistent JSON form. */
  lemma SummaryJsonConsistent(s: TripSummary, daysTotal: int)
    requires s.estimatedTotalCost == SummarySymbol(s) + IntToString(daysTotal + s.estimatedTravelCost)
    ensures SummaryConsistent(SummaryToJson(s), daysTotal)
  {
    var j := SummaryToJson(s);
    SymbolOfJson(s);
    assert j.fields["estimatedTravelCost"] == JNum(s.estimatedTravelCost);
    assert Get(j, "estimatedTotalCost") == Some(JStr(s.estimatedTotalCost));
  }

  /** A plan whose totals agree's JSON form is consistent, so the recalculation pass leaves it as it is. */
  lemma AgreeingPlanIsFixedPoint(p: TripPlan)
    requires TotalsAgree(p)
    ensures Consistent(ToJson(p))
    ensures Recalculated(ToJson(p)) == Some(ToJson(p))
  {
    ToJsonParts(p);
    DaysOfJsonConsistent(p.days);
    SummaryJsonConsistent(p.tripSummary, DailyTotals(p.days));
    ConsistentIffFixedPoint(ToJson(p));
  }
}
