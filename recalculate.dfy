/** `recalculateTripCosts` of the trip service: the pass over the parsed (untyped) plan that
    rebuilds every `dailyTotal` from the leaf costs and rewrites the summary's
    `estimatedTotalCost` and `estimatedTravelCost`.

    The pass throws (and the service then falls back to the synthesised plan) where JavaScript
    throws: reading a property of `null` (a null day, a null activity), and, in strict-mode
    code, assigning a property on a primitive (a day, or a truthy `tripSummary`, that is a
    number, string or boolean). An array accepts the assignment, but a named property on an
    array is not part of its JSON value, so an array day or summary is left as it is. */
module Recalculate {
  import opened Wrappers
  import opened Json

  /** The meal slots summed, in the order the pass visits them. */
  const MealKeys: seq<string> := ["breakfast", "lunch", "dinner"]

  /** The currency symbol used when the summary has none (the Indian rupee sign). */
  const DefaultSymbol: string := "\U{20B9}"

  // ---------------------------------------------------------------------------------------
  // Specification of the pass
  // ---------------------------------------------------------------------------------------

  /** One activity's coerced `estimatedCost`; reading a property of `null` throws. */
  function ActivityCost(act: Json): Option<int>
  {
    if act.JNull? then None else Some(CostAt(act, "estimatedCost"))
  }

  /** The summed activity costs of a day, or None when an activity throws. */
  function ActivitiesSum(acts: seq<Json>): Option<int>
  {
    if |acts| == 0 then Some(0)
    else
      match (ActivitiesSum(acts[..|acts| - 1]), ActivityCost(acts[|acts| - 1]))
      case (Some(a), Some(c)) => Some(a + c)
      case _ => None
  }

  /** The activities of a day throw exactly when one of them is null. */
  lemma {:induction false} ActivitiesSumFails(acts: seq<Json>)
    ensures ActivitiesSum(acts).None? <==> exists k :: 0 <= k < |acts| && acts[k].JNull?
  {
    if |acts| > 0 {
      var init := acts[..|acts| - 1];
      ActivitiesSumFails(init);
      assert forall k :: 0 <= k < |init| ==> init[k] == acts[k];
    }
  }

  /** One meal slot: counted only when `meals[key]` is truthy. */
  function MealCost(meals: Json, key: string): int
  {
    match Get(meals, key)
    case Some(m) => if Truthy(m) then CostAt(m, "estimatedCost") else 0
    case None => 0
  }

  /** The summed costs of the meal slots `keys`. */
  function MealsSum(meals: Json, keys: seq<string>): int
  {
    if |keys| == 0 then 0 else MealsSum(meals, keys[..|keys| - 1]) + MealCost(meals, keys[|keys| - 1])
  }

  /** The activities of a day when `day.activities` is an array, otherwise none. */
  function ActivitiesOf(day: Json): seq<Json>
  {
    match Get(day, "activities")
    case Some(JArr(a)) => a
    case _ => []
  }

  /** The meals total of a day, 0 when `day.meals` is falsy. */
  function DayMeals(day: Json): int
  {
    match Get(day, "meals")
    case Some(m) => if Truthy(m) then MealsSum(m, MealKeys) else 0
    case None => 0
  }

  /** The accommodation cost of a day, 0 when `day.accommodation` is falsy. */
  function DayAccommodation(day: Json): int
  {
    match Get(day, "accommodation")
    case Some(a) => if Truthy(a) then CostAt(a, "estimatedCost") else 0
    case None => 0
  }

  /** The recomputed total of one day, or None when reading the day throws. */
  function DaySum(day: Json): Option<int>
  {
    if day.JNull? then None
    else match ActivitiesSum(ActivitiesOf(day))
      case None => None
      case Some(a) => Some(a + DayMeals(day) + DayAccommodation(day))
  }

  /** The recomputed day and its total, or None when the day throws. */
  function RecalcDay(day: Json): (r: Option<(Json, int)>)
    ensures r.None? <==> DaySum(day).None? || !Writable(day)
    ensures r.Some? ==> r.value.1 == DaySum(day).value
    ensures r.Some? && day.JObj? ==> Get(r.value.0, "dailyTotal") == Some(JNum(r.value.1))
    ensures r.Some? && day.JArr? ==> r.value.0 == day
  {
    match DaySum(day)
    case None => None
    case Some(s) => if Writable(day) then Some((SetField(day, "dailyTotal", JNum(s)), s)) else None
  }

  /** The recomputed value of a day that does not throw (0 for one that does). */
  function DayValue(day: Json): int
  {
    match DaySum(day)
    case Some(s) => s
    case None => 0
  }

  /** The sum of the recomputed totals of `days`. */
  function DaysTotal(days: seq<Json>): int
  {
    if |days| == 0 then 0 else DaysTotal(days[..|days| - 1]) + DayValue(days[|days| - 1])
  }

  /** All days recomputed, with their grand total, or None when some day throws. */
  function RecalcDays(days: seq<Json>): (r: Option<(seq<Json>, int)>)
    ensures r.Some? ==> |r.value.0| == |days|
  {
    if |days| == 0 then Some(([], 0))
    else
      match (RecalcDays(days[..|days| - 1]), RecalcDay(days[|days| - 1]))
      case (Some((ds, t)), Some((d, s))) => Some((ds + [d], t + s))
      case _ => None
  }

  /** The walk over the days throws exactly when some day throws. */
  lemma {:induction false} RecalcDaysFails(days: seq<Json>)
    ensures RecalcDays(days).None? <==> exists k :: 0 <= k < |days| && RecalcDay(days[k]).None?
  {
    if |days| > 0 {
      var init := days[..|days| - 1];
      RecalcDaysFails(init);
      assert forall k :: 0 <= k < |init| ==> init[k] == days[k];
    }
  }

  /** When the walk succeeds every day is replaced by its recomputed form and the grand total
      is the sum of the day totals. */
  lemma {:induction false} RecalcDaysResult(days: seq<Json>)
    requires RecalcDays(days).Some?
    ensures |RecalcDays(days).value.0| == |days|
    ensures RecalcDays(days).value.1 == DaysTotal(days)
    ensures forall k :: 0 <= k < |days| ==> RecalcDay(days[k]).Some? && RecalcDays(days).value.0[k] == RecalcDay(days[k]).value.0
  {
    if |days| > 0 {
      var init := days[..|days| - 1];
      RecalcDaysResult(init);
      assert forall k :: 0 <= k < |init| ==> init[k] == days[k];
    }
  }

  /** Both halves: None exactly when a day throws, the recomputed days otherwise. */
  lemma RecalcDaysMeaning(days: seq<Json>)
    ensures RecalcDays(days).None? <==> exists k :: 0 <= k < |days| && RecalcDay(days[k]).None?
    ensures RecalcDays(days).Some? ==>
      && |RecalcDays(days).value.0| == |days|
      && RecalcDays(days).value.1 == DaysTotal(days)
      && forall k :: 0 <= k < |days| ==> RecalcDays(days).value.0[k] == RecalcDay(days[k]).value.0
  {
    RecalcDaysFails(days);
    if RecalcDays(days).Some? {
      RecalcDaysResult(days);
    }
  }

  /** The symbol `tripSummary.currencySymbol || "₹"`, as a template literal prints it. */
  function SymbolOf(summary: Json): string
  {
    match Get(summary, "currencySymbol")
    case Some(v) => if Truthy(v) then Display(v) else DefaultSymbol
    case None => DefaultSymbol
  }

  /** The rewritten summary, or None when the summary is a primitive (assignment throws). */
  function RecalcSummary(summary: Json, daysTotal: int): (r: Option<Json>)
    ensures r.Some? <==> Writable(summary)
    ensures r.Some? ==> Writable(r.value)
    ensures summary.JArr? ==> r == Some(summary)
    ensures summary.JObj? ==>
      && Get(r.value, "estimatedTravelCost") == Some(JNum(CostAt(summary, "estimatedTravelCost")))
      && Get(r.value, "estimatedTotalCost") ==
           Some(JStr(SymbolOf(summary) + IntToString(daysTotal + CostAt(summary, "estimatedTravelCost"))))
      && SameExcept(summary, r.value, {"estimatedTotalCost", "estimatedTravelCost"})
  {
    if !Writable(summary) then None
    else
      var travel := CostAt(summary, "estimatedTravelCost");
      var withTotal := SetField(summary, "estimatedTotalCost", JStr(SymbolOf(summary) + IntToString(daysTotal + travel)));
      Some(SetField(withTotal, "estimatedTravelCost", JNum(travel)))
  }

  /** The days of a plan when `plan.days` is an array. */
  function DaysOf(plan: Json): seq<Json>
  {
    match Get(plan, "days")
    case Some(JArr(a)) => a
    case _ => []
  }

  /** `plan.tripSummary` when it is truthy. */
  function SummaryOf(plan: Json): Option<Json>
  {
    match Get(plan, "tripSummary")
    case Some(s) => if Truthy(s) then Some(s) else None
    case None => None
  }

  /** The whole pass: the recomputed plan, or None when the pass throws. */
  function Recalculated(plan: Json): (r: Option<Json>)
    ensures r.None? <==>
      || plan.JNull?
      || RecalcDays(DaysOf(plan)).None?
      || (SummaryOf(plan).Some? && !Writable(SummaryOf(plan).value))
    ensures !plan.JNull? && !plan.JObj? ==> r == Some(plan)
  {
    if plan.JNull? then None
    else if !plan.JObj? then Some(plan)
    else
      var m := plan.fields;
      var hasDays := "days" in m && m["days"].JArr?;
      match RecalcDays(DaysOf(plan))
      case None => None
      case Some((newDays, total)) =>
        var m1 := if hasDays then m["days" := JArr(newDays)] else m;
        match SummaryOf(plan)
        case None => Some(JObj(m1))
        case Some(s) =>
          match RecalcSummary(s, total)
          case None => None
          case Some(s1) => Some(JObj(m1["tripSummary" := s1]))
  }

  // ---------------------------------------------------------------------------------------
  // What the pass establishes
  // ---------------------------------------------------------------------------------------

  /** A day whose stored `dailyTotal` is the sum of its leaf costs (an array day has none). */
  predicate DayConsistent(day: Json)
  {
    day.JArr? || (day.JObj? && DaySum(day).Some? && Get(day, "dailyTotal") == Some(JNum(DaySum(day).value)))
  }

  /** A summary whose `estimatedTravelCost` is a number and whose `estimatedTotalCost` is the
      currency symbol followed by `daysTotal` plus that number. */
  predicate SummaryConsistent(summary: Json, daysTotal: int)
  {
    summary.JArr? ||
    (summary.JObj? && "estimatedTravelCost" in summary.fields && summary.fields["estimatedTravelCost"].JNum? &&
     Get(summary, "estimatedTotalCost") ==
       Some(JStr(SymbolOf(summary) + IntToString(daysTotal + summary.fields["estimatedTravelCost"].n))))
  }

  /** A plan whose every aggregate agrees with its leaf costs. */
  predicate Consistent(plan: Json)
  {
    && !plan.JNull?
    && (plan.JObj? ==>
         && (forall k :: 0 <= k < |DaysOf(plan)| ==> DayConsistent(DaysOf(plan)[k]))
         && (SummaryOf(plan).Some? ==> SummaryConsistent(SummaryOf(plan).value, DaysTotal(DaysOf(plan)))))
  }

  /** `b` is `a` with at most the properties `keys` added or replaced. */
  predicate SameExcept(a: Json, b: Json, keys: set<string>)
  {
    a == b ||
    (a.JObj? && b.JObj? && a.fields.Keys <= b.fields.Keys <= a.fields.Keys + keys &&
     forall k :: k in a.fields && k !in keys ==> b.fields[k] == a.fields[k])
  }

  /** The day total never reads `dailyTotal`: overwriting it changes neither the sum nor the
      recomputed day. */
  lemma DayIgnoresDailyTotal(day: Json, x: Json)
    requires Writable(day)
    ensures DaySum(SetField(day, "dailyTotal", x)) == DaySum(day)
    ensures RecalcDay(SetField(day, "dailyTotal", x)) == RecalcDay(day)
  {
    var d := SetField(day, "dailyTotal", x);
    assert Get(d, "activities") == Get(day, "activities");
    assert Get(d, "meals") == Get(day, "meals");
    assert Get(d, "accommodation") == Get(day, "accommodation");
    if day.JObj? && DaySum(day).Some? {
      assert d.fields["dailyTotal" := JNum(DaySum(day).value)] == day.fields["dailyTotal" := JNum(DaySum(day).value)];
    }
  }

  /** The summary update never reads `estimatedTotalCost`. */
  lemma SummaryIgnoresTotal(summary: Json, y: Json, daysTotal: int)
    requires Writable(summary)
    ensures RecalcSummary(SetField(summary, "estimatedTotalCost", y), daysTotal) == RecalcSummary(summary, daysTotal)
  {
    var s := SetField(summary, "estimatedTotalCost", y);
    assert Get(s, "currencySymbol") == Get(summary, "currencySymbol");
    assert Get(s, "estimatedTravelCost") == Get(summary, "estimatedTravelCost");
    if summary.JObj? {
      var travel := CostAt(summary, "estimatedTravelCost");
      var t := JStr(SymbolOf(summary) + IntToString(daysTotal + travel));
      assert s.fields["estimatedTotalCost" := t] == summary.fields["estimatedTotalCost" := t];
    }
  }

  /** A day is left as it is by the pass exactly when it is consistent. */
  lemma DayFixedPoint(day: Json)
    ensures RecalcDay(day) == Some((day, DayValue(day))) <==> DayConsistent(day)
  {
    if day.JObj? && DaySum(day).Some? {
      var f := day.fields;
      var t := JNum(DaySum(day).value);
      if "dailyTotal" in f && f["dailyTotal"] == t {
        assert f["dailyTotal" := t] == f;
      }
      if f["dailyTotal" := t] == f {
        assert "dailyTotal" in f && f["dailyTotal"] == t;
      }
    }
  }

  /** A recomputed day is consistent and keeps its total. */
  lemma RecalcDayConsistent(day: Json)
    requires RecalcDay(day).Some?
    ensures DayConsistent(RecalcDay(day).value.0)
    ensures DayValue(RecalcDay(day).value.0) == RecalcDay(day).value.1 == DayValue(day)
    ensures SameExcept(day, RecalcDay(day).value.0, {"dailyTotal"})
  {
    DayIgnoresDailyTotal(day, JNum(RecalcDay(day).value.1));
  }

  /** The walk over consistent days leaves them as they are. */
  lemma RecalcDaysOfConsistent(days: seq<Json>)
    requires forall k :: 0 <= k < |days| ==> DayConsistent(days[k])
    ensures RecalcDays(days) == Some((days, DaysTotal(days)))
  {
    forall k | 0 <= k < |days|
      ensures RecalcDay(days[k]) == Some((days[k], DayValue(days[k])))
    {
      DayFixedPoint(days[k]);
    }
    RecalcDaysMeaning(days);
    assert RecalcDays(days).value.0 == days;
  }

  /** Walking the days a second time changes nothing and yields the same grand total. */
  lemma RecalcDaysTwice(days: seq<Json>)
    requires RecalcDays(days).Some?
    ensures forall k :: 0 <= k < |RecalcDays(days).value.0| ==> DayConsistent(RecalcDays(days).value.0[k])
    ensures DaysTotal(RecalcDays(days).value.0) == DaysTotal(days)
    ensures RecalcDays(RecalcDays(days).value.0) == RecalcDays(days)
  {
    RecalcDaysMeaning(days);
    var ds := RecalcDays(days).value.0;
    forall k | 0 <= k < |ds|
      ensures DayConsistent(ds[k]) && DayValue(ds[k]) == DayValue(days[k])
    {
      RecalcDayConsistent(days[k]);
    }
    DaysTotalPointwise(days, ds);
    RecalcDaysOfConsistent(ds);
  }

  /** Sequences of days with the same day values have the same total. */
  lemma {:induction false} DaysTotalPointwise(a: seq<Json>, b: seq<Json>)
    requires |a| == |b|
    requires forall k :: 0 <= k < |a| ==> DayValue(a[k]) == DayValue(b[k])
    ensures DaysTotal(a) == DaysTotal(b)
  {
    if |a| > 0 {
      DaysTotalPointwise(a[..|a| - 1], b[..|b| - 1]);
    }
  }

  /** A summary is left as it is by the update exactly when it is consistent. */
  lemma SummaryFixedPoint(summary: Json, daysTotal: int)
    ensures RecalcSummary(summary, daysTotal) == Some(summary) <==> SummaryConsistent(summary, daysTotal)
  {
    if summary.JObj? {
      var f := summary.fields;
      var travel := CostAt(summary, "estimatedTravelCost");
      var t := JStr(SymbolOf(summary) + IntToString(daysTotal + travel));
      var f2 := f["estimatedTotalCost" := t]["estimatedTravelCost" := JNum(travel)];
      if SummaryConsistent(summary, daysTotal) {
        assert f2 == f;
      }
      if f2 == f {
        assert f["estimatedTravelCost"] == JNum(travel);
      }
    }
  }

  /** An updated summary is consistent, and updating it again changes nothing. */
  lemma RecalcSummaryTwice(summary: Json, daysTotal: int)
    requires RecalcSummary(summary, daysTotal).Some?
    ensures SummaryConsistent(RecalcSummary(summary, daysTotal).value, daysTotal)
    ensures RecalcSummary(RecalcSummary(summary, daysTotal).value, daysTotal) == RecalcSummary(summary, daysTotal)
    ensures Truthy(RecalcSummary(summary, daysTotal).value)
    ensures SameExcept(summary, RecalcSummary(summary, daysTotal).value, {"estimatedTotalCost", "estimatedTravelCost"})
  {
    var s := RecalcSummary(summary, daysTotal).value;
    if summary.JObj? {
      assert Get(s, "currencySymbol") == Get(summary, "currencySymbol");
      assert SymbolOf(s) == SymbolOf(summary);
      CoerceNumeric(CostAt(summary, "estimatedTravelCost"));
    }
    SummaryFixedPoint(s, daysTotal);
  }

  /** How the whole pass acts on an object plan: the days and the summary are the recomputed
      ones and no other top-level property changes. */
  lemma RecalculatedParts(plan: Json)
    requires plan.JObj? && Recalculated(plan).Some?
    ensures RecalcDays(DaysOf(plan)).Some?
    ensures Recalculated(plan).value.JObj?
    ensures DaysOf(Recalculated(plan).value) == RecalcDays(DaysOf(plan)).value.0
    ensures SummaryOf(plan).None? ==> SummaryOf(Recalculated(plan).value).None?
    ensures SummaryOf(plan).Some? ==>
      && RecalcSummary(SummaryOf(plan).value, RecalcDays(DaysOf(plan)).value.1).Some?
      && SummaryOf(Recalculated(plan).value) == RecalcSummary(SummaryOf(plan).value, RecalcDays(DaysOf(plan)).value.1)
    ensures SameExcept(plan, Recalculated(plan).value, {"days", "tripSummary"})
    ensures plan.fields.Keys == Recalculated(plan).value.fields.Keys
    ensures "days" in plan.fields ==>
      Recalculated(plan).value.fields["days"] ==
        (if plan.fields["days"].JArr? then JArr(RecalcDays(DaysOf(plan)).value.0) else plan.fields["days"])
    ensures "tripSummary" in plan.fields && SummaryOf(plan).None? ==>
      Recalculated(plan).value.fields["tripSummary"] == plan.fields["tripSummary"]
  {
    var q := Recalculated(plan).value;
    var s := SummaryOf(plan);
    if s.Some? {
      RecalcSummaryTwice(s.value, RecalcDays(DaysOf(plan)).value.1);
    }
  }

  /** Whatever the pass returns is consistent. */
  lemma RecalculatedIsConsistent(plan: Json)
    requires Recalculated(plan).Some?
    ensures Consistent(Recalculated(plan).value)
  {
    if plan.JObj? {
      RecalculatedParts(plan);
      var days := DaysOf(plan);
      RecalcDaysTwice(days);
      RecalcDaysResult(days);
      var s := SummaryOf(plan);
      if s.Some? {
        RecalcSummaryTwice(s.value, RecalcDays(days).value.1);
      }
    }
  }

  /** The pass leaves a plan as it is exactly when the plan is already consistent. */
  lemma ConsistentIffFixedPoint(plan: Json)
    ensures Consistent(plan) <==> Recalculated(plan) == Some(plan)
  {
    if plan.JObj? {
      var days := DaysOf(plan);
      var m := plan.fields;
      if Consistent(plan) {
        RecalcDaysOfConsistent(days);
        var m1 := if "days" in m && m["days"].JArr? then m["days" := JArr(days)] else m;
        assert m1 == m;
        var s := SummaryOf(plan);
        if s.Some? {
          SummaryFixedPoint(s.value, DaysTotal(days));
          assert m1["tripSummary" := s.value] == m;
        }
      }
      if Recalculated(plan) == Some(plan) {
        RecalculatedIsConsistent(plan);
      }
    } else if !plan.JNull? {
      assert Recalculated(plan) == Some(plan);
    }
  }

  /** Running the pass twice is the same as running it once. */
  lemma RecalculateIdempotent(plan: Json)
    requires Recalculated(plan).Some?
    ensures Recalculated(Recalculated(plan).value) == Recalculated(plan)
  {
    RecalculatedIsConsistent(plan);
    ConsistentIffFixedPoint(Recalculated(plan).value);
  }

  /** The pass changes nothing but the derived totals: every other top-level property, every
      other property of each day and every other property of the summary keep their values. */
  lemma RecalculateChangesOnlyTotals(plan: Json)
    requires plan.JObj? && Recalculated(plan).Some?
    ensures SameExcept(plan, Recalculated(plan).value, {"days", "tripSummary"})
    ensures |DaysOf(Recalculated(plan).value)| == |DaysOf(plan)|
    ensures forall k :: 0 <= k < |DaysOf(plan)| ==>
      SameExcept(DaysOf(plan)[k], DaysOf(Recalculated(plan).value)[k], {"dailyTotal"})
    ensures SummaryOf(plan).Some? ==>
      && SummaryOf(Recalculated(plan).value).Some?
      && SameExcept(SummaryOf(plan).value, SummaryOf(Recalculated(plan).value).value,
                    {"estimatedTotalCost", "estimatedTravelCost"})
    ensures "days" in plan.fields && !plan.fields["days"].JArr? ==>
      Recalculated(plan).value.fields["days"] == plan.fields["days"]
    ensures "tripSummary" in plan.fields && SummaryOf(plan).None? ==>
      Recalculated(plan).value.fields["tripSummary"] == plan.fields["tripSummary"]
  {
    RecalculatedParts(plan);
    var days := DaysOf(plan);
    RecalcDaysResult(days);
    forall k | 0 <= k < |days|
      ensures SameExcept(days[k], RecalcDay(days[k]).value.0, {"dailyTotal"})
    {
      RecalcDayConsistent(days[k]);
    }
    var s := SummaryOf(plan);
    if s.Some? {
      RecalcSummaryTwice(s.value, RecalcDays(days).value.1);
    }
  }

  /** The `dailyTotal` a day stores (0 when it stores no number). */
  function StoredDayTotal(day: Json): int
  {
    match Get(day, "dailyTotal")
    case Some(JNum(n)) => n
    case _ => 0
  }

  /** The sum of the stored day totals. */
  function StoredDaysTotal(days: seq<Json>): int
  {
    if |days| == 0 then 0 else StoredDaysTotal(days[..|days| - 1]) + StoredDayTotal(days[|days| - 1])
  }

  /** In consistent days the stored totals add up to the recomputed grand total. */
  lemma {:induction false} StoredDaysTotalOfConsistent(days: seq<Json>)
    requires forall k :: 0 <= k < |days| ==> DayConsistent(days[k])
    ensures StoredDaysTotal(days) == DaysTotal(days)
  {
    if |days| > 0 {
      var init := days[..|days| - 1];
      assert forall k :: 0 <= k < |init| ==> init[k] == days[k];
      StoredDaysTotalOfConsistent(init);
    }
  }

  /** In a consistent plan the summary's total is the currency symbol followed by the sum of the
      stored day totals plus the stored travel cost, and that string reads back as the number. */
  lemma ConsistentSummaryTotal(plan: Json)
    requires Consistent(plan) && SummaryOf(plan).Some? && SummaryOf(plan).value.JObj?
    ensures var s := SummaryOf(plan).value;
      && "estimatedTravelCost" in s.fields && s.fields["estimatedTravelCost"].JNum?
      && Get(s, "estimatedTotalCost") ==
           Some(JStr(SymbolOf(s) + IntToString(StoredDaysTotal(DaysOf(plan)) + s.fields["estimatedTravelCost"].n)))
  {
    StoredDaysTotalOfConsistent(DaysOf(plan));
  }

  /** `tripPlan.tripSummary.travelers = travelers` when the summary is truthy; None when the
      assignment throws. */
  function SetTravelers(plan: Json, travelers: int): (r: Option<Json>)
    ensures r.None? <==> plan.JNull? || (SummaryOf(plan).Some? && !Writable(SummaryOf(plan).value))
    ensures r.Some? && SummaryOf(plan).None? ==> r.value == plan
    ensures r.Some? && SummaryOf(plan).Some? && SummaryOf(plan).value.JArr? ==> r.value == plan
    ensures r.Some? && SummaryOf(plan).Some? && SummaryOf(plan).value.JObj? ==>
      && r.value.JObj? && "tripSummary" in r.value.fields
      && Get(r.value.fields["tripSummary"], "travelers") == Some(JNum(travelers))
      && SameExcept(plan, r.value, {"tripSummary"})
      && SameExcept(SummaryOf(plan).value, r.value.fields["tripSummary"], {"travelers"})
  {
    if plan.JNull? then None
    else match SummaryOf(plan)
      case None => Some(plan)
      case Some(s) =>
        if Writable(s) then Some(JObj(plan.fields["tripSummary" := SetField(s, "travelers", JNum(travelers))]))
        else None
  }

  /** Whenever the stored plan's summary is an object, it records the travelers count: a
      summary left alone by the write is never an object. */
  lemma SetTravelersRecords(plan: Json, travelers: int)
    requires SetTravelers(plan, travelers).Some?
    ensures var r := SetTravelers(plan, travelers).value;
      r.JObj? && "tripSummary" in r.fields && r.fields["tripSummary"].JObj? ==>
        Get(r.fields["tripSummary"], "travelers") == Some(JNum(travelers))
  {
    var r := SetTravelers(plan, travelers).value;
    match SummaryOf(plan)
    case None =>
      assert r == plan;
      if r.JObj? && "tripSummary" in r.fields {
        assert Get(plan, "tripSummary") == Some(r.fields["tripSummary"]);
      }
    case Some(s) =>
      if s.JArr? {
        assert r.fields["tripSummary"] == s;
      }
  }

  /** Recording the travelers count keeps a consistent plan consistent. */
  lemma SetTravelersKeepsConsistent(plan: Json, travelers: int)
    requires Consistent(plan) && SetTravelers(plan, travelers).Some?
    ensures Consistent(SetTravelers(plan, travelers).value)
  {
    var s := SummaryOf(plan);
    if s.Some? {
      var r := SetTravelers(plan, travelers).value;
      var s2 := SetField(s.value, "travelers", JNum(travelers));
      assert DaysOf(r) == DaysOf(plan);
      assert SummaryOf(r) == Some(s2);
      assert Get(s2, "currencySymbol") == Get(s.value, "currencySymbol");
    }
  }

  /** After a successful pass the travelers assignment cannot throw, and the plan stays
      consistent. */
  lemma SetTravelersAfterRecalculate(plan: Json, travelers: int)
    requires Recalculated(plan).Some?
    ensures SetTravelers(Recalculated(plan).value, travelers).Some?
    ensures Consistent(SetTravelers(Recalculated(plan).value, travelers).value)
  {
    RecalculatedIsConsistent(plan);
    if plan.JObj? {
      RecalculatedParts(plan);
    }
    SetTravelersKeepsConsistent(Recalculated(plan).value, travelers);
  }

  // ---------------------------------------------------------------------------------------
  // The pass as the service runs it
  // ---------------------------------------------------------------------------------------

  /** `day.activities.forEach(...)`: adds up the coerced activity costs; None when an activity
      is null. */
  method SumActivities(items: seq<Json>) returns (r: Option<int>)
    ensures r == ActivitiesSum(items)
  {
    var dayTotal := 0;
    var j := 0;
    while j < |items|
      invariant 0 <= j <= |items|
      invariant ActivitiesSum(items[..j]) == Some(dayTotal)
    {
      if items[j].JNull? {
        ActivitiesSumFails(items);
        return None;
      }
      assert items[..j + 1][..j] == items[..j];
      dayTotal := dayTotal + CostAt(items[j], "estimatedCost");
      j := j + 1;
    }
    assert items[..j] == items;
    return Some(dayTotal);
  }

  /** `["breakfast", "lunch", "dinner"].forEach(...)`: adds up the truthy meal slots. */
  method SumMeals(meals: Json) returns (total: int)
    ensures total == MealsSum(meals, MealKeys)
  {
    total := 0;
    var k := 0;
    while k < |MealKeys|
      invariant 0 <= k <= |MealKeys|
      invariant total == MealsSum(meals, MealKeys[..k])
    {
      var slot := Get(meals, MealKeys[k]);
      if slot.Some? && Truthy(slot.value) {
        total := total + CostAt(slot.value, "estimatedCost");
      }
      assert MealKeys[..k + 1][..k] == MealKeys[..k];
      k := k + 1;
    }
    assert MealKeys[..k] == MealKeys;
  }

  /** The body of the per-day callback up to the assignment: `dayTotal`, or None on a throw. */
  method ComputeDayTotal(day: Json) returns (r: Option<int>)
    ensures r == DaySum(day)
  {
    if day.JNull? {
      return None;
    }
    var dayTotal := 0;
    var acts := Get(day, "activities");
    if acts.Some? && acts.value.JArr? {
      var a := SumActivities(acts.value.items);
      if a.None? {
        return None;
      }
      dayTotal := a.value;
    } else {
      assert ActivitiesOf(day) == [];
    }
    DaySumParts(day, dayTotal);
    var mealTotal := AddMeals(day);
    var stayCost := AddAccommodation(day);
    dayTotal := dayTotal + mealTotal + stayCost;
    return Some(dayTotal);
  }

  /** A day whose activities add up to `a` sums to `a` plus its meals and its accommodation. */
  lemma DaySumParts(day: Json, a: int)
    requires !day.JNull? && ActivitiesSum(ActivitiesOf(day)) == Some(a)
    ensures DaySum(day) == Some(a + DayMeals(day) + DayAccommodation(day))
  {
  }

  /** `if (day.meals) { ... }`: the truthy meal slots' costs, or 0 when `day.meals` is falsy. */
  method AddMeals(day: Json) returns (total: int)
    ensures total == DayMeals(day)
  {
    total := 0;
    var meals := Get(day, "meals");
    if meals.Some? && Truthy(meals.value) {
      total := SumMeals(meals.value);
    }
  }

  /** `if (day.accommodation) { ... }`: the coerced accommodation cost, or 0 when it is falsy. */
  method AddAccommodation(day: Json) returns (cost: int)
    ensures cost == DayAccommodation(day)
  {
    cost := 0;
    var stay := Get(day, "accommodation");
    if stay.Some? && Truthy(stay.value) {
      cost := CostAt(stay.value, "estimatedCost");
    }
  }

  /** The per-day callback: computes `dayTotal` and assigns `day.dailyTotal`; None on a throw. */
  method RecalculateDay(day: Json) returns (r: Option<(Json, int)>)
    ensures r == RecalcDay(day)
  {
    var dayTotal := ComputeDayTotal(day);
    if dayTotal.None? || !Writable(day) {
      return None;
    }
    return Some((SetField(day, "dailyTotal", JNum(dayTotal.value)), dayTotal.value));
  }

  /** Extending the walked prefix by one day. */
  lemma RecalcDaysStep(original: seq<Json>, i: nat, done: seq<Json>, total: int, day: Json, s: int)
    requires i < |original|
    requires RecalcDays(original[..i]) == Some((done, total))
    requires RecalcDay(original[i]) == Some((day, s))
    ensures RecalcDays(original[..i + 1]) == Some((done + [day], total + s))
  {
    var p := original[..i + 1];
    assert |p| - 1 == i;
    assert p[..|p| - 1] == original[..i];
    assert p[|p| - 1] == original[i];
  }

  /** One day that throws makes the whole walk throw. */
  lemma RecalcDaysFailsAt(days: seq<Json>, i: nat)
    requires i < |days| && RecalcDay(days[i]).None?
    ensures RecalcDays(days).None?
  {
    RecalcDaysFails(days);
  }

  /** Replacing element `i` extends the prefix before it by the new element and keeps the rest. */
  lemma ReplaceSlices<T>(s: seq<T>, i: nat, x: T)
    requires i < |s|
    ensures s[i := x][..i + 1] == s[..i] + [x]
    ensures s[i := x][i + 1..] == s[i + 1..]
  {
  }

  /** One iteration of the walk: writing day `i` back in place extends the walked prefix and
      keeps the days still to come. */
  lemma WalkStep(original: seq<Json>, i: nat, days: seq<Json>, total: int, day: Json, s: int)
    requires i < |days| == |original| && days[i] == original[i]
    requires RecalcDays(original[..i]) == Some((days[..i], total))
    requires RecalcDay(original[i]) == Some((day, s))
    ensures RecalcDays(original[..i + 1]) == Some((days[i := day][..i + 1], total + s))
  {
    RecalcDaysStep(original, i, days[..i], total, day, s);
    ReplaceSlices(days, i, day);
  }

  /** `tripPlan.days.forEach(...)`: stores each day's total in its `dailyTotal` and keeps the
      running `grandTotal`; None when a day throws. */
  method RecalculateDays(original: seq<Json>) returns (r: Option<(seq<Json>, int)>)
    ensures r == RecalcDays(original)
  {
    var days := original;
    var grandTotal := 0;
    var i := 0;
    while i < |days|
      invariant 0 <= i <= |days| == |original|
      invariant forall k :: i <= k < |days| ==> days[k] == original[k]
      invariant RecalcDays(original[..i]) == Some((days[..i], grandTotal))
    {
      var updated := RecalculateDay(days[i]);
      if updated.None? {
        RecalcDaysFailsAt(original, i);
        return None;
      }
      WalkStep(original, i, days, grandTotal, updated.value.0, updated.value.1);
      days := days[i := updated.value.0];
      grandTotal := grandTotal + updated.value.1;
      i := i + 1;
    }
    assert original[..i] == original;
    assert days[..i] == days;
    return Some((days, grandTotal));
  }

  /** The summary update: adds the coerced travel cost to the grand total, writes the total
      behind the currency symbol and stores the coerced travel cost back; None when the summary
      is a primitive. */
  method RecalculateSummary(summary: Json, daysTotal: int) returns (r: Option<Json>)
    ensures r == RecalcSummary(summary, daysTotal)
  {
    var cs := Get(summary, "currencySymbol");
    var symbol := if cs.Some? && Truthy(cs.value) then Display(cs.value) else DefaultSymbol;
    var travelCost := CostAt(summary, "estimatedTravelCost");
    var grandTotal := daysTotal + travelCost;
    if !Writable(summary) {
      return None;
    }
    var updated := SetField(summary, "estimatedTotalCost", JStr(symbol + IntToString(grandTotal)));
    updated := SetField(updated, "estimatedTravelCost", JNum(travelCost));
    return Some(updated);
  }

  /** `recalculateTripCosts(tripPlan)`: the recomputed plan, or None when the pass throws. */
  method RecalculateTripCosts(plan: Json) returns (r: Option<Json>)
    ensures r == Recalculated(plan)
  {
    if plan.JNull? {
      return None;
    }
    if !plan.JObj? {
      return Some(plan);
    }
    var daysResult := RecalculateDays(DaysOf(plan));
    if daysResult.None? {
      return None;
    }
    var m := plan.fields;
    if "days" in m && m["days"].JArr? {
      m := m["days" := JArr(daysResult.value.0)];
    }
    var s := SummaryOf(plan);
    if s.Some? {
      var summary := RecalculateSummary(s.value, daysResult.value.1);
      if summary.None? {
        return None;
      }
      m := m["tripSummary" := summary.value];
    }
    return Some(JObj(m));
  }
}
