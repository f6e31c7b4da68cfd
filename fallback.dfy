/** `generateFallbackPlan`: the plan the service synthesises itself, from fixed tables and an
    integer cost model, whenever the model's reply cannot be used. */
module Fallback {
  import opened Json
  import opened Transport
  import opened Plan
  import opened Recalculate
  import opened Wrappers

  /** `getCurrencyData`: always Indian rupees. */
  const CurrencyCode: string := "INR"
  const CurrencySymbol: string := "\U{20B9}"

  // Base costs per person in rupees (accommodation per room of two).
  const BaseActivity1: int := 200
  const BaseActivity2: int := 300
  const BaseActivity3: int := 200
  const BaseBreakfast: int := 150
  const BaseLunch: int := 250
  const BaseDinner: int := 400
  const BaseAccommodation: int := 1500
  const BaseTravel: int := 2000

  /** The cost multiplier of a budget mode: 4 for premium, 2 for balanced, 1 for anything else. */
  function CostMultiplier(mode: string): (r: int)
    ensures r == 4 <==> mode == Premium
    ensures r == 2 <==> mode == Balanced
    ensures r == 1 <==> mode != Premium && mode != Balanced
  {
    if mode == Premium then 4 else if mode == Balanced then 2 else 1
  }

  /** `Math.ceil(travelers / 2)`: the rooms for a party, two to a room. */
  function Rooms(travelers: int): (r: int)
    ensures 2 * r - 1 <= travelers <= 2 * r
  {
    (travelers + 1) / 2
  }

  /** `calculateCost`: a base cost scaled by the mode and by the party (by rooms for
      accommodation). The product is whole, so `Math.round` leaves it as it is. */
  function CalculateCost(base: int, isAccommodation: bool, travelers: int, multiplier: int): (r: int)
    ensures !isAccommodation ==> r == base * multiplier * travelers
    ensures isAccommodation && base * multiplier >= 0 ==>
      base * multiplier * travelers <= 2 * r <= base * multiplier * travelers + base * multiplier
  {
    RoomsScale(base * multiplier, travelers);
    if isAccommodation then base * multiplier * Rooms(travelers) else base * multiplier * travelers
  }

  /** Paying `unit` per room of two: twice the bill covers every traveler, and at most one
      place is paid for but empty. */
  lemma RoomsScale(unit: int, travelers: int)
    ensures unit >= 0 ==> unit * travelers <= 2 * (unit * Rooms(travelers)) <= unit * travelers + unit
  {
    var r := Rooms(travelers);
    if unit >= 0 {
      assert unit * travelers <= unit * (2 * r);
      assert unit * (2 * r - 1) <= unit * travelers;
    }
  }

  /** The seven cost components of a day (the same on every day). */
  datatype DayCosts = DayCosts(act1: int, act2: int, act3: int, bkf: int, lnch: int, dnr: int, stay: int)

  function CostsOf(travelers: int, multiplier: int): DayCosts
  {
    DayCosts(CalculateCost(BaseActivity1, false, travelers, multiplier),
             CalculateCost(BaseActivity2, false, travelers, multiplier),
             CalculateCost(BaseActivity3, false, travelers, multiplier),
             CalculateCost(BaseBreakfast, false, travelers, multiplier),
             CalculateCost(BaseLunch, false, travelers, multiplier),
             CalculateCost(BaseDinner, false, travelers, multiplier),
             CalculateCost(BaseAccommodation, true, travelers, multiplier))
  }

  /** `Object.values(costs).reduce((a, b) => a + b, 0)`. */
  function CostsTotal(c: DayCosts): int
  {
    c.act1 + c.act2 + c.act3 + c.bkf + c.lnch + c.dnr + c.stay
  }

  /** Every cost but accommodation is base × multiplier × travelers; accommodation is priced per
      room, so a party of four in balanced mode pays for two rooms, not four people. */
  lemma CostModel(travelers: int, mode: string)
    ensures var m := CostMultiplier(mode);
      var c := CostsOf(travelers, m);
      && c.act1 == 200 * m * travelers && c.act2 == 300 * m * travelers
      && c.act3 == 200 * m * travelers && c.bkf == 150 * m * travelers
      && c.lnch == 250 * m * travelers && c.dnr == 400 * m * travelers
      && 2 * c.stay - 1500 * m <= 1500 * m * travelers <= 2 * c.stay
      && CostsTotal(c) == 1500 * m * travelers + 1500 * m * Rooms(travelers)
  {
    var m := CostMultiplier(mode);
    var r := Rooms(travelers);
    assert 2 * r - 1 <= travelers <= 2 * r;
    assert 1500 * m * (2 * r - 1) <= 1500 * m * travelers <= 1500 * m * (2 * r) by {
      assert m > 0;
    }
  }

  /** Four travelers in balanced mode: two rooms at 3000 each. */
  lemma FourTravelersBalanced()
    ensures CostsOf(4, CostMultiplier(Balanced)).stay == 6000
    ensures CostsTotal(CostsOf(4, CostMultiplier(Balanced))) == 18000
  {
  }

  // ---------------------------------------------------------------------------------------
  // The literal tables
  // ---------------------------------------------------------------------------------------

  datatype Item = Item(act: string, desc: string, loc: string)
  datatype Theme = Theme(kind: string, items: seq<Item>)
  datatype MealPlace = MealPlace(b: string, l: string, d: string)

  const Themes: seq<Theme> := [
    Theme("Culture", [
      Item("Museum & Gallery Visit", "Explore the rich history and art of the region.", "Historic District"),
      Item("Traditional Workshop", "Participate in a local craft or art session.", "Artisan Quarter"),
      Item("Temple/Cathedral Tour", "Visit iconic religious and architectural sites.", "Old Town")]),
    Theme("Nature", [
      Item("Park & Garden Stroll", "Enjoy the natural beauty and fresh air.", "City Parks"),
      Item("Botanical Garden Visit", "Discover exotic plants and tranquil landscapes.", "Outer Suburbs"),
      Item("Riverside/Coastal Walk", "Take a relaxing walk along the waterfront.", "Port Area")]),
    Theme("Food", [
      Item("Local Market Tour", "Taste authentic local flavors and shop for souvenirs.", "Central Market"),
      Item("Street Food Crawl", "Experience the vibrant street food scene.", "Gourmet Street"),
      Item("Cooking Masterclass", "Learn to prepare traditional local dishes.", "Culinary Institute")]),
    Theme("Landmark", [
      Item("Historic Site Visit", "Visit iconic monuments and architectural wonders.", "National Plaza"),
      Item("Panoramic City View", "Get a bird's eye view of the entire city.", "Observation Tower"),
      Item("Palace/Castle Tour", "Explore the former residence of royalty.", "High Ridge Area")]),
    Theme("Adventure", [
      Item("Local Neighborhood Hike", "Discover hidden streets and panoramic views.", "Northern Hills"),
      Item("Cycling Tour", "Explore the city on two wheels.", "Bike Trails"),
      Item("Nearby Village Day Trip", "Explore the outskirts for a rural experience.", "Country Side")]),
    Theme("Relaxation", [
      Item("Leisurely City Walk", "Soak in the local atmosphere at a steady pace.", "Pedestrian Zone"),
      Item("Library/Bookshop Visit", "Browse local literature and quiet spaces.", "Literary Corner"),
      Item("Spa & Wellness Session", "Unwind with traditional local treatments.", "Wellness Center")])
  ]

  const MealPlaces: seq<MealPlace> := [
    MealPlace("The Morning Nook", "Corner Bistro", "Starry Night Grill"),
    MealPlace("Sunshine Cafe", "The Golden Plate", "Twilight Tavern"),
    MealPlace("Baker's Street", "Street Side Eats", "Grand Harbor Dining"),
    MealPlace("Garden Terrace", "Green Leaf Deli", "Oak & Iron Steakhouse"),
    MealPlace("Mountain View Coffee", "Valley Kitchen", "Cliffside Lounge"),
    MealPlace("Harbor Brews", "Oceanic Catch", "Coral Reef Dining"),
    MealPlace("The Daily Grind", "Urban Sprout", "City Lights Bistro"),
    MealPlace("Sunrise Bakery", "Local Harvest", "The Rustic Table")
  ]

  const PackingTips: seq<string> := [
    "Pack comfortable walking shoes", "Bring weather-appropriate clothing",
    "Don't forget travel adapters", "Carry a reusable water bottle"]

  const LocalTips: seq<string> := [
    "Learn a few local phrases", "Keep copies of important documents",
    "Stay hydrated and take breaks", "Respect local customs and traditions"]

  /** The two rotation tables; every lookup is taken modulo a table's length. */
  datatype Tables = Tables(themes: seq<Theme>, places: seq<MealPlace>)

  const Table: Tables := Tables(Themes, MealPlaces)

  /** Tables every modular lookup can index. */
  predicate Indexable(tb: Tables)
  {
    |tb.themes| > 0 && |tb.places| > 0 && forall t :: 0 <= t < |tb.themes| ==> |tb.themes[t].items| > 0
  }

  /** The tables' shape: six themes of three items each, eight meal triples. */
  lemma TablesShape()
    ensures |Themes| == 6 && |MealPlaces| == 8
    ensures forall t :: 0 <= t < |Themes| ==> |Themes[t].items| == 3
    ensures Indexable(Table)
  {
  }

  /** The theme names are pairwise different. */
  lemma ThemeKindsDistinct()
    ensures forall a, b :: 0 <= a < b < |Themes| ==> Themes[a].kind != Themes[b].kind
  {
  }

  // ---------------------------------------------------------------------------------------
  // One day
  // ---------------------------------------------------------------------------------------

  /** The indices of the three themes of day index `i`, among `n` themes. */
  function ThemeIndices(i: nat, n: nat): (nat, nat, nat)
    requires n > 0
  {
    (i % n, (i + 2) % n, (i + 4) % n)
  }

  /** With six themes, the three themes of a day are three different themes. */
  lemma ThemeIndicesDistinct(i: nat)
    ensures var (a, b, c) := ThemeIndices(i, 6); a != b && b != c && a != c && a < 6 && b < 6 && c < 6
  {
  }

  /** The item of the theme at `t` for rotation position `n`. */
  function Pick(tb: Tables, t: nat, n: nat): Item
    requires Indexable(tb) && t < |tb.themes|
  {
    tb.themes[t].items[n % |tb.themes[t].items|]
  }

  /** `i === 0 ? first : later`: day index 0 overrides the table with the arrival programme. */
  function OnFirstDay(i: nat, first: string, later: string): string
  {
    if i == 0 then first else later
  }

  /** `act` is the activity of some item of some theme of `tb`. */
  predicate TableActivity(tb: Tables, act: string)
  {
    exists t, n :: 0 <= t < |tb.themes| && 0 <= n < |tb.themes[t].items| && act == tb.themes[t].items[n].act
  }

  /** The three activities of day index `i`. */
  function DayActivities(tb: Tables, i: nat, to: string, c: DayCosts): seq<Activity>
    requires Indexable(tb)
  {
    var (t1, t2, t3) := ThemeIndices(i, |tb.themes|);
    var item1 := Pick(tb, t1, i);
    var item2 := Pick(tb, t2, i + 1);
    var item3 := Pick(tb, t3, i + 2);
    [ Activity(Morning, OnFirstDay(i, CheckIn, item1.act), OnFirstDay(i, Welcome(to), item1.desc),
               OnFirstDay(i, to + CentralDistrict, item1.loc), c.act1, ThreeHours, EarlyTip),
      Activity(Afternoon, OnFirstDay(i, Sightseeing, item2.act), OnFirstDay(i, Stroll(to), item2.desc),
               OnFirstDay(i, to + Landmarks, item2.loc), c.act2, FourHours, CameraTip),
      Activity(Evening, OnFirstDay(i, EveningIntro, item3.act), OnFirstDay(i, FirstEvening, item3.desc),
               OnFirstDay(i, to + EntertainmentHub, item3.loc), c.act3, ThreeHours, StreetFoodTip) ]
  }

  /** A day has a morning, an afternoon and an evening activity, costed by the day's three
      activity costs; day index 0 is the arrival programme, and every later day draws each
      activity from the theme tables. */
  lemma ActivitiesShape(tb: Tables, i: nat, to: string, c: DayCosts)
    requires Indexable(tb)
    ensures var r := DayActivities(tb, i, to, c);
      && |r| == 3
      && r[0].time == Morning && r[1].time == Afternoon && r[2].time == Evening
      && r[0].estimatedCost == c.act1 && r[1].estimatedCost == c.act2 && r[2].estimatedCost == c.act3
      && ActivitiesCost(r) == c.act1 + c.act2 + c.act3
      && (i == 0 ==> r[0].activity == CheckIn && r[1].activity == Sightseeing && r[2].activity == EveningIntro)
      && (i > 0 ==> TableActivity(tb, r[0].activity) && TableActivity(tb, r[1].activity) && TableActivity(tb, r[2].activity))
  {
    var r := DayActivities(tb, i, to, c);
    assert r[..2] == [r[0], r[1]] && [r[0], r[1]][..1] == [r[0]] && [r[0]][..0] == [];
    assert ActivitiesCost([r[0]]) == r[0].estimatedCost;
    assert ActivitiesCost([r[0], r[1]]) == r[0].estimatedCost + r[1].estimatedCost;
    if i > 0 {
      var (t1, t2, t3) := ThemeIndices(i, |tb.themes|);
      assert r[0].activity == tb.themes[t1].items[i % |tb.themes[t1].items|].act;
      assert r[1].activity == tb.themes[t2].items[(i + 1) % |tb.themes[t2].items|].act;
      assert r[2].activity == tb.themes[t3].items[(i + 2) % |tb.themes[t3].items|].act;
    }
  }

  // The fixed text of the activities: their times, durations and tips, and the arrival
  // programme that replaces the table on day index 0.
  const Morning := "09:00 AM"
  const Afternoon := "02:00 PM"
  const Evening := "07:00 PM"
  const ThreeHours := "3 hours"
  const FourHours := "4 hours"
  const EarlyTip := "Start early to avoid crowds"
  const CameraTip := "Don't forget your camera"
  const StreetFoodTip := "Try local street food"
  const CheckIn := "Arrival & Check-in"
  const Sightseeing := "Initial Sightseeing"
  const EveningIntro := "Evening Introduction"
  const FirstEvening := "Enjoy your first evening with a walk in a lively area."
  const CentralDistrict := " Central District"
  const Landmarks := " Landmarks"
  const EntertainmentHub := " Entertainment Hub"

  function Welcome(to: string): string
  {
    "Welcome to " + to + "! Settle into your accommodation."
  }

  function Stroll(to: string): string
  {
    "Take a stroll around the main highlights of " + to + "."
  }

  /** The meals of day index `i`. */
  function DayMealsOf(tb: Tables, i: nat, c: DayCosts): (r: Meals)
    requires Indexable(tb)
    ensures r.breakfast.estimatedCost == c.bkf && r.lunch.estimatedCost == c.lnch && r.dinner.estimatedCost == c.dnr
    ensures exists k :: 0 <= k < |tb.places| && r.breakfast.place == tb.places[k].b
              && r.lunch.place == tb.places[k].l && r.dinner.place == tb.places[k].d
  {
    var place := tb.places[i % |tb.places|];
    Meals(Meal(place.b, "Local", c.bkf), Meal(place.l, "Local", c.lnch), Meal(place.d, "International", c.dnr))
  }

  /** The accommodation of every day, chosen by mode. */
  function StayOf(mode: string, to: string, c: DayCosts): Accommodation
  {
    Accommodation(if mode == Premium then "Luxury Hotel" else if mode == Balanced then "Comfortable Hotel" else "Budget Hostel",
                  if mode == Premium then "5-Star Hotel" else if mode == Balanced then "3-Star Hotel" else "Hostel",
                  c.stay, to + " Central")
  }

  /** The title of day index `i` of `numDays`. */
  function DayTitle(tb: Tables, i: nat, numDays: nat, to: string): (r: string)
    requires Indexable(tb)
    ensures i == 0 ==> r == "Arrival & Exploration"
    ensures i > 0 && i == numDays - 1 ==> r == "Final Day & Departure"
    ensures i > 0 && i != numDays - 1 ==>
      exists t :: 0 <= t < |tb.themes| && r == tb.themes[t].kind + " & " + to + " Discovery"
  {
    if i == 0 then "Arrival & Exploration"
    else if i == numDays - 1 then "Final Day & Departure"
    else tb.themes[ThemeIndices(i, |tb.themes|).0].kind + " & " + to + " Discovery"
  }

  /** The record pushed for day index `i`, given its costs and their total. */
  function DayRecord(tb: Tables, p: TripParams, i: nat, date: string, c: DayCosts, dailyTotal: int): DayPlan
    requires Indexable(tb)
  {
    DayPlan(i + 1, date, DayTitle(tb, i, p.numDays, p.to), DayActivities(tb, i, p.to, c), DayMealsOf(tb, i, c),
            StayOf(p.mode, p.to, c), dailyTotal)
  }

  /** Day index `i` of the synthesised plan; `date` is its calendar date. */
  function FallbackDay(tb: Tables, p: TripParams, i: nat, date: string): DayPlan
    requires Indexable(tb)
  {
    var c := CostsOf(p.travelers, CostMultiplier(p.mode));
    DayRecord(tb, p, i, date, c, CostsTotal(c))
  }

  // ---------------------------------------------------------------------------------------
  // The whole plan
  // ---------------------------------------------------------------------------------------

  /** `[day(0), ..., day(n - 1)]`, built by appending one element at a time. */
  function Unfold<T>(day: nat -> T, n: nat): (r: seq<T>)
    ensures |r| == n
  {
    if n == 0 then [] else Unfold(day, n - 1) + [day(n - 1)]
  }

  /** Element `k` of `Unfold(day, n)` is `day(k)`. */
  lemma {:induction false} UnfoldIndex<T>(day: nat -> T, n: nat)
    ensures |Unfold(day, n)| == n
    ensures forall k :: 0 <= k < n ==> Unfold(day, n)[k] == day(k)
  {
    if n > 0 {
      UnfoldIndex(day, n - 1);
    }
  }

  /** The builder of the plan's days; `dates(i)` is the calendar date of day index `i`. */
  function DayBuilder(tb: Tables, p: TripParams, dates: nat -> string): nat -> DayPlan
    requires Indexable(tb)
  {
    (i: nat) => FallbackDay(tb, p, i, dates(i))
  }

  /** The days of the synthesised plan. */
  function FallbackDays(tb: Tables, p: TripParams, dates: nat -> string): seq<DayPlan>
    requires Indexable(tb)
  {
    Unfold(DayBuilder(tb, p, dates), p.numDays)
  }

  /** The one-way travel estimate the summary reports. */
  function TravelCost(p: TripParams): int
  {
    CalculateCost(BaseTravel, false, p.travelers, CostMultiplier(p.mode))
  }

  /** The outbound route: an island trip (judged by the destination alone) names the first
      recommended kind, or "flight", in its overview. */
  function OutboundRoute(p: TripParams, t: TransportOptions): (r: Route)
    ensures r.travelOptions == t.outbound
    ensures r.transportation == Flight || exists k :: 0 <= k < |t.outbound| && t.outbound[k].recommended && t.outbound[k].kind == r.transportation
    ensures FirstRecommended(t.outbound).Some? && FirstRecommended(t.outbound).value != "" ==> r.transportation == FirstRecommended(t.outbound).value
    ensures FirstRecommended(t.outbound).None? ==> r.transportation == Flight
  {
    Route(if IsIslandDestination(p.to)
          then "Travel from " + p.from + " to " + p.to + " (island destination) via " + RecommendedOr(t.outbound, "flight")
          else "Travel from " + p.from + " to " + p.to + " for an amazing " + IntToString(p.numDays) + "-day adventure",
          Transportation(t.outbound), t.outbound)
  }

  function ReturnRoute(p: TripParams, t: TransportOptions): (r: Route)
    ensures r.travelOptions == t.inbound
    ensures r.transportation == Flight || exists k :: 0 <= k < |t.inbound| && t.inbound[k].recommended && t.inbound[k].kind == r.transportation
    ensures FirstRecommended(t.inbound).Some? && FirstRecommended(t.inbound).value != "" ==> r.transportation == FirstRecommended(t.inbound).value
    ensures FirstRecommended(t.inbound).None? ==> r.transportation == Flight
  {
    Route("Return from " + p.to + " to " + p.from, Transportation(t.inbound), t.inbound)
  }

  /** The summary, given the sum of the day totals. */
  function FallbackSummary(p: TripParams, grandTotal: int): TripSummary
  {
    TripSummary(p.from, p.to, p.startDate, p.endDate, p.numDays, p.travelers, p.mode,
                CurrencySymbol + IntToString(grandTotal + TravelCost(p)), TravelCost(p), CurrencyCode, CurrencySymbol)
  }

  /** The plan synthesised from the tables `tb`. */
  function PlanFrom(tb: Tables, p: TripParams, dates: nat -> string): TripPlan
    requires Indexable(tb)
  {
    var days := FallbackDays(tb, p, dates);
    var t := GetTransportOptions(p.from, p.to, p.mode, p.travelers, CostMultiplier(p.mode));
    TripPlan(FallbackSummary(p, DailyTotals(days)), OutboundRoute(p, t), ReturnRoute(p, t), days, PackingTips, LocalTips)
  }

  /** The synthesised plan. */
  function FallbackPlan(p: TripParams, dates: nat -> string): (r: TripPlan)
    ensures |r.days| == p.numDays
    ensures forall k :: 0 <= k < p.numDays ==> r.days[k].day == k + 1 && r.days[k].date == dates(k)
    ensures r.tripSummary.totalDays == p.numDays && r.tripSummary.travelers == p.travelers
  {
    TablesShape();
    PlanShape(Table, p, dates);
    PlanFrom(Table, p, dates)
  }

  // ---------------------------------------------------------------------------------------
  // What the synthesised plan promises
  // ---------------------------------------------------------------------------------------

  /** The cost of every synthesised day. */
  function DailyCost(p: TripParams): int
  {
    CostsTotal(CostsOf(p.travelers, CostMultiplier(p.mode)))
  }

  /** What a synthesised day records besides its text: its number, its date and its total. */
  lemma DayFields(tb: Tables, p: TripParams, i: nat, date: string)
    requires Indexable(tb)
    ensures var d := FallbackDay(tb, p, i, date);
      && d.day == i + 1 && d.date == date && d.dailyTotal == DailyCost(p)
      && d.title == DayTitle(tb, i, p.numDays, p.to)
      && d.activities == DayActivities(tb, i, p.to, CostsOf(p.travelers, CostMultiplier(p.mode)))
      && d.meals == DayMealsOf(tb, i, CostsOf(p.travelers, CostMultiplier(p.mode)))
  {
  }

  /** Tables of six themes with three items each, like `Table`. */
  predicate SixByThree(tb: Tables)
  {
    |tb.themes| == 6 && |tb.places| > 0 && forall t :: 0 <= t < 6 ==> |tb.themes[t].items| == 3
  }

  /** After the first day, the activities repeat every six days: the theme index cycles through
      six themes and each item index through three. */
  lemma ActivitiesRepeat(tb: Tables, i: nat, to: string, c: DayCosts)
    requires SixByThree(tb) && i >= 1
    ensures DayActivities(tb, i, to, c) == DayActivities(tb, i + 6, to, c)
  {
    assert ThemeIndices(i, 6) == ThemeIndices(i + 6, 6);
    var (t1, t2, t3) := ThemeIndices(i, 6);
    assert (i + 6) % 3 == i % 3 && (i + 7) % 3 == (i + 1) % 3 && (i + 8) % 3 == (i + 2) % 3;
    assert Pick(tb, t1, i) == Pick(tb, t1, i + 6);
    assert Pick(tb, t2, i + 1) == Pick(tb, t2, i + 7);
    assert Pick(tb, t3, i + 2) == Pick(tb, t3, i + 8);
  }

  /** With eight meal triples, like `Table`, the meals repeat every eight days. */
  lemma MealsRepeat(tb: Tables, i: nat, c: DayCosts)
    requires Indexable(tb) && |tb.places| == 8
    ensures DayMealsOf(tb, i, c) == DayMealsOf(tb, i + 8, c)
  {
  }

  /** Titles of middle days repeat every six days too; the first and the last day are named
      for arrival and departure instead. */
  lemma TitlesRepeat(tb: Tables, i: nat, numDays: nat, to: string)
    requires SixByThree(tb) && 1 <= i && i + 6 < numDays - 1
    ensures DayTitle(tb, i, numDays, to) == DayTitle(tb, i + 6, numDays, to)
  {
    assert ThemeIndices(i, 6) == ThemeIndices(i + 6, 6);
  }

  /** Day index 0 is always the arrival day, even on a one-day trip; the last day of a longer
      trip is the departure day; every other day is named for its first theme. */
  lemma TitleCases(tb: Tables, i: nat, numDays: nat, to: string)
    requires Indexable(tb)
    ensures i == 0 ==> DayTitle(tb, i, numDays, to) == "Arrival & Exploration"
    ensures i > 0 && i == numDays - 1 ==> DayTitle(tb, i, numDays, to) == "Final Day & Departure"
    ensures i > 0 && i != numDays - 1 ==>
      DayTitle(tb, i, numDays, to) == tb.themes[i % |tb.themes|].kind + " & " + to + " Discovery"
  {
  }

  /** The three themes of any day of `Table` are three different kinds of theme. */
  lemma DayThemesDiffer(i: nat)
    ensures var (a, b, c) := ThemeIndices(i, |Themes|);
      Themes[a].kind != Themes[b].kind && Themes[b].kind != Themes[c].kind && Themes[a].kind != Themes[c].kind
  {
    TablesShape();
    ThemeIndicesDistinct(i);
    ThemeKindsDistinct();
  }

  /** With six themes of three items and eight meal triples, a day after the first has the
      same activities and meals as the day 24 = lcm(6, 8) days later. */
  lemma ContentRepeats(tb: Tables, i: nat, to: string, c: DayCosts)
    requires SixByThree(tb) && |tb.places| == 8 && i >= 1
    ensures DayActivities(tb, i, to, c) == DayActivities(tb, i + 24, to, c)
    ensures DayMealsOf(tb, i, c) == DayMealsOf(tb, i + 24, c)
  {
    assert DayActivities(tb, i, to, c) == DayActivities(tb, i + 24, to, c) by {
      ActivitiesRepeat(tb, i, to, c);
      ActivitiesRepeat(tb, i + 6, to, c);
      ActivitiesRepeat(tb, i + 12, to, c);
      ActivitiesRepeat(tb, i + 18, to, c);
    }
    assert DayMealsOf(tb, i, c) == DayMealsOf(tb, i + 24, c) by {
      MealsRepeat(tb, i, c);
      MealsRepeat(tb, i + 8, c);
      MealsRepeat(tb, i + 16, c);
    }
  }

  /** In the synthesised plan, every day after the first has the same activities and meals
      as the day 24 days later. */
  lemma PlanRepeatsAfter24(tb: Tables, p: TripParams, dates: nat -> string, i: nat)
    requires SixByThree(tb) && |tb.places| == 8 && 1 <= i && i + 24 < p.numDays
    ensures var days := FallbackDays(tb, p, dates);
      days[i].activities == days[i + 24].activities && days[i].meals == days[i + 24].meals
  {
    UnfoldIndex(DayBuilder(tb, p, dates), p.numDays);
    DayRepeats(tb, p, i, dates(i), dates(i + 24));
  }

  /** The day-level step of `PlanRepeatsAfter24`. */
  lemma DayRepeats(tb: Tables, p: TripParams, i: nat, date: string, later: string)
    requires SixByThree(tb) && |tb.places| == 8 && 1 <= i
    ensures FallbackDay(tb, p, i, date).activities == FallbackDay(tb, p, i + 24, later).activities
    ensures FallbackDay(tb, p, i, date).meals == FallbackDay(tb, p, i + 24, later).meals
  {
    DayFields(tb, p, i, date);
    DayFields(tb, p, i + 24, later);
    ContentRepeats(tb, i, p.to, CostsOf(p.travelers, CostMultiplier(p.mode)));
  }

  /** The plan's first day is the arrival day and, on a trip of two days or more, its last day
      is the departure day. */
  lemma PlanTitles(tb: Tables, p: TripParams, dates: nat -> string)
    requires Indexable(tb) && p.numDays >= 1
    ensures var days := FallbackDays(tb, p, dates);
      && days[0].title == "Arrival & Exploration"
      && (p.numDays >= 2 ==> days[p.numDays - 1].title == "Final Day & Departure")
  {
    UnfoldIndex(DayBuilder(tb, p, dates), p.numDays);
    DayFields(tb, p, 0, dates(0));
    DayFields(tb, p, p.numDays - 1, dates(p.numDays - 1));
    TitleCases(tb, 0, p.numDays, p.to);
    TitleCases(tb, p.numDays - 1, p.numDays, p.to);
  }

  /** Every day's total is the sum of its three activities, three meals and accommodation. */
  lemma DayTotalIsSum(tb: Tables, p: TripParams, i: nat, date: string)
    requires Indexable(tb)
    ensures FallbackDay(tb, p, i, date).dailyTotal == DayCost(FallbackDay(tb, p, i, date))
  {
    var acts := FallbackDay(tb, p, i, date).activities;
    assert acts[..2] == [acts[0], acts[1]] && [acts[0], acts[1]][..1] == [acts[0]] && [acts[0]][..0] == [];
    assert ActivitiesCost([acts[0]]) == acts[0].estimatedCost;
    assert ActivitiesCost([acts[0], acts[1]]) == acts[0].estimatedCost + acts[1].estimatedCost;
  }

  /** Days that all record the same total `c` add up to `n` times `c`. */
  lemma {:induction false} UnfoldTotals(day: nat -> DayPlan, n: nat, c: int)
    requires forall k :: 0 <= k < n ==> day(k).dailyTotal == c
    ensures DailyTotals(Unfold(day, n)) == n * c
  {
    if n > 0 {
      var prefix := Unfold(day, n - 1);
      UnfoldTotals(day, n - 1, c);
      assert (prefix + [day(n - 1)])[..|prefix|] == prefix;
      assert DailyTotals(Unfold(day, n)) == (n - 1) * c + c;
      assert (n - 1) * c + c == n * c by { assert (n - 1) * c == n * c - c; }
    }
  }

  /** The days: exactly `numDays` of them, numbered 1.. in order, each on its own date. */
  lemma DaysNumbered(tb: Tables, p: TripParams, dates: nat -> string)
    requires Indexable(tb)
    ensures var days := FallbackDays(tb, p, dates);
      && |days| == p.numDays
      && (forall k :: 0 <= k < p.numDays ==> days[k].day == k + 1 && days[k].date == dates(k))
  {
    var builder := DayBuilder(tb, p, dates);
    UnfoldIndex(builder, p.numDays);
    forall k: nat | k < p.numDays
      ensures builder(k).day == k + 1 && builder(k).date == dates(k)
    {
      DayFields(tb, p, k, dates(k));
    }
  }

  /** Each day's total is the sum of that day's costs. */
  lemma DaysCosted(tb: Tables, p: TripParams, dates: nat -> string)
    requires Indexable(tb)
    ensures var days := FallbackDays(tb, p, dates);
      forall k :: 0 <= k < |days| ==> days[k].dailyTotal == DayCost(days[k])
  {
    var builder := DayBuilder(tb, p, dates);
    UnfoldIndex(builder, p.numDays);
    forall k: nat | k < p.numDays
      ensures builder(k).dailyTotal == DayCost(builder(k))
    {
      DayTotalIsSum(tb, p, k, dates(k));
    }
  }

  /** How the plan is put together from its days, its summary and the transport options. */
  lemma PlanParts(tb: Tables, p: TripParams, dates: nat -> string)
    requires Indexable(tb)
    ensures var plan := PlanFrom(tb, p, dates);
      var t := GetTransportOptions(p.from, p.to, p.mode, p.travelers, CostMultiplier(p.mode));
      && plan.days == FallbackDays(tb, p, dates)
      && plan.tripSummary == FallbackSummary(p, DailyTotals(plan.days))
      && plan.route.travelOptions == t.outbound && plan.returnRoute.travelOptions == t.inbound
      && plan.route.transportation == Transportation(t.outbound)
      && plan.returnRoute.transportation == Transportation(t.inbound)
  {
  }

  /** The plan has exactly `numDays` days, numbered 1.. in order, each on its own date, and its
      summary repeats the request. */
  lemma PlanShape(tb: Tables, p: TripParams, dates: nat -> string)
    requires Indexable(tb)
    ensures var plan := PlanFrom(tb, p, dates);
      && |plan.days| == p.numDays
      && (forall k :: 0 <= k < p.numDays ==> plan.days[k].day == k + 1 && plan.days[k].date == dates(k))
      && plan.tripSummary.totalDays == p.numDays && plan.tripSummary.travelers == p.travelers
      && plan.tripSummary.from == p.from && plan.tripSummary.to == p.to && plan.tripSummary.mode == p.mode
  {
    PlanParts(tb, p, dates);
    DaysNumbered(tb, p, dates);
  }

  /** The one-way travel estimate is 2000 × multiplier × travelers. */
  lemma TravelCostIs(p: TripParams)
    ensures TravelCost(p) == 2000 * CostMultiplier(p.mode) * p.travelers
  {
  }

  /** The days add up to `numDays` times the daily cost. */
  lemma DaysTotalIs(tb: Tables, p: TripParams, dates: nat -> string)
    requires Indexable(tb)
    ensures DailyTotals(FallbackDays(tb, p, dates)) == p.numDays * DailyCost(p)
  {
    var builder := DayBuilder(tb, p, dates);
    forall k: nat | k < p.numDays
      ensures builder(k).dailyTotal == DailyCost(p)
    {
      DayFields(tb, p, k, dates(k));
    }
    UnfoldTotals(builder, p.numDays, DailyCost(p));
  }

  /** The summary reports the grand total of the days plus one one-way travel estimate of
      2000 × multiplier × travelers, prefixed with the rupee sign. */
  lemma SummaryTotals(tb: Tables, p: TripParams, dates: nat -> string)
    requires Indexable(tb)
    ensures var s := PlanFrom(tb, p, dates).tripSummary;
      var m := CostMultiplier(p.mode);
      && s.estimatedTravelCost == 2000 * m * p.travelers
      && s.estimatedTotalCost == CurrencySymbol + IntToString(p.numDays * DailyCost(p) + 2000 * m * p.travelers)
      && s.currencySymbol == CurrencySymbol && s.currency == CurrencyCode
  {
    PlanParts(tb, p, dates);
    DaysTotalIs(tb, p, dates);
    SummaryOfTotal(p, p.numDays * DailyCost(p));
  }

  /** The summary over a grand total: the travel estimate is added once. */
  lemma SummaryOfTotal(p: TripParams, grandTotal: int)
    ensures var s := FallbackSummary(p, grandTotal);
      var m := CostMultiplier(p.mode);
      && s.estimatedTravelCost == 2000 * m * p.travelers
      && s.estimatedTotalCost == CurrencySymbol + IntToString(grandTotal + 2000 * m * p.travelers)
      && s.currencySymbol == CurrencySymbol && s.currency == CurrencyCode
  {
    TravelCostIs(p);
  }


  /** The synthesised plan's totals agree with its costs. */
  lemma PlanTotalsAgree(tb: Tables, p: TripParams, dates: nat -> string)
    requires Indexable(tb)
    ensures TotalsAgree(PlanFrom(tb, p, dates))
  {
    PlanParts(tb, p, dates);
    DaysCosted(tb, p, dates);
  }

  /** The recalculation pass leaves the JSON form of the synthesised plan as it is. */
  lemma FallbackIsFixedPoint(p: TripParams, dates: nat -> string)
    ensures Consistent(ToJson(FallbackPlan(p, dates)))
    ensures Recalculated(ToJson(FallbackPlan(p, dates))) == Some(ToJson(FallbackPlan(p, dates)))
  {
    TablesShape();
    PlanTotalsAgree(Table, p, dates);
    AgreeingPlanIsFixedPoint(FallbackPlan(p, dates));
  }

  /** The overview of an island trip always names the flight: the flight is the first
      recommended option in every mode, so the lower-case "flight" default never shows. */
  lemma IslandOverview(p: TripParams)
    requires IsIslandDestination(p.to)
    ensures var t := GetTransportOptions(p.from, p.to, p.mode, p.travelers, CostMultiplier(p.mode));
      && OutboundRoute(p, t).overview == "Travel from " + p.from + " to " + p.to + " (island destination) via " + Flight
      && OutboundRoute(p, t).transportation == ReturnRoute(p, t).transportation == Flight
  {
    var t := GetTransportOptions(p.from, p.to, p.mode, p.travelers, CostMultiplier(p.mode));
    IslandRecommendation(p.from, p.to, p.mode, p.travelers, CostMultiplier(p.mode));
    IslandOptions(p.from, p.to, p.mode, p.travelers, CostMultiplier(p.mode));
  }

  /** For any real party, the recommended outbound and return legs together never cost the
      one-way travel estimate. */
  lemma LegsAreNotTravel(p: TripParams)
    requires p.travelers >= 1
    ensures var t := GetTransportOptions(p.from, p.to, p.mode, p.travelers, CostMultiplier(p.mode));
      RecommendedCost(t.outbound) + RecommendedCost(t.inbound) != TravelCost(p)
  {
    var m := CostMultiplier(p.mode);
    RecommendedLegCost(p.from, p.to, p.mode, p.travelers, m);
    PerWayIsNotHalfTravel(IsIslandDestination(p.to) || IsIslandDestination(p.from), p.mode, p.travelers, m);
  }

  /** The arithmetic behind `LegsAreNotTravel`: twice any per-way leg cost differs from the
      travel estimate once the party and the multiplier are positive. */
  lemma PerWayIsNotHalfTravel(island: bool, mode: string, travelers: int, m: int)
    requires travelers >= 1 && m >= 1
    ensures var perWay :=
        if island then 8000 * travelers * m + (if mode == Cheap then 4000 * travelers * m else 0)
        else if mode == Premium then 4500 * travelers * m
        else if mode == Balanced then 1500 * travelers * m
        else if mode == Cheap then 800 * travelers * m
        else 0;
      perWay + perWay != 2000 * m * travelers
  {
    var x := travelers * m;
    assert x >= 1 by {
      assert travelers * m >= 1 * m;
    }
    assert 2000 * m * travelers == 2000 * x && 8000 * travelers * m == 8000 * x;
    assert 4000 * travelers * m == 4000 * x && 4500 * travelers * m == 4500 * x;
    assert 1500 * travelers * m == 1500 * x && 800 * travelers * m == 800 * x;
  }

  /** The reported travel figure is not what the recommended legs cost: for any real party it
      differs from the sum of the recommended outbound and return options. */
  lemma TravelIsNotLegs(tb: Tables, p: TripParams, dates: nat -> string)
    requires Indexable(tb) && p.travelers >= 1
    ensures var plan := PlanFrom(tb, p, dates);
      plan.tripSummary.estimatedTravelCost !=
        RecommendedCost(plan.route.travelOptions) + RecommendedCost(plan.returnRoute.travelOptions)
  {
    PlanParts(tb, p, dates);
    LegsAreNotTravel(p);
  }

  /** The day loop: appends each day and accumulates the grand total. */
  method BuildDays(tb: Tables, p: TripParams, dates: nat -> string) returns (days: seq<DayPlan>, grandTotal: int)
    requires Indexable(tb)
    ensures days == FallbackDays(tb, p, dates)
    ensures grandTotal == DailyTotals(days)
  {
    days := [];
    grandTotal := 0;
    var multiplier := CostMultiplier(p.mode);
    ghost var builder := DayBuilder(tb, p, dates);
    for i := 0 to p.numDays
      invariant days == Unfold(builder, i)
      invariant grandTotal == DailyTotals(days)
    {
      var costs := CostsOf(p.travelers, multiplier);
      var dailyTotal := CostsTotal(costs);
      grandTotal := grandTotal + dailyTotal;
      var day := DayRecord(tb, p, i, dates(i), costs, dailyTotal);
      assert day == builder(i);
      UnfoldIndex(builder, i);
      assert (days + [day])[..i] == days;
      days := days + [day];
    }
  }

  /** `generateFallbackPlan`. */
  method GenerateFallbackPlan(p: TripParams, dates: nat -> string) returns (plan: TripPlan)
    ensures plan == FallbackPlan(p, dates)
  {
    TablesShape();
    var days, grandTotal := BuildDays(Table, p, dates);
    var multiplier := CostMultiplier(p.mode);
    var transport := GetTransportOptions(p.from, p.to, p.mode, p.travelers, multiplier);
    plan := TripPlan(FallbackSummary(p, grandTotal), OutboundRoute(p, transport), ReturnRoute(p, transport),
                     days, PackingTips, LocalTips);
  }
}
