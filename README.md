# Trip planner service, modelled in Dafny

This project models the planning service of a trip-planner backend, `services/geminiService.ts`.
The service asks a language model for a day-by-day travel plan. It then cleans up the model's
reply and parses the JSON object in it. It recomputes every day's total and the trip's total
from the individual costs, because the model's own totals cannot be trusted. Finally it records
the party size in the summary. If any of these steps throws, the service builds a plan of its
own instead: the fallback plan. That plan is made from fixed cost tables, a rotation of six
activity themes and eight meal triples, and the transport options of `getTransportOptions`.

Modules, one per part of the service:

- `Wrappers`: the `Option` type.
- `Text`: ASCII lower-casing, `includes`, `indexOf` and `lastIndexOf` on strings.
- `Json`: parsed JSON values, property reads and writes with strict-mode JavaScript semantics, and
  the `typeof v === "number" ? v : Number(v) || 0` coercion the recalculation applies to every cost.
- `Extract`: `extractJSON`. It removes code fences and `//` comments, then cuts from the first `{`
  to the last `}`.
- `Recalculate`: `recalculateTripCosts`. Specification functions on JSON values, the imperative
  pass (loops over days, activities and meals) proved equal to them, and its properties. The
  pass makes every plan consistent, is idempotent, has exactly the consistent plans as fixed
  points, and writes nothing but the totals.
- `Transport`: `isIslandDestination`, `getTransportOptions`, and the
  `find(o => o.recommended)?.type || …` label.
- `Plan`: the typed plan the fallback builds and its JSON form. A typed plan whose totals agree
  is a fixed point of the recalculation.
- `Fallback`: `generateFallbackPlan`, with `calculateCost`, the day loop as a method, and the
  rotation, title, total and travel-cost properties.
- `TripService`: `generateTripPlan`. It takes the model's plan or the fallback; its result is
  always consistent; the fallback is taken exactly when one of the named steps throws.

Two facts about the fallback plan follow from the code and are proved:

- The fallback summary's `estimatedTravelCost` is one one-way estimate, `2000 × multiplier ×
  travelers` (services/geminiService.ts:449 and 731). It is not the cost of the recommended
  outbound and return options. `Fallback.TravelIsNotLegs` proves that for any party of one or
  more the two figures differ.
- Middle-day titles follow the rotating first theme, `"<theme> & <to> Discovery"`, so they repeat
  every six days (`Fallback.TitlesRepeat`). They are not unique per day. A one-day trip's only
  day is the arrival day, not the departure day (`Fallback.TitleCases`).

## Model

| member | source | states |
|---|---|---|
| Text.ToLower | services/geminiService.ts:34 | `toLowerCase`: same length, every character mapped through the ASCII lower-case map |
| Text.Contains | services/geminiService.ts:35 | `includes`: true exactly when the needle occurs at some position |
| Text.IndexOf | services/geminiService.ts:215 | `indexOf`: -1 exactly when the character is absent, otherwise the position of its first occurrence |
| Text.LastIndexOf | services/geminiService.ts:216 | `lastIndexOf`: -1 exactly when the character is absent, otherwise the position of its last occurrence |
| Transport.ContainsSome | services/geminiService.ts:35 | `some(...)`: true exactly when one of the names occurs in the text |
| Transport.IsIslandDestination | services/geminiService.ts:31-36 | true exactly when the lower-cased location contains "andaman", "nicobar" or "lakshadweep" |
| Transport.IslandIgnoresCase | services/geminiService.ts:33-35 | the island test gives the same answer for a location and for its lower-cased form |
| Transport.PortBlairIsIsland | services/geminiService.ts:31-36 | "Port Blair, Andaman" is an island destination, matched in mixed case mid-string |
| Transport.GoaIsMainland | services/geminiService.ts:31-36 | "Goa" is not an island destination |
| Transport.IslandLegsShape | services/geminiService.ts:333-374 | one direction of an island trip: a flight at 8000 × travelers × multiplier, always recommended, then a ship or ferry at 4000 × …, recommended only in cheap mode |
| Transport.MainlandLegsShape | services/geminiService.ts:378-425 | one direction of a mainland trip: flight 4500, train 1500 and bus 800 per traveler and multiplier, each recommended in exactly its own mode |
| Transport.IslandOptions | services/geminiService.ts:324-376 | when either end is an island, both directions offer Flight and Ship/Ferry, never Train or Bus, at the same costs, with the ferry recommended only in cheap mode |
| Transport.MainlandOptions | services/geminiService.ts:378-425 | when neither end is an island, both directions offer Flight, Train and Bus at the same costs, each recommended only in its own mode |
| Transport.MainlandRecommendation | services/geminiService.ts:378-425 | on the mainland exactly one option is recommended for a known mode and none for an unknown mode, and the label is Train, Bus or Flight by mode |
| Transport.IslandRecommendation | services/geminiService.ts:324-376 | on an island trip the label is always "Flight"; two options are recommended in cheap mode, otherwise one |
| Transport.GetTransportOptions | services/geminiService.ts:317-426 | the outbound and return options have the same kinds, costs and recommendations in the same order, and a flight is always among them |
| Transport.RecommendedOr | services/geminiService.ts:740 | the kind of the FIRST recommended option when that kind is non-empty; the fallback when nothing is recommended or the first recommended kind is empty |
| Transport.RecommendedCount | services/geminiService.ts:342-351 | counts the recommended options: zero exactly when none is recommended |
| Transport.FirstRecommended | services/geminiService.ts:740 | `find(o => o.recommended)`: None exactly when nothing is recommended, otherwise the kind of the first recommended option |
| Transport.IslandRecommendedCost | services/geminiService.ts:333-353 | the recommended island legs of one direction cost 8000 × travelers × multiplier, plus 4000 × … in cheap mode |
| Transport.MainlandRecommendedCost | services/geminiService.ts:379-401 | the recommended mainland legs of one direction cost what the mode's one option costs, or 0 for an unknown mode |
| Transport.RecommendedLegCost | services/geminiService.ts:317-426 | the recommended legs cost the same in both directions, per the two cases above |
| Json.Get | services/geminiService.ts:227 | a property read gives a value exactly when the value is an object holding the key |
| Json.SetField | services/geminiService.ts:258 | a property write on an object sets that key and keeps the others; on an array it is invisible |
| Json.IntToString | services/geminiService.ts:274 | the decimal text of an integer: non-empty, a leading '-' exactly for negatives, digits otherwise |
| Json.DigitsValueOfNatToString | services/geminiService.ts:274 | the decimal text of a natural number reads back as that number |
| Json.StringToNumberOfIntToString | services/geminiService.ts:235 | `Number` of the decimal text of any integer is that integer |
| Json.CoerceNumeric | services/geminiService.ts:235 | a number, its decimal text and a one-element array of it all coerce to that number |
| Json.CoerceNonNumeric | services/geminiService.ts:235 | the empty array, the empty string and the text "abc" coerce to 0 |
| Json.Trim | services/geminiService.ts:235 | `trim`: the trimmed text is no longer than the input and neither starts nor ends with white space |
| Json.TrimIsSlice | services/geminiService.ts:235 | the trimmed text is a slice of the input with nothing but white space before and after it |
| Json.StringToNumber | services/geminiService.ts:235 | `Number` of a string: 0 for blank text; negative only when the trimmed text starts with '-' and is longer than that sign |
| Json.StringToNumberNaN | services/geminiService.ts:235 | text with a non-digit after its first character is NaN, which the coercion turns into 0 |
| Json.Coerce | services/geminiService.ts:235 | the cost coercion: a number is itself, true is 1, null, false and objects are 0, a string is `Number` of it |
| Json.Display | services/geminiService.ts:274 | the template-literal text of a value: a string is itself, and the empty array is the empty text |
| Json.DisplayReadsBack | services/geminiService.ts:235 | the text of a number reads back as that number, and a one-element array of a non-null value shows that value |
| Json.Truthy | services/geminiService.ts:241-264 | a value passes an `if (x)` test exactly when it is not null, false, 0 or the empty string |
| Extract.StripFences | services/geminiService.ts:211 | removing the code fences never lengthens the reply |
| Extract.StripLineComments | services/geminiService.ts:213 | removing the `//` comments never lengthens the text |
| Extract.DropAppend | services/geminiService.ts:211 | deleting a set of characters distributes over concatenation |
| Extract.StripFencesKeepsContent | services/geminiService.ts:211 | fence removal deletes only fence characters: every other character survives, in order |
| Extract.StripFencesNoBacktick | services/geminiService.ts:211 | a reply without backticks has no fence to remove |
| Extract.StripFencesAppend | services/geminiService.ts:211 | a backtick-free text not ending in a newline passes through fence removal whatever follows it |
| Extract.LineEnd | services/geminiService.ts:213 | the end of the current line: no line terminator before it, a terminator at it unless at the end |
| Extract.StripLineCommentsAppend | services/geminiService.ts:213 | a comment-free prefix passes through comment removal unchanged |
| Extract.StripLineCommentsLeavesNoComment | services/geminiService.ts:213 | after comment removal no "//" is left |
| Extract.StripLineCommentsIdentity | services/geminiService.ts:213 | a text without "//" is left as it is |
| Extract.StripLineCommentsIdempotent | services/geminiService.ts:213 | removing comments twice is removing them once |
| Extract.StripLineCommentsKeepsLines | services/geminiService.ts:213 | comment removal keeps every line break: `$` with the m flag stops at each line |
| Extract.Candidate | services/geminiService.ts:214-219 | None exactly when the cleaned reply lacks a `{` or a `}`; otherwise the text from the first `{` to the last `}`, empty when they are out of order |
| Extract.CandidateIsBraced | services/geminiService.ts:214-219 | a non-empty candidate starts with `{` and ends with `}` |
| Extract.ExtractJSON | services/geminiService.ts:209-220 | a value only as the parse of a non-empty candidate; for a non-empty candidate, exactly what the parser makes of it |
| Extract.BracesOfWrapped | services/geminiService.ts:214-216 | in prose + object + prose, the first `{` and the last `}` bound exactly the object |
| Extract.ProseAroundReplyIsCut | services/geminiService.ts:214-219 | prose around the object is cut off |
| Extract.FencedReplyYieldsObject | services/geminiService.ts:209-219 | an object wrapped in a ```json fence yields exactly that object |
| Extract.CandidateOfBraced | services/geminiService.ts:214-219 | a reply that cleans up to a braced text yields that text |
| Extract.CommentOnLastLine | services/geminiService.ts:211-213 | a trailing `//` comment on the last line is removed to the end of the text |
| Extract.CommentCutsClosingBrace | services/geminiService.ts:213-217 | a comment that swallows the only `}` makes the reply invalid |
| Extract.UrlInReplyIsRejected | services/geminiService.ts:213-217 | a reply containing "http://" in a string value loses its closing brace and is rejected |
| Recalculate.ActivitiesSumFails | services/geminiService.ts:232-237 | summing activities throws exactly when one activity is null |
| Recalculate.RecalcDay | services/geminiService.ts:229-259 | one day's update throws exactly when its sum throws or the day is a primitive; its value is the day's sum; an object day gets that sum as `dailyTotal`; an array day is left as it is |
| Recalculate.RecalcDays | services/geminiService.ts:227-260 | a walk over the days that does not throw returns one output per day |
| Recalculate.Recalculated | services/geminiService.ts:222-281 | the pass throws exactly on a null plan, a day that throws, or a primitive summary; a primitive plan comes back as it is |
| Recalculate.RecalcSummary | services/geminiService.ts:264-278 | the summary update throws exactly on a primitive summary; an array summary is left as it is; an object summary gets the numeric travel cost, the total as the symbol followed by the days' total plus the travel cost, and nothing else changes |
| Recalculate.RecalcDaysFails | services/geminiService.ts:227-260 | the walk over the days throws exactly when some day throws |
| Recalculate.RecalcDaysResult | services/geminiService.ts:227-260 | on success: one output per day, in order, each the recomputed day, and the grand total is the sum of the day values |
| Recalculate.RecalcDaysMeaning | services/geminiService.ts:227-260 | both of the above together |
| Recalculate.DayIgnoresDailyTotal | services/geminiService.ts:229-258 | a day's recomputed total does not depend on the `dailyTotal` it already holds |
| Recalculate.SummaryIgnoresTotal | services/geminiService.ts:264-277 | the summary update does not depend on the `estimatedTotalCost` it already holds |
| Recalculate.DayFixedPoint | services/geminiService.ts:229-259 | recomputing a day leaves it as it is exactly when the day is consistent |
| Recalculate.RecalcDayConsistent | services/geminiService.ts:229-259 | a recomputed day is consistent, keeps its value, and differs from the original in `dailyTotal` at most |
| Recalculate.RecalcDaysOfConsistent | services/geminiService.ts:227-260 | consistent days pass through the walk unchanged |
| Recalculate.RecalcDaysTwice | services/geminiService.ts:227-260 | walking the days twice is walking them once, and every output day is consistent |
| Recalculate.DaysTotalPointwise | services/geminiService.ts:259 | day lists with the same day values have the same grand total |
| Recalculate.SummaryFixedPoint | services/geminiService.ts:264-278 | the summary update leaves a summary as it is exactly when the summary is consistent |
| Recalculate.RecalcSummaryTwice | services/geminiService.ts:264-278 | an updated summary is consistent, truthy, unchanged by a second update, and differs only in the two cost fields |
| Recalculate.RecalculatedParts | services/geminiService.ts:222-281 | a successful pass on an object rewrites an array `days` with the walked days and a truthy `tripSummary` with the updated summary; a non-array `days` and a falsy `tripSummary` come back as they were, and no key is added or removed |
| Recalculate.RecalculatedIsConsistent | services/geminiService.ts:222-281 | after the pass every day total is the sum of that day's costs, and the summary total is the symbol followed by the days' sum plus the travel cost |
| Recalculate.ConsistentIffFixedPoint | services/geminiService.ts:222-281 | a plan is left unchanged by the pass exactly when it is consistent |
| Recalculate.RecalculateIdempotent | services/geminiService.ts:222-281 | running the pass twice is running it once |
| Recalculate.RecalculateChangesOnlyTotals | services/geminiService.ts:222-281 | the pass writes nothing but `dailyTotal`, `estimatedTotalCost` and `estimatedTravelCost`: other top-level keys, a non-array `days`, a falsy `tripSummary`, other day properties and other summary properties keep their values |
| Recalculate.StoredDaysTotalOfConsistent | services/geminiService.ts:258-259 | for consistent days, the stored day totals add up to the recomputed grand total |
| Recalculate.ConsistentSummaryTotal | services/geminiService.ts:264-277 | in a consistent plan the summary total is the symbol followed by the stored day totals plus the numeric travel cost |
| Recalculate.SetTravelers | services/geminiService.ts:294-296 | storing the party size throws exactly on a null plan or a truthy primitive summary; a falsy or array summary leaves the plan alone; an object summary gets `travelers`, and no other field of the plan or of the summary changes |
| Recalculate.SetTravelersRecords | services/geminiService.ts:294-296 | whenever the stored plan's summary is an object, it records the party size |
| Recalculate.SetTravelersKeepsConsistent | services/geminiService.ts:294-296 | storing the party size keeps a consistent plan consistent |
| Recalculate.SetTravelersAfterRecalculate | services/geminiService.ts:289-296 | after a successful recalculation, storing the party size cannot throw, and the plan stays consistent |
| Recalculate.SumActivities | services/geminiService.ts:232-237 | the activity loop computes the specified activity sum, or throws where it does |
| Recalculate.SumMeals | services/geminiService.ts:241-249 | the meal loop over breakfast, lunch and dinner computes the specified meal sum |
| Recalculate.AddMeals | services/geminiService.ts:241-249 | the meal block adds the specified meals total, 0 when `day.meals` is falsy |
| Recalculate.AddAccommodation | services/geminiService.ts:252-256 | the accommodation block adds the specified accommodation cost, 0 when it is falsy |
| Recalculate.ComputeDayTotal | services/geminiService.ts:229-256 | one day's loop computes the specified day sum |
| Recalculate.RecalculateDay | services/geminiService.ts:229-259 | one day's update computes the specified recomputed day |
| Recalculate.RecalcDaysStep | services/geminiService.ts:228-260 | walking one more day extends the walked prefix by that day and its total |
| Recalculate.RecalcDaysFailsAt | services/geminiService.ts:228-260 | one day that throws makes the whole walk throw |
| Recalculate.RecalculateDays | services/geminiService.ts:227-261 | the `forEach` over the days computes the specified walk |
| Recalculate.RecalculateSummary | services/geminiService.ts:264-278 | the summary update computes the specified summary |
| Recalculate.RecalculateTripCosts | services/geminiService.ts:222-281 | the whole pass computes the specified recalculated plan |
| Plan.Strings | services/geminiService.ts:750-761 | a list of tips as JSON strings, element by element |
| Plan.ActivitiesToJson | services/geminiService.ts:636-670 | the activities as JSON, element by element |
| Plan.DaysToJson | services/geminiService.ts:629-710 | the days as JSON, element by element |
| Plan.ActivitiesSumOfJson | services/geminiService.ts:232-237 | the recalculation's activity sum of a typed plan's activities is their typed sum |
| Plan.ActivityCostOfJson | services/geminiService.ts:234-235 | the coerced cost of an activity written as JSON is its cost |
| Plan.MealsSumOfJson | services/geminiService.ts:241-249 | the recalculation's meal sum of typed meals is breakfast plus lunch plus dinner |
| Plan.MealCostOfJson | services/geminiService.ts:243-245 | a meal written as JSON is truthy and its coerced cost is its cost |
| Plan.DayJsonActivities | services/geminiService.ts:232 | the activities the recalculation finds in a day written as JSON are that day's activities |
| Plan.DayJsonMeals | services/geminiService.ts:241-249 | the meal costs the recalculation adds for a day written as JSON are that day's meal costs |
| Plan.DayJsonAccommodation | services/geminiService.ts:252-256 | the accommodation cost the recalculation adds for a day written as JSON is that day's |
| Plan.DaySumOfJson | services/geminiService.ts:229-256 | the recomputed total of a typed day written as JSON is the typed day cost |
| Plan.DayJsonTotal | services/geminiService.ts:709 | a day written as JSON holds its `dailyTotal` as a number |
| Plan.DaysOfJsonConsistent | services/geminiService.ts:227-260 | typed days whose totals agree become consistent JSON days whose recomputed grand total is the sum of their totals |
| Plan.SymbolOfJson | services/geminiService.ts:265 | the symbol the recalculation reads from a typed summary written as JSON is the summary's symbol, or ₹ when it is empty |
| Plan.ToJsonParts | services/geminiService.ts:721-762 | the JSON form's days and summary are the typed days and summary written as JSON |
| Plan.SummaryJsonConsistent | services/geminiService.ts:264-278 | a typed summary whose total is right becomes a consistent JSON summary |
| Plan.AgreeingPlanIsFixedPoint | services/geminiService.ts:222-281 | a typed plan whose totals agree is consistent as JSON, and the recalculation leaves it unchanged |
| Fallback.CostMultiplier | services/geminiService.ts:438 | 4 exactly for premium, 2 exactly for balanced, and 1 for any other mode |
| Fallback.Rooms | services/geminiService.ts:457 | `Math.ceil(travelers / 2)`: enough rooms of two and never one too many |
| Fallback.CalculateCost | services/geminiService.ts:454-462 | a per-person cost is base × multiplier × travelers; an accommodation cost, paid per room of two, covers every traveler and pays for at most one empty place |
| Fallback.RoomsScale | services/geminiService.ts:457-458 | the arithmetic of the above: a non-negative unit price per room, doubled, lies between the price for each traveler and that plus one unit |
| Fallback.CostModel | services/geminiService.ts:441-483 | each activity and meal costs its base price × multiplier × travelers; the stay costs 1500 × multiplier per room of two, with just enough rooms; the day costs 1500 × multiplier × travelers + 1500 × multiplier × rooms |
| Fallback.FourTravelersBalanced | services/geminiService.ts:454-484 | four balanced travelers pay 12000 a day for activities and meals plus 6000 for two rooms |
| Fallback.TablesShape | services/geminiService.ts:486-627 | six themes of three items each, and eight meal triples |
| Fallback.ThemeKindsDistinct | services/geminiService.ts:486-607 | the six theme names are pairwise different |
| Fallback.ThemeIndicesDistinct | services/geminiService.ts:609-611 | the three theme indices of any day are three different indices below six |
| Fallback.DayThemesDiffer | services/geminiService.ts:609-611 | the three themes of any day are three different kinds |
| Fallback.ActivitiesShape | services/geminiService.ts:609-675 | a day has a morning, an afternoon and an evening activity costed by the three activity costs, which add up to the day's activity sum; day index 0 is the arrival programme, later days take each activity from the theme tables |
| Fallback.DayMealsOf | services/geminiService.ts:617-692 | breakfast, lunch and dinner cost the day's three meal costs, and all three places come from the same row of the meal table |
| Fallback.DayTitle | services/geminiService.ts:632-637 | index 0 is the arrival day, a later last index is the departure day, and every other day is named "<theme> & <to> Discovery" after some theme of the table |
| Fallback.DayFields | services/geminiService.ts:629-710 | day index `i` is day `i + 1` on its date, with the day's cost as total and the rotated title, activities and meals |
| Fallback.ActivitiesRepeat | services/geminiService.ts:609-615 | after the first day the activities repeat every six days |
| Fallback.MealsRepeat | services/geminiService.ts:617-627 | the meals repeat every eight days |
| Fallback.TitlesRepeat | services/geminiService.ts:632-637 | middle-day titles repeat every six days |
| Fallback.TitleCases | services/geminiService.ts:632-637 | index 0 is the arrival day even on a one-day trip; the last index of a longer trip is the departure day; other days are named after their first theme |
| Fallback.ContentRepeats | services/geminiService.ts:609-627 | after the first day, activities and meals repeat after lcm(6, 8) = 24 days |
| Fallback.DayRepeats | services/geminiService.ts:609-627 | days `i` and `i + 24` of the synthesised plan (`i ≥ 1`) have the same activities and meals |
| Fallback.PlanRepeatsAfter24 | services/geminiService.ts:468-710 | in the plan, every day after the first has the activities and meals of the day 24 later |
| Fallback.PlanTitles | services/geminiService.ts:632-637 | the plan's first day is the arrival day, and the last day of a trip of two or more days is the departure day |
| Fallback.DayTotalIsSum | services/geminiService.ts:483 | each day's total is the sum of its three activities, three meals and stay |
| Fallback.UnfoldTotals | services/geminiService.ts:484 | `n` days with the same total `c` add up to `n × c` |
| Fallback.DaysNumbered | services/geminiService.ts:468-710 | the plan has `numDays` days, numbered from 1, each on its own date |
| Fallback.DaysCosted | services/geminiService.ts:483-709 | every day's total is the sum of that day's costs |
| Fallback.PlanParts | services/geminiService.ts:713-762 | the plan is its days, the summary over their total, and the routes over the transport options |
| Fallback.PlanShape | services/geminiService.ts:720-762 | `numDays` days numbered in order, and a summary that repeats from, to, mode, days and travelers |
| Fallback.TravelCostIs | services/geminiService.ts:731 | the travel estimate is 2000 × multiplier × travelers |
| Fallback.DaysTotalIs | services/geminiService.ts:484 | the grand total is `numDays` times the daily cost |
| Fallback.SummaryTotals | services/geminiService.ts:729-733 | the summary total is ₹ followed by the grand total plus the travel estimate; the currency is INR |
| Fallback.PlanTotalsAgree | services/geminiService.ts:468-762 | the synthesised plan's totals agree with its costs |
| Fallback.FallbackIsFixedPoint | services/geminiService.ts:428-763 | the fallback plan as JSON is consistent, and the recalculation leaves it unchanged |
| Fallback.IslandOverview | services/geminiService.ts:735-741 | an island trip's overview names "Flight", and both route labels are "Flight" |
| Fallback.LegsAreNotTravel | services/geminiService.ts:713-733 | for any party of one or more, the recommended outbound plus return legs never cost the travel estimate |
| Fallback.PerWayIsNotHalfTravel | services/geminiService.ts:333-425 | the arithmetic of the above: twice any per-way cost differs from 2000 × multiplier × travelers |
| Fallback.TravelIsNotLegs | services/geminiService.ts:731-747 | the plan's travel estimate differs from what its own recommended legs cost |
| Fallback.OutboundRoute | services/geminiService.ts:735-741 | the outbound route lists the outbound options; its label is the first recommended outbound kind, or "Flight" when none is recommended |
| Fallback.ReturnRoute | services/geminiService.ts:742-747 | the return route lists the return options; its label is the first recommended return kind, or "Flight" when none is recommended |
| Fallback.FallbackPlan | services/geminiService.ts:428-763 | the fallback plan has `numDays` days numbered from 1, each on its own date, and its summary records the number of days and the party size |
| Fallback.SummaryOfTotal | services/geminiService.ts:729-733 | for any grand total, the summary's travel cost is 2000 × multiplier × travelers and its total is ₹ followed by the grand total plus that cost |
| Fallback.BuildDays | services/geminiService.ts:468-710 | the day loop builds exactly the specified days, and its running total is the sum of their totals |
| Fallback.GenerateFallbackPlan | services/geminiService.ts:428-763 | builds exactly the specified fallback plan |
| TripService.ModelPlan | services/geminiService.ts:283-298 | the model path yields a plan only from a non-empty reply with an extractable object, and every plan it yields is consistent |
| TripService.TripPlanFor | services/geminiService.ts:283-310 | whichever path is taken, the plan's totals agree with its costs |
| TripService.FallbackCauses | services/geminiService.ts:283-310 | the fallback is taken exactly when there is no reply, the reply is empty, no object can be extracted, or the recalculation throws |
| TripService.ModelPlanRecordsTravelers | services/geminiService.ts:294-296 | a returned object summary records the party size |
| TripService.ConsistentReplyKept | services/geminiService.ts:289-298 | an already consistent reply comes back unchanged but for the party size |
| TripService.TryModelPlan | services/geminiService.ts:283-298 | the model path computes the specified result, None where a step throws |
| TripService.GenerateTripPlan | services/geminiService.ts:283-310 | returns the specified plan, which is always consistent |

## Left out

- The request to the language model is not modelled: the client set-up, the prompt text (services/geminiService.ts:48-199), the network call, logging and environment variables. The reply is a parameter: None when the call throws, otherwise the message content.
- `JSON.parse` is a parameter (a partial function from text to JSON values). Its grammar is not modelled.
- JSON numbers are integers. Fractional costs, `NaN` produced by arithmetic, and `Infinity` are not modelled. `Number` of a string accepts optional white space, a sign and decimal digits; decimal points, exponents, hex literals and "Infinity" read as 0.
- Json.IntToString: integers are exact and unbounded. JavaScript numbers are doubles, and the party size is not validated. So a product above 2^53 loses precision in the source. A template literal prints a number of 10^21 or more in exponent form ("1e+21"). `Number` reads such text by a grammar the model leaves out. Json.Display and Json.StringToNumber cover plain decimal text only.
- White space for `trim` is the ASCII set. Lower-casing maps only A-Z.
- Objects are maps, so the order of their keys is lost.
- Each day's calendar date (`new Date(start)` plus `i` days, printed as an ISO date) is an uninterpreted function of the day index. It depends on the time zone.
- `getCurrencyData` (services/geminiService.ts:313-315) is modelled as its constant result, INR and ₹. Its `rate` is unused.
- Travelers are an integer. The defaults of 1 (routes/trip.ts:53, services/geminiService.ts:434) and its 1-30 day bound (routes/trip.ts:36) are checks made by the caller, so no operation requires them. Fractional party sizes are not modelled.
- `Math.round` is the identity here, because every product it rounds is an integer.
- The recalculation is modelled on values. The source mutates the parsed object in place and returns it; the model returns the new value. Aliasing between parts of a parsed plan cannot arise from `JSON.parse`.
- routes/trip.ts, server.ts and types/trip.ts are not part of this model.
