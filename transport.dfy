/** The transport options of the synthesised plan: a decision table keyed on the budget mode
    and on whether either endpoint names an island territory. */
module Transport {
  import opened Wrappers
  import opened Text

  /** Lower-case names whose presence in a place name marks it as an island territory. */
  const Islands: seq<string> := ["andaman", "nicobar", "lakshadweep"]

  const Flight: string := "Flight"
  const Ferry: string := "Ship/Ferry"
  const Train: string := "Train"
  const Bus: string := "Bus"

  const Cheap: string := "cheap"
  const Balanced: string := "balanced"
  const Premium: string := "premium"

  /** Whether some name of `names` occurs in `s` (`names.some(n => s.includes(n))`). */
  function ContainsSome(s: string, names: seq<string>): (r: bool)
    ensures r <==> exists k :: 0 <= k < |names| && Contains(s, names[k])
  {
    if |names| == 0 then false
    else ContainsSome(s, names[..|names| - 1]) || Contains(s, names[|names| - 1])
  }

  /** A place is an island territory when its lower-cased name contains one of `Islands`. */
  function IsIslandDestination(location: string): (r: bool)
    ensures r <==> exists k :: 0 <= k < |Islands| && Contains(ToLower(location), Islands[k])
  {
    ContainsSome(ToLower(location), Islands)
  }

  /** The island test ignores letter case. */
  lemma IslandIgnoresCase(location: string)
    ensures IsIslandDestination(ToLower(location)) == IsIslandDestination(location)
  {
    ToLowerIdempotent(location);
  }

  /** One travel option of a route. */
  datatype TravelOption = TravelOption(kind: string, estimatedCost: int, duration: string, details: string, recommended: bool)

  /** The options for the outbound journey and for the journey back. */
  datatype TransportOptions = TransportOptions(outbound: seq<TravelOption>, inbound: seq<TravelOption>)

  // Fixed wording of the option details.
  const AndamanShipOut: string := "Passenger ship from Chennai/Kolkata to Port Blair. Sails 3-4 times per month. Book in advance."
  const AndamanShipBack: string := "Passenger ship from Port Blair to Chennai/Kolkata. Sails 3-4 times per month."
  const FerryCheck: string := "Check ferry availability and schedules."
  const TrainDetails: string := "Express Train (Sleeper/3AC Class). Affordable and scenic."
  const BusDetails: string := "Intercity AC Sleeper/Volvo Bus. Most budget-friendly."

  /** The details of an island flight from `origin` to `destination`. */
  function IslandFlightDetails(origin: string, destination: string, isAndaman: bool): string
  {
    if isAndaman then "Direct flight from " + origin + " to " + destination + " (Air India/IndiGo). Limited daily flights."
    else "Flight from " + origin + " to " + destination + ". Check availability."
  }

  /** The island legs of one direction, from `origin` to `destination`. */
  function IslandLegs(origin: string, destination: string, outward: bool, isAndaman: bool, mode: string, travelers: int, multiplier: int): seq<TravelOption>
  {
    [ TravelOption(Flight, 8000 * travelers * multiplier, "2-4 hours", IslandFlightDetails(origin, destination, isAndaman), true),
      TravelOption(Ferry, 4000 * travelers * multiplier, if isAndaman then "50-60 hours" else "Variable",
        if !isAndaman then FerryCheck else if outward then AndamanShipOut else AndamanShipBack,
        mode == Cheap) ]
  }

  /** The details of a mainland flight from `origin` to `destination`. */
  function MainlandFlightDetails(origin: string, destination: string): string
  {
    "Domestic flight from " + origin + " to " + destination + " (Indigo/Air India)"
  }

  /** The mainland legs of one direction, from `origin` to `destination`. */
  function MainlandLegs(origin: string, destination: string, mode: string, travelers: int, multiplier: int): seq<TravelOption>
  {
    [ TravelOption(Flight, 4500 * travelers * multiplier, "2-3 hours", MainlandFlightDetails(origin, destination), mode == Premium),
      TravelOption(Train, 1500 * travelers * multiplier, "14-22 hours", TrainDetails, mode == Balanced),
      TravelOption(Bus, 800 * travelers * multiplier, "16-24 hours", BusDetails, mode == Cheap) ]
  }

  /** Whether either endpoint names the Andaman islands, which selects the ship timetable. */
  predicate MentionsAndaman(from: string, to: string)
  {
    Contains(ToLower(to), Islands[0]) || Contains(ToLower(from), Islands[0])
  }

  /** `getTransportOptions`: island legs when either endpoint is an island territory, mainland
      legs otherwise. Costs are whole rupees, so `Math.round` leaves them as they are. */
  function GetTransportOptions(from: string, to: string, mode: string, travelers: int, multiplier: int): (r: TransportOptions)
    ensures Kinds(r.outbound) == Kinds(r.inbound)
    ensures Costs(r.outbound) == Costs(r.inbound)
    ensures Flags(r.outbound) == Flags(r.inbound)
    ensures Flight in Kinds(r.outbound)
  {
    if IsIslandDestination(to) || IsIslandDestination(from) then
      var isAndaman := MentionsAndaman(from, to);
      IslandLegsShape(from, to, true, isAndaman, mode, travelers, multiplier);
      IslandLegsShape(to, from, false, isAndaman, mode, travelers, multiplier);
      TransportOptions(IslandLegs(from, to, true, isAndaman, mode, travelers, multiplier),
                       IslandLegs(to, from, false, isAndaman, mode, travelers, multiplier))
    else
      MainlandLegsShape(from, to, mode, travelers, multiplier);
      MainlandLegsShape(to, from, mode, travelers, multiplier);
      TransportOptions(MainlandLegs(from, to, mode, travelers, multiplier),
                       MainlandLegs(to, from, mode, travelers, multiplier))
  }

  /** The kinds of a list of options, in order. */
  function Kinds(options: seq<TravelOption>): (r: seq<string>)
    ensures |r| == |options|
    ensures forall k :: 0 <= k < |options| ==> r[k] == options[k].kind
  {
    seq(|options|, k requires 0 <= k < |options| => options[k].kind)
  }

  /** The costs of a list of options, in order. */
  function Costs(options: seq<TravelOption>): (r: seq<int>)
    ensures |r| == |options|
    ensures forall k :: 0 <= k < |options| ==> r[k] == options[k].estimatedCost
  {
    seq(|options|, k requires 0 <= k < |options| => options[k].estimatedCost)
  }

  /** The recommended flags of a list of options, in order. */
  function Flags(options: seq<TravelOption>): (r: seq<bool>)
    ensures |r| == |options|
    ensures forall k :: 0 <= k < |options| ==> r[k] == options[k].recommended
  {
    seq(|options|, k requires 0 <= k < |options| => options[k].recommended)
  }

  /** How many options are recommended. */
  function RecommendedCount(options: seq<TravelOption>): (r: nat)
    ensures r <= |options|
    ensures r == 0 <==> forall k :: 0 <= k < |options| ==> !options[k].recommended
  {
    if |options| == 0 then 0
    else RecommendedCount(options[..|options| - 1]) + (if options[|options| - 1].recommended then 1 else 0)
  }

  /** The kind of the first recommended option (`options.find(o => o.recommended)?.type`). */
  function FirstRecommended(options: seq<TravelOption>): (r: Option<string>)
    ensures r.None? <==> forall k :: 0 <= k < |options| ==> !options[k].recommended
    ensures r.Some? ==> exists k :: 0 <= k < |options| && options[k].recommended && options[k].kind == r.value &&
                                    forall j :: 0 <= j < k ==> !options[j].recommended
  {
    if |options| == 0 then None
    else if options[0].recommended then Some(options[0].kind)
    else
      var rest := FirstRecommended(options[1..]);
      assert forall k :: 1 <= k < |options| ==> options[1..][k - 1] == options[k];
      rest
  }

  /** `options.find(o => o.recommended)?.type || fallback`: the first recommended kind, or
      `fallback` when none is recommended (or its kind is empty). */
  function RecommendedOr(options: seq<TravelOption>, fallback: string): (r: string)
    ensures r == fallback || exists k :: 0 <= k < |options| && options[k].recommended && options[k].kind == r
    ensures (forall k :: 0 <= k < |options| ==> !options[k].recommended) ==> r == fallback
    ensures FirstRecommended(options).Some? && FirstRecommended(options).value != "" ==> r == FirstRecommended(options).value
    ensures FirstRecommended(options).Some? && FirstRecommended(options).value == "" ==> r == fallback
  {
    match FirstRecommended(options)
    case Some(kind) => if kind == "" then fallback else kind
    case None => fallback
  }

  /** A route's `transportation` label: the first recommended kind, or "Flight". */
  function Transportation(options: seq<TravelOption>): string
  {
    RecommendedOr(options, Flight)
  }

  /** The summed costs of the recommended options. */
  function RecommendedCost(options: seq<TravelOption>): int
  {
    if |options| == 0 then 0
    else RecommendedCost(options[..|options| - 1]) + (if options[|options| - 1].recommended then options[|options| - 1].estimatedCost else 0)
  }

  /** The island legs in either direction: a flight, then a ship. */
  lemma IslandLegsShape(origin: string, destination: string, outward: bool, isAndaman: bool, mode: string, travelers: int, multiplier: int)
    ensures var legs := IslandLegs(origin, destination, outward, isAndaman, mode, travelers, multiplier);
      && Kinds(legs) == [Flight, Ferry]
      && Costs(legs) == [8000 * travelers * multiplier, 4000 * travelers * multiplier]
      && Flags(legs) == [true, mode == Cheap]
  {
  }

  /** The mainland legs in either direction: a flight, a train, then a bus. */
  lemma MainlandLegsShape(origin: string, destination: string, mode: string, travelers: int, multiplier: int)
    ensures var legs := MainlandLegs(origin, destination, mode, travelers, multiplier);
      && Kinds(legs) == [Flight, Train, Bus]
      && Costs(legs) == [4500 * travelers * multiplier, 1500 * travelers * multiplier, 800 * travelers * multiplier]
      && Flags(legs) == [mode == Premium, mode == Balanced, mode == Cheap]
  {
  }

  /** An island trip offers a flight and a ship in each direction and never a train or bus;
      the flight is always recommended, the ship only in cheap mode. */
  lemma IslandOptions(from: string, to: string, mode: string, travelers: int, multiplier: int)
    requires IsIslandDestination(to) || IsIslandDestination(from)
    ensures var t := GetTransportOptions(from, to, mode, travelers, multiplier);
      && Kinds(t.outbound) == Kinds(t.inbound) == [Flight, Ferry]
      && Train !in Kinds(t.outbound) && Bus !in Kinds(t.outbound)
      && Costs(t.outbound) == Costs(t.inbound) == [8000 * travelers * multiplier, 4000 * travelers * multiplier]
      && Flags(t.outbound) == Flags(t.inbound) == [true, mode == Cheap]
  {
    var isAndaman := MentionsAndaman(from, to);
    IslandLegsShape(from, to, true, isAndaman, mode, travelers, multiplier);
    IslandLegsShape(to, from, false, isAndaman, mode, travelers, multiplier);
  }

  /** A mainland trip offers a flight, a train and a bus in each direction at the same costs. */
  lemma MainlandOptions(from: string, to: string, mode: string, travelers: int, multiplier: int)
    requires !IsIslandDestination(to) && !IsIslandDestination(from)
    ensures var t := GetTransportOptions(from, to, mode, travelers, multiplier);
      && Kinds(t.outbound) == Kinds(t.inbound) == [Flight, Train, Bus]
      && Costs(t.outbound) == Costs(t.inbound) ==
           [4500 * travelers * multiplier, 1500 * travelers * multiplier, 800 * travelers * multiplier]
      && Flags(t.outbound) == Flags(t.inbound) == [mode == Premium, mode == Balanced, mode == Cheap]
  {
    MainlandLegsShape(from, to, mode, travelers, multiplier);
    MainlandLegsShape(to, from, mode, travelers, multiplier);
  }

  /** On the mainland exactly one option is recommended in each direction for a known mode
      (premium: flight, balanced: train, cheap: bus), and none for any other mode, whose label
      then falls back to "Flight". */
  lemma MainlandRecommendation(from: string, to: string, mode: string, travelers: int, multiplier: int)
    requires !IsIslandDestination(to) && !IsIslandDestination(from)
    ensures var t := GetTransportOptions(from, to, mode, travelers, multiplier);
      && (mode in {Cheap, Balanced, Premium} ==> RecommendedCount(t.outbound) == RecommendedCount(t.inbound) == 1)
      && (mode !in {Cheap, Balanced, Premium} ==> RecommendedCount(t.outbound) == RecommendedCount(t.inbound) == 0)
      && Transportation(t.outbound) == Transportation(t.inbound) ==
           (if mode == Balanced then Train else if mode == Cheap then Bus else Flight)
  {
    var t := GetTransportOptions(from, to, mode, travelers, multiplier);
    assert t.outbound[1..][1..] == [t.outbound[2]];
    assert t.inbound[1..][1..] == [t.inbound[2]];
    assert t.outbound[..2][..1] == [t.outbound[0]];
    assert t.inbound[..2][..1] == [t.inbound[0]];
  }

  /** On an island trip the flight is recommended, so the label is always "Flight", and in
      cheap mode two options are recommended. */
  lemma IslandRecommendation(from: string, to: string, mode: string, travelers: int, multiplier: int)
    requires IsIslandDestination(to) || IsIslandDestination(from)
    ensures var t := GetTransportOptions(from, to, mode, travelers, multiplier);
      && Transportation(t.outbound) == Transportation(t.inbound) == Flight
      && RecommendedCount(t.outbound) == RecommendedCount(t.inbound) == (if mode == Cheap then 2 else 1)
  {
    var t := GetTransportOptions(from, to, mode, travelers, multiplier);
    assert t.outbound[..1] == [t.outbound[0]];
    assert t.inbound[..1] == [t.inbound[0]];
  }

  /** A place named in mixed case is recognised, wherever the island name appears in it. */
  lemma PortBlairIsIsland()
    ensures IsIslandDestination("Port Blair, Andaman")
  {
    var loc := ToLower("Port Blair, Andaman");
    assert loc[12..19] == Islands[0];
    assert OccursAt(loc, Islands[0], 12);
  }

  /** A place too short to hold any island name is on the mainland. */
  lemma GoaIsMainland()
    ensures !IsIslandDestination("Goa")
  {
  }

  /** The recommended island legs of one direction: the flight, plus the ship in cheap mode. */
  lemma IslandRecommendedCost(origin: string, destination: string, outward: bool, isAndaman: bool, mode: string, travelers: int, multiplier: int)
    ensures RecommendedCost(IslandLegs(origin, destination, outward, isAndaman, mode, travelers, multiplier)) ==
      8000 * travelers * multiplier + (if mode == Cheap then 4000 * travelers * multiplier else 0)
  {
    var legs := IslandLegs(origin, destination, outward, isAndaman, mode, travelers, multiplier);
    assert legs[..1] == [legs[0]] && [legs[0]][..0] == [];
    assert RecommendedCost([legs[0]]) == legs[0].estimatedCost;
  }

  /** The recommended mainland legs of one direction: the one leg the mode selects, or none. */
  lemma MainlandRecommendedCost(origin: string, destination: string, mode: string, travelers: int, multiplier: int)
    ensures RecommendedCost(MainlandLegs(origin, destination, mode, travelers, multiplier)) ==
      if mode == Premium then 4500 * travelers * multiplier
      else if mode == Balanced then 1500 * travelers * multiplier
      else if mode == Cheap then 800 * travelers * multiplier
      else 0
  {
    var legs := MainlandLegs(origin, destination, mode, travelers, multiplier);
    assert legs[..2] == [legs[0], legs[1]] && [legs[0], legs[1]][..1] == [legs[0]] && [legs[0]][..0] == [];
    assert RecommendedCost([legs[0]]) == if legs[0].recommended then legs[0].estimatedCost else 0;
    assert RecommendedCost([legs[0], legs[1]]) == RecommendedCost([legs[0]]) + if legs[1].recommended then legs[1].estimatedCost else 0;
  }

  /** The recommended legs of a trip cost the same in both directions: on an island the
      flight, plus the ship in cheap mode; on the mainland the one leg the mode selects, or
      nothing for an unknown mode. */
  lemma RecommendedLegCost(from: string, to: string, mode: string, travelers: int, multiplier: int)
    ensures var t := GetTransportOptions(from, to, mode, travelers, multiplier);
      var perWay :=
        if IsIslandDestination(to) || IsIslandDestination(from) then
          8000 * travelers * multiplier + (if mode == Cheap then 4000 * travelers * multiplier else 0)
        else if mode == Premium then 4500 * travelers * multiplier
        else if mode == Balanced then 1500 * travelers * multiplier
        else if mode == Cheap then 800 * travelers * multiplier
        else 0;
      RecommendedCost(t.outbound) == RecommendedCost(t.inbound) == perWay
  {
    var isAndaman := MentionsAndaman(from, to);
    IslandRecommendedCost(from, to, true, isAndaman, mode, travelers, multiplier);
    IslandRecommendedCost(to, from, false, isAndaman, mode, travelers, multiplier);
    MainlandRecommendedCost(from, to, mode, travelers, multiplier);
    MainlandRecommendedCost(to, from, mode, travelers, multiplier);
  }
}
