/**
  `generateTripPlan`: ask the model for a plan, clean up its reply, recompute the costs and
  record the party size; if any of that throws, synthesise the fallback plan instead.

  The network request is not modelled: its outcome is the parameter `reply`, None when the
  request throws and otherwise the message content. `JSON.parse` is the parameter `parse`
  and the calendar dates of the fallback days are the parameter `dates`.
*/
module TripService {
  import opened Wrappers
  import opened Json
  import opened Extract
  import opened Recalculate
  import opened Plan
  import opened Fallback

  /** What the model path of `generateTripPlan` returns, or None when one of its steps throws:
      no reply, an empty reply, no parsable object in it, a recalculation that reads through
      null, or a travelers count that cannot be stored. */
  function ModelPlan(travelers: int, reply: Option<string>, parse: string -> Option<Json>): (r: Option<Json>)
    ensures r.Some? ==> reply.Some? && reply.value != "" && ExtractJSON(reply.value, parse).Some?
    ensures r.Some? ==> Consistent(r.value)
  {
    match reply
    case None => None
    case Some(text) =>
      if text == "" then None
      else
        match ExtractJSON(text, parse)
        case None => None
        case Some(plan) =>
          match Recalculated(plan)
          case None => None
          case Some(fixed) =>
            SetTravelersAfterRecalculate(plan, travelers);
            SetTravelers(fixed, travelers)
  }

  /** The plan `generateTripPlan` resolves to. */
  function TripPlanFor(p: TripParams, reply: Option<string>, parse: string -> Option<Json>, dates: nat -> string): (r: Json)
    ensures Consistent(r)
  {
    match ModelPlan(p.travelers, reply, parse)
    case Some(plan) => plan
    case None =>
      FallbackIsFixedPoint(p, dates);
      ToJson(FallbackPlan(p, dates))
  }

  /** The fallback is taken exactly when there is no reply, the reply is empty, no object can
      be extracted from it, or recalculating the extracted plan throws: once the costs have
      been recalculated, recording the party size never fails. */
  lemma FallbackCauses(travelers: int, reply: Option<string>, parse: string -> Option<Json>)
    ensures ModelPlan(travelers, reply, parse).None? <==>
      || reply.None?
      || reply.value == ""
      || ExtractJSON(reply.value, parse).None?
      || Recalculated(ExtractJSON(reply.value, parse).value).None?
  {
    if reply.Some? && reply.value != "" {
      var extracted := ExtractJSON(reply.value, parse);
      if extracted.Some? && Recalculated(extracted.value).Some? {
        SetTravelersAfterRecalculate(extracted.value, travelers);
      }
    }
  }

  /** When the returned plan has an object summary, that summary records the party size. */
  lemma ModelPlanRecordsTravelers(travelers: int, reply: Option<string>, parse: string -> Option<Json>)
    requires ModelPlan(travelers, reply, parse).Some?
    ensures var r := ModelPlan(travelers, reply, parse).value;
      r.JObj? && "tripSummary" in r.fields && r.fields["tripSummary"].JObj? ==>
        Get(r.fields["tripSummary"], "travelers") == Some(JNum(travelers))
  {
    var fixed := Recalculated(ExtractJSON(reply.value, parse).value).value;
    assert ModelPlan(travelers, reply, parse) == SetTravelers(fixed, travelers);
    SetTravelersRecords(fixed, travelers);
  }

  /** A reply whose object is already consistent comes back unchanged but for the party size. */
  lemma ConsistentReplyKept(travelers: int, reply: Option<string>, parse: string -> Option<Json>)
    requires reply.Some? && reply.value != ""
    requires ExtractJSON(reply.value, parse).Some? && Consistent(ExtractJSON(reply.value, parse).value)
    ensures ModelPlan(travelers, reply, parse) == SetTravelers(ExtractJSON(reply.value, parse).value, travelers)
    ensures ModelPlan(travelers, reply, parse).Some?
  {
    var plan := ExtractJSON(reply.value, parse).value;
    ConsistentIffFixedPoint(plan);
    SetTravelersAfterRecalculate(plan, travelers);
  }

  /** The model path of `generateTripPlan`: None where a step throws. */
  method TryModelPlan(travelers: int, reply: Option<string>, parse: string -> Option<Json>) returns (plan: Option<Json>)
    ensures plan == ModelPlan(travelers, reply, parse)
  {
    plan := None;
    if reply.Some? && reply.value != "" {
      var extracted := ExtractJSON(reply.value, parse);
      if extracted.Some? {
        var fixed := RecalculateTripCosts(extracted.value);
        if fixed.Some? {
          plan := SetTravelers(fixed.value, travelers);
        }
      }
    }
  }

  /** `generateTripPlan`: the model's plan, or the fallback plan when any step of the model
      path throws. */
  method GenerateTripPlan(p: TripParams, reply: Option<string>, parse: string -> Option<Json>, dates: nat -> string)
    returns (r: Json)
    ensures r == TripPlanFor(p, reply, parse, dates)
    ensures Consistent(r)
  {
    var plan := TryModelPlan(p.travelers, reply, parse);
    if plan.Some? {
      r := plan.value;
    } else {
      var fallback := GenerateFallbackPlan(p, dates);
      r := ToJson(fallback);
    }
  }
}
