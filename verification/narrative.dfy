/** Stage 3 (`agent3_generate_narrative`): summarise the top-ranked spots and ask
    the language model, in one call, for an itinerary title and a pitch per spot. */
module Narrative {
  import opened Model

  /** The only function the narrative model may call. */
  const ItineraryToolName: string := "generate_itinerary"

  /** A spot Stage 3 can summarise: its `url` and `vibeAnalysis` keys are present
      (the summary looks both up without a default, so a missing key raises). */
  predicate Summarizable(s: Spot)
    reads s
  {
    s.url.Some? && s.vibeAnalysis.Some?
  }

  /** The research record for one spot: its identity, statistics and analysis,
      without the score. */
  function SummaryOf(s: Spot): Summary
    reads s
    requires Summarizable(s)
  {
    var a := s.vibeAnalysis.value;
    Summary(s.name, s.url.value, s.rating, s.reviewCount, a.adjectives, a.features, a.justification)
  }

  /** One summary per spot, in the spots' order. */
  method BuildSummaries(top: seq<Spot>) returns (research: seq<Summary>)
    requires forall s :: s in top ==> Summarizable(s)
    ensures |research| == |top|
    ensures forall i :: 0 <= i < |top| ==> research[i] == SummaryOf(top[i])
  {
    research := [];
    for i := 0 to |top|
      invariant |research| == i
      invariant forall k :: 0 <= k < i ==> research[k] == SummaryOf(top[k])
    {
      var spot := top[i];
      research := research + [SummaryOf(spot)];
    }
  }

  /** Stage 3. An empty list gives no itinerary and no model call; otherwise one
      call carries one summary per spot, and the itinerary is kept only when the
      model called `generate_itinerary` with valid arguments. */
  method GenerateNarrative(top: seq<Spot>, city: string, vibe: string,
                           composer: NarrativeRequest -> ToolReply<Itinerary>)
    returns (itinerary: Option<Itinerary>, request: Option<NarrativeRequest>)
    requires forall s :: s in top ==> Summarizable(s)
    ensures request.None? <==> top == []
    ensures request.Some? ==>
      && request.value.city == city && request.value.vibe == vibe
      && |request.value.research| == |top|
      && forall i :: 0 <= i < |top| ==> request.value.research[i] == SummaryOf(top[i])
    ensures request.None? ==> itinerary.None?
    ensures request.Some? ==> itinerary == Accept(composer(request.value), ItineraryToolName)
  {
    if top == [] {
      return None, None;
    }
    var research := BuildSummaries(top);
    request := Some(NarrativeRequest(city, vibe, research));
    var reply := composer(request.value);
    if reply.ToolCall? && reply.name == ItineraryToolName {
      itinerary := reply.args;
    } else {
      itinerary := None;
    }
  }
}
