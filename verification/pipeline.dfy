/** The pipeline run behind the "Find Unseen Spots" button: check the inputs,
    then Stage 1, Stage 2 on a non-empty Stage 1 result, and Stage 3 on the top
    three of a non-empty Stage 2 result. The variant of `Run` is the state the
    run ends in, and so says which stages ran. */
module Pipeline {
  import opened Model
  import opened Discovery
  import opened VibeScoring
  import opened Narrative

  /** How many ranked spots Stage 3 narrates. */
  const TopCount: nat := 3

  datatype Run =
    | MissingInput                                 // no stage ran
    | NoUnseenSpots                                // Stage 1 only, with an empty result
    | NoVibeMatch(unseen: seq<Spot>)               // Stages 1 and 2, Stage 2 empty
    | Finished(unseen: seq<Spot>, analyzed: seq<Spot>, top: seq<Spot>,
               request: NarrativeRequest, itinerary: Option<Itinerary>)  // all three stages

  function Min(a: nat, b: nat): nat {
    if a <= b then a else b
  }

  /** One run of the pipeline; the city text is also the geocoder's input and
      the vibe text is the search keyword and the scoring target. */
  method RunPipeline(city: string, vibe: string, minRating: real, maxReviews: int,
                     geocode: string -> GeocodeOutcome,
                     nearby: NearbyRequest -> NearbyOutcome,
                     details: Option<string> -> PlaceDetails,
                     vibeModel: VibeRequest -> ToolReply<VibeAnalysis>,
                     composer: NarrativeRequest -> ToolReply<Itinerary>)
    returns (run: Run)
    ensures run.MissingInput? <==> city == [] || vibe == []
    ensures run.NoUnseenSpots? <==>
      city != [] && vibe != [] && Discover(city, vibe, maxReviews, minRating, DefaultRadius, geocode, nearby) == []
    ensures run.NoVibeMatch? || run.Finished? ==>
      && Records(run.unseen) == Discover(city, vibe, maxReviews, minRating, DefaultRadius, geocode, nearby)
      && run.unseen != [] && Distinct(run.unseen)
    ensures run.NoVibeMatch? ==> Ranked(run.unseen, vibe, details, vibeModel) == []
    ensures run.Finished? ==>
      && run.analyzed == Ranked(run.unseen, vibe, details, vibeModel)
      && run.analyzed != []
      && run.top == run.analyzed[..Min(TopCount, |run.analyzed|)]
      && (forall s :: s in run.analyzed ==> Summarizable(s))
    ensures run.Finished? ==>
      && run.request.city == city && run.request.vibe == vibe
      && |run.request.research| == |run.top|
      && (forall i :: 0 <= i < |run.top| ==> Summarizable(run.top[i]) && run.request.research[i] == SummaryOf(run.top[i]))
      && run.itinerary == Accept(composer(run.request), ItineraryToolName)
  {
    if city == [] || vibe == [] {
      return MissingInput;
    }
    var unseen := FindUnseenSpots(city, vibe, maxReviews, minRating, DefaultRadius, geocode, nearby);
    if unseen == [] {
      return NoUnseenSpots;
    }
    forall i | 0 <= i < |unseen| ensures fresh(unseen[i]) {
      assert unseen[i] in unseen;
    }
    var analyzed, _ := AnalyzeVibe(unseen, vibe, details, vibeModel);
    if analyzed == [] {
      return NoVibeMatch(unseen);
    }
    var top := analyzed[..Min(TopCount, |analyzed|)];
    var itinerary, request := GenerateNarrative(top, city, vibe, composer);
    return Finished(unseen, analyzed, top, request.value, itinerary);
  }
}
