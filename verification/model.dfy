/** The records that flow through the three-stage "unseen spots" pipeline, and the
    replies of the external services (geocoding, nearby search, place details and
    the language model), which the pipeline consumes but does not implement. */
module Model {

  datatype Option<T> = None | Some(value: T)

  // ---------------------------------------------------------------------------
  // Stage 1: geocoding and nearby search
  // ---------------------------------------------------------------------------

  datatype Location = Location(lat: real, lng: real)

  /** Reply of the geocoder for a city name. `GeocodeError` covers a raised
      exception as well as a first result without a usable location. */
  datatype GeocodeOutcome = GeocodeError | NoMatch | Located(center: Location)

  datatype NearbyRequest = NearbyRequest(center: Location, radius: int, keyword: string, language: string)

  /** One raw nearby-search hit; `None` is a key missing from the hit. */
  datatype RawHit = RawHit(name: Option<string>, placeId: Option<string>,
                           rating: Option<real>, userRatingsTotal: Option<int>)

  /** Reply of the nearby search; `results` is `None` when the page has no
      `results` key. */
  datatype NearbyOutcome = NearbyError | NearbyPage(results: Option<seq<RawHit>>)

  /** The four fields Stage 1 copies from a kept hit. */
  datatype Candidate = Candidate(name: Option<string>, placeId: Option<string>, rating: real, reviewCount: int)

  // ---------------------------------------------------------------------------
  // Stage 2: place details and the vibe analysis
  // ---------------------------------------------------------------------------

  /** A string-valued key of a JSON reply: absent, present with `null`, or
      present with a string. */
  datatype JsonString = Missing | Null | Str(value: string)

  datatype Review = Review(text: JsonString)

  /** Reply of the place-details call: an exception, or the `reviews` list (empty
      when absent) and the `url` (`None` when absent). */
  datatype PlaceDetails = DetailsError | Details(reviews: seq<Review>, url: Option<string>)

  datatype VibeAnalysis = VibeAnalysis(adjectives: seq<string>, features: seq<string>,
                                       score: int, justification: string)

  /** What the vibe prompt carries: the spot's name, the user's vibe and the
      review text. */
  datatype VibeRequest = VibeRequest(spotName: Option<string>, vibe: string, reviews: string)

  /** Reply of a language-model call with a forced function tool: the call raised
      (transport error, no parts, ...), or the model called the function `name`
      with arguments that validate against the schema (`Some`) or not (`None`). */
  datatype ToolReply<T> = CallError | ToolCall(name: string, args: Option<T>)

  /** The structured value of a reply, kept only when the expected function was
      called with valid arguments. */
  function Accept<T>(reply: ToolReply<T>, expected: string): (r: Option<T>)
    ensures r.Some? <==> reply.ToolCall? && reply.name == expected && reply.args.Some?
    ensures r.Some? ==> reply.args == r
  {
    match reply
    case CallError => None
    case ToolCall(name, args) => if name == expected then args else None
  }

  // ---------------------------------------------------------------------------
  // A spot record, created by Stage 1 and updated in place by Stage 2
  // ---------------------------------------------------------------------------

  /** One spot dictionary. The four fields Stage 1 writes are never written
      again; `url` and `vibeAnalysis` are `None` while the key is absent. */
  class Spot {
    const name: Option<string>
    const placeId: Option<string>
    const rating: real
    const reviewCount: int
    var url: Option<string>
    var vibeAnalysis: Option<VibeAnalysis>

    constructor (c: Candidate)
      ensures Record() == c
      ensures url == None && vibeAnalysis == None
    {
      name, placeId, rating, reviewCount := c.name, c.placeId, c.rating, c.reviewCount;
      url, vibeAnalysis := None, None;
    }

    /** The fields Stage 1 wrote. */
    function Record(): Candidate {
      Candidate(name, placeId, rating, reviewCount)
    }
  }

  /** No spot object occurs twice. */
  predicate Distinct(spots: seq<Spot>) {
    forall i, j :: 0 <= i < j < |spots| ==> spots[i] != spots[j]
  }

  /** The records of a list of spots. */
  function Records(spots: seq<Spot>): (r: seq<Candidate>)
    ensures |r| == |spots|
    ensures forall i :: 0 <= i < |spots| ==> r[i] == spots[i].Record()
  {
    if spots == [] then [] else [spots[0].Record()] + Records(spots[1..])
  }

  // ---------------------------------------------------------------------------
  // Stage 3: the itinerary
  // ---------------------------------------------------------------------------

  /** The research record Stage 3 puts in the narrative prompt for one spot. */
  datatype Summary = Summary(name: Option<string>, url: string, rating: real, reviewCount: int,
                             adjectives: seq<string>, features: seq<string>, justification: string)

  datatype NarrativeRequest = NarrativeRequest(city: string, vibe: string, research: seq<Summary>)

  datatype ItinerarySpot = ItinerarySpot(placeName: string, pitch: string, mapsLink: string)

  datatype Itinerary = Itinerary(title: string, spots: seq<ItinerarySpot>)
}
