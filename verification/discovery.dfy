/** Stage 1 (`agent1_find_unseen_spots`): find places near the city centre that
    match the keyword and keep only the "unseen" ones: rated at least the minimum
    and with at least one and at most the maximum number of reviews. */
module Discovery {
  import opened Model

  /** Search radius, in metres, when the caller gives none. */
  const DefaultRadius: int := 3000
  /** Language requested from the nearby search. */
  const SearchLanguage: string := "en"

  /** The hits the filter walks: none when geocoding finds nothing or fails, or
      when the nearby search fails; an empty list when the page has no results. */
  function SearchHits(city: string, query: string, radius: int,
                      geocode: string -> GeocodeOutcome,
                      nearby: NearbyRequest -> NearbyOutcome): seq<RawHit>
  {
    match geocode(city)
    case GeocodeError => []
    case NoMatch => []
    case Located(center) =>
      match nearby(NearbyRequest(center, radius, query, SearchLanguage))
      case NearbyError => []
      case NearbyPage(results) => if results.Some? then results.value else []
  }

  /** The hit's rating, 0 when missing. */
  function RatingOf(hit: RawHit): real {
    if hit.rating.Some? then hit.rating.value else 0.0
  }

  /** The hit's number of ratings, 0 when missing. */
  function ReviewCountOf(hit: RawHit): int {
    if hit.userRatingsTotal.Some? then hit.userRatingsTotal.value else 0
  }

  /** The inverse filter: highly rated, yet with few (but some) reviews. */
  predicate Keep(hit: RawHit, minRating: real, maxReviews: int) {
    RatingOf(hit) >= minRating && ReviewCountOf(hit) <= maxReviews && ReviewCountOf(hit) > 0
  }

  /** The record Stage 1 builds from a kept hit. */
  function CandidateOf(hit: RawHit): Candidate {
    Candidate(hit.name, hit.placeId, RatingOf(hit), ReviewCountOf(hit))
  }

  /** The records of the kept hits, in the order of the hits. */
  function InverseFilter(hits: seq<RawHit>, minRating: real, maxReviews: int): seq<Candidate> {
    if hits == [] then []
    else
      var last := hits[|hits| - 1];
      InverseFilter(hits[..|hits| - 1], minRating, maxReviews)
        + (if Keep(last, minRating, maxReviews) then [CandidateOf(last)] else [])
  }

  /** The positions of the kept hits, in increasing order. */
  function KeptIndices(hits: seq<RawHit>, minRating: real, maxReviews: int): seq<nat> {
    if hits == [] then []
    else
      KeptIndices(hits[..|hits| - 1], minRating, maxReviews)
        + (if Keep(hits[|hits| - 1], minRating, maxReviews) then [|hits| - 1] else [])
  }

  /** Stage 1's whole result, as records. */
  function Discover(city: string, query: string, maxReviews: int, minRating: real, radius: int,
                    geocode: string -> GeocodeOutcome,
                    nearby: NearbyRequest -> NearbyOutcome): seq<Candidate>
  {
    InverseFilter(SearchHits(city, query, radius, geocode, nearby), minRating, maxReviews)
  }

  /** The kept positions are exactly the positions of hits that pass the filter,
      listed once each in increasing order. */
  lemma {:induction false} KeptIndicesExact(hits: seq<RawHit>, minRating: real, maxReviews: int)
    ensures var ks := KeptIndices(hits, minRating, maxReviews);
      && (forall k :: 0 <= k < |ks| ==> ks[k] < |hits|)
      && (forall k, l :: 0 <= k < l < |ks| ==> ks[k] < ks[l])
      && (forall i :: 0 <= i < |hits| ==> (i in ks <==> Keep(hits[i], minRating, maxReviews)))
  {
    if hits != [] {
      var init := hits[..|hits| - 1];
      KeptIndicesExact(init, minRating, maxReviews);
      forall i | 0 <= i < |init| ensures hits[i] == init[i] { }
    }
  }

  /** The filter's output lists, in order, the records of the hits at the kept
      positions. */
  lemma {:induction false} InverseFilterAtKept(hits: seq<RawHit>, minRating: real, maxReviews: int)
    ensures var out, ks := InverseFilter(hits, minRating, maxReviews), KeptIndices(hits, minRating, maxReviews);
      && |out| == |ks|
      && (forall k :: 0 <= k < |ks| ==> ks[k] < |hits| && out[k] == CandidateOf(hits[ks[k]]))
  {
    KeptIndicesExact(hits, minRating, maxReviews);
    if hits != [] {
      var init := hits[..|hits| - 1];
      InverseFilterAtKept(init, minRating, maxReviews);
      KeptIndicesExact(init, minRating, maxReviews);
      forall i | 0 <= i < |init| ensures hits[i] == init[i] { }
    }
  }

  /** A hit yields a record if and only if it passes the filter; every record
      satisfies the filter and copies its hit's fields. */
  lemma {:induction false} InverseFilterMembership(hits: seq<RawHit>, minRating: real, maxReviews: int)
    ensures forall i :: 0 <= i < |hits| && Keep(hits[i], minRating, maxReviews) ==>
      CandidateOf(hits[i]) in InverseFilter(hits, minRating, maxReviews)
    ensures forall c :: c in InverseFilter(hits, minRating, maxReviews) ==>
      && c.rating >= minRating && 0 < c.reviewCount <= maxReviews
      && exists i :: 0 <= i < |hits| && Keep(hits[i], minRating, maxReviews) && c == CandidateOf(hits[i])
  {
    var out, ks := InverseFilter(hits, minRating, maxReviews), KeptIndices(hits, minRating, maxReviews);
    KeptIndicesExact(hits, minRating, maxReviews);
    InverseFilterAtKept(hits, minRating, maxReviews);
    forall i | 0 <= i < |hits| && Keep(hits[i], minRating, maxReviews) ensures CandidateOf(hits[i]) in out {
      var k :| 0 <= k < |ks| && ks[k] == i;
      assert out[k] == CandidateOf(hits[i]);
    }
    forall c | c in out
      ensures exists i :: 0 <= i < |hits| && Keep(hits[i], minRating, maxReviews) && c == CandidateOf(hits[i])
    {
      var k :| 0 <= k < |out| && out[k] == c;
      assert ks[k] in ks;
    }
  }

  /** A hit without a number of ratings is never kept. */
  lemma MissingCountNeverKept(hit: RawHit, minRating: real, maxReviews: int)
    requires hit.userRatingsTotal == None
    ensures !Keep(hit, minRating, maxReviews)
  { }

  /** No geocoding match, a geocoding error or a search error yields no spots. */
  lemma SearchFailureYieldsNothing(city: string, query: string, maxReviews: int, minRating: real, radius: int,
                                   geocode: string -> GeocodeOutcome,
                                   nearby: NearbyRequest -> NearbyOutcome)
    requires !geocode(city).Located?
          || nearby(NearbyRequest(geocode(city).center, radius, query, SearchLanguage)).NearbyError?
    ensures Discover(city, query, maxReviews, minRating, radius, geocode, nearby) == []
  { }

  /** Stage 1: geocode the city, search around its centre and build one fresh
      spot record per hit that passes the inverse filter, in the hits' order. */
  method FindUnseenSpots(city: string, query: string, maxReviews: int, minRating: real, radius: int,
                         geocode: string -> GeocodeOutcome,
                         nearby: NearbyRequest -> NearbyOutcome)
    returns (spots: seq<Spot>)
    ensures Records(spots) == Discover(city, query, maxReviews, minRating, radius, geocode, nearby)
    ensures Distinct(spots)
    ensures forall s :: s in spots ==> fresh(s) && s.url == None && s.vibeAnalysis == None
  {
    var located := geocode(city);
    if !located.Located? {
      return [];
    }
    var page := nearby(NearbyRequest(located.center, radius, query, SearchLanguage));
    if page.NearbyError? {
      return [];
    }
    var hits := if page.results.Some? then page.results.value else [];
    assert hits == SearchHits(city, query, radius, geocode, nearby);
    spots := [];
    for i := 0 to |hits|
      invariant Records(spots) == InverseFilter(hits[..i], minRating, maxReviews)
      invariant Distinct(spots)
      invariant forall s :: s in spots ==> fresh(s) && s.url == None && s.vibeAnalysis == None
    {
      var hit := hits[i];
      var rating := RatingOf(hit);
      var reviewCount := ReviewCountOf(hit);
      if rating >= minRating && reviewCount <= maxReviews && reviewCount > 0 {
        var spot := new Spot(Candidate(hit.name, hit.placeId, rating, reviewCount));
        spots := spots + [spot];
      }
      assert hits[..i + 1][..i] == hits[..i];
    }
    assert hits[..|hits|] == hits;
  }
}
