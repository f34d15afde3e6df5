/** Stage 2 (`agent2_analyze_vibe`): for every candidate spot, fetch its reviews
    and map URL, ask the language model to score the reviews against the user's
    vibe, keep the spots it scored, and rank them by score, highest first.

    A failure on one spot (a detail fetch that raises, no reviews, a review text
    that is `null`, a model call that raises or names another function,
    arguments that do not validate) skips that spot and nothing else. */
module VibeScoring {
  import opened Model
  import opened Ranking
  import opened Reviews

  /** The only function the vibe model may call. */
  const AnalyzeToolName: string := "analyze_spot_vibe"

  /** How one spot fares in Stage 2. */
  datatype Assessment =
    | FetchFailed
    | NoReviews(url: string)
    | Unjoinable(url: string)
    | Rejected(url: string)
    | Analyzed(url: string, analysis: VibeAnalysis)

  /** The map URL written into the spot: "" when the details carry none. */
  function UrlOrDefault(url: Option<string>): string {
    if url.Some? then url.value else ""
  }

  /** The prompt for a spot whose details carry reviews. */
  function VibePrompt(spot: Spot, vibe: string, reviews: seq<Review>): VibeRequest
    requires Joinable(reviews)
  {
    VibeRequest(spot.name, vibe, ReviewText(reviews))
  }

  /** The model call made for a spot, if any. */
  function PromptFor(spot: Spot, vibe: string, details: Option<string> -> PlaceDetails): Option<VibeRequest> {
    match details(spot.placeId)
    case DetailsError => None
    case Details(reviews, _) =>
      if reviews == [] || !Joinable(reviews) then None else Some(VibePrompt(spot, vibe, reviews))
  }

  function Assess(spot: Spot, vibe: string, details: Option<string> -> PlaceDetails,
                  model: VibeRequest -> ToolReply<VibeAnalysis>): Assessment
  {
    match details(spot.placeId)
    case DetailsError => FetchFailed
    case Details(reviews, url) =>
      if reviews == [] then NoReviews(UrlOrDefault(url))
      else if !Joinable(reviews) then Unjoinable(UrlOrDefault(url))
      else
        match Accept(model(VibePrompt(spot, vibe, reviews)), AnalyzeToolName)
        case None => Rejected(UrlOrDefault(url))
        case Some(a) => Analyzed(UrlOrDefault(url), a)
  }

  /** The spot's `url` after Stage 2: written whenever the details arrived. */
  function UrlAfter(before: Option<string>, a: Assessment): Option<string> {
    if a.FetchFailed? then before else Some(a.url)
  }

  /** The spot's `vibeAnalysis` after Stage 2: written only when analysed. */
  function AnalysisAfter(before: Option<VibeAnalysis>, a: Assessment): Option<VibeAnalysis> {
    if a.Analyzed? then Some(a.analysis) else before
  }

  /** The analysed spots, in input order, each with its score as sort key. */
  function Accepted(spots: seq<Spot>, vibe: string, details: Option<string> -> PlaceDetails,
                    model: VibeRequest -> ToolReply<VibeAnalysis>): seq<Keyed<Spot>>
  {
    if spots == [] then []
    else
      var last := spots[|spots| - 1];
      Accepted(spots[..|spots| - 1], vibe, details, model) + Entry(last, Assess(last, vibe, details, model))
  }

  /** What one spot adds to the analysed list: itself keyed by its score, or nothing. */
  function Entry(spot: Spot, a: Assessment): seq<Keyed<Spot>> {
    if a.Analyzed? then [Keyed(spot, a.analysis.score)] else []
  }

  /** The prompts sent to the model, in input order. */
  function Prompts(spots: seq<Spot>, vibe: string, details: Option<string> -> PlaceDetails): seq<VibeRequest> {
    if spots == [] then []
    else
      var last := spots[|spots| - 1];
      Prompts(spots[..|spots| - 1], vibe, details) + OptionToSeq(PromptFor(last, vibe, details))
  }

  function OptionToSeq<T>(o: Option<T>): seq<T> {
    if o.Some? then [o.value] else []
  }

  /** Stage 2's result: the analysed spots, highest score first, stable. */
  function Ranked(spots: seq<Spot>, vibe: string, details: Option<string> -> PlaceDetails,
                  model: VibeRequest -> ToolReply<VibeAnalysis>): seq<Spot>
  {
    Items(SortDesc(Accepted(spots, vibe, details, model)))
  }

  // ---------------------------------------------------------------------------
  // Properties of the specification
  // ---------------------------------------------------------------------------

  /** Every accepted entry is an input spot that was analysed, keyed by the
      score of its analysis. */
  lemma {:induction false} AcceptedFrom(spots: seq<Spot>, vibe: string, details: Option<string> -> PlaceDetails,
                                        model: VibeRequest -> ToolReply<VibeAnalysis>, e: Keyed<Spot>)
    requires e in Accepted(spots, vibe, details, model)
    ensures exists j :: (0 <= j < |spots| && spots[j] == e.item
      && Assess(spots[j], vibe, details, model).Analyzed?
      && Assess(spots[j], vibe, details, model).analysis.score == e.key)
  {
    var init := spots[..|spots| - 1];
    var last := spots[|spots| - 1];
    if e in Accepted(init, vibe, details, model) {
      AcceptedFrom(init, vibe, details, model, e);
      var j :| 0 <= j < |init| && init[j] == e.item
        && Assess(init[j], vibe, details, model).Analyzed?
        && Assess(init[j], vibe, details, model).analysis.score == e.key;
      assert spots[j] == init[j];
    } else {
      assert spots[|spots| - 1] == e.item;
    }
  }

  /** Every analysed input spot is accepted, keyed by its score. */
  lemma {:induction false} AcceptedHas(spots: seq<Spot>, vibe: string, details: Option<string> -> PlaceDetails,
                                       model: VibeRequest -> ToolReply<VibeAnalysis>, j: nat)
    requires j < |spots| && Assess(spots[j], vibe, details, model).Analyzed?
    ensures Keyed(spots[j], Assess(spots[j], vibe, details, model).analysis.score) in Accepted(spots, vibe, details, model)
  {
    var init := spots[..|spots| - 1];
    if j < |init| {
      assert init[j] == spots[j];
      AcceptedHas(init, vibe, details, model, j);
    } else {
      assert Entry(spots[j], Assess(spots[j], vibe, details, model))
        == [Keyed(spots[j], Assess(spots[j], vibe, details, model).analysis.score)];
    }
  }

  /** Failure isolation: what happens to a run of spots does not depend on the
      spots processed before it. */
  lemma {:induction false} AcceptedConcat(a: seq<Spot>, b: seq<Spot>, vibe: string, details: Option<string> -> PlaceDetails,
                                          model: VibeRequest -> ToolReply<VibeAnalysis>)
    ensures Accepted(a + b, vibe, details, model) == Accepted(a, vibe, details, model) + Accepted(b, vibe, details, model)
  {
    if b == [] {
      assert a + b == a;
    } else {
      var b' := b[..|b| - 1];
      AcceptedConcat(a, b', vibe, details, model);
      assert (a + b)[..|a + b| - 1] == a + b';
      assert (a + b)[|a + b| - 1] == b[|b| - 1];
    }
  }

  /** Stage 2 comes back empty exactly when every spot fails. */
  lemma AcceptedEmptyIff(spots: seq<Spot>, vibe: string, details: Option<string> -> PlaceDetails,
                         model: VibeRequest -> ToolReply<VibeAnalysis>)
    ensures Ranked(spots, vibe, details, model) == []
      <==> forall j :: 0 <= j < |spots| ==> !Assess(spots[j], vibe, details, model).Analyzed?
  {
    var acc := Accepted(spots, vibe, details, model);
    SortDescPermutes(acc);
    if exists j :: 0 <= j < |spots| && Assess(spots[j], vibe, details, model).Analyzed? {
      var j :| 0 <= j < |spots| && Assess(spots[j], vibe, details, model).Analyzed?;
      AcceptedHas(spots, vibe, details, model, j);
      assert |multiset(acc)| > 0;
    } else if acc != [] {
      AcceptedFrom(spots, vibe, details, model, acc[0]);
    }
  }

  /** The items of the accepted entries are drawn from the input, no spot more
      often than it occurs there. */
  lemma {:induction false} AcceptedBounded(spots: seq<Spot>, vibe: string, details: Option<string> -> PlaceDetails,
                                           model: VibeRequest -> ToolReply<VibeAnalysis>)
    ensures multiset(Items(Accepted(spots, vibe, details, model))) <= multiset(spots)
  {
    if spots != [] {
      var init, last := spots[..|spots| - 1], spots[|spots| - 1];
      var head := Accepted(init, vibe, details, model);
      var tail := Entry(last, Assess(last, vibe, details, model));
      AcceptedBounded(init, vibe, details, model);
      assert multiset(spots) == multiset(init) + multiset([last]) by {
        assert spots == init + [last];
      }
      assert multiset(Items(head + tail)) == multiset(Items(head)) + multiset(Items(tail)) by {
        ItemsConcat(head, tail);
      }
      assert multiset(Items(tail)) <= multiset([last]);
    }
  }

  /** A distinct sequence has every element once, and only a distinct sequence. */
  lemma {:induction false} DistinctCounts(s: seq<Spot>)
    ensures Distinct(s) <==> forall x :: multiset(s)[x] <= 1
  {
    if s != [] {
      var init, last := s[..|s| - 1], s[|s| - 1];
      DistinctCounts(init);
      assert s == init + [last];
      if Distinct(s) {
        assert Distinct(init);
        assert last !in init;
      }
      if forall x :: multiset(s)[x] <= 1 {
        forall x ensures multiset(init)[x] <= 1 {
          assert multiset(s)[x] == multiset(init)[x] + multiset([last])[x];
        }
        assert multiset(s)[last] == multiset(init)[last] + 1;
        assert last !in init;
        forall i, j | 0 <= i < j < |s| ensures s[i] != s[j] {
          if j < |init| { assert s[i] == init[i] && s[j] == init[j]; } else { assert s[i] in init; }
        }
      }
    }
  }

  /** The ranked result holds exactly the analysed input spots, each once. */
  lemma RankedMembership(spots: seq<Spot>, vibe: string, details: Option<string> -> PlaceDetails,
                         model: VibeRequest -> ToolReply<VibeAnalysis>)
    requires Distinct(spots)
    ensures var ranked := Ranked(spots, vibe, details, model);
      && Distinct(ranked)
      && (forall s :: s in ranked ==> s in spots)
      && (forall j :: 0 <= j < |spots| ==> (spots[j] in ranked <==> Assess(spots[j], vibe, details, model).Analyzed?))
  {
    var acc := Accepted(spots, vibe, details, model);
    var ranked := Ranked(spots, vibe, details, model);
    SortDescPermutesItems(acc);
    AcceptedBounded(spots, vibe, details, model);
    DistinctCounts(spots);
    DistinctCounts(ranked);
    assert multiset(ranked) <= multiset(spots);
    forall s | s in ranked ensures s in spots {
      assert s in multiset(ranked);
    }
    forall j | 0 <= j < |spots| ensures spots[j] in ranked <==> Assess(spots[j], vibe, details, model).Analyzed? {
      if Assess(spots[j], vibe, details, model).Analyzed? {
        AcceptedHas(spots, vibe, details, model, j);
        var e := Keyed(spots[j], Assess(spots[j], vibe, details, model).analysis.score);
        var k :| 0 <= k < |acc| && acc[k] == e;
        assert Items(acc)[k] == spots[j];
        assert spots[j] in multiset(Items(acc));
      }
      if spots[j] in ranked {
        assert spots[j] in multiset(Items(acc));
        var k :| 0 <= k < |acc| && Items(acc)[k] == spots[j];
        AcceptedFrom(spots, vibe, details, model, acc[k]);
        var i :| 0 <= i < |spots| && spots[i] == acc[k].item && Assess(spots[i], vibe, details, model).Analyzed?;
        assert i == j;
      }
    }
  }

  /** Only spots whose details carry reviews reach the model, each with at most
      `MaxReviewChars` characters of review text. */
  lemma {:induction false} PromptsBounded(spots: seq<Spot>, vibe: string, details: Option<string> -> PlaceDetails)
    ensures forall p :: p in Prompts(spots, vibe, details) ==> p.vibe == vibe && |p.reviews| <= MaxReviewChars
    ensures |Prompts(spots, vibe, details)| <= |spots|
  {
    if spots != [] {
      PromptsBounded(spots[..|spots| - 1], vibe, details);
    }
  }

  /** A review whose `text` is `null` makes the join raise after the URL was
      written: the spot keeps the URL, the model is not asked, and the spot
      adds nothing to the analysed list. */
  lemma NullReviewTextSkips(spot: Spot, vibe: string, details: Option<string> -> PlaceDetails,
                            model: VibeRequest -> ToolReply<VibeAnalysis>, i: nat)
    requires details(spot.placeId).Details?
    requires i < |details(spot.placeId).reviews| && details(spot.placeId).reviews[i].text.Null?
    ensures PromptFor(spot, vibe, details) == None
    ensures Assess(spot, vibe, details, model) == Unjoinable(UrlOrDefault(details(spot.placeId).url))
    ensures UrlAfter(spot.url, Assess(spot, vibe, details, model)) == Some(UrlOrDefault(details(spot.placeId).url))
    ensures Entry(spot, Assess(spot, vibe, details, model)) == []
  { }

  /** Once every analysed spot carries its URL and its analysis, the ranked
      spots all do, and their scores never increase along the list. */
  lemma RankedScored(spots: seq<Spot>, vibe: string, details: Option<string> -> PlaceDetails,
                     model: VibeRequest -> ToolReply<VibeAnalysis>)
    requires forall j :: 0 <= j < |spots| && Assess(spots[j], vibe, details, model).Analyzed? ==>
      spots[j].url.Some? && spots[j].vibeAnalysis == Some(Assess(spots[j], vibe, details, model).analysis)
    ensures var ranked := Ranked(spots, vibe, details, model);
      && (forall s :: s in ranked ==> s.url.Some? && s.vibeAnalysis.Some?)
      && (forall i, j :: 0 <= i < j < |ranked| ==>
            ranked[i].vibeAnalysis.Some? && ranked[j].vibeAnalysis.Some? &&
            ranked[i].vibeAnalysis.value.score >= ranked[j].vibeAnalysis.value.score)
  {
    var acc: seq<Keyed<Spot>> := Accepted(spots, vibe, details, model);
    var sorted: seq<Keyed<Spot>> := SortDesc(acc);
    SortDescPermutes(acc);
    SortDescOrdered(acc);
    forall k | 0 <= k < |sorted|
      ensures sorted[k].item.url.Some? && sorted[k].item.vibeAnalysis.Some?
      ensures sorted[k].item.vibeAnalysis.value.score == sorted[k].key
    {
      assert sorted[k] in multiset(acc);
      AcceptedFrom(spots, vibe, details, model, sorted[k]);
    }
  }

  // ---------------------------------------------------------------------------
  // The stage
  // ---------------------------------------------------------------------------

  /** The body of the loop for one spot: fetch the details, write the URL, ask
      the model and write the analysis. Returns the spot's entry in the analysed
      list and the prompt sent, if any. */
  method ScoreSpot(spot: Spot, vibe: string, details: Option<string> -> PlaceDetails,
                   model: VibeRequest -> ToolReply<VibeAnalysis>)
    returns (entry: seq<Keyed<Spot>>, prompt: Option<VibeRequest>)
    modifies spot
    ensures entry == Entry(spot, Assess(spot, vibe, details, model))
    ensures prompt == PromptFor(spot, vibe, details)
    ensures spot.url == UrlAfter(old(spot.url), Assess(spot, vibe, details, model))
    ensures spot.vibeAnalysis == AnalysisAfter(old(spot.vibeAnalysis), Assess(spot, vibe, details, model))
  {
    entry, prompt := [], None;
    var place := details(spot.placeId);
    if place.DetailsError? {
      return;
    }
    spot.url := Some(UrlOrDefault(place.url));
    if place.reviews == [] {
      return;
    }
    if !Joinable(place.reviews) {
      return;
    }
    prompt := Some(VibePrompt(spot, vibe, place.reviews));
    var analysis := Accept(model(prompt.value), AnalyzeToolName);
    if analysis.None? {
      return;
    }
    spot.vibeAnalysis := analysis;
    entry := [Keyed(spot, analysis.value.score)];
  }

  /** Stage 2. Updates every spot in place (its `url` as soon as the details
      arrive, its `vibeAnalysis` when the model scores it), collects the scored
      spots and ranks them. Also returns the prompts sent to the model. */
  method AnalyzeVibe(spots: seq<Spot>, vibe: string, details: Option<string> -> PlaceDetails,
                     model: VibeRequest -> ToolReply<VibeAnalysis>)
    returns (ranked: seq<Spot>, prompts: seq<VibeRequest>)
    requires Distinct(spots)
    modifies spots
    ensures ranked == Ranked(spots, vibe, details, model)
    ensures prompts == Prompts(spots, vibe, details)
    ensures forall j :: 0 <= j < |spots| ==>
      && spots[j].url == UrlAfter(old(spots[j].url), Assess(spots[j], vibe, details, model))
      && spots[j].vibeAnalysis == AnalysisAfter(old(spots[j].vibeAnalysis), Assess(spots[j], vibe, details, model))
    ensures forall s :: s in ranked ==> s.url.Some? && s.vibeAnalysis.Some?
    ensures forall i, j :: 0 <= i < j < |ranked| ==>
      ranked[i].vibeAnalysis.Some? && ranked[j].vibeAnalysis.Some? &&
      ranked[i].vibeAnalysis.value.score >= ranked[j].vibeAnalysis.value.score
  {
    var analyzed: seq<Keyed<Spot>> := [];
    prompts := [];
    for i := 0 to |spots|
      invariant analyzed == Accepted(spots[..i], vibe, details, model)
      invariant prompts == Prompts(spots[..i], vibe, details)
      invariant forall j :: 0 <= j < i ==>
        && spots[j].url == UrlAfter(old(spots[j].url), Assess(spots[j], vibe, details, model))
        && spots[j].vibeAnalysis == AnalysisAfter(old(spots[j].vibeAnalysis), Assess(spots[j], vibe, details, model))
      invariant forall j :: i <= j < |spots| ==>
        spots[j].url == old(spots[j].url) && spots[j].vibeAnalysis == old(spots[j].vibeAnalysis)
    {
      assert spots[..i + 1][..i] == spots[..i];
      assert forall j :: 0 <= j < |spots| && j != i ==> spots[j] != spots[i];
      var entry, prompt := ScoreSpot(spots[i], vibe, details, model);
      analyzed := analyzed + entry;
      prompts := prompts + OptionToSeq(prompt);
    }
    assert spots[..|spots|] == spots;
    ranked := Items(SortDesc(analyzed));
    RankedScored(spots, vibe, details, model);
  }
}
