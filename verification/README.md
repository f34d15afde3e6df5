# Unseen Spots: a Dafny model of the three-stage discovery pipeline

The application finds little-known places in a city. It runs three agents in
sequence, behind one button:

1. **Stage 1, discovery** (`agent1_find_unseen_spots`). Geocode the city, search
   nearby places for the vibe keyword, and keep the hits with an "inverse
   filter": a rating of at least the minimum, and at least one but at most the
   maximum number of reviews.
2. **Stage 2, vibe scoring** (`agent2_analyze_vibe`). For each candidate, fetch
   its reviews and map URL. Send the joined review text, cut to 3000 characters,
   to the language model, which must call `analyze_spot_vibe`. Keep the spots it
   scored and rank them by score, highest first, with a stable sort. A failure
   on one spot skips that spot only.
3. **Stage 3, narrative** (`agent3_generate_narrative`). Summarise the top three
   spots and ask the model, in one call to `generate_itinerary`, for an
   itinerary.

The orchestrator checks that the city and vibe are non-empty. It runs Stage 2
only on a non-empty Stage 1 result, and Stage 3 only on a non-empty Stage 2
result.

## How the model is built

- `model.dfy` (module `Model`) holds the records and the replies of the external
  services. A spot dictionary is the class `Spot`. Stage 1 writes `name`,
  `placeId`, `rating` and `reviewCount`, and nothing writes them again, so they
  are `const`. Stage 2 writes `url` and `vibeAnalysis` in place; `None` stands
  for a key that is not in the dictionary.
- The external services are function parameters, with each reply as a value:
  - `geocode(city)` returns `GeocodeError | NoMatch | Located(center)`.
  - `nearby(request)` returns `NearbyError | NearbyPage(results)`.
  - `details(placeId)` returns `DetailsError | Details(reviews, url)`.
  - The two model calls return `ToolReply<T> = CallError | ToolCall(name, args)`.
    `args` is `None` when the arguments fail schema validation.

  A raised exception is the `...Error` variant of the reply.
- `discovery.dfy` is Stage 1. `InverseFilter` specifies the filter loop and
  `FindUnseenSpots` is proved against it.
- `review_text.dfy` (module `Reviews`) covers the join and the truncation.
- `ranking.dfy` covers Python's stable `sort(key=..., reverse=True)`. Python
  computes each key once, so the model pairs each item with its key (`Keyed`),
  sorts the pairs (`SortDesc`, a stable insertion sort) and drops the keys
  (`Items`).
- `vibe_scoring.dfy` is Stage 2:
  - `Assess` is the fate of one spot.
  - `Accepted` is the analysed list before sorting.
  - `Ranked` is the stage's result.
  - `AnalyzeVibe` is the loop, proved against these functions. It also states
    the in-place effect on every spot.
- `narrative.dfy` is Stage 3 and `pipeline.dfy` the orchestrator. The variant of
  `Run` names the state in which a run ends, and so which stages ran.
- Stages 2 and 3 also return the prompts they sent to the model: `prompts`, and
  `request`, which is `None` when no call was made. This makes "no model call"
  part of the contracts.

## Model

| member | source | states |
|---|---|---|
| `Model.Accept` | app.py:176-186 | A model reply yields a value exactly when the expected function was called and its arguments validated; the value is those arguments |
| `Model.Spot.constructor` | app.py:97-102 | A new spot record carries the four fields of its hit and has neither `url` nor `vibe_analysis` |
| `Discovery.FindUnseenSpots` | app.py:68-105 | Stage 1 returns fresh, pairwise distinct spot records, one per hit that passes the filter, in the hits' order; an empty geocode, a thrown search error or a page without results gives `[]` |
| `Discovery.KeptIndicesExact` | app.py:89-96 | The positions Stage 1 keeps are exactly those of hits with rating >= minimum and 0 < review count <= maximum, in increasing order |
| `Discovery.InverseFilterAtKept` | app.py:88-105 | The k-th output record is the record of the k-th kept hit: output order follows input order, and the output has exactly as many records as there are kept hits |
| `Discovery.InverseFilterMembership` | app.py:89-102 | A hit's record is in the output if it passes the filter; every output record passes it and copies name, place_id, rating and review_count from such a hit |
| `Discovery.MissingCountNeverKept` | app.py:92-96 | A hit without `user_ratings_total` counts 0 reviews and is never kept |
| `Discovery.SearchFailureYieldsNothing` | app.py:70-86 | No geocode match, a geocode error or a search error gives an empty Stage 1 result |
| `Reviews.Texts` | app.py:150 | For reviews none of whose `text` is `null`: one text per review, in order; a review without `text` gives "" |
| `Reviews.Truncate` | app.py:163 | The prompt text is a prefix of the joined text, at most 3000 characters, and all of it when it fits |
| `Reviews.JoinLength` | app.py:150 | The joined text is the parts' total length plus one separator between each pair of neighbours |
| `Reviews.JoinConcat` | app.py:150 | Joining two non-empty lists of parts is joining each and putting a single space between |
| `Reviews.JoinPrefix` | app.py:150 | The joined text of the first k reviews starts the joined text of all of them |
| `Reviews.LeadingReviewsSent` | app.py:150-163 | Truncation comes after joining: a leading run of reviews whose joined text fits in 3000 characters reaches the model whole |
| `Ranking.SortDescOrdered` | app.py:192 | The sorted list is ordered by score, non-increasing |
| `Ranking.SortDescPermutes` | app.py:192 | Sorting is a permutation of the analysed list |
| `Ranking.SortDescPermutesItems` | app.py:192 | With the keys dropped, the sorted spots are a permutation of the analysed spots |
| `Ranking.SortDescStable` | app.py:192 | Stability: for every score, the spots with that score keep their original relative order |
| `VibeScoring.ScoreSpot` | app.py:136-189 | One spot: `url` is set (default "") whenever the details arrive, even with no reviews; the model is called only when there are reviews, with the truncated joined text; a review `text` holding `null` makes the join raise, so the spot is skipped with its URL written and no model call; `vibe_analysis` is set and the spot is collected only when `analyze_spot_vibe` returns valid arguments; every other outcome leaves the rest untouched |
| `VibeScoring.AnalyzeVibe` | app.py:135-195 | Stage 2 returns the stably sorted analysed spots and the prompts sent. Every spot's `url` and `vibe_analysis` are updated as its outcome dictates and nothing else changes. Every returned spot has a URL and an analysis, and the scores are non-increasing |
| `VibeScoring.AcceptedFrom` | app.py:177-183 | Every collected entry is an input spot that the model analysed, keyed by that analysis's score |
| `VibeScoring.AcceptedHas` | app.py:177-183 | Every input spot the model analysed is collected, keyed by its score |
| `VibeScoring.AcceptedConcat` | app.py:135-189 | Failure isolation: the entries collected for a run of spots do not depend on what happened to the spots before it |
| `VibeScoring.AcceptedEmptyIff` | app.py:135-195 | Stage 2's result is empty exactly when every spot fails, and this is an empty list, not an error |
| `VibeScoring.AcceptedBounded` | app.py:183 | The collected spots are drawn from the input, none more often than it occurs there |
| `VibeScoring.RankedMembership` | app.py:143-192 | For distinct input spots, the result holds exactly the analysed spots, each once. A spot whose fetch raised, that had no reviews or a `null` review text, or whose model call raised or named another function is absent |
| `VibeScoring.NullReviewTextSkips` | app.py:144-150 | A review whose `text` is `null` stops the spot at the join: its URL is already written, the model is not asked, and the spot is not collected |
| `VibeScoring.RankedScored` | app.py:182-192 | Once each analysed spot carries its URL and analysis, every ranked spot has both and the scores are non-increasing along the ranking |
| `VibeScoring.PromptsBounded` | app.py:146-173 | At most one model call per spot; each prompt carries the user's vibe and at most 3000 characters of review text |
| `Narrative.BuildSummaries` | app.py:207-218 | One summary per top spot, in order: name, url, rating, review count, adjectives, features and justification |
| `Narrative.GenerateNarrative` | app.py:204-272 | An empty list gives `None` without a model call. Otherwise one call carries one summary per spot, and the result is the itinerary only when `generate_itinerary` was called with valid arguments; anything else gives `None` |
| `Pipeline.RunPipeline` | app.py:301-334 | An empty city or vibe runs no stage. Stage 2 runs exactly when Stage 1 found spots. Stage 3 runs exactly when Stage 2 scored some, and gets the first min(3, n) ranked spots |

## Left out

- The Streamlit page, sidebar inputs, buttons, progress and error messages and
  result rendering (app.py:13-17, 276-358). The model's `Run` states name where a
  run ends; the messages shown there are not modelled.
- API key loading and client initialisation (app.py:20-37): process plumbing.
- The Google Maps and Gemini calls themselves, their tool and schema
  configuration and the prompt wording. Each reply is a value chosen by a function
  parameter, so two identical requests in one run get identical replies. The
  prompts are modelled by the data they carry.
- The "3 spots" and "do not mention rating or review count" instructions. They
  are prompt text only and the code never checks them.
- The 1-10 range of `vibe_match_score`. The schema describes the score as
  running from 1 to 10 (app.py:45), but validation checks only that it is an
  integer, and the model follows the validation.
- The number of itinerary spots. The schema describes "a list of 3" spots
  (app.py:57), but validation accepts any list length, and the model follows
  the validation.
- `@st.cache_data` memoisation (app.py:61, 107, 197). Stage 2's cache key leaves
  out the underscore-prefixed spot list, so a cache hit can return another
  city's spots for the same vibe. That is caching behaviour and is not modelled.
- Floating point: ratings and the minimum rating are `real`, and the comparison
  is exact.
- Explicit `null` values in the service replies, except for a review's `text`,
  which is modelled (`JsonString.Null`). Elsewhere `None` in the model means a
  missing key, which `.get` replaces by its default. An explicit `null` bypasses
  that default:
  - a hit's `rating`: `None >= min_rating`, the first test at app.py:96, raises
    outside any `try`, and the run stops with an error;
  - a hit's `user_ratings_total`: the `and` at app.py:96 short-circuits, so a
    hit whose rating is below the minimum is dropped, as in the model. Only when
    the rating passes does `None <= max_reviews` raise outside any `try` and stop
    the run with an error;
  - the search page's `results`: `for place in None` at app.py:89 raises outside
    any `try`, and the run stops with an error;
  - the details' `url`: app.py:144 stores `None` in the spot's `url`, and Stage 3
    passes it on as a JSON `null`. The model has no such value and stores a
    string;
  - the details' `reviews`: `not None` holds, so the spot is skipped like one
    without reviews, as in the model.
- Pydantic JSON-schema generation and `json.dumps` of the research data. The
  research data is modelled as the list of `Summary` records.
- `Narrative.GenerateNarrative` requires every spot to have a `url` and a
  `vibeAnalysis`. The source looks both up without a default, outside its
  `try`, and would raise otherwise. Stage 2 guarantees both for every spot it
  returns.
- `VibeScoring.AnalyzeVibe` requires pairwise distinct spot objects. Stage 1
  allocates a fresh record per kept hit, so the same dictionary never appears
  twice.
