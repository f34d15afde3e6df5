/** The review text Stage 2 puts in a vibe prompt: the texts of all reviews
    joined by single spaces (a review without `text` counts as ""), then cut to
    the first `MaxReviewChars` characters. A `text` holding `null` makes the
    join raise, so there is then no review text at all. */
module Reviews {
  import opened Model

  /** The prompt budget for review text, in characters. */
  const MaxReviewChars: nat := 3000

  /** The reviews can be joined: none has a `text` holding `null`, which
      `r.get('text', '')` passes through and `" ".join` rejects. */
  predicate Joinable(reviews: seq<Review>) {
    forall i :: 0 <= i < |reviews| ==> !reviews[i].text.Null?
  }

  function TextOf(r: Review): string
    requires !r.text.Null?
  {
    if r.text.Str? then r.text.value else ""
  }

  function Texts(reviews: seq<Review>): (r: seq<string>)
    requires Joinable(reviews)
    ensures |r| == |reviews|
    ensures forall i :: 0 <= i < |reviews| ==> r[i] == TextOf(reviews[i])
  {
    if reviews == [] then [] else [TextOf(reviews[0])] + Texts(reviews[1..])
  }

  /** Python's `" ".join(parts)`. */
  function Join(parts: seq<string>): string {
    if |parts| == 0 then ""
    else if |parts| == 1 then parts[0]
    else Join(parts[..|parts| - 1]) + " " + parts[|parts| - 1]
  }

  /** The total length of the parts. */
  function TotalLength(parts: seq<string>): nat {
    if parts == [] then 0 else TotalLength(parts[..|parts| - 1]) + |parts[|parts| - 1]|
  }

  /** Python's `s[:limit]` for a non-negative limit. */
  function Truncate(s: string, limit: nat): (r: string)
    ensures r <= s
    ensures |r| <= limit
    ensures |s| <= limit ==> r == s
    ensures |s| >= limit ==> |r| == limit
  {
    if |s| <= limit then s else s[..limit]
  }

  /** The review text of one spot's prompt. */
  function ReviewText(reviews: seq<Review>): string
    requires Joinable(reviews)
  {
    Truncate(Join(Texts(reviews)), MaxReviewChars)
  }

  /** The joined text holds every character of every part plus one separator
      between neighbours. */
  lemma {:induction false} JoinLength(parts: seq<string>)
    requires parts != []
    ensures |Join(parts)| == TotalLength(parts) + |parts| - 1
  {
    if |parts| > 1 {
      JoinLength(parts[..|parts| - 1]);
    } else {
      assert parts[..0] == [];
    }
  }

  /** Joining two non-empty lists of parts is joining each and putting one
      space between the results. */
  lemma {:induction false} JoinConcat(a: seq<string>, b: seq<string>)
    requires a != [] && b != []
    ensures Join(a + b) == Join(a) + " " + Join(b)
  {
    var ab := a + b;
    if |b| == 1 {
      assert ab[..|ab| - 1] == a;
    } else {
      var b' := b[..|b| - 1];
      JoinConcat(a, b');
      assert ab[..|ab| - 1] == a + b';
      assert ab[|ab| - 1] == b[|b| - 1];
    }
  }

  /** The text of the first k parts starts the joined text. */
  lemma {:induction false} JoinPrefix(parts: seq<string>, k: nat)
    requires 0 < k <= |parts|
    ensures Join(parts[..k]) <= Join(parts)
  {
    if k < |parts| {
      JoinConcat(parts[..k], parts[k..]);
      assert parts[..k] + parts[k..] == parts;
    } else {
      assert parts[..k] == parts;
    }
  }

  /** Truncation happens after joining: every leading run of reviews whose
      joined text fits in the budget reaches the prompt whole. */
  lemma {:induction false} LeadingReviewsSent(reviews: seq<Review>, k: nat)
    requires Joinable(reviews) && 0 < k <= |reviews|
    requires |Join(Texts(reviews)[..k])| <= MaxReviewChars
    ensures Join(Texts(reviews)[..k]) <= ReviewText(reviews)
  {
    var texts := Texts(reviews);
    var head, whole := Join(texts[..k]), Join(texts);
    JoinPrefix(texts, k);
    var sent := Truncate(whole, MaxReviewChars);
    assert |head| <= |sent|;
    assert sent == whole[..|sent|];
    assert head == whole[..|head|];
  }
}
