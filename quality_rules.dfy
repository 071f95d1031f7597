/**
  The three fixed quality criteria of the annotation tool and the score and
  feedback they produce over a list of criterion names.
  A criterion name other than the three recognised ones is skipped: it adds
  neither a point nor a feedback line (but the caller still counts it in the
  maximum score).
 */
module QualityRules {
  import opened Wrappers
  import opened PyValues

  /** completeness: `all(data_entry.values())`. */
  predicate Complete(e: Entry)
  {
    forall k :: k in e ==> Truthy(e[k])
  }

  /** format: `isinstance(data_entry.get('image_id'), str)`. */
  predicate WellFormatted(e: Entry)
  {
    Get(e, "image_id").PyStr?
  }

  /** consistency: `data_entry.get('confidence') in range(1, 6)`. */
  predicate ConsistentConfidence(e: Entry)
  {
    InRange(Get(e, "confidence"), 1, 6)
  }

  predicate Recognised(c: string)
  {
    c == "completeness" || c == "format" || c == "consistency"
  }

  /** Whether `e` passes the recognised criterion `c`. */
  predicate Passes(e: Entry, c: string)
    requires Recognised(c)
  {
    if c == "completeness" then Complete(e)
    else if c == "format" then WellFormatted(e)
    else ConsistentConfidence(e)
  }

  /** The feedback line the tool appends for criterion `c`. */
  function FeedbackLine(c: string, pass: bool): string
    requires Recognised(c)
  {
    if c == "completeness" then (if pass then "✓ Complete" else "✗ Missing data")
    else if c == "format" then (if pass then "✓ Correct format" else "✗ Format issue")
    else (if pass then "✓ Consistent" else "✗ Inconsistent value")
  }

  /** Points earned by `e` over the criteria list, one per passed recognised criterion. */
  function Score(e: Entry, cs: seq<string>): nat
  {
    if cs == [] then 0
    else
      var c := cs[|cs| - 1];
      Score(e, cs[..|cs| - 1]) + (if Recognised(c) && Passes(e, c) then 1 else 0)
  }

  /** Feedback lines for `e` over the criteria list, in criteria order. */
  function Feedback(e: Entry, cs: seq<string>): seq<string>
  {
    if cs == [] then []
    else
      var c := cs[|cs| - 1];
      Feedback(e, cs[..|cs| - 1]) + (if Recognised(c) then [FeedbackLine(c, Passes(e, c))] else [])
  }

  /** The recognised criterion names of `cs`, in order. */
  function RecognisedOnly(cs: seq<string>): (r: seq<string>)
    ensures |r| <= |cs|
    ensures forall i :: 0 <= i < |r| ==> Recognised(r[i])
  {
    if cs == [] then []
    else
      var c := cs[|cs| - 1];
      RecognisedOnly(cs[..|cs| - 1]) + (if Recognised(c) then [c] else [])
  }

  /** 1 when `b` holds, else 0. */
  function Bit(b: bool): nat
  {
    if b then 1 else 0
  }

  /** The score does not exceed the number of feedback lines, which is the number
      of recognised names, which does not exceed the number of names. */
  lemma {:induction false} ScoreBounds(e: Entry, cs: seq<string>)
    ensures Score(e, cs) <= |Feedback(e, cs)| == |RecognisedOnly(cs)| <= |cs|
  {
    if cs != [] {
      ScoreBounds(e, cs[..|cs| - 1]);
    }
  }

  /** Exactly one feedback line per recognised criterion, in criteria order,
      saying whether that criterion passed. */
  lemma {:induction false} FeedbackFollowsCriteria(e: Entry, cs: seq<string>)
    ensures |Feedback(e, cs)| == |RecognisedOnly(cs)|
    ensures forall j :: 0 <= j < |Feedback(e, cs)| ==>
      Feedback(e, cs)[j] == FeedbackLine(RecognisedOnly(cs)[j], Passes(e, RecognisedOnly(cs)[j]))
  {
    if cs != [] {
      FeedbackFollowsCriteria(e, cs[..|cs| - 1]);
    }
  }

  /** The score depends only on how often each recognised name occurs:
      every occurrence of a criterion the entry passes earns one point. */
  lemma {:induction false} ScoreByOccurrences(e: Entry, cs: seq<string>)
    ensures Score(e, cs) ==
      multiset(cs)["completeness"] * Bit(Complete(e))
      + multiset(cs)["format"] * Bit(WellFormatted(e))
      + multiset(cs)["consistency"] * Bit(ConsistentConfidence(e))
  {
    if cs != [] {
      var init, c := cs[..|cs| - 1], cs[|cs| - 1];
      ScoreByOccurrences(e, init);
      assert cs == init + [c];
      assert multiset(cs) == multiset(init) + multiset{c};
    }
  }

  /** An unrecognised name changes neither the score nor the feedback. */
  lemma UnrecognisedIgnored(e: Entry, cs: seq<string>, u: string)
    requires !Recognised(u)
    ensures Score(e, cs + [u]) == Score(e, cs)
    ensures Feedback(e, cs + [u]) == Feedback(e, cs)
  {
  }

  /** If any name is unrecognised the score stays strictly below the number of
      names, so the percentage the tool reports is below 100 even when every
      recognised criterion passes. */
  lemma {:induction false} UnrecognisedCapsScore(e: Entry, cs: seq<string>, i: nat)
    requires i < |cs| && !Recognised(cs[i])
    ensures Score(e, cs) < |cs|
    ensures |RecognisedOnly(cs)| < |cs|
  {
    ScoreBounds(e, cs);
    var init := cs[..|cs| - 1];
    if i < |cs| - 1 {
      assert init[i] == cs[i];
      UnrecognisedCapsScore(e, init, i);
    }
  }

  /** An entry passing all three rules earns a point for each recognised name. */
  lemma {:induction false} AllRulesPassFullScore(e: Entry, cs: seq<string>)
    requires Complete(e) && WellFormatted(e) && ConsistentConfidence(e)
    ensures Score(e, cs) == |RecognisedOnly(cs)|
  {
    if cs != [] {
      AllRulesPassFullScore(e, cs[..|cs| - 1]);
    }
  }

  /** An entry with a falsy value fails completeness and its completeness
      feedback line reports missing data. */
  lemma FalsyValueFailsCompleteness(e: Entry, k: string)
    requires k in e && !Truthy(e[k])
    ensures !Complete(e)
    ensures FeedbackLine("completeness", Passes(e, "completeness")) == "✗ Missing data"
  {
  }
}
