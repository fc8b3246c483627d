/** The decision the channel-message handler takes for one message. */
module Matching {

  import opened Text
  import opened Store

  /** `word`, ignoring case, is a substring of `text`, ignoring case
      (`word.lower() in text.lower()`). */
  predicate Hits(text: String, word: String) {
    Contains(Lower(text), Lower(word))
  }

  /** `matched = [kw for kw in keywords if kw.lower() in text.lower()]`. */
  function Matched(text: String, keywords: seq<String>): (m: seq<String>)
    ensures forall k :: k in m <==> k in keywords && Hits(text, k)
    ensures |m| <= |keywords|
    ensures m == [] <==> forall k :: k in keywords ==> !Hits(text, k)
    ensures (forall k :: k in keywords ==> Hits(text, k)) ==> m == keywords
    ensures forall k :: multiset(m)[k] == if Hits(text, k) then multiset(keywords)[k] else 0
  {
    if keywords == [] then
      []
    else
      var rest := Matched(text, keywords[1..]);
      assert forall k :: k in keywords <==> k == keywords[0] || k in keywords[1..];
      assert keywords == [keywords[0]] + keywords[1..];
      if Hits(text, keywords[0]) then [keywords[0]] + rest else rest
  }

  /** `any(ex.lower() in text.lower() for ex in excluded)`. */
  function AnyHit(text: String, excluded: seq<String>): (r: bool)
    ensures r <==> exists e :: e in excluded && Hits(text, e)
  {
    if excluded == [] then
      false
    else
      assert forall e :: e in excluded <==> e == excluded[0] || e in excluded[1..];
      Hits(text, excluded[0]) || AnyHit(text, excluded[1..])
  }

  /** Skipped: empty text, the configuration is not loaded; NoMatch: no keyword
      occurs; Suppressed: a keyword occurs but so does an excluded word;
      Alert: the message is forwarded, `matched` being the keywords found. */
  datatype Decision =
    | Skipped
    | NoMatch
    | Suppressed(matched: seq<String>)
    | Alert(matched: seq<String>)

  /** The body of the new-message handler up to the point where the alert is sent. */
  function Decide(text: String, cfg: Config): Decision {
    if text == [] then
      Skipped
    else
      var matched := Matched(text, cfg.keywords);
      if matched == [] then NoMatch
      else if AnyHit(text, cfg.excludedKeywords) then Suppressed(matched)
      else Alert(matched)
  }

  /** A message is alerted exactly when it is non-empty, some keyword occurs in
      it and no excluded word does; the alert lists precisely those keywords. */
  lemma AlertIff(text: String, cfg: Config)
    ensures Decide(text, cfg).Alert? <==>
      && text != []
      && (exists k :: k in cfg.keywords && Hits(text, k))
      && !(exists e :: e in cfg.excludedKeywords && Hits(text, e))
    ensures Decide(text, cfg).Alert? || Decide(text, cfg).Suppressed? ==>
      forall k :: k in Decide(text, cfg).matched <==> k in cfg.keywords && Hits(text, k)
  {
  }

  /** Without a matching keyword there is never an alert, whatever is excluded. */
  lemma NoKeywordNoAlert(text: String, cfg: Config)
    requires forall k :: k in cfg.keywords ==> !Hits(text, k)
    ensures Decide(text, cfg) == NoMatch || Decide(text, cfg) == Skipped
  {
  }

  /** An occurring excluded word suppresses every alert: a non-empty text in
      which some keyword also occurs is reported as suppressed, with the
      occurring keywords, rather than as no match. */
  lemma ExclusionSuppresses(text: String, cfg: Config, e: String)
    requires e in cfg.excludedKeywords && Hits(text, e)
    ensures !Decide(text, cfg).Alert?
    ensures text != [] && (exists k :: k in cfg.keywords && Hits(text, k)) ==>
      Decide(text, cfg) == Suppressed(Matched(text, cfg.keywords))
  {
  }

  /** Empty text is skipped before the configuration is consulted: the
      decision is the same for every configuration. */
  lemma EmptyTextSkipped(cfg: Config)
    ensures Decide([], cfg) == Skipped
  {
  }

  /** The decision ignores the letter case of the message. */
  lemma CaseInsensitive(text: String, cfg: Config)
    ensures Decide(Upper(text), cfg) == Decide(text, cfg)
  {
    LowerOfUpper(text);
    assert |Upper(text)| == |text|;
    MatchedSameLower(Upper(text), text, cfg.keywords);
    AnyHitSameLower(Upper(text), text, cfg.excludedKeywords);
  }

  lemma {:induction false} MatchedSameLower(a: String, b: String, keywords: seq<String>)
    requires Lower(a) == Lower(b)
    ensures Matched(a, keywords) == Matched(b, keywords)
  {
    if keywords != [] {
      MatchedSameLower(a, b, keywords[1..]);
    }
  }

  lemma {:induction false} AnyHitSameLower(a: String, b: String, excluded: seq<String>)
    requires Lower(a) == Lower(b)
    ensures AnyHit(a, excluded) == AnyHit(b, excluded)
  {
    if excluded != [] {
      AnyHitSameLower(a, b, excluded[1..]);
    }
  }

  /** A keyword that is part of a longer word still matches. */
  lemma SubstringOfWordMatches()
    ensures Decide("ETHEREUM up", Config([], ["eth"], [])) == Alert(["eth"])
  {
    assert OccursAt(Lower("ETHEREUM up"), Lower("eth"), 0);
  }

  /** keywords ["BTC"], nothing excluded, "New ATH for BTC today": alert for BTC. */
  lemma ScenarioAlert()
    ensures Decide("New ATH for BTC today", Config([], ["BTC"], [])) == Alert(["BTC"])
  {
    assert OccursAt(Lower("New ATH for BTC today"), Lower("BTC"), 12);
  }

  /** keywords ["BTC"], excluded ["SCAM"], "BTC SCAM alert": suppressed. */
  lemma ScenarioSuppressed()
    ensures Decide("BTC SCAM alert", Config([], ["BTC"], ["SCAM"])) == Suppressed(["BTC"])
  {
    assert OccursAt(Lower("BTC SCAM alert"), Lower("BTC"), 0);
    assert OccursAt(Lower("BTC SCAM alert"), Lower("SCAM"), 4);
  }
}
