/** Intent classification (app/core/intent.py): the reply of a fast model to a
    classification prompt is mapped to one of three intents by substring tests. The
    completion itself is not modelled; its result is a parameter. */
module Intent {
  import opened Wrappers
  import opened Text

  datatype Intent = Chat | Search | DeepResearch

  /** The name `classify_intent` returns. */
  function Name(i: Intent): string {
    match i
    case Chat => "chat"
    case Search => "search"
    case DeepResearch => "deep_research"
  }

  /** The reply as the classifier reads it: stripped, then lower-cased. */
  function Cleaned(reply: string): string {
    Lower(Trim(reply))
  }

  /** `classify_intent`: `reply` is the concatenated completion, or `None` when the
      completion raised. `deep_research` is tested before `search`. */
  function Classify(reply: Option<string>): (i: Intent)
    ensures reply.None? ==> i == Chat
    ensures reply.Some? ==> (i == DeepResearch <==> Contains(Cleaned(reply.value), "deep_research"))
    ensures reply.Some? ==>
      (i == Search <==> !Contains(Cleaned(reply.value), "deep_research") && Contains(Cleaned(reply.value), "search"))
    ensures reply.Some? ==> (i == Chat <==> !Contains(Cleaned(reply.value), "search"))
  {
    match reply
    case None => Chat
    case Some(text) =>
      var cleaned := Cleaned(text);
      if Contains(cleaned, "deep_research") then
        DeepResearchMentionsSearch(cleaned);
        DeepResearch
      else if Contains(cleaned, "search") then Search
      else Chat
  }

  /** "deep_research" itself contains "search", so any reply naming deep research also
      mentions search: the order of the tests is what makes deep research reachable. */
  lemma DeepResearchMentionsSearch(s: string)
    requires Contains(s, "deep_research")
    ensures Contains(s, "search")
  {
    var mid := "deep_research";
    assert StartsWith(mid[7..], "search");
    assert mid[1..][1..][1..][1..][1..][1..][1..] == mid[7..];
    ContainsTransitive(s, mid, "search");
  }

  /** The returned name is one of the three intents. */
  lemma NameIsKnown(reply: Option<string>)
    ensures Name(Classify(reply)) in {"chat", "search", "deep_research"}
  {
  }

  /** Matching ignores letter case: replies that agree once lower-cased classify alike. */
  lemma CaseInsensitive(a: string, b: string)
    requires Lower(a) == Lower(b)
    ensures Classify(Some(a)) == Classify(Some(b))
  {
    LowerTrimCommute(a);
    LowerTrimCommute(b);
  }

  /** Matching ignores surrounding whitespace. */
  lemma SpaceInsensitive(a: string)
    ensures Classify(Some(Trim(a))) == Classify(Some(a))
  {
    TrimIdempotent(a);
  }

  /** An upper-case reply is classified like its lower-case spelling. */
  lemma ShoutedReply(a: string)
    ensures Classify(Some(Upper(a))) == Classify(Some(Lower(a)))
  {
    LowerUpper(a);
    LowerIdempotent(a);
    CaseInsensitive(Upper(a), Lower(a));
  }
}
