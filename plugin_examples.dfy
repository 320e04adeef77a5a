/** Concrete inputs from the plugin tests, worked through the model: the
    first table entry wins, matching is by substring, and case is ignored. */
module PluginExamples {
  import opened Wrappers
  import opened Text
  import opened ChatbotPlugins

  lemma HelloAndThanksNormal()
    ensures Normalize("hello and thanks") == "hello and thanks"
  {
    NormalizePlain("hello and thanks");
  }

  lemma HelloAndThanksHasHello()
    ensures Contains("hello and thanks", "hello")
  {
    assert OccursAt("hello and thanks", "hello", 0);
  }

  /** `"hello and thanks"` gets the `hello` response only. */
  lemma HelloAndThanks(clock: Clock)
    ensures Reply(Generic, "hello and thanks", clock) == Some("Hi there! How can I help you today?")
  {
    HelloAndThanksNormal();
    HelloAndThanksHasHello();
    EarlierEntryWins("hello and thanks", clock);
  }

  lemma ThisNormal()
    ensures Normalize("this") == "this"
  {
    NormalizePlain("this");
  }

  lemma ThisLacksHello()
    ensures !Contains("this", "hello")
  {
  }

  lemma ThisHasHi()
    ensures Contains("this", "hi")
  {
    assert OccursAt("this", "hi", 1);
  }

  /** Matching is by substring, not by word: `"this"` contains `hi`, so
      it gets the `hi` response. */
  lemma SubstringNotWord(clock: Clock)
    ensures Reply(Generic, "this", clock) == Some("Hello! What can I do for you?")
  {
    ThisNormal();
    ThisLacksHello();
    ThisHasHi();
    FirstResponseIsEarliest(KeywordResponses, "this");
    assert KeywordResponses[0].0 == "hello" && KeywordResponses[1].0 == "hi";
  }

  lemma HelloLower()
    ensures Lower("hello") == "hello"
  {
  }

  lemma MixedCaseLowers()
    ensures Lower("HeLLo") == "hello" && Lower("HELLO") == "hello"
  {
  }

  lemma HelloNormal()
    ensures Normalize("hello") == "hello" && Contains("hello", "hello")
  {
    NormalizePlain("hello");
    assert OccursAt("hello", "hello", 0);
  }

  /** Content whose normalisation contains `hello` is supported by the
      generic plugin. */
  lemma HelloKeywordMatches(content: string)
    requires Contains(Normalize(content), "hello")
    ensures MatchesAny(content, KeywordsOf(Generic))
  {
    HelloLower();
    assert KeywordsOf(Generic)[0] == "hello";
    MatchesAt(content, KeywordsOf(Generic), 0);
  }

  /** `"HeLLo"` and `"HELLO"` are supported like `"hello"`. */
  lemma MixedCaseMatches(content: string)
    requires content == "HeLLo" || content == "HELLO"
    ensures MatchesAny(content, KeywordsOf(Generic))
  {
    MixedCaseLowers();
    HelloLower();
    HelloNormal();
    NormalizeIgnoresCase(content, "hello");
    HelloKeywordMatches(content);
  }
}
