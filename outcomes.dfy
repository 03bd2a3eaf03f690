/** What `ActionRecommendCareerEnhanced.run` replies, branch by branch: each
    lemma fixes when `Decide` picks an outcome and what `Render` then sends. */
module Outcomes {
  import opened Results
  import opened PyStr
  import opened Normalizer
  import opened CareerData
  import opened Matching
  import opened Recommender

  /** The outcomes reached after a career was chosen. */
  predicate Chosen(o: Outcome) {
    o.FallbackNoKey? || o.Generated? || o.FallbackCallFailed?
  }

  /** The action asks for the user's interests exactly when the slot is falsy
      or coerces to no keywords (a truthy value that is neither a string nor
      a list); it then sends only the ask-interest response. */
  lemma AskInterestExactly(nlp: Nlp, table: seq<Profile>, slot: Slot, keyConfigured: bool, respond: string -> Try<string>)
    ensures Decide(nlp, table, slot, keyConfigured, respond) == NoInterestProvided
            <==> !Truthy(slot) || Keywords(slot) == []
    ensures slot.Absent? || slot.Other? || slot == Str("") || slot == List([]) ==>
              Decide(nlp, table, slot, keyConfigured, respond) == NoInterestProvided
    ensures Render(NoInterestProvided) == [Response(AskInterestResponse)] && PromptsSent(NoInterestProvided) == []
  {
    if Truthy(slot) && Keywords(slot) == [] {
      assert StringPhrases([]) == [];
      assert UserTokens(nlp, []) == {};
    }
  }

  /** With keywords, the action asks to rephrase exactly when none of the
      string phrases normalises to a token; it then sends the one rephrase
      text, and neither scores nor calls the model. */
  lemma RephraseExactly(nlp: Nlp, table: seq<Profile>, keywords: seq<Item>, keyConfigured: bool, respond: string -> Try<string>)
    ensures DecideOnKeywords(nlp, table, keywords, keyConfigured, respond) == NoKeywordsExtracted
            <==> keywords != [] && forall w :: Phrase(w) in keywords ==> PreprocessText(nlp, w) == []
    ensures Render(NoKeywordsExtracted) == [Text(RephraseText)] && PromptsSent(NoKeywordsExtracted) == []
  {
    var phrases := StringPhrases(keywords);
    assert UserTokens(nlp, keywords) == {} <==> forall w :: Phrase(w) in keywords ==> PreprocessText(nlp, w) == [] by {
      TokensOfEmpty(nlp, phrases);
      forall w | Phrase(w) in keywords
        ensures w in phrases
      {
      }
      forall i | 0 <= i < |phrases|
        ensures Phrase(phrases[i]) in keywords
      {
        assert phrases[i] in phrases;
      }
    }
  }

  /** Once the profiles are scored, there is no recommendation exactly when
      every profile of the table scores zero; only the no-recommendation
      response is sent. */
  lemma NoMatchExactly(table: seq<Profile>, score: Profile -> nat, interests: string, keyConfigured: bool, respond: string -> Try<string>)
    ensures DecideOnMatches(table, score, interests, keyConfigured, respond) == NoMatch
            <==> forall j :: 0 <= j < |table| ==> score(table[j]) == 0
    ensures Render(NoMatch) == [Response(NoRecommendationResponse)] && PromptsSent(NoMatch) == []
  {
    SelectIsEarliestBest(table, score);
  }

  /** A recommended career is the earliest profile of the table with the
      highest positive score, under its title-cased name. */
  lemma ChosenIsEarliestBest(table: seq<Profile>, score: Profile -> nat, interests: string, keyConfigured: bool, respond: string -> Try<string>)
    requires Chosen(DecideOnMatches(table, score, interests, keyConfigured, respond))
    ensures exists k :: IsEarliestBest(table, score, k) &&
              DecideOnMatches(table, score, interests, keyConfigured, respond).rec == MakeRec(table[k], score(table[k]))
  {
    SelectIsEarliestBest(table, score);
  }

  /** The chosen career's name is title-cased, and the profile's missing
      description and prompt enhancer are replaced by the defaults. */
  lemma ChosenRecord(p: Profile, score: nat)
    ensures MakeRec(p, score).career == Title(p.name)
    ensures p.description.Some? ==> MakeRec(p, score).description == p.description.value
    ensures p.description.None? ==> MakeRec(p, score).description == "No description available."
    ensures p.promptEnhancer.Some? ==> MakeRec(p, score).prompt == p.promptEnhancer.value
    ensures p.promptEnhancer.None? ==> Contains(MakeRec(p, score).prompt, Title(p.name))
  {
    if p.promptEnhancer.None? {
      ContainsMiddle("Tell me more about being a ", Title(p.name), ".");
    }
  }

  /** Without an API key: the key notice, the fallback text, then the
      follow-up; the model is not called. */
  lemma NoKeyFallback(rec: Rec, interests: string, respond: string -> Try<string>)
    ensures Render(Explain(rec, interests, false, respond)) ==
              [Text(KeyMissingText), Text(FallbackText(interests, rec)), Response(AskMoreDetailsResponse)]
    ensures PromptsSent(Explain(rec, interests, false, respond)) == []
  {
  }

  /** With an API key and an answer from the model: the intro, the answer
      stripped of surrounding whitespace, then the follow-up; the model was
      sent exactly the prompt. */
  lemma ModelAnswers(rec: Rec, interests: string, respond: string -> Try<string>, text: string)
    requires respond(Prompt(interests, rec)) == Ok(text)
    ensures Render(Explain(rec, interests, true, respond)) ==
              [Text(IntroText(interests, rec)), Text(Strip(text)), Response(AskMoreDetailsResponse)]
    ensures PromptsSent(Explain(rec, interests, true, respond)) == [Prompt(interests, rec)]
  {
  }

  /** With an API key and a failed call: the apology, then the follow-up.
      The prompt is logged once as sent; a failure in building the model is
      folded into `respond`, so it is logged the same way. */
  lemma ModelRaises(rec: Rec, interests: string, respond: string -> Try<string>)
    requires respond(Prompt(interests, rec)).Raised?
    ensures Render(Explain(rec, interests, true, respond)) == [Text(ApologyText(rec)), Response(AskMoreDetailsResponse)]
    ensures PromptsSent(Explain(rec, interests, true, respond)) == [Prompt(interests, rec)]
  {
  }

  /** Every chosen outcome ends with the follow-up response, and the model is
      called at most once. */
  lemma ChosenEndsWithFollowUp(o: Outcome)
    requires Chosen(o)
    ensures |Render(o)| >= 2 && Render(o)[|Render(o)| - 1] == Response(AskMoreDetailsResponse)
    ensures |PromptsSent(o)| <= 1
  {
  }

  /** The interests quoted back name every string phrase of the slot. */
  lemma InterestsQuoted(keywords: seq<Item>, w: string)
    requires Phrase(w) in keywords
    ensures Contains(InterestsText(keywords), w)
  {
    var phrases := StringPhrases(keywords);
    assert w in phrases;
    var i :| 0 <= i < |phrases| && phrases[i] == w;
    JoinContainsParts(", ", phrases, i);
  }
}
