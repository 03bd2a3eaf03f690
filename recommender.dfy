/** `ActionRecommendCareerEnhanced`: reads the `interest_keywords` slot,
    matches it against the career table, and replies through the dispatcher,
    with an explanation from the generative model when a key is configured. */
module Recommender {
  import opened Results
  import opened PyStr
  import opened Normalizer
  import opened CareerData
  import opened Matching

  /** The name under which the domain registers the action. */
  const ActionName := "action_recommend_career_enhanced"

  /** An element of a list-valued slot: a string, or any other value. */
  datatype Item = Phrase(text: string) | NonString

  /** The value of the `interest_keywords` slot. `Other` is any value that is
      neither a string nor a list, with its Python truth value. */
  datatype Slot = Absent | Str(s: string) | List(items: seq<Item>) | Other(truthy: bool)

  /** A message sent through the dispatcher: plain text, or a named response
      template of the domain. */
  datatype Message = Text(text: string) | Response(name: string)

  /** An event returned to the dialogue server; the action never returns one. */
  datatype Event = SlotSet(key: string, value: string)

  /** The one outcome of a run, which fixes the reply. */
  datatype Outcome =
    | NoInterestProvided
    | NoKeywordsExtracted
    | NoMatch
    | FallbackNoKey(rec: Rec, interests: string)
    | Generated(rec: Rec, interests: string, explanation: string)
    | FallbackCallFailed(rec: Rec, interests: string)

  /** Python truthiness of the slot value: the falsy values are `None`, the
      empty string, the empty list and a falsy value of another type. */
  predicate Truthy(slot: Slot): (b: bool)
    ensures !b <==> slot.Absent? || slot == Str("") || slot == List([]) || slot == Other(false)
  {
    match slot
    case Absent => false
    case Str(s) => s != ""
    case List(items) => items != []
    case Other(t) => t
  }

  /** `user_interest_keywords`: a string becomes a one-phrase list, a list is
      kept, anything else becomes the empty list. */
  function Keywords(slot: Slot): (r: seq<Item>)
    ensures slot.Str? ==> StringPhrases(r) == [slot.s]
    ensures slot.List? ==> r == slot.items
    ensures !slot.Str? && !slot.List? ==> r == []
  {
    match slot
    case Str(s) => [Phrase(s)]
    case List(items) => items
    case _ => []
  }

  /** The string items of the list, in order; the others are skipped. */
  function StringPhrases(items: seq<Item>): (r: seq<string>)
    ensures forall w :: w in r <==> Phrase(w) in items
  {
    if items == [] then []
    else
      var init := items[..|items| - 1];
      assert items == init + [items[|items| - 1]];
      StringPhrases(init) + (match items[|items| - 1] case Phrase(w) => [w] case NonString => [])
  }

  /** One more item adds its text when it is a string, and nothing
      otherwise. */
  lemma StringPhrasesAppend(items: seq<Item>, x: Item)
    ensures StringPhrases(items + [x]) == StringPhrases(items) + (if x.Phrase? then [x.text] else [])
  {
    assert (items + [x])[..|items|] == items;
  }

  /** The normalised user tokens: the union over the string phrases. */
  function UserTokens(nlp: Nlp, keywords: seq<Item>): set<string> {
    TokensOf(nlp, StringPhrases(keywords))
  }

  /** The scoring of the profiles against a set of user tokens. */
  function ScoreAgainst(nlp: Nlp, user: set<string>): Profile -> nat {
    p => Score(nlp, p, user)
  }

  /** `GEMINI_API_KEY` is set and non-empty. */
  predicate KeyConfigured(apiKey: Option<string>): (b: bool)
    ensures !b <==> apiKey.None? || apiKey == Some("")
  {
    apiKey.Some? && apiKey.value != ""
  }

  /** The interests as quoted back to the user: the string phrases joined by
      ", " (the source joins every item, see `InterestsTextAsWritten`). */
  function InterestsText(keywords: seq<Item>): (r: string)
    ensures keywords == [] ==> r == "your interests"
    ensures keywords != [] && |StringPhrases(keywords)| == 1 ==> r == StringPhrases(keywords)[0]
  {
    if keywords != [] then Join(", ", StringPhrases(keywords)) else "your interests"
  }

  /** Line 221 as written: `", ".join` over every item raises on an item that
      is not a string. */
  function InterestsTextAsWritten(keywords: seq<Item>): (r: Try<string>)
    ensures r.Raised? <==> NonString in keywords
  {
    if keywords == [] then Ok("your interests")
    else if NonString in keywords then Raised
    else Ok(Join(", ", StringPhrases(keywords)))
  }

  /** A slot that mixes a phrase with a non-string item: the phrase is
      normalised and scored, but quoting the interests back raises. */
  lemma SkippedItemBreaksJoin()
    ensures StringPhrases([Phrase("coding"), NonString]) == ["coding"]
    ensures InterestsTextAsWritten([Phrase("coding"), NonString]) == Raised
    ensures InterestsText([Phrase("coding"), NonString]) == "coding"
  {
    var items := [Phrase("coding"), NonString];
    assert items[..1] == [Phrase("coding")];
    assert [Phrase("coding")][..0] == [];
  }

  /** Wherever the source does not raise, the corrected text is the one it
      produces. */
  lemma InterestsTextAgrees(keywords: seq<Item>)
    requires NonString !in keywords
    ensures InterestsTextAsWritten(keywords) == Ok(InterestsText(keywords))
  {
  }

  const AskInterestResponse := "utter_ask_interest"
  const AskMoreDetailsResponse := "utter_ask_for_more_details"
  const NoRecommendationResponse := "utter_no_recommendation"
  const RephraseText := "I couldn't process the keywords from your interests. Could you try phrasing them differently, e.g., 'I enjoy coding' or 'I'm interested in art'?"
  const KeyMissingText := "LLM API key not configured. Falling back to basic description."

  /** The reply without a key: it names the interests and the career and
      quotes the description. */
  function FallbackText(interests: string, rec: Rec): (r: string)
    ensures Contains(r, interests) && Contains(r, rec.career) && Contains(r, rec.description)
  {
    OccursInSeven("Based on your interests in: ", interests, ",\nYou might like **", rec.career, "**: ", rec.description, "\n");
    "Based on your interests in: " + interests + ",\nYou might like **" + rec.career + "**: " + rec.description + "\n"
  }

  /** The line before the model's answer: it names the interests and the
      career. */
  function IntroText(interests: string, rec: Rec): (r: string)
    ensures Contains(r, interests) && Contains(r, rec.career)
  {
    OccursInFour("Since you're interested in ", interests, ", let's talk about becoming a **", rec.career + "**!");
    assert "Since you're interested in " + interests + ", let's talk about becoming a **" + (rec.career + "**!")
        == "Since you're interested in " + interests + ", let's talk about becoming a **" + rec.career + "**!";
    ContainsMiddle("Since you're interested in " + interests + ", let's talk about becoming a **", rec.career, "**!");
    "Since you're interested in " + interests + ", let's talk about becoming a **" + rec.career + "**!"
  }

  /** The reply when the model fails: it names the career and quotes the
      description. */
  function ApologyText(rec: Rec): (r: string)
    ensures Contains(r, rec.career) && Contains(r, rec.description)
  {
    OccursInFour("I had a little trouble getting detailed info for ", rec.career, " right now, but here's a basic idea: ", rec.description);
    "I had a little trouble getting detailed info for " + rec.career + " right now, but here's a basic idea: " + rec.description
  }

  const PromptOpening := "You are a friendly and encouraging AI career counsellor. "
  const PromptClosing := " Keep the tone positive and conversational. Make it sound like a natural continuation of our chat. Do not start with 'Okay' or 'Sure'. Be concise but informative, around 100-150 words."

  /** The prompt sent to the model: it names the interests and the career and
      carries the profile's prompt enhancer. */
  function Prompt(interests: string, rec: Rec): (r: string)
    ensures Contains(r, interests) && Contains(r, rec.career) && Contains(r, rec.prompt)
  {
    OccursInSeven(PromptOpening + "A user has expressed interest in '", interests,
                  "'. Based on this, a potentially suitable career is '", rec.career, "'. ", rec.prompt, PromptClosing);
    PromptOpening + "A user has expressed interest in '" + interests
      + "'. Based on this, a potentially suitable career is '" + rec.career
      + "'. " + rec.prompt + PromptClosing
  }

  /** The decision tree of the action. `respond` is what the generative model
      answers to a prompt, or `Raised` when the call or reading its text fails. */
  function Decide(nlp: Nlp, table: seq<Profile>, slot: Slot, keyConfigured: bool, respond: string -> Try<string>): (r: Outcome)
    ensures !Truthy(slot) ==> r == NoInterestProvided
    ensures PromptsSent(r) != [] ==> keyConfigured
  {
    if !Truthy(slot) then NoInterestProvided
    else DecideOnKeywords(nlp, table, Keywords(slot), keyConfigured, respond)
  }

  /** The decision once the slot is coerced to a keyword list: normalise the
      string phrases, then match. */
  function DecideOnKeywords(nlp: Nlp, table: seq<Profile>, keywords: seq<Item>, keyConfigured: bool, respond: string -> Try<string>): (r: Outcome)
    ensures r == NoKeywordsExtracted ==> keywords != []
    ensures r == NoInterestProvided ==> keywords == []
    ensures PromptsSent(r) != [] ==> keyConfigured
  {
    var user := UserTokens(nlp, keywords);
    if user == {} && keywords != [] then NoKeywordsExtracted
    else if user == {} then NoInterestProvided
    else DecideOnMatches(table, ScoreAgainst(nlp, user), InterestsText(keywords), keyConfigured, respond)
  }

  /** The decision once the profiles can be scored: the top match, if any,
      is explained. */
  function DecideOnMatches(table: seq<Profile>, score: Profile -> nat, interests: string, keyConfigured: bool, respond: string -> Try<string>): (r: Outcome)
    ensures r == NoMatch <==> Candidates(table, score) == []
    ensures r != NoMatch ==> (r.FallbackNoKey? || r.Generated? || r.FallbackCallFailed?) &&
                             r.interests == interests && r.rec in Candidates(table, score)
    ensures PromptsSent(r) != [] ==> keyConfigured
  {
    match Select(table, score)
    case None => NoMatch
    case Some(rec) => Explain(rec, interests, keyConfigured, respond)
  }

  /** The explanation step for the chosen career: the static description when
      no key is configured (the model is not called) or when the call fails,
      the stripped answer of the model otherwise. */
  function Explain(rec: Rec, interests: string, keyConfigured: bool, respond: string -> Try<string>): (r: Outcome)
    ensures (r.FallbackNoKey? || r.Generated? || r.FallbackCallFailed?) && r.rec == rec && r.interests == interests
    ensures r.FallbackNoKey? <==> !keyConfigured
    ensures r.Generated? ==> respond(Prompt(interests, rec)).Ok?
    ensures r.FallbackCallFailed? ==> respond(Prompt(interests, rec)).Raised?
  {
    if !keyConfigured then FallbackNoKey(rec, interests)
    else
      match respond(Prompt(interests, rec))
      case Ok(text) => Generated(rec, interests, Strip(text))
      case Raised => FallbackCallFailed(rec, interests)
  }

  /** The messages that an outcome sends, in order. */
  function Render(o: Outcome): (r: seq<Message>)
    ensures 1 <= |r| <= 3
    ensures r[|r| - 1].Response? <==> o != NoKeywordsExtracted
  {
    match o
    case NoInterestProvided => [Response(AskInterestResponse)]
    case NoKeywordsExtracted => [Text(RephraseText)]
    case NoMatch => [Response(NoRecommendationResponse)]
    case FallbackNoKey(rec, interests) =>
      [Text(KeyMissingText), Text(FallbackText(interests, rec)), Response(AskMoreDetailsResponse)]
    case Generated(rec, interests, explanation) =>
      [Text(IntroText(interests, rec)), Text(explanation), Response(AskMoreDetailsResponse)]
    case FallbackCallFailed(rec, interests) =>
      [Text(ApologyText(rec)), Response(AskMoreDetailsResponse)]
  }

  /** The prompts sent to the generative model on the way to an outcome. */
  function PromptsSent(o: Outcome): (r: seq<string>)
    ensures |r| <= 1
    ensures r != [] ==> (o.Generated? || o.FallbackCallFailed?) && r == [Prompt(o.interests, o.rec)]
  {
    match o
    case Generated(rec, interests, _) => [Prompt(interests, rec)]
    case FallbackCallFailed(rec, interests) => [Prompt(interests, rec)]
    case _ => []
  }

  /** `CollectingDispatcher`: the messages uttered so far. */
  class Dispatcher {
    var messages: seq<Message>

    constructor ()
      ensures messages == []
    {
      messages := [];
    }

    method UtterText(text: string)
      modifies this
      ensures messages == old(messages) + [Text(text)]
    {
      messages := messages + [Text(text)];
    }

    method UtterResponse(name: string)
      modifies this
      ensures messages == old(messages) + [Response(name)]
    {
      messages := messages + [Response(name)];
    }
  }

  /** The generative model: it answers a prompt with `respond`, and keeps
      the prompts it was sent. */
  class GenerativeModel {
    const respond: string -> Try<string>
    var prompts: seq<string>

    constructor (respond: string -> Try<string>)
      ensures this.respond == respond && prompts == []
    {
      this.respond := respond;
      prompts := [];
    }

    /** `model.generate_content(prompt).text` */
    method GenerateContent(prompt: string) returns (r: Try<string>)
      modifies this
      ensures prompts == old(prompts) + [prompt]
      ensures r == respond(prompt)
    {
      prompts := prompts + [prompt];
      r := respond(prompt);
    }
  }

  /** The first loop of `run`: the union of the normalised tokens of the
      string phrases; the other items are skipped. */
  method CollectUserTokens(nlp: Nlp, keywords: seq<Item>) returns (user: set<string>)
    ensures user == UserTokens(nlp, keywords)
  {
    user := {};
    var i := 0;
    while i < |keywords|
      invariant 0 <= i <= |keywords|
      invariant user == UserTokens(nlp, keywords[..i])
    {
      if keywords[i].Phrase? {
        user := user + ToSet(PreprocessText(nlp, keywords[i].text));
      }
      assert user == UserTokens(nlp, keywords[..i + 1]) by {
        var prev := keywords[..i];
        assert keywords[..i + 1] == prev + [keywords[i]];
        StringPhrasesAppend(prev, keywords[i]);
        if keywords[i].Phrase? {
          TokensOfAppend(nlp, StringPhrases(prev), keywords[i].text);
        } else {
          assert StringPhrases(prev) + [] == StringPhrases(prev);
        }
      }
      i := i + 1;
    }
    assert keywords[..i] == keywords;
  }

  /** The inner loop of `run`: the normalised keyword set of one profile. */
  method CollectProfileTokens(nlp: Nlp, profile: Profile) returns (processed: set<string>)
    ensures processed == ProfileTokens(nlp, profile)
  {
    var careerKeywords := KeywordsOf(profile);
    processed := {};
    var k := 0;
    while k < |careerKeywords|
      invariant 0 <= k <= |careerKeywords|
      invariant processed == TokensOf(nlp, careerKeywords[..k])
    {
      processed := processed + ToSet(PreprocessText(nlp, careerKeywords[k]));
      assert processed == TokensOf(nlp, careerKeywords[..k + 1]) by {
        assert careerKeywords[..k + 1] == careerKeywords[..k] + [careerKeywords[k]];
        TokensOfAppend(nlp, careerKeywords[..k], careerKeywords[k]);
      }
      k := k + 1;
    }
    assert careerKeywords[..k] == careerKeywords;
  }

  /** The scoring loop of `run`: one entry per profile with a positive score,
      in table order. */
  method CollectRecommendations(nlp: Nlp, table: seq<Profile>, user: set<string>) returns (recommendations: seq<Rec>)
    ensures recommendations == Candidates(table, ScoreAgainst(nlp, user))
  {
    recommendations := [];
    var j := 0;
    assert table[..j] == [];
    assert recommendations == Candidates(table[..j], ScoreAgainst(nlp, user));
    while j < |table|
      invariant 0 <= j <= |table|
      invariant recommendations == Candidates(table[..j], ScoreAgainst(nlp, user))
    {
      var profile := table[j];
      var processed := CollectProfileTokens(nlp, profile);
      var matchScore := |user * processed|;
      ghost var next := Candidates(table[..j + 1], ScoreAgainst(nlp, user));
      assert next == recommendations + (if matchScore > 0 then [MakeRec(profile, matchScore)] else []) by {
        CandidatesStep(table, j, ScoreAgainst(nlp, user));
        assert matchScore == ScoreAgainst(nlp, user)(profile);
      }
      if matchScore > 0 {
        recommendations := recommendations + [MakeRec(profile, matchScore)];
      }
      assert recommendations == next;
      j := j + 1;
      assert recommendations == Candidates(table[..j], ScoreAgainst(nlp, user));
    }
    assert table[..j] == table;
  }

  /** The branch of `run` after a career is chosen: it sends the messages of
      the explanation outcome and calls the model only when a key is
      configured. */
  method Recommend(dispatcher: Dispatcher, model: GenerativeModel, rec: Rec, interests: string, keyConfigured: bool)
    returns (outcome: Outcome)
    modifies dispatcher, model
    ensures outcome == Explain(rec, interests, keyConfigured, model.respond)
    ensures dispatcher.messages == old(dispatcher.messages) + Render(outcome)
    ensures model.prompts == old(model.prompts) + PromptsSent(outcome)
  {
    if !keyConfigured {
      outcome := FallbackNoKey(rec, interests);
      SendOutcome(dispatcher, outcome);
      return;
    }
    var reply := model.GenerateContent(Prompt(interests, rec));
    match reply {
      case Ok(text) =>
        var explanation := Strip(text);
        outcome := Generated(rec, interests, explanation);
      case Raised =>
        outcome := FallbackCallFailed(rec, interests);
    }
    SendOutcome(dispatcher, outcome);
  }

  /** Utters the messages of an outcome, one by one. */
  method SendOutcome(dispatcher: Dispatcher, o: Outcome)
    modifies dispatcher
    ensures dispatcher.messages == old(dispatcher.messages) + Render(o)
  {
    match o {
      case NoInterestProvided =>
        dispatcher.UtterResponse(AskInterestResponse);
      case NoKeywordsExtracted =>
        dispatcher.UtterText(RephraseText);
      case NoMatch =>
        dispatcher.UtterResponse(NoRecommendationResponse);
      case FallbackNoKey(rec, interests) =>
        dispatcher.UtterText(KeyMissingText);
        dispatcher.UtterText(FallbackText(interests, rec));
        dispatcher.UtterResponse(AskMoreDetailsResponse);
      case Generated(rec, interests, explanation) =>
        dispatcher.UtterText(IntroText(interests, rec));
        dispatcher.UtterText(explanation);
        dispatcher.UtterResponse(AskMoreDetailsResponse);
      case FallbackCallFailed(rec, interests) =>
        dispatcher.UtterText(ApologyText(rec));
        dispatcher.UtterResponse(AskMoreDetailsResponse);
    }
  }

  /** The part of `run` after the user tokens are known: score, sort, take
      the top match and explain it, or say that nothing matched. */
  method RespondToMatches(dispatcher: Dispatcher, model: GenerativeModel, nlp: Nlp, table: seq<Profile>, user: set<string>,
                          interests: string, keyConfigured: bool)
    modifies dispatcher, model
    ensures dispatcher.messages == old(dispatcher.messages) + Render(DecideOnMatches(table, ScoreAgainst(nlp, user), interests, keyConfigured, model.respond))
    ensures model.prompts == old(model.prompts) + PromptsSent(DecideOnMatches(table, ScoreAgainst(nlp, user), interests, keyConfigured, model.respond))
  {
    var recommendations := CollectRecommendations(nlp, table, user);
    recommendations := SortByScoreDesc(recommendations);
    var top := recommendations[..if |recommendations| < 1 then |recommendations| else 1];

    if top != [] {
      var rec := top[0];
      assert Select(table, ScoreAgainst(nlp, user)) == Some(rec);
      var outcome := Recommend(dispatcher, model, rec, interests, keyConfigured);
    } else {
      dispatcher.UtterResponse(NoRecommendationResponse);
    }
  }

  /** `ActionRecommendCareerEnhanced.run`: the messages sent are those of the
      outcome `Decide` gives, the model is sent a prompt only on the way to a
      generated or failed explanation, and no event is returned. */
  method Run(dispatcher: Dispatcher, model: GenerativeModel, nlp: Nlp, table: seq<Profile>, slot: Slot, apiKey: Option<string>)
    returns (events: seq<Event>)
    modifies dispatcher, model
    ensures events == []
    ensures dispatcher.messages == old(dispatcher.messages) + Render(Decide(nlp, table, slot, KeyConfigured(apiKey), model.respond))
    ensures model.prompts == old(model.prompts) + PromptsSent(Decide(nlp, table, slot, KeyConfigured(apiKey), model.respond))
  {
    if !Truthy(slot) {
      dispatcher.UtterResponse(AskInterestResponse);
      return [];
    }

    var keywords: seq<Item>;
    if slot.Str? {
      keywords := [Phrase(slot.s)];
    } else if slot.List? {
      keywords := slot.items;
    } else {
      keywords := [];
    }
    assert keywords == Keywords(slot);

    var user: set<string> := {};
    if keywords != [] {
      user := CollectUserTokens(nlp, keywords);
    }
    assert user == UserTokens(nlp, keywords);

    if user == {} && keywords != [] {
      dispatcher.UtterText(RephraseText);
      return [];
    } else if user == {} {
      dispatcher.UtterResponse(AskInterestResponse);
      return [];
    }

    RespondToMatches(dispatcher, model, nlp, table, user, InterestsText(keywords), KeyConfigured(apiKey));
    return [];
  }
}
