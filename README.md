# Career recommendation action

A model of the Rasa custom action `action_recommend_career_enhanced` of a career-guidance chatbot. The action works in five steps:

1. It reads the `interest_keywords` slot and coerces it to a list of phrases.
2. It normalises each phrase with `preprocess_text`: lowercase, tokenize, keep the alphanumeric tokens, lemmatize, drop the stopwords.
3. It scores every profile of the static `CAREER_DATA` table by how many normalised tokens the profile's keywords share with the user's.
4. It sorts the profiles with a positive score by descending score, using Python's stable sort, and keeps the first one.
5. It replies through the dispatcher. It either asks for interests, asks to rephrase, or says that nothing matched. Otherwise it explains the chosen career, with an answer from a generative model when an API key is configured.

Modules, one per file:

- `results.dfy` (`Results`): `Try` (a value, or an exception) and `Option` (a `dict.get` that may miss).
- `pystr.dfy` (`PyStr`): the Python string operations the action uses: `lower`, `isalnum`, `title`, `strip`, `join` and `in`.
- `normalizer.dfy` (`Normalizer`): `preprocess_text`, and the union of normalised tokens over a list of phrases. NLTK's tokenizer, lemmatizer and stopword list are taken as the services of an `Nlp` value.
- `career_data.dfy` (`CareerData`): the ten profiles of `CAREER_DATA`, in declaration order, and the fact that each has all three fields.
- `matching.dfy` (`Matching`): the score, the candidate list, the stable descending sort, and the top-1 selection.
- `recommender.dfy` (`Recommender`): the slot coercion; the decision tree `Decide`; the messages each outcome sends (`Render`); the dispatcher and the generative model as classes; and `Run`, the imperative method with the loops of the source.
- `outcomes.dfy` (`Outcomes`): one lemma per reply branch. Each says exactly when that branch is taken and what it sends.

The message texts (`FallbackText`, `IntroText`, `ApologyText`) and the prompt (`Prompt`) state in their contracts which values each one quotes.

`Run` is proved against `Decide`. The messages it leaves in the dispatcher are `Render(Decide(...))`. The prompts the model receives are `PromptsSent(Decide(...))`. It returns no events. `Run` takes the career table as a parameter, and every lemma about a run holds for any table. `CareerData.Careers` is `CAREER_DATA` transcribed entry by entry, in declaration order; it is the table the action uses.

`Decide` has three layers, one per stage of `run`:

- `Decide` checks whether the slot is truthy.
- `DecideOnKeywords` takes over once the slot is coerced to keywords.
- `DecideOnMatches` takes over once the profiles can be scored. It is generic over the score function.

The lemmas of `Outcomes`, `Matching` and `Normalizer` state what each layer and `Render` promise.

## Model

| member | source | states |
|---|---|---|
| PyStr.Lower | actions/actions.py:149 | `text.lower()`: same length; every upper-case letter becomes its lower-case letter, and every other character is unchanged |
| PyStr.LowerChar | actions/actions.py:149 | lower-casing one character: an upper-case letter moves down by 32 and stays a letter; any other character is unchanged |
| PyStr.UpperChar | actions/actions.py:210 | upper-casing one character: a lower-case letter moves up by 32; any other character is unchanged |
| PyStr.TitleFrom | actions/actions.py:210 | title-casing after a given previous character: the first letter of each run of letters is upper-cased and the rest lower-cased; non-letters are unchanged |
| PyStr.Title | actions/actions.py:210 | `career.title()`: same length; a letter that starts a word is upper-cased, a letter inside a word is lower-cased, and other characters are unchanged |
| PyStr.TitleIdempotent | actions/actions.py:210 | title-casing an already title-cased name changes nothing |
| PyStr.LeadingSpace | actions/actions.py:248 | the length of the leading run of whitespace: everything before it is whitespace and the next character is not |
| PyStr.TrailingSpace | actions/actions.py:248 | the length of the trailing run of whitespace, with the same properties at the end |
| PyStr.Strip | actions/actions.py:248 | `response.text.strip()`: the result neither starts nor ends with whitespace, and it is a slice of the input with only whitespace before and after it |
| PyStr.StripIdempotent | actions/actions.py:248 | stripping a stripped text changes nothing |
| PyStr.Join | actions/actions.py:221 | `", ".join`: no parts give the empty string, and one part gives that part |
| PyStr.OccursInFour | actions/actions.py:259 | both variable parts of a four-piece concatenation occur in it; the apology text has this shape |
| PyStr.OccursInSeven | actions/actions.py:227-228 | all three variable parts of a seven-piece concatenation occur in it; the fallback text and the prompt have this shape |
| PyStr.JoinContainsParts | actions/actions.py:221 | the joined string contains every part |
| PyStr.ContainsMiddle | actions/actions.py:227-228 | a string built as `x + sub + y` contains `sub`; the message texts are built this way |
| Normalizer.KeepAlnum | actions/actions.py:150 | exactly the alphanumeric tokens are kept |
| Normalizer.LemmatizeAll | actions/actions.py:150 | the comprehension succeeds exactly when every word lemmatizes; it then gives each word's lemma, position by position |
| Normalizer.DropStopWords | actions/actions.py:151 | exactly the words outside the stopword set are kept |
| Normalizer.PreprocessText | actions/actions.py:145-155 | `preprocess_text`: lower-case, tokenize, keep the alphanumeric tokens, lemmatize, drop the stopwords, and give no tokens when a service raises; its contract fixes the empty text to no tokens, and `PreprocessTextSound`, `PreprocessTextAbsorbsErrors` and `PreprocessTextComplete` state the rest |
| Normalizer.PreprocessTextSound | actions/actions.py:145-155 | `preprocess_text`: empty text gives no tokens; no token is a stopword; a non-empty result means the tokenizer succeeded; every token is the lemma of an alphanumeric token of the lower-cased text |
| Normalizer.PreprocessTextAbsorbsErrors | actions/actions.py:153-155 | when the tokenizer raises, or the lemmatizer raises on a kept token, the result is the empty list and nothing propagates |
| Normalizer.PreprocessTextComplete | actions/actions.py:149-152 | when nothing raises, the lemma of every alphanumeric token is returned unless it is a stopword |
| Normalizer.ToSet | actions/actions.py:186 | the set holds exactly the list's elements |
| Normalizer.UnionOfMembers | actions/actions.py:184-186 | a token is in the union exactly when some phrase yields it |
| Normalizer.TokensOfMembers | actions/actions.py:203-205 | a token is in the union of normalised phrases exactly when `preprocess_text` of some phrase returns it |
| Normalizer.TokensOfAppend | actions/actions.py:186 | one more phrase adds exactly its normalised tokens to the union |
| Normalizer.TokensOfEmpty | actions/actions.py:192 | the union is empty exactly when every phrase normalises to no token |
| CareerData.CareersComplete | actions/actions.py:94-143 | `CAREER_DATA` has ten profiles, each with keywords, a description and a prompt enhancer, so the `dict.get` defaults never apply to it |
| Matching.Score | actions/actions.py:207 | the number of tokens the user and the profile's keywords share; it is positive exactly when they share a token |
| Matching.MakeRec | actions/actions.py:209-214 | the entry appended for a profile: its score, the title-cased name (same length as the key), and the profile's description and prompt enhancer when present |
| Matching.Candidates | actions/actions.py:201-214 | the entries of the profiles with a positive score; its contract bounds their number by the number of profiles. `CandidatesAreMatches` states membership both ways, and the table order matters only through the tie-break `SelectIsEarliestBest` proves |
| Matching.CandidatesAreMatches | actions/actions.py:202-214 | every candidate has a positive score and is built from its profile; every profile with a positive score is a candidate |
| Matching.InsertAfterTies | actions/actions.py:216 | one sort step adds exactly the new entry |
| Matching.InsertAfterTiesPermutes | actions/actions.py:216 | one sort step adds the new entry to the multiset and nothing else |
| Matching.InsertAfterTiesSorted | actions/actions.py:216 | one sort step keeps the list in descending score order |
| Matching.SortByScoreDesc | actions/actions.py:216 | `sort(key=score, reverse=True)`: same length, descending by score |
| Matching.SortPermutes | actions/actions.py:216 | the sort is a permutation |
| Matching.WithScoreAppend | actions/actions.py:216 | the entries of one score, taken from a concatenation, are the concatenation of each part's entries |
| Matching.WithScoreNone | actions/actions.py:216 | a list with no entry of a score has no entries of that score |
| Matching.InsertAfterTiesStable | actions/actions.py:216 | one sort step puts the new entry after the entries it ties with |
| Matching.SortIsStable | actions/actions.py:216 | the sort is stable: the entries of every score keep their original order |
| Matching.Select | actions/actions.py:216-219 | `recommendations[:1]` after the sort: no entry exactly when there are no candidates, and otherwise one of the candidates |
| Matching.SelectAppend | actions/actions.py:216-217 | adding a profile at the end changes the top entry only when the new profile scores strictly higher |
| Matching.EarliestBestAppend | actions/actions.py:216-217 | the earliest best profile stays so when a profile that scores no higher is appended, and gives way to one that scores higher |
| Matching.EarliestBestFirst | actions/actions.py:216-217 | an appended profile with a positive score is the earliest best when every earlier profile scores zero |
| Matching.SelectIsEarliestBest | actions/actions.py:216-219 | there is no recommendation exactly when every profile scores zero; otherwise it is the earliest profile with the highest score |
| Matching.FirstBestWins | actions/actions.py:216-217 | a first profile that no other profile outscores is the recommendation, ties included |
| Recommender.Truthy | actions/actions.py:169 | the slot is falsy exactly when it is missing, the empty string, the empty list, or a falsy value of another type |
| Recommender.Keywords | actions/actions.py:174-179 | a string slot becomes the one phrase it holds, a list slot is kept as it is, and any other value becomes the empty list |
| Recommender.StringPhrases | actions/actions.py:184-188 | a phrase is kept exactly when it is a string item of the slot list |
| Recommender.StringPhrasesAppend | actions/actions.py:184-188 | one more item adds its text when it is a string, and nothing otherwise |
| Recommender.KeyConfigured | actions/actions.py:224 | the key counts as configured exactly when it is present and not the empty string |
| Recommender.InterestsText | actions/actions.py:221 | the corrected interests text: "your interests" for no keywords, and a single string phrase quoted as it is |
| Recommender.InterestsTextAsWritten | actions/actions.py:221 | the join as written raises exactly when the keyword list holds an item that is not a string |
| Recommender.SkippedItemBreaksJoin | actions/actions.py:221 | the input `["coding", <non-string>]` is scored on "coding", but the join as written raises on it |
| Recommender.InterestsTextAgrees | actions/actions.py:221 | wherever the join as written does not raise, the corrected text is identical to it |
| Recommender.FallbackText | actions/actions.py:227-228 | the reply without a key names the interests and the career and quotes the description |
| Recommender.IntroText | actions/actions.py:252 | the line before the model's answer names the interests and the career |
| Recommender.ApologyText | actions/actions.py:259 | the reply after a failed call names the career and quotes the description |
| Recommender.Prompt | actions/actions.py:236-242 | the prompt names the interests and the career and carries the prompt enhancer |
| Recommender.Decide | actions/actions.py:169-263 | the outcome of a run: a falsy slot asks for interests, and the model is called only when a key is configured |
| Recommender.DecideOnKeywords | actions/actions.py:182-263 | after coercion: the rephrase reply needs a non-empty keyword list and the ask-interest reply an empty one; the model is called only with a key |
| Recommender.DecideOnMatches | actions/actions.py:201-263 | after scoring: no recommendation exactly when there are no candidates; otherwise a candidate is explained with the given interests text; the model is called only with a key |
| Recommender.Explain | actions/actions.py:224-260 | the explanation of a chosen career: the fallback exactly when no key is configured; a generated answer only when the model answers, the apology only when it raises |
| Recommender.Render | actions/actions.py:169-260 | the messages an outcome sends: one to three, and the last is a domain response in every case but the rephrase text |
| Recommender.PromptsSent | actions/actions.py:236-248 | the prompts an outcome sends: at most one, and only the prompt for the chosen career on the way to a generated or failed explanation |
| Recommender.Dispatcher.constructor | actions/actions.py:162 | the dispatcher starts with no messages |
| Recommender.Dispatcher.UtterText | actions/actions.py:193 | `utter_message(text=...)` appends that text message |
| Recommender.Dispatcher.UtterResponse | actions/actions.py:170 | `utter_message(response=...)` appends that response message |
| Recommender.GenerativeModel.constructor | actions/actions.py:246 | the model starts with no prompts sent |
| Recommender.GenerativeModel.GenerateContent | actions/actions.py:247-248 | sending a prompt logs it and gives the model's answer or an exception |
| Recommender.CollectUserTokens | actions/actions.py:182-188 | the loop builds the union of the normalised string phrases and skips the other items |
| Recommender.CollectProfileTokens | actions/actions.py:203-205 | the inner loop builds the union of a profile's normalised keywords; a missing keyword list counts as empty |
| Recommender.CollectRecommendations | actions/actions.py:201-214 | the scoring loop keeps, in table order, one entry per profile with a positive score |
| Recommender.SendOutcome | actions/actions.py:224-260 | uttering an outcome appends exactly its messages, in order |
| Recommender.Recommend | actions/actions.py:224-260 | the explanation step sends the messages of `Explain`; it calls the model only when a key is configured |
| Recommender.RespondToMatches | actions/actions.py:201-263 | after the user tokens are known, the messages sent and the prompts are those of `DecideOnMatches` under the user-token score |
| Recommender.Run | actions/actions.py:162-266 | the messages sent are those of the outcome `Decide` chooses; a prompt is sent only on the way to a generated or failed explanation; the result is `[]` |
| Outcomes.AskInterestExactly | actions/actions.py:169-199 | the action asks for interests exactly when the slot is falsy or coerces to no keywords; a missing or empty slot or a non-string, non-list value all end there with only `utter_ask_interest` |
| Outcomes.RephraseExactly | actions/actions.py:183-195 | for a coerced keyword list, the single rephrase text is sent exactly when the list is non-empty and no string phrase normalises to a token; no prompt is sent |
| Outcomes.NoMatchExactly | actions/actions.py:216-219 | once the profiles are scored, only `utter_no_recommendation` is sent exactly when every profile scores zero; no prompt is sent |
| Outcomes.ChosenIsEarliestBest | actions/actions.py:216-220 | a recommended career is built from the earliest profile with the highest positive score |
| Outcomes.ChosenRecord | actions/actions.py:209-214 | the recommendation carries the title-cased name and the profile's description and prompt enhancer; a missing description defaults to "No description available.", and a missing enhancer to a request naming the career |
| Outcomes.NoKeyFallback | actions/actions.py:224-231 | without a key: the key notice, the fallback text, then `utter_ask_for_more_details`; no prompt is sent |
| Outcomes.ModelAnswers | actions/actions.py:247-255 | with a key and an answer: the intro, the stripped answer, then `utter_ask_for_more_details`; exactly that prompt is sent |
| Outcomes.ModelRaises | actions/actions.py:257-260 | with a key and a failed call: the apology, then `utter_ask_for_more_details`; the prompt is logged once as sent, which for a failed model constructor means the model was asked at most once |
| Outcomes.ChosenEndsWithFollowUp | actions/actions.py:224-260 | every branch that explains a career ends with `utter_ask_for_more_details` and sends at most one prompt |
| Outcomes.InterestsQuoted | actions/actions.py:221 | the interests text quotes every string phrase of the slot |

## Left out

- NLTK's `word_tokenize`, `WordNetLemmatizer.lemmatize` and the English stopword list are parameters of the model. Their internals are not modelled. Any of them may raise, and `preprocess_text` absorbs that.
- NLTK resource discovery and downloads, at module level, are file-system and network side effects. They are not modelled.
- The Gemini API configuration and the network call are not modelled. The model's answer to a prompt is a function parameter. It gives either a text or an exception, and the exception covers a failing `generate_content`, a failing `.text` and a failing model constructor. A failing constructor is logged in `GenerativeModel.prompts` as a sent prompt, although the source never reaches `generate_content` then.
- The `GEMINI_API_KEY` environment variable is a parameter. It counts as configured when it is present and non-empty.
- Every `print` of debug output is not modelled.
- `async` is left out. `run` awaits nothing, so the model treats it as a sequential method.
- The tracker and the domain argument are left out. The action reads only the `interest_keywords` slot, which is a parameter.
- `app.py`, the Streamlit front end that posts to the Rasa server, is not part of this model.
- PyStr.Lower, PyStr.Title, PyStr.Strip and PyStr.IsAlnum follow Python only on ASCII. Full Unicode case mapping, Unicode whitespace and Unicode letter and digit classes are not modelled.
- Matching.SortByScoreDesc models `list.sort` as a stable insertion sort on a sequence. The in-place update of the Python list is not modelled; the result order is the one Python's stable sort gives.
- Recommender.Run uses the corrected interests text. The as-written join, which raises on a non-string slot item, is modelled separately; see Findings.

## Findings

| source | as written | input that shows it | evidently intended | confidence | as-written member | corrected member |
|---|---|---|---|---|---|---|
| actions/actions.py:221 | `", ".join(user_interest_keywords)` joins every slot item, but lines 185-188 skip the items that are not strings | a slot list `["coding", 42]`: "coding" is normalised and scored, then the join raises a `TypeError` outside any `try`, so the action fails instead of replying | join only the string phrases that were used | not executed | Recommender.InterestsTextAsWritten, Recommender.SkippedItemBreaksJoin | Recommender.InterestsText, Recommender.InterestsTextAgrees |
