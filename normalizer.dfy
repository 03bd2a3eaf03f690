/** `preprocess_text`: the normaliser applied to the user's phrases and to every
    profile keyword, with NLTK's tokenizer, lemmatizer and stopword list taken
    as given. */
module Normalizer {
  import opened Results
  import opened PyStr

  /** The NLTK services the normaliser relies on. The tokenizer and the
      lemmatizer may raise (a missing corpus, say); the stopword list is the
      English list loaded once at start-up. */
  datatype Nlp = Nlp(
    tokenize: string -> Try<seq<string>>,  // nltk.word_tokenize
    lemmatize: string -> Try<string>,      // WordNetLemmatizer().lemmatize
    stopWords: set<string>)                // set(stopwords.words('english'))

  /** The tokens that pass `str.isalnum`, in their order. */
  function KeepAlnum(tokens: seq<string>): (r: seq<string>)
    ensures forall w :: w in r <==> w in tokens && IsAlnum(w)
  {
    if tokens == [] then []
    else (if IsAlnum(tokens[0]) then [tokens[0]] else []) + KeepAlnum(tokens[1..])
  }

  /** The lemma of every word, in order; the list comprehension raises as soon
      as one lemmatization raises. */
  function LemmatizeAll(nlp: Nlp, words: seq<string>): (r: Try<seq<string>>)
    ensures r.Ok? <==> forall i :: 0 <= i < |words| ==> nlp.lemmatize(words[i]).Ok?
    ensures r.Ok? ==> |r.value| == |words|
    ensures r.Ok? ==> forall i :: 0 <= i < |words| ==> nlp.lemmatize(words[i]) == Ok(r.value[i])
  {
    if words == [] then Ok([])
    else
      match nlp.lemmatize(words[0])
      case Raised => Raised
      case Ok(first) =>
        match LemmatizeAll(nlp, words[1..])
        case Raised => Raised
        case Ok(rest) => Ok([first] + rest)
  }

  /** The words that are not stopwords, in their order. */
  function DropStopWords(words: seq<string>, stop: set<string>): (r: seq<string>)
    ensures forall w :: w in r <==> w in words && w !in stop
  {
    if words == [] then []
    else (if words[0] in stop then [] else [words[0]]) + DropStopWords(words[1..], stop)
  }

  /** `preprocess_text(text)`: lower-case, tokenize, keep the alphanumeric
      tokens, lemmatize them and drop the stopwords; an exception from the
      tokenizer or the lemmatizer is absorbed and gives no tokens. */
  function PreprocessText(nlp: Nlp, text: string): (r: seq<string>)
    ensures text == "" ==> r == []
  {
    if text == "" then []
    else
      match nlp.tokenize(Lower(text))
      case Raised => []
      case Ok(tokens) =>
        match LemmatizeAll(nlp, KeepAlnum(tokens))
        case Raised => []
        case Ok(lemmas) => DropStopWords(lemmas, nlp.stopWords)
  }

  /** Empty text gives no tokens. Every token returned is the lemma of an
      alphanumeric token of the lower-cased text, and none is a stopword. */
  lemma PreprocessTextSound(nlp: Nlp, text: string)
    ensures text == "" ==> PreprocessText(nlp, text) == []
    ensures forall w :: w in PreprocessText(nlp, text) ==> w !in nlp.stopWords
    ensures PreprocessText(nlp, text) != [] ==> nlp.tokenize(Lower(text)).Ok?
    ensures forall w :: w in PreprocessText(nlp, text) ==>
              exists t :: t in nlp.tokenize(Lower(text)).value && IsAlnum(t) && nlp.lemmatize(t) == Ok(w)
  {
    var r := PreprocessText(nlp, text);
    if r != [] {
      var tokens := nlp.tokenize(Lower(text)).value;
      var words := KeepAlnum(tokens);
      var lemmas := LemmatizeAll(nlp, words).value;
      assert r == DropStopWords(lemmas, nlp.stopWords);
      forall w | w in r
        ensures exists t :: t in tokens && IsAlnum(t) && nlp.lemmatize(t) == Ok(w)
      {
        var i :| 0 <= i < |lemmas| && lemmas[i] == w;
        assert words[i] in words;
      }
    }
  }

  /** The tokenizer raised, or the lemmatizer raised on one of the
      alphanumeric tokens: the cases `preprocess_text` catches. */
  predicate RaisesInside(nlp: Nlp, text: string) {
    match nlp.tokenize(Lower(text))
    case Raised => true
    case Ok(tokens) => exists t :: t in tokens && IsAlnum(t) && nlp.lemmatize(t).Raised?
  }

  /** An exception inside the normaliser never reaches its caller: the result
      is then the empty list. */
  lemma PreprocessTextAbsorbsErrors(nlp: Nlp, text: string)
    requires RaisesInside(nlp, text)
    ensures PreprocessText(nlp, text) == []
  {
    if text != "" && nlp.tokenize(Lower(text)).Ok? {
      var tokens := nlp.tokenize(Lower(text)).value;
      var t :| t in tokens && IsAlnum(t) && nlp.lemmatize(t).Raised?;
      var words := KeepAlnum(tokens);
      var i :| 0 <= i < |words| && words[i] == t;
      assert LemmatizeAll(nlp, words).Raised?;
    }
  }

  /** Conversely, when nothing raises, the lemma of every alphanumeric token
      that is not a stopword is returned. */
  lemma PreprocessTextComplete(nlp: Nlp, text: string, t: string)
    requires text != "" && !RaisesInside(nlp, text)
    requires t in nlp.tokenize(Lower(text)).value && IsAlnum(t)
    ensures nlp.lemmatize(t).Ok?
    ensures nlp.lemmatize(t).value !in nlp.stopWords ==> nlp.lemmatize(t).value in PreprocessText(nlp, text)
  {
    var tokens := nlp.tokenize(Lower(text)).value;
    var words := KeepAlnum(tokens);
    assert forall i :: 0 <= i < |words| ==> words[i] in words;
    var lemmas := LemmatizeAll(nlp, words).value;
    var i :| 0 <= i < |words| && words[i] == t;
    assert lemmas[i] in lemmas;
  }

  function ToSet(s: seq<string>): (r: set<string>)
    ensures forall w :: w in r <==> w in s
  {
    set w | w in s
  }

  /** The union of `norm(p)` over the phrases `p`, accumulated front to back. */
  function UnionOf(norm: string -> seq<string>, phrases: seq<string>): set<string>
  {
    if phrases == [] then {}
    else UnionOf(norm, phrases[..|phrases| - 1]) + ToSet(norm(phrases[|phrases| - 1]))
  }

  /** The union of the normalised tokens of every phrase: what the
      `set.update(preprocess_text(...))` loops of the action accumulate. */
  function TokensOf(nlp: Nlp, phrases: seq<string>): set<string>
  {
    UnionOf(text => PreprocessText(nlp, text), phrases)
  }

  lemma {:induction false} UnionOfMembers(norm: string -> seq<string>, phrases: seq<string>, w: string)
    ensures w in UnionOf(norm, phrases) <==> exists i :: 0 <= i < |phrases| && w in norm(phrases[i])
  {
    if phrases != [] {
      var n := |phrases| - 1;
      var init := phrases[..n];
      UnionOfMembers(norm, init, w);
      if w in UnionOf(norm, phrases) {
        if w in UnionOf(norm, init) {
          var i :| 0 <= i < |init| && w in norm(init[i]);
          assert init[i] == phrases[i];
        } else {
          assert w in norm(phrases[n]);
        }
      } else {
        forall i | 0 <= i < |phrases|
          ensures w !in norm(phrases[i])
        {
          if i < n {
            assert phrases[i] == init[i];
          }
        }
      }
    }
  }

  /** A token is in the union exactly when some phrase normalises to it. */
  lemma TokensOfMembers(nlp: Nlp, phrases: seq<string>, w: string)
    ensures w in TokensOf(nlp, phrases) <==> exists i :: 0 <= i < |phrases| && w in PreprocessText(nlp, phrases[i])
  {
    UnionOfMembers(text => PreprocessText(nlp, text), phrases, w);
  }

  /** The union is empty exactly when no phrase normalises to any token. */
  lemma TokensOfEmpty(nlp: Nlp, phrases: seq<string>)
    ensures TokensOf(nlp, phrases) == {} <==> forall i :: 0 <= i < |phrases| ==> PreprocessText(nlp, phrases[i]) == []
  {
    if TokensOf(nlp, phrases) != {} {
      var w :| w in TokensOf(nlp, phrases);
      TokensOfMembers(nlp, phrases, w);
    } else {
      forall i | 0 <= i < |phrases|
        ensures PreprocessText(nlp, phrases[i]) == []
      {
        if PreprocessText(nlp, phrases[i]) != [] {
          TokensOfMembers(nlp, phrases, PreprocessText(nlp, phrases[i])[0]);
        }
      }
    }
  }

  /** One more phrase adds exactly its normalised tokens. */
  lemma TokensOfAppend(nlp: Nlp, phrases: seq<string>, phrase: string)
    ensures TokensOf(nlp, phrases + [phrase]) == TokensOf(nlp, phrases) + ToSet(PreprocessText(nlp, phrase))
  {
    assert (phrases + [phrase])[..|phrases|] == phrases;
  }
}
