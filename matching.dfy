/** Scoring the profiles against the user's tokens, the stable descending sort
    of the matches, and the choice of the top one. */
module Matching {
  import opened Results
  import opened PyStr
  import opened Normalizer
  import opened CareerData

  /** One entry of `recommendations`: the title-cased career name, the base
      description, the prompt enhancer and the match score. */
  datatype Rec = Rec(career: string, description: string, prompt: string, score: nat)

  /** The normalised keyword set of a profile. */
  function ProfileTokens(nlp: Nlp, p: Profile): set<string> {
    TokensOf(nlp, KeywordsOf(p))
  }

  /** `len(processed_user_interests.intersection(career_keywords_processed))` */
  function Score(nlp: Nlp, p: Profile, user: set<string>): (r: nat)
    ensures r > 0 <==> exists t :: t in user && t in ProfileTokens(nlp, p)
  {
    var shared := user * ProfileTokens(nlp, p);
    assert |shared| > 0 <==> exists t :: t in user && t in ProfileTokens(nlp, p) by {
      if shared != {} {
        var t :| t in shared;
        assert t in user && t in ProfileTokens(nlp, p);
      } else {
        assert forall t :: t in user && t in ProfileTokens(nlp, p) ==> t in shared;
      }
    }
    |shared|
  }

  /** The entry appended for a profile with a positive score, with the
      `dict.get` defaults of the action. */
  function MakeRec(p: Profile, score: nat): (r: Rec)
    ensures r.score == score && |r.career| == |p.name|
    ensures p.description.Some? ==> r.description == p.description.value
    ensures p.promptEnhancer.Some? ==> r.prompt == p.promptEnhancer.value
  {
    var career := Title(p.name);
    Rec(career,
        p.description.GetOr("No description available."),
        p.promptEnhancer.GetOr("Tell me more about being a " + career + "."),
        score)
  }

  /** The matches in table order under the scoring `score`: one entry per
      profile whose score is positive. */
  function Candidates(table: seq<Profile>, score: Profile -> nat): (r: seq<Rec>)
    ensures |r| <= |table|
  {
    if table == [] then []
    else
      var p := table[|table| - 1];
      Candidates(table[..|table| - 1], score) + (if score(p) > 0 then [MakeRec(p, score(p))] else [])
  }

  /** Scoring one more profile of the table appends its entry when its score
      is positive. */
  lemma CandidatesStep(table: seq<Profile>, j: int, score: Profile -> nat)
    requires 0 <= j < |table|
    ensures Candidates(table[..j + 1], score) ==
            Candidates(table[..j], score) + (if score(table[j]) > 0 then [MakeRec(table[j], score(table[j]))] else [])
  {
    assert table[..j + 1][..j] == table[..j];
  }

  /** Every match comes from a profile of the table, carries that profile's
      score, and that score is positive; every profile with a positive score
      is matched. */
  lemma {:induction false} CandidatesAreMatches(table: seq<Profile>, score: Profile -> nat)
    ensures forall x :: x in Candidates(table, score) ==> x.score > 0
    ensures forall x :: x in Candidates(table, score) ==>
              exists j :: 0 <= j < |table| && x == MakeRec(table[j], score(table[j]))
    ensures forall j :: 0 <= j < |table| && score(table[j]) > 0 ==> MakeRec(table[j], score(table[j])) in Candidates(table, score)
  {
    if table != [] {
      var init := table[..|table| - 1];
      CandidatesAreMatches(init, score);
      assert forall j :: 0 <= j < |init| ==> init[j] == table[j];
    }
  }

  /** Scores never increase along `s`. */
  predicate SortedByScore(s: seq<Rec>) {
    forall i, j :: 0 <= i < j < |s| ==> s[i].score >= s[j].score
  }

  /** `x` placed just before the first entry whose score is below its own, so
      after every entry with an equal score. */
  function InsertAfterTies(sorted: seq<Rec>, x: Rec): (r: seq<Rec>)
    ensures |r| == |sorted| + 1
    ensures forall y :: y in r <==> y in sorted || y == x
  {
    if sorted == [] || sorted[0].score < x.score then [x] + sorted
    else
      assert sorted == [sorted[0]] + sorted[1..];
      [sorted[0]] + InsertAfterTies(sorted[1..], x)
  }

  lemma {:induction false} InsertAfterTiesPermutes(sorted: seq<Rec>, x: Rec)
    ensures multiset(InsertAfterTies(sorted, x)) == multiset(sorted) + multiset{x}
  {
    if sorted != [] && sorted[0].score >= x.score {
      InsertAfterTiesPermutes(sorted[1..], x);
      assert sorted == [sorted[0]] + sorted[1..];
    }
  }

  lemma {:induction false} InsertAfterTiesSorted(sorted: seq<Rec>, x: Rec)
    requires SortedByScore(sorted)
    ensures SortedByScore(InsertAfterTies(sorted, x))
  {
    if sorted != [] && sorted[0].score >= x.score {
      var tail := sorted[1..];
      var rest := InsertAfterTies(tail, x);
      InsertAfterTiesSorted(tail, x);
      var r := [sorted[0]] + rest;
      forall i, j | 0 <= i < j < |r|
        ensures r[i].score >= r[j].score
      {
        if i == 0 {
          assert r[j] in rest;
        } else {
          assert r[i] == rest[i - 1] && r[j] == rest[j - 1];
        }
      }
    }
  }

  /** `list.sort(key=score, reverse=True)`: an insertion sort that handles the
      entries in order and puts each after every entry with the same score,
      which makes it stable. The result is ordered by descending score. */
  function SortByScoreDesc(s: seq<Rec>): (r: seq<Rec>)
    ensures |r| == |s|
    ensures SortedByScore(r)
  {
    if s == [] then []
    else
      var sortedInit := SortByScoreDesc(s[..|s| - 1]);
      InsertAfterTiesSorted(sortedInit, s[|s| - 1]);
      InsertAfterTies(sortedInit, s[|s| - 1])
  }

  /** The sort only reorders: it holds the same entries, as often. */
  lemma {:induction false} SortPermutes(s: seq<Rec>)
    ensures multiset(SortByScoreDesc(s)) == multiset(s)
  {
    if s != [] {
      var init := s[..|s| - 1];
      var x := s[|s| - 1];
      assert multiset(s) == multiset(init) + multiset{x} by {
        assert s == init + [x];
      }
      assert multiset(SortByScoreDesc(s)) == multiset(SortByScoreDesc(init)) + multiset{x} by {
        InsertAfterTiesPermutes(SortByScoreDesc(init), x);
      }
      SortPermutes(init);
    }
  }

  /** The entries of `s` with score `v`, in their order. */
  function WithScore(s: seq<Rec>, v: nat): seq<Rec>
  {
    if s == [] then []
    else (if s[0].score == v then [s[0]] else []) + WithScore(s[1..], v)
  }

  lemma {:induction false} WithScoreAppend(a: seq<Rec>, b: seq<Rec>, v: nat)
    ensures WithScore(a + b, v) == WithScore(a, v) + WithScore(b, v)
  {
    if a != [] {
      assert (a + b)[1..] == a[1..] + b;
      WithScoreAppend(a[1..], b, v);
    } else {
      assert a + b == b;
    }
  }

  lemma {:induction false} WithScoreNone(s: seq<Rec>, v: nat)
    requires forall i :: 0 <= i < |s| ==> s[i].score != v
    ensures WithScore(s, v) == []
  {
    if s != [] {
      WithScoreNone(s[1..], v);
    }
  }

  lemma {:induction false} InsertAfterTiesStable(sorted: seq<Rec>, x: Rec, v: nat)
    requires SortedByScore(sorted)
    ensures WithScore(InsertAfterTies(sorted, x), v) == WithScore(sorted, v) + (if x.score == v then [x] else [])
  {
    if sorted == [] {
    } else if sorted[0].score < x.score {
      if x.score == v {
        assert forall i :: 0 <= i < |sorted| ==> sorted[i].score != v;
        WithScoreNone(sorted, v);
      }
      WithScoreAppend([x], sorted, v);
    } else {
      var tail := sorted[1..];
      assert SortedByScore(tail) by {
        forall i, j | 0 <= i < j < |tail|
          ensures tail[i].score >= tail[j].score
        {
          assert tail[i] == sorted[i + 1] && tail[j] == sorted[j + 1];
        }
      }
      var rest := InsertAfterTies(tail, x);
      assert InsertAfterTies(sorted, x) == [sorted[0]] + rest;
      InsertAfterTiesStable(tail, x, v);
      WithScoreAppend([sorted[0]], rest, v);
      WithScoreAppend([sorted[0]], tail, v);
      assert [sorted[0]] + tail == sorted;
    }
  }

  /** The sort is stable: for every score, the entries with that score keep
      their relative order. */
  lemma {:induction false} SortIsStable(s: seq<Rec>, v: nat)
    ensures WithScore(SortByScoreDesc(s), v) == WithScore(s, v)
  {
    if s != [] {
      var init := s[..|s| - 1];
      var x := s[|s| - 1];
      var tie := if x.score == v then [x] else [];
      assert WithScore(s, v) == WithScore(init, v) + tie by {
        assert s == init + [x];
        WithScoreAppend(init, [x], v);
      }
      assert WithScore(SortByScoreDesc(s), v) == WithScore(SortByScoreDesc(init), v) + tie by {
        InsertAfterTiesStable(SortByScoreDesc(init), x, v);
      }
      SortIsStable(init, v);
    }
  }

  /** `recommendations[:1]` after the sort: the best match, if any. */
  function Select(table: seq<Profile>, score: Profile -> nat): (r: Option<Rec>)
    ensures r.None? <==> Candidates(table, score) == []
    ensures r.Some? ==> r.value in Candidates(table, score)
  {
    var ranked := SortByScoreDesc(Candidates(table, score));
    SortPermutes(Candidates(table, score));
    assert ranked != [] ==> ranked[0] in multiset(ranked);
    if ranked == [] then None else Some(ranked[0])
  }

  /** Profile `k` has a positive score, no profile scores higher, and every
      profile before it scores strictly lower. */
  ghost predicate IsEarliestBest(table: seq<Profile>, score: Profile -> nat, k: int) {
    && 0 <= k < |table|
    && score(table[k]) > 0
    && (forall j :: 0 <= j < |table| ==> score(table[j]) <= score(table[k]))
    && (forall j :: 0 <= j < k ==> score(table[j]) < score(table[k]))
  }

  /** Adding a profile at the end of the table changes the selection only
      when the new profile scores strictly higher than the current best. */
  lemma SelectAppend(init: seq<Profile>, p: Profile, score: Profile -> nat)
    ensures Select(init + [p], score) ==
      if score(p) == 0 then Select(init, score)
      else if Select(init, score).Some? && Select(init, score).value.score >= score(p) then Select(init, score)
      else Some(MakeRec(p, score(p)))
  {
    var table := init + [p];
    assert table[..|table| - 1] == init && table[|table| - 1] == p;
    var before := Candidates(init, score);
    if score(p) > 0 {
      var x := MakeRec(p, score(p));
      assert Candidates(table, score) == before + [x];
      assert (before + [x])[..|before|] == before;
      var ranked := SortByScoreDesc(before);
      assert SortByScoreDesc(before + [x]) == InsertAfterTies(ranked, x);
      assert Select(table, score) == Some(InsertAfterTies(ranked, x)[0]);
      assert Select(init, score) == if ranked == [] then None else Some(ranked[0]);
      assert x.score == score(p);
      if ranked == [] || ranked[0].score < x.score {
        assert InsertAfterTies(ranked, x)[0] == x;
        assert Select(table, score) == Some(x);
      } else {
        assert InsertAfterTies(ranked, x) == [ranked[0]] + InsertAfterTies(ranked[1..], x);
        assert Select(table, score) == Select(init, score);
      }
    } else {
      assert Candidates(table, score) == before + [];
      assert before + [] == before;
      assert Select(table, score) == Select(init, score);
    }
  }

  /** The earliest best profile stays so when a profile scoring no higher is
      appended, and gives way to an appended profile that scores higher. */
  lemma EarliestBestAppend(init: seq<Profile>, p: Profile, score: Profile -> nat, k: int)
    requires IsEarliestBest(init, score, k)
    ensures score(p) <= score(init[k]) ==> IsEarliestBest(init + [p], score, k)
    ensures score(p) > score(init[k]) ==> IsEarliestBest(init + [p], score, |init|)
  {
    var table := init + [p];
    assert forall j :: 0 <= j < |init| ==> table[j] == init[j];
  }

  /** An appended profile with a positive score is the earliest best when
      every profile before it scores zero. */
  lemma EarliestBestFirst(init: seq<Profile>, p: Profile, score: Profile -> nat)
    requires forall j :: 0 <= j < |init| ==> score(init[j]) == 0
    requires score(p) > 0
    ensures IsEarliestBest(init + [p], score, |init|)
  {
    var table := init + [p];
    assert forall j :: 0 <= j < |init| ==> table[j] == init[j];
  }

  /** No recommendation exactly when every profile scores zero; otherwise the
      recommendation is the earliest profile of the table with the highest
      score, carrying that score. */
  lemma {:induction false} SelectIsEarliestBest(table: seq<Profile>, score: Profile -> nat)
    ensures Select(table, score).None? <==> forall j :: 0 <= j < |table| ==> score(table[j]) == 0
    ensures Select(table, score).Some? ==>
              exists k :: IsEarliestBest(table, score, k) && Select(table, score).value == MakeRec(table[k], score(table[k]))
  {
    if table != [] {
      var n := |table| - 1;
      var init := table[..n];
      var p := table[n];
      assert table == init + [p];
      assert forall j :: 0 <= j < n ==> init[j] == table[j];
      SelectIsEarliestBest(init, score);
      SelectAppend(init, p, score);
      var prior := Select(init, score);
      if prior.Some? {
        var k :| IsEarliestBest(init, score, k) && prior.value == MakeRec(init[k], score(init[k]));
        EarliestBestAppend(init, p, score, k);
      } else if score(p) > 0 {
        EarliestBestFirst(init, p, score);
      }
    }
  }

  /** When the first profile of the table has a positive score that no other
      profile beats, it is the recommendation, even against ties. */
  lemma FirstBestWins(table: seq<Profile>, score: Profile -> nat)
    requires |table| > 0 && score(table[0]) > 0
    requires forall j :: 0 <= j < |table| ==> score(table[j]) <= score(table[0])
    ensures Select(table, score) == Some(MakeRec(table[0], score(table[0])))
  {
    SelectIsEarliestBest(table, score);
    var k :| IsEarliestBest(table, score, k) && Select(table, score).value == MakeRec(table[k], score(table[k]));
  }
}
