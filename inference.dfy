/**
 * The deterministic parts of api/utils/huggingface.js: the filtering,
 * ordering and tiering of `RecommendationEngine`, and the result shapes of
 * `SentimentAnalyzer`. The model calls are parameters: an `Embedder` gives
 * each item's cosine similarity with the query (or the failure), a
 * classifier gives a text's label and score (or the failure).
 */
module Inference {
  import opened Wrappers
  import opened Json
  import opened Strings
  import opened Domain
  import opened Lists
  import opened Sorting

  /** The default of `findSimilarItems(query, items, threshold = 0.7)`. */
  const DefaultThreshold: real := 0.7

  predicate IsDigits(s: string)
  {
    s != [] && forall i :: 0 <= i < |s| ==> '0' <= s[i] <= '9'
  }

  /**
   * The number a relational comparison makes of the threshold: `null` is 0,
   * booleans are 0 and 1, blank strings 0, strings of digits their value.
   * An array goes through its string form: the empty array is 0, a
   * one-element array is its element's string form read as a number (so
   * `[0.5]` is 0.5, `[null]` is 0 and `[true]` is `NaN`), and an array of
   * two or more holds a comma, hence `NaN`. Everything else is `NaN`.
   */
  function ToThreshold(v: Value): (t: Threshold)
    ensures v.Num? ==> t == Finite(v.n)
    ensures v.Obj? ==> t == NotANumber
    ensures v.Arr? && |v.items| == 1 && v.items[0].Num? ==> t == Finite(v.items[0].n)
    ensures v.Arr? && |v.items| == 1 && v.items[0].Bool? ==> t == NotANumber
    ensures v.Arr? && |v.items| >= 2 ==> t == NotANumber
  {
    match v
    case Null => Finite(0.0)
    case Bool(b) => Finite(if b then 1.0 else 0.0)
    case Num(n) => Finite(n)
    case Str(s) =>
      var t := Trim(s);
      if t == [] then Finite(0.0) else if IsDigits(t) then Finite(ParseDecimal(t) as real) else NotANumber
    case Arr(a) =>
      if a == [] then Finite(0.0)
      else if |a| == 1 && !a[0].Bool? then ToThreshold(a[0])
      else NotANumber
    case Obj(_) => NotANumber
  }

  /** `similarity >= threshold`: equality counts, and `NaN` admits nothing. */
  predicate Relevant(c: Candidate, t: Threshold)
  {
    t.Finite? && c.similarity >= t.value
  }

  function Similarity(c: Candidate): real
  {
    c.similarity
  }

  /** `similarities.filter(item => item.relevant).sort((a, b) => b.similarity - a.similarity)`. */
  function Rank(candidates: seq<Candidate>, t: Threshold): seq<Candidate>
  {
    SortDesc(Filter(candidates, (c: Candidate) => Relevant(c, t)), Similarity)
  }

  /**
   * The recommendations are exactly the relevant candidates, each as often
   * as it occurs, in non-increasing similarity; candidates with equal
   * similarity keep their order among the items.
   */
  lemma RankSpec(candidates: seq<Candidate>, t: Threshold, s: real)
    ensures var r := Rank(candidates, t);
      && (forall c :: c in r <==> c in candidates && Relevant(c, t))
      && multiset(r) == multiset(Filter(candidates, (c: Candidate) => Relevant(c, t)))
      && SortedDesc(r, Similarity)
      && Filter(r, (c: Candidate) => c.similarity == s)
         == Filter(Filter(candidates, (c: Candidate) => Relevant(c, t)), (c: Candidate) => c.similarity == s)
      && (t.NotANumber? ==> r == [])
  {
    var relevant := Filter(candidates, (c: Candidate) => Relevant(c, t));
    SortDescSpec(relevant, Similarity, (c: Candidate) => c.similarity == s);
    forall c
      ensures c in Rank(candidates, t) <==> c in candidates && Relevant(c, t)
    {
      FilterMembers(candidates, (c: Candidate) => Relevant(c, t), c);
      assert c in Rank(candidates, t) <==> c in multiset(Rank(candidates, t));
      assert c in relevant <==> c in multiset(relevant);
    }
    if t.NotANumber? {
      FilterCount(candidates, (c: Candidate) => Relevant(c, t));
      CountNone(candidates, (c: Candidate) => Relevant(c, t));
    }
  }

  /** Every recommendation reaches the threshold. */
  lemma RankAbove(candidates: seq<Candidate>, t: Threshold)
    ensures forall i :: 0 <= i < |Rank(candidates, t)| ==> t.Finite? && Rank(candidates, t)[i].similarity >= t.value
  {
    var r := Rank(candidates, t);
    RankSpec(candidates, t, 0.0);
    forall i | 0 <= i < |r|
      ensures t.Finite? && r[i].similarity >= t.value
    {
      assert r[i] in r;
    }
  }

  /**
   * The embedding service as `findSimilarItems` sees it: whether the query's
   * embedding fails, and each item's similarity with the query or the
   * failure message.
   */
  datatype Embedder = Embedder(queryFailure: Option<string>, similarity: Value -> Result<real>)

  /**
   * `items.map(...)` awaited with `Promise.all`: the whole fails iff some item
   * fails. The model reports the first failing item in list order; `Promise.all`
   * reports whichever call rejects first in time.
   */
  function Score(items: seq<Value>, e: Embedder): (r: Result<seq<Candidate>>)
    ensures r.Ok? <==> forall i :: 0 <= i < |items| ==> e.similarity(items[i]).Ok?
    ensures r.Ok? ==> (|r.value| == |items|
      && forall i :: 0 <= i < |items| ==> r.value[i] == Candidate(items[i], e.similarity(items[i]).value))
  {
    if items == [] then Ok([])
    else
      var first := e.similarity(items[0]);
      var rest := Score(items[1..], e);
      if first.Err? then Err(first.message)
      else if rest.Err? then
        assert !e.similarity(items[1..][0]).Ok? || exists i :: 0 <= i < |items[1..]| && !e.similarity(items[1..][i]).Ok?;
        Err(rest.message)
      else
        var r := [Candidate(items[0], first.value)] + rest.value;
        assert forall i :: 1 <= i < |items| ==> r[i] == rest.value[i - 1] && items[i] == items[1..][i - 1];
        Ok(r)
  }

  const RecommendationFailed: string := "Recommendation generation failed: "
  const NotAnArray: string := "items.map is not a function"

  /** `findSimilarItems(query, items, threshold)` at time `now`. */
  function FindSimilarItems(query: Value, items: Value, threshold: Value, e: Embedder, now: int): (r: Result<Similar>)
    ensures r.Ok? ==> r.value.query == query && r.value.threshold == threshold && r.value.total == |r.value.recommendations|
    ensures r.Err? <==> e.queryFailure.Some? || !items.Arr? || Score(items.items, e).Err?
    ensures r.Ok? ==>
      && items.Arr? && Score(items.items, e).Ok?
      && r.value.recommendations == Rank(Score(items.items, e).value, ToThreshold(threshold))
  {
    if e.queryFailure.Some? then Err(RecommendationFailed + e.queryFailure.value)
    else if !items.Arr? then Err(RecommendationFailed + NotAnArray)
    else
      var scored := Score(items.items, e);
      if scored.Err? then Err(RecommendationFailed + scored.message)
      else
        var recs := Rank(scored.value, ToThreshold(threshold));
        Ok(Similar(query, recs, |recs|, threshold, now))
  }

  /**
   * A successful search returns exactly the scored items at or above the
   * threshold, in non-increasing similarity, and counts them.
   */
  lemma FindSimilarSpec(query: Value, items: Value, threshold: Value, e: Embedder, now: int)
    requires FindSimilarItems(query, items, threshold, e, now).Ok?
    ensures items.Arr? && Score(items.items, e).Ok?
    ensures var s := FindSimilarItems(query, items, threshold, e, now).value;
      var scored := Score(items.items, e).value;
      && (forall c :: c in s.recommendations <==> c in scored && Relevant(c, ToThreshold(threshold)))
      && SortedDesc(s.recommendations, Similarity)
      && s.total == Count(scored, (c: Candidate) => Relevant(c, ToThreshold(threshold)))
  {
    var scored := Score(items.items, e).value;
    var t := ToThreshold(threshold);
    RankSpec(scored, t, 0.0);
    FilterCount(scored, (c: Candidate) => Relevant(c, t));
    calc {
      |Rank(scored, t)|;
      |multiset(Rank(scored, t))|;
      |multiset(Filter(scored, (c: Candidate) => Relevant(c, t)))|;
      |Filter(scored, (c: Candidate) => Relevant(c, t))|;
    }
  }

  /** `calculateConfidence(similarity)`. */
  function ConfidenceOf(similarity: real): Confidence
  {
    if similarity >= 0.8 then HighConfidence
    else if similarity >= 0.6 then MediumConfidence
    else LowConfidence
  }

  /** `categorizeRecommendation(similarity)`. */
  function CategoryOf(similarity: real): Category
  {
    if similarity >= 0.9 then ExactMatch
    else if similarity >= 0.7 then StrongMatch
    else if similarity >= 0.5 then ModerateMatch
    else WeakMatch
  }

  /** Each confidence tier is exactly its interval of similarities. */
  lemma ConfidenceTiers(similarity: real)
    ensures ConfidenceOf(similarity) == HighConfidence <==> similarity >= 0.8
    ensures ConfidenceOf(similarity) == MediumConfidence <==> 0.6 <= similarity < 0.8
    ensures ConfidenceOf(similarity) == LowConfidence <==> similarity < 0.6
  {
  }

  /** Each category is exactly its interval of similarities. */
  lemma CategoryTiers(similarity: real)
    ensures CategoryOf(similarity) == ExactMatch <==> similarity >= 0.9
    ensures CategoryOf(similarity) == StrongMatch <==> 0.7 <= similarity < 0.9
    ensures CategoryOf(similarity) == ModerateMatch <==> 0.5 <= similarity < 0.7
    ensures CategoryOf(similarity) == WeakMatch <==> similarity < 0.5
  {
  }

  /** Higher similarity never gives a lower tier. */
  lemma TiersMonotone(a: real, b: real)
    requires a <= b
    ensures ConfidenceOf(a) == HighConfidence ==> ConfidenceOf(b) == HighConfidence
    ensures ConfidenceOf(b) == LowConfidence ==> ConfidenceOf(a) == LowConfidence
    ensures CategoryOf(a) == ExactMatch ==> CategoryOf(b) == ExactMatch
    ensures CategoryOf(b) == WeakMatch ==> CategoryOf(a) == WeakMatch
  {
  }

  function IsHigh(e: Enhanced): bool { e.confidence == HighConfidence }
  function IsMedium(e: Enhanced): bool { e.confidence == MediumConfidence }
  function IsLow(e: Enhanced): bool { e.confidence == LowConfidence }

  /**
   * `enhanceRecommendations(recommendations)` at time `now`. Every element of
   * the list is a distinct object, so `indexOf(rec)` is its own position.
   */
  function Enhance(recs: seq<Candidate>, now: int): EnhancedSet
  {
    var e := seq(|recs|, i requires 0 <= i < |recs| =>
      Enhanced(recs[i], ConfidenceOf(recs[i].similarity), CategoryOf(recs[i].similarity), i + 1));
    EnhancedSet(e, |e|, Count(e, IsHigh), Count(e, IsMedium), Count(e, IsLow), now)
  }

  /**
   * Enhancement keeps the candidates and their order, ranks them 1, 2, ...,
   * tiers each by its similarity, and its three counts add up to the total.
   */
  lemma EnhanceSpec(recs: seq<Candidate>, now: int)
    ensures var s := Enhance(recs, now);
      && |s.recommendations| == |recs| == s.total
      && (forall i :: 0 <= i < |recs| ==>
            && s.recommendations[i].candidate == recs[i]
            && s.recommendations[i].rank == i + 1
            && s.recommendations[i].confidence == ConfidenceOf(recs[i].similarity)
            && s.recommendations[i].category == CategoryOf(recs[i].similarity))
      && s.high + s.medium + s.low == s.total
  {
    var e := Enhance(recs, now).recommendations;
    var notHigh := (x: Enhanced) => !IsHigh(x);
    CountComplement(e, IsHigh, notHigh);
    CountSplit(e, notHigh, IsMedium, IsLow);
  }

  /**
   * With the default threshold every recommendation is at least of medium
   * confidence and at least a strong match.
   */
  lemma DefaultThresholdTiers(candidates: seq<Candidate>, now: int)
    ensures var recs := Rank(candidates, Finite(DefaultThreshold));
      var s := Enhance(recs, now);
      forall i :: 0 <= i < |s.recommendations| ==>
        s.recommendations[i].confidence in {HighConfidence, MediumConfidence}
        && s.recommendations[i].category in {ExactMatch, StrongMatch}
  {
    var recs := Rank(candidates, Finite(DefaultThreshold));
    RankAbove(candidates, Finite(DefaultThreshold));
    EnhanceSpec(recs, now);
  }

  /** What the sentiment model answers for one text: its top label and that label's score. */
  datatype Label = Label(name: string, score: real)

  const SentimentFailed: string := "Sentiment analysis failed: "
  const BatchFailed: string := "Batch sentiment analysis failed: "

  /** `analyzeSentiment(text)` at time `now`. */
  function AnalyzeSentiment(text: Value, classify: Value -> Result<Label>, now: int): (r: Result<Sentiment>)
    ensures r.Ok? <==> classify(text).Ok?
    ensures r.Ok? ==> r.value == Sentiment(text, classify(text).value.name, classify(text).value.score, now)
    ensures r.Err? ==> r.message == SentimentFailed + classify(text).message
  {
    var l := classify(text);
    if l.Err? then Err(SentimentFailed + l.message) else Ok(Sentiment(text, l.value.name, l.value.score, now))
  }

  /**
   * `Promise.all(texts.map(analyzeSentiment))`: the whole fails iff some text
   * fails. The model reports the first failing text in list order; `Promise.all`
   * reports whichever call rejects first in time.
   */
  function AnalyzeAll(texts: seq<Value>, classify: Value -> Result<Label>, now: int): (r: Result<seq<Sentiment>>)
    ensures r.Ok? <==> forall i :: 0 <= i < |texts| ==> AnalyzeSentiment(texts[i], classify, now).Ok?
    ensures r.Ok? ==> (|r.value| == |texts|
      && forall i :: 0 <= i < |texts| ==> Ok(r.value[i]) == AnalyzeSentiment(texts[i], classify, now))
    ensures r.Err? ==> exists i :: 0 <= i < |texts| && AnalyzeSentiment(texts[i], classify, now) == Err(r.message)
  {
    if texts == [] then Ok([])
    else
      var first := AnalyzeSentiment(texts[0], classify, now);
      var rest := AnalyzeAll(texts[1..], classify, now);
      assert forall i :: 1 <= i < |texts| ==> texts[i] == texts[1..][i - 1];
      if first.Err? then Err(first.message)
      else if rest.Err? then
        var j :| 0 <= j < |texts[1..]| && AnalyzeSentiment(texts[1..][j], classify, now) == Err(rest.message);
        assert texts[j + 1] == texts[1..][j];
        Err(rest.message)
      else
        var r := [first.value] + rest.value;
        assert forall i :: 1 <= i < |texts| ==> r[i] == rest.value[i - 1] && texts[i] == texts[1..][i - 1];
        Ok(r)
  }

  function IsPositive(s: Sentiment): bool { s.sentiment == "POSITIVE" }
  function IsNegative(s: Sentiment): bool { s.sentiment == "NEGATIVE" }
  function IsNeutral(s: Sentiment): bool { s.sentiment == "NEUTRAL" }

  function SummaryOf(results: seq<Sentiment>): Summary
  {
    Summary(|results|, Count(results, IsPositive), Count(results, IsNegative), Count(results, IsNeutral))
  }

  /** `analyzeBatch(texts)` at time `now`. */
  function AnalyzeBatch(texts: seq<Value>, classify: Value -> Result<Label>, now: int): Result<SentimentResult>
  {
    var all := AnalyzeAll(texts, classify, now);
    if all.Err? then Err(BatchFailed + all.message) else Ok(Batch(all.value, SummaryOf(all.value), now))
  }

  /**
   * A batch answers one result per text, in order, and its summary counts
   * the texts, of which at most all are positive, negative or neutral.
   */
  lemma BatchSpec(texts: seq<Value>, classify: Value -> Result<Label>, now: int)
    requires AnalyzeBatch(texts, classify, now).Ok?
    ensures var b := AnalyzeBatch(texts, classify, now).value;
      && b.Batch?
      && |b.results| == |texts| == b.summary.total
      && (forall i :: 0 <= i < |texts| ==> b.results[i].text == texts[i])
      && b.summary.positive + b.summary.negative + b.summary.neutral <= b.summary.total
  {
    var rs := AnalyzeAll(texts, classify, now).value;
    var negOrNeutral := (s: Sentiment) => IsNegative(s) || IsNeutral(s);
    CountSplit(rs, negOrNeutral, IsNegative, IsNeutral);
    CountDisjoint(rs, IsPositive, negOrNeutral);
  }
}
