/*
 * The TF-IDF intent router: the examples of each intent become token
 * documents, the documents give an inverse document frequency per token and
 * one averaged unit vector (centroid) per intent, and a query is routed to the
 * first centroid with the highest cosine similarity when that similarity
 * reaches a threshold.
 */
module Intents {
  import opened Collections
  import opened Numeric
  import Text

  /** The example phrases of each intent, in the table's order. */
  type Examples = Dict<string, seq<string>>

  /** `_DEFAULT_INTENTS`. */
  const DefaultIntents: Examples := [
    ("my-team-summary", [
      "show my team",
      "display my squad",
      "what is my lineup",
      "give me squad summary"
    ]),
    ("ai-team-performance", [
      "how will my team perform next week",
      "predict my squad score",
      "forecast my team points",
      "how did i score this week",
      "how did i do this week"
    ]),
    ("smart-captaincy", [
      "who should i captain",
      "captain suggestion",
      "best captain pick"
    ]),
    ("current-captain", [
      "who is my captain",
      "current captain",
      "who is captain right now"
    ]),
    ("chip-advice", [
      "when should i use my chips",
      "chip strategy",
      "bench boost or triple captain",
      "should i free hit",
      "wildcard advice"
    ]),
    ("transfer-suggester", [
      "recommend a transfer",
      "who should i sell",
      "transfer advice"
    ]),
    ("injury-risk", [
      "any injury risks",
      "who is flagged",
      "players with injury"
    ]),
    ("ai-predictions", [
      "ai top performers",
      "who will score the most",
      "best players next week"
    ]),
    ("league-head-to-head", [
      "will i beat",
      "head to head",
      "versus in my league"
    ]),
    ("league-current", [
      "current league standings",
      "show table now",
      "league position right now"
    ]),
    ("league-predictions", [
      "predict my league",
      "league standings forecast"
    ]),
    ("differential-hunter", [
      "show me differentials",
      "low owned players"
    ]),
    ("predicted-top-performers", [
      "predict top performers",
      "top scorers next week"
    ]),
    ("dream-team", [
      "build dream team",
      "wildcard squad"
    ]),
    ("quadrant-analysis", [
      "form vs fixture",
      "quadrant analysis"
    ])
  ]

  const DefaultThreshold: real := 0.3
  const NoExamplesMessage: string := "No intent examples provided"

  /** `intent_examples or _DEFAULT_INTENTS`: a missing or empty table falls back to the defaults. */
  function ChosenExamples(given: Option<Examples>): (ex: Examples)
    ensures ex != []
    ensures given.Some? && given.value != [] ==> ex == given.value
  {
    if given.None? || given.value == [] then DefaultIntents else given.value
  }

  // ---------------------------------------------------------------------------
  // Documents, document frequencies and idf
  // ---------------------------------------------------------------------------

  /** One non-empty tokenised example and the intent it belongs to. */
  datatype Doc = Doc(tokens: seq<string>, intent: string)

  /** The documents of one intent: its examples that tokenise to something, in order. */
  function IntentDocuments(intent: string, examples: seq<string>): (docs: seq<Doc>)
    ensures |docs| <= |examples|
    ensures forall k :: 0 <= k < |docs| ==> docs[k].tokens != [] && docs[k].intent == intent
    ensures forall j :: 0 <= j < |examples| && Text.Tokenize(examples[j]) != [] ==>
      Doc(Text.Tokenize(examples[j]), intent) in docs
  {
    if examples == [] then []
    else
      var init := IntentDocuments(intent, examples[..|examples| - 1]);
      var tokens := Text.Tokenize(examples[|examples| - 1]);
      if tokens == [] then init else init + [Doc(tokens, intent)]
  }

  /** The documents `_fit` collects, intent by intent; examples with no token are skipped. */
  function Documents(ex: Examples): (docs: seq<Doc>)
    ensures forall k :: 0 <= k < |docs| ==> docs[k].tokens != []
    ensures forall i, j :: 0 <= i < |ex| && 0 <= j < |ex[i].1| && Text.Tokenize(ex[i].1[j]) != [] ==>
      Doc(Text.Tokenize(ex[i].1[j]), ex[i].0) in docs
  {
    if ex == [] then []
    else Documents(ex[..|ex| - 1]) + IntentDocuments(ex[|ex| - 1].0, ex[|ex| - 1].1)
  }

  /** Every document is labelled with an intent of the table. */
  lemma {:induction false} DocumentsLabelled(ex: Examples)
    ensures forall k :: 0 <= k < |Documents(ex)| ==> Documents(ex)[k].intent in Keys(ex)
  {
    if ex != [] {
      var init := ex[..|ex| - 1];
      DocumentsLabelled(init);
      assert forall x :: x in Keys(init) ==> x in Keys(ex) by {
        forall x | x in Keys(init) ensures x in Keys(ex) {
          var i :| 0 <= i < |init| && Keys(init)[i] == x;
          assert Keys(ex)[i] == x;
        }
      }
      assert Keys(ex)[|ex| - 1] == ex[|ex| - 1].0;
    }
  }

  /** The number of documents that contain `t` (each document counted once). */
  function DocCount(docs: seq<Doc>, t: string): (n: nat)
    ensures n <= |docs|
  {
    if docs == [] then 0
    else DocCount(docs[..|docs| - 1], t) + (if t in docs[|docs| - 1].tokens then 1 else 0)
  }

  /** Every token of every document. */
  function Vocabulary(docs: seq<Doc>): set<string> {
    if docs == [] then {}
    else Vocabulary(docs[..|docs| - 1]) + TokenSet(docs[|docs| - 1].tokens)
  }

  /** `set(tokens)`. */
  function TokenSet(tokens: seq<string>): (s: set<string>)
    ensures forall t :: t in s <==> t in tokens
  {
    set t | t in tokens
  }

  lemma {:induction false} VocabularyCounted(docs: seq<Doc>, t: string)
    ensures t in Vocabulary(docs) <==> DocCount(docs, t) >= 1
  {
    if docs != [] {
      VocabularyCounted(docs[..|docs| - 1], t);
    }
  }

  /** Every token of every document is in the vocabulary. */
  lemma {:induction false} VocabularyCovers(docs: seq<Doc>, k: nat, t: string)
    requires k < |docs| && t in docs[k].tokens
    ensures t in Vocabulary(docs)
  {
    if k < |docs| - 1 {
      VocabularyCovers(docs[..|docs| - 1], k, t);
    }
  }

  /** The `doc_freq` table: one entry per vocabulary token. */
  function DocFreq(docs: seq<Doc>): map<string, nat> {
    map t | t in Vocabulary(docs) :: DocCount(docs, t)
  }

  /** Each stored document frequency lies between 1 and the number of documents. */
  lemma {:induction false} DocFreqBounds(docs: seq<Doc>)
    ensures forall t :: t in DocFreq(docs) ==> 1 <= DocFreq(docs)[t] <= |docs|
  {
    forall t | t in Vocabulary(docs)
      ensures DocCount(docs, t) >= 1
    {
      VocabularyCounted(docs, t);
    }
  }

  /** One more document adds one to the frequency of each of its distinct tokens. */
  lemma {:induction false} DocFreqStep(docs: seq<Doc>, d: Doc, t: string)
    ensures var next := DocFreq(docs + [d]);
            var prev := DocFreq(docs);
            (t in next <==> t in prev || t in d.tokens)
            && (t in next ==> next[t] == (if t in prev then prev[t] else 0) + (if t in d.tokens then 1 else 0))
  {
    var all := docs + [d];
    assert all[..|all| - 1] == docs;
    VocabularyCounted(docs, t);
    VocabularyCounted(all, t);
  }

  /** `for token in set(tokens): doc_freq[token] += 1`. */
  method AddDocument(docFreq: map<string, nat>, tokens: seq<string>) returns (next: map<string, nat>)
    ensures forall t :: t in next <==> t in docFreq || t in tokens
    ensures forall t :: t in next ==>
      next[t] == (if t in docFreq then docFreq[t] else 0) + (if t in tokens then 1 else 0)
  {
    next := docFreq;
    var remaining := TokenSet(tokens);
    while remaining != {}
      invariant remaining <= TokenSet(tokens)
      invariant forall t :: t in next <==> t in docFreq || (t in tokens && t !in remaining)
      invariant forall t :: t in next ==>
        next[t] == (if t in docFreq then docFreq[t] else 0) + (if t in tokens && t !in remaining then 1 else 0)
      decreases |remaining|
    {
      var t :| t in remaining;
      next := next[t := (if t in next then next[t] else 0) + 1];
      remaining := remaining - {t};
    }
  }

  /** The `doc_freq` loop over the documents. */
  method CountDocumentFrequencies(docs: seq<Doc>) returns (docFreq: map<string, nat>)
    ensures docFreq == DocFreq(docs)
  {
    docFreq := map[];
    for k := 0 to |docs|
      invariant docFreq == DocFreq(docs[..k])
    {
      var next := AddDocument(docFreq, docs[k].tokens);
      assert docs[..k + 1] == docs[..k] + [docs[k]];
      forall t ensures (t in next <==> t in DocFreq(docs[..k + 1]))
        && (t in next ==> next[t] == DocFreq(docs[..k + 1])[t])
      {
        DocFreqStep(docs[..k], docs[k], t);
      }
      docFreq := next;
    }
    assert docs[..|docs|] == docs;
  }

  /** `{token: log((total + 1) / (freq + 1)) + 1 for token, freq in doc_freq.items()}`. */
  function IdfFrom(m: LawfulMath, docFreq: map<string, nat>, total: nat): (idf: map<string, real>)
    ensures idf.Keys == docFreq.Keys
  {
    map t | t in docFreq :: Idf(m, total, docFreq[t])
  }

  function IdfTable(m: LawfulMath, docs: seq<Doc>): (idf: map<string, real>)
    ensures idf.Keys == Vocabulary(docs)
  {
    IdfFrom(m, DocFreq(docs), |docs|)
  }

  /** Every idf value is at least 1, because no frequency exceeds the document count. */
  lemma {:induction false} IdfAtLeastOne(m: LawfulMath, docs: seq<Doc>)
    ensures forall t :: t in IdfTable(m, docs) ==> IdfTable(m, docs)[t] >= 1.0
  {
    DocFreqBounds(docs);
  }

  // ---------------------------------------------------------------------------
  // Sparse vectors
  // ---------------------------------------------------------------------------

  /** A sparse vector: token weights in insertion order. */
  type Vector = Dict<string, real>

  /** `count * idf[token]`. */
  function Weight(count: int, idf: real): real {
    count as real * idf
  }

  /** The weights `count * idf[token]` of the counted tokens the idf table knows, in counter order. */
  function Weighted(tf: Dict<string, int>, idf: map<string, real>): (v: Vector)
    ensures |v| <= |tf|
    ensures forall i :: 0 <= i < |v| ==> v[i].0 in idf
  {
    if tf == [] then []
    else
      var init := Weighted(tf[..|tf| - 1], idf);
      var t := tf[|tf| - 1].0;
      if t in idf then init + [(t, Weight(tf[|tf| - 1].1, idf[t]))] else init
  }

  predicate Known(tf: Dict<string, int>, idf: map<string, real>) {
    forall i :: 0 <= i < |tf| ==> tf[i].0 in idf
  }

  /** When the table knows every counted token, each one gets its weight, in place. */
  lemma {:induction false} WeightedKnown(tf: Dict<string, int>, idf: map<string, real>)
    requires Known(tf, idf)
    ensures |Weighted(tf, idf)| == |tf|
    ensures forall i :: 0 <= i < |tf| ==>
      Weighted(tf, idf)[i].0 == tf[i].0 && Weighted(tf, idf)[i].1 == Weight(tf[i].1, idf[tf[i].0])
  {
    if tf != [] {
      var init := tf[..|tf| - 1];
      assert Known(init, idf) by {
        forall i | 0 <= i < |init| ensures init[i].0 in idf { assert init[i] == tf[i]; }
      }
      WeightedKnown(init, idf);
      var w := Weighted(tf, idf);
      assert tf[|tf| - 1].0 in idf;
      assert w[..|init|] == Weighted(init, idf);
      forall i | 0 <= i < |tf|
        ensures w[i].0 == tf[i].0 && w[i].1 == Weight(tf[i].1, idf[tf[i].0])
      {
        if i < |init| {
          assert w[i] == w[..|init|][i];
          assert init[i] == tf[i];
        }
      }
    }
  }

  /** When the table knows none of the counted tokens, the vector is empty. */
  lemma {:induction false} WeightedUnknown(tf: Dict<string, int>, idf: map<string, real>)
    requires forall i :: 0 <= i < |tf| ==> tf[i].0 !in idf
    ensures Weighted(tf, idf) == []
  {
    if tf != [] {
      WeightedUnknown(tf[..|tf| - 1], idf);
    }
  }

  /** Weighting keeps a subsequence of the counter's keys, so they stay distinct. */
  lemma {:induction false} WeightedDistinct(tf: Dict<string, int>, idf: map<string, real>)
    requires DistinctKeys(tf)
    ensures DistinctKeys(Weighted(tf, idf))
    ensures forall i :: 0 <= i < |Weighted(tf, idf)| ==> Weighted(tf, idf)[i].0 in Keys(tf)
  {
    if tf != [] {
      var init := tf[..|tf| - 1];
      WeightedDistinct(init, idf);
      forall i | 0 <= i < |init| ensures init[i].0 != tf[|tf| - 1].0 && Keys(init)[i] == Keys(tf)[i] {
      }
      assert Keys(tf)[|tf| - 1] == tf[|tf| - 1].0;
    }
  }

  /** `sum(weight * weight for weight in vector.values())`. */
  function SumSquares(v: Vector): real {
    if v == [] then 0.0 else SumSquares(v[..|v| - 1]) + v[|v| - 1].1 * v[|v| - 1].1
  }

  /** Every weight divided by `d`, keys and order kept. */
  function Scaled(v: Vector, d: real): (r: Vector)
    requires d > 0.0
    ensures |r| == |v|
    ensures forall i :: 0 <= i < |v| ==> r[i].0 == v[i].0
  {
    seq(|v|, i requires 0 <= i < |v| => (v[i].0, v[i].1 / d))
  }

  lemma {:induction false} ScaledGet(v: Vector, d: real, t: string)
    requires d > 0.0
    ensures Get(Scaled(v, d), t, 0.0) == Get(v, t, 0.0) / d
  {
    if v != [] {
      assert Scaled(v, d)[1..] == Scaled(v[1..], d);
      ScaledGet(v[1..], d, t);
    }
  }

  lemma {:induction false} ScaledKeys(v: Vector, d: real, x: string)
    requires d > 0.0
    ensures x in Keys(Scaled(v, d)) <==> x in Keys(v)
  {
    assert Keys(Scaled(v, d)) == Keys(v);
  }

  /** A vector divided by its norm, `sqrt(sum of squares) or 1.0`. */
  function Unit(m: LawfulMath, v: Vector): (r: Vector)
    ensures |r| == |v|
  {
    Scaled(v, SqrtOrOne(m, SumSquares(v)))
  }

  /** The unit tf-idf vector of a token list. */
  function TfIdf(m: LawfulMath, idf: map<string, real>, tokens: seq<string>): Vector {
    Unit(m, Weighted(Text.CountTokens(tokens), idf))
  }

  /** Its keys are distinct tokens of the list that the idf table knows. */
  lemma {:induction false} TfIdfKeys(m: LawfulMath, idf: map<string, real>, tokens: seq<string>)
    ensures DistinctKeys(TfIdf(m, idf, tokens))
    ensures forall i :: 0 <= i < |TfIdf(m, idf, tokens)| ==>
      TfIdf(m, idf, tokens)[i].0 in idf && TfIdf(m, idf, tokens)[i].0 in tokens
  {
    var tf := Text.CountTokens(tokens);
    Text.CountTokensDistinct(tokens);
    WeightedDistinct(tf, idf);
    var w := Weighted(tf, idf);
    forall i | 0 <= i < |w| ensures w[i].0 in tokens {
      Text.CountTokensKeys(tokens, w[i].0);
    }
  }

  // ---------------------------------------------------------------------------
  // Centroids
  // ---------------------------------------------------------------------------

  /** `vector[token] += weight` for every entry of `u`, in order. */
  function AddWeights(v: Vector, u: Vector): Vector {
    if u == [] then v
    else
      var prev := AddWeights(v, u[..|u| - 1]);
      Put(prev, u[|u| - 1].0, Get(prev, u[|u| - 1].0, 0.0) + u[|u| - 1].1)
  }

  /** The running sums of `_fit`: the summed unit vectors of each intent, in order of first document. */
  function Summed(m: LawfulMath, docs: seq<Doc>, idf: map<string, real>): Dict<string, Vector> {
    if docs == [] then []
    else
      var s := Summed(m, docs[..|docs| - 1], idf);
      var d := docs[|docs| - 1];
      Put(s, d.intent, AddWeights(Get(s, d.intent, []), TfIdf(m, idf, d.tokens)))
  }

  /** `intent_counts`: the number of documents seen for each intent. */
  function Counted(docs: seq<Doc>): Dict<string, int> {
    if docs == [] then []
    else
      var c := Counted(docs[..|docs| - 1]);
      var x := docs[|docs| - 1].intent;
      Put(c, x, Get(c, x, 0) + 1)
  }

  /** `max(count, 1)` as the divisor. */
  function Divisor(count: int): (d: real)
    ensures d >= 1.0
  {
    if count > 1 then count as real else 1.0
  }

  /** `self.intent_vectors[intent] = {token: weight / count ...}` for every summed intent. */
  function Averaged(vectors: Dict<string, Vector>, counts: Dict<string, int>): Dict<string, Vector> {
    if vectors == [] then []
    else
      var (intent, v) := vectors[|vectors| - 1];
      Put(Averaged(vectors[..|vectors| - 1], counts), intent, Scaled(v, Divisor(Get(counts, intent, 0))))
  }

  /** The centroid of every intent that has a document. */
  function Centroids(m: LawfulMath, docs: seq<Doc>): Dict<string, Vector> {
    Averaged(Summed(m, docs, IdfTable(m, docs)), Counted(docs))
  }

  function Intents(docs: seq<Doc>): seq<string> {
    if docs == [] then [] else Intents(docs[..|docs| - 1]) + [docs[|docs| - 1].intent]
  }

  /** The number of documents of an intent. */
  function IntentCount(docs: seq<Doc>, x: string): (n: nat)
    ensures n <= |docs|
  {
    if docs == [] then 0
    else IntentCount(docs[..|docs| - 1], x) + (if docs[|docs| - 1].intent == x then 1 else 0)
  }

  /** The sum over the documents of intent `x` of their unit-vector weight for `t`. */
  function WeightSum(m: LawfulMath, docs: seq<Doc>, idf: map<string, real>, x: string, t: string): real {
    if docs == [] then 0.0
    else
      var d := docs[|docs| - 1];
      WeightSum(m, docs[..|docs| - 1], idf, x, t) + (if d.intent == x then Get(TfIdf(m, idf, d.tokens), t, 0.0) else 0.0)
  }

  lemma {:induction false} IntentsLast(docs: seq<Doc>, x: string)
    requires docs != []
    ensures x in Intents(docs) <==> x in Intents(docs[..|docs| - 1]) || x == docs[|docs| - 1].intent
  {
  }

  /** The summed intents are exactly the intents of the documents. */
  lemma {:induction false} SummedKeys(m: LawfulMath, docs: seq<Doc>, idf: map<string, real>, x: string)
    ensures x in Keys(Summed(m, docs, idf)) <==> x in Intents(docs)
    ensures DistinctKeys(Summed(m, docs, idf))
  {
    if docs != [] {
      var init := docs[..|docs| - 1];
      var s := Summed(m, init, idf);
      var d := docs[|docs| - 1];
      var v := AddWeights(Get(s, d.intent, []), TfIdf(m, idf, d.tokens));
      SummedKeys(m, init, idf, x);
      PutMember(s, d.intent, v, x);
      PutDistinct(s, d.intent, v);
      IntentsLast(docs, x);
    }
  }

  /** Each intent's count is its number of documents. */
  lemma {:induction false} CountedCounts(docs: seq<Doc>, x: string)
    ensures Get(Counted(docs), x, 0) == IntentCount(docs, x)
  {
    if docs != [] {
      var init := docs[..|docs| - 1];
      var c := Counted(init);
      var y := docs[|docs| - 1].intent;
      CountedCounts(init, x);
      if y == x {
        GetPut(c, x, Get(c, x, 0) + 1, 0);
      } else {
        PutOther(c, y, Get(c, y, 0) + 1, x, 0);
      }
    }
  }

  /** Adding one entry whose key is new to the added vector adds its weight to that key... */
  lemma {:induction false} AddWeightsSame(v: Vector, init: Vector, k: string, w: real)
    requires k !in Keys(init)
    ensures Get(AddWeights(v, init + [(k, w)]), k, 0.0) == Get(AddWeights(v, init), k, 0.0) + w
    ensures Get(init + [(k, w)], k, 0.0) == w
  {
    var u := init + [(k, w)];
    assert u[..|u| - 1] == init;
    var prev := AddWeights(v, init);
    GetPut(prev, k, Get(prev, k, 0.0) + w, 0.0);
    GetAppend(init, k, w, k, 0.0);
  }

  /** ...and leaves every other key alone. */
  lemma {:induction false} AddWeightsOther(v: Vector, init: Vector, k: string, w: real, t: string)
    requires t != k
    ensures Get(AddWeights(v, init + [(k, w)]), t, 0.0) == Get(AddWeights(v, init), t, 0.0)
    ensures Get(init + [(k, w)], t, 0.0) == Get(init, t, 0.0)
  {
    var u := init + [(k, w)];
    assert u[..|u| - 1] == init;
    var prev := AddWeights(v, init);
    PutOther(prev, k, Get(prev, k, 0.0) + w, t, 0.0);
    GetAppend(init, k, w, t, 0.0);
    if t !in Keys(init) {
      GetMissing(init, t, 0.0);
    }
  }

  /** Adding a vector with distinct keys adds its weight to each token. */
  lemma {:induction false} AddWeightsGet(v: Vector, u: Vector, t: string)
    requires DistinctKeys(u)
    ensures Get(AddWeights(v, u), t, 0.0) == Get(v, t, 0.0) + Get(u, t, 0.0)
  {
    if u != [] {
      var init := u[..|u| - 1];
      var k := u[|u| - 1].0;
      var w := u[|u| - 1].1;
      DistinctLast(u);
      AddWeightsGet(v, init, t);
      assert u == init + [(k, w)];
      if t == k {
        AddWeightsSame(v, init, k, w);
        GetMissing(init, k, 0.0);
      } else {
        AddWeightsOther(v, init, k, w, t);
      }
    }
  }

  /** Each summed weight is the sum of the documents' unit-vector weights. */
  lemma {:induction false} SummedWeight(m: LawfulMath, docs: seq<Doc>, idf: map<string, real>, x: string, t: string)
    ensures Get(Get(Summed(m, docs, idf), x, []), t, 0.0) == WeightSum(m, docs, idf, x, t)
  {
    if docs != [] {
      var init := docs[..|docs| - 1];
      var s := Summed(m, init, idf);
      var d := docs[|docs| - 1];
      var u := TfIdf(m, idf, d.tokens);
      var v := AddWeights(Get(s, d.intent, []), u);
      SummedWeight(m, init, idf, x, t);
      if d.intent == x {
        GetPut(s, x, v, []);
        TfIdfKeys(m, idf, d.tokens);
        AddWeightsGet(Get(s, x, []), u, t);
      } else {
        PutOther(s, d.intent, v, x, []);
      }
    }
  }

  lemma {:induction false} AveragedKeys(vectors: Dict<string, Vector>, counts: Dict<string, int>, x: string)
    ensures x in Keys(Averaged(vectors, counts)) <==> x in Keys(vectors)
  {
    if vectors != [] {
      var init := vectors[..|vectors| - 1];
      var (k, v) := vectors[|vectors| - 1];
      AveragedKeys(init, counts, x);
      PutMember(Averaged(init, counts), k, Scaled(v, Divisor(Get(counts, k, 0))), x);
      assert vectors == init + [(k, v)];
      assert Keys(vectors) == Keys(init) + [k];
    }
  }

  /** With distinct intents, each averaged vector is the summed one divided by its count. */
  lemma {:induction false} AveragedGet(vectors: Dict<string, Vector>, counts: Dict<string, int>, x: string)
    requires DistinctKeys(vectors)
    ensures Get(Averaged(vectors, counts), x, []) == Scaled(Get(vectors, x, []), Divisor(Get(counts, x, 0)))
  {
    if vectors != [] {
      var init := vectors[..|vectors| - 1];
      var (k, v) := vectors[|vectors| - 1];
      var prev := Averaged(init, counts);
      DistinctLast(vectors);
      AveragedGet(init, counts, x);
      assert vectors == init + [(k, v)];
      GetAppend(init, k, v, x, []);
      if x == k {
        GetPut(prev, k, Scaled(v, Divisor(Get(counts, k, 0))), []);
      } else {
        PutOther(prev, k, Scaled(v, Divisor(Get(counts, k, 0))), x, []);
        if x !in Keys(init) {
          GetMissing(init, x, []);
        }
      }
    }
  }

  /** The centroid keys are exactly the intents that have a document. */
  lemma {:induction false} CentroidKeys(m: LawfulMath, docs: seq<Doc>, x: string)
    ensures x in Keys(Centroids(m, docs)) <==> x in Intents(docs)
  {
    SummedKeys(m, docs, IdfTable(m, docs), x);
    AveragedKeys(Summed(m, docs, IdfTable(m, docs)), Counted(docs), x);
  }

  /**
   * Each centroid weight is the intent's summed unit-vector weight divided by
   * its number of documents (at least 1).
   */
  lemma {:induction false} CentroidWeight(m: LawfulMath, docs: seq<Doc>, x: string, t: string)
    ensures Get(Get(Centroids(m, docs), x, []), t, 0.0)
         == WeightSum(m, docs, IdfTable(m, docs), x, t) / Divisor(IntentCount(docs, x))
  {
    var idf := IdfTable(m, docs);
    var s := Summed(m, docs, idf);
    SummedKeys(m, docs, idf, x);
    AveragedGet(s, Counted(docs), x);
    CountedCounts(docs, x);
    SummedWeight(m, docs, idf, x, t);
    ScaledGet(Get(s, x, []), Divisor(IntentCount(docs, x)), t);
  }

  /** Every term of a vector has an idf value. */
  predicate TermsIn(v: Vector, idf: map<string, real>) {
    forall t :: t in Keys(v) ==> t in idf
  }

  /** Adding weights introduces no term that neither vector has. */
  lemma {:induction false} AddWeightsTerms(v: Vector, u: Vector, idf: map<string, real>)
    requires TermsIn(v, idf) && TermsIn(u, idf)
    ensures TermsIn(AddWeights(v, u), idf)
  {
    if u != [] {
      var init := u[..|u| - 1];
      var k := u[|u| - 1].0;
      TermsInInit(u, idf);
      AddWeightsTerms(v, init, idf);
      var prev := AddWeights(v, init);
      var sum := Get(prev, k, 0.0) + u[|u| - 1].1;
      PutTerms(prev, k, sum, idf);
      assert AddWeights(v, u) == Put(prev, k, sum);
    }
  }

  lemma {:induction false} TermsInInit(u: Vector, idf: map<string, real>)
    requires u != [] && TermsIn(u, idf)
    ensures TermsIn(u[..|u| - 1], idf) && u[|u| - 1].0 in idf
  {
    var init := u[..|u| - 1];
    assert Keys(u)[|u| - 1] == u[|u| - 1].0;
    forall t | t in Keys(init) ensures t in idf {
      var i :| 0 <= i < |init| && Keys(init)[i] == t;
      assert Keys(u)[i] == t;
    }
  }

  lemma {:induction false} PutTerms(v: Vector, k: string, x: real, idf: map<string, real>)
    requires TermsIn(v, idf) && k in idf
    ensures TermsIn(Put(v, k, x), idf)
  {
    forall t | t in Keys(Put(v, k, x)) ensures t in idf {
      PutMember(v, k, x, t);
    }
  }

  /** The summed vector of every intent holds only terms the idf table knows. */
  lemma {:induction false} SummedTerms(m: LawfulMath, docs: seq<Doc>, idf: map<string, real>, x: string)
    ensures TermsIn(Get(Summed(m, docs, idf), x, []), idf)
  {
    if docs != [] {
      var init := docs[..|docs| - 1];
      var s := Summed(m, init, idf);
      var d := docs[|docs| - 1];
      var u := TfIdf(m, idf, d.tokens);
      var v := AddWeights(Get(s, d.intent, []), u);
      SummedTerms(m, init, idf, x);
      SummedTerms(m, init, idf, d.intent);
      TfIdfKeys(m, idf, d.tokens);
      assert TermsIn(u, idf);
      AddWeightsTerms(Get(s, d.intent, []), u, idf);
      if x == d.intent {
        GetPut(s, x, v, []);
      } else {
        PutOther(s, d.intent, v, x, []);
      }
    }
  }

  /** Every term of every centroid is in the idf vocabulary. */
  lemma {:induction false} CentroidTerms(m: LawfulMath, docs: seq<Doc>, x: string)
    ensures var c := Get(Centroids(m, docs), x, []);
      forall i :: 0 <= i < |c| ==> c[i].0 in IdfTable(m, docs)
  {
    var idf := IdfTable(m, docs);
    var s := Summed(m, docs, idf);
    SummedKeys(m, docs, idf, x);
    AveragedGet(s, Counted(docs), x);
    SummedTerms(m, docs, idf, x);
    var v := Get(s, x, []);
    forall i | 0 <= i < |v| ensures v[i].0 in idf {
      assert Keys(v)[i] == v[i].0;
    }
  }

  // ---------------------------------------------------------------------------
  // Similarity and the decision rule
  // ---------------------------------------------------------------------------

  /** `sum(weight * b.get(token, 0.0) for token, weight in a.items())`, from the left. */
  function Numerator(a: Vector, b: Vector): real {
    if a == [] then 0.0
    else Numerator(a[..|a| - 1], b) + a[|a| - 1].1 * Get(b, a[|a| - 1].0, 0.0)
  }

  /** `_cosine_similarity`: each norm is `sqrt(sum of squares) or 1.0`. */
  function Cosine(m: LawfulMath, a: Vector, b: Vector): real {
    Numerator(a, b) / Denominator(m, a, b)
  }

  /** The product of the two norms, each `sqrt(sum of squares) or 1.0`. */
  function Denominator(m: LawfulMath, a: Vector, b: Vector): (d: real)
    ensures d > 0.0
  {
    var da := SqrtOrOne(m, SumSquares(a));
    var db := SqrtOrOne(m, SumSquares(b));
    assert da * db > 0.0;
    da * db
  }

  /** The numerator loop of `_cosine_similarity`. */
  method CosineSimilarity(m: LawfulMath, a: Vector, b: Vector) returns (score: real)
    ensures score == Cosine(m, a, b)
  {
    var numerator := 0.0;
    for i := 0 to |a|
      invariant numerator == Numerator(a[..i], b)
    {
      assert a[..i + 1][..i] == a[..i];
      numerator := numerator + a[i].1 * Get(b, a[i].0, 0.0);
    }
    assert a[..|a|] == a;
    score := numerator / Denominator(m, a, b);
  }

  /** Nothing in the first vector means no similarity. */
  lemma {:induction false} CosineEmpty(m: LawfulMath, b: Vector)
    ensures Cosine(m, [], b) == 0.0
  {
  }

  /** The best centroid so far: its position, if any, and its score. */
  datatype Best = Best(index: Option<nat>, score: real)

  /**
   * The centroid loop of `classify`, starting from no intent and score 0.0: a
   * centroid replaces the best so far only with a strictly higher score.
   */
  function BestOf(m: LawfulMath, vec: Vector, centroids: Dict<string, Vector>): (b: Best)
    ensures b.score >= 0.0
    ensures forall j :: 0 <= j < |centroids| ==> Cosine(m, vec, centroids[j].1) <= b.score
    ensures b.index.None? ==> b.score == 0.0
    ensures b.index.Some? ==> b.index.value < |centroids| && b.score > 0.0
                              && Cosine(m, vec, centroids[b.index.value].1) == b.score
    ensures b.index.Some? ==> forall j :: 0 <= j < b.index.value ==> Cosine(m, vec, centroids[j].1) < b.score
  {
    if centroids == [] then Best(None, 0.0)
    else
      var prev := BestOf(m, vec, centroids[..|centroids| - 1]);
      var score := Cosine(m, vec, centroids[|centroids| - 1].1);
      if score > prev.score then Best(Some(|centroids| - 1), score) else prev
  }

  /** The intent at a position, if there is one. */
  function IntentAt(centroids: Dict<string, Vector>, index: Option<nat>): (r: Option<string>)
    ensures r.Some? ==> r.value in Keys(centroids)
  {
    if index.Some? && index.value < |centroids| then Some(centroids[index.value].0) else None
  }

  /** The argmax loop: tracks the best intent and score over the centroids. */
  method BestCentroid(m: LawfulMath, vec: Vector, centroids: Dict<string, Vector>)
    returns (bestIntent: Option<string>, bestScore: real)
    ensures bestScore == BestOf(m, vec, centroids).score
    ensures bestIntent == IntentAt(centroids, BestOf(m, vec, centroids).index)
  {
    bestIntent := None;
    bestScore := 0.0;
    ghost var bestIndex: Option<nat> := None;
    for k := 0 to |centroids|
      invariant Best(bestIndex, bestScore) == BestOf(m, vec, centroids[..k])
      invariant bestIndex.Some? ==> bestIndex.value < k
      invariant bestIntent == IntentAt(centroids, bestIndex)
    {
      assert centroids[..k + 1][..k] == centroids[..k];
      var score := CosineSimilarity(m, vec, centroids[k].1);
      if score > bestScore {
        bestScore := score;
        bestIntent := Some(centroids[k].0);
        bestIndex := Some(k);
      }
    }
    assert centroids[..|centroids|] == centroids;
  }

  /** `ClassificationResult`. */
  datatype ClassificationResult = ClassificationResult(intent: Option<string>, score: real)

  /**
   * `classify`: no token gives no intent and 0.0; otherwise the best centroid
   * for the query's unit tf-idf vector, reported only when its score reaches
   * the threshold.
   */
  function Classification(m: LawfulMath, idf: map<string, real>, centroids: Dict<string, Vector>,
                          text: string, threshold: real): (r: ClassificationResult)
    ensures r.score >= 0.0
    ensures r.intent.Some? ==> r.score >= threshold && r.intent.value in Keys(centroids)
  {
    var tokens := Text.Tokenize(text);
    if tokens == [] then ClassificationResult(None, 0.0)
    else
      var b := BestOf(m, TfIdf(m, idf, tokens), centroids);
      if b.score >= threshold then ClassificationResult(IntentAt(centroids, b.index), b.score)
      else ClassificationResult(None, b.score)
  }

  /** A query none of whose tokens the idf table knows is routed nowhere, with score 0.0. */
  lemma {:induction false} UnknownQuery(m: LawfulMath, idf: map<string, real>, centroids: Dict<string, Vector>, text: string, threshold: real)
    requires forall t :: t in Text.Tokenize(text) ==> t !in idf
    ensures Classification(m, idf, centroids, text, threshold) == ClassificationResult(None, 0.0)
  {
    var tokens := Text.Tokenize(text);
    if tokens != [] {
      var tf := Text.CountTokens(tokens);
      forall i | 0 <= i < |tf| ensures tf[i].0 !in idf {
        Text.CountTokensKeys(tokens, tf[i].0);
      }
      WeightedUnknown(tf, idf);
      assert TfIdf(m, idf, tokens) == [];
      var b := BestOf(m, [], centroids);
      if b.index.Some? {
        CosineEmpty(m, centroids[b.index.value].1);
      }
    }
  }

  // ---------------------------------------------------------------------------
  // The classifier object
  // ---------------------------------------------------------------------------

  /** The documents `_fit` collects: the nested loop over intents and examples. */
  method CollectDocuments(ex: Examples) returns (docs: seq<Doc>)
    ensures docs == Documents(ex)
  {
    docs := [];
    for i := 0 to |ex|
      invariant docs == Documents(ex[..i])
    {
      var intent := ex[i].0;
      var examples := ex[i].1;
      ghost var before := docs;
      for j := 0 to |examples|
        invariant docs == before + IntentDocuments(intent, examples[..j])
      {
        assert examples[..j + 1][..j] == examples[..j];
        var tokens := Text.Tokenize(examples[j]);
        if tokens == [] {
          continue;
        }
        docs := docs + [Doc(tokens, intent)];
      }
      assert examples[..|examples|] == examples;
      assert ex[..i + 1][..i] == ex[..i];
    }
    assert ex[..|ex|] == ex;
  }

  /** The inner loop of the centroid sums: `intent_vectors[label][token] += weight`. */
  method AddDocumentVector(vector: Vector, tf: Dict<string, int>, idf: map<string, real>, norm: real)
    returns (next: Vector)
    requires Known(tf, idf) && norm > 0.0
    ensures next == AddWeights(vector, Scaled(Weighted(tf, idf), norm))
  {
    var unit := Scaled(Weighted(tf, idf), norm);
    WeightedKnown(tf, idf);
    next := vector;
    for i := 0 to |tf|
      invariant next == AddWeights(vector, unit[..i])
    {
      assert unit[..i + 1][..i] == unit[..i];
      var token := tf[i].0;
      var weight := Weight(tf[i].1, idf[token]) / norm;
      assert unit[i].0 == token && unit[i].1 == weight;
      next := Put(next, token, Get(next, token, 0.0) + weight);
    }
    assert unit[..|tf|] == unit;
  }

  /** The body of the outer loop for one document: its unit tf-idf vector added to `vector`. */
  method AddDocumentTokens(m: LawfulMath, vector: Vector, tokens: seq<string>, idf: map<string, real>)
    returns (next: Vector)
    requires forall t :: t in tokens ==> t in idf
    ensures next == AddWeights(vector, TfIdf(m, idf, tokens))
  {
    var tf := Text.CountTokens(tokens);
    assert Known(tf, idf) by {
      forall i | 0 <= i < |tf| ensures tf[i].0 in idf {
        Text.CountTokensKeys(tokens, tf[i].0);
      }
    }
    var norm := SqrtOrOne(m, SumSquares(Weighted(tf, idf)));
    next := AddDocumentVector(vector, tf, idf, norm);
  }

  /** The outer loop of the centroid sums: one unit vector and one count per document. */
  method SumVectors(m: LawfulMath, docs: seq<Doc>, idf: map<string, real>)
    returns (vectors: Dict<string, Vector>, counts: Dict<string, int>)
    requires forall k, t :: 0 <= k < |docs| && t in docs[k].tokens ==> t in idf
    ensures vectors == Summed(m, docs, idf) && counts == Counted(docs)
  {
    vectors := [];
    counts := [];
    for k := 0 to |docs|
      invariant vectors == Summed(m, docs[..k], idf) && counts == Counted(docs[..k])
    {
      vectors, counts := SumDocument(m, docs, idf, k, vectors, counts);
    }
    assert docs[..|docs|] == docs;
  }

  /** One pass of the outer loop: document `k` added to its intent's sum and count. */
  method SumDocument(m: LawfulMath, docs: seq<Doc>, idf: map<string, real>, k: nat,
                     vectors: Dict<string, Vector>, counts: Dict<string, int>)
    returns (vectors': Dict<string, Vector>, counts': Dict<string, int>)
    requires k < |docs| && forall t :: t in docs[k].tokens ==> t in idf
    requires vectors == Summed(m, docs[..k], idf) && counts == Counted(docs[..k])
    ensures vectors' == Summed(m, docs[..k + 1], idf) && counts' == Counted(docs[..k + 1])
  {
    var intent := docs[k].intent;
    var vector := AddDocumentTokens(m, Get(vectors, intent, []), docs[k].tokens, idf);
    SummedLast(m, docs, idf, k);
    vectors' := Put(vectors, intent, vector);
    CountedLast(docs, k);
    counts' := Put(counts, intent, Get(counts, intent, 0) + 1);
  }

  /** One more document adds its unit vector to its intent's sum... */
  lemma {:induction false} SummedLast(m: LawfulMath, docs: seq<Doc>, idf: map<string, real>, k: nat)
    requires k < |docs|
    ensures var s, d := Summed(m, docs[..k], idf), docs[k];
      Summed(m, docs[..k + 1], idf) == Put(s, d.intent, AddWeights(Get(s, d.intent, []), TfIdf(m, idf, d.tokens)))
  {
    assert docs[..k + 1][..k] == docs[..k] && docs[..k + 1][k] == docs[k];
  }

  /** ...and one to its count. */
  lemma {:induction false} CountedLast(docs: seq<Doc>, k: nat)
    requires k < |docs|
    ensures var c, d := Counted(docs[..k]), docs[k];
      Counted(docs[..k + 1]) == Put(c, d.intent, Get(c, d.intent, 0) + 1)
  {
    assert docs[..k + 1][..k] == docs[..k] && docs[..k + 1][k] == docs[k];
  }

  /** One step of the query loop: the prefix's vector, extended by the next token if it is known. */
  lemma {:induction false} WeightedSnoc(tf: Dict<string, int>, idf: map<string, real>, i: nat)
    requires i < |tf|
    ensures tf[i].0 !in idf ==> Weighted(tf[..i + 1], idf) == Weighted(tf[..i], idf)
    ensures tf[i].0 in idf ==>
      Weighted(tf[..i + 1], idf) == Weighted(tf[..i], idf) + [(tf[i].0, Weight(tf[i].1, idf[tf[i].0]))]
  {
    var prefix := tf[..i + 1];
    assert prefix[..|prefix| - 1] == tf[..i];
    assert prefix[|prefix| - 1] == tf[i];
  }

  /** A known token of the query is not yet a key of the vector built so far. */
  lemma {:induction false} WeightedFresh(tf: Dict<string, int>, idf: map<string, real>, i: nat)
    requires DistinctKeys(tf) && i < |tf|
    ensures tf[i].0 !in Keys(Weighted(tf[..i], idf))
  {
    var prefix := tf[..i + 1];
    assert prefix[..i] == tf[..i];
    DistinctLast(prefix);
    var vec := Weighted(tf[..i], idf);
    WeightedDistinct(tf[..i], idf);
    forall j | 0 <= j < |vec| ensures Keys(vec)[j] != tf[i].0 {
      assert vec[j].0 in Keys(tf[..i]);
    }
  }

  lemma {:induction false} SumSquaresSnoc(v: Vector, t: string, w: real)
    ensures SumSquares(v + [(t, w)]) == SumSquares(v) + w * w
  {
    assert (v + [(t, w)])[..|v|] == v;
  }

  /** The classification query vector before normalisation: `vec[token] = count * idf` for known tokens. */
  method QueryWeights(tf: Dict<string, int>, idf: map<string, real>) returns (vec: Vector, norm: real)
    requires DistinctKeys(tf)
    ensures vec == Weighted(tf, idf) && norm == SumSquares(vec)
  {
    vec := [];
    norm := 0.0;
    for i := 0 to |tf|
      invariant vec == Weighted(tf[..i], idf) && norm == SumSquares(vec)
    {
      WeightedSnoc(tf, idf, i);
      var token := tf[i].0;
      if token !in idf {
        continue;
      }
      var weight := Weight(tf[i].1, idf[token]);
      WeightedFresh(tf, idf, i);
      PutNew(vec, token, weight);
      SumSquaresSnoc(vec, token, weight);
      vec := Put(vec, token, weight);
      norm := norm + weight * weight;
    }
    assert tf[..|tf|] == tf;
  }

  /** `for token in vec: vec[token] /= norm`. */
  method DivideAll(vec: Vector, norm: real) returns (r: Vector)
    requires norm > 0.0
    ensures r == Scaled(vec, norm)
  {
    r := vec;
    for i := 0 to |vec|
      invariant |r| == |vec|
      invariant forall j :: 0 <= j < i ==> r[j] == Scaled(vec, norm)[j]
      invariant forall j :: i <= j < |vec| ==> r[j] == vec[j]
    {
      r := r[i := (r[i].0, r[i].1 / norm)];
    }
  }

  /** Every token of every document has an idf value. */
  lemma {:induction false} IdfCovers(m: LawfulMath, docs: seq<Doc>)
    ensures forall k, t :: 0 <= k < |docs| && t in docs[k].tokens ==> t in IdfTable(m, docs)
  {
    forall k, t | 0 <= k < |docs| && t in docs[k].tokens
      ensures t in IdfTable(m, docs)
    {
      VocabularyCovers(docs, k, t);
    }
  }

  /** One step of the averaging loop. */
  lemma {:induction false} AveragedStep(vectors: Dict<string, Vector>, counts: Dict<string, int>, i: nat)
    requires i < |vectors|
    ensures Averaged(vectors[..i + 1], counts)
         == Put(Averaged(vectors[..i], counts), vectors[i].0,
                Scaled(vectors[i].1, Divisor(Get(counts, vectors[i].0, 0))))
  {
    assert vectors[..i + 1][..i] == vectors[..i];
  }

  /** `IntentClassifier`: the examples, the idf table and one centroid per intent. */
  class IntentClassifier {
    const math: LawfulMath
    var intentExamples: Examples
    var intentVectors: Dict<string, Vector>
    var idf: map<string, real>

    /** `__init__` up to the call of `_fit`. */
    constructor(m: LawfulMath, given: Option<Examples>)
      ensures math == m && intentExamples == ChosenExamples(given)
      ensures intentVectors == [] && idf == map[]
    {
      math := m;
      intentExamples := ChosenExamples(given);
      intentVectors := [];
      idf := map[];
    }

    /** The state `_fit` leaves: the idf table and the centroids of the examples' documents. */
    ghost predicate Fitted()
      reads this
    {
      idf == IdfTable(math, Documents(intentExamples))
      && intentVectors == Centroids(math, Documents(intentExamples))
    }

    /** `_fit`: raises when no example has a token, and then changes nothing. */
    method Fit() returns (r: Result<()>)
      requires intentVectors == []
      modifies this
      ensures intentExamples == old(intentExamples)
      ensures r.Success? <==> Documents(intentExamples) != []
      ensures r.Failure? ==> r.error == NoExamplesMessage && idf == old(idf) && intentVectors == old(intentVectors)
      ensures r.Success? ==> Fitted()
    {
      var documents := CollectDocuments(intentExamples);
      if documents == [] {
        return Failure(NoExamplesMessage);
      }
      var docFreq := CountDocumentFrequencies(documents);
      idf := IdfFrom(math, docFreq, |documents|);
      assert idf == IdfTable(math, documents);
      IdfCovers(math, documents);
      var vectors, counts := SumVectors(math, documents, idf);
      for i := 0 to |vectors|
        invariant intentExamples == old(intentExamples) && idf == IdfTable(math, documents)
        invariant intentVectors == Averaged(vectors[..i], counts)
      {
        AveragedStep(vectors, counts, i);
        var intent := vectors[i].0;
        var count := Divisor(Get(counts, intent, 0));
        intentVectors := Put(intentVectors, intent, Scaled(vectors[i].1, count));
      }
      assert vectors[..|vectors|] == vectors;
      r := Success(());
    }

    /** `classify`. */
    method Classify(text: string, threshold: real) returns (r: ClassificationResult)
      ensures r == Classification(math, idf, intentVectors, text, threshold)
    {
      var tokens := Text.Tokenize(text);
      if tokens == [] {
        return ClassificationResult(None, 0.0);
      }
      var tf := Text.CountTokens(tokens);
      Text.CountTokensDistinct(tokens);
      var vec, norm := QueryWeights(tf, idf);
      norm := SqrtOrOne(math, norm);
      vec := DivideAll(vec, norm);
      var bestIntent, bestScore := BestCentroid(math, vec, intentVectors);
      if bestScore >= threshold {
        return ClassificationResult(bestIntent, bestScore);
      }
      return ClassificationResult(None, bestScore);
    }
  }

  /** `IntentClassifier(intent_examples)`: construction runs `_fit`, which may raise. */
  method NewClassifier(m: LawfulMath, given: Option<Examples>) returns (r: Result<IntentClassifier>)
    ensures r.Success? <==> Documents(ChosenExamples(given)) != []
    ensures r.Failure? ==> r.error == NoExamplesMessage
    ensures r.Success? ==> fresh(r.value) && r.value.math == m
                           && r.value.intentExamples == ChosenExamples(given) && r.value.Fitted()
  {
    var c := new IntentClassifier(m, given);
    var fit := c.Fit();
    if fit.Failure? {
      return Failure(fit.error);
    }
    r := Success(c);
  }

  /** The default table has a document: its first example has a token. */
  lemma {:induction false} DefaultsHaveDocuments()
    ensures Documents(DefaultIntents) != []
  {
    var example := DefaultIntents[0].1[0];
    assert example == "show my team";
    Text.TokenizeStartsWithToken(example);
  }

  /** `IntentClassifier()` with the default examples, which cannot raise. */
  method DefaultClassifier(m: LawfulMath) returns (c: IntentClassifier)
    ensures fresh(c) && c.math == m && c.intentExamples == DefaultIntents && c.Fitted()
  {
    DefaultsHaveDocuments();
    var created := NewClassifier(m, None);
    c := created.value;
  }

  /** The module-level `_classifier` that `get_intent_classifier` fills on first use. */
  class ClassifierCache {
    var instance: Option<IntentClassifier>

    constructor()
      ensures instance == None
    {
      instance := None;
    }

    /** `get_intent_classifier`: builds the default classifier once, then returns that same object. */
    method GetIntentClassifier(m: LawfulMath) returns (c: IntentClassifier)
      modifies this
      ensures old(instance).Some? ==> c == old(instance).value && instance == old(instance)
      ensures old(instance).None? ==>
        fresh(c) && instance == Some(c) && c.intentExamples == DefaultIntents && c.Fitted()
    {
      if instance.Some? {
        return instance.value;
      }
      c := DefaultClassifier(m);
      instance := Some(c);
    }
  }
}
