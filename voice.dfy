/** The sentiment services of the voice analysis app: which classifier a model name selects,
    the `current_model` the session remembers, the decision rules that turn a classifier's
    numbers into a label, and the table of every model's verdict. The classifiers are
    functions passed in. */
module VoiceAnalysis {
  import opened Wrappers
  import opened Llm

  /** A sentiment score: a number, or the text the services return in its place. */
  datatype Score = Value(real) | Note(string)

  /** A `(label, score)` pair. */
  datatype Sentiment = Sentiment(labelName: string, score: Score)

  /** One `{'label': ..., 'score': ...}` entry of a classification pipeline's output. */
  datatype LabelScore = LabelScore(labelName: string, score: real)

  /** What flair's classifier leaves in a sentence: its number of tokens (a sentence with
      none is falsy), its label and its score. */
  datatype FlairSentence = FlairSentence(tokens: nat, labelName: string, score: real)

  /** TextBlob's `polarity` and `subjectivity` of a text. */
  datatype Polarity = Polarity(polarity: real, subjectivity: real)

  /** The model loaded by `LoadModules.load_model_<key>`. */
  datatype Classifier = Loaded(key: string)

  /** What is analysed: a text, or the `text` column of a DataFrame. */
  datatype Input = Words(text: string) | Column(texts: seq<string>)

  /** The classifiers: TextBlob, flair, VADER's `polarity_scores`, the distilbert pipeline
      (a list of lists of scores) and the other classification pipelines (a list of scores). */
  datatype Models = Models(
    blob: string -> Polarity,
    flair: string -> Outcome<FlairSentence>,
    vader: string -> map<string, real>,
    distilbert: string -> Outcome<seq<seq<LabelScore>>>,
    classify: (Classifier, string) -> Outcome<seq<LabelScore>>)

  /** The answer of a handler. */
  datatype Analysis =
    | Labelled(sentiment: Sentiment)       // a `(label, score)` pair
    | Sentence(sentence: FlairSentence)    // flair's sentence, returned as it is
    | Scores(scores: seq<LabelScore>)      // the first list of the distilbert pipeline
    | Top(top: LabelScore)                 // the first entry of a pipeline's output
    | Frame(rows: seq<LabelScore>)         // the `sentiment` and `polarity` columns, row by row
    | PerModel(table: map<string, Sentiment>)

  const BadData := Sentiment("bad_data", Note("Not Enough or Bad Data"))
  const IndexOutOfRange := "list index out of range"

  /** The pair of a handler whose exception was caught. */
  function Error(message: string): Sentiment {
    Sentiment("error", Note(message))
  }

  // ---------------------------------------------------------------------------------
  // The cache of loaded models

  /** `LoadModules.all_modules` holds, under each key, the model that key loads. */
  predicate WellFormedCache(cache: map<string, Classifier>) {
    forall key :: key in cache ==> cache[key] == Loaded(key)
  }

  /** The cached model under `key`, or the one loaded for it (`None` and `{}` are both
      falsy, so an absent cache is the empty map). */
  function CachedOrLoaded(cache: map<string, Classifier>, key: string): (c: Classifier)
    ensures WellFormedCache(cache) ==> c == Loaded(key)
  {
    if key in cache then cache[key] else Loaded(key)
  }

  /** The classifier of `perform_sentiment_analysis_using_sam_lowe` as written: when a
      `sam_lowe` entry is cached, the `savani` entry is fetched instead, and a missing
      `savani` entry raises `KeyError`. */
  function SamLoweClassifierAsWritten(cache: map<string, Classifier>): Outcome<Classifier> {
    if "sam_lowe" in cache then
      if "savani" in cache then Returned(cache["savani"]) else Raised("'savani'")
    else Returned(Loaded("sam_lowe"))
  }

  /** With a cached `sam_lowe` model, the emotion classifier that runs is savani's, or the
      lookup fails; only an empty cache gives the `sam_lowe` model. */
  lemma SamLoweCacheUsesSavani(cache: map<string, Classifier>)
    requires WellFormedCache(cache) && "sam_lowe" in cache
    ensures "savani" in cache ==> SamLoweClassifierAsWritten(cache) == Returned(Loaded("savani"))
    ensures "savani" in cache ==> SamLoweClassifierAsWritten(cache) != Returned(Loaded("sam_lowe"))
    ensures "savani" !in cache ==> SamLoweClassifierAsWritten(cache).Raised?
  {
    if "savani" in cache {
      assert Loaded("savani").key != Loaded("sam_lowe").key;
    }
  }

  /** The classifier `perform_sentiment_analysis_using_sam_lowe` means to run: its own
      cached model, or a freshly loaded one. */
  function SamLoweClassifier(cache: map<string, Classifier>): Outcome<Classifier> {
    Returned(CachedOrLoaded(cache, "sam_lowe"))
  }

  /** The corrected lookup runs the `sam_lowe` model whatever the cache holds. */
  lemma SamLoweAlwaysSamLowe(cache: map<string, Classifier>)
    requires WellFormedCache(cache)
    ensures SamLoweClassifier(cache) == Returned(Loaded("sam_lowe"))
    ensures "sam_lowe" !in cache ==> SamLoweClassifier(cache) == SamLoweClassifierAsWritten(cache)
  {
  }

  // ---------------------------------------------------------------------------------
  // The decision rules

  /** The flair and distilbert score, negated unless the label is `POSITIVE`. */
  function Signed(labelName: string, score: real): real {
    if labelName == "POSITIVE" then score else -score
  }

  /** The sign rule keeps the magnitude, makes a positive score's sign follow the label,
      and undoes itself. VADER's `Positive` is not `POSITIVE`. */
  lemma SignRule(labelName: string, score: real)
    ensures Signed(labelName, score) == score || Signed(labelName, score) == -score
    ensures score > 0.0 ==> (Signed(labelName, score) > 0.0 <==> labelName == "POSITIVE")
    ensures Signed(labelName, Signed(labelName, score)) == score
    ensures Signed("Positive", score) == -score
  {
  }

  /** `text_blob_sentiments` once TextBlob gave its numbers. */
  function TextBlobRule(p: Polarity): (r: Sentiment)
    ensures r.score == Value(p.polarity)
    ensures r.labelName == "NEGATIVE" <==> p.polarity < -0.02 && p.subjectivity > 0.0
    ensures r.labelName == "NEUTRAL" <==> -0.02 <= p.polarity <= 0.02
    ensures r.labelName == "POSITIVE" || r.labelName == "NEGATIVE" || r.labelName == "NEUTRAL"
  {
    if -0.02 > p.polarity && p.subjectivity > 0.0 then Sentiment("NEGATIVE", Value(p.polarity))
    else if -0.02 <= p.polarity <= 0.02 then Sentiment("NEUTRAL", Value(p.polarity))
    else Sentiment("POSITIVE", Value(p.polarity))
  }

  /** The order of the labels, from negative to positive. */
  function Rank(labelName: string): int {
    if labelName == "NEGATIVE" || labelName == "Negative" then 0
    else if labelName == "NEUTRAL" || labelName == "Neutral" then 1
    else 2
  }

  /** POSITIVE is what the first two branches leave: a polarity above 0.02, or a negative
      one with no subjectivity. */
  lemma TextBlobPositive(p: Polarity)
    ensures TextBlobRule(p).labelName == "POSITIVE" <==>
      p.polarity > 0.02 || (p.polarity < -0.02 && p.subjectivity <= 0.0)
  {
  }

  /** For a subjective text the label never falls as the polarity rises. */
  lemma TextBlobMonotone(p: Polarity, q: Polarity)
    requires p.subjectivity > 0.0 && q.subjectivity > 0.0 && p.polarity <= q.polarity
    ensures Rank(TextBlobRule(p).labelName) <= Rank(TextBlobRule(q).labelName)
  {
  }

  /** Without subjectivity the rule is not monotone: a clearly negative polarity is labelled
      POSITIVE while zero is NEUTRAL. */
  lemma TextBlobObjectiveNegative()
    ensures TextBlobRule(Polarity(-0.5, 0.0)) == Sentiment("POSITIVE", Value(-0.5))
    ensures TextBlobRule(Polarity(0.0, 0.0)).labelName == "NEUTRAL"
  {
  }

  /** The message of the `TypeError` raised by unpacking `None`. */
  const NoneUnpack := "cannot unpack non-iterable NoneType object"

  /** `text_blob_sentiments`: `None` for an empty text, whose TextBlob is falsy. */
  function TextBlobSentiments(text: string, blob: string -> Polarity): (r: Option<Sentiment>)
    ensures r.None? <==> text == []
    ensures r.Some? ==> r.value == TextBlobRule(blob(text))
  {
    if text == [] then None else Some(TextBlobRule(blob(text)))
  }

  /** `perform_sentiment_analysis_using_textblob`: unpacking the `None` of an empty text
      raises, and the handler answers with the error. */
  function UsingTextBlob(text: string, blob: string -> Polarity): (r: Sentiment)
    ensures text == [] ==> r == Error(NoneUnpack)
    ensures text != [] ==> r == TextBlobRule(blob(text))
  {
    match TextBlobSentiments(text, blob)
    case None => Error(NoneUnpack)
    case Some(s) => s
  }

  const VaderBadData := Sentiment("bad_data", Note("Bad Data or Insufficient Data"))

  /** The pair made of `label` and the score under `key`; a missing key raises `KeyError`. */
  function VaderPick(scores: map<string, real>, labelName: string, key: string): Outcome<Sentiment> {
    if key in scores then Returned(Sentiment(labelName, Value(scores[key]))) else Raised("'" + key + "'")
  }

  /** The decision of `perform_sentiment_analysis_using_vader` on a sentiment dictionary. */
  function VaderRule(scores: map<string, real>): (r: Outcome<Sentiment>)
    ensures scores == map[] ==> r == Returned(VaderBadData)
  {
    if scores == map[] then Returned(VaderBadData)
    else if "compound" !in scores then Raised("'compound'")
    else if scores["compound"] >= 0.05 then VaderPick(scores, "Positive", "pos")
    else if scores["compound"] <= -0.05 then VaderPick(scores, "Negative", "neg")
    else VaderPick(scores, "Neutral", "neu")
  }

  /** The four scores `polarity_scores` returns. */
  predicate FullScores(scores: map<string, real>) {
    "compound" in scores && "pos" in scores && "neg" in scores && "neu" in scores
  }

  /** On a full dictionary the compound score picks the band, and the band the score. */
  lemma VaderBands(scores: map<string, real>)
    requires FullScores(scores)
    ensures VaderRule(scores).Returned?
    ensures VaderRule(scores).value.labelName == "Positive" <==> scores["compound"] >= 0.05
    ensures VaderRule(scores).value.labelName == "Negative" <==> scores["compound"] <= -0.05
    ensures VaderRule(scores).value.labelName == "Neutral" <==> -0.05 < scores["compound"] < 0.05
    ensures VaderRule(scores).value.score == Value(
      if scores["compound"] >= 0.05 then scores["pos"]
      else if scores["compound"] <= -0.05 then scores["neg"]
      else scores["neu"])
  {
    assert scores != map[] by { assert "compound" in scores; }
  }

  /** The band never falls as the compound score rises. */
  lemma VaderMonotone(s: map<string, real>, t: map<string, real>)
    requires FullScores(s) && FullScores(t) && s["compound"] <= t["compound"]
    ensures Rank(VaderRule(s).value.labelName) <= Rank(VaderRule(t).value.labelName)
  {
    VaderBands(s);
    VaderBands(t);
  }

  /** A dictionary without `compound` raises, unless it is empty. */
  lemma VaderNeedsCompound(scores: map<string, real>)
    requires "compound" !in scores && scores != map[]
    ensures VaderRule(scores) == Raised("'compound'")
  {
  }

  // ---------------------------------------------------------------------------------
  // The handlers

  /** `perform_sentiment_analysis_using_flair` without `return_all`. */
  function FlairPair(predicted: Outcome<FlairSentence>): (r: Sentiment)
    ensures predicted.Raised? ==> r == Error(predicted.error)
  {
    match predicted
    case Raised(e) => Error(e)
    case Returned(s) =>
      if s.tokens == 0 then BadData else Sentiment(s.labelName, Value(Signed(s.labelName, s.score)))
  }

  /** The pair of a sentence with tokens carries its label and its signed score. */
  lemma FlairPairSigned(s: FlairSentence)
    requires s.tokens > 0
    ensures FlairPair(Returned(s)).labelName == s.labelName
    ensures FlairPair(Returned(s)).score == Value(if s.labelName == "POSITIVE" then s.score else -s.score)
  {
  }

  /** `perform_sentiment_analysis_using_flair`. */
  function UsingFlair(text: string, returnAll: bool, flair: string -> Outcome<FlairSentence>): (r: Analysis)
    ensures returnAll && flair(text).Returned? ==> r == Sentence(flair(text).value)
    ensures !(returnAll && flair(text).Returned?) ==> r == Labelled(FlairPair(flair(text)))
  {
    if returnAll && flair(text).Returned? then Sentence(flair(text).value) else Labelled(FlairPair(flair(text)))
  }

  /** `perform_sentiment_analysis_using_distilbert` without `return_all`. */
  function DistilbertPair(results: Outcome<seq<seq<LabelScore>>>): (r: Sentiment)
    ensures results.Raised? ==> r == Error(results.error)
    ensures results.Returned? && |results.value| > 0 && |results.value[0]| > 0 ==>
      var top := results.value[0][0];
      r == Sentiment(top.labelName, Value(Signed(top.labelName, top.score)))
  {
    match results
    case Raised(e) => Error(e)
    case Returned(lists) =>
      if |lists| == 0 then Error(IndexOutOfRange)
      else if |lists[0]| == 0 then BadData
      else Sentiment(lists[0][0].labelName, Value(Signed(lists[0][0].labelName, lists[0][0].score)))
  }

  /** `perform_sentiment_analysis_using_distilbert`: the first list as it is, or its first
      entry as a signed pair. */
  function UsingDistilbert(text: string, returnAll: bool,
                           distilbert: string -> Outcome<seq<seq<LabelScore>>>): (r: Analysis)
    ensures returnAll && distilbert(text).Returned? && |distilbert(text).value| > 0 ==>
      r == Scores(distilbert(text).value[0])
    ensures !(returnAll && distilbert(text).Returned? && |distilbert(text).value| > 0) ==>
      r == Labelled(DistilbertPair(distilbert(text)))
  {
    match distilbert(text)
    case Returned(lists) =>
      if returnAll && |lists| > 0 then Scores(lists[0]) else Labelled(DistilbertPair(distilbert(text)))
    case Raised(_) => Labelled(DistilbertPair(distilbert(text)))
  }

  /** The caught cases of distilbert: its own exception, no list, or an empty first list. */
  lemma DistilbertCases(text: string, returnAll: bool, distilbert: string -> Outcome<seq<seq<LabelScore>>>)
    ensures distilbert(text).Raised? ==>
      UsingDistilbert(text, returnAll, distilbert) == Labelled(Error(distilbert(text).error))
    ensures distilbert(text) == Returned([]) ==>
      UsingDistilbert(text, returnAll, distilbert) == Labelled(Error(IndexOutOfRange))
    ensures distilbert(text).Returned? && |distilbert(text).value| > 0 && distilbert(text).value[0] == [] ==>
      UsingDistilbert(text, returnAll, distilbert) == (if returnAll then Scores([]) else Labelled(BadData))
  {
  }

  /** The first entry of a pipeline's output, or all of it; nothing is caught here. */
  function FirstEntry(results: Outcome<seq<LabelScore>>, returnAll: bool): (r: Outcome<Analysis>)
    ensures results.Returned? && |results.value| > 0 ==>
      r == Returned(if returnAll then Top(results.value[0])
                    else Labelled(Sentiment(results.value[0].labelName, Value(results.value[0].score))))
    ensures results.Raised? || results.value == [] ==> r.Raised?
  {
    match results
    case Raised(e) => Raised(e)
    case Returned(entries) =>
      if entries == [] then Raised(IndexOutOfRange)
      else if returnAll then Returned(Top(entries[0]))
      else Returned(Labelled(Sentiment(entries[0].labelName, Value(entries[0].score))))
  }

  /** `perform_sentiment_analysis_using_sam_lowe` as written, with the lookup of
      `SamLoweClassifierAsWritten`. */
  function UsingSamLowe(text: string, returnAll: bool, cache: map<string, Classifier>, models: Models)
    : (r: Outcome<Analysis>)
    ensures "sam_lowe" !in cache ==> r == FirstEntry(models.classify(Loaded("sam_lowe"), text), returnAll)
    ensures WellFormedCache(cache) && "sam_lowe" in cache && "savani" in cache ==>
      r == FirstEntry(models.classify(Loaded("savani"), text), returnAll)
    ensures "sam_lowe" in cache && "savani" !in cache ==> r == Raised("'savani'")
  {
    match SamLoweClassifierAsWritten(cache)
    case Raised(e) => Raised(e)
    case Returned(c) => FirstEntry(models.classify(c, text), returnAll)
  }

  /** `perform_sentiment_analysis_using_sam_lowe` with the classifier it means to use. */
  function UsingSamLoweIntended(text: string, returnAll: bool, cache: map<string, Classifier>, models: Models)
    : (r: Outcome<Analysis>)
    ensures WellFormedCache(cache) ==> r == FirstEntry(models.classify(Loaded("sam_lowe"), text), returnAll)
  {
    match SamLoweClassifier(cache)
    case Raised(e) => Raised(e)
    case Returned(c) => FirstEntry(models.classify(c, text), returnAll)
  }

  /** What the sam_lowe analysis does for each state of the cache: nothing cached under
      `sam_lowe` gives the intended analysis; with `sam_lowe` and `savani` cached it is the
      savani analysis; with `sam_lowe` alone it raises `KeyError('savani')`. */
  lemma SamLoweByCache(text: string, returnAll: bool, cache: map<string, Classifier>, models: Models)
    requires WellFormedCache(cache)
    ensures "sam_lowe" !in cache ==>
      UsingSamLowe(text, returnAll, cache, models) == UsingSamLoweIntended(text, returnAll, cache, models)
    ensures "sam_lowe" in cache && "savani" in cache ==>
      UsingSamLowe(text, returnAll, cache, models) == UsingSavani(text, returnAll, cache, models)
    ensures "sam_lowe" in cache && "savani" !in cache ==>
      UsingSamLowe(text, returnAll, cache, models) == Raised("'savani'")
  {
  }

  /** `perform_text_classification_using_old_bhadresh_savani`. */
  function UsingSavani(text: string, returnAll: bool, cache: map<string, Classifier>, models: Models)
    : (r: Outcome<Analysis>)
    ensures WellFormedCache(cache) ==> r == FirstEntry(models.classify(Loaded("savani"), text), returnAll)
  {
    FirstEntry(models.classify(CachedOrLoaded(cache, "savani"), text), returnAll)
  }

  /** pandas' error for `sample()` of an empty frame. */
  const EmptySample := "Cannot take a larger sample than population when 'replace=False'"

  /** The first pass over the frame, `apply(savani_classification)`: the classifier's
      output for every row, or the first exception, in row order. */
  function ClassifyRows(c: Classifier, texts: seq<string>, classify: (Classifier, string) -> Outcome<seq<LabelScore>>)
    : (r: Outcome<seq<seq<LabelScore>>>)
    ensures r.Returned? <==> forall k :: 0 <= k < |texts| ==> classify(c, texts[k]).Returned?
    ensures r.Returned? ==> |r.value| == |texts|
    ensures r.Returned? ==> forall k :: 0 <= k < |texts| ==> classify(c, texts[k]) == Returned(r.value[k])
    ensures forall k :: (0 <= k < |texts| && classify(c, texts[k]).Raised? &&
                         (forall j :: 0 <= j < k ==> classify(c, texts[j]).Returned?)) ==>
                        r == Raised(classify(c, texts[k]).error)
  {
    if texts == [] then Returned([])
    else
      assert forall k :: 1 <= k < |texts| ==> texts[1..][k - 1] == texts[k];
      match classify(c, texts[0])
      case Raised(e) => Raised(e)
      case Returned(entries) =>
        var rest := ClassifyRows(c, texts[1..], classify);
        if rest.Raised? then
          Raised(rest.error)
        else
          Returned([entries] + rest.value)
  }

  /** The second pass, `apply(lambda x: x[0])`: the first entry of every output, or the
      index error of the first empty one. */
  function FirstEntries(outputs: seq<seq<LabelScore>>): (r: Outcome<seq<LabelScore>>)
    ensures r.Returned? <==> forall k :: 0 <= k < |outputs| ==> outputs[k] != []
    ensures r.Returned? ==> |r.value| == |outputs|
    ensures r.Returned? ==> forall k :: 0 <= k < |outputs| ==> r.value[k] == outputs[k][0]
    ensures r.Raised? ==> r.error == IndexOutOfRange
  {
    if outputs == [] then Returned([])
    else if outputs[0] == [] then Raised(IndexOutOfRange)
    else
      var rest := FirstEntries(outputs[1..]);
      assert forall k :: 1 <= k < |outputs| ==> outputs[1..][k - 1] == outputs[k];
      if rest.Raised? then rest else Returned([outputs[0][0]] + rest.value)
  }

  /** The two passes: every row is classified before any first entry is taken, so an
      exception of any row's classifier wins over an empty output of an earlier row. */
  function FrameRows(c: Classifier, texts: seq<string>, classify: (Classifier, string) -> Outcome<seq<LabelScore>>)
    : (r: Outcome<seq<LabelScore>>)
    ensures r.Returned? ==> |r.value| == |texts|
    ensures r.Returned? ==> forall k :: 0 <= k < |texts| ==>
      classify(c, texts[k]).Returned? && |classify(c, texts[k]).value| > 0 &&
      r.value[k] == classify(c, texts[k]).value[0]
    ensures r.Raised? ==> exists k :: (0 <= k < |texts| &&
      (classify(c, texts[k]).Raised? || classify(c, texts[k]).value == []))
    ensures forall k :: (0 <= k < |texts| && classify(c, texts[k]).Raised? &&
                         (forall j :: 0 <= j < k ==> classify(c, texts[j]).Returned?)) ==>
                        r == Raised(classify(c, texts[k]).error)
    ensures ((forall k :: 0 <= k < |texts| ==> classify(c, texts[k]).Returned?) &&
             (exists k :: 0 <= k < |texts| && classify(c, texts[k]).value == [])) ==>
            r == Raised(IndexOutOfRange)
  {
    match ClassifyRows(c, texts, classify)
    case Raised(e) =>
      assert exists k :: 0 <= k < |texts| && classify(c, texts[k]).Raised?;
      Raised(e)
    case Returned(outputs) =>
      var r := FirstEntries(outputs);
      assert r.Raised? ==> exists k :: 0 <= k < |outputs| && outputs[k] == [];
      r
  }

  /** A later row's classifier error escapes even when an earlier row gave no entry. */
  lemma LaterErrorWins(c: Classifier, t0: string, t1: string,
                       classify: (Classifier, string) -> Outcome<seq<LabelScore>>)
    requires classify(c, t0) == Returned([])
    requires classify(c, t1).Raised?
    ensures FrameRows(c, [t0, t1], classify) == Raised(classify(c, t1).error)
  {
    assert [t0, t1][0] == t0 && [t0, t1][1] == t1;
  }

  /** `perform_text_classification_using_bhadresh_savani`: one row per text, with the
      classifier's first label and score; the sample printed at the end fails on an empty
      frame. */
  function UsingSavaniFrame(texts: seq<string>, cache: map<string, Classifier>, models: Models): (r: Outcome<Analysis>)
    ensures texts == [] ==> r == Raised(EmptySample)
    ensures r.Returned? ==> r.value.Frame? && |r.value.rows| == |texts|
    ensures r.Returned? ==> forall k :: 0 <= k < |texts| ==>
      models.classify(CachedOrLoaded(cache, "savani"), texts[k]).Returned? &&
      |models.classify(CachedOrLoaded(cache, "savani"), texts[k]).value| > 0 &&
      r.value.rows[k] == models.classify(CachedOrLoaded(cache, "savani"), texts[k]).value[0]
    ensures texts != [] ==> r == (match FrameRows(CachedOrLoaded(cache, "savani"), texts, models.classify)
      case Raised(e) => Raised(e)
      case Returned(rows) => Returned(Frame(rows)))
  {
    match FrameRows(CachedOrLoaded(cache, "savani"), texts, models.classify)
    case Raised(e) => Raised(e)
    case Returned(rows) => if rows == [] then Raised(EmptySample) else Returned(Frame(rows))
  }

  // ---------------------------------------------------------------------------------
  // Every model at once

  /** The five named entries of `perform_sentiment_analysis_all`, or the first exception
      that escapes (VADER's and sam_lowe's are not caught). */
  function AllScores(text: string, cache: map<string, Classifier>, models: Models)
    : (r: Outcome<map<string, Sentiment>>)
    ensures r.Returned? ==> r.value.Keys == {"textblob", "flair", "vader", "roberta", "distilbert"}
    ensures r.Returned? ==> VaderRule(models.vader(text)).Returned? && r.value["vader"] == VaderRule(models.vader(text)).value
    ensures r.Returned? ==> UsingSamLowe(text, false, cache, models).Returned?
    ensures r.Returned? ==> r.value["roberta"] == UsingSamLowe(text, false, cache, models).value.sentiment
  {
    match VaderRule(models.vader(text))
    case Raised(e) => Raised(e)
    case Returned(vader) =>
      match UsingSamLowe(text, false, cache, models)
      case Raised(e) => Raised(e)
      case Returned(roberta) =>
        Returned(map["textblob" := UsingTextBlob(text, models.blob),
                     "flair" := FlairPair(models.flair(text)),
                     "vader" := vader,
                     "roberta" := roberta.sentiment,
                     "distilbert" := DistilbertPair(models.distilbert(text))])
  }

  /** The table has exactly the five models' keys, each with that model's pair. */
  lemma AllKeys(text: string, cache: map<string, Classifier>, models: Models)
    requires AllScores(text, cache, models).Returned?
    ensures AllScores(text, cache, models).value.Keys == {"textblob", "flair", "vader", "roberta", "distilbert"}
    ensures AllScores(text, cache, models).value["textblob"] == UsingTextBlob(text, models.blob)
    ensures AllScores(text, cache, models).value["flair"] == UsingFlair(text, false, models.flair).sentiment
    ensures AllScores(text, cache, models).value["distilbert"] == UsingDistilbert(text, false, models.distilbert).sentiment
  {
  }

  /** The table is missing only when VADER or the emotion classifier raises. */
  lemma AllFailsOnlyUncaught(text: string, cache: map<string, Classifier>, models: Models)
    ensures AllScores(text, cache, models).Raised? <==>
      VaderRule(models.vader(text)).Raised? || UsingSamLowe(text, false, cache, models).Raised?
  {
  }

  /** So with `sam_lowe` cached but not `savani`, no table is produced once VADER has
      scored the text. */
  lemma AllFailsWithoutSavani(text: string, cache: map<string, Classifier>, models: Models)
    requires WellFormedCache(cache) && "sam_lowe" in cache && "savani" !in cache
    requires VaderRule(models.vader(text)).Returned?
    ensures AllScores(text, cache, models) == Raised("'savani'")
  {
    SamLoweByCache(text, false, cache, models);
  }

  /** `perform_sentiment_analysis_all`: the entries added one model at a time. */
  method PerformAll(text: string, cache: map<string, Classifier>, models: Models)
    returns (r: Outcome<map<string, Sentiment>>)
    ensures r == AllScores(text, cache, models)
  {
    var sentimentAndScores: map<string, Sentiment> := map[];
    sentimentAndScores := sentimentAndScores["textblob" := UsingTextBlob(text, models.blob)];
    sentimentAndScores := sentimentAndScores["flair" := FlairPair(models.flair(text))];
    var vader := VaderRule(models.vader(text));
    if vader.Raised? {
      return Raised(vader.error);
    }
    sentimentAndScores := sentimentAndScores["vader" := vader.value];
    var roberta := UsingSamLowe(text, false, cache, models);
    if roberta.Raised? {
      return Raised(roberta.error);
    }
    sentimentAndScores := sentimentAndScores["roberta" := roberta.value.sentiment];
    sentimentAndScores := sentimentAndScores["distilbert" := DistilbertPair(models.distilbert(text))];
    r := Returned(sentimentAndScores);
  }

  // ---------------------------------------------------------------------------------
  // The dispatch

  /** The handler `perform_sentiment_analysis` calls, with the `return_all` it passes. */
  datatype Handler =
    | UseDistilbert(returnAll: bool)
    | UseVader
    | UseSamLowe(returnAll: bool)
    | UseFlair(returnAll: bool)
    | UseSavaniFrame(returnAll: bool)
    | UseSavani(returnAll: bool)
    | UseTextBlob
    | UseAll

  /** `model` has a branch of its own; these are also the names that set `current_model`. */
  predicate Named(model: string) {
    model == "distilbert" || model == "vader" || model == "roberta" || model == "flair"
    || model == "savani" || model == "textblob" || model == "All"
  }

  /** The branch taken for `model`; `isString` is `type(text) == str`. */
  function Dispatch(model: string, returnAll: bool, isString: bool): (h: Handler)
    ensures !Named(model) ==> h == UseFlair(returnAll)
  {
    if model == "distilbert" then UseDistilbert(returnAll)
    else if model == "vader" then UseVader
    else if model == "roberta" then UseSamLowe(true)
    else if model == "flair" then UseFlair(returnAll)
    else if model == "savani" then (if isString then UseSavani(false) else UseSavaniFrame(returnAll))
    else if model == "textblob" then UseTextBlob
    else if model == "All" then UseAll
    else UseFlair(returnAll)
  }

  /** Names are matched exactly: another spelling is an unknown name and gets flair, and
      roberta and the text path of savani ignore the caller's `return_all`. */
  lemma DispatchExact(returnAll: bool, isString: bool)
    ensures Dispatch("all", returnAll, isString) == UseFlair(returnAll)
    ensures Dispatch("Vader", returnAll, isString) == UseFlair(returnAll)
    ensures Dispatch("roberta", returnAll, isString) == UseSamLowe(true)
    ensures isString ==> Dispatch("savani", returnAll, isString) == UseSavani(false)
    ensures Dispatch("", returnAll, isString) == Dispatch("flair", returnAll, isString)
  {
    assert !Named("all");
    assert !Named("Vader");
    assert !Named("");
  }

  /** Only the savani branch looks at the type of the input. */
  lemma OnlySavaniLooksAtType(model: string, returnAll: bool)
    requires model != "savani"
    ensures Dispatch(model, returnAll, true) == Dispatch(model, returnAll, false)
  {
  }

  /** What the handler answers. A DataFrame is only given to the savani frame path. */
  function Analyse(h: Handler, input: Input, cache: map<string, Classifier>, models: Models): Outcome<Analysis>
    requires h.UseSavaniFrame? <==> input.Column?
  {
    match h
    case UseDistilbert(all) => Returned(UsingDistilbert(input.text, all, models.distilbert))
    case UseVader =>
      (match VaderRule(models.vader(input.text))
       case Raised(e) => Raised(e)
       case Returned(s) => Returned(Labelled(s)))
    case UseSamLowe(all) => UsingSamLowe(input.text, all, cache, models)
    case UseFlair(all) => Returned(UsingFlair(input.text, all, models.flair))
    case UseSavaniFrame(_) => UsingSavaniFrame(input.texts, cache, models)
    case UseSavani(all) => UsingSavani(input.text, all, cache, models)
    case UseTextBlob => Returned(Labelled(UsingTextBlob(input.text, models.blob)))
    case UseAll =>
      (match AllScores(input.text, cache, models)
       case Raised(e) => Raised(e)
       case Returned(table) => Returned(PerModel(table)))
  }

  // ---------------------------------------------------------------------------------
  // The current model

  /** `st.session_state['current_model']` after a call for `model`: set when absent,
      then overwritten by every named branch; the fallback leaves it as it was. */
  function NextModel(current: Option<string>, model: string): (r: string)
    ensures Named(model) ==> r == model
    ensures !Named(model) && current.Some? ==> r == current.value
    ensures current.None? ==> r == model
  {
    var kept := if current.None? then model else current.value;
    if Named(model) then model else kept
  }

  /** The current model after a session's calls, in order. */
  function ModelAfter(current: Option<string>, calls: seq<string>): Option<string>
    decreases |calls|
  {
    if calls == [] then current else ModelAfter(Some(NextModel(current, calls[0])), calls[1..])
  }

  /** Once any call names a model, the current model is the last named one asked for. */
  lemma {:induction false} LastNamedWins(current: Option<string>, calls: seq<string>, k: nat)
    requires k < |calls| && Named(calls[k])
    requires forall j :: k < j < |calls| ==> !Named(calls[j])
    ensures ModelAfter(current, calls) == Some(calls[k])
    decreases |calls|
  {
    if k == 0 {
      FallbacksKeep(Some(calls[0]), calls, 1);
    } else {
      LastNamedWins(Some(NextModel(current, calls[0])), calls[1..], k - 1);
    }
  }

  /** Calls for unknown names keep a model that is already set. */
  lemma {:induction false} FallbacksKeep(current: Option<string>, calls: seq<string>, from: nat)
    requires current.Some? && from <= |calls|
    requires forall j :: from <= j < |calls| ==> !Named(calls[j])
    ensures ModelAfter(current, calls[from..]) == current
    decreases |calls| - from
  {
    if from < |calls| {
      assert !Named(calls[from]);
      assert calls[from..][1..] == calls[from + 1..];
      FallbacksKeep(current, calls, from + 1);
    }
  }

  /** If no call names a model, the first name asked for stays the current model. */
  lemma FirstUnknownStays(calls: seq<string>)
    requires calls != []
    requires forall j :: 0 <= j < |calls| ==> !Named(calls[j])
    ensures ModelAfter(None, calls) == Some(calls[0])
  {
    var first := calls[0];
    assert NextModel(None, first) == first;
    assert ModelAfter(None, calls) == ModelAfter(Some(first), calls[1..]);
    FallbacksKeep(Some(first), calls, 1);
  }

  /** The Streamlit session as far as the services use it. */
  class Session {
    var currentModel: Option<string>

    constructor()
      ensures currentModel == None
    {
      currentModel := None;
    }

    /** `perform_sentiment_analysis`. A DataFrame reaches only the savani branch. */
    method PerformSentimentAnalysis(text: Input, returnAll: bool, model: string,
                                    cache: map<string, Classifier>, models: Models)
      returns (r: Outcome<Analysis>)
      requires text.Column? ==> model == "savani"
      modifies this
      ensures currentModel == Some(NextModel(old(currentModel), model))
      ensures r == Analyse(Dispatch(model, returnAll, text.Words?), text, cache, models)
    {
      ghost var h := Dispatch(model, returnAll, text.Words?);
      if currentModel.None? {
        currentModel := Some(model);
      }
      if model == "distilbert" {
        currentModel := Some(model);
        assert h == UseDistilbert(returnAll);
        r := Returned(UsingDistilbert(text.text, returnAll, models.distilbert));
      } else if model == "vader" {
        currentModel := Some(model);
        assert h == UseVader;
        var v := VaderRule(models.vader(text.text));
        if v.Raised? {
          r := Raised(v.error);
        } else {
          r := Returned(Labelled(v.value));
        }
      } else if model == "roberta" {
        currentModel := Some(model);
        assert h == UseSamLowe(true);
        var all := true;
        r := UsingSamLowe(text.text, all, cache, models);
      } else if model == "flair" {
        currentModel := Some(model);
        assert h == UseFlair(returnAll);
        r := Returned(UsingFlair(text.text, returnAll, models.flair));
      } else if model == "savani" {
        currentModel := Some(model);
        if text.Column? {
          r := UsingSavaniFrame(text.texts, cache, models);
        } else {
          r := UsingSavani(text.text, false, cache, models);
        }
      } else if model == "textblob" {
        currentModel := Some(model);
        assert h == UseTextBlob;
        r := Returned(Labelled(UsingTextBlob(text.text, models.blob)));
      } else if model == "All" {
        currentModel := Some(model);
        assert h == UseAll;
        var table := PerformAll(text.text, cache, models);
        if table.Raised? {
          r := Raised(table.error);
        } else {
          r := Returned(PerModel(table.value));
        }
      } else {
        assert !Named(model);
        assert h == UseFlair(returnAll);
        r := Returned(UsingFlair(text.text, returnAll, models.flair));
      }
    }
  }
}
