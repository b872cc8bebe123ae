# FPL toolkit core, modelled in Dafny

This project models the computing core of a Fantasy Premier League toolkit.
Every part of that core works on payloads that have already been fetched. The
four parts are:

- **AI points model** (`ai_models.py`, modelled in `ai_models.dfy`). It builds
  sliding-window training samples from each player's match history. Each
  window is summarised as ten per-field means, with bad values coerced to 0
  and minutes divided by 90. Features are z-scored with a zero-std guard. A
  linear model is fitted by full-batch gradient descent, with L2 on the
  weights only. The model round-trips through its dictionary form. The
  upcoming points are predicted, clamped at 0 and stably sorted, best first.
- **Intent router** (`intent_classifier.py`, modelled in
  `intent_classifier.dfy`). It has a TF-IDF table and per-intent centroids.
  The cosine argmax keeps the first centroid on ties and applies a `>=`
  threshold. A lazily built singleton serves the classifier.
- **Retrieval engine** (`rag_engine.py`, modelled in `rag_engine.dfy`). It
  covers:
  - the knowledge base's document-frequency table;
  - the player and team documents and their selection;
  - the next-fixture search;
  - scored, stable top-k retrieval;
  - the answer with one citation per document;
  - the squad projection;
  - the parser that reads the league-prediction report back.
- **Decision helpers** (`fpl_logic.py`, modelled in `fpl_data.dfy`,
  `fpl_logic.dfy` and `dream_team.dfy`). They cover:
  - the current gameweek and the average fixture difficulty;
  - the heuristic next-gameweek prediction;
  - the differential finder and injury-risk scoring;
  - league manager scoring, where the captain counts twice;
  - the form/fixture quadrants and the blank-player count;
  - the Dream Team optimiser: a greedy cheapest squad, then best-improvement
    swaps under the position limits, the three-per-club rule and the 1000
    budget.

Shared pieces live in their own modules:

- `collections.dfy`: `Option`/`Result`, an insertion-ordered dictionary as a
  list of pairs, sums, filters and Python's prefix slice.
- `sorting.dfy`: Python's stable `sort(reverse=True)`, with its stability
  stated through `Select`.
- `numeric.dfy`: square root and logarithm. They are a parameter that
  satisfies only three facts: `sqrt >= 0`, `sqrt(x) > 0` for `x > 0`, and
  `ln(x) >= 0` for `x >= 1`.
- `text.dfy`: the tokenizer shared by the router and the retrieval engine.
  It also holds the string operations the report parser uses: `splitlines`,
  `strip`, `split`, `join`, `int`, `float` and the quoted-name search.

Python floats are Dafny `real`s. The code is imperative, so loops become
methods with invariants, and each method is proved equal to a specification
function. Lemmas then prove what the source promises about those functions.
The knowledge base, the classifier and the classifier cache are classes,
because the source updates their fields in place.

Two behaviours of the code are kept as written:

- **Non-numeric training target.** `_build_training_samples` converts the
  target with `float(next_match.get('total_points', 0) or 0)` outside any
  `try` (`ai_models.py:124`). So a truthy non-numeric `total_points` of the
  predicted match raises. It is not read as 0. `AiModels.Target` and
  `AiModels.TrainPointsModel` model this as a `Failure`.
- **Chip bullet.** In `generate_answer`, a chip document whose text contains
  a line break but has fewer than two lines makes `splitlines()[1]` raise
  (`rag_engine.py:610`). `Rag.BulletBody` models this as a `Failure`.
  `Rag.ChipTrailingBreak` exhibits it for any one-line text that ends in a
  line break.

## Model

| member | source | states |
|---|---|---|
| `AiModels.PointsValue` | ai_models.py:150-154 | A match's points for the average: None, '' and values `float` rejects count as 0, through the same coercion as the features |
| `AiModels.Target` | ai_models.py:124 | The training target is the next match's coerced `total_points`; a numeric field always converts, a truthy non-numeric one raises |
| `AiModels.FieldColumn` | ai_models.py:136-144 | One value per match in the window, each the field's coerced value (missing, None and '' read as 0; unconvertible values as 0.0) |
| `AiModels.Summary` | ai_models.py:97-108 | The window summary has exactly one entry per feature field: ten |
| `AiModels.CollectColumn` | ai_models.py:136-144 | The per-field loop collects exactly the coerced column of the field |
| `AiModels.TotalPoints` | ai_models.py:150-154 | The points loop sums the coerced `total_points` of the window |
| `AiModels.SummariseWindow` | ai_models.py:131-160 | `_summarise_window` returns the ten field means (minutes divided by 90) and the average points |
| `AiModels.AvgPointsIsFeature` | ai_models.py:135-156 | The returned average points equals feature 1, the `total_points` mean |
| `AiModels.SummaryEmpty` | ai_models.py:145-146 | An empty window gives ten zeros |
| `AiModels.SummaryBetween` | ai_models.py:145-159 | Each feature other than minutes lies between any bounds on its field's coerced values in the window |
| `AiModels.Windows` | ai_models.py:117-122 | A history of length L gives no window when L <= w and exactly L - w windows otherwise |
| `AiModels.AllWindows` | ai_models.py:115-122 | The windows of all players, player by player, number the sum of the per-player counts |
| `AiModels.ConvertibleEvery` | ai_models.py:124 | Sample building succeeds exactly when every window's target converts |
| `AiModels.PlayerSamples` | ai_models.py:116-126 | One player's inner loop succeeds exactly when all its targets convert, and then appends one row and one target per window, in order |
| `AiModels.BuildTrainingSamples` | ai_models.py:111-128 | `_build_training_samples` raises exactly when some target does not convert; otherwise rows and targets correspond to the windows one to one |
| `AiModels.SampleRows` | ai_models.py:123-125 | One feature row per window, each of ten features |
| `AiModels.SampleTargets` | ai_models.py:124-126 | One target per window |
| `AiModels.SamplesOfUnique` | ai_models.py:111-128 | Samples matching the windows are unique: row k is the summary of window k and target k its next match's points |
| `AiModels.Normalised` | ai_models.py:206-213 | The normalised vector has one entry per zipped position: the shortest of the three inputs |
| `AiModels.Normalise` | ai_models.py:206-213 | The `_normalise` loop builds exactly the normalised vector |
| `AiModels.NormalisedInverse` | ai_models.py:209-212 | Where the std is non-zero, the z-score times the std plus the mean gives the value back |
| `AiModels.NormalisedAtMean` | ai_models.py:209-212 | The means themselves normalise to all zeros, whatever the stds |
| `AiModels.DotZero` | ai_models.py:30-31 | The weighted sum over an all-zero vector is 0 |
| `AiModels.LinearOutput` | ai_models.py:29-31 | The prediction loop returns the bias plus the weights' dot product with the vector |
| `AiModels.RegressionModel.Predict` | ai_models.py:27-32 | `predict` is the bias plus the weights times the normalised features |
| `AiModels.RegressionModel.ToDict` | ai_models.py:34-42 | Round trip: rebuilding a model from its `to_dict` gives back the same model |
| `AiModels.OutputAtMean` | ai_models.py:27-32 | A player exactly at the training means is predicted the bias |
| `AiModels.ColumnStd` | ai_models.py:178-179 | Every fitted std is positive: the square root of a positive variance, else 1.0 |
| `AiModels.ConstantColumn` | ai_models.py:176-179 | A constant column has that constant as mean and 1.0 as std |
| `AiModels.ColumnMeans` | ai_models.py:174-177 | One mean per feature |
| `AiModels.ColumnStds` | ai_models.py:174-179 | One std per feature, each positive |
| `AiModels.ColumnStatistics` | ai_models.py:171-179 | The column loop fills `means` and `stds` with the column means and guarded stds |
| `AiModels.NormaliseRows` | ai_models.py:181 | Every training row is normalised with the fitted means and stds |
| `AiModels.Zip` | ai_models.py:190 | Rows and targets pair up to the shorter list |
| `AiModels.GradWClosedForm` | ai_models.py:190-197 | Weight j's gradient is the error moment of feature j plus n times L2 times weight j |
| `AiModels.EpochUpdate` | ai_models.py:199-201 | An epoch moves each weight by rate times its gradient over n, and the bias by rate times the summed error over n |
| `AiModels.PerfectFitEpoch` | ai_models.py:186-201 | On a perfect fit the bias does not move and each weight only decays by its L2 term: L2 never touches the bias |
| `AiModels.PerfectFitWeight` | ai_models.py:197-201 | On a perfect fit weight j becomes w times (1 - rate * n * l2 / n) |
| `AiModels.AccumulateGradient` | ai_models.py:196-197 | The per-row loop adds error times value plus L2 times the weight to each gradient entry |
| `AiModels.Gradients` | ai_models.py:187-197 | The sample loop computes exactly the weight gradients and the bias gradient |
| `AiModels.EpochStep` | ai_models.py:186-201 | One pass of the epoch loop computes exactly one epoch's update |
| `AiModels.DescendWeights` | ai_models.py:200-201 | The weight loop applies `w -= rate * g / n` entry by entry |
| `AiModels.FittedModel` | ai_models.py:167-203 | The fitted model has weights, means and stds of one entry per feature, all stds positive, named LinearRegressor with `samples` = the row count |
| `AiModels.GradientDescentFit` | ai_models.py:167-203 | `_gradient_descent_fit` returns the model of exactly `epochs` epochs of updates from zero weights |
| `AiModels.TrainedModel` | ai_models.py:56-62 | The trained model records its sample count and has ten weights |
| `AiModels.TrainPointsModel` | ai_models.py:45-62 | `train_points_model` succeeds exactly when targets convert and some window exists; with no samples it raises the fixed message; otherwise its dictionary rebuilds the trained model, with `samples` the number of windows |
| `AiModels.Recent` | ai_models.py:80 | `history[-w:]`: the last w matches, or the whole history when w is 0 |
| `AiModels.Predicted` | ai_models.py:80-87 | A player's prediction is the model output on its recent window when that is non-negative and 0.0 otherwise; its average points are those of the window |
| `AiModels.Unranked` | ai_models.py:76-87 | Every history of at least w matches gets a prediction, there are at most as many predictions as histories, and none is negative |
| `AiModels.UnrankedFiltered` | ai_models.py:76-87 | The predictions are exactly the filter-then-map: one per history of at least w matches, in input order, each the prediction of that history |
| `AiModels.PredictUpcomingPoints` | ai_models.py:65-90 | `predict_upcoming_points` returns a permutation of the predictions, non-increasing, non-negative, with equal predictions in input order |
| `Text.Lower` | intent_classifier.py:93 | Lower-casing keeps the length and maps each character |
| `Text.RunLength` | intent_classifier.py:89 | A token is a maximal run of `[A-Za-z0-9']` |
| `Text.Tokenize` | intent_classifier.py:89-93 | Every token is non-empty and made only of a-z, 0-9 and the apostrophe |
| `Text.TokenizeRun` | intent_classifier.py:89-93 | A word of token characters tokenizes to itself, lower-cased |
| `Text.TokenizeStartsWithToken` | intent_classifier.py:89-93 | A text holding a token character has a token |
| `Text.TokenizeNoTokenChars` | intent_classifier.py:89-93 | A text without token characters has no token |
| `Text.TokenizeSeparator` | rag_engine.py:18-22 | Any non-token character splits the text: the tokens of both sides, in text order |
| `Text.CountTokensKeys` | intent_classifier.py:139 | `Counter(tokens)` has exactly the occurring tokens as keys |
| `Text.CountTokensDistinct` | intent_classifier.py:139 | The counter has each token once |
| `Text.CountTokensCounts` | intent_classifier.py:139 | The counter holds each token's number of occurrences |
| `Text.CountTokensPositive` | rag_engine.py:547 | Every count in the counter is positive |
| `Text.RStrip` | rag_engine.py:415 | `rstrip` removes exactly the trailing whitespace |
| `Text.LStrip` | rag_engine.py:434 | `lstrip` removes exactly the leading whitespace |
| `Text.Strip` | rag_engine.py:415 | A line strips to nothing exactly when it is all whitespace |
| `Text.SplitLines` | rag_engine.py:415 | `splitlines` gives lines that hold no line break |
| `Text.SplitFields` | rag_engine.py:437 | `split()` gives non-empty fields without whitespace |
| `Text.SplitFieldsJoin` | rag_engine.py:445 | Splitting words joined by single spaces gives the words back |
| `Text.FindQuoted` | rag_engine.py:421-423 | A match of `'([^']+)'` exists exactly when some quote is followed by a non-empty quote-free text and a closing quote; the group is non-empty and quote-free |
| `Text.FindQuotedFirst` | rag_engine.py:421-423 | `re.search` takes the leftmost match: the group is the slice of the line between the first matching quote and the next quote |
| `Text.ParseInt` | rag_engine.py:441 | `int` reads only text that starts with a digit or a sign |
| `Text.IntStringRoundTrip` | rag_engine.py:441 | Round trip: `int(str(n))` is n |
| `Text.ParseFloat` | rag_engine.py:442 | `float` accepts only text holding a digit; a leading minus gives a value at most 0, anything else a value at least 0 |
| `Text.FloatDigitsRoundTrip` | rag_engine.py:442 | `float` of a digit string is its value |
| `Sorting.SortDesc` | ai_models.py:89 | `sort(reverse=True)` returns a permutation, non-increasing by the key |
| `Sorting.SortDescStable` | ai_models.py:89 | The sort is stable: the items of any one key keep their input order |
| `Sorting.TopK` | rag_engine.py:561-562 | The first k of the sorted list come from the input, and nothing left out has a higher key than the last one kept |
| `Numeric.SqrtOrOne` | intent_classifier.py:140 | `sqrt(x) or 1.0` is positive, and is the root when x is positive |
| `Numeric.Idf` | intent_classifier.py:131 | `log((total + 1) / (df + 1)) + 1` is at least 1 when df <= total |
| `Intents.ChosenExamples` | intent_classifier.py:104 | `intent_examples or _DEFAULT_INTENTS`: the given examples when non-empty, else the defaults |
| `Intents.IntentDocuments` | intent_classifier.py:114-119 | Examples that tokenize to nothing are skipped; every other one becomes a document of its intent |
| `Intents.Documents` | intent_classifier.py:113-119 | Every document has a token, and every example with a token has its document |
| `Intents.DocumentsLabelled` | intent_classifier.py:113-119 | Every document's label is an intent of the examples |
| `Intents.VocabularyCounted` | intent_classifier.py:124-127 | A token is in the vocabulary exactly when some document holds it |
| `Intents.DocFreqBounds` | intent_classifier.py:124-127 | Every document frequency lies between 1 and the number of documents: `set(tokens)` counts a document once |
| `Intents.AddDocument` | intent_classifier.py:126-127 | One document's pass adds 1 to each of its distinct tokens and leaves the rest alone |
| `Intents.CountDocumentFrequencies` | intent_classifier.py:124-127 | The frequency loop builds exactly the document-frequency table |
| `Intents.IdfTable` | intent_classifier.py:129-133 | The idf table has exactly the vocabulary as keys |
| `Intents.IdfAtLeastOne` | intent_classifier.py:129-133 | Every idf value is at least 1 |
| `Intents.WeightedKnown` | intent_classifier.py:141-142 | With every token known, each gets its count times its idf |
| `Intents.WeightedUnknown` | intent_classifier.py:158-161 | A query whose tokens are all unknown has an empty vector |
| `Intents.CentroidKeys` | intent_classifier.py:135-148 | The centroids are exactly the intents with at least one document |
| `Intents.CentroidWeight` | intent_classifier.py:141-148 | A centroid weight is the intent's summed normalised document weights over its document count |
| `Intents.CentroidTerms` | intent_classifier.py:135-148 | Every term of every centroid is in the idf vocabulary |
| `Intents.SumDocument` | intent_classifier.py:139-144 | One document's pass adds its unit tf-idf vector to its intent's running sum and 1 to its count |
| `Intents.SumVectors` | intent_classifier.py:138-144 | The accumulation loop builds the summed vectors and the document counts of every intent |
| `Intents.CosineSimilarity` | intent_classifier.py:183-189 | The numerator loop gives the cosine of the two vectors |
| `Intents.CosineEmpty` | intent_classifier.py:183-189 | An empty query vector has similarity 0 with every centroid |
| `Intents.BestOf` | intent_classifier.py:169-176 | The best score is at least 0 and every similarity; an intent is chosen only with a positive score, and no earlier centroid reaches it (strict `>`, first wins) |
| `Intents.BestCentroid` | intent_classifier.py:169-176 | The argmax loop returns the best score and the intent of the first centroid attaining it |
| `Intents.Classification` | intent_classifier.py:150-180 | The score is non-negative, and an intent is returned only when the score reaches the threshold, and is then a centroid's intent |
| `Intents.UnknownQuery` | intent_classifier.py:151-153 | A query with no known token gets intent None and score 0 |
| `Intents.QueryWeights` | intent_classifier.py:155-164 | The query loop builds the weighted vector and its squared norm |
| `Intents.DivideAll` | intent_classifier.py:165-167 | Dividing in place scales every entry by the norm |
| `Intents.IntentClassifier.constructor` | intent_classifier.py:103-106 | A new classifier keeps the chosen examples with empty tables |
| `Intents.IntentClassifier.Fit` | intent_classifier.py:109-148 | `_fit` raises exactly when no example has a token, leaving the tables as they were; otherwise it fills the idf table and the centroids |
| `Intents.IntentClassifier.Classify` | intent_classifier.py:150-180 | `classify` returns the classification of the text against the fitted tables |
| `Intents.NewClassifier` | intent_classifier.py:103-107 | Construction raises exactly when the chosen examples have no token |
| `Intents.DefaultsHaveDocuments` | intent_classifier.py:104 | The default examples have tokens, so the default classifier always fits |
| `Intents.DefaultClassifier` | intent_classifier.py:198 | The default classifier is fitted on the default examples |
| `Intents.ClassifierCache.constructor` | intent_classifier.py:192 | The cache starts empty |
| `Intents.ClassifierCache.GetIntentClassifier` | intent_classifier.py:195-199 | The first call builds and stores the classifier; later calls return that same instance |
| `Rag.Counter` | rag_engine.py:128 | A document's counter holds exactly its tokens, each at least once |
| `Rag.VocabularyCounted` | rag_engine.py:40-42 | A token is stored exactly when some document holds it |
| `Rag.DocFreqBounds` | rag_engine.py:38-42 | Every stored frequency lies between 1 and `total_docs` |
| `Rag.AddDocument` | rag_engine.py:41-42 | One document's pass adds 1 to each of its tokens and leaves the rest alone |
| `Rag.KnowledgeBase.constructor` | rag_engine.py:35-42 | The knowledge base keeps the documents, the extras (empty when absent), `total_docs` and the frequency table |
| `Rag.FirstInvolving` | rag_engine.py:48-53 | The search answers None exactly when no fixture involves the club |
| `Rag.FindNextFixture` | rag_engine.py:45-53 | `_find_next_fixture` answers from the first club fixture of the upcoming fixtures sorted by event: home and the away side, or away and the home side |
| `Rag.NextFixtureNone` | rag_engine.py:46-53 | (None, None) when no upcoming fixture involves the club |
| `Rag.NextFixtureEarliest` | rag_engine.py:45-53 | The answer comes from an upcoming club fixture with the earliest event |
| `Rag.NextFixtureTies` | rag_engine.py:47-53 | Among fixtures of the earliest event, the first in list order decides |
| `Rag.PlayerDocumentsLoop` | rag_engine.py:79-129 | The player loop makes one document per selected player, in order, and leaves `team_id` as the last player's club |
| `Rag.TeamDocumentsLoop` | rag_engine.py:131-144 | One team document per club, in payload order |
| `Rag.BuildKnowledgeBase` | rag_engine.py:56-175 | `build_knowledge_base` holds the player, team, AI and report documents in order, with the extras it records |
| `Rag.PlayerSelection` | rag_engine.py:69-75 | The players with documents are active, at most `player_limit`, non-increasing in form |
| `Rag.PlayerSelectionFrom` | rag_engine.py:69-75 | The selected players come from the payload |
| `Rag.PlayerSelectionTop` | rag_engine.py:74-75 | No active player left out has better form than the last one kept |
| `Rag.KnowledgeBaseLayout` | rag_engine.py:79-144 | The documents start with the player documents, then one team document per club |
| `Rag.PlayerDocumentAbout` | rag_engine.py:112-128 | A player document carries its player's id, prediction, form and points |
| `Rag.SquadIdIgnored` | rag_engine.py:82 | Once a player document exists the caller's squad id has no effect: `team_id` was rebound |
| `Rag.DocumentScore` | rag_engine.py:551-557 | The inner loop computes the document's TF-IDF score |
| `Rag.Retrieve` | rag_engine.py:539-562 | `retrieve` returns the first `top_k` of the positively scored documents, stably sorted by score |
| `Rag.ScorePositive` | rag_engine.py:552-557 | A score is never negative, and it is positive exactly when the document holds a query token |
| `Rag.RetrievedRelevant` | rag_engine.py:540-562 | Nothing for an empty corpus or a token-less query; otherwise at most `top_k` corpus documents, each with a positive score |
| `Rag.SharesQuery` | rag_engine.py:558-559 | A retrieved document shares a token with the query |
| `Rag.RetrievedOrdered` | rag_engine.py:561 | The retrieved documents come best first |
| `Rag.RetrievedTop` | rag_engine.py:561-562 | A positively scored document that was not retrieved scores no higher than the last one retrieved |
| `Rag.RankedTies` | rag_engine.py:561 | Documents with equal scores keep corpus order |
| `Rag.ComputeTeamProjection` | rag_engine.py:292-345 | `compute_team_projection` gives None when the picks cannot be fetched, else the projection of the picks |
| `Rag.PlaceDetail` | rag_engine.py:334-338 | A detail with multiplier above 0 joins the starters and adds its points to the total, which stays the points of the starters; any other detail joins the bench |
| `Rag.ProjectionPartition` | rag_engine.py:313-338 | Each pick becomes one detail; starters have a multiplier above 0, the bench the rest, both in pick order |
| `Rag.ProjectedSource` | rag_engine.py:317-318 | A pick's prediction is the AI value when present, else the fallback model's, else 0 |
| `Rag.ProjectionWeighted` | rag_engine.py:334-335 | Without AI values, and with captain multiplier 2, the projected total is the league manager score |
| `Rag.HeaderFrom` | rag_engine.py:427-430 | The header search finds the first line starting with 'Rank' that names 'Manager' |
| `Rag.ParseRows` | rag_engine.py:433-450 | At most one row per line |
| `Rag.ParseLeaguePredictions` | rag_engine.py:414-452 | `parse_league_predictions` returns the league name and the rows read from the report |
| `Rag.FindLeagueName` | rag_engine.py:419-424 | The first loop finds the league name |
| `Rag.FindRowLines` | rag_engine.py:426-433 | The second loop finds the lines from two past the header |
| `Rag.ReadRows` | rag_engine.py:433-450 | The third loop keeps a row for every line that reads as one |
| `Rag.LeagueNameFirst` | rag_engine.py:419-424 | The league name is the quoted text of the first title line, whatever follows |
| `Rag.LeagueNameAbsent` | rag_engine.py:419-424 | Without a title line there is no league name |
| `Rag.RowRoundTrip` | rag_engine.py:437-450 | Round trip: a row written as rank, manager words and score reads back as that rank, manager and score |
| `Rag.RuleSkipped` | rag_engine.py:435-436 | A dash rule is not a row |
| `Rag.BulletBody` | rag_engine.py:576-616 | A bullet body fails exactly for a chip text with a line break and fewer than two lines |
| `Rag.Bullet` | rag_engine.py:575-618 | A bullet starts with its number and '. ' |
| `Rag.Bullets` | rag_engine.py:575-622 | One bullet per document |
| `Rag.GenerateAnswer` | rag_engine.py:565-627 | `generate_answer` returns the answer of the documents |
| `Rag.AnswerLines` | rag_engine.py:575-622 | The bullet loop produces exactly the numbered bullets of the documents, raising on the first chip that breaks; when nothing raises, it also cites every document once, in order |
| `Rag.AnswerCitations` | rag_engine.py:565-627 | No documents give the fixed fallback text and no citations; otherwise one citation per document, in order, with its id and title |
| `Rag.BulletsNumbered` | rag_engine.py:575 | Bullet i is document i's bullet, numbered i + 1 |
| `Rag.BulletsFail` | rag_engine.py:609-610 | Answering raises exactly when some chip document breaks after at most one line |
| `Rag.ChipTrailingBreak` | rag_engine.py:610 | A one-line chip text ending in a line break makes `generate_answer` raise |
| `FplLogic.CurrentGameweekFirst` | fpl_logic.py:99-104 | The id of the first current event is the current gameweek |
| `FplLogic.CurrentGameweekNone` | fpl_logic.py:104 | With no current event the gameweek is 0 |
| `FplLogic.GetAvgFdr` | fpl_logic.py:118-133 | The summing loop of `get_avg_fdr` returns the average fixture difficulty |
| `FplLogic.AvgFdrNeutral` | fpl_logic.py:124-125 | A club without an upcoming fixture gets 3.0 |
| `FplLogic.AvgFdrBounds` | fpl_logic.py:127-133 | The average lies between any bounds on the team-side difficulties of the first `num_games` fixtures |
| `FplLogic.LastFixtureWins` | fpl_logic.py:176-178 | The last next-gameweek fixture involving a club decides its opponent and venue |
| `FplLogic.AssignKeys` | fpl_logic.py:174-178 | A club has an opponent exactly when some next-gameweek fixture involves it |
| `FplLogic.AvailablePlayersSound` | fpl_logic.py:180 | `all_players` has distinct ids, each an available player of the payload under its own id |
| `FplLogic.PredictionOf` | fpl_logic.py:184-194 | A player's score is defined exactly when its club and the opponent are in the strength map and it has a fixture, and is never negative |
| `FplLogic.PredictionsFrom` | fpl_logic.py:183-194 | Every prediction is at least 0 |
| `FplLogic.PredictPlayer` | fpl_logic.py:184-194 | One pass of the loop adds the player's score or skips it |
| `FplLogic.GetPredictions` | fpl_logic.py:159-195 | `get_predictions` returns the heuristic predictions |
| `FplLogic.PredictionsFromKeys` | fpl_logic.py:183-194 | An id is predicted exactly when its player's score is defined |
| `FplLogic.PredictionsSound` | fpl_logic.py:174-192 | Predicted ids are available players whose club plays in the next gameweek, and every value is at least 0 |
| `FplLogic.DifferentialHunter` | fpl_logic.py:273-310 | An unknown sort key gives the 'Invalid sort key' record; otherwise the first 20 differentials (players under 5% ownership; all of them when fewer), taken from the input without repeats beyond its own, best first by the key |
| `FplLogic.DifferentialsTopK` | fpl_logic.py:283-295 | No differential left out ranks above the last one listed |
| `FplLogic.RiskScore` | fpl_logic.py:855-876 | The risk is 4 for doubtful plus 2 for worrying news plus 3 for a reduced chance: between 0 and 9, positive exactly when a check fires |
| `FplLogic.RiskScoreDecodes` | fpl_logic.py:855-876 | The score tells which checks fired |
| `FplLogic.CalculateRisk` | fpl_logic.py:853-877 | `calculate_risk` returns the score and the set of reasons of the checks that fired |
| `FplLogic.AtRisk` | fpl_logic.py:879-889 | Only players with a positive score are listed |
| `FplLogic.AtRiskComplete` | fpl_logic.py:879-889 | Every player with a positive score is listed |
| `FplLogic.TopRisks` | fpl_logic.py:891-895 | The first 25 at-risk rows (all of them when fewer), taken from the input, non-increasing in score |
| `FplLogic.TopRisksTopK` | fpl_logic.py:891-895 | No at-risk row left out scores higher than the last row listed |
| `FplLogic.RiskRowFor` | fpl_logic.py:880-889 | A row carries the player's name, club, news, score and reasons |
| `FplLogic.InjuryRiskRanking` | fpl_logic.py:879-895 | The loop and the sort give `TopRisks` of the at-risk rows in player order: the 25 highest scores |
| `FplLogic.PredictManagerScore` | fpl_logic.py:743-753 | The scoring loop returns the manager score |
| `FplLogic.CaptainCountedTwice` | fpl_logic.py:743-753 | With no player picked twice, each starter counts once and the captain twice when starting |
| `FplLogic.NoCaptainTotal` | fpl_logic.py:748-749 | Without a captain the score is the starters' total |
| `FplLogic.ManagerScores` | fpl_logic.py:733-758 | At most one score per manager: a manager whose picks cannot be fetched adds none |
| `FplLogic.LeaguePredictions` | fpl_logic.py:717-761 | The placeholder league id gives the configuration error; otherwise the first 15 managers' scores, stably sorted best first |
| `FplLogic.AnalyseQuadrants` | fpl_logic.py:805-839 | The categorising loop builds the quadrant partition |
| `FplLogic.ClassifiedAll` | fpl_logic.py:828-839 | No player is lost or added by the partition |
| `FplLogic.ClassifiedPlaced` | fpl_logic.py:832-839 | Each list holds only players of its quadrant |
| `FplLogic.ClassifiedHas` | fpl_logic.py:828-839 | Every player is in the list of its own quadrant |
| `FplLogic.QuadrantsNonEmpty` | fpl_logic.py:815-839 | Some player has at least the mean form and some at most the mean difficulty |
| `FplLogic.TopOfQuadrant` | fpl_logic.py:844-845 | Five players shown per quadrant (all of them when fewer), best form first, taken from that quadrant |
| `FplLogic.TopOfQuadrantTopK` | fpl_logic.py:844-845 | No player of the quadrant left out has better form than the last one shown |
| `FplLogic.FixtureTeamsMembers` | fpl_logic.py:610-614 | A club has a fixture exactly when an upcoming fixture involves it |
| `FplLogic.CountBlankPlayers` | fpl_logic.py:609-621 | `_count_blank_players` counts the players whose club has no upcoming fixture |
| `FplLogic.BlanksBounds` | fpl_logic.py:616-621 | No more blanks than players, and none exactly when every player's club has a fixture |
| `DreamTeam.PoolSound` | fpl_logic.py:418 | The pool has distinct ids and holds available players of the payload |
| `DreamTeam.ByPrice` | fpl_logic.py:428 | The price order is a permutation of the pool |
| `DreamTeam.ByPriceAscending` | fpl_logic.py:428 | The greedy pass meets the players cheapest first |
| `DreamTeam.GreedyValid` | fpl_logic.py:421-437 | The greedy squad has at most 15 distinct pool players within the position limits and at most 3 per club |
| `DreamTeam.GreedyFull` | fpl_logic.py:436-437 | Once the squad has 15 players the rest of the list adds nothing |
| `DreamTeam.CountsEmpty` | fpl_logic.py:425-426 | The zeroed counters fit the empty squad |
| `DreamTeam.RoomFromCounts` | fpl_logic.py:432 | The counter test is the room test of the squad |
| `DreamTeam.ConsiderPlayer` | fpl_logic.py:430-435 | A player joins when its position and club have room, and the counters follow |
| `DreamTeam.InitialSquad` | fpl_logic.py:424-437 | The greedy loop builds the greedy squad and matching counters |
| `DreamTeam.ScanReplacements` | fpl_logic.py:457-465 | The inner loop keeps the best eligible swap so far, beating every candidate scanned |
| `DreamTeam.FindBestSwap` | fpl_logic.py:441-465 | The swap search returns a best swap with positive gain, or None exactly when no eligible swap gains |
| `DreamTeam.RemoveFirstAt` | fpl_logic.py:472 | `remove` drops exactly the squad player with the id |
| `DreamTeam.SwapValid` | fpl_logic.py:467-477 | A swap keeps a valid squad of the same size and position counts, with club counts moved by one |
| `DreamTeam.SwapGains` | fpl_logic.py:446-477 | A swap raises the score by its gain, keeps the cost within the budget and strictly raises the rank measure |
| `DreamTeam.CountsAfterSwap` | fpl_logic.py:476-477 | The club counters follow the swap |
| `DreamTeam.ImproveSquad` | fpl_logic.py:440-480 | The swap loop ends with a valid squad with no improving swap, of the initial size and position counts, scoring at least as much |
| `DreamTeam.DreamTeamOptimizer` | fpl_logic.py:411-498 | The final squad is valid, admits no improving swap, scores at least the greedy squad and is within budget once swapped; it is shown by position with its total score and cost |

## Left out

- I/O: the HTTP fetchers, the file cache with its wall-clock expiry,
  `load_or_create_config`, `time.sleep`, the menu loop and every printed
  report. The fetched payloads are parameters. A fetch that fails is an
  `Option` parameter: `picksOf` in `FplLogic.LeaguePredictions`, `picks` in
  `Rag.ComputeTeamProjection`.
- `fpl_gui.py`, `backend.py` and `scripts/`. These are user interface,
  request handling and HTTP clients, and they are not part of this model.
- Text formatting: f-string widths, `:.2f` and the payload's own numeric
  strings. These are the `Rag.Render` parameter. The report-based documents
  (`_build_transfer_doc`, `_build_team_projection_doc`, `_build_chip_doc`,
  `_build_head_to_head_doc`, `_build_current_league_doc`) fetch data. Their
  results are the `Rag.Reports` parameter.
- `compute_ai_predictions` and `_build_ai_prediction_docs` loop over per-player
  fetches. Their result is the `Rag.AiBundle` parameter.
- Floating point: reals are exact. IEEE rounding is not modelled. Square
  root and logarithm satisfy only the three facts stated in `numeric.dfy`.
  So no exact idf, norm or cosine value is claimed.
- AiModels.GradientDescentFit: states the exact update rule and epoch count.
  It does not claim convergence, or that normalised features have mean near
  0 and standard deviation near 1.
- Payload conversions: `float(p['form'])`, `float(p['ict_index'])` and
  `float(p['selected_by_percent'])` are assumed to succeed. The fields are
  numbers in `fpl_data.dfy`. So the `ValueError` branch of `get_predictions`
  and the exception in `get_differential_hunter_data` are not modelled.
- DreamTeam.DreamTeamOptimizer: requires every available player's position
  to be in 1..4 and its club in 1..20. Outside these ranges the source's
  `pos_counts` and `team_counts` lookups raise `KeyError`.
- DreamTeam.ImproveSquad: the budget is promised only once a swap happened.
  The greedy squad itself may cost more, and the source does not check it.
- FplLogic.CalculateRisk: the reasons are returned as a set, as
  `list(set(reasons))` leaves their order unspecified. The `", "`-joined
  text is not modelled.
- FplLogic.TopRisks: states the count, the contents, the order and the top-25
  property, not stability. Python's `sorted` is stable, and
  `Sorting.SortDescStable` proves that for the sort used.
- Text.ParseInt: reads an optional sign and ASCII decimal digits only. Python's
  `int()` also accepts `_` between digits (`1_000`) and non-ASCII decimal
  digits; the model gives None for those, so `Rag.ParseRows` skips such a
  report line where the source reads it.
- Text.ParseFloat: reads finite decimal notation with ASCII digits only.
  Python's `float()` also accepts `inf`, `infinity` and `nan` in any case,
  `_` between digits and non-ASCII digits. The model gives None for those:
  `Rag.ParseRows` skips a line such as `3 Bob inf`, `AiModels.Target`
  fails on a `total_points` of `"nan"` where the source carries on, and
  `AiModels.Coerce` reads such a feature text as 0.0 where the source keeps
  the infinity or NaN.
- Text.Lower: folds ASCII letters only. On tokens (`[A-Za-z0-9']`) this is
  exact, but news text can hold other letters that `str.lower` folds, such as
  the Kelvin sign U+212A to `k`, so `FplLogic.NewsFlagged` can miss a keyword
  that the source finds.
- The players' `player_map`/`team_map`/`position_map` builders, the team
  summary, captain tracker, transfer suggester, captaincy suggester and
  top-20 predicted table are reports outside this core.
