# nbsa: a verified model of a multinomial Naive Bayes sentiment classifier

nbsa trains a Naive Bayes text classifier on labelled rows `(text, label)`
and measures its accuracy on a second labelled set.

- **Training** (`nbsa/train.py`):
  - For each distinct label, in order of first appearance, it joins the
    texts of that label with single spaces, tokenizes the result and counts
    the tokens. This gives the likelihood table `label -> token -> count`.
  - It also gives each label the share of rows that carry it. This is the
    prior table.
- **Classification** (`calculate_class_probability`):
  - It walks the likelihood table in insertion order.
  - Each class gets the score `prior × Π (count(token) + 1)` over the
    statement's tokens (Laplace-smoothed and never normalised).
  - It returns the first label whose score is largest.
- **Evaluation** (`nbsa/test.py`) classifies every test row with the same
  tables. It returns the number of exact label matches divided by the
  number of rows.

The project has four modules:

- `Sums` (`sums.dfy`): sums of the values of a string-keyed map. These are
  the total of a frequency table and the total of a prior table.
- `Train` (`train.dfy`): the data model, the two estimators, scoring and
  the arg-max.
  - Each estimator and the classifier is a `method` with the loop of the
    source.
  - Each method is proved equal to a specification function
    (`LikelihoodTable`, `PriorTable`, `Score`, `MaxKey`, `Predict`).
  - Lemmas state the properties of those functions.
- `Evaluate` (`evaluate.dfy`): the accuracy loop `TestNaiveBayesModel`. It
  is proved equal to the function `Accuracy`, with lemmas on the count of
  correct rows.
- `Scenarios` (`scenarios.dfy`): two worked examples, proved as lemmas.
  - A two-class tie resolves to the first class.
  - Training on "I love cats"/pos and "I hate cats"/neg classifies
    "I love cats" as pos.

Representation:

- A row is `Row(text, classLabel)` and a data frame is a `seq<Row>`.
- A Python dict whose iteration order matters is a `Table`: a
  duplicate-free `keys` sequence (the insertion order) plus a `map`. The
  likelihood table and the table of class scores are `Table`s.
- The prior table is only ever looked up by key, so it is a plain `map`.
- Scores and priors are exact `real`s and counts are `nat`s.
- The tokenizer is a parameter `tokenize: string -> seq<string>`. Nothing
  about its behaviour is assumed, except in the two-row example of
  `Scenarios`, whose lemmas require what it returns on their two sentences.
- The failures the source raises become the error half of a `Result`:
  - classification (`Train.Error`): `MissingPrior(c)` is the `KeyError` of
    `priors[class_label]`, and `NoClasses` is the `ValueError` of `max` over
    an empty dict;
  - evaluation (`Evaluate.EvalError`): `PredictionFailed(e)` is a
    classification error that propagates out of the loop, and
    `EmptyTestSet` is the `ZeroDivisionError` of `correct / len(test_data)`.
- All tables are immutable values. The evaluation therefore classifies
  every row with the very tables it was given.

Behaviours of the code worth spelling out:

- An empty training set does not fail: the division in
  `calculate_prior_probabilities` sits in a loop that never runs, so both
  tables are empty (`nbsa/train.py:56-61`).
- The classifier iterates the likelihood table, not the prior table
  (`nbsa/train.py:94`).
  - The tie-break order is therefore that of the likelihoods, i.e. the
    first appearance of the label in the training data.
  - A class without a prior fails with `KeyError` (`nbsa/train.py:95`).
  - The "no classes" failure comes from empty likelihoods (`nbsa/train.py:101`).
- The texts of a class are joined in row order (`nbsa/train.py:41`). The
  tokenizer is not assumed to commute with concatenation, so the order is
  kept.

## Model

| member | source | states |
|---|---|---|
| Train.FilterDataByLabel | nbsa/train.py:13-24 | a row is in the result iff it is in the data and carries the label; the result holds as many rows as the label occurs in the label column |
| Train.Table.Insert | nbsa/train.py:100 | `d[k] = v`: afterwards k maps to v and every other key keeps its value; a new key is appended to the iteration order, an existing key keeps its place, and the earlier keys keep their order |
| Train.FilterDataByLabelKeepsOrder | nbsa/train.py:24 | filtering a concatenation is the concatenation of the filtered parts, so the rows keep their original order |
| Train.Unique | nbsa/train.py:39 | `unique()` has no duplicates and holds exactly the values of the column |
| Train.UniqueKeepsFirstAppearanceOrder | nbsa/train.py:39 | the distinct labels come out in the order of their first appearance in the data |
| Train.Counter | nbsa/train.py:43 | the keys of `Counter(tokens)` are exactly the tokens; each count is the token's multiplicity and at least 1 |
| Train.CounterTotal | nbsa/train.py:43 | the counts of a frequency table add up to the number of tokens counted |
| Train.JoinKeepsEnds | nbsa/train.py:41 | `' '.join` of no parts is the empty string; otherwise the result starts with the first part and ends with the last |
| Train.JoinLength | nbsa/train.py:41 | the joined string is as long as all parts together plus one separator between each two neighbouring parts |
| Train.JoinExamples | nbsa/train.py:41 | `' '.join` gives "" on no texts, " " on two empty texts and "a b c" on "a", "b", "c", as Python does |
| Train.LikelihoodTable | nbsa/train.py:38-44 | the keys are the distinct labels in first-appearance order, with no extra class; each entry counts the tokens of the class's texts joined by spaces |
| Train.ClassCountsSumToTokenCount | nbsa/train.py:41-43 | the counts of a class sum to the length of the token sequence of its joined text |
| Train.CalculateFeatureLikelihoods | nbsa/train.py:28-44 | the loop that inserts one frequency table per distinct label builds exactly LikelihoodTable |
| Train.ClassCountBounds | nbsa/train.py:59-60 | a label of the data is carried by between 1 and all of the rows |
| Train.PriorTable | nbsa/train.py:56-61 | the prior keys are exactly the labels; each prior is (rows with the label)/(all rows) and lies in (0, 1] |
| Train.CalculatePriorProbabilities | nbsa/train.py:46-61 | the loop builds exactly PriorTable; an empty data set gives the empty map |
| Train.PriorsSumToOne | nbsa/train.py:56-61 | the priors of a non-empty training set sum to exactly 1 |
| Train.TrainNaiveBayesModel | nbsa/train.py:63-76 | training returns both tables of the same rows, and their key sets are equal |
| Train.CountOfCounter | nbsa/train.py:99 | `class_likelihoods.get(token, 0)` on a table built by `Counter` is the token's multiplicity, and 0 for a token never counted |
| Train.Factor | nbsa/train.py:99 | the smoothed factor of a token is at least 1, and exactly 1 for a token the class never saw |
| Train.ScoreClass | nbsa/train.py:95-99 | the running product, started at the prior and multiplied by each token's factor, ends at Score |
| Train.ScoreScales | nbsa/train.py:95-99 | the prior only scales `Score`: a class's score is its prior times the score of the same tokens from 1 |
| Train.UnitScoreIsProduct | nbsa/train.py:96-99 | started from 1, the running product `Score` is exactly the integer product of the smoothed factors |
| Train.ScoreIsPriorTimesProduct | nbsa/train.py:95-99 | a class's score is its prior times the integer product of all the statement's smoothed factors |
| Train.ScoreAtLeastPrior | nbsa/train.py:95-99 | since every factor is at least 1, no score falls below its (non-negative) prior |
| Train.UnseenTokensAreNeutral | nbsa/train.py:99 | a statement of tokens the class never saw has product 1 and scores exactly the prior |
| Train.TokenProductPermutation | nbsa/train.py:96-99 | the product of factors depends only on the multiset of tokens |
| Train.ScoreIgnoresTokenOrder | nbsa/train.py:96-99 | reordering the statement's tokens does not change any class score |
| Train.FirstMax | nbsa/train.py:101 | the strict-`>` scan returns an index of the scores (its maximality is the next row) |
| Train.FirstMaxIsFirstMaximum | nbsa/train.py:101 | the strict-`>` scan returns a maximal index, and every earlier score is strictly smaller |
| Train.FirstMaxStep | nbsa/train.py:101 | one more score moves the best index to it only when that score is strictly larger than the best so far |
| Train.MaxKey | nbsa/train.py:101 | `max(d, key=d.get)` fails with NoClasses exactly on an empty dict and otherwise returns one of its keys |
| Train.MaxByValue | nbsa/train.py:101 | the scan with a running best label and strict `>` returns the first key of largest score; an empty dict fails with NoClasses |
| Train.FirstMissingPrior | nbsa/train.py:94-95 | all classes before the returned index have a prior and the class at it has none |
| Train.Scores | nbsa/train.py:94-100 | the score table's values are, in the likelihoods' order, the score of each class |
| Train.Predict | nbsa/train.py:92-101 | a successful prediction is a class of the likelihoods that has a prior |
| Train.CalculateClassProbability | nbsa/train.py:80-101 | scoring every class in iteration order and taking the arg-max returns exactly Predict, including both failures |
| Train.PredictNamesFirstMissingPrior | nbsa/train.py:94-95 | the first class without a prior makes the prediction fail with that class named |
| Train.PredictOfPricedClasses | nbsa/train.py:94-101 | when every class has a prior, the prediction is the arg-max of the filled score table |
| Train.PredictFailsOnlyOnTables | nbsa/train.py:94-101 | NoClasses iff the likelihoods are empty; a missing prior names the first unpriced class; success iff there are classes and all have priors |
| Train.PredictIsFirstMaximum | nbsa/train.py:94-101 | the predicted class scores at least as high as every class and strictly higher than every class before it |
| Train.TiesGoToEarlierClass | nbsa/train.py:101 | of two classes with equal scores, the later one in iteration order is never predicted |
| Train.PredictErrorIgnoresStatement | nbsa/train.py:94-101 | whether classification fails, and with which error, does not depend on the statement |
| Train.PricedTablesClassify | nbsa/train.py:94-101 | with a prior for every class, the only failure is NoClasses on empty likelihoods |
| Train.TrainedClassesArePriced | nbsa/train.py:74-75 | every trained class has a prior, and there is a class iff the training set is non-empty |
| Train.TrainedTablesClassify | nbsa/train.py:74-75 | trained tables classify every statement iff the training set was non-empty; otherwise the failure is NoClasses |
| Evaluate.Correct | nbsa/test.py:22-23 | a row counts as correct only if its label is a class of the likelihoods with a prior |
| Evaluate.CorrectCount | nbsa/test.py:20-24 | the number of correctly classified rows is at most the number of rows |
| Evaluate.Accuracy | nbsa/test.py:6-26 | the result fails with EmptyTestSet iff the test set is empty; a successful accuracy lies in [0, 1] |
| Evaluate.TestNaiveBayesModel | nbsa/test.py:6-26 | the counting loop followed by the division returns exactly Accuracy |
| Evaluate.CorrectCountStep | nbsa/test.py:23-24 | each row adds 1 to the count exactly when it is predicted as its own label, and 0 otherwise |
| Evaluate.AccuracyFailsWithAnyRow | nbsa/test.py:20-22 | if any row cannot be classified, the evaluation fails with that row's error |
| Evaluate.AccuracyIsShareOfCorrect | nbsa/test.py:25 | when the tables classify, the accuracy is the correct count over the number of rows |
| Evaluate.AllCorrectCount | nbsa/test.py:20-24 | if every row is predicted correctly, the count equals the number of rows |
| Evaluate.NoneCorrectCount | nbsa/test.py:20-24 | if no row is predicted correctly, the count is 0 |
| Evaluate.PerfectAccuracy | nbsa/test.py:23-25 | all rows correct gives accuracy exactly 1 |
| Evaluate.ZeroAccuracy | nbsa/test.py:23-25 | tables that classify but never hit the label give accuracy exactly 0 |
| Evaluate.TrainedModelEvaluates | nbsa/test.py:18-25 | a model trained on non-empty data evaluates any non-empty test set without error |
| Scenarios.TieGoesToFirstClass | nbsa/train.py:101 | classes A and B with prior 0.5 and empty tables tie on the empty statement, and A is returned |
| Scenarios.FirstOfTwoWins | nbsa/train.py:101 | of two priced classes, the first is predicted unless the second scores strictly higher |
| Scenarios.CatLikelihoods | nbsa/train.py:38-44 | training on the two example rows gives classes pos, neg in that order, with the counts of their own sentence |
| Scenarios.CatPriors | nbsa/train.py:56-61 | each of the two example classes has prior 1/2 |
| Scenarios.PosScore | nbsa/train.py:95-99 | "I love cats" scores 0.5·2·2·2 = 4 for pos |
| Scenarios.NegScore | nbsa/train.py:95-99 | "I love cats" scores 0.5·2·1·2 = 2 for neg, since "love" is unseen there |
| Scenarios.LoveCatsIsPositive | nbsa/train.py:38-101 | trained on "I love cats"/pos and "I hate cats"/neg, the classifier labels "I love cats" pos |

## Left out

- Tokenizer setup (`nbsa/train.py:7-10`): `nltk.data.find` / `nltk.download` is disk and network I/O.
- `word_tokenize` (`nbsa/train.py:2,42,92`) is a foreign library function. It is a parameter of type `string -> seq<string>`, and no property of it is assumed. The two-row example states as preconditions what it returns on their two sentences.
- `load_data` / `pd.read_csv` (`nbsa/data_utils.py:13`, called at `nbsa/train.py:73` and `nbsa/test.py:19`) is CSV file I/O. Data frames are sequences of rows that are already loaded, and `train_naive_bayes_model` and `test_naive_bayes_model` take those rows instead of file names.
- `test_nbsa.py` is a driver script that only wires file paths together and prints. `nbsa/data_utils.py` is not part of this model.
- FirstMax: its own contract only bounds the index; that the index is a maximum, and the first one, is the lemma FirstMaxIsFirstMaximum, kept apart because a quantified contract on the function slows every proof that unfolds the scan.
- Floating point:
  - priors, scores and accuracy are exact reals;
  - the model does not capture IEEE rounding, overflow of long products to `inf`, underflow, or two scores that are unequal in exact arithmetic but become equal, and so tie, after rounding.
- pandas mechanics:
  - a column comparison is exact string equality on the row's label;
  - missing values (`NaN` labels or texts) and non-string cells are not modelled.
- The order of the keys inside one class's frequency table (`dict(Counter(tokens))`) is not modelled: that table is only ever looked up by key.
- The prior table is a `map` without iteration order: the source only looks priors up by key.
