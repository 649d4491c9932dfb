/** Evaluation of a trained model on a labelled test set (nbsa/test.py):
    classify every row's text and report the share of rows whose predicted
    label equals the row's own label. */
module Evaluate {
  import opened Train

  /** The failures of the evaluation: a row's classification raised, or the
      final division had no rows to divide by (`ZeroDivisionError`). */
  datatype EvalError =
    | PredictionFailed(cause: Error)
    | EmptyTestSet

  /** The row is classified and the prediction equals its label. */
  predicate Correct(row: Row, likelihoods: Table<map<string, nat>>,
                    priors: map<string, real>, tokenize: Tokenizer)
    requires likelihoods.Valid()
    ensures Correct(row, likelihoods, priors, tokenize) ==>
              row.classLabel in likelihoods.entries && row.classLabel in priors
  {
    Predict(tokenize(row.text), likelihoods, priors) == Ok(row.classLabel)
  }

  /** Number of correctly classified rows. */
  function CorrectCount(testData: seq<Row>, likelihoods: Table<map<string, nat>>,
                        priors: map<string, real>, tokenize: Tokenizer): (n: nat)
    requires likelihoods.Valid()
    ensures n <= |testData|
  {
    if |testData| == 0 then 0
    else
      var last := testData[|testData| - 1];
      CorrectCount(testData[..|testData| - 1], likelihoods, priors, tokenize)
        + (if Correct(last, likelihoods, priors, tokenize) then 1 else 0)
  }

  /** What `test_naive_bayes_model` returns: the error of the first row when
      the tables cannot classify, the division by an empty test set, or the
      accuracy. */
  function Accuracy(testData: seq<Row>, likelihoods: Table<map<string, nat>>,
                    priors: map<string, real>, tokenize: Tokenizer): (r: Result<real, EvalError>)
    requires likelihoods.Valid()
    ensures |testData| == 0 <==> r == Err(EmptyTestSet)
    ensures r.Ok? ==> 0.0 <= r.value <= 1.0
  {
    if |testData| == 0 then Err(EmptyTestSet)
    else
      match Predict(tokenize(testData[0].text), likelihoods, priors)
      case Err(e) => Err(PredictionFailed(e))
      case Ok(_) =>
        var n := CorrectCount(testData, likelihoods, priors, tokenize);
        RatioBounds(n, |testData|);
        Ok(n as real / |testData| as real)
  }

  lemma RatioBounds(n: nat, d: nat)
    requires 0 < d && n <= d
    ensures 0.0 <= n as real / d as real <= 1.0
    ensures n == 0 ==> n as real / d as real == 0.0
  {
  }

  /** `test_naive_bayes_model` on already loaded rows: classify each row with
      the same tables, count the hits, divide by the number of rows. */
  method TestNaiveBayesModel(testData: seq<Row>, labelFeatures: Table<map<string, nat>>,
                             priorProbabilities: map<string, real>, tokenize: Tokenizer)
    returns (accuracy: Result<real, EvalError>)
    requires labelFeatures.Valid()
    ensures accuracy == Accuracy(testData, labelFeatures, priorProbabilities, tokenize)
  {
    var correctPredictions := 0;
    for i := 0 to |testData|
      invariant correctPredictions == CorrectCount(testData[..i], labelFeatures, priorProbabilities, tokenize)
      invariant i > 0 ==> Predict(tokenize(testData[0].text), labelFeatures, priorProbabilities).Ok?
    {
      var row := testData[i];
      var predictedLabel := CalculateClassProbability(row.text, labelFeatures, priorProbabilities, tokenize);
      if predictedLabel.Err? {
        AccuracyFailsWithAnyRow(testData, labelFeatures, priorProbabilities, tokenize, i);
        return Err(PredictionFailed(predictedLabel.error));
      }
      CorrectCountStep(testData, labelFeatures, priorProbabilities, tokenize, i);
      assert Correct(row, labelFeatures, priorProbabilities, tokenize) <==> predictedLabel.value == row.classLabel;
      if predictedLabel.value == row.classLabel {
        correctPredictions := correctPredictions + 1;
      }
    }
    if |testData| == 0 {
      return Err(EmptyTestSet);
    }
    assert testData[..|testData|] == testData;
    AccuracyIsShareOfCorrect(testData, labelFeatures, priorProbabilities, tokenize);
    accuracy := Ok(correctPredictions as real / |testData| as real);
  }

  /** The evaluation fails as soon as one row cannot be classified, and with
      that row's error: the error does not depend on the statement. */
  lemma AccuracyFailsWithAnyRow(testData: seq<Row>, likelihoods: Table<map<string, nat>>,
                                priors: map<string, real>, tokenize: Tokenizer, i: nat)
    requires likelihoods.Valid() && i < |testData|
    requires Predict(tokenize(testData[i].text), likelihoods, priors).Err?
    ensures Accuracy(testData, likelihoods, priors, tokenize)
         == Err(PredictionFailed(Predict(tokenize(testData[i].text), likelihoods, priors).error))
  {
    PredictErrorIgnoresStatement(tokenize(testData[i].text), tokenize(testData[0].text), likelihoods, priors);
  }

  /** When the tables classify, the accuracy is the share of correct rows. */
  lemma AccuracyIsShareOfCorrect(testData: seq<Row>, likelihoods: Table<map<string, nat>>,
                                 priors: map<string, real>, tokenize: Tokenizer)
    requires likelihoods.Valid() && |testData| > 0
    requires Predict(tokenize(testData[0].text), likelihoods, priors).Ok?
    ensures Accuracy(testData, likelihoods, priors, tokenize)
         == Ok(CorrectCount(testData, likelihoods, priors, tokenize) as real / |testData| as real)
  {
  }

  lemma CorrectCountStep(testData: seq<Row>, likelihoods: Table<map<string, nat>>,
                          priors: map<string, real>, tokenize: Tokenizer, i: nat)
    requires likelihoods.Valid() && i < |testData|
    ensures CorrectCount(testData[..i + 1], likelihoods, priors, tokenize)
         == CorrectCount(testData[..i], likelihoods, priors, tokenize)
            + (if Correct(testData[i], likelihoods, priors, tokenize) then 1 else 0)
  {
    assert testData[..i + 1][..i] == testData[..i];
  }

  lemma {:induction false} AllCorrectCount(testData: seq<Row>, likelihoods: Table<map<string, nat>>,
                                           priors: map<string, real>, tokenize: Tokenizer)
    requires likelihoods.Valid()
    requires forall i :: 0 <= i < |testData| ==> Correct(testData[i], likelihoods, priors, tokenize)
    ensures CorrectCount(testData, likelihoods, priors, tokenize) == |testData|
  {
    if |testData| > 0 {
      AllCorrectCount(testData[..|testData| - 1], likelihoods, priors, tokenize);
    }
  }

  lemma {:induction false} NoneCorrectCount(testData: seq<Row>, likelihoods: Table<map<string, nat>>,
                                            priors: map<string, real>, tokenize: Tokenizer)
    requires likelihoods.Valid()
    requires forall i :: 0 <= i < |testData| ==> !Correct(testData[i], likelihoods, priors, tokenize)
    ensures CorrectCount(testData, likelihoods, priors, tokenize) == 0
  {
    if |testData| > 0 {
      NoneCorrectCount(testData[..|testData| - 1], likelihoods, priors, tokenize);
    }
  }

  /** Every row predicted as its own label gives accuracy exactly 1. */
  lemma PerfectAccuracy(testData: seq<Row>, likelihoods: Table<map<string, nat>>,
                        priors: map<string, real>, tokenize: Tokenizer)
    requires likelihoods.Valid() && |testData| > 0
    requires forall i :: 0 <= i < |testData| ==> Correct(testData[i], likelihoods, priors, tokenize)
    ensures Accuracy(testData, likelihoods, priors, tokenize) == Ok(1.0)
  {
    AllCorrectCount(testData, likelihoods, priors, tokenize);
    assert Correct(testData[0], likelihoods, priors, tokenize);
    ShareOfAll(|testData|);
  }

  /** Tables that classify but never hit a row's label give accuracy exactly 0. */
  lemma ZeroAccuracy(testData: seq<Row>, likelihoods: Table<map<string, nat>>,
                     priors: map<string, real>, tokenize: Tokenizer)
    requires likelihoods.Valid() && |testData| > 0
    requires Predict(tokenize(testData[0].text), likelihoods, priors).Ok?
    requires forall i :: 0 <= i < |testData| ==> !Correct(testData[i], likelihoods, priors, tokenize)
    ensures Accuracy(testData, likelihoods, priors, tokenize) == Ok(0.0)
  {
    NoneCorrectCount(testData, likelihoods, priors, tokenize);
    RatioBounds(0, |testData|);
  }

  /** A model trained on a non-empty set evaluates every non-empty test set
      without error. */
  lemma TrainedModelEvaluates(trainData: seq<Row>, testData: seq<Row>, tokenize: Tokenizer)
    requires |trainData| > 0 && |testData| > 0
    ensures Accuracy(testData, LikelihoodTable(trainData, tokenize), PriorTable(trainData), tokenize).Ok?
  {
    TrainedTablesClassify(trainData, tokenize, tokenize(testData[0].text));
  }
}
