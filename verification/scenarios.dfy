/** Worked examples of the classifier on small tables, proved as lemmas:
    the tie-break between two identical classes, and the two-row sentiment
    example. */
module Scenarios {
  import opened Train

  /** Two classes with the same prior and empty frequency tables tie on an
      empty statement; the first in iteration order wins. */
  lemma TieGoesToFirstClass()
    ensures Predict([], Table(["A", "B"], map["A" := map[], "B" := map[]]), map["A" := 0.5, "B" := 0.5])
         == Ok("A")
  {
    var likelihoods := Table(["A", "B"], map["A" := map[], "B" := map[]]);
    var priors := map["A" := 0.5, "B" := 0.5];
    assert FirstMissingPrior(likelihoods.keys, priors) == 2;
    var s := Scores([], likelihoods, priors);
    assert s == [0.5, 0.5];
    assert FirstMax(s) == 0;
  }

  /** The rows of the two-row example. */
  function CatRows(): seq<Row>
  {
    [Row("I love cats", "pos"), Row("I hate cats", "neg")]
  }

  lemma FilterSingle(r: Row, classLabel: string)
    ensures FilterDataByLabel([r], classLabel) == if r.classLabel == classLabel then [r] else []
  {
    assert [r][..0] == [];
  }

  lemma UniqueOfTwo(a: string, b: string)
    requires a != b
    ensures Unique([a, b]) == [a, b]
  {
    assert [a, b][..1] == [a];
    assert Unique([a]) == [a] by {
      assert [a][..0] == [];
    }
  }

  lemma FilterOfTwo(r0: Row, r1: Row, classLabel: string)
    ensures FilterDataByLabel([r0, r1], classLabel)
         == (if r0.classLabel == classLabel then [r0] else []) + (if r1.classLabel == classLabel then [r1] else [])
  {
    FilterDataByLabelKeepsOrder([r0], [r1], classLabel);
    assert [r0] + [r1] == [r0, r1];
    FilterSingle(r0, classLabel);
    FilterSingle(r1, classLabel);
  }

  /** With two rows of different labels, each class holds exactly its row. */
  lemma TwoClasses(r0: Row, r1: Row)
    requires r0.classLabel != r1.classLabel
    ensures Unique(Labels([r0, r1])) == [r0.classLabel, r1.classLabel]
    ensures ClassText([r0, r1], r0.classLabel) == r0.text
    ensures ClassText([r0, r1], r1.classLabel) == r1.text
    ensures ClassCount([r0, r1], r0.classLabel) == 1 && ClassCount([r0, r1], r1.classLabel) == 1
  {
    assert Labels([r0, r1]) == [r0.classLabel, r1.classLabel];
    UniqueOfTwo(r0.classLabel, r1.classLabel);
    FilterOfTwo(r0, r1, r0.classLabel);
    FilterOfTwo(r0, r1, r1.classLabel);
    SingleRowClass([r0, r1], r0.classLabel, r0);
    SingleRowClass([r0, r1], r1.classLabel, r1);
  }

  lemma SingleRowClass(data: seq<Row>, classLabel: string, r: Row)
    requires FilterDataByLabel(data, classLabel) == [r]
    ensures ClassText(data, classLabel) == r.text && ClassCount(data, classLabel) == 1
  {
    assert Texts([r]) == [r.text];
  }

  /** Scoring three tokens multiplies the prior by their three factors. */
  lemma ScoreOfThree(prior: real, counts: map<string, nat>, a: string, b: string, c: string)
    ensures Score(prior, counts, [a, b, c])
         == prior * Factor(counts, a) as real * Factor(counts, b) as real * Factor(counts, c) as real
  {
    assert [a, b, c][..2] == [a, b] && [a, b][..1] == [a] && [a][..0] == [];
    ScoreUnfold(prior, counts, [a, b, c]);
    ScoreUnfold(prior, counts, [a, b]);
    ScoreUnfold(prior, counts, [a]);
  }

  /** Of two priced classes, the first wins unless the second scores strictly higher. */
  lemma FirstOfTwoWins(tokens: seq<string>, likelihoods: Table<map<string, nat>>, priors: map<string, real>)
    requires likelihoods.Valid() && |likelihoods.keys| == 2
    requires likelihoods.keys[0] in priors && likelihoods.keys[1] in priors
    requires ClassScore(tokens, likelihoods, priors, likelihoods.keys[1])
          <= ClassScore(tokens, likelihoods, priors, likelihoods.keys[0])
    ensures Predict(tokens, likelihoods, priors) == Ok(likelihoods.keys[0])
  {
    assert FirstMissingPrior(likelihoods.keys, priors) == 2;
    var s := Scores(tokens, likelihoods, priors);
    assert s[..1] == [s[0]];
    assert FirstMax(s) == 0;
  }

  /** The frequency tables trained on the two example rows. */
  lemma CatLikelihoods(tokenize: Tokenizer)
    requires tokenize("I love cats") == ["I", "love", "cats"]
    requires tokenize("I hate cats") == ["I", "hate", "cats"]
    ensures LikelihoodTable(CatRows(), tokenize).keys == ["pos", "neg"]
    ensures LikelihoodTable(CatRows(), tokenize).entries["pos"] == Counter(["I", "love", "cats"])
    ensures LikelihoodTable(CatRows(), tokenize).entries["neg"] == Counter(["I", "hate", "cats"])
  {
    var data := CatRows();
    TwoClasses(data[0], data[1]);
    assert Labels(data) == ["pos", "neg"];
    assert "pos" in Labels(data) && "neg" in Labels(data);
  }

  /** The priors trained on the two example rows: one row of two each. */
  lemma CatPriors()
    ensures "pos" in PriorTable(CatRows()) && PriorTable(CatRows())["pos"] == 0.5
    ensures "neg" in PriorTable(CatRows()) && PriorTable(CatRows())["neg"] == 0.5
  {
    var data := CatRows();
    TwoClasses(data[0], data[1]);
    assert Labels(data) == ["pos", "neg"];
    assert "pos" in Labels(data) && "neg" in Labels(data);
    Half();
  }

  /** One row of two. */
  lemma Half()
    ensures 1 as real / 2 as real == 0.5
  {
  }

  /** The smoothed factors of "I", "love" and "cats" in a class whose tokens
      are "I", "cats" and one more word, "love" (fLove = 2) or "hate" (fLove = 1). */
  lemma CatFactors(xs: seq<string>, fLove: nat)
    requires fLove == 1 || fLove == 2
    requires multiset(xs) == multiset{"I", "cats"} + (if fLove == 2 then multiset{"love"} else multiset{"hate"})
    ensures Factor(Counter(xs), "I") == 2
    ensures Factor(Counter(xs), "love") == fLove
    ensures Factor(Counter(xs), "cats") == 2
  {
    CountOfCounter(xs, "I");
    CountOfCounter(xs, "love");
    CountOfCounter(xs, "cats");
  }

  /** "I love cats" against a class that saw "I" and "cats" once each:
      0.5 * 2 * f * 2, where f is the factor of "love". */
  lemma LoveCatsScore(counts: map<string, nat>, fLove: nat)
    requires Factor(counts, "I") == 2 && Factor(counts, "cats") == 2 && Factor(counts, "love") == fLove
    ensures Score(0.5, counts, ["I", "love", "cats"]) == 2.0 * fLove as real
  {
    ScoreOfThree(0.5, counts, "I", "love", "cats");
  }

  /** "I love cats" scores 0.5 * 2 * 2 * 2 = 4 for pos. */
  lemma PosScore()
    ensures Score(0.5, Counter(["I", "love", "cats"]), ["I", "love", "cats"]) == 4.0
  {
    var pos := ["I", "love", "cats"];
    assert multiset(pos) == multiset{"I", "cats"} + multiset{"love"};
    CatFactors(pos, 2);
    LoveCatsScore(Counter(pos), 2);
  }

  /** "I love cats" scores 0.5 * 2 * 1 * 2 = 2 for neg: "love" is unseen. */
  lemma NegScore()
    ensures Score(0.5, Counter(["I", "hate", "cats"]), ["I", "love", "cats"]) == 2.0
  {
    var neg := ["I", "hate", "cats"];
    assert multiset(neg) == multiset{"I", "cats"} + multiset{"hate"};
    CatFactors(neg, 1);
    LoveCatsScore(Counter(neg), 1);
  }

  /** Training on "I love cats"/pos and "I hate cats"/neg and classifying
      "I love cats": pos scores 0.5 * 2 * 2 * 2 = 4, neg scores
      0.5 * 2 * 1 * 2 = 2, so the prediction is pos. */
  lemma LoveCatsIsPositive(tokenize: Tokenizer)
    requires tokenize("I love cats") == ["I", "love", "cats"]
    requires tokenize("I hate cats") == ["I", "hate", "cats"]
    ensures Predict(tokenize("I love cats"), LikelihoodTable(CatRows(), tokenize), PriorTable(CatRows())) == Ok("pos")
  {
    CatLikelihoods(tokenize);
    CatPriors();
    PosScore();
    NegScore();
    FirstOfTwoWins(tokenize("I love cats"), LikelihoodTable(CatRows(), tokenize), PriorTable(CatRows()));
  }
}
