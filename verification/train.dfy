/** Training and prediction of the multinomial Naive Bayes classifier
    (nbsa/train.py): per-class token frequency tables, class priors, and the
    smoothed, unnormalised class score with its first-maximum arg-max. */
module Train {
  import opened Sums

  /** One labelled example, a row of the training or test table. */
  datatype Row = Row(text: string, classLabel: string)

  /** The external word tokenizer; the model only assumes it is a function. */
  type Tokenizer = string -> seq<string>

  /** The failures the core raises instead of returning a default. */
  datatype Error =
    | MissingPrior(classLabel: string)  // priors[class_label] raises KeyError
    | NoClasses                    // max() over an empty score dict raises ValueError

  datatype Result<T, E> = Ok(value: T) | Err(error: E)

  predicate NoDuplicates(xs: seq<string>)
  {
    forall i, j :: 0 <= i < j < |xs| ==> xs[i] != xs[j]
  }

  /** A dictionary keyed by class label that remembers insertion order,
      as the dicts of the source do; `keys` is its iteration order. */
  datatype Table<V> = Table(keys: seq<string>, entries: map<string, V>)
  {
    predicate Valid()
    {
      NoDuplicates(keys) && (forall k :: k in keys ==> k in entries) && (forall k :: k in entries ==> k in keys)
    }

    /** `d[k] = v`: a new key goes to the end, an existing key keeps its place. */
    function Insert(k: string, v: V): (t: Table<V>)
      requires Valid()
      ensures t.Valid()
      ensures t.entries == entries[k := v]
      ensures |t.keys| == |keys| + (if k in entries then 0 else 1)
      ensures forall i :: 0 <= i < |keys| ==> t.keys[i] == keys[i]
    {
      if k in entries then Table(keys, entries[k := v]) else Table(keys + [k], entries[k := v])
    }

    /** `d.values()`, in iteration order. */
    function Values(): (vs: seq<V>)
      requires Valid()
      ensures |vs| == |keys|
      ensures forall i :: 0 <= i < |keys| ==> vs[i] == entries[keys[i]]
    {
      seq(|keys|, i requires 0 <= i < |keys| => entries[keys[i]])
    }
  }

  // ---------------------------------------------------------------------
  // Columns, distinct labels, filtering

  /** The `label` column. */
  function Labels(data: seq<Row>): (labels: seq<string>)
    ensures |labels| == |data|
    ensures forall i :: 0 <= i < |data| ==> labels[i] == data[i].classLabel
  {
    seq(|data|, i requires 0 <= i < |data| => data[i].classLabel)
  }

  /** The `text` column. */
  function Texts(data: seq<Row>): (texts: seq<string>)
    ensures |texts| == |data|
    ensures forall i :: 0 <= i < |data| ==> texts[i] == data[i].text
  {
    seq(|data|, i requires 0 <= i < |data| => data[i].text)
  }

  /** Position of the first occurrence of x in xs. */
  function FirstIndex(xs: seq<string>, x: string): (i: nat)
    requires x in xs
    ensures i < |xs| && xs[i] == x && x !in xs[..i]
  {
    if xs[0] == x then 0
    else
      var i := 1 + FirstIndex(xs[1..], x);
      assert xs[..i] == [xs[0]] + xs[1..][..i - 1];
      i
  }

  /** `data['label'].unique()`: the distinct values of a column, each once. */
  function Unique(xs: seq<string>): (r: seq<string>)
    ensures NoDuplicates(r)
    ensures forall x :: x in r <==> x in xs
  {
    if |xs| == 0 then []
    else
      var u := Unique(xs[..|xs| - 1]);
      assert xs == xs[..|xs| - 1] + [xs[|xs| - 1]];
      if xs[|xs| - 1] in u then u else u + [xs[|xs| - 1]]
  }

  /** The first occurrence is the only position holding x with no x before it. */
  lemma {:induction false} FirstIndexUnique(xs: seq<string>, x: string, i: nat)
    requires i < |xs| && xs[i] == x && x !in xs[..i]
    ensures FirstIndex(xs, x) == i
  {
    if xs[0] != x {
      assert xs[1..][..i - 1] == xs[..i][1..];
      FirstIndexUnique(xs[1..], x, i - 1);
    }
  }

  lemma FirstIndexOfPrefix(ys: seq<string>, z: string, x: string)
    requires x in ys
    ensures FirstIndex(ys + [z], x) == FirstIndex(ys, x)
  {
    var b := FirstIndex(ys, x);
    assert (ys + [z])[..b] == ys[..b];
    FirstIndexUnique(ys + [z], x, b);
  }

  /** Labels come out of `unique()` in the order of their first appearance,
      which is the order every table built from them iterates in. */
  lemma {:induction false} UniqueKeepsFirstAppearanceOrder(xs: seq<string>, i: nat, j: nat)
    requires i < j < |Unique(xs)|
    ensures FirstIndex(xs, Unique(xs)[i]) < FirstIndex(xs, Unique(xs)[j])
  {
    var ys, z := xs[..|xs| - 1], xs[|xs| - 1];
    assert xs == ys + [z];
    var u := Unique(ys);
    var a, b := Unique(xs)[i], Unique(xs)[j];
    if j < |u| {
      UniqueKeepsFirstAppearanceOrder(ys, i, j);
      assert a == u[i] && b == u[j];
      FirstIndexOfPrefix(ys, z, a);
      FirstIndexOfPrefix(ys, z, b);
    } else {
      assert z !in u && b == z && a == u[i];
      FirstIndexOfPrefix(ys, z, a);
      assert z !in ys;
      assert (ys + [z])[..|ys|] == ys;
    }
  }

  /** `filter_data_by_label`: the rows whose label is `classLabel`. */
  function FilterDataByLabel(data: seq<Row>, classLabel: string): (r: seq<Row>)
    ensures forall row :: row in r <==> row in data && row.classLabel == classLabel
    ensures |r| == multiset(Labels(data))[classLabel]
    ensures |r| <= |data|
  {
    if |data| == 0 then []
    else
      var prefix, last := data[..|data| - 1], data[|data| - 1];
      assert data == prefix + [last];
      assert Labels(data) == Labels(prefix) + [last.classLabel];
      var rest := FilterDataByLabel(prefix, classLabel);
      if last.classLabel == classLabel then rest + [last] else rest
  }

  /** Filtering keeps the rows in their original order: filtering a
      concatenation concatenates the filtered parts. */
  lemma {:induction false} FilterDataByLabelKeepsOrder(a: seq<Row>, b: seq<Row>, classLabel: string)
    ensures FilterDataByLabel(a + b, classLabel) == FilterDataByLabel(a, classLabel) + FilterDataByLabel(b, classLabel)
  {
    if |b| > 0 {
      var b', last := b[..|b| - 1], b[|b| - 1];
      assert (a + b)[..|a + b| - 1] == a + b';
      FilterDataByLabelKeepsOrder(a, b', classLabel);
    } else {
      assert a + b == a;
    }
  }

  // ---------------------------------------------------------------------
  // Token frequency tables

  /** `dict(Counter(xs))`: how often each element occurs. */
  function Counter(xs: seq<string>): (counts: map<string, nat>)
    ensures forall x :: x in counts <==> x in xs
    ensures forall x :: x in counts ==> counts[x] == multiset(xs)[x] >= 1
  {
    if |xs| == 0 then map[]
    else
      var prefix, last := xs[..|xs| - 1], xs[|xs| - 1];
      assert xs == prefix + [last];
      var rest := Counter(prefix);
      rest[last := if last in rest then rest[last] + 1 else 1]
  }

  /** The counts of a frequency table add up to the number of tokens counted. */
  lemma {:induction false} CounterTotal(xs: seq<string>)
    ensures TotalCount(Counter(xs)) == |xs|
  {
    if |xs| > 0 {
      var prefix, last := xs[..|xs| - 1], xs[|xs| - 1];
      var rest := Counter(prefix);
      CounterTotal(prefix);
      TotalCountUpdate(rest, last, if last in rest then rest[last] + 1 else 1);
    } else {
      assert Counter(xs) == map[];
    }
  }

  /** `' '.join(parts)`. */
  function Join(sep: string, parts: seq<string>): string
  {
    if |parts| == 0 then ""
    else if |parts| == 1 then parts[0]
    else Join(sep, parts[..|parts| - 1]) + sep + parts[|parts| - 1]
  }

  /** Joining no parts gives the empty string; otherwise the joined string
      starts with the first part and ends with the last. */
  lemma {:induction false} JoinKeepsEnds(sep: string, parts: seq<string>)
    ensures |parts| == 0 ==> Join(sep, parts) == ""
    ensures |parts| > 0 ==> parts[0] <= Join(sep, parts)
    ensures |parts| > 0 ==> var s, last := Join(sep, parts), parts[|parts| - 1];
      |last| <= |s| && s[|s| - |last|..] == last
  {
    if |parts| > 1 {
      var init := parts[..|parts| - 1];
      JoinKeepsEnds(sep, init);
      assert init[0] == parts[0];
    }
  }

  /** Total length of the parts. */
  function SumLengths(parts: seq<string>): nat
  {
    if |parts| == 0 then 0 else SumLengths(parts[..|parts| - 1]) + |parts[|parts| - 1]|
  }

  /** The joined string holds every part and one separator between each two
      neighbouring parts, and nothing else. */
  lemma {:induction false} JoinLength(sep: string, parts: seq<string>)
    requires |parts| > 0
    ensures |Join(sep, parts)| == SumLengths(parts) + (|parts| - 1) * |sep|
  {
    if |parts| > 1 {
      var init := parts[..|parts| - 1];
      var last := parts[|parts| - 1];
      assert |Join(sep, parts)| == |Join(sep, init)| + |sep| + |last|;
      assert SumLengths(parts) == SumLengths(init) + |last|;
      JoinLength(sep, init);
      SeparatorsStep(|init| - 1, |sep|);
    }
  }

  lemma SeparatorsStep(n: nat, k: nat)
    ensures (n + 1) * k == n * k + k
  {
  }

  /** `' '.join` on no texts, on two empty texts and on three words. */
  lemma JoinExamples()
    ensures Join(" ", []) == ""
    ensures Join(" ", ["", ""]) == " "
    ensures Join(" ", ["a", "b", "c"]) == "a b c"
  {
    assert ["", ""][..1] == [""];
    assert ["a", "b", "c"][..2] == ["a", "b"] && ["a", "b"][..1] == ["a"];
  }

  /** All texts of one class, joined with single spaces. */
  function ClassText(data: seq<Row>, classLabel: string): string
  {
    Join(" ", Texts(FilterDataByLabel(data, classLabel)))
  }

  /** The token frequency table of one class. */
  function ClassFrequencies(data: seq<Row>, tokenize: Tokenizer, classLabel: string): map<string, nat>
  {
    Counter(tokenize(ClassText(data, classLabel)))
  }

  /** The frequency tables of the classes `classes`, in that order. */
  function FrequencyTable(data: seq<Row>, tokenize: Tokenizer, classes: seq<string>): Table<map<string, nat>>
  {
    Table(classes, map c | c in classes :: ClassFrequencies(data, tokenize, c))
  }

  /** What `calculate_feature_likelihoods` builds. */
  function LikelihoodTable(data: seq<Row>, tokenize: Tokenizer): (t: Table<map<string, nat>>)
    ensures t.Valid()
    ensures t.keys == Unique(Labels(data))
    ensures forall c :: c in t.entries <==> c in Labels(data)
    ensures forall c :: c in t.entries ==> t.entries[c] == Counter(tokenize(ClassText(data, c)))
  {
    FrequencyTable(data, tokenize, Unique(Labels(data)))
  }

  /** The counts of a class add up to the number of tokens of its joined text. */
  lemma ClassCountsSumToTokenCount(data: seq<Row>, tokenize: Tokenizer, c: string)
    requires c in LikelihoodTable(data, tokenize).entries
    ensures TotalCount(LikelihoodTable(data, tokenize).entries[c]) == |tokenize(ClassText(data, c))|
  {
    CounterTotal(tokenize(ClassText(data, c)));
  }

  /** One more class at the end: the table grows by one entry. */
  lemma FrequencyTableStep(data: seq<Row>, tokenize: Tokenizer, classes: seq<string>, c: string)
    requires NoDuplicates(classes) && c !in classes
    ensures FrequencyTable(data, tokenize, classes + [c])
         == FrequencyTable(data, tokenize, classes).Insert(c, ClassFrequencies(data, tokenize, c))
  {
    var t := FrequencyTable(data, tokenize, classes);
    var t' := FrequencyTable(data, tokenize, classes + [c]);
    var f := ClassFrequencies(data, tokenize, c);
    assert t'.entries == t.entries[c := f];
  }

  /** `calculate_feature_likelihoods`: one token frequency table per distinct
      label, in first-appearance order (see LikelihoodTable). */
  method CalculateFeatureLikelihoods(data: seq<Row>, tokenize: Tokenizer)
    returns (likelihoods: Table<map<string, nat>>)
    ensures likelihoods == LikelihoodTable(data, tokenize)
  {
    likelihoods := Table([], map[]);
    var classes := Unique(Labels(data));
    for i := 0 to |classes|
      invariant likelihoods == FrequencyTable(data, tokenize, classes[..i])
    {
      var classLabel := classes[i];
      var classData := FilterDataByLabel(data, classLabel);
      var classText := Join(" ", Texts(classData));
      var tokens := tokenize(classText);
      assert classes[..i + 1] == classes[..i] + [classLabel];
      FrequencyTableStep(data, tokenize, classes[..i], classLabel);
      likelihoods := likelihoods.Insert(classLabel, Counter(tokens));
    }
    assert classes[..|classes|] == classes;
  }

  // ---------------------------------------------------------------------
  // Priors

  /** Number of training rows labelled `classLabel`. */
  function ClassCount(data: seq<Row>, classLabel: string): nat
  {
    |FilterDataByLabel(data, classLabel)|
  }

  /** A label that occurs in the data labels between one row and all of them. */
  lemma ClassCountBounds(data: seq<Row>, classLabel: string)
    requires classLabel in Labels(data)
    ensures 1 <= ClassCount(data, classLabel) <= |data|
  {
    var i :| 0 <= i < |data| && Labels(data)[i] == classLabel;
    assert data[i] in FilterDataByLabel(data, classLabel);
  }

  lemma ShareBounds(count: nat, total: nat)
    requires 1 <= count <= total
    ensures 0.0 < count as real / total as real <= 1.0
  {
  }

  /** The priors of the classes `classes`: each one's share of the rows. */
  function PriorShares(data: seq<Row>, classes: seq<string>): map<string, real>
    requires |data| > 0 || |classes| == 0
  {
    map c | c in classes :: ClassCount(data, c) as real / |data| as real
  }

  /** One more class at the end: the table gains that class's share. */
  lemma PriorSharesStep(data: seq<Row>, classes: seq<string>, c: string)
    requires |data| > 0
    ensures PriorShares(data, classes + [c])
         == PriorShares(data, classes)[c := ClassCount(data, c) as real / |data| as real]
  {
  }

  lemma ShareOfAll(total: nat)
    requires total > 0
    ensures total as real / total as real == 1.0
  {
  }

  /** What `calculate_prior_probabilities` builds: each label's share of the rows. */
  function PriorTable(data: seq<Row>): (priors: map<string, real>)
    ensures forall c :: c in priors <==> c in Labels(data)
    ensures forall c :: c in priors ==> priors[c] == ClassCount(data, c) as real / |data| as real
    ensures forall c :: c in priors ==> 0.0 < priors[c] <= 1.0
  {
    assert |data| == 0 ==> Unique(Labels(data)) == [];
    var priors := PriorShares(data, Unique(Labels(data)));
    assert forall c :: c in priors ==> 0.0 < priors[c] <= 1.0 by {
      forall c | c in priors
        ensures 0.0 < priors[c] <= 1.0
      {
        ClassCountBounds(data, c);
        ShareBounds(ClassCount(data, c), |data|);
      }
    }
    priors
  }

  /** `calculate_prior_probabilities`. An empty training set gives an empty
      table: the division sits in a loop that then never runs. */
  method CalculatePriorProbabilities(data: seq<Row>) returns (priors: map<string, real>)
    ensures priors == PriorTable(data)
    ensures |data| == 0 ==> priors == map[]
  {
    var totalSamples := |data|;
    priors := map[];
    var classes := Unique(Labels(data));
    for i := 0 to |classes|
      invariant priors == PriorShares(data, classes[..i])
    {
      var classLabel := classes[i];
      var classData := FilterDataByLabel(data, classLabel);
      assert classes[..i + 1] == classes[..i] + [classLabel];
      PriorSharesStep(data, classes[..i], classLabel);
      priors := priors[classLabel := |classData| as real / totalSamples as real];
    }
    assert classes[..|classes|] == classes;
  }

  /** The priors of a non-empty training set add up to exactly 1. */
  lemma PriorsSumToOne(data: seq<Row>)
    requires |data| > 0
    ensures TotalProbability(PriorTable(data)) == 1.0
  {
    var counts := Counter(Labels(data));
    var n := |data|;
    var priors := PriorTable(data);
    var ratios := map c | c in counts :: counts[c] as real / n as real;
    assert priors == ratios by {
      forall c | c in priors
        ensures c in ratios && priors[c] == ratios[c]
      {
        assert ClassCount(data, c) == counts[c];
      }
      assert priors.Keys == ratios.Keys;
    }
    calc {
      TotalProbability(priors);
      { TotalOfRatios(counts, n); }
      TotalCount(counts) as real / n as real;
      { CounterTotal(Labels(data)); }
      n as real / n as real;
      { ShareOfAll(n); }
      1.0;
    }
  }

  /** `train_naive_bayes_model` after loading: both estimators on the same rows. */
  method TrainNaiveBayesModel(data: seq<Row>, tokenize: Tokenizer)
    returns (likelihoods: Table<map<string, nat>>, priors: map<string, real>)
    ensures likelihoods == LikelihoodTable(data, tokenize) && priors == PriorTable(data)
    ensures forall c :: c in likelihoods.entries <==> c in priors
  {
    likelihoods := CalculateFeatureLikelihoods(data, tokenize);
    priors := CalculatePriorProbabilities(data);
  }

  // ---------------------------------------------------------------------
  // Scoring

  /** `class_likelihoods.get(token, 0)`. */
  function CountOf(counts: map<string, nat>, token: string): nat
  {
    if token in counts then counts[token] else 0
  }

  /** The Laplace-smoothed factor of one token: `get(token, 0) + 1`. */
  function Factor(counts: map<string, nat>, token: string): (f: nat)
    ensures f >= 1 && (token !in counts ==> f == 1)
  {
    CountOf(counts, token) + 1
  }

  /** Looking a token up in a frequency table built by `Counter` gives the
      token's multiplicity, and 0 for a token that was never counted. */
  lemma CountOfCounter(xs: seq<string>, t: string)
    ensures CountOf(Counter(xs), t) == multiset(xs)[t]
  {
  }

  /** Product of the smoothed factors over the tokens. */
  function TokenProduct(counts: map<string, nat>, tokens: seq<string>): nat
  {
    if |tokens| == 0 then 1
    else TokenProduct(counts, tokens[..|tokens| - 1]) * Factor(counts, tokens[|tokens| - 1])
  }

  lemma TokenProductUnfold(counts: map<string, nat>, tokens: seq<string>)
    requires |tokens| > 0
    ensures TokenProduct(counts, tokens)
         == TokenProduct(counts, tokens[..|tokens| - 1]) * Factor(counts, tokens[|tokens| - 1])
  {
  }

  lemma TokenProductSnoc(counts: map<string, nat>, tokens: seq<string>, t: string)
    ensures TokenProduct(counts, tokens + [t]) == TokenProduct(counts, tokens) * Factor(counts, t)
  {
    assert (tokens + [t])[..|tokens|] == tokens;
  }

  /** A class's unnormalised score: its prior times every token's smoothed factor. */
  function Score(prior: real, counts: map<string, nat>, tokens: seq<string>): real
  {
    if |tokens| == 0 then prior
    else Score(prior, counts, tokens[..|tokens| - 1]) * Factor(counts, tokens[|tokens| - 1]) as real
  }

  lemma ScoreUnfold(prior: real, counts: map<string, nat>, tokens: seq<string>)
    requires |tokens| > 0
    ensures Score(prior, counts, tokens)
         == Score(prior, counts, tokens[..|tokens| - 1]) * Factor(counts, tokens[|tokens| - 1]) as real
  {
  }

  lemma MulAssociatesReal(a: real, b: real, c: real)
    ensures (a * b) * c == a * (b * c)
  {
  }

  /** The prior only scales the running product: a class's score is its prior
      times the score the same tokens give a class of prior 1. */
  lemma {:induction false} ScoreScales(prior: real, counts: map<string, nat>, tokens: seq<string>)
    ensures Score(prior, counts, tokens) == prior * Score(1.0, counts, tokens)
  {
    if |tokens| > 0 {
      var prefix := tokens[..|tokens| - 1];
      ScoreScales(prior, counts, prefix);
      MulAssociatesReal(prior, Score(1.0, counts, prefix), Factor(counts, tokens[|tokens| - 1]) as real);
    }
  }

  lemma CastMul(s: real, p: int, f: int)
    requires s == p as real
    ensures s * f as real == (p * f) as real
  {
  }

  /** Starting from 1, the running product is the exact integer product of the factors. */
  lemma {:induction false} UnitScoreIsProduct(counts: map<string, nat>, tokens: seq<string>)
    ensures Score(1.0, counts, tokens) == TokenProduct(counts, tokens) as real
  {
    if |tokens| > 0 {
      var prefix := tokens[..|tokens| - 1];
      var f := Factor(counts, tokens[|tokens| - 1]);
      calc {
        Score(1.0, counts, tokens);
        { ScoreUnfold(1.0, counts, tokens); }
        Score(1.0, counts, prefix) * f as real;
        { UnitScoreIsProduct(counts, prefix);
          CastMul(Score(1.0, counts, prefix), TokenProduct(counts, prefix), f); }
        (TokenProduct(counts, prefix) * f) as real;
        { TokenProductUnfold(counts, tokens); }
        TokenProduct(counts, tokens) as real;
      }
    }
  }

  /** The running product of the scoring loop is the prior times the product
      of all the statement's smoothed factors. */
  lemma ScoreIsPriorTimesProduct(prior: real, counts: map<string, nat>, tokens: seq<string>)
    ensures Score(prior, counts, tokens) == prior * TokenProduct(counts, tokens) as real
  {
    ScoreScales(prior, counts, tokens);
    UnitScoreIsProduct(counts, tokens);
  }

  lemma GrowStep(score: real, prior: real, factor: real)
    requires score >= prior >= 0.0 && factor >= 1.0
    ensures score * factor >= prior
  {
    assert score * factor - score == score * (factor - 1.0);
  }

  /** Every factor is at least 1, so a score never falls below its prior. */
  lemma {:induction false} ScoreAtLeastPrior(prior: real, counts: map<string, nat>, tokens: seq<string>)
    requires prior >= 0.0
    ensures Score(prior, counts, tokens) >= prior
  {
    if |tokens| > 0 {
      var prefix := tokens[..|tokens| - 1];
      ScoreAtLeastPrior(prior, counts, prefix);
      GrowStep(Score(prior, counts, prefix), prior, Factor(counts, tokens[|tokens| - 1]) as real);
    }
  }

  /** A token the class never saw contributes the factor 1: a statement made
      only of such tokens scores exactly the prior. */
  lemma {:induction false} UnseenTokensAreNeutral(prior: real, counts: map<string, nat>, tokens: seq<string>)
    requires forall t :: t in tokens ==> t !in counts
    ensures TokenProduct(counts, tokens) == 1
    ensures Score(prior, counts, tokens) == prior
  {
    if |tokens| > 0 {
      UnseenTokensAreNeutral(prior, counts, tokens[..|tokens| - 1]);
    }
  }

  lemma MulAssociates(a: int, b: int, c: int)
    ensures (a * b) * c == a * (b * c)
  {
  }

  lemma {:induction false} TokenProductAppend(counts: map<string, nat>, a: seq<string>, b: seq<string>)
    ensures TokenProduct(counts, a + b) == TokenProduct(counts, a) * TokenProduct(counts, b)
  {
    if |b| == 0 {
      assert a + b == a;
    } else {
      var b', last := b[..|b| - 1], b[|b| - 1];
      assert b == b' + [last];
      assert a + b == (a + b') + [last];
      TokenProductAppend(counts, a, b');
      TokenProductSnoc(counts, a + b', last);
      TokenProductSnoc(counts, b', last);
      MulAssociates(TokenProduct(counts, a), TokenProduct(counts, b'), Factor(counts, last));
    }
  }

  lemma MulSwapLast(a: int, b: int, c: int)
    ensures (a * b) * c == (a * c) * b
  {
  }

  /** Taking one token out of the statement takes its factor out of the product. */
  lemma TokenProductRemove(counts: map<string, nat>, b: seq<string>, i: nat)
    requires i < |b|
    ensures TokenProduct(counts, b) == TokenProduct(counts, b[..i] + b[i + 1..]) * Factor(counts, b[i])
  {
    var b1, x, b2 := b[..i], b[i], b[i + 1..];
    assert b == (b1 + [x]) + b2;
    var p1, f, p2 := TokenProduct(counts, b1), Factor(counts, x), TokenProduct(counts, b2);
    TokenProductAppend(counts, b1 + [x], b2);
    TokenProductSnoc(counts, b1, x);
    TokenProductAppend(counts, b1, b2);
    MulSwapLast(p1, f, p2);
  }

  lemma {:induction false} TokenProductPermutation(counts: map<string, nat>, a: seq<string>, b: seq<string>)
    requires multiset(a) == multiset(b)
    ensures TokenProduct(counts, a) == TokenProduct(counts, b)
    decreases |a|
  {
    if |a| == 0 {
      assert |multiset(b)| == 0;
    } else {
      var a', x := a[..|a| - 1], a[|a| - 1];
      assert a == a' + [x];
      assert x in multiset(b);
      var i :| 0 <= i < |b| && b[i] == x;
      var b' := b[..i] + b[i + 1..];
      assert multiset(a') == multiset(b') by {
        assert b == b[..i] + [x] + b[i + 1..];
        assert multiset(a') == multiset(a) - multiset{x};
        assert multiset(b') == multiset(b) - multiset{x};
      }
      TokenProductPermutation(counts, a', b');
      TokenProductRemove(counts, b, i);
      TokenProductSnoc(counts, a', x);
    }
  }

  lemma UnitScoreIgnoresTokenOrder(counts: map<string, nat>, a: seq<string>, b: seq<string>)
    requires multiset(a) == multiset(b)
    ensures Score(1.0, counts, a) == Score(1.0, counts, b)
  {
    TokenProductPermutation(counts, a, b);
    UnitScoreIsProduct(counts, a);
    UnitScoreIsProduct(counts, b);
  }

  /** The score is a product of per-token factors, so it does not depend on
      the order of the statement's tokens. */
  lemma ScoreIgnoresTokenOrder(prior: real, counts: map<string, nat>, a: seq<string>, b: seq<string>)
    requires multiset(a) == multiset(b)
    ensures Score(prior, counts, a) == Score(prior, counts, b)
  {
    calc {
      Score(prior, counts, a);
      { ScoreScales(prior, counts, a); }
      prior * Score(1.0, counts, a);
      { UnitScoreIgnoresTokenOrder(counts, a, b); }
      prior * Score(1.0, counts, b);
      { ScoreScales(prior, counts, b); }
      Score(prior, counts, b);
    }
  }

  // ---------------------------------------------------------------------
  // Arg-max and prediction

  /** Index of the first maximal score, scanning left to right and replacing
      the best only on a strictly larger score. */
  function FirstMax(scores: seq<real>): (i: nat)
    requires |scores| > 0
    ensures i < |scores|
  {
    if |scores| == 1 then 0
    else
      var b := FirstMax(scores[..|scores| - 1]);
      if scores[|scores| - 1] > scores[b] then |scores| - 1 else b
  }

  /** The scan finds a maximum, and the first one: every earlier score is
      strictly smaller. */
  lemma {:induction false} FirstMaxIsFirstMaximum(scores: seq<real>)
    requires |scores| > 0
    ensures var i := FirstMax(scores);
      && (forall j :: 0 <= j < |scores| ==> scores[j] <= scores[i])
      && (forall j :: 0 <= j < i ==> scores[j] < scores[i])
  {
    if |scores| > 1 {
      var prefix := scores[..|scores| - 1];
      FirstMaxIsFirstMaximum(prefix);
      assert forall j :: 0 <= j < |prefix| ==> prefix[j] == scores[j];
    }
  }

  /** Extending the scanned prefix by one score moves the best index to it
      only when that score is strictly larger. */
  lemma FirstMaxStep(scores: seq<real>, i: nat)
    requires 0 < i < |scores|
    ensures FirstMax(scores[..i + 1])
         == if scores[i] > scores[FirstMax(scores[..i])] then i else FirstMax(scores[..i])
  {
    assert scores[..i + 1][..i] == scores[..i];
  }

  /** Index of the first class that has no prior, or |keys| when all have one. */
  function FirstMissingPrior(keys: seq<string>, priors: map<string, real>): (i: nat)
    ensures i <= |keys|
    ensures forall j :: 0 <= j < i && j < |keys| ==> keys[j] in priors
    ensures i < |keys| ==> keys[i] !in priors
  {
    if |keys| == 0 then 0
    else
      var m := FirstMissingPrior(keys[..|keys| - 1], priors);
      if m < |keys| - 1 then m
      else if keys[|keys| - 1] in priors then |keys| else |keys| - 1
  }

  /** Score of class `c` for the statement's tokens. */
  function ClassScore(tokens: seq<string>, likelihoods: Table<map<string, nat>>,
                      priors: map<string, real>, c: string): real
    requires c in likelihoods.entries && c in priors
  {
    Score(priors[c], likelihoods.entries[c], tokens)
  }

  /** `statement_probability` once the classes `classes` are scored. */
  function ScoreTable(tokens: seq<string>, likelihoods: Table<map<string, nat>>,
                      priors: map<string, real>, classes: seq<string>): Table<real>
    requires forall c :: c in classes ==> c in likelihoods.entries && c in priors
  {
    Table(classes, map c | c in classes :: ClassScore(tokens, likelihoods, priors, c))
  }

  /** Scoring the next class of the likelihoods appends it to the score table. */
  lemma ScoreTableStep(tokens: seq<string>, likelihoods: Table<map<string, nat>>,
                       priors: map<string, real>, i: nat)
    requires likelihoods.Valid() && i < |likelihoods.keys|
    requires forall j :: 0 <= j <= i ==> likelihoods.keys[j] in priors
    ensures var keys := likelihoods.keys;
      ScoreTable(tokens, likelihoods, priors, keys[..i + 1])
      == ScoreTable(tokens, likelihoods, priors, keys[..i]).Insert(keys[i], ClassScore(tokens, likelihoods, priors, keys[i]))
  {
    var keys := likelihoods.keys;
    var t := ScoreTable(tokens, likelihoods, priors, keys[..i]);
    var t' := ScoreTable(tokens, likelihoods, priors, keys[..i + 1]);
    var v := ClassScore(tokens, likelihoods, priors, keys[i]);
    assert keys[..i + 1] == keys[..i] + [keys[i]];
    assert keys[i] !in t.entries by {
      assert keys[i] !in keys[..i];
    }
    assert t.Insert(keys[i], v) == Table(keys[..i + 1], t.entries[keys[i] := v]);
    assert t'.entries == t.entries[keys[i] := v];
  }

  /** The score of every class, in the iteration order of the likelihoods. */
  function Scores(tokens: seq<string>, likelihoods: Table<map<string, nat>>,
                  priors: map<string, real>): (s: seq<real>)
    requires likelihoods.Valid()
    requires forall k :: k in likelihoods.keys ==> k in priors
    ensures |s| == |likelihoods.keys|
    ensures forall i :: 0 <= i < |s| ==> s[i] == ClassScore(tokens, likelihoods, priors, likelihoods.keys[i])
  {
    ScoreTable(tokens, likelihoods, priors, likelihoods.keys).Values()
  }

  /** `max(d, key=d.get)`: the first key of largest value in iteration order;
      an empty dict has no maximum. */
  function MaxKey(keys: seq<string>, scores: seq<real>): (r: Result<string, Error>)
    requires |keys| == |scores|
    ensures r.Ok? <==> |keys| > 0
    ensures r.Err? ==> r.error == NoClasses
    ensures r.Ok? ==> r.value in keys
  {
    if |keys| == 0 then Err(NoClasses) else Ok(keys[FirstMax(scores)])
  }

  /** The label `calculate_class_probability` returns for a tokenised
      statement, or the error it raises. */
  function Predict(tokens: seq<string>, likelihoods: Table<map<string, nat>>,
                   priors: map<string, real>): (r: Result<string, Error>)
    requires likelihoods.Valid()
    ensures r.Ok? ==> r.value in likelihoods.entries && r.value in priors
  {
    var keys := likelihoods.keys;
    var m := FirstMissingPrior(keys, priors);
    if m < |keys| then Err(MissingPrior(keys[m]))
    else MaxKey(keys, Scores(tokens, likelihoods, priors))
  }

  /** A class without a prior fails the prediction, with that class named,
      when every class before it has a prior. */
  lemma PredictNamesFirstMissingPrior(tokens: seq<string>, likelihoods: Table<map<string, nat>>,
                                      priors: map<string, real>, i: nat)
    requires likelihoods.Valid() && i < |likelihoods.keys|
    requires likelihoods.keys[i] !in priors
    requires forall j :: 0 <= j < i ==> likelihoods.keys[j] in priors
    ensures Predict(tokens, likelihoods, priors) == Err(MissingPrior(likelihoods.keys[i]))
  {
    assert FirstMissingPrior(likelihoods.keys, priors) == i;
  }

  /** When every class has a prior, the prediction is the arg-max of the
      class scores in iteration order. */
  lemma PredictOfPricedClasses(tokens: seq<string>, likelihoods: Table<map<string, nat>>,
                               priors: map<string, real>)
    requires likelihoods.Valid()
    requires forall k :: k in likelihoods.keys ==> k in priors
    ensures Predict(tokens, likelihoods, priors)
         == MaxKey(likelihoods.keys, ScoreTable(tokens, likelihoods, priors, likelihoods.keys).Values())
  {
    assert FirstMissingPrior(likelihoods.keys, priors) == |likelihoods.keys|;
  }

  /** The prediction fails exactly when the likelihoods are empty or a class
      has no prior; a missing prior is reported for the first class without one. */
  lemma PredictFailsOnlyOnTables(tokens: seq<string>, likelihoods: Table<map<string, nat>>,
                                 priors: map<string, real>)
    requires likelihoods.Valid()
    ensures var r := Predict(tokens, likelihoods, priors);
      && (r == Err(NoClasses) <==> |likelihoods.keys| == 0)
      && (r.Err? && r.error.MissingPrior? ==>
            exists i :: 0 <= i < |likelihoods.keys| && likelihoods.keys[i] == r.error.classLabel &&
              r.error.classLabel !in priors && forall j :: 0 <= j < i ==> likelihoods.keys[j] in priors)
      && (r.Ok? <==> |likelihoods.keys| > 0 && forall k :: k in likelihoods.keys ==> k in priors)
  {
  }

  /** The predicted class scores at least as high as every class, and
      strictly higher than every class before it in iteration order. */
  lemma PredictIsFirstMaximum(tokens: seq<string>, likelihoods: Table<map<string, nat>>,
                              priors: map<string, real>, i: nat)
    requires likelihoods.Valid() && i < |likelihoods.keys|
    requires Predict(tokens, likelihoods, priors) == Ok(likelihoods.keys[i])
    ensures forall k :: k in likelihoods.keys ==> k in priors
    ensures var keys := likelihoods.keys;
      forall j :: 0 <= j < |keys| ==>
        ClassScore(tokens, likelihoods, priors, keys[j]) <= ClassScore(tokens, likelihoods, priors, keys[i])
    ensures var keys := likelihoods.keys;
      forall j :: 0 <= j < i ==>
        ClassScore(tokens, likelihoods, priors, keys[j]) < ClassScore(tokens, likelihoods, priors, keys[i])
  {
    var keys := likelihoods.keys;
    assert FirstMissingPrior(keys, priors) == |keys|;
    var s := Scores(tokens, likelihoods, priors);
    assert FirstMax(s) == i;
    FirstMaxIsFirstMaximum(s);
  }

  /** Whether the statement is classified or not is decided by the tables
      alone; the error, if any, is the same for every statement. */
  lemma PredictErrorIgnoresStatement(t1: seq<string>, t2: seq<string>,
                                     likelihoods: Table<map<string, nat>>, priors: map<string, real>)
    requires likelihoods.Valid()
    ensures Predict(t1, likelihoods, priors).Ok? == Predict(t2, likelihoods, priors).Ok?
    ensures Predict(t1, likelihoods, priors).Err? ==> Predict(t1, likelihoods, priors) == Predict(t2, likelihoods, priors)
  {
  }

  /** Tie-break: of two classes with the same score, the later one in the
      likelihoods' iteration order is never the prediction. */
  lemma TiesGoToEarlierClass(tokens: seq<string>, likelihoods: Table<map<string, nat>>,
                             priors: map<string, real>, i: nat, j: nat)
    requires likelihoods.Valid() && i < j < |likelihoods.keys|
    requires likelihoods.keys[i] in priors && likelihoods.keys[j] in priors
    requires ClassScore(tokens, likelihoods, priors, likelihoods.keys[i])
          == ClassScore(tokens, likelihoods, priors, likelihoods.keys[j])
    ensures Predict(tokens, likelihoods, priors) != Ok(likelihoods.keys[j])
  {
    if Predict(tokens, likelihoods, priors) == Ok(likelihoods.keys[j]) {
      PredictIsFirstMaximum(tokens, likelihoods, priors, j);
    }
  }

  /** When every class of the likelihoods has a prior, the only possible
      failure is an empty likelihood table. */
  lemma PricedTablesClassify(tokens: seq<string>, likelihoods: Table<map<string, nat>>,
                             priors: map<string, real>)
    requires likelihoods.Valid()
    requires forall k :: k in likelihoods.keys ==> k in priors
    ensures var r := Predict(tokens, likelihoods, priors);
            (r.Ok? <==> |likelihoods.keys| > 0) && (r.Err? ==> r.error == NoClasses)
  {
    assert FirstMissingPrior(likelihoods.keys, priors) == |likelihoods.keys|;
  }

  /** Training gives a prior to every class it gives likelihoods to, and has
      a class exactly when the training set is not empty. */
  lemma TrainedClassesArePriced(data: seq<Row>, tokenize: Tokenizer)
    ensures var keys := LikelihoodTable(data, tokenize).keys;
            && (forall k :: k in keys ==> k in PriorTable(data))
            && (|keys| > 0 <==> |data| > 0)
  {
    var keys := LikelihoodTable(data, tokenize).keys;
    if |data| > 0 {
      assert data[0].classLabel in Labels(data);
      assert data[0].classLabel in keys;
    }
  }

  /** Tables produced by training never miss a prior, and classification
      fails only when the training set was empty. */
  lemma TrainedTablesClassify(data: seq<Row>, tokenize: Tokenizer, tokens: seq<string>)
    ensures var r := Predict(tokens, LikelihoodTable(data, tokenize), PriorTable(data));
            (r.Ok? <==> |data| > 0) && (r.Err? ==> r.error == NoClasses)
  {
    TrainedClassesArePriced(data, tokenize);
    PricedTablesClassify(tokens, LikelihoodTable(data, tokenize), PriorTable(data));
  }

  /** The inner loop of `calculate_class_probability`: start from the prior
      and multiply in each token's smoothed factor. */
  method ScoreClass(prior: real, classLikelihoods: map<string, nat>, tokens: seq<string>)
    returns (probability: real)
    ensures probability == Score(prior, classLikelihoods, tokens)
  {
    probability := prior;
    for t := 0 to |tokens|
      invariant probability == Score(prior, classLikelihoods, tokens[..t])
    {
      assert tokens[..t + 1][..t] == tokens[..t];
      probability := probability * (CountOf(classLikelihoods, tokens[t]) + 1) as real;
    }
    assert tokens[..|tokens|] == tokens;
  }

  /** `max(d, key=d.get)`: scan the keys in iteration order and keep the
      first one whose value is strictly larger than the best so far. */
  method MaxByValue(keys: seq<string>, scores: seq<real>) returns (r: Result<string, Error>)
    requires |keys| == |scores|
    ensures r == MaxKey(keys, scores)
  {
    if |keys| == 0 {
      return Err(NoClasses);
    }
    var best, bestScore := keys[0], scores[0];
    ghost var bestIndex := 0;
    for i := 1 to |keys|
      invariant bestIndex < i && bestIndex == FirstMax(scores[..i])
      invariant best == keys[bestIndex] && bestScore == scores[bestIndex]
    {
      FirstMaxStep(scores, i);
      if scores[i] > bestScore {
        best, bestScore, bestIndex := keys[i], scores[i], i;
      }
    }
    assert scores[..|scores|] == scores;
    r := Ok(best);
  }

  /** `calculate_class_probability`: score every class of the likelihoods in
      their iteration order, then return the first label with the largest score. */
  method CalculateClassProbability(predictStatement: string, likelihoods: Table<map<string, nat>>,
                                   priors: map<string, real>, tokenize: Tokenizer)
    returns (r: Result<string, Error>)
    requires likelihoods.Valid()
    ensures r == Predict(tokenize(predictStatement), likelihoods, priors)
  {
    var tokens := tokenize(predictStatement);
    var keys := likelihoods.keys;
    var statementProbability: Table<real> := Table([], map[]);
    for i := 0 to |keys|
      invariant forall j :: 0 <= j < i ==> keys[j] in priors
      invariant statementProbability.Valid()
      invariant statementProbability == ScoreTable(tokens, likelihoods, priors, keys[..i])
    {
      var classLabel := keys[i];
      var classLikelihoods := likelihoods.entries[classLabel];
      if classLabel !in priors {
        assert Err(MissingPrior(classLabel)) == Predict(tokens, likelihoods, priors) by {
          PredictNamesFirstMissingPrior(tokens, likelihoods, priors, i);
        }
        return Err(MissingPrior(classLabel));
      }
      var probability := ScoreClass(priors[classLabel], classLikelihoods, tokens);
      statementProbability := statementProbability.Insert(classLabel, probability);
      assert statementProbability == ScoreTable(tokens, likelihoods, priors, keys[..i + 1]) by {
        ScoreTableStep(tokens, likelihoods, priors, i);
      }
    }
    assert statementProbability == ScoreTable(tokens, likelihoods, priors, keys) by {
      assert keys[..|keys|] == keys;
    }
    r := MaxByValue(statementProbability.keys, statementProbability.Values());
    assert r == Predict(tokens, likelihoods, priors) by {
      PredictOfPricedClasses(tokens, likelihoods, priors);
    }
  }
}
