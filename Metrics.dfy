/** The confusion matrix and the four scores `evaluateModel` reports. Every ratio here has its
    numerator bounded by its denominator, so its only division by zero is JavaScript's 0/0,
    which is NaN; the source maps that to 0 for precision, recall and F1 but passes it through
    for accuracy. */
module Metrics {
  import opened Scoring

  datatype Confusion = Confusion(tp: nat, fp: nat, tn: nat, fn: nat)

  function Total(c: Confusion): nat {
    c.tp + c.fp + c.tn + c.fn
  }

  /** `actualLabels[i]`: a missing label reads as `undefined`, which is falsy. */
  function Label(labels: seq<bool>, i: int): bool {
    0 <= i < |labels| && labels[i]
  }

  /** One step of the counting loop: the four cases in the source's order. */
  function Count(c: Confusion, predicted: bool, actual: bool): Confusion
  {
    if predicted && actual then c.(tp := c.tp + 1)
    else if predicted && !actual then c.(fp := c.fp + 1)
    else if !predicted && !actual then c.(tn := c.tn + 1)
    else c.(fn := c.fn + 1)
  }

  /** The counters after the loop has seen the first `n` predictions. */
  function TallyUpTo(predicted: seq<bool>, labels: seq<bool>, n: nat): Confusion
    requires n <= |predicted|
  {
    if n == 0 then Confusion(0, 0, 0, 0)
    else Count(TallyUpTo(predicted, labels, n - 1), predicted[n - 1], Label(labels, n - 1))
  }

  /** The counters after the whole loop. */
  function Tally(predicted: seq<bool>, labels: seq<bool>): Confusion
  {
    TallyUpTo(predicted, labels, |predicted|)
  }

  /** The number of `true` entries among the first `n`. */
  function Positives(s: seq<bool>, n: nat): nat
    requires n <= |s|
  {
    if n == 0 then 0 else Positives(s, n - 1) + (if s[n - 1] then 1 else 0)
  }

  /** The number of indices below `n` whose label reads as true. */
  function PositiveLabels(labels: seq<bool>, n: nat): nat {
    if n == 0 then 0 else PositiveLabels(labels, n - 1) + (if Label(labels, n - 1) then 1 else 0)
  }

  /** The number of indices below `n` where prediction and label agree. */
  function Agreements(predicted: seq<bool>, labels: seq<bool>, n: nat): nat
    requires n <= |predicted|
  {
    if n == 0 then 0
    else Agreements(predicted, labels, n - 1) + (if predicted[n - 1] == Label(labels, n - 1) then 1 else 0)
  }

  lemma CountMeaning(c: Confusion, predicted: bool, actual: bool)
    ensures var r := Count(c, predicted, actual);
      && r.tp + r.fp == c.tp + c.fp + (if predicted then 1 else 0)
      && r.tp + r.fn == c.tp + c.fn + (if actual then 1 else 0)
      && r.tp + r.tn == c.tp + c.tn + (if predicted == actual then 1 else 0)
      && Total(r) == Total(c) + 1
  {
  }

  lemma {:induction false} TallyUpToMeaning(predicted: seq<bool>, labels: seq<bool>, n: nat)
    requires n <= |predicted|
    ensures var c := TallyUpTo(predicted, labels, n);
      && c.tp + c.fp == Positives(predicted, n)
      && c.tp + c.fn == PositiveLabels(labels, n)
      && c.tp + c.tn == Agreements(predicted, labels, n)
      && Total(c) == n
  {
    if n > 0 {
      TallyUpToMeaning(predicted, labels, n - 1);
      var c := TallyUpTo(predicted, labels, n - 1);
      CountMeaning(c, predicted[n - 1], Label(labels, n - 1));
      assert TallyUpTo(predicted, labels, n) == Count(c, predicted[n - 1], Label(labels, n - 1));
    }
  }

  /** Every prediction lands in exactly one cell, and the matrix splits the predictions by what
      was predicted, by what the label says, and by whether the two agree. */
  lemma TallyMeaning(predicted: seq<bool>, labels: seq<bool>)
    ensures var c := Tally(predicted, labels);
      && c.tp + c.fp == Positives(predicted, |predicted|)
      && c.tp + c.fn == PositiveLabels(labels, |predicted|)
      && c.tp + c.tn == Agreements(predicted, labels, |predicted|)
      && Total(c) == |predicted|
  {
    TallyUpToMeaning(predicted, labels, |predicted|);
  }

  /** A JavaScript number that may be NaN. */
  datatype Number = Num(value: real) | NaN

  /** `a / b` for a part `a` of a whole `b`: 0/0 is NaN. */
  function Ratio(a: nat, b: nat): (r: Number)
    requires a <= b
    ensures r.NaN? <==> b == 0
    ensures r.Num? ==> 0.0 <= r.value <= 1.0
  {
    if b == 0 then NaN else Num(a as real / b as real)
  }

  /** `2 * (precision * recall) / (precision + recall)`, NaN when either operand is or when
      both are zero. */
  function F1(p: Number, r: Number): Number {
    if p.Num? && r.Num? && p.value + r.value != 0.0 then
      Num(2.0 * (p.value * r.value) / (p.value + r.value))
    else NaN
  }

  /** `isNaN(x) ? 0 : parseFloat(x.toFixed(3))`. */
  function OrZero(x: Number): real {
    match x
    case NaN => 0.0
    case Num(v) => Round3(v)
  }

  datatype Evaluation = Evaluation(accuracy: Number, precision: real, recall: real, f1Score: real)

  /** The four scores of a confusion matrix, as `evaluateModel` rounds and defaults them:
      each lies in [0, 1] wherever it is a number. */
  function Scores(c: Confusion): (r: Evaluation)
    ensures r.accuracy.Num? ==> 0.0 <= r.accuracy.value <= 1.0
    ensures 0.0 <= r.precision <= 1.0 && 0.0 <= r.recall <= 1.0 && 0.0 <= r.f1Score <= 1.0
  {
    var accuracy := Ratio(c.tp + c.tn, Total(c));
    var precision := Ratio(c.tp, c.tp + c.fp);
    var recall := Ratio(c.tp, c.tp + c.fn);
    F1Range(precision, recall);
    Evaluation(
      match accuracy case NaN => NaN case Num(v) => Num(Round3(v)),
      OrZero(precision), OrZero(recall), OrZero(F1(precision, recall)))
  }

  lemma MulNonneg(a: real, b: real)
    requires a >= 0.0 && b >= 0.0
    ensures a * b >= 0.0
  {
  }

  lemma ProductBound(p: real, r: real)
    requires 0.0 <= p <= 1.0 && 0.0 <= r <= 1.0
    ensures 0.0 <= p * r && 2.0 * (p * r) <= p + r
  {
    MulNonneg(p, r);
    MulNonneg(p, 1.0 - r);
    MulNonneg(r, 1.0 - p);
    assert p * (1.0 - r) == p - p * r;
    assert r * (1.0 - p) == r - p * r;
  }

  lemma HarmonicBound(p: real, r: real)
    requires 0.0 <= p <= 1.0 && 0.0 <= r <= 1.0 && p + r != 0.0
    ensures 0.0 <= 2.0 * (p * r) / (p + r) <= 1.0
  {
    ProductBound(p, r);
    var d := p + r;
    var q := 2.0 * (p * r) / d;
    assert q * d == 2.0 * (p * r);
  }

  lemma AccuracyMeaning(c: Confusion)
    ensures Scores(c).accuracy.NaN? <==> Total(c) == 0
    ensures Scores(c).accuracy.Num? ==> 0.0 <= Scores(c).accuracy.value <= 1.0
  {
  }

  lemma PrecisionRecallMeaning(c: Confusion)
    ensures 0.0 <= Scores(c).precision <= 1.0
    ensures 0.0 <= Scores(c).recall <= 1.0
    ensures c.tp + c.fp == 0 ==> Scores(c).precision == 0.0
    ensures c.tp + c.fn == 0 ==> Scores(c).recall == 0.0
  {
  }

  lemma F1Range(p: Number, r: Number)
    requires p.Num? ==> 0.0 <= p.value <= 1.0
    requires r.Num? ==> 0.0 <= r.value <= 1.0
    ensures F1(p, r).Num? ==> 0.0 <= F1(p, r).value <= 1.0
    ensures 0.0 <= OrZero(F1(p, r)) <= 1.0
  {
    if p.Num? && r.Num? && p.value + r.value != 0.0 {
      var a, b := p.value, r.value;
      HarmonicBound(a, b);
      assert F1(p, r) == Num(2.0 * (a * b) / (a + b));
    }
  }

  lemma F1Meaning(c: Confusion)
    ensures 0.0 <= Scores(c).f1Score <= 1.0
    ensures c.tp == 0 ==> Scores(c).f1Score == 0.0
  {
    var p := Ratio(c.tp, c.tp + c.fp);
    var r := Ratio(c.tp, c.tp + c.fn);
    assert Scores(c).f1Score == OrZero(F1(p, r));
    F1Range(p, r);
    if c.tp == 0 && p.Num? && r.Num? {
      assert p.value == 0.0 && r.value == 0.0;
    }
  }

  /** Every reported score lies in [0, 1]; accuracy is NaN exactly when there was nothing to
      evaluate; precision, recall and F1 are 0 whenever their ratio is undefined. */
  lemma ScoresMeaning(c: Confusion)
    ensures Scores(c).accuracy.NaN? <==> Total(c) == 0
    ensures Scores(c).accuracy.Num? ==> 0.0 <= Scores(c).accuracy.value <= 1.0
    ensures 0.0 <= Scores(c).precision <= 1.0
    ensures 0.0 <= Scores(c).recall <= 1.0
    ensures 0.0 <= Scores(c).f1Score <= 1.0
    ensures c.tp + c.fp == 0 ==> Scores(c).precision == 0.0
    ensures c.tp + c.fn == 0 ==> Scores(c).recall == 0.0
    ensures c.tp == 0 ==> Scores(c).f1Score == 0.0
  {
    AccuracyMeaning(c);
    PrecisionRecallMeaning(c);
    F1Meaning(c);
  }

  /** A matrix without false positives or negatives and with at least one entry has
      accuracy 1. */
  lemma AllAgreeAccuracy(c: Confusion)
    requires c.fp == 0 && c.fn == 0 && Total(c) > 0
    ensures Scores(c).accuracy == Num(1.0)
  {
    var t := Total(c) as real;
    assert (c.tp + c.tn) as real == t && t > 0.0;
    assert t / t == 1.0;
    assert Ratio(c.tp + c.tn, Total(c)) == Num(1.0);
    RoundThousandths(1.0);
  }

  /** Predictions that match every label give accuracy 1, and no false positive or negative. */
  lemma PerfectPredictions(predicted: seq<bool>, labels: seq<bool>)
    requires |predicted| > 0
    requires forall i :: 0 <= i < |predicted| ==> predicted[i] == Label(labels, i)
    ensures Tally(predicted, labels).fp == 0 && Tally(predicted, labels).fn == 0
    ensures Scores(Tally(predicted, labels)).accuracy == Num(1.0)
  {
    PerfectTally(predicted, labels, |predicted|);
    TallyMeaning(predicted, labels);
    AllAgreeAccuracy(Tally(predicted, labels));
  }

  lemma {:induction false} PerfectTally(predicted: seq<bool>, labels: seq<bool>, n: nat)
    requires n <= |predicted|
    requires forall i :: 0 <= i < |predicted| ==> predicted[i] == Label(labels, i)
    ensures TallyUpTo(predicted, labels, n).fp == 0 && TallyUpTo(predicted, labels, n).fn == 0
  {
    if n > 0 {
      PerfectTally(predicted, labels, n - 1);
      var c := TallyUpTo(predicted, labels, n - 1);
      assert predicted[n - 1] == Label(labels, n - 1);
      assert TallyUpTo(predicted, labels, n) == Count(c, predicted[n - 1], Label(labels, n - 1));
    }
  }

  /** Two hits, one false alarm and one correct rejection score 0.75, 0.667, 1 and 0.8:
      F1 is taken from the unrounded precision. */
  lemma MixedPrecision()
    ensures Round3(2.0 / 3.0) == 0.667
  {
    assert 2.0 / 3.0 * 1000.0 + 0.5 == 667.0 + 1.0 / 6.0;
    assert (2.0 / 3.0 * 1000.0 + 0.5).Floor == 667;
  }

  lemma MixedF1()
    ensures F1(Num(2.0 / 3.0), Num(1.0)) == Num(0.8)
  {
    assert 2.0 * (2.0 / 3.0 * 1.0) / (2.0 / 3.0 + 1.0) == 0.8;
  }

  lemma MixedExample()
    ensures Scores(Confusion(2, 1, 1, 0)) == Evaluation(Num(0.75), 0.667, 1.0, 0.8)
  {
    assert Ratio(2, 3) == Num(2.0 / 3.0);
    assert Ratio(2, 2) == Num(1.0);
    assert Ratio(3, 4) == Num(0.75);
    MixedPrecision();
    MixedF1();
    RoundThousandths(0.75);
    RoundThousandths(1.0);
    RoundThousandths(0.8);
  }

  /** With no positive predictions and no positive labels, precision, recall and F1 are
      undefined and reported as 0, while accuracy is 1. */
  lemma AllNegativeExample()
    ensures Scores(Confusion(0, 0, 3, 0)) == Evaluation(Num(1.0), 0.0, 0.0, 0.0)
  {
    RoundThousandths(1.0);
  }
}
