/** The risk-scoring rules of the fraud engine, as functions: the feature vector of a
    transaction, one rule per feature (a multiplier and an explanation when it fires),
    the weighted sum over the fixed feature order, and the clamp, the decision, the
    confidence and the 3-decimal rounding applied to that sum. The engine's `predict`
    method is proved against `Prediction`. */
module Scoring {
  import opened RiskCurves

  datatype Option<T> = None | Some(value: T)

  /** `Date.getHours()`, `Date.getDay()` (0 is Sunday), `Math.random()` and
      `Math.floor(Math.random() * 10)`: the values these can return. */
  type HourOfDay = h: int | 0 <= h < 24
  type Weekday = d: int | 0 <= d < 7
  type UnitSample = x: real | 0.0 <= x < 1.0
  type RecentCount = n: int | 0 <= n < 10

  /** The fields of a stored transaction that scoring reads. */
  datatype Transaction = Transaction(
    id: string, userId: string, amount: real, currency: string, merchant: string, location: string)

  /** What the engine takes from the clock and the random placeholders for user history. */
  datatype Context = Context(
    hour: HourOfDay, dayOfWeek: Weekday,
    userBehaviorDeviation: UnitSample, transactionFrequency: RecentCount, velocity: UnitSample)

  datatype FeatureVector = FeatureVector(
    amount: real, hour: int, dayOfWeek: int, merchantRisk: real, locationRisk: real,
    userBehaviorDeviation: real, transactionFrequency: int, velocity: real)

  /** `extractFeatures`: the amount as it is, the two classifiers, and the context values. */
  function ExtractFeatures(tx: Transaction, ctx: Context): (f: FeatureVector)
    ensures f.amount == tx.amount
    ensures 0 <= f.hour < 24 && 0 <= f.dayOfWeek < 7
    ensures f.merchantRisk == 0.8 || f.merchantRisk == 0.5 || f.merchantRisk == 0.1
    ensures f.locationRisk == 0.9 || f.locationRisk == 0.6 || f.locationRisk == 0.2
    ensures 0.0 <= f.userBehaviorDeviation < 1.0 && 0.0 <= f.velocity < 1.0
    ensures 0 <= f.transactionFrequency < 10
  {
    FeatureVector(
      tx.amount, ctx.hour, ctx.dayOfWeek, MerchantRisk(tx.merchant), LocationRisk(tx.location),
      ctx.userBehaviorDeviation, ctx.transactionFrequency, ctx.velocity)
  }

  datatype Weights = Weights(
    amount: real, hour: real, dayOfWeek: real, merchantRisk: real, locationRisk: real,
    userBehaviorDeviation: real, transactionFrequency: real, velocity: real)

  /** The weight table the engine's constructor installs. */
  const DefaultWeights := Weights(0.25, 0.15, 0.10, 0.20, 0.15, 0.10, 0.03, 0.02)

  /** The eight features, in the order `predict` examines them. */
  datatype Feature = Amount | Hour | Day | Merchant | Location | Behavior | Frequency | Velocity

  const FeatureOrder: seq<Feature> := [Amount, Hour, Day, Merchant, Location, Behavior, Frequency, Velocity]

  function Index(k: Feature): (i: nat)
    ensures i < 8 && FeatureOrder[i] == k
  {
    match k
    case Amount => 0
    case Hour => 1
    case Day => 2
    case Merchant => 3
    case Location => 4
    case Behavior => 5
    case Frequency => 6
    case Velocity => 7
  }

  function Weight(w: Weights, k: Feature): real {
    match k
    case Amount => w.amount
    case Hour => w.hour
    case Day => w.dayOfWeek
    case Merchant => w.merchantRisk
    case Location => w.locationRisk
    case Behavior => w.userBehaviorDeviation
    case Frequency => w.transactionFrequency
    case Velocity => w.velocity
  }

  /** The sum of the first `n` weights in the feature order. */
  function WeightUpTo(w: Weights, n: nat): real
    requires n <= |FeatureOrder|
  {
    if n == 0 then 0.0 else WeightUpTo(w, n - 1) + Weight(w, FeatureOrder[n - 1])
  }

  /** Non-negative weights that add up to one. */
  predicate ValidWeights(w: Weights) {
    && w.amount >= 0.0 && w.hour >= 0.0 && w.dayOfWeek >= 0.0 && w.merchantRisk >= 0.0
    && w.locationRisk >= 0.0 && w.userBehaviorDeviation >= 0.0
    && w.transactionFrequency >= 0.0 && w.velocity >= 0.0
    && w.amount + w.hour + w.dayOfWeek + w.merchantRisk + w.locationRisk
       + w.userBehaviorDeviation + w.transactionFrequency + w.velocity == 1.0
  }

  /** One entry of the explanation list, with the value the message quotes. */
  datatype Explanation =
    | HighAmount(amount: real)
    | MediumHighAmount(amount: real)
    | ModerateAmount(amount: real)
    | UnusualHour(hour: int)
    | Weekend
    | HighRiskMerchant(merchant: string)
    | MediumRiskMerchant(merchant: string)
    | UnusualLocation(location: string)
    | SomewhatUnusualLocation(location: string)
    | SignificantDeviation
    | ModerateDeviation
    | HighFrequency
    | HighVelocity

  /** The feature whose rule produces an explanation. */
  function FeatureOf(e: Explanation): Feature {
    match e
    case HighAmount(_) => Amount
    case MediumHighAmount(_) => Amount
    case ModerateAmount(_) => Amount
    case UnusualHour(_) => Hour
    case Weekend => Day
    case HighRiskMerchant(_) => Merchant
    case MediumRiskMerchant(_) => Merchant
    case UnusualLocation(_) => Location
    case SomewhatUnusualLocation(_) => Location
    case SignificantDeviation => Behavior
    case ModerateDeviation => Behavior
    case HighFrequency => Frequency
    case HighVelocity => Velocity
  }

  /** A rule that fires contributes `weight * multiplier` and one explanation. */
  datatype Firing = Firing(multiplier: real, why: Explanation)

  /** The rule for one feature: the first of its tiers whose threshold is exceeded. */
  function Rule(tx: Transaction, f: FeatureVector, k: Feature): (r: Option<Firing>)
    ensures r.Some? ==> 0.0 < r.value.multiplier <= 0.9 && FeatureOf(r.value.why) == k
  {
    match k
    case Amount =>
      if f.amount > 2000.0 then Some(Firing(0.8, HighAmount(f.amount)))
      else if f.amount > 1000.0 then Some(Firing(0.5, MediumHighAmount(f.amount)))
      else if f.amount > 500.0 then Some(Firing(0.2, ModerateAmount(f.amount)))
      else None
    case Hour =>
      if f.hour >= 22 || f.hour <= 5 then Some(Firing(0.7, UnusualHour(f.hour))) else None
    case Day =>
      if f.dayOfWeek == 0 || f.dayOfWeek == 6 then Some(Firing(0.3, Weekend)) else None
    case Merchant =>
      if f.merchantRisk > 0.5 then Some(Firing(0.9, HighRiskMerchant(tx.merchant)))
      else if f.merchantRisk > 0.2 then Some(Firing(0.4, MediumRiskMerchant(tx.merchant)))
      else None
    case Location =>
      if f.locationRisk > 0.7 then Some(Firing(0.8, UnusualLocation(tx.location)))
      else if f.locationRisk > 0.4 then Some(Firing(0.4, SomewhatUnusualLocation(tx.location)))
      else None
    case Behavior =>
      if f.userBehaviorDeviation > 0.8 then Some(Firing(0.9, SignificantDeviation))
      else if f.userBehaviorDeviation > 0.5 then Some(Firing(0.5, ModerateDeviation))
      else None
    case Frequency =>
      if f.transactionFrequency > 5 then Some(Firing(0.6, HighFrequency)) else None
    case Velocity =>
      if f.velocity > 0.8 then Some(Firing(0.7, HighVelocity)) else None
  }

  /** The amount rule `k` adds to the score: nothing unless the rule fires. */
  function Term(w: Weights, tx: Transaction, f: FeatureVector, k: Feature): (r: real)
    ensures Rule(tx, f, k).None? ==> r == 0.0
  {
    match Rule(tx, f, k)
    case Some(fire) => Weight(w, k) * fire.multiplier
    case None => 0.0
  }

  function Why(tx: Transaction, f: FeatureVector, k: Feature): seq<Explanation> {
    match Rule(tx, f, k)
    case Some(fire) => [fire.why]
    case None => []
  }

  /** `riskScore` after the first `n` rules of `predict`. */
  function ScoreUpTo(w: Weights, tx: Transaction, f: FeatureVector, n: nat): real
    requires n <= |FeatureOrder|
  {
    if n == 0 then 0.0 else ScoreUpTo(w, tx, f, n - 1) + Term(w, tx, f, FeatureOrder[n - 1])
  }

  /** `explanations` after the first `n` rules of `predict`. */
  function ExplainUpTo(tx: Transaction, f: FeatureVector, n: nat): seq<Explanation>
    requires n <= |FeatureOrder|
  {
    if n == 0 then [] else ExplainUpTo(tx, f, n - 1) + Why(tx, f, FeatureOrder[n - 1])
  }

  /** The accumulated score before the clamp. */
  function RawScore(w: Weights, tx: Transaction, f: FeatureVector): real {
    ScoreUpTo(w, tx, f, |FeatureOrder|)
  }

  function Explanations(tx: Transaction, f: FeatureVector): seq<Explanation> {
    ExplainUpTo(tx, f, |FeatureOrder|)
  }

  function Min(a: real, b: real): real { if a <= b then a else b }
  function Max(a: real, b: real): real { if a >= b then a else b }
  function Abs(x: real): real { if x < 0.0 then -x else x }

  /** `Math.min(1.0, Math.max(0.0, x))`. */
  function Clamp(x: real): (r: real)
    ensures 0.0 <= r <= 1.0
    ensures 0.0 <= x <= 1.0 ==> r == x
  {
    Min(1.0, Max(0.0, x))
  }

  /** `parseFloat(x.toFixed(3))` on a non-negative exact value: the nearest multiple of
      1/1000, a tie going to the larger one. */
  function Round3(x: real): (r: real)
    ensures Thousandths(r)
    ensures x - 0.0005 < r <= x + 0.0005
    ensures 0.0 <= x <= 1.0 ==> 0.0 <= r <= 1.0
  {
    var n := (x * 1000.0 + 0.5).Floor;
    assert n as real / 1000.0 * 1000.0 == n as real;
    n as real / 1000.0
  }

  /** A multiple of 1/1000 is left as it is by the rounding. */
  lemma RoundThousandths(x: real)
    requires Thousandths(x)
    ensures Round3(x) == x
  {
    var n := (x * 1000.0).Floor;
    assert (x * 1000.0 + 0.5).Floor == n;
  }

  /** `x` is a whole number of thousandths. */
  predicate Thousandths(x: real) {
    (x * 1000.0).Floor as real == x * 1000.0
  }

  datatype PredictionResult = PredictionResult(
    isFraud: bool, riskScore: real, confidence: real, explanations: seq<Explanation>)

  /** The end of `predict`: clamp the score, decide on the unrounded clamped score,
      derive the confidence from it, and only then round both for output. */
  function Conclude(raw: real, explanations: seq<Explanation>): (r: PredictionResult)
    ensures r.isFraud <==> Clamp(raw) > 0.5
    ensures 0.0 <= r.riskScore <= 1.0 && 0.0 <= r.confidence <= 1.0
    ensures r.isFraud ==> r.riskScore >= 0.5
    ensures !r.isFraud ==> r.riskScore <= 0.5
    ensures r.explanations == explanations
  {
    var score := Clamp(raw);
    PredictionResult(score > 0.5, Round3(score), Round3(Abs(score - 0.5) * 2.0), explanations)
  }

  /** `predict` as a function of the weights, the transaction and its context: both reported
      numbers lie in [0, 1], the reported score is on the side of 0.5 the decision took, and
      there is at most one explanation per feature. */
  function Prediction(w: Weights, tx: Transaction, ctx: Context): (r: PredictionResult)
    ensures 0.0 <= r.riskScore <= 1.0 && 0.0 <= r.confidence <= 1.0
    ensures r.isFraud ==> r.riskScore >= 0.5
    ensures !r.isFraud ==> r.riskScore <= 0.5
    ensures |r.explanations| <= 8
  {
    var f := ExtractFeatures(tx, ctx);
    ExplanationsFaithful(tx, f);
    Conclude(RawScore(w, tx, f), Explanations(tx, f))
  }

  /** The default table is a valid one. */
  lemma DefaultWeightsValid()
    ensures ValidWeights(DefaultWeights)
    ensures WeightUpTo(DefaultWeights, |FeatureOrder|) == 1.0
  {
    WeightSumUnrolled(DefaultWeights);
  }

  lemma WeightSumUnrolled(w: Weights)
    ensures WeightUpTo(w, |FeatureOrder|) ==
      w.amount + w.hour + w.dayOfWeek + w.merchantRisk + w.locationRisk
      + w.userBehaviorDeviation + w.transactionFrequency + w.velocity
  {
    assert |FeatureOrder| == 8;
    assert WeightUpTo(w, 1) == WeightUpTo(w, 0) + w.amount;
    assert WeightUpTo(w, 2) == WeightUpTo(w, 1) + w.hour;
    assert WeightUpTo(w, 3) == WeightUpTo(w, 2) + w.dayOfWeek;
    assert WeightUpTo(w, 4) == WeightUpTo(w, 3) + w.merchantRisk;
    assert WeightUpTo(w, 5) == WeightUpTo(w, 4) + w.locationRisk;
    assert WeightUpTo(w, 6) == WeightUpTo(w, 5) + w.userBehaviorDeviation;
    assert WeightUpTo(w, 7) == WeightUpTo(w, 6) + w.transactionFrequency;
    assert WeightUpTo(w, 8) == WeightUpTo(w, 7) + w.velocity;
  }

  /** The score over the fixed order, written out feature by feature. */
  lemma ScoreUnrolled(w: Weights, tx: Transaction, f: FeatureVector)
    ensures RawScore(w, tx, f) ==
      0.0 + Term(w, tx, f, Amount) + Term(w, tx, f, Hour) + Term(w, tx, f, Day) + Term(w, tx, f, Merchant)
      + Term(w, tx, f, Location) + Term(w, tx, f, Behavior) + Term(w, tx, f, Frequency)
      + Term(w, tx, f, Velocity)
  {
    assert |FeatureOrder| == 8;
    assert ScoreUpTo(w, tx, f, 1) == ScoreUpTo(w, tx, f, 0) + Term(w, tx, f, Amount);
    assert ScoreUpTo(w, tx, f, 2) == ScoreUpTo(w, tx, f, 1) + Term(w, tx, f, Hour);
    assert ScoreUpTo(w, tx, f, 3) == ScoreUpTo(w, tx, f, 2) + Term(w, tx, f, Day);
    assert ScoreUpTo(w, tx, f, 4) == ScoreUpTo(w, tx, f, 3) + Term(w, tx, f, Merchant);
    assert ScoreUpTo(w, tx, f, 5) == ScoreUpTo(w, tx, f, 4) + Term(w, tx, f, Location);
    assert ScoreUpTo(w, tx, f, 6) == ScoreUpTo(w, tx, f, 5) + Term(w, tx, f, Behavior);
    assert ScoreUpTo(w, tx, f, 7) == ScoreUpTo(w, tx, f, 6) + Term(w, tx, f, Frequency);
    assert ScoreUpTo(w, tx, f, 8) == ScoreUpTo(w, tx, f, 7) + Term(w, tx, f, Velocity);
  }

  /** The explanation list over the fixed order, written out feature by feature. */
  lemma ExplainUnrolled(tx: Transaction, f: FeatureVector)
    ensures Explanations(tx, f) ==
      [] + Why(tx, f, Amount) + Why(tx, f, Hour) + Why(tx, f, Day) + Why(tx, f, Merchant)
      + Why(tx, f, Location) + Why(tx, f, Behavior) + Why(tx, f, Frequency) + Why(tx, f, Velocity)
  {
    assert |FeatureOrder| == 8;
    assert ExplainUpTo(tx, f, 1) == ExplainUpTo(tx, f, 0) + Why(tx, f, Amount);
    assert ExplainUpTo(tx, f, 2) == ExplainUpTo(tx, f, 1) + Why(tx, f, Hour);
    assert ExplainUpTo(tx, f, 3) == ExplainUpTo(tx, f, 2) + Why(tx, f, Day);
    assert ExplainUpTo(tx, f, 4) == ExplainUpTo(tx, f, 3) + Why(tx, f, Merchant);
    assert ExplainUpTo(tx, f, 5) == ExplainUpTo(tx, f, 4) + Why(tx, f, Location);
    assert ExplainUpTo(tx, f, 6) == ExplainUpTo(tx, f, 5) + Why(tx, f, Behavior);
    assert ExplainUpTo(tx, f, 7) == ExplainUpTo(tx, f, 6) + Why(tx, f, Frequency);
    assert ExplainUpTo(tx, f, 8) == ExplainUpTo(tx, f, 7) + Why(tx, f, Velocity);
    assert ExplainUpTo(tx, f, 1) == Why(tx, f, Amount);
  }

  lemma ScaledBound(a: real, m: real)
    requires a >= 0.0 && 0.0 <= m <= 0.9
    ensures 0.0 <= a * m <= 0.9 * a
  {
    assert a * (0.9 - m) >= 0.0;
  }

  /** With non-negative weights a term lies between 0 and 0.9 of its weight. */
  lemma TermBound(w: Weights, tx: Transaction, f: FeatureVector, k: Feature)
    requires ValidWeights(w)
    ensures 0.0 <= Term(w, tx, f, k) <= 0.9 * Weight(w, k)
  {
    assert Weight(w, k) >= 0.0;
    match Rule(tx, f, k)
    case Some(fire) =>
      ScaledBound(Weight(w, k), fire.multiplier);
    case None =>
  }

  /** With non-negative weights every term lies between 0 and 0.9 of its weight. */
  lemma {:induction false} ScoreUpToBounds(w: Weights, tx: Transaction, f: FeatureVector, n: nat)
    requires ValidWeights(w) && n <= |FeatureOrder|
    ensures 0.0 <= ScoreUpTo(w, tx, f, n) <= 0.9 * WeightUpTo(w, n)
  {
    if n > 0 {
      ScoreUpToBounds(w, tx, f, n - 1);
      TermBound(w, tx, f, FeatureOrder[n - 1]);
    }
  }

  /** With any valid weights the accumulated score already lies in [0, 0.9], so the clamp
      never changes it. */
  lemma RawScoreInRange(w: Weights, tx: Transaction, f: FeatureVector)
    requires ValidWeights(w)
    ensures 0.0 <= RawScore(w, tx, f) <= 0.9
    ensures Clamp(RawScore(w, tx, f)) == RawScore(w, tx, f)
  {
    ScoreUpToBounds(w, tx, f, |FeatureOrder|);
    WeightSumUnrolled(w);
  }

  /** The largest contribution a feature can make under the default weights. */
  function DefaultCeiling(k: Feature): real {
    match k
    case Amount => 0.200
    case Hour => 0.105
    case Day => 0.030
    case Merchant => 0.180
    case Location => 0.120
    case Behavior => 0.090
    case Frequency => 0.018
    case Velocity => 0.014
  }

  /** Under the default weights each term is a whole number of thousandths,
      at most `DefaultCeiling`. */
  lemma DefaultTerm(tx: Transaction, f: FeatureVector, k: Feature)
    ensures 0.0 <= Term(DefaultWeights, tx, f, k) <= DefaultCeiling(k)
    ensures Thousandths(Term(DefaultWeights, tx, f, k))
  {
  }

  /** Under the default weights the accumulated score never exceeds 0.757 (so the upper clamp
      never fires) and is a whole number of thousandths (so rounding leaves it as it is). */
  lemma DefaultRawScore(tx: Transaction, f: FeatureVector)
    ensures 0.0 <= RawScore(DefaultWeights, tx, f) <= 0.757
    ensures Thousandths(RawScore(DefaultWeights, tx, f))
  {
    ScoreUnrolled(DefaultWeights, tx, f);
    var ts := [Term(DefaultWeights, tx, f, Amount), Term(DefaultWeights, tx, f, Hour),
      Term(DefaultWeights, tx, f, Day), Term(DefaultWeights, tx, f, Merchant),
      Term(DefaultWeights, tx, f, Location), Term(DefaultWeights, tx, f, Behavior),
      Term(DefaultWeights, tx, f, Frequency), Term(DefaultWeights, tx, f, Velocity)];
    DefaultTerm(tx, f, Amount);
    DefaultTerm(tx, f, Hour);
    DefaultTerm(tx, f, Day);
    DefaultTerm(tx, f, Merchant);
    DefaultTerm(tx, f, Location);
    DefaultTerm(tx, f, Behavior);
    DefaultTerm(tx, f, Frequency);
    DefaultTerm(tx, f, Velocity);
    var n := (ts[0] * 1000.0).Floor + (ts[1] * 1000.0).Floor + (ts[2] * 1000.0).Floor
      + (ts[3] * 1000.0).Floor + (ts[4] * 1000.0).Floor + (ts[5] * 1000.0).Floor
      + (ts[6] * 1000.0).Floor + (ts[7] * 1000.0).Floor;
    assert RawScore(DefaultWeights, tx, f) * 1000.0 == n as real;
  }

  /** `e` is the explanation the rule of its own feature produces. */
  predicate Explains(tx: Transaction, f: FeatureVector, e: Explanation) {
    Rule(tx, f, FeatureOf(e)).Some? && Rule(tx, f, FeatureOf(e)).value.why == e
  }

  /** Features strictly increase along the list: at most one explanation per feature,
      in the fixed order. */
  predicate InFeatureOrder(es: seq<Explanation>) {
    forall i, j :: 0 <= i < j < |es| ==> Index(FeatureOf(es[i])) < Index(FeatureOf(es[j]))
  }

  /** The index of a position of the fixed order is that position. */
  lemma IndexOfPosition(i: nat)
    requires i < |FeatureOrder|
    ensures Index(FeatureOrder[i]) == i
  {
    assert i in {0, 1, 2, 3, 4, 5, 6, 7};
  }

  /** Every explanation after the first `n` rules comes from one of those rules. */
  lemma {:induction false} ExplainUpToSound(tx: Transaction, f: FeatureVector, n: nat)
    requires n <= |FeatureOrder|
    ensures forall e :: e in ExplainUpTo(tx, f, n) ==> Explains(tx, f, e) && Index(FeatureOf(e)) < n
  {
    if n > 0 {
      ExplainUpToSound(tx, f, n - 1);
      IndexOfPosition(n - 1);
    }
  }

  /** Every rule among the first `n` that fires has put its explanation in the list. */
  lemma {:induction false} ExplainUpToComplete(tx: Transaction, f: FeatureVector, n: nat)
    requires n <= |FeatureOrder|
    ensures forall k :: Index(k) < n && Rule(tx, f, k).Some? ==> Rule(tx, f, k).value.why in ExplainUpTo(tx, f, n)
  {
    if n > 0 {
      ExplainUpToComplete(tx, f, n - 1);
    }
  }

  lemma {:induction false} ExplainUpToOrdered(tx: Transaction, f: FeatureVector, n: nat)
    requires n <= |FeatureOrder|
    ensures InFeatureOrder(ExplainUpTo(tx, f, n))
  {
    if n > 0 {
      ExplainUpToOrdered(tx, f, n - 1);
      ExplainUpToSound(tx, f, n - 1);
      IndexOfPosition(n - 1);
      var prefix := ExplainUpTo(tx, f, n - 1);
      forall j | 0 <= j < |prefix| ensures Index(FeatureOf(prefix[j])) < n - 1 {
        assert prefix[j] in prefix;
      }
    }
  }

  lemma {:induction false} OrderedPositions(es: seq<Explanation>, j: int)
    requires InFeatureOrder(es) && 0 <= j < |es|
    ensures Index(FeatureOf(es[j])) >= j
  {
    if j > 0 {
      OrderedPositions(es, j - 1);
    }
  }

  /** The explanation list holds exactly one entry for each rule that fires, that rule's own
      explanation, in the order amount, hour, day, merchant, location, behaviour, frequency,
      velocity; so it has at most eight entries. */
  lemma ExplanationsFaithful(tx: Transaction, f: FeatureVector)
    ensures InFeatureOrder(Explanations(tx, f))
    ensures |Explanations(tx, f)| <= 8
    ensures forall e :: e in Explanations(tx, f) ==> Explains(tx, f, e)
    ensures forall k :: Rule(tx, f, k).Some? <==> exists e :: e in Explanations(tx, f) && FeatureOf(e) == k
  {
    var es := Explanations(tx, f);
    ExplainUpToOrdered(tx, f, |FeatureOrder|);
    ExplainUpToSound(tx, f, |FeatureOrder|);
    ExplainUpToComplete(tx, f, |FeatureOrder|);
    if |es| > 8 {
      OrderedPositions(es, 8);
    }
    forall k | Rule(tx, f, k).Some? ensures exists e :: e in es && FeatureOf(e) == k {
      assert Rule(tx, f, k).value.why in es;
    }
  }

  /** Every default weight is positive, so under the default table a term is added exactly
      when its explanation is. */
  lemma DefaultTermIffExplained(tx: Transaction, f: FeatureVector, k: Feature)
    ensures Term(DefaultWeights, tx, f, k) > 0.0 <==>
      exists e :: e in Explanations(tx, f) && FeatureOf(e) == k
  {
    ExplanationsFaithful(tx, f);
  }

  /** `predict` with any valid weight table: the clamp is idle, the decision is the unrounded
      score against 0.5, and both outputs lie in [0, 1]. */
  lemma PredictionBounds(w: Weights, tx: Transaction, ctx: Context)
    requires ValidWeights(w)
    ensures var r := Prediction(w, tx, ctx); var raw := RawScore(w, tx, ExtractFeatures(tx, ctx));
      && (r.isFraud <==> raw > 0.5)
      && 0.0 <= r.riskScore <= 1.0 && 0.0 <= r.confidence <= 1.0
      && |r.explanations| <= 8
      && r.explanations == Explanations(tx, ExtractFeatures(tx, ctx))
  {
    RawScoreInRange(w, tx, ExtractFeatures(tx, ctx));
    ExplanationsFaithful(tx, ExtractFeatures(tx, ctx));
  }

  lemma ConfidenceThousandths(x: real)
    requires Thousandths(x)
    ensures Thousandths(Abs(x - 0.5) * 2.0)
  {
    var n := (x * 1000.0).Floor;
    var m := if 2 * n >= 1000 then 2 * n - 1000 else 1000 - 2 * n;
    assert Abs(x - 0.5) * 2.0 * 1000.0 == m as real;
  }

  /** Under the default weights the reported score is the exact accumulated score (neither
      clamped nor changed by rounding), at most 0.757; so `isFraud` agrees with the reported
      score against 0.5 and the confidence is exactly |score - 0.5| * 2. */
  lemma DefaultPrediction(tx: Transaction, ctx: Context)
    ensures var r := Prediction(DefaultWeights, tx, ctx);
      && r.riskScore == RawScore(DefaultWeights, tx, ExtractFeatures(tx, ctx))
      && r.riskScore <= 0.757
      && (r.isFraud <==> r.riskScore > 0.5)
      && r.confidence == Abs(r.riskScore - 0.5) * 2.0
  {
    var raw := RawScore(DefaultWeights, tx, ExtractFeatures(tx, ctx));
    DefaultRawScore(tx, ExtractFeatures(tx, ctx));
    RoundThousandths(raw);
    ConfidenceThousandths(raw);
    RoundThousandths(Abs(raw - 0.5) * 2.0);
  }

  /** The decision is taken before rounding: a score of 0.5002 is fraud, yet is reported as 0.5. */
  lemma DecidedBeforeRounding()
    ensures Conclude(0.5002, []).isFraud
    ensures Conclude(0.5002, []).riskScore == 0.5
  {
    assert (0.5002 * 1000.0 + 0.5).Floor == 500;
  }

  /** The score and the explanations depend on the transaction only through its features
      and, for the quoted names, its merchant and location. */
  lemma PredictionOfFeatures(tx: Transaction, ctx: Context, f: FeatureVector)
    requires ExtractFeatures(tx, ctx) == f
    ensures Prediction(DefaultWeights, tx, ctx) == Conclude(RawScore(DefaultWeights, tx, f), Explanations(tx, f))
  {
  }

  lemma NightJewelryFeatures(tx: Transaction, ctx: Context)
    requires tx.amount == 2500.0 && tx.merchant == "Jewelry Store" && tx.location == "Miami, FL"
    requires ctx == Context(3, 6, 0.0, 0, 0.0)
    ensures ExtractFeatures(tx, ctx) == FeatureVector(2500.0, 3, 6, 0.8, 0.2, 0.0, 0, 0.0)
  {
    JewelryStore();
    MiamiFl();
  }

  lemma NightJewelryTerms(tx: Transaction, f: FeatureVector)
    requires f == FeatureVector(2500.0, 3, 6, 0.8, 0.2, 0.0, 0, 0.0)
    ensures RawScore(DefaultWeights, tx, f) == 0.515
    ensures Explanations(tx, f) == [HighAmount(2500.0), UnusualHour(3), Weekend, HighRiskMerchant(tx.merchant)]
  {
    ScoreUnrolled(DefaultWeights, tx, f);
    ExplainUnrolled(tx, f);
  }

  /** A large night-time weekend purchase at a jewelry store in Miami, with neutral history,
      is flagged with the amount, hour, weekend and merchant explanations. */
  lemma NightJewelryScenario(tx: Transaction)
    requires tx.amount == 2500.0 && tx.merchant == "Jewelry Store" && tx.location == "Miami, FL"
    ensures var r := Prediction(DefaultWeights, tx, Context(3, 6, 0.0, 0, 0.0));
      && r.isFraud && r.riskScore == 0.515 && r.confidence == 0.03
      && r.explanations == [HighAmount(2500.0), UnusualHour(3), Weekend, HighRiskMerchant("Jewelry Store")]
  {
    var ctx := Context(3, 6, 0.0, 0, 0.0);
    var f := FeatureVector(2500.0, 3, 6, 0.8, 0.2, 0.0, 0, 0.0);
    NightJewelryFeatures(tx, ctx);
    NightJewelryTerms(tx, f);
    PredictionOfFeatures(tx, ctx, f);
    RoundThousandths(0.515);
    assert Abs(0.515 - 0.5) * 2.0 == 0.03;
    RoundThousandths(0.03);
  }

  lemma DaytimeCoffeeFeatures(tx: Transaction, ctx: Context)
    requires tx.amount == 45.99 && tx.merchant == "Starbucks" && tx.location == "Seattle, WA"
    requires ctx == Context(14, 3, 0.0, 0, 0.0)
    ensures ExtractFeatures(tx, ctx) == FeatureVector(45.99, 14, 3, 0.1, 0.2, 0.0, 0, 0.0)
  {
    Starbucks();
    SeattleWa();
  }

  lemma DaytimeCoffeeTerms(tx: Transaction, f: FeatureVector)
    requires f == FeatureVector(45.99, 14, 3, 0.1, 0.2, 0.0, 0, 0.0)
    ensures RawScore(DefaultWeights, tx, f) == 0.0
    ensures Explanations(tx, f) == []
  {
    ScoreUnrolled(DefaultWeights, tx, f);
    ExplainUnrolled(tx, f);
  }

  /** A mid-afternoon weekday coffee in Seattle, with neutral history, scores zero with full
      confidence and no explanation. */
  lemma DaytimeCoffeeScenario(tx: Transaction)
    requires tx.amount == 45.99 && tx.merchant == "Starbucks" && tx.location == "Seattle, WA"
    ensures var r := Prediction(DefaultWeights, tx, Context(14, 3, 0.0, 0, 0.0));
      && !r.isFraud && r.riskScore == 0.0 && r.confidence == 1.0 && r.explanations == []
  {
    var ctx := Context(14, 3, 0.0, 0, 0.0);
    var f := FeatureVector(45.99, 14, 3, 0.1, 0.2, 0.0, 0, 0.0);
    DaytimeCoffeeFeatures(tx, ctx);
    DaytimeCoffeeTerms(tx, f);
    PredictionOfFeatures(tx, ctx, f);
    RoundThousandths(0.0);
    RoundThousandths(1.0);
  }

  lemma CeilingFeatures(tx: Transaction, ctx: Context)
    requires tx.amount == 3000.0 && tx.merchant == "Downtown Casino" && tx.location == "Lagos, Nigeria"
    requires ctx == Context(23, 0, 0.9, 9, 0.9)
    ensures ExtractFeatures(tx, ctx) == FeatureVector(3000.0, 23, 0, 0.8, 0.9, 0.9, 9, 0.9)
  {
    DowntownCasino();
    LagosNigeria();
  }

  /** The bound 0.757 is tight: a late-night Sunday casino payment in Nigeria with maximal
      history signals reaches it. */
  lemma CeilingReached(tx: Transaction)
    requires tx.amount == 3000.0 && tx.merchant == "Downtown Casino" && tx.location == "Lagos, Nigeria"
    ensures RawScore(DefaultWeights, tx, ExtractFeatures(tx, Context(23, 0, 0.9, 9, 0.9))) == 0.757
  {
    var f := FeatureVector(3000.0, 23, 0, 0.8, 0.9, 0.9, 9, 0.9);
    CeilingFeatures(tx, Context(23, 0, 0.9, 9, 0.9));
    ScoreUnrolled(DefaultWeights, tx, f);
  }
}
