/** The fraud-detection engine object: its weight table, its `modelTrained` flag, and the
    three operations on it. `Predict` is proved against `Scoring.Prediction`, `Evaluate`
    against `Metrics.Scores`, and the grouping loop of `Train` against `Grouped`. */
module Engine {
  import opened Text
  import opened Scoring
  import opened Metrics

  /** Which field of a transaction `trainModel` groups amounts by. */
  datatype GroupKey = ByMerchant | ByLocation

  function KeyOf(tx: Transaction, g: GroupKey): string {
    match g
    case ByMerchant => tx.merchant
    case ByLocation => tx.location
  }

  /** The dictionary the grouping loop has built after the first `n` transactions. */
  function GroupedUpTo(txs: seq<Transaction>, g: GroupKey, n: nat): map<string, seq<real>>
    requires n <= |txs|
  {
    if n == 0 then map[]
    else
      var m := GroupedUpTo(txs, g, n - 1);
      var k := KeyOf(txs[n - 1], g);
      m[k := (if k in m then m[k] else []) + [txs[n - 1].amount]]
  }

  function Grouped(txs: seq<Transaction>, g: GroupKey): map<string, seq<real>> {
    GroupedUpTo(txs, g, |txs|)
  }

  /** The amounts of the first `n` transactions whose key is `k`, in order. */
  function AmountsFor(txs: seq<Transaction>, g: GroupKey, k: string, n: nat): seq<real>
    requires n <= |txs|
  {
    if n == 0 then []
    else AmountsFor(txs, g, k, n - 1) + (if KeyOf(txs[n - 1], g) == k then [txs[n - 1].amount] else [])
  }

  lemma {:induction false} GroupedUpToMeaning(txs: seq<Transaction>, g: GroupKey, n: nat)
    requires n <= |txs|
    ensures forall k :: k in GroupedUpTo(txs, g, n) <==> AmountsFor(txs, g, k, n) != []
    ensures forall k :: k in GroupedUpTo(txs, g, n) ==> GroupedUpTo(txs, g, n)[k] == AmountsFor(txs, g, k, n)
  {
    if n > 0 {
      GroupedUpToMeaning(txs, g, n - 1);
    }
  }

  /** Each key of the dictionary is the key of some transaction, and it holds exactly the
      amounts of the transactions with that key, in their original order. */
  lemma GroupedMeaning(txs: seq<Transaction>, g: GroupKey)
    ensures forall k :: k in Grouped(txs, g) <==> AmountsFor(txs, g, k, |txs|) != []
    ensures forall k :: k in Grouped(txs, g) ==> Grouped(txs, g)[k] == AmountsFor(txs, g, k, |txs|)
  {
    GroupedUpToMeaning(txs, g, |txs|);
  }

  lemma {:induction false} AmountsForPresent(txs: seq<Transaction>, g: GroupKey, k: string, n: nat)
    requires n <= |txs|
    ensures AmountsFor(txs, g, k, n) != [] <==> exists i :: 0 <= i < n && KeyOf(txs[i], g) == k
  {
    if n > 0 {
      AmountsForPresent(txs, g, k, n - 1);
    }
  }

  /** The dictionary's keys are exactly the keys that occur among the transactions. */
  lemma GroupedKeys(txs: seq<Transaction>, g: GroupKey)
    ensures forall k :: k in Grouped(txs, g) <==> exists i :: 0 <= i < |txs| && KeyOf(txs[i], g) == k
  {
    GroupedMeaning(txs, g);
    forall k {
      AmountsForPresent(txs, g, k, |txs|);
    }
  }

  /** The names `Object.prototype` provides, which a plain `{}` dictionary already seems to hold. */
  const InheritedNames: set<string> := {
    "constructor", "hasOwnProperty", "isPrototypeOf", "propertyIsEnumerable",
    "toLocaleString", "toString", "valueOf", "__proto__",
    "__defineGetter__", "__defineSetter__", "__lookupGetter__", "__lookupSetter__"}

  /** The grouping loop as written over a plain object: a key with no own entry but an
      inherited member reads as truthy, so no array is created and `push` on the inherited
      member throws; `None` is that `TypeError`. */
  function GroupedAsWrittenUpTo(txs: seq<Transaction>, g: GroupKey, n: nat): (r: Option<map<string, seq<real>>>)
    requires n <= |txs|
    ensures r.None? ==> exists i :: 0 <= i < n && KeyOf(txs[i], g) in InheritedNames
  {
    if n == 0 then Some(map[])
    else match GroupedAsWrittenUpTo(txs, g, n - 1)
      case None => None
      case Some(m) =>
        var k := KeyOf(txs[n - 1], g);
        if k in m then Some(m[k := m[k] + [txs[n - 1].amount]])
        else if k in InheritedNames then None
        else Some(m[k := [txs[n - 1].amount]])
  }

  /** Whether `trainModel` as written reaches `this.modelTrained = true`. */
  predicate TrainCompletesAsWritten(txs: seq<Transaction>) {
    GroupedAsWrittenUpTo(txs, ByMerchant, |txs|).Some? && GroupedAsWrittenUpTo(txs, ByLocation, |txs|).Some?
  }

  lemma {:induction false} AsWrittenUpTo(txs: seq<Transaction>, g: GroupKey, n: nat)
    requires n <= |txs|
    ensures GroupedAsWrittenUpTo(txs, g, n).Some? <==>
      forall i :: 0 <= i < n ==> KeyOf(txs[i], g) !in InheritedNames
    ensures GroupedAsWrittenUpTo(txs, g, n).Some? ==> GroupedAsWrittenUpTo(txs, g, n).value == GroupedUpTo(txs, g, n)
  {
    if n > 0 {
      AsWrittenUpTo(txs, g, n - 1);
      var k := KeyOf(txs[n - 1], g);
      var a := txs[n - 1].amount;
      match GroupedAsWrittenUpTo(txs, g, n - 1)
      case None =>
        assert !(forall i :: 0 <= i < n ==> KeyOf(txs[i], g) !in InheritedNames);
      case Some(m) =>
        assert m == GroupedUpTo(txs, g, n - 1);
        if k in m {
          GroupedUpToMeaning(txs, g, n - 1);
          AmountsForPresent(txs, g, k, n - 1);
          var j :| 0 <= j < n - 1 && KeyOf(txs[j], g) == k;
          assert k !in InheritedNames;
        } else if k in InheritedNames {
          assert GroupedAsWrittenUpTo(txs, g, n) == None;
        } else {
          assert [] + [a] == [a];
        }
    }
  }

  /** As written, the grouping succeeds exactly when no key is an inherited name, and then it
      builds the intended dictionary. */
  lemma AsWrittenAgrees(txs: seq<Transaction>, g: GroupKey)
    ensures GroupedAsWrittenUpTo(txs, g, |txs|).Some? <==>
      forall i :: 0 <= i < |txs| ==> KeyOf(txs[i], g) !in InheritedNames
    ensures GroupedAsWrittenUpTo(txs, g, |txs|).Some? ==> GroupedAsWrittenUpTo(txs, g, |txs|).value == Grouped(txs, g)
  {
    AsWrittenUpTo(txs, g, |txs|);
  }

  /** One transaction at a merchant called "constructor" stops `trainModel` as written before
      it marks the model trained. */
  lemma ConstructorMerchantBreaksTraining(tx: Transaction)
    requires tx.merchant == "constructor"
    ensures !TrainCompletesAsWritten([tx])
  {
    assert [tx][0].merchant in InheritedNames;
    AsWrittenUpTo([tx], ByMerchant, 1);
  }

  /** The `isFraud` of each test transaction in its context, in order. */
  function Decisions(w: Weights, tests: seq<(Transaction, Context)>): seq<bool> {
    seq(|tests|, i requires 0 <= i < |tests| => Prediction(w, tests[i].0, tests[i].1).isFraud)
  }

  class FraudDetectionModel {
    var modelTrained: bool
    const weights: Weights

    ghost predicate Valid()
      reads this
    {
      ValidWeights(weights)
    }

    /** A fresh engine holds the default weights and is not trained. */
    constructor ()
      ensures Valid()
      ensures weights == DefaultWeights && !modelTrained
    {
      weights := DefaultWeights;
      modelTrained := false;
      new;
      DefaultWeightsValid();
    }

    /** `trainModel`: the amounts are grouped by merchant and by location (and the groupings
        then discarded), and the engine is marked trained. The weights do not change, so no
        prediction does. */
    method Train(txs: seq<Transaction>)
      requires Valid()
      modifies this
      ensures Valid() && modelTrained
    {
      var merchantAmounts := GroupAmounts(txs, ByMerchant);
      var locationAmounts := GroupAmounts(txs, ByLocation);
      modelTrained := true;
    }

    /** One commented section of `predict`: the tiers of rule `k`, highest threshold first; the
        first tier whose threshold is exceeded adds its weight times its multiplier to the score
        and pushes its explanation. */
    method ApplyRule(tx: Transaction, f: FeatureVector, k: Feature, riskScore: real, explanations: seq<Explanation>)
      returns (score: real, reasons: seq<Explanation>)
      ensures score == riskScore + Term(weights, tx, f, k)
      ensures reasons == explanations + Why(tx, f, k)
    {
      score, reasons := riskScore, explanations;
      match k
      case Amount =>
        if f.amount > 2000.0 {
          score := score + weights.amount * 0.8;
          reasons := reasons + [HighAmount(f.amount)];
        } else if f.amount > 1000.0 {
          score := score + weights.amount * 0.5;
          reasons := reasons + [MediumHighAmount(f.amount)];
        } else if f.amount > 500.0 {
          score := score + weights.amount * 0.2;
          reasons := reasons + [ModerateAmount(f.amount)];
        }
      case Hour =>
        if f.hour >= 22 || f.hour <= 5 {
          score := score + weights.hour * 0.7;
          reasons := reasons + [UnusualHour(f.hour)];
        }
      case Day =>
        if f.dayOfWeek == 0 || f.dayOfWeek == 6 {
          score := score + weights.dayOfWeek * 0.3;
          reasons := reasons + [Weekend];
        }
      case Merchant =>
        if f.merchantRisk > 0.5 {
          score := score + weights.merchantRisk * 0.9;
          reasons := reasons + [HighRiskMerchant(tx.merchant)];
        } else if f.merchantRisk > 0.2 {
          score := score + weights.merchantRisk * 0.4;
          reasons := reasons + [MediumRiskMerchant(tx.merchant)];
        }
      case Location =>
        if f.locationRisk > 0.7 {
          score := score + weights.locationRisk * 0.8;
          reasons := reasons + [UnusualLocation(tx.location)];
        } else if f.locationRisk > 0.4 {
          score := score + weights.locationRisk * 0.4;
          reasons := reasons + [SomewhatUnusualLocation(tx.location)];
        }
      case Behavior =>
        if f.userBehaviorDeviation > 0.8 {
          score := score + weights.userBehaviorDeviation * 0.9;
          reasons := reasons + [SignificantDeviation];
        } else if f.userBehaviorDeviation > 0.5 {
          score := score + weights.userBehaviorDeviation * 0.5;
          reasons := reasons + [ModerateDeviation];
        }
      case Frequency =>
        if f.transactionFrequency > 5 {
          score := score + weights.transactionFrequency * 0.6;
          reasons := reasons + [HighFrequency];
        }
      case Velocity =>
        if f.velocity > 0.8 {
          score := score + weights.velocity * 0.7;
          reasons := reasons + [HighVelocity];
        }
    }

    /** `predict`: the features, the eight rules in the source's order, then the clamp, the
        decision on the unrounded score, the confidence and the rounding. The untrained
        warning is console output and is not modelled. */
    method Predict(tx: Transaction, ctx: Context) returns (r: PredictionResult)
      ensures r == Prediction(weights, tx, ctx)
      ensures Valid() ==> (r.isFraud <==> RawScore(weights, tx, ExtractFeatures(tx, ctx)) > 0.5)
    {
      var f := ExtractFeatures(tx, ctx);
      var riskScore := 0.0;
      var explanations: seq<Explanation> := [];
      riskScore, explanations := ApplyRule(tx, f, Amount, riskScore, explanations);
      riskScore, explanations := ApplyRule(tx, f, Hour, riskScore, explanations);
      riskScore, explanations := ApplyRule(tx, f, Day, riskScore, explanations);
      riskScore, explanations := ApplyRule(tx, f, Merchant, riskScore, explanations);
      riskScore, explanations := ApplyRule(tx, f, Location, riskScore, explanations);
      riskScore, explanations := ApplyRule(tx, f, Behavior, riskScore, explanations);
      riskScore, explanations := ApplyRule(tx, f, Frequency, riskScore, explanations);
      riskScore, explanations := ApplyRule(tx, f, Velocity, riskScore, explanations);
      ScoreUnrolled(weights, tx, f);
      ExplainUnrolled(tx, f);

      riskScore := Min(1.0, Max(0.0, riskScore));
      var isFraud := riskScore > 0.5;
      var confidence := Abs(riskScore - 0.5) * 2.0;
      r := PredictionResult(isFraud, Round3(riskScore), Round3(confidence), explanations);
      if Valid() {
        PredictionBounds(weights, tx, ctx);
      }
    }

    /** `evaluateModel`: predict every test transaction, then count the four outcomes against
        the labels and derive the scores. */
    method Evaluate(tests: seq<(Transaction, Context)>, labels: seq<bool>) returns (e: Evaluation)
      ensures e == Scores(Tally(Decisions(weights, tests), labels))
    {
      var predicted: seq<bool> := [];
      var i := 0;
      while i < |tests|
        invariant 0 <= i <= |tests|
        invariant |predicted| == i
        invariant forall k :: 0 <= k < i ==> predicted[k] == Prediction(weights, tests[k].0, tests[k].1).isFraud
      {
        var p := Predict(tests[i].0, tests[i].1);
        predicted := predicted + [p.isFraud];
        i := i + 1;
      }
      assert predicted == Decisions(weights, tests);

      var c := CountOutcomes(predicted, labels);
      e := Scores(c);
    }
  }

  /** The counting loop of `evaluateModel`: each prediction against its label, in the
      source's four cases. */
  method CountOutcomes(predicted: seq<bool>, labels: seq<bool>) returns (c: Confusion)
    ensures c == Tally(predicted, labels)
  {
    c := Confusion(0, 0, 0, 0);
    var j := 0;
    while j < |predicted|
      invariant 0 <= j <= |predicted|
      invariant c == TallyUpTo(predicted, labels, j)
    {
      var actual := j < |labels| && labels[j];
      assert actual == Label(labels, j);
      ghost var before := c;
      if predicted[j] && actual {
        c := c.(tp := c.tp + 1);
      } else if predicted[j] && !actual {
        c := c.(fp := c.fp + 1);
      } else if !predicted[j] && !actual {
        c := c.(tn := c.tn + 1);
      } else {
        c := c.(fn := c.fn + 1);
      }
      assert c == Count(before, predicted[j], actual);
      j := j + 1;
    }
  }

  /** The grouping loop of `trainModel`, over a dictionary that holds only its own keys. */
  method GroupAmounts(txs: seq<Transaction>, g: GroupKey) returns (m: map<string, seq<real>>)
    ensures m == Grouped(txs, g)
  {
    m := map[];
    var i := 0;
    while i < |txs|
      invariant 0 <= i <= |txs|
      invariant m == GroupedUpTo(txs, g, i)
    {
      var k := KeyOf(txs[i], g);
      if k !in m {
        m := m[k := []];
      }
      m := m[k := m[k] + [txs[i].amount]];
      i := i + 1;
    }
  }
}
