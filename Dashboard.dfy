/** The dashboards' views over parsed rows: the search filters, the risk-profile chart and the
    transaction-type chart. */
module Dashboard {
  import opened Text
  import opened Filtering
  import opened Csv

  const CustomerFields: seq<string> := ["name", "city", "account_type", "risk_profile"]
  const TransactionFields: seq<string> := ["transaction_id", "customer_id", "transaction_type"]

  /** `row.field?.toLowerCase().includes(term.toLowerCase())`: a missing field never matches. */
  predicate FieldMentions(row: Record, field: string, term: string) {
    field in row && Includes(Lower(row[field]), Lower(term))
  }

  /** The `||` chain of the filter callback over the listed fields. */
  predicate Mentions(row: Record, fields: seq<string>, term: string) {
    exists f :: f in fields && FieldMentions(row, f, term)
  }

  function Matcher(fields: seq<string>, term: string): Record -> bool {
    row => Mentions(row, fields, term)
  }

  /** `if (!searchTerm) return rows; return rows.filter(...)`. */
  function Search(rows: seq<Record>, fields: seq<string>, term: string): (r: seq<Record>)
    ensures |r| <= |rows|
  {
    if term == "" then rows else Filter(rows, Matcher(fields, term))
  }

  /** `getFilteredCustomers`, and the search effect of the customer analysis page. */
  function FilteredCustomers(customers: seq<Record>, term: string): (r: seq<Record>)
    ensures |r| <= |customers|
  {
    Search(customers, CustomerFields, term)
  }

  /** `getFilteredTransactions` and `getFilteredFraudCases`, which search the same fields. */
  function FilteredTransactions(rows: seq<Record>, term: string): (r: seq<Record>)
    ensures |r| <= |rows|
  {
    Search(rows, TransactionFields, term)
  }

  /** An empty search term shows every row. */
  lemma SearchEmpty(rows: seq<Record>, fields: seq<string>)
    ensures Search(rows, fields, "") == rows
  {
  }

  /** A non-empty search keeps, in their order, exactly the rows in which some listed field
      contains the term: row `j` of the result is input row `Kept(..)[j]`, those positions
      increase, and a row is kept exactly when it mentions the term. */
  lemma SearchMeaning(rows: seq<Record>, fields: seq<string>, term: string)
    requires term != ""
    ensures var ix, r := Kept(rows, Matcher(fields, term)), Search(rows, fields, term);
      && |r| == |ix| <= |rows|
      && Increasing(ix)
      && (forall j :: 0 <= j < |ix| ==> ix[j] < |rows| && r[j] == rows[ix[j]])
      && (forall i :: 0 <= i < |rows| ==> (Mentions(rows[i], fields, term) <==> i in ix))
  {
    FilterMeaning(rows, Matcher(fields, term));
  }

  /** The search ignores the case of the term. */
  lemma SearchCaseInsensitive(rows: seq<Record>, fields: seq<string>, term: string)
    ensures Search(rows, fields, Lower(term)) == Search(rows, fields, term)
  {
    if term != "" {
      LowerIdempotent(term);
      assert |Lower(term)| == |term| > 0;
      FilterCongruent(rows, Matcher(fields, Lower(term)), Matcher(fields, term));
    }
  }

  /** The customer search callback tests the name, the city, the account type and the risk
      profile, in that order. */
  lemma CustomerMatch(row: Record, term: string)
    ensures Mentions(row, CustomerFields, term) <==>
      FieldMentions(row, "name", term) || FieldMentions(row, "city", term) ||
      FieldMentions(row, "account_type", term) || FieldMentions(row, "risk_profile", term)
  {
    if FieldMentions(row, "name", term) {
      assert "name" in CustomerFields;
    } else if FieldMentions(row, "city", term) {
      assert "city" in CustomerFields;
    } else if FieldMentions(row, "account_type", term) {
      assert "account_type" in CustomerFields;
    } else if FieldMentions(row, "risk_profile", term) {
      assert "risk_profile" in CustomerFields;
    }
  }

  /** The transaction and fraud-case search callback tests the transaction id, the customer id
      and the transaction type. */
  lemma TransactionMatch(row: Record, term: string)
    ensures Mentions(row, TransactionFields, term) <==>
      FieldMentions(row, "transaction_id", term) || FieldMentions(row, "customer_id", term) ||
      FieldMentions(row, "transaction_type", term)
  {
    if FieldMentions(row, "transaction_id", term) {
      assert "transaction_id" in TransactionFields;
    } else if FieldMentions(row, "customer_id", term) {
      assert "customer_id" in TransactionFields;
    } else if FieldMentions(row, "transaction_type", term) {
      assert "transaction_type" in TransactionFields;
    }
  }

  /** One slice of a pie chart. */
  datatype Slice = Slice(name: string, value: nat, color: string)

  /** `c.risk_profile === level`: exact, case-sensitive equality; a missing field is `undefined`. */
  predicate HasRisk(row: Record, level: string) {
    "risk_profile" in row && row["risk_profile"] == level
  }

  function RiskIs(level: string): Record -> bool {
    row => HasRisk(row, level)
  }

  /** `customers.filter(c => c.risk_profile === level).length`. */
  function RiskCount(customers: seq<Record>, level: string): (r: nat)
    ensures r <= |customers|
  {
    |Filter(customers, RiskIs(level))|
  }

  /** `getRiskProfileData`: three slices, none counting more customers than there are. */
  function RiskProfileData(customers: seq<Record>): (r: seq<Slice>)
    ensures |r| == 3
    ensures forall i :: 0 <= i < |r| ==> r[i].value <= |customers|
  {
    [Slice("High Risk", RiskCount(customers, "High"), "#FF6B6B"),
     Slice("Medium Risk", RiskCount(customers, "Medium"), "#FFEAA7"),
     Slice("Low Risk", RiskCount(customers, "Low"), "#4ECDC4")]
  }

  /** Whether a row's risk profile is one of the three counted levels. */
  predicate Graded(row: Record) {
    HasRisk(row, "High") || HasRisk(row, "Medium") || HasRisk(row, "Low")
  }

  function GradedUpTo(customers: seq<Record>, n: nat): nat
    requires n <= |customers|
  {
    if n == 0 then 0 else GradedUpTo(customers, n - 1) + (if Graded(customers[n - 1]) then 1 else 0)
  }

  lemma {:induction false} RiskCountsUpTo(customers: seq<Record>, n: nat)
    requires n <= |customers|
    ensures |FilterUpTo(customers, RiskIs("High"), n)| + |FilterUpTo(customers, RiskIs("Medium"), n)|
      + |FilterUpTo(customers, RiskIs("Low"), n)| == GradedUpTo(customers, n) <= n
  {
    if n > 0 {
      RiskCountsUpTo(customers, n - 1);
    }
  }

  /** Each customer is counted at most once, so the three counts add up to the number of
      customers whose risk profile is exactly one of the levels, and never exceed the total. */
  lemma RiskCountsMeaning(customers: seq<Record>)
    ensures RiskCount(customers, "High") + RiskCount(customers, "Medium") + RiskCount(customers, "Low")
      == GradedUpTo(customers, |customers|) <= |customers|
  {
    RiskCountsUpTo(customers, |customers|);
  }

  /** When every customer has one of the three levels, the chart accounts for all of them. */
  lemma {:induction false} AllGraded(customers: seq<Record>, n: nat)
    requires n <= |customers|
    requires forall i :: 0 <= i < |customers| ==> Graded(customers[i])
    ensures GradedUpTo(customers, n) == n
  {
    if n > 0 {
      AllGraded(customers, n - 1);
    }
  }

  /** The risk-profile chart: one slice per level, in the order High, Medium, Low, with the
      counts of `RiskCountsMeaning`. */
  lemma RiskProfileDataMeaning(customers: seq<Record>)
    ensures |RiskProfileData(customers)| == 3
    ensures RiskProfileData(customers)[0].value + RiskProfileData(customers)[1].value
      + RiskProfileData(customers)[2].value <= |customers|
    ensures (forall i :: 0 <= i < |customers| ==> Graded(customers[i])) ==>
      RiskProfileData(customers)[0].value + RiskProfileData(customers)[1].value
      + RiskProfileData(customers)[2].value == |customers|
  {
    RiskCountsMeaning(customers);
    if forall i :: 0 <= i < |customers| ==> Graded(customers[i]) {
      AllGraded(customers, |customers|);
    }
  }

  const Colors: seq<string> := ["#FF6B6B", "#4ECDC4", "#45B7D1", "#96CEB4", "#FFEAA7", "#DDA0DD"]

  /** `if (type)`: the row has a non-empty transaction type. */
  predicate Typed(row: Record) {
    "transaction_type" in row && row["transaction_type"] != ""
  }

  /** The counts `typeCounts` holds after the first `n` rows. */
  function CountsUpTo(rows: seq<Record>, n: nat): map<string, nat>
    requires n <= |rows|
  {
    if n == 0 then map[]
    else
      var m := CountsUpTo(rows, n - 1);
      var row := rows[n - 1];
      if Typed(row) then
        var t := row["transaction_type"];
        m[t := (if t in m then m[t] else 0) + 1]
      else m
  }

  /** The order of `typeCounts`'s keys after the first `n` rows: first insertion. */
  function OrderUpTo(rows: seq<Record>, n: nat): seq<string>
    requires n <= |rows|
  {
    if n == 0 then []
    else
      var row := rows[n - 1];
      if Typed(row) && row["transaction_type"] !in CountsUpTo(rows, n - 1) then
        OrderUpTo(rows, n - 1) + [row["transaction_type"]]
      else OrderUpTo(rows, n - 1)
  }

  /** `Object.entries(typeCounts).map(([name, value], index) => ...)`. */
  function TypeSlices(order: seq<string>, counts: map<string, nat>): seq<Slice>
    requires forall i :: 0 <= i < |order| ==> order[i] in counts
  {
    seq(|order|, i requires 0 <= i < |order| => Slice(order[i], counts[order[i]], Colors[i % |Colors|]))
  }

  /** The number of rows among the first `n` whose type is `t`: the reference count. */
  function Occurrences(rows: seq<Record>, t: string, n: nat): nat
    requires n <= |rows|
  {
    if n == 0 then 0
    else Occurrences(rows, t, n - 1) + (if Typed(rows[n - 1]) && rows[n - 1]["transaction_type"] == t then 1 else 0)
  }

  /** The number of rows among the first `n` that have a type. */
  function TypedCount(rows: seq<Record>, n: nat): nat
    requires n <= |rows|
  {
    if n == 0 then 0 else TypedCount(rows, n - 1) + (if Typed(rows[n - 1]) then 1 else 0)
  }

  /** The sum of the counts along a key order. */
  function SumAlong(order: seq<string>, counts: map<string, nat>): nat {
    if order == [] then 0
    else SumAlong(order[..|order| - 1], counts) + (if order[|order| - 1] in counts then counts[order[|order| - 1]] else 0)
  }

  function SliceTotal(slices: seq<Slice>): nat {
    if slices == [] then 0 else SliceTotal(slices[..|slices| - 1]) + slices[|slices| - 1].value
  }

  predicate Distinct(order: seq<string>) {
    forall a, b :: 0 <= a < b < |order| ==> order[a] != order[b]
  }

  /** The dictionary counts each type's rows. */
  lemma {:induction false} CountsUpToMeaning(rows: seq<Record>, n: nat)
    requires n <= |rows|
    ensures forall t :: t in CountsUpTo(rows, n) <==> Occurrences(rows, t, n) > 0
    ensures forall t :: t in CountsUpTo(rows, n) ==> CountsUpTo(rows, n)[t] == Occurrences(rows, t, n)
  {
    if n > 0 {
      CountsUpToMeaning(rows, n - 1);
    }
  }

  /** The key order lists each counted type once, and the counts along it add up to the
      number of typed rows. */
  lemma {:induction false} OrderUpToMeaning(rows: seq<Record>, n: nat)
    requires n <= |rows|
    ensures forall t :: t in CountsUpTo(rows, n) <==> t in OrderUpTo(rows, n)
    ensures Distinct(OrderUpTo(rows, n))
    ensures SumAlong(OrderUpTo(rows, n), CountsUpTo(rows, n)) == TypedCount(rows, n)
    ensures |OrderUpTo(rows, n)| <= n
  {
    if n > 0 {
      OrderUpToMeaning(rows, n - 1);
      var m, order := CountsUpTo(rows, n - 1), OrderUpTo(rows, n - 1);
      var row := rows[n - 1];
      if Typed(row) {
        var t := row["transaction_type"];
        var m' := m[t := (if t in m then m[t] else 0) + 1];
        assert CountsUpTo(rows, n) == m';
        if t in m {
          assert OrderUpTo(rows, n) == order;
          SumAlongBump(order, m, t);
        } else {
          assert OrderUpTo(rows, n) == order + [t];
          SumAlongFresh(order, m, t, 1);
          assert (order + [t])[..|order|] == order;
        }
      } else {
        assert CountsUpTo(rows, n) == m && OrderUpTo(rows, n) == order;
      }
    }
  }

  /** Raising one listed key's count by one raises the sum by one. */
  lemma {:induction false} SumAlongBump(order: seq<string>, m: map<string, nat>, t: string)
    requires Distinct(order) && t in m && t in order
    ensures SumAlong(order, m[t := m[t] + 1]) == SumAlong(order, m) + 1
  {
    var last := order[|order| - 1];
    var init := order[..|order| - 1];
    assert Distinct(init);
    if last == t {
      assert t !in init;
      SumAlongFresh(init, m, t, m[t] + 1);
    } else {
      assert t in init;
      SumAlongBump(init, m, t);
    }
  }

  /** Setting a key that is not listed leaves the sum unchanged. */
  lemma {:induction false} SumAlongFresh(order: seq<string>, m: map<string, nat>, t: string, v: nat)
    requires t !in order
    ensures SumAlong(order, m[t := v]) == SumAlong(order, m)
  {
    if order != [] {
      SumAlongFresh(order[..|order| - 1], m, t, v);
    }
  }

  lemma {:induction false} SliceTotalAlong(order: seq<string>, counts: map<string, nat>)
    requires forall i :: 0 <= i < |order| ==> order[i] in counts
    ensures SliceTotal(TypeSlices(order, counts)) == SumAlong(order, counts)
  {
    if order != [] {
      var init := order[..|order| - 1];
      SliceTotalAlong(init, counts);
      assert TypeSlices(order, counts)[..|order| - 1] == TypeSlices(init, counts);
    }
  }

  /** What `getTransactionTypeData` returns: at most one slice per row. */
  function TypeData(rows: seq<Record>): (r: seq<Slice>)
    ensures |r| <= |rows|
  {
    OrderUpToMeaning(rows, |rows|);
    TypeSlices(OrderUpTo(rows, |rows|), CountsUpTo(rows, |rows|))
  }

  /** `getTransactionTypeData`: the `forEach` tally into `typeCounts`, then one slice per key. */
  method TransactionTypeData(transactions: seq<Record>) returns (slices: seq<Slice>)
    ensures slices == TypeData(transactions)
  {
    var typeCounts: map<string, nat> := map[];
    var keys: seq<string> := [];
    var i := 0;
    while i < |transactions|
      invariant 0 <= i <= |transactions|
      invariant typeCounts == CountsUpTo(transactions, i)
      invariant keys == OrderUpTo(transactions, i)
    {
      var transaction := transactions[i];
      if "transaction_type" in transaction && transaction["transaction_type"] != "" {
        var t := transaction["transaction_type"];
        if t !in typeCounts {
          keys := keys + [t];
        }
        typeCounts := typeCounts[t := (if t in typeCounts then typeCounts[t] else 0) + 1];
      }
      i := i + 1;
    }
    OrderUpToMeaning(transactions, |transactions|);
    slices := TypeSlices(keys, typeCounts);
  }

  lemma TypeDataShape(rows: seq<Record>)
    ensures var d, order := TypeData(rows), OrderUpTo(rows, |rows|);
      && |d| == |order|
      && forall i :: 0 <= i < |d| ==>
        && order[i] in CountsUpTo(rows, |rows|)
        && d[i] == Slice(order[i], CountsUpTo(rows, |rows|)[order[i]], Colors[i % 6])
  {
    OrderUpToMeaning(rows, |rows|);
  }

  /** Slices named along a key order without repeats carry distinct names, and exactly the
      keys of the order. */
  lemma NamesAlong(d: seq<Slice>, order: seq<string>)
    requires |d| == |order| && Distinct(order)
    requires forall i :: 0 <= i < |d| ==> d[i].name == order[i]
    ensures forall a, b :: 0 <= a < b < |d| ==> d[a].name != d[b].name
    ensures forall t :: t in order <==> exists i :: 0 <= i < |d| && d[i].name == t
  {
    forall t | t in order ensures exists i :: 0 <= i < |d| && d[i].name == t {
      var i :| 0 <= i < |order| && order[i] == t;
      assert d[i].name == t;
    }
  }

  /** The transaction-type chart has one slice per distinct non-empty type. */
  lemma TypeDataNames(rows: seq<Record>)
    ensures var d := TypeData(rows);
      && (forall a, b :: 0 <= a < b < |d| ==> d[a].name != d[b].name)
      && (forall t :: Occurrences(rows, t, |rows|) > 0 <==> exists i :: 0 <= i < |d| && d[i].name == t)
  {
    var order := OrderUpTo(rows, |rows|);
    CountsUpToMeaning(rows, |rows|);
    OrderUpToMeaning(rows, |rows|);
    TypeDataShape(rows);
    NamesAlong(TypeData(rows), order);
  }

  /** Each slice holds the number of rows of its type, so at least one, and is coloured by its
      position in the six-colour cycle. */
  lemma TypeDataValues(rows: seq<Record>)
    ensures var d := TypeData(rows);
      && (forall i :: 0 <= i < |d| ==> d[i].value == Occurrences(rows, d[i].name, |rows|) >= 1)
      && (forall i :: 0 <= i < |d| ==> d[i].color == Colors[i % 6])
  {
    CountsUpToMeaning(rows, |rows|);
    TypeDataShape(rows);
  }

  /** The slice values add up to the number of rows that have a type. */
  lemma TypeDataTotal(rows: seq<Record>)
    ensures SliceTotal(TypeData(rows)) == TypedCount(rows, |rows|)
  {
    OrderUpToMeaning(rows, |rows|);
    SliceTotalAlong(OrderUpTo(rows, |rows|), CountsUpTo(rows, |rows|));
  }
}
