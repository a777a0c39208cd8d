/** The dashboards' `parseCSV`: the trimmed text is split into lines, the first line gives the
    trimmed header cells, and every later line with as many cells as there are headers becomes
    a record from header to trimmed cell. */
module Csv {
  import opened Text
  import opened Filtering

  /** A parsed row: a plain object whose own keys are header names. */
  type Record = map<string, string>

  /** `line.split(',').map(v => v.trim())`: even an empty line has one (empty) cell. */
  function Cells(line: string): (r: seq<string>)
    ensures |r| >= 1
  {
    var pieces := Split(line, ',');
    seq(|pieces|, k requires 0 <= k < |pieces| => Trim(pieces[k]))
  }

  /** `csvText.trim().split('\n')`: never empty. */
  function Lines(text: string): (r: seq<string>)
    ensures |r| >= 1
  {
    Split(Trim(text), '\n')
  }

  function Headers(text: string): seq<string> {
    Cells(Lines(text)[0])
  }

  /** The object `headers.forEach` has built after `n` headers: `obj[header] = values[index] || ''`.
      A later header of the same name overwrites an earlier one. */
  function RecordUpTo(headers: seq<string>, values: seq<string>, n: nat): Record
    requires n <= |headers|
  {
    if n == 0 then map[]
    else RecordUpTo(headers, values, n - 1)[headers[n - 1] := if n - 1 < |values| then values[n - 1] else ""]
  }

  function RecordOf(headers: seq<string>, values: seq<string>): Record {
    RecordUpTo(headers, values, |headers|)
  }

  /** The test `values.length === headers.length`, as a callback. */
  function Fits(headers: seq<string>): string -> bool {
    line => |Cells(line)| == |headers|
  }

  function Records(headers: seq<string>, lines: seq<string>): seq<Record> {
    seq(|lines|, j requires 0 <= j < |lines| => RecordOf(headers, Cells(lines[j])))
  }

  /** What `parseCSV` returns for a text: the records of the data lines that fit the header,
      so at most one per line after the header. */
  function Parsed(text: string): (r: seq<Record>)
    ensures |r| <= |Lines(text)| - 1
  {
    var lines := Lines(text);
    var headers := Cells(lines[0]);
    Records(headers, Filter(lines[1..], Fits(headers)))
  }

  /** `parseCSV`. */
  method ParseCsv(csvText: string) returns (data: seq<Record>)
    ensures data == Parsed(csvText)
  {
    var lines := Split(Trim(csvText), '\n');
    assert lines == Lines(csvText);
    var headers := Cells(lines[0]);
    ghost var body := lines[1..];
    data := [];
    var i := 1;
    while i < |lines|
      invariant 1 <= i <= |lines|
      invariant data == Records(headers, FilterUpTo(body, Fits(headers), i - 1))
    {
      var values := Cells(lines[i]);
      assert body[i - 1] == lines[i];
      KeepStep(headers, body, i - 1);
      if |values| == |headers| {
        var obj := BuildRecord(headers, values);
        data := data + [obj];
      }
      i := i + 1;
    }
    assert i - 1 == |body|;
    assert data == Records(headers, Filter(body, Fits(headers)));
  }

  /** The `headers.forEach` that fills one object. */
  method BuildRecord(headers: seq<string>, values: seq<string>) returns (obj: Record)
    requires |values| == |headers|
    ensures obj == RecordOf(headers, values)
  {
    obj := map[];
    var j := 0;
    while j < |headers|
      invariant 0 <= j <= |headers|
      invariant obj == RecordUpTo(headers, values, j)
    {
      obj := obj[headers[j] := values[j]];
      j := j + 1;
    }
  }

  /** One more data line adds its record exactly when it fits. */
  lemma KeepStep(headers: seq<string>, body: seq<string>, n: nat)
    requires n < |body|
    ensures Records(headers, FilterUpTo(body, Fits(headers), n + 1)) ==
      Records(headers, FilterUpTo(body, Fits(headers), n))
      + (if |Cells(body[n])| == |headers| then [RecordOf(headers, Cells(body[n]))] else [])
  {
    var before := FilterUpTo(body, Fits(headers), n);
    if |Cells(body[n])| == |headers| {
      assert FilterUpTo(body, Fits(headers), n + 1) == before + [body[n]];
      assert Records(headers, before + [body[n]]) == Records(headers, before) + [RecordOf(headers, Cells(body[n]))];
    } else {
      assert FilterUpTo(body, Fits(headers), n + 1) == before;
    }
  }

  lemma {:induction false} RecordUpToKeys(headers: seq<string>, values: seq<string>, n: nat)
    requires n <= |headers|
    ensures forall h :: h in RecordUpTo(headers, values, n) <==> h in headers[..n]
  {
    if n > 0 {
      RecordUpToKeys(headers, values, n - 1);
      assert headers[..n] == headers[..n - 1] + [headers[n - 1]];
    }
  }

  /** A header's value comes from the last column of that name. */
  predicate LastOf(headers: seq<string>, i: int) {
    0 <= i < |headers| && forall j :: i < j < |headers| ==> headers[j] != headers[i]
  }

  lemma {:induction false} RecordUpToLast(headers: seq<string>, values: seq<string>, n: nat, i: nat)
    requires n <= |headers| == |values|
    requires i < n && forall j :: i < j < n ==> headers[j] != headers[i]
    ensures headers[i] in RecordUpTo(headers, values, n)
    ensures RecordUpTo(headers, values, n)[headers[i]] == values[i]
  {
    if i < n - 1 {
      RecordUpToLast(headers, values, n - 1, i);
    }
  }

  lemma {:induction false} RecordUpToFrom(headers: seq<string>, values: seq<string>, n: nat, h: string)
    requires n <= |headers| == |values|
    requires h in RecordUpTo(headers, values, n)
    ensures RecordUpTo(headers, values, n)[h] in values
  {
    if h != headers[n - 1] {
      RecordUpToFrom(headers, values, n - 1, h);
    }
  }

  /** For a line that fits, the record's keys are exactly the header names, each holding the
      cell under the last column of that name, and every value is one of the cells. */
  lemma RecordOfMeaning(headers: seq<string>, values: seq<string>)
    requires |values| == |headers|
    ensures forall h :: h in RecordOf(headers, values) <==> h in headers
    ensures forall i :: LastOf(headers, i) ==> RecordOf(headers, values)[headers[i]] == values[i]
    ensures forall h :: h in RecordOf(headers, values) ==> RecordOf(headers, values)[h] in values
  {
    RecordUpToKeys(headers, values, |headers|);
    assert headers[..|headers|] == headers;
    forall i | LastOf(headers, i) ensures RecordOf(headers, values)[headers[i]] == values[i] {
      RecordUpToLast(headers, values, |headers|, i);
    }
    forall h | h in RecordOf(headers, values) ensures RecordOf(headers, values)[h] in values {
      RecordUpToFrom(headers, values, |headers|, h);
    }
  }

  /** Every cell is already trimmed. */
  lemma CellsTrimmed(line: string)
    ensures forall k :: 0 <= k < |Cells(line)| ==> Trim(Cells(line)[k]) == Cells(line)[k]
  {
    var pieces := Split(line, ',');
    forall k | 0 <= k < |pieces| ensures Trim(Trim(pieces[k])) == Trim(pieces[k]) {
      TrimIdempotent(pieces[k]);
    }
  }

  /** No cell contains a comma: a cell is a trimmed piece between commas. */
  lemma CellsHaveNoComma(line: string)
    ensures forall k :: 0 <= k < |Cells(line)| ==> ',' !in Cells(line)[k]
  {
    var pieces := Split(line, ',');
    SplitPieces(line, ',');
    forall k | 0 <= k < |pieces| ensures ',' !in Trim(pieces[k]) {
      TrimWithout(pieces[k], ',');
    }
  }

  /** A line without a comma is a single cell. */
  lemma CellsOfPlainLine(line: string)
    requires ',' !in line
    ensures Cells(line) == [Trim(line)]
  {
    SplitNoSeparator(line, ',');
  }

  /** The lines are the whole trimmed text: joined with newlines they give it back. */
  lemma LinesJoin(text: string)
    ensures Join(Lines(text), '\n') == Trim(text)
  {
    SplitJoin(Trim(text), '\n');
  }

  /** Every parsed record has exactly the header keys, and every value in it is trimmed text;
      there are at most as many records as data lines. */
  lemma ParsedShape(text: string)
    ensures |Parsed(text)| <= |Lines(text)| - 1
    ensures forall j, h :: 0 <= j < |Parsed(text)| ==> (h in Parsed(text)[j] <==> h in Headers(text))
    ensures forall j, h :: 0 <= j < |Parsed(text)| && h in Parsed(text)[j] ==>
      Trim(Parsed(text)[j][h]) == Parsed(text)[j][h]
  {
    var lines := Lines(text);
    var headers := Headers(text);
    var body := lines[1..];
    var kept := Filter(body, Fits(headers));
    FilterMeaning(body, Fits(headers));
    forall j | 0 <= j < |kept|
      ensures forall h :: h in Parsed(text)[j] <==> h in headers
      ensures forall h :: h in Parsed(text)[j] ==> Trim(Parsed(text)[j][h]) == Parsed(text)[j][h]
    {
      var ix := Kept(body, Fits(headers));
      assert Fits(headers)(body[ix[j]]);
      var values := Cells(kept[j]);
      RecordOfMeaning(headers, values);
      CellsTrimmed(kept[j]);
    }
  }

  /** No value in a parsed record contains a comma. */
  lemma ParsedHasNoComma(text: string)
    ensures forall j, h :: 0 <= j < |Parsed(text)| && h in Parsed(text)[j] ==> ',' !in Parsed(text)[j][h]
  {
    var lines := Lines(text);
    var headers := Headers(text);
    var body := lines[1..];
    var kept := Filter(body, Fits(headers));
    FilterMeaning(body, Fits(headers));
    forall j | 0 <= j < |kept|
      ensures forall h :: h in Parsed(text)[j] ==> ',' !in Parsed(text)[j][h]
    {
      var ix := Kept(body, Fits(headers));
      assert Fits(headers)(body[ix[j]]);
      var values := Cells(kept[j]);
      RecordOfMeaning(headers, values);
      CellsHaveNoComma(kept[j]);
    }
  }

  /** The records come from the data lines that fit the header, one each and in input order:
      record `j` is built from data line `Kept(..)[j]`, those positions increase, and a data
      line is used exactly when its cell count equals the header count. */
  lemma ParsedOrder(text: string)
    ensures var body, headers := Lines(text)[1..], Headers(text);
      var ix := Kept(body, Fits(headers));
      && |Parsed(text)| == |ix|
      && Increasing(ix)
      && (forall j :: 0 <= j < |ix| ==>
            ix[j] < |body| && Parsed(text)[j] == RecordOf(headers, Cells(body[ix[j]])))
      && (forall i :: 0 <= i < |body| ==> (|Cells(body[i])| == |headers| <==> i in ix))
  {
    var body, headers := Lines(text)[1..], Headers(text);
    FilterMeaning(body, Fits(headers));
  }

  /** Surrounding white space, and so a trailing newline, changes nothing. */
  lemma ParsedOfTrimmed(text: string)
    ensures Parsed(Trim(text)) == Parsed(text)
    ensures Parsed(text + "\n") == Parsed(text)
  {
    TrimIdempotent(text);
    TrimAppendSpace(text, '\n');
  }
}
