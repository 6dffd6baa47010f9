/**
 * `readCSVSync` (helpers/dataUtils/csvUtil.ts) on the file's text: the
 * trimmed text is split into lines, the first line gives the headers, and
 * every further line becomes one row keyed by the trimmed headers. Commas
 * always split; there is no quoting.
 *
 * Each row is filled by a loop over the headers (`FillRow`, called by
 * `RowFrom`); the rows of the whole file come from a loop over the lines
 * (`ReadCsv`). `RowOf` and `ParseCsv` are the functions those loops are
 * proved against.
 */
module CsvUtil {
  import opened Text

  /** One parsed row: header name to value. */
  type Row = map<string, string>

  /** `s.map(f)`. */
  function Map<A, B>(s: seq<A>, f: A -> B): (r: seq<B>)
    ensures |r| == |s| && forall i :: 0 <= i < |s| ==> r[i] == f(s[i])
  {
    seq(|s|, i requires 0 <= i < |s| => f(s[i]))
  }

  /** `[f(0), f(1), …, f(n - 1)]`. */
  function Tabulate<B>(n: nat, f: nat -> B): (r: seq<B>)
    ensures |r| == n && forall i :: 0 <= i < n ==> r[i] == f(i)
  {
    seq(n, i requires 0 <= i < n => f(i))
  }

  /** The map that assigning `keys[i] := values[i]` for i = 0, 1, …, n - 1 in turn leaves: a later equal key overwrites. */
  function AssignUpTo<K, V>(keys: seq<K>, values: seq<V>, n: nat): map<K, V>
    requires n <= |keys| == |values|
  {
    if n == 0 then map[]
    else AssignUpTo(keys, values, n - 1)[keys[n - 1] := values[n - 1]]
  }

  /** `values[index]?.trim() || ''`. */
  function FieldValue(values: seq<string>, index: nat): string
  {
    if index < |values| then Trim(values[index]) else ""
  }

  /** The value written for the column at `index`. */
  function FieldOf(values: seq<string>): nat -> string
  {
    (index: nat) => FieldValue(values, index)
  }

  /** The row the `headers.forEach` assignment loop leaves: each trimmed header in turn gets its column's field. */
  function RowOf(headers: seq<string>, values: seq<string>): Row
  {
    AssignUpTo(Map(headers, Trim), Tabulate(|headers|, FieldOf(values)), |headers|)
  }

  /** The row of one data line. */
  function LineToRow(headers: seq<string>): string -> Row
  {
    line => RowOf(headers, Split(line, ','))
  }

  /** The lines of the trimmed text: the pieces between its line breaks. */
  function Lines(text: string): (r: seq<string>)
    ensures |r| >= 1
    ensures Join(r, "\n") == Trim(text)
    ensures forall i :: 0 <= i < |r| ==> '\n' !in r[i]
  {
    JoinSplit(Trim(text), '\n');
    Split(Trim(text), '\n')
  }

  /** `readCSVSync` on the file's text. */
  function ParseCsv(text: string): (rows: seq<Row>)
    ensures |rows| == |Lines(text)| - 1
    ensures forall i :: 0 <= i < |rows| ==> rows[i] == RowOf(Split(Lines(text)[0], ','), Split(Lines(text)[i + 1], ','))
  {
    var lines := Lines(text);
    Map(lines[1..], LineToRow(Split(lines[0], ',')))
  }

  /**
   * `headers.forEach((header, index) => row[keyOf(header)] = valueAt(index))`
   * on a fresh row: the assignments made in column order.
   */
  method FillRow(headers: seq<string>, keyOf: string -> string, valueAt: nat -> string) returns (row: Row)
    ensures row == AssignUpTo(Map(headers, keyOf), Tabulate(|headers|, valueAt), |headers|)
  {
    ghost var keys, values := Map(headers, keyOf), Tabulate(|headers|, valueAt);
    row := map[];
    var index := 0;
    while index < |headers|
      invariant 0 <= index <= |headers|
      invariant row == AssignUpTo(keys, values, index)
    {
      row := row[keyOf(headers[index]) := valueAt(index)];
      index := index + 1;
    }
  }

  /** The callback of `lines.map`: the line's comma-separated values keyed by the trimmed headers. */
  method RowFrom(headers: seq<string>, line: string) returns (row: Row)
    ensures row == RowOf(headers, Split(line, ','))
  {
    var values := Split(line, ',');
    row := FillRow(headers, Trim, FieldOf(values));
  }

  /** `readCSVSync`: one row per line after the header line. */
  method ReadCsv(text: string) returns (rows: seq<Row>)
    ensures rows == ParseCsv(text)
  {
    var lines := Lines(text);
    var headers := Split(lines[0], ',');
    rows := RowsFrom(headers, lines[1..]);
  }

  /** `lines.slice(1).map(...)`: the row of each data line, in order. */
  method RowsFrom(headers: seq<string>, rest: seq<string>) returns (rows: seq<Row>)
    ensures |rows| == |rest|
    ensures forall k :: 0 <= k < |rest| ==> rows[k] == RowOf(headers, Split(rest[k], ','))
  {
    rows := [];
    var i := 0;
    while i < |rest|
      invariant 0 <= i <= |rest|
      invariant |rows| == i
      invariant forall k :: 0 <= k < i ==> rows[k] == RowOf(headers, Split(rest[k], ','))
    {
      var row := RowFrom(headers, rest[i]);
      rows := rows + [row];
      i := i + 1;
    }
  }

  // ---------------------------------------------------------------------------
  // properties

  /** One row per line of the trimmed text after the first; a text with only a header line gives no rows. */
  lemma {:induction false} RowCount(text: string)
    ensures |ParseCsv(text)| == |Lines(text)| - 1
    ensures '\n' !in Trim(text) ==> ParseCsv(text) == []
  {
    if '\n' !in Trim(text) {
      SplitWithoutSeparator(Trim(text), '\n');
    }
  }

  /** The keys of the map are exactly the keys assigned. */
  lemma {:induction false} AssignedKeys<K, V>(keys: seq<K>, values: seq<V>, n: nat, key: K)
    requires n <= |keys| == |values|
    ensures key in AssignUpTo(keys, values, n) <==> exists i :: 0 <= i < n && keys[i] == key
  {
    if n > 0 {
      AssignedKeys(keys, values, n - 1, key);
    }
  }

  /** A key holds the value of its LAST assignment. */
  lemma {:induction false} LastAssignmentWins<K, V>(keys: seq<K>, values: seq<V>, n: nat, i: nat)
    requires i < n <= |keys| == |values|
    requires forall j :: i < j < n ==> keys[j] != keys[i]
    ensures keys[i] in AssignUpTo(keys, values, n)
    ensures AssignUpTo(keys, values, n)[keys[i]] == values[i]
  {
    if i < n - 1 {
      LastAssignmentWins(keys, values, n - 1, i);
    }
  }

  /** Every value of the map is one of the values assigned. */
  lemma {:induction false} AssignedValues<K, V>(keys: seq<K>, values: seq<V>, n: nat, key: K) returns (i: nat)
    requires n <= |keys| == |values|
    requires key in AssignUpTo(keys, values, n)
    ensures i < n && AssignUpTo(keys, values, n)[key] == values[i]
  {
    if keys[n - 1] != key {
      i := AssignedValues(keys, values, n - 1, key);
    } else {
      i := n - 1;
    }
  }

  /** The keys of a row are exactly the trimmed headers. */
  lemma {:induction false} RowKeys(headers: seq<string>, values: seq<string>, key: string)
    ensures key in RowOf(headers, values) <==> exists i :: 0 <= i < |headers| && Trim(headers[i]) == key
  {
    var keys := Map(headers, Trim);
    AssignedKeys(keys, Tabulate(|headers|, FieldOf(values)), |headers|, key);
    if exists i :: 0 <= i < |headers| && Trim(headers[i]) == key {
      var i :| 0 <= i < |headers| && Trim(headers[i]) == key;
      assert keys[i] == key;
    }
  }

  /** The value under a header is the field of the LAST column whose header trims to that name. */
  lemma {:induction false} LaterColumnWins(headers: seq<string>, values: seq<string>, i: nat)
    requires i < |headers|
    requires forall j :: i < j < |headers| ==> Trim(headers[j]) != Trim(headers[i])
    ensures Trim(headers[i]) in RowOf(headers, values)
    ensures RowOf(headers, values)[Trim(headers[i])] == FieldValue(values, i)
  {
    var keys, fields := Map(headers, Trim), Tabulate(|headers|, FieldOf(values));
    forall j | i < j < |headers|
      ensures keys[j] != keys[i]
    {
      assert keys[j] == Trim(headers[j]);
    }
    LastAssignmentWins(keys, fields, |headers|, i);
  }

  /** Every value of a row is a trimmed field: it neither begins nor ends with whitespace (so a CRLF line loses its `\r`), and it contains no comma. */
  lemma {:induction false} ValuesAreTrimmedFields(headers: seq<string>, line: string, key: string)
    requires key in RowOf(headers, Split(line, ','))
    ensures var v := RowOf(headers, Split(line, ','))[key];
      (|v| > 0 ==> !IsWhitespace(v[0]) && !IsWhitespace(v[|v| - 1])) && ',' !in v
  {
    var values := Split(line, ',');
    var fields := Tabulate(|headers|, FieldOf(values));
    var i := AssignedValues(Map(headers, Trim), fields, |headers|, key);
    assert fields[i] == FieldValue(values, i);
    if i < |values| {
      assert ',' !in values[i];
    }
  }

  /** A blank line (empty, or only whitespace such as the `\r` of a CRLF file) gives a row whose every value is the empty string. */
  lemma {:induction false} BlankLineRow(headers: seq<string>, line: string, key: string)
    requires AllWhitespace(line)
    requires key in RowOf(headers, Split(line, ','))
    ensures RowOf(headers, Split(line, ','))[key] == ""
  {
    var values := Split(line, ',');
    var fields := Tabulate(|headers|, FieldOf(values));
    var i := AssignedValues(Map(headers, Trim), fields, |headers|, key);
    assert fields[i] == FieldValue(values, i);
    if i < |values| {
      SplitKeepsWhitespace(line, ',', i);
      WhitespaceTrimsAway(values[i]);
    }
  }
}
