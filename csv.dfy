/**
 * The text-to-rows step of the CSV upload on the data-input page: the file's
 * text is split into lines, line 0 gives the column names, and every later
 * line becomes one row whose cells are coerced with `Number()` when it
 * accepts them.
 */
module Csv {
  import Text
  import opened Values

  /** An optional sign followed by at least one decimal digit. */
  predicate IsSignedDigits(t: string) {
    if |t| >= 1 && (t[0] == '+' || t[0] == '-') then |t| >= 2 && Text.AllDigits(t[1..])
    else |t| >= 1 && Text.AllDigits(t)
  }

  /**
   * The strings `Number()` turns into a number rather than NaN, in the decimal-integer
   * fragment modelled here: after trimming, nothing at all (which is 0) or a signed
   * digit string.
   */
  predicate IsNumber(s: string) {
    var t := Text.Trim(s);
    t == [] || IsSignedDigits(t)
  }

  /** `Number(s)` for a string that `IsNumber` accepts. */
  function NumberValue(s: string): int
    requires IsNumber(s)
  {
    var t := Text.Trim(s);
    if t == [] then 0
    else if t[0] == '-' then 0 - Text.DigitsValue(t[1..])
    else if t[0] == '+' then Text.DigitsValue(t[1..])
    else Text.DigitsValue(t)
  }

  /**
   * `isNaN(Number(values[index])) ? values[index] : Number(values[index])`: a cell past
   * the end of a short line is `undefined`, and `Number(undefined)` is NaN.
   */
  function Cell(values: seq<string>, index: nat): Value
  {
    if index >= |values| then Undef
    else if IsNumber(values[index]) then Num(NumberValue(values[index]))
    else Str(values[index])
  }

  /** How a cell is stored: the four cases a caller can observe. */
  lemma CellCoercion(values: seq<string>, index: nat)
    ensures index >= |values| <==> Cell(values, index) == Undef
    ensures index < |values| && Text.Trim(values[index]) == "" ==> Cell(values, index) == Num(0)
    ensures index < |values| && IsNumber(values[index]) ==> Cell(values, index) == Num(NumberValue(values[index]))
    ensures index < |values| && !IsNumber(values[index]) ==> Cell(values, index) == Str(values[index])
  {
  }

  /** Coercion is stable: the decimal rendering of a number is read back as that number. */
  lemma {:induction false} NumberRoundTrip(n: int)
    ensures IsNumber(Text.IntToString(n))
    ensures NumberValue(Text.IntToString(n)) == n
    ensures Cell([Display(Num(n))], 0) == Num(n)
  {
    var m: nat := if n < 0 then -n else n;
    var digits := Text.NatToString(m);
    Text.NatToStringRoundTrip(m);
    var s := Text.IntToString(n);
    assert !Text.IsWhitespace(s[0]) && !Text.IsWhitespace(s[|s| - 1]) by {
      assert Text.IsDigit(digits[|digits| - 1]);
      assert s[|s| - 1] == digits[|digits| - 1];
    }
    Text.TrimFixed(s);
    if n < 0 {
      assert s[1..] == digits;
    }
  }

  /**
   * `obj[key] = v` on a plain object for a primitive `v`: the key `__proto__` names the
   * prototype setter, which ignores primitives, so it never becomes an own key.
   */
  function Assign(obj: Row, key: string, v: Value): Row
  {
    if key == "__proto__" then obj else obj[key := v]
  }

  /** The row the `headers.forEach` loop builds from one line's cells. */
  function RowOf(headers: seq<string>, values: seq<string>): Row
    decreases |headers|
  {
    if headers == [] then map[]
    else
      var n := |headers| - 1;
      Assign(RowOf(headers[..n], values), Text.Trim(headers[n]), Cell(values, n))
  }

  /** The own keys every row gets: the trimmed header cells. */
  function HeaderKeys(headers: seq<string>): set<string>
  {
    (set i | 0 <= i < |headers| :: Text.Trim(headers[i])) - {"__proto__"}
  }

  /** The header loop, filling the row field by field. */
  method BuildRow(headers: seq<string>, values: seq<string>) returns (obj: Row)
    ensures obj == RowOf(headers, values)
  {
    obj := map[];
    for i := 0 to |headers|
      invariant obj == RowOf(headers[..i], values)
    {
      assert headers[..i + 1][..i] == headers[..i];
      var key := Text.Trim(headers[i]);
      if key != "__proto__" {
        obj := obj[key := Cell(values, i)];
      }
    }
    assert headers[..|headers|] == headers;
  }

  /** Every row has exactly the trimmed header cells as keys, whatever the line holds. */
  lemma {:induction false} RowKeys(headers: seq<string>, values: seq<string>)
    ensures RowOf(headers, values).Keys == HeaderKeys(headers)
    decreases |headers|
  {
    if headers != [] {
      var n := |headers| - 1;
      RowKeys(headers[..n], values);
      HeaderKeysSnoc(headers);
    }
  }

  /** The header keys of a list are those of all but its last cell, plus that cell's. */
  lemma HeaderKeysSnoc(headers: seq<string>)
    requires headers != []
    ensures var n := |headers| - 1;
      HeaderKeys(headers) == HeaderKeys(headers[..n]) + ({Text.Trim(headers[n])} - {"__proto__"})
  {
    var n := |headers| - 1;
    var init := headers[..n];
    forall k | k in HeaderKeys(headers)
      ensures k in HeaderKeys(init) + ({Text.Trim(headers[n])} - {"__proto__"})
    {
      var i :| 0 <= i < |headers| && Text.Trim(headers[i]) == k && k != "__proto__";
      if i < n {
        assert init[i] == headers[i];
      }
    }
    forall k | k in HeaderKeys(init) ensures k in HeaderKeys(headers) {
      var i :| 0 <= i < |init| && Text.Trim(init[i]) == k && k != "__proto__";
      assert init[i] == headers[i];
    }
  }

  /**
   * The value under a column name comes from the LAST column with that trimmed name:
   * when two headers trim alike, the later column wins.
   */
  lemma {:induction false} RowLaterWins(headers: seq<string>, values: seq<string>, j: nat)
    requires j < |headers| && Text.Trim(headers[j]) != "__proto__"
    requires forall k :: j < k < |headers| ==> Text.Trim(headers[k]) != Text.Trim(headers[j])
    ensures Text.Trim(headers[j]) in RowOf(headers, values)
    ensures RowOf(headers, values)[Text.Trim(headers[j])] == Cell(values, j)
    decreases |headers|
  {
    var n := |headers| - 1;
    if j < n {
      assert headers[..n][j] == headers[j];
      forall k | j < k < n ensures Text.Trim(headers[..n][k]) != Text.Trim(headers[..n][j]) {
        assert headers[..n][k] == headers[k];
      }
      RowLaterWins(headers[..n], values, j);
    }
  }

  /** The raw lines of the file: `text.split("\n")`. */
  function Lines(text: string): seq<string>
  {
    Text.Split(text, '\n')
  }

  /** The header cells: `lines[0].split(",")`. */
  function Headers(text: string): seq<string>
  {
    Text.Split(Lines(text)[0], ',')
  }

  /** `lines.slice(1).map(...)`: one row per line after the header, in line order. */
  function ParseLines(headers: seq<string>, lines: seq<string>): (rows: seq<Row>)
    ensures |rows| == |lines|
    ensures forall i :: 0 <= i < |lines| ==> rows[i] == RowOf(headers, Text.Split(lines[i], ','))
  {
    seq(|lines|, i requires 0 <= i < |lines| => RowOf(headers, Text.Split(lines[i], ',')))
  }

  /** `data.filter((d) => Object.keys(d).length > 0)`. */
  function NonEmptyRows(rows: seq<Row>): (kept: seq<Row>)
    ensures |kept| <= |rows|
    ensures forall r :: r in kept <==> r in rows && r.Keys != {}
    ensures |rows| == 1 ==> kept == if rows[0].Keys != {} then rows else []
  {
    if rows == [] then []
    else (if rows[0].Keys != {} then [rows[0]] else []) + NonEmptyRows(rows[1..])
  }

  /** The filter works row by row: it keeps the rows in order, repeats included. */
  lemma {:induction false} NonEmptyRowsAppend(xs: seq<Row>, ys: seq<Row>)
    ensures NonEmptyRows(xs + ys) == NonEmptyRows(xs) + NonEmptyRows(ys)
  {
    if xs != [] {
      assert (xs + ys)[1..] == xs[1..] + ys;
      NonEmptyRowsAppend(xs[1..], ys);
    } else {
      assert xs + ys == ys;
    }
  }

  /** The filter keeps every row when no row is empty. */
  lemma {:induction false} NonEmptyRowsKeepsAll(rows: seq<Row>)
    requires forall i :: 0 <= i < |rows| ==> rows[i].Keys != {}
    ensures NonEmptyRows(rows) == rows
  {
    if rows != [] {
      NonEmptyRowsKeepsAll(rows[1..]);
    }
  }

  /** The rows the upload stores for a file's text. */
  function ParseCsv(text: string): seq<Row>
  {
    var lines := Lines(text);
    NonEmptyRows(ParseLines(Headers(text), lines[1..]))
  }

  /** The `onload` handler's computation: build each line's row in turn, then filter. */
  method ParseCsvText(text: string) returns (rows: seq<Row>)
    ensures rows == ParseCsv(text)
  {
    var lines := Text.Split(text, '\n');
    var headers := Text.Split(lines[0], ',');
    var data: seq<Row> := [];
    for i := 1 to |lines|
      invariant |data| == i - 1
      invariant forall j :: 0 <= j < i - 1 ==> data[j] == RowOf(headers, Text.Split(lines[j + 1], ','))
    {
      var row := BuildRow(headers, Text.Split(lines[i], ','));
      data := data + [row];
    }
    assert data == ParseLines(headers, lines[1..]);
    rows := NonEmptyRows(data);
  }

  /**
   * One row per newline in the text (a trailing empty line included), row `i` built from
   * line `i + 1`, each with exactly the header keys — unless every header cell trims to
   * `__proto__`, in which case every row is empty and the filter drops them all.
   */
  lemma ParseCsvShape(text: string)
    ensures HeaderKeys(Headers(text)) != {} ==>
      && |ParseCsv(text)| == Text.Count(text, '\n') == |Lines(text)| - 1
      && forall i :: 0 <= i < |ParseCsv(text)| ==>
           ParseCsv(text)[i] == RowOf(Headers(text), Text.Split(Lines(text)[i + 1], ','))
    ensures HeaderKeys(Headers(text)) == {} ==> ParseCsv(text) == []
    ensures forall r :: r in ParseCsv(text) ==> r.Keys == HeaderKeys(Headers(text))
  {
    var headers := Headers(text);
    var lines := Lines(text);
    var rows := ParseLines(headers, lines[1..]);
    forall i | 0 <= i < |rows| ensures rows[i].Keys == HeaderKeys(headers) {
      RowKeys(headers, Text.Split(lines[1..][i], ','));
    }
    if HeaderKeys(headers) != {} {
      NonEmptyRowsKeepsAll(rows);
    } else {
      NonEmptyRowsDropsEmpty(rows);
    }
  }

  lemma {:induction false} NonEmptyRowsDropsEmpty(rows: seq<Row>)
    requires forall i :: 0 <= i < |rows| ==> rows[i].Keys == {}
    ensures NonEmptyRows(rows) == []
  {
    if rows != [] {
      NonEmptyRowsDropsEmpty(rows[1..]);
    }
  }

  /**
   * The cell stored for row `i` under the name of header `j`, the last header with that
   * name: the coerced value of line `i + 1`'s `j`-th comma field.
   */
  lemma ParseCsvCell(text: string, i: nat, j: nat)
    requires HeaderKeys(Headers(text)) != {}
    requires i < |ParseCsv(text)|
    requires j < |Headers(text)| && Text.Trim(Headers(text)[j]) != "__proto__"
    requires forall k :: j < k < |Headers(text)| ==> Text.Trim(Headers(text)[k]) != Text.Trim(Headers(text)[j])
    ensures Text.Trim(Headers(text)[j]) in ParseCsv(text)[i]
    ensures ParseCsv(text)[i][Text.Trim(Headers(text)[j])] == Cell(Text.Split(Lines(text)[i + 1], ','), j)
  {
    ParseCsvShape(text);
    RowLaterWins(Headers(text), Text.Split(Lines(text)[i + 1], ','), j);
  }
}
