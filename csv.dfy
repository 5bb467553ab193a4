/** The ranks file reader of the card generator: `splitAndTrim` and
    `readCSV`, which turns the file's text into one map per data row from
    the upper-cased header names to the upper-cased fields. Line numbers in
    this module refer to CreateCards.jsx. */
module Csv {
  import opened Text

  type Row = map<string, string>

  /** What `readCSV` gives back: the rows, or the `TypeError` it raises when
      it reads the line at `index`, which does not exist. */
  datatype CsvResult = Rows(rows: seq<Row>) | ReadPastEnd(index: nat)

  /** The loop bounds `ROWSTART` and `ROWSTOP`. */
  const RowStart := 1
  const RowStop := 102

  // ---------------------------------------------------------------------------
  // splitAndTrim

  /** `line.split(",")` with every part trimmed. */
  function Fields(line: string): seq<string> {
    var raw := Split(line, ',');
    seq(|raw|, i requires 0 <= i < |raw| => Trim(raw[i]))
  }

  /** There is one field more than there are commas, no field holds a comma,
      and every field is already trimmed. */
  lemma FieldsShape(line: string)
    ensures |Fields(line)| == CountChar(line, ',') + 1
    ensures forall i :: 0 <= i < |Fields(line)| ==> ',' !in Fields(line)[i]
    ensures forall i :: 0 <= i < |Fields(line)| ==> Trim(Fields(line)[i]) == Fields(line)[i]
  {
    SplitCount(line, ',');
    SplitFieldsHaveNoSeparator(line, ',');
    var raw := Split(line, ',');
    forall i | 0 <= i < |raw|
      ensures ',' !in Fields(line)[i] && Trim(Fields(line)[i]) == Fields(line)[i]
    {
      TrimIdempotent(raw[i]);
      var lo :| TrimmedAt(raw[i], lo, Trim(raw[i]));
      assert forall c :: c in Trim(raw[i]) ==> c in raw[i];
    }
  }

  /** Lines 209-215: the parts are trimmed one by one in place. */
  method SplitAndTrim(line: string) returns (parts: seq<string>)
    ensures parts == Fields(line)
  {
    ghost var raw := Split(line, ',');
    parts := Split(line, ',');
    var i := 0;
    while i < |parts|
      invariant 0 <= i <= |parts| == |raw|
      invariant forall k :: 0 <= k < i ==> parts[k] == Trim(raw[k])
      invariant forall k :: i <= k < |parts| ==> parts[k] == raw[k]
    {
      parts := parts[i := Trim(parts[i])];
      i := i + 1;
    }
  }

  // ---------------------------------------------------------------------------
  // readCSV

  /** `content.split(/\r?\n/)`: split at every line feed and drop one carriage
      return before it; the last piece has no line feed after it and keeps a
      trailing carriage return. */
  function Lines(content: string): seq<string> {
    var raw := Split(content, '\n');
    seq(|raw|, i requires 0 <= i < |raw| =>
      if i < |raw| - 1 && raw[i] != [] && raw[i][|raw[i]| - 1] == '\r'
      then raw[i][..|raw[i]| - 1] else raw[i])
  }

  /** One line per line feed, plus one, and no line holds a line feed. */
  lemma LinesShape(content: string)
    ensures |Lines(content)| == CountChar(content, '\n') + 1
    ensures forall i :: 0 <= i < |Lines(content)| ==> '\n' !in Lines(content)[i]
  {
    SplitCount(content, '\n');
    SplitFieldsHaveNoSeparator(content, '\n');
    var raw := Split(content, '\n');
    forall i | 0 <= i < |raw|
      ensures '\n' !in Lines(content)[i]
    {
      assert forall c :: c in Lines(content)[i] ==> c in raw[i];
    }
  }

  /** Lines 185-189: the header names, upper-cased. */
  function Headers(line: string): seq<string> {
    var fields := Fields(line);
    seq(|fields|, h requires 0 <= h < |fields| => Upper(fields[h]))
  }

  /** `(valuesLine[j] || "").toUpperCase()`: a missing field reads as "". */
  function FieldValue(values: seq<string>, j: int): string {
    if 0 <= j < |values| then Upper(values[j]) else ""
  }

  /** Lines 199-202: the row object, filled header by header, so a repeated
      header keeps the field of its last column. */
  function RowOf(headers: seq<string>, values: seq<string>): Row
    decreases |headers|
  {
    if headers == [] then map[]
    else RowOf(headers[..|headers| - 1], values)[headers[|headers| - 1] := FieldValue(values, |headers| - 1)]
  }

  /** The row has exactly the header names as keys, and each name maps to
      the field of the last column that carries it. */
  lemma {:induction false} RowOfContents(headers: seq<string>, values: seq<string>)
    ensures forall k :: k in RowOf(headers, values) <==> k in headers
    ensures forall j :: 0 <= j < |headers| && (forall j' :: j < j' < |headers| ==> headers[j'] != headers[j])
              ==> RowOf(headers, values)[headers[j]] == FieldValue(values, j)
    decreases |headers|
  {
    if headers != [] {
      var front := headers[..|headers| - 1];
      RowOfContents(front, values);
      forall k
        ensures k in RowOf(headers, values) <==> k in headers
      {
        assert k in headers <==> k in front || k == headers[|headers| - 1] by {
          assert headers == front + [headers[|headers| - 1]];
        }
      }
      forall j | 0 <= j < |headers| && (forall j' :: j < j' < |headers| ==> headers[j'] != headers[j])
        ensures RowOf(headers, values)[headers[j]] == FieldValue(values, j)
      {
        if j < |headers| - 1 {
          assert front[j] == headers[j];
          assert forall j' :: j < j' < |front| ==> front[j'] != front[j] by {
            forall j' | j < j' < |front|
              ensures front[j'] != front[j]
            {
              assert front[j'] == headers[j'];
            }
          }
        }
      }
    }
  }

  /** The indices of the non-blank lines `RowStart .. stop - 1`, in order. */
  function RowLines(lines: seq<string>, stop: int): (ks: seq<int>)
    requires RowStart <= stop <= |lines|
    ensures |ks| <= stop - RowStart
    ensures forall k :: 0 <= k < |ks| ==> RowStart <= ks[k] < stop && !IsBlank(lines[ks[k]])
    decreases stop
  {
    if stop == RowStart then []
    else RowLines(lines, stop - 1) + (if IsBlank(lines[stop - 1]) then [] else [stop - 1])
  }

  /** The rows read from the non-blank lines `RowStart .. stop - 1`. */
  function DataRows(headers: seq<string>, lines: seq<string>, stop: int): (rows: seq<Row>)
    requires RowStart <= stop <= |lines|
    ensures |rows| == |RowLines(lines, stop)|
    decreases stop
  {
    if stop == RowStart then []
    else
      DataRows(headers, lines, stop - 1)
      + (if IsBlank(lines[stop - 1]) then [] else [RowOf(headers, Fields(lines[stop - 1]))])
  }

  /** Every non-blank line of the window is read, and the rows come in line order. */
  lemma {:induction false} RowLinesComplete(lines: seq<string>, stop: int)
    requires RowStart <= stop <= |lines|
    ensures forall i :: RowStart <= i < stop && !IsBlank(lines[i]) ==> i in RowLines(lines, stop)
    ensures forall k, k' :: 0 <= k < k' < |RowLines(lines, stop)| ==> RowLines(lines, stop)[k] < RowLines(lines, stop)[k']
    decreases stop
  {
    if stop > RowStart {
      RowLinesComplete(lines, stop - 1);
    }
  }

  /** With no blank line in the window, line `RowStart + k` gives row `k`. */
  lemma {:induction false} RowLinesWithoutBlanks(lines: seq<string>, stop: int)
    requires RowStart <= stop <= |lines|
    requires forall i :: RowStart <= i < stop ==> !IsBlank(lines[i])
    ensures |RowLines(lines, stop)| == stop - RowStart
    ensures forall k :: 0 <= k < stop - RowStart ==> RowLines(lines, stop)[k] == RowStart + k
    decreases stop
  {
    if stop > RowStart {
      RowLinesWithoutBlanks(lines, stop - 1);
    }
  }

  /** Row `r` is read from line `RowLines(lines, stop)[r]`. */
  lemma {:induction false} DataRowAt(headers: seq<string>, lines: seq<string>, stop: int, r: nat)
    requires RowStart <= stop <= |lines| && r < |RowLines(lines, stop)|
    ensures DataRows(headers, lines, stop)[r] == RowOf(headers, Fields(lines[RowLines(lines, stop)[r]]))
    decreases stop
  {
    var ks' := RowLines(lines, stop - 1);
    if r < |ks'| {
      DataRowAt(headers, lines, stop - 1, r);
      assert RowLines(lines, stop)[r] == ks'[r];
      assert DataRows(headers, lines, stop)[r] == DataRows(headers, lines, stop - 1)[r];
    }
  }

  /** Every row comes from a non-blank line of the window, and there are at
      most as many rows as lines in the window. */
  lemma DataRowsFromLines(headers: seq<string>, lines: seq<string>, stop: int)
    requires RowStart <= stop <= |lines|
    ensures |DataRows(headers, lines, stop)| <= stop - RowStart
    ensures forall r :: 0 <= r < |DataRows(headers, lines, stop)| ==>
              exists i :: RowStart <= i < stop && !IsBlank(lines[i])
                          && DataRows(headers, lines, stop)[r] == RowOf(headers, Fields(lines[i]))
  {
    var ks := RowLines(lines, stop);
    forall r | 0 <= r < |DataRows(headers, lines, stop)|
      ensures exists i :: RowStart <= i < stop && !IsBlank(lines[i])
                          && DataRows(headers, lines, stop)[r] == RowOf(headers, Fields(lines[i]))
    {
      DataRowAt(headers, lines, stop, r);
      var i := ks[r];
      assert RowStart <= i < stop && !IsBlank(lines[i]);
    }
  }

  /** When no line of the window is blank, row `i - RowStart` is read from
      line `i`. */
  lemma DataRowsWithoutBlanks(headers: seq<string>, lines: seq<string>, stop: int)
    requires RowStart <= stop <= |lines|
    requires forall i :: RowStart <= i < stop ==> !IsBlank(lines[i])
    ensures |DataRows(headers, lines, stop)| == stop - RowStart
    ensures forall i :: RowStart <= i < stop ==>
              DataRows(headers, lines, stop)[i - RowStart] == RowOf(headers, Fields(lines[i]))
  {
    RowLinesWithoutBlanks(lines, stop);
    var ks := RowLines(lines, stop);
    forall i | RowStart <= i < stop
      ensures DataRows(headers, lines, stop)[i - RowStart] == RowOf(headers, Fields(lines[i]))
    {
      DataRowAt(headers, lines, stop, i - RowStart);
      assert ks[i - RowStart] == i;
    }
  }

  /** Lines 173-205 as written: the loop runs to `ROWSTOP` whatever the number
      of lines, so any file with fewer than 102 lines fails at `lines.length`. */
  function ReadCsvSpec(content: string): CsvResult {
    if IsBlank(content) then Rows([])
    else
      var lines := Lines(content);
      if |lines| < 2 then Rows([])
      else if |lines| < RowStop then ReadPastEnd(|lines|)
      else Rows(DataRows(Headers(lines[0]), lines, RowStop))
  }

  /** The loop stopped at the last line when the file is shorter than the
      window. */
  function ReadCsvBoundedSpec(content: string): CsvResult {
    if IsBlank(content) then Rows([])
    else
      var lines := Lines(content);
      if |lines| < 2 then Rows([])
      else Rows(DataRows(Headers(lines[0]), lines, if |lines| < RowStop then |lines| else RowStop))
  }

  /** The reader as written fails on every non-blank file with a header line
      and fewer than 102 lines. */
  lemma ShortFileFails(content: string)
    requires !IsBlank(content) && 2 <= |Lines(content)| < RowStop
    ensures ReadCsvSpec(content).ReadPastEnd?
    ensures ReadCsvSpec(content).index == |Lines(content)|
  {
  }

  lemma OneRowLines()
    ensures !IsBlank("NAME\nBOB")
    ensures Lines("NAME\nBOB") == ["NAME", "BOB"]
  {
    var content := "NAME\nBOB";
    assert !IsSpace(content[0]);
    assert content == "NAME" + ['\n'] + "BOB";
    SplitAtOne("NAME", "BOB", '\n');
    var raw := Split(content, '\n');
    assert raw[0][|raw[0]| - 1] == 'E';
    assert Lines(content) == [raw[0], raw[1]];
  }

  /** A header and one data row: the reader as written fails ... */
  lemma OneRowFileFails()
    ensures ReadCsvSpec("NAME\nBOB") == ReadPastEnd(2)
  {
    OneRowLines();
  }

  /** ... and the bounded one reads the row. */
  lemma OneRowFileRead()
    ensures ReadCsvBoundedSpec("NAME\nBOB") == Rows([map["NAME" := "BOB"]])
  {
    var lines := Lines("NAME\nBOB");
    OneRowLines();
    OneField("NAME");
    assert Headers(lines[0]) == ["NAME"];
    OneRowData();
    assert ReadCsvBoundedSpec("NAME\nBOB") == Rows(DataRows(["NAME"], lines, 2));
  }

  lemma OneRowData()
    ensures DataRows(["NAME"], ["NAME", "BOB"], 2) == [map["NAME" := "BOB"]]
  {
    assert !IsBlank("BOB") by { assert !IsSpace("BOB"[0]); }
    OneField("BOB");
    assert RowOf(["NAME"], ["BOB"]) == map["NAME" := "BOB"] by {
      assert ["NAME"][..0] == [];
    }
  }

  lemma OneField(s: string)
    requires s != [] && ',' !in s && !IsSpace(s[0]) && !IsSpace(s[|s| - 1])
    requires forall i :: 0 <= i < |s| ==> !('a' <= s[i] <= 'z')
    ensures Fields(s) == [s]
    ensures Headers(s) == [s]
  {
    SplitWithoutSeparator(s, ',');
    TrimUnchanged(s);
    UpperUnchanged(s);
  }

  /** The bounded reader never fails, reads at most 101 rows, and agrees
      with the reader as written on every file that one accepts. */
  lemma BoundedReaderIsTotal(content: string)
    ensures ReadCsvBoundedSpec(content).Rows?
    ensures |ReadCsvBoundedSpec(content).rows| <= RowStop - RowStart
    ensures ReadCsvSpec(content).Rows? ==> ReadCsvSpec(content) == ReadCsvBoundedSpec(content)
  {
    if !IsBlank(content) {
      var lines := Lines(content);
      if |lines| >= 2 {
        DataRowsFromLines(Headers(lines[0]), lines, if |lines| < RowStop then |lines| else RowStop);
      }
    }
  }

  /** Lines 185-189: the headers are pushed one by one. */
  method UpperHeaders(line: string) returns (headers: seq<string>)
    ensures headers == Headers(line)
  {
    var headersLine := SplitAndTrim(line);
    headers := [];
    var h := 0;
    while h < |headersLine|
      invariant 0 <= h <= |headersLine|
      invariant headers == Headers(line)[..h]
    {
      headers := headers + [Upper(headersLine[h])];
      h := h + 1;
    }
  }

  /** Lines 199-202: the row object is filled header by header. */
  method ParseRow(headers: seq<string>, valuesLine: seq<string>) returns (row: Row)
    ensures row == RowOf(headers, valuesLine)
  {
    row := map[];
    var j := 0;
    while j < |headers|
      invariant 0 <= j <= |headers|
      invariant row == RowOf(headers[..j], valuesLine)
    {
      assert headers[..j + 1][..j] == headers[..j];
      row := row[headers[j] := if j < |valuesLine| then Upper(valuesLine[j]) else ""];
      j := j + 1;
    }
    assert headers[..|headers|] == headers;
  }

  /** Lines 191-204 for the window `RowStart .. stop - 1`. */
  method CollectRows(headers: seq<string>, lines: seq<string>, stop: int) returns (data: seq<Row>)
    requires RowStart <= stop <= |lines|
    ensures data == DataRows(headers, lines, stop)
  {
    data := [];
    var i := RowStart;
    while i < stop
      invariant RowStart <= i <= stop
      invariant data == DataRows(headers, lines, i)
    {
      if !IsBlank(lines[i]) {
        var valuesLine := SplitAndTrim(lines[i]);
        var row := ParseRow(headers, valuesLine);
        data := data + [row];
      }
      i := i + 1;
    }
  }

  /** `readCSV` as written. Its row loop needs `lines[i]` for every
      `i < ROWSTOP`; on a shorter file it raises as soon as `i` reaches
      `lines.length`, so the rows read before are never returned. */
  method ReadCsv(content: string) returns (r: CsvResult)
    ensures r == ReadCsvSpec(content)
  {
    if IsBlank(content) {
      return Rows([]);
    }
    var lines := Lines(content);
    if |lines| < 2 {
      return Rows([]);
    }
    var headers := UpperHeaders(lines[0]);
    if |lines| < RowStop {
      return ReadPastEnd(|lines|);
    }
    var data := CollectRows(headers, lines, RowStop);
    return Rows(data);
  }

  /** `readCSV` with the row loop bounded by the number of lines. */
  method ReadCsvBounded(content: string) returns (r: CsvResult)
    ensures r == ReadCsvBoundedSpec(content)
    ensures r.Rows? && |r.rows| <= RowStop - RowStart
  {
    BoundedReaderIsTotal(content);
    if IsBlank(content) {
      return Rows([]);
    }
    var lines := Lines(content);
    if |lines| < 2 {
      return Rows([]);
    }
    var headers := UpperHeaders(lines[0]);
    var stop := if |lines| < RowStop then |lines| else RowStop;
    var data := CollectRows(headers, lines, stop);
    return Rows(data);
  }
}
