/** CSV output (crates/spotuify-cli/src/output.rs) and a reader for it that
    follows section 2 of RFC 4180. */
module CsvRows {
  import opened Wrappers

  // ---- Printing ----

  predicate Special(c: char)
  {
    c == ',' || c == '"' || c == '\n' || c == '\r'
  }

  function Doubled(s: string): (r: string)
  {
    if s == "" then "" else (if s[0] == '"' then "\"\"" else [s[0]]) + Doubled(s[1..])
  }

  function CsvValue(value: string): (r: string)
  {
    if exists i :: 0 <= i < |value| && Special(value[i]) then "\"" + Doubled(value) + "\"" else value
  }

  function CsvRow(values: seq<string>): (r: string)
  {
    if values == [] then ""
    else if |values| == 1 then CsvValue(values[0])
    else CsvValue(values[0]) + "," + CsvRow(values[1..])
  }

  /** Rows as they are printed, one line end after each. */
  function CsvLines(rows: seq<seq<string>>): (r: string)
  {
    if rows == [] then "" else CsvRow(rows[0]) + "\n" + CsvLines(rows[1..])
  }

  // ---- Reading ----

  /** Up to the closing quote (rules 5 to 7): the content and what follows. */
  function ReadQuoted(s: string): (r: Option<(string, string)>)
    ensures r.Some? ==> |r.value.1| < |s|
    decreases |s|
  {
    if s == "" then None
    else if s[0] == '"' && !(|s| > 1 && s[1] == '"') then Some(("", s[1..]))
    else
      match ReadQuoted(if s[0] == '"' then s[2..] else s[1..])
      case None => None
      case Some((content, rest)) => Some(([s[0]] + content, rest))
  }

  /** Up to the first special character or the end. */
  function ReadPlain(s: string): (r: (string, string))
    ensures |r.1| <= |s|
    decreases |s|
  {
    if s == "" || Special(s[0]) then ("", s)
    else
      var (content, rest) := ReadPlain(s[1..]);
      ([s[0]] + content, rest)
  }

  function ReadField(s: string): (r: Option<(string, string)>)
    ensures r.Some? ==> |r.value.1| <= |s|
  {
    if s != "" && s[0] == '"' then ReadQuoted(s[1..]) else Some(ReadPlain(s))
  }

  /** Fields separated by commas (rule 4), up to the end of the record. */
  function ReadRecord(s: string): (r: Option<(seq<string>, string)>)
    ensures r.Some? ==> |r.value.1| <= |s|
    decreases |s|
  {
    match ReadField(s)
    case None => None
    case Some((field, rest)) =>
      if rest == "" || rest[0] != ',' then Some(([field], rest))
      else
        match ReadRecord(rest[1..])
        case None => None
        case Some((fields, end)) => Some(([field] + fields, end))
  }

  /** The length of the line break at the start, CRLF or LF, if there is one. */
  function LineBreak(s: string): (r: nat)
    ensures r <= |s|
  {
    if |s| > 0 && s[0] == '\n' then 1 else if |s| > 1 && s[0] == '\r' && s[1] == '\n' then 2 else 0
  }

  /** Records ended by line breaks, the last one optional (rules 1 and 2). */
  function ReadTable(s: string): (r: Option<seq<seq<string>>>)
    decreases |s|
  {
    if s == "" then Some([])
    else
      match ReadRecord(s)
      case None => None
      case Some((fields, rest)) =>
        if rest == "" then Some([fields])
        else if LineBreak(rest) == 0 then None
        else
          match ReadTable(rest[LineBreak(rest)..])
          case None => None
          case Some(rows) => Some([fields] + rows)
  }

  // ---- Round trips ----

  lemma {:induction false} QuotedReadsBack(value: string, rest: string)
    requires rest == "" || rest[0] != '"'
    ensures ReadQuoted(Doubled(value) + ("\"" + rest)) == Some((value, rest))
    decreases |value|
  {
    var end := "\"" + rest;
    var s := Doubled(value) + end;
    if value == "" {
      assert s == end && s[1..] == rest;
    } else {
      QuotedReadsBack(value[1..], rest);
      var tail := Doubled(value[1..]) + end;
      if value[0] == '"' {
        assert s == "\"\"" + tail && s[2..] == tail && s[0] == '"' && s[1] == '"';
      } else {
        assert s == [value[0]] + tail && s[1..] == tail;
      }
      assert value == [value[0]] + value[1..];
    }
  }

  lemma {:induction false} PlainReadsBack(value: string, rest: string)
    requires forall i :: 0 <= i < |value| ==> !Special(value[i])
    requires rest == "" || Special(rest[0])
    ensures ReadPlain(value + rest) == (value, rest)
    decreases |value|
  {
    if value == "" {
      assert value + rest == rest;
    } else {
      assert (value + rest)[1..] == value[1..] + rest;
      PlainReadsBack(value[1..], rest);
      assert value == [value[0]] + value[1..];
    }
  }

  /** What may follow a field. */
  predicate Ends(rest: string)
  {
    rest == "" || rest[0] == ',' || rest[0] == '\n' || rest[0] == '\r'
  }

  lemma ValueReadsBack(value: string, rest: string)
    requires Ends(rest)
    ensures ReadField(CsvValue(value) + rest) == Some((value, rest))
  {
    hide Doubled, ReadQuoted, ReadPlain;
    var s := CsvValue(value) + rest;
    if exists i :: 0 <= i < |value| && Special(value[i]) {
      assert s[1..] == Doubled(value) + ("\"" + rest);
      QuotedReadsBack(value, rest);
    } else {
      PlainReadsBack(value, rest);
      assert s == "" || s[0] != '"';
    }
  }

  /** A printed row reads back as its fields, whatever they contain, and leaves
      what follows the row untouched. */
  lemma {:induction false} RowReadsBack(values: seq<string>, rest: string)
    requires values != []
    requires rest == "" || rest[0] == '\n' || rest[0] == '\r'
    ensures ReadRecord(CsvRow(values) + rest) == Some((values, rest))
    decreases |values|
  {
    hide CsvValue, ReadField;
    if |values| == 1 {
      ValueReadsBack(values[0], rest);
      assert values == [values[0]];
    } else {
      var more := CsvRow(values[1..]) + rest;
      var after := "," + more;
      assert CsvRow(values) + rest == CsvValue(values[0]) + after;
      ValueReadsBack(values[0], after);
      assert after[1..] == more;
      RowReadsBack(values[1..], rest);
      assert values == [values[0]] + values[1..];
    }
  }

  /** A whole printed table reads back: a line end inside a field never ends a row. */
  lemma {:induction false} TableReadsBack(rows: seq<seq<string>>)
    requires forall i :: 0 <= i < |rows| ==> rows[i] != []
    ensures ReadTable(CsvLines(rows)) == Some(rows)
    decreases |rows|
  {
    hide CsvRow, ReadRecord;
    if rows != [] {
      var rest := "\n" + CsvLines(rows[1..]);
      assert CsvLines(rows) == CsvRow(rows[0]) + rest;
      RowReadsBack(rows[0], rest);
      assert rest[1..] == CsvLines(rows[1..]);
      TableReadsBack(rows[1..]);
      assert rows == [rows[0]] + rows[1..];
    }
  }

  /** The empty list is the one list that does not come back. */
  lemma RowReadsBackIff(values: seq<string>)
    ensures ReadRecord(CsvRow(values)) == Some((values, "")) <==> values != []
  {
    if values != [] {
      RowReadsBack(values, "");
      assert CsvRow(values) + "" == CsvRow(values);
    } else {
      assert ReadPlain("") == ("", "");
    }
  }

  /** A value is quoted if and only if it has to be. */
  lemma QuotedIff(value: string)
    ensures CsvValue(value) == value <==> forall i :: 0 <= i < |value| ==> value[i] !in {',', '"', '\n', '\r'}
  {
    DoublingGrows(value);
  }

  lemma {:induction false} DoublingGrows(s: string)
    ensures |Doubled(s)| >= |s|
  {
    if s != "" {
      DoublingGrows(s[1..]);
    }
  }
}
