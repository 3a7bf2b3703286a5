/**
 * The CSV branch of the chat box's export: a header line of the first row's
 * keys joined by commas, then one line per row with one quoted field per
 * header, lines joined by newlines. Fields follow the quoting of section 2 of
 * RFC 4180 (rules 5 to 7): enclosed in double quotes, inner quotes doubled.
 */
module CsvExport {
  import opened Wrappers
  import opened Text
  import opened Entries

  /**
   * `row[header]?.toString() || ""`: the text of the first entry with the
   * key; empty when the row has no such key or its value is null or undefined.
   */
  function CellText(row: Row, key: string): (s: string)
    ensures key !in Keys(row) ==> s == ""
    ensures forall k :: 0 <= k < |row| && row[k].0 == key && key !in Keys(row[..k]) ==> s == row[k].1.GetOr("")
  {
    Find(row, key, None).GetOr("")
  }

  /** Every double quote doubled (`.replace(/"/g, '""')`). */
  function EscapeQuotes(s: string): (r: string)
    ensures |r| == |s| + CountChar(s, '"')
  {
    if |s| == 0 then ""
    else (if s[0] == '"' then "\"\"" else [s[0]]) + EscapeQuotes(s[1..])
  }

  /** One CSV field: the escaped text between double quotes. */
  function QuoteField(s: string): string {
    "\"" + EscapeQuotes(s) + "\""
  }

  /** The quoted fields of `row`, one per header, in header order. */
  function Fields(row: Row, headers: seq<string>): (fs: seq<string>)
    ensures |fs| == |headers|
    ensures forall k :: 0 <= k < |headers| ==> fs[k] == QuoteField(CellText(row, headers[k]))
  {
    if |headers| == 0 then [] else [QuoteField(CellText(row, headers[0]))] + Fields(row, headers[1..])
  }

  /** The texts a data line carries, one per header. */
  function Cells(row: Row, headers: seq<string>): (cs: seq<string>)
    ensures |cs| == |headers|
    ensures forall k :: 0 <= k < |headers| ==> cs[k] == CellText(row, headers[k])
  {
    if |headers| == 0 then [] else [CellText(row, headers[0])] + Cells(row, headers[1..])
  }

  function HeaderLine(headers: seq<string>): string {
    Join(headers, ",")
  }

  function DataLine(row: Row, headers: seq<string>): string {
    Join(Fields(row, headers), ",")
  }

  function DataLines(rows: seq<Row>, headers: seq<string>): (ls: seq<string>)
    ensures |ls| == |rows|
    ensures forall k :: 0 <= k < |rows| ==> ls[k] == DataLine(rows[k], headers)
  {
    if |rows| == 0 then [] else [DataLine(rows[0], headers)] + DataLines(rows[1..], headers)
  }

  /** The exported text: the unquoted header line of the first row's keys, then a line per row. */
  function Csv(rows: seq<Row>): (r: string)
    requires |rows| > 0
    ensures StartsWith(r, HeaderLine(Keys(rows[0])) + "\n")
  {
    var headers := Keys(rows[0]);
    Join([HeaderLine(headers)] + DataLines(rows, headers), "\n")
  }

  // ---------------------------------------------------------------------------
  // Reading fields back

  /**
   * Reads escaped field content up to its closing quote: a doubled quote
   * stands for one quote, a single quote ends the field. Yields the content
   * and the text after the closing quote, or `None` when the quote is missing.
   */
  function ReadEscaped(t: string): (r: Option<(string, string)>)
    ensures r.Some? ==> |r.value.1| < |t|
  {
    if |t| == 0 then None
    else if t[0] == '"' then
      if |t| > 1 && t[1] == '"' then
        match ReadEscaped(t[2..])
        case None => None
        case Some((v, rest)) => Some(("\"" + v, rest))
      else Some(("", t[1..]))
    else
      match ReadEscaped(t[1..])
      case None => None
      case Some((v, rest)) => Some(([t[0]] + v, rest))
  }

  /** Strips a field's outer quotes and collapses doubled quotes; `None` if it is not one quoted field. */
  function Unquote(f: string): Option<string> {
    if |f| == 0 || f[0] != '"' then None
    else
      match ReadEscaped(f[1..])
      case Some((v, rest)) => if rest == "" then Some(v) else None
      case None => None
  }

  /** Parses comma-separated quoted fields (at least one). */
  function ParseFields(t: string): Option<seq<string>>
    decreases |t|
  {
    if |t| == 0 || t[0] != '"' then None
    else
      match ReadEscaped(t[1..])
      case None => None
      case Some((v, rest)) =>
        if rest == "" then Some([v])
        else if rest[0] == ',' then
          match ParseFields(rest[1..])
          case None => None
          case Some(vs) => Some([v] + vs)
        else None
  }

  /** Parses a data line; the empty line holds no fields. */
  function ParseLine(line: string): Option<seq<string>> {
    if line == "" then Some([]) else ParseFields(line)
  }

  /** Prepends `c` to the content read, if any. */
  function Prepend(c: char, r: Option<(string, string)>): Option<(string, string)> {
    match r
    case None => None
    case Some((v, rest)) => Some(([c] + v, rest))
  }

  lemma ReadDoubledQuote(t: string)
    ensures ReadEscaped("\"\"" + t) == Prepend('"', ReadEscaped(t))
  {
    assert ("\"\"" + t)[2..] == t;
  }

  lemma ReadPlainChar(c: char, t: string)
    requires c != '"'
    ensures ReadEscaped([c] + t) == Prepend(c, ReadEscaped(t))
  {
    assert ([c] + t)[1..] == t;
  }

  lemma ReadClosingQuote(rest: string)
    requires |rest| == 0 || rest[0] != '"'
    ensures ReadEscaped("\"" + rest) == Some(("", rest))
  {
    assert ("\"" + rest)[1..] == rest;
  }

  /** Escaped content followed by the closing quote reads back to the original text. */
  lemma {:induction false} ReadEscapedRoundTrip(s: string, rest: string)
    requires |rest| == 0 || rest[0] != '"'
    ensures ReadEscaped(EscapeQuotes(s) + "\"" + rest) == Some((s, rest))
  {
    if |s| == 0 {
      assert EscapeQuotes(s) + "\"" + rest == "\"" + rest;
      ReadClosingQuote(rest);
    } else {
      ReadEscapedRoundTrip(s[1..], rest);
      var tail := EscapeQuotes(s[1..]) + "\"" + rest;
      if s[0] == '"' {
        assert EscapeQuotes(s) + "\"" + rest == "\"\"" + tail;
        ReadDoubledQuote(tail);
      } else {
        assert EscapeQuotes(s) + "\"" + rest == [s[0]] + tail;
        ReadPlainChar(s[0], tail);
      }
      assert s == [s[0]] + s[1..];
    }
  }

  /** Stripping a field's outer quotes and collapsing `""` gives back its text exactly. */
  lemma QuoteRoundTrip(s: string)
    ensures Unquote(QuoteField(s)) == Some(s)
  {
    ReadEscapedRoundTrip(s, "");
    assert QuoteField(s)[1..] == EscapeQuotes(s) + "\"" + "";
  }

  /** A line of quoted fields parses back to exactly the texts it was built from. */
  lemma {:induction false} ParseJoinedFields(vals: seq<string>)
    requires |vals| > 0
    ensures ParseFields(Join(QuoteAll(vals), ",")) == Some(vals)
  {
    var v := vals[0];
    if |vals| == 1 {
      ParseOneField(v);
      assert Join(QuoteAll(vals), ",") == QuoteField(v);
      assert vals == [v];
    } else {
      ParseJoinedFields(vals[1..]);
      var tail := Join(QuoteAll(vals[1..]), ",");
      assert QuoteAll(vals)[1..] == QuoteAll(vals[1..]);
      assert Join(QuoteAll(vals), ",") == QuoteField(v) + "," + tail;
      ParseFieldThenMore(v, tail);
      assert vals == [v] + vals[1..];
    }
  }

  lemma ParseOneField(v: string)
    ensures ParseFields(QuoteField(v)) == Some([v])
  {
    var t := QuoteField(v);
    ReadEscapedRoundTrip(v, "");
    assert t[1..] == EscapeQuotes(v) + "\"" + "";
  }

  lemma ParseFieldThenMore(v: string, tail: string)
    ensures ParseFields(QuoteField(v) + "," + tail) ==
      match ParseFields(tail)
      case None => None
      case Some(vs) => Some([v] + vs)
  {
    var t := QuoteField(v) + "," + tail;
    ReadEscapedRoundTrip(v, "," + tail);
    assert t[1..] == EscapeQuotes(v) + "\"" + ("," + tail);
    assert ("," + tail)[1..] == tail;
  }

  function QuoteAll(vals: seq<string>): (fs: seq<string>)
    ensures |fs| == |vals|
    ensures forall k :: 0 <= k < |vals| ==> fs[k] == QuoteField(vals[k])
  {
    if |vals| == 0 then [] else [QuoteField(vals[0])] + QuoteAll(vals[1..])
  }

  /**
   * Every data line holds exactly one field per header, in header order,
   * with empty text where the row lacks the key: parsing the line gives
   * back the row's cell texts.
   */
  lemma DataLineRoundTrip(row: Row, headers: seq<string>)
    ensures ParseLine(DataLine(row, headers)) == Some(Cells(row, headers))
  {
    var cells := Cells(row, headers);
    assert Fields(row, headers) == QuoteAll(cells);
    if |headers| > 0 {
      ParseJoinedFields(cells);
      assert DataLine(row, headers) != "" by {
        JoinStartsWithFirst(Fields(row, headers), ",");
        assert |Fields(row, headers)[0]| >= 2;
      }
    }
  }

  // ---------------------------------------------------------------------------
  // Line structure

  lemma {:induction false} EscapeAvoidsChar(s: string, c: char)
    requires c != '"' && c !in s
    ensures c !in EscapeQuotes(s)
  {
    if |s| > 0 {
      EscapeAvoidsChar(s[1..], c);
    }
  }

  /** No key of the first row and no cell text contains a newline. */
  predicate NoNewlines(rows: seq<Row>)
    requires |rows| > 0
  {
    && (forall k :: 0 <= k < |Keys(rows[0])| ==> '\n' !in Keys(rows[0])[k])
    && (forall r, k :: 0 <= r < |rows| && 0 <= k < |Keys(rows[0])| ==>
          '\n' !in CellText(rows[r], Keys(rows[0])[k]))
  }

  lemma DataLineHasNoNewline(rows: seq<Row>, r: int)
    requires |rows| > 0 && NoNewlines(rows) && 0 <= r < |rows|
    ensures '\n' !in DataLine(rows[r], Keys(rows[0]))
  {
    var headers := Keys(rows[0]);
    var fs := Fields(rows[r], headers);
    forall k | 0 <= k < |fs|
      ensures '\n' !in fs[k]
    {
      EscapeAvoidsChar(CellText(rows[r], headers[k]), '\n');
    }
    JoinAvoidsChar(fs, ",", '\n');
  }

  /**
   * Without newlines in keys or values, the export has exactly one line more
   * than there are rows: the unquoted header line of the first row's keys,
   * then each row's data line in order.
   */
  lemma CsvLines(rows: seq<Row>)
    requires |rows| > 0 && NoNewlines(rows)
    ensures Split(Csv(rows), '\n') == [HeaderLine(Keys(rows[0]))] + DataLines(rows, Keys(rows[0]))
    ensures |Split(Csv(rows), '\n')| == |rows| + 1
  {
    var headers := Keys(rows[0]);
    var lines := [HeaderLine(headers)] + DataLines(rows, headers);
    JoinAvoidsChar(headers, ",", '\n');
    forall k | 0 <= k < |lines|
      ensures '\n' !in lines[k]
    {
      if k > 0 {
        DataLineHasNoNewline(rows, k - 1);
      }
    }
    SplitJoin(lines, '\n');
  }

  /** With at least one column the export ends with a field's closing quote, not with a newline. */
  lemma CsvEndsWithQuote(rows: seq<Row>)
    requires |rows| > 0 && |Keys(rows[0])| > 0
    ensures |Csv(rows)| > 0 && Csv(rows)[|Csv(rows)| - 1] == '"'
  {
    var headers := Keys(rows[0]);
    var lines := [HeaderLine(headers)] + DataLines(rows, headers);
    JoinEndsWithLast(lines, "\n");
    var fs := Fields(rows[|rows| - 1], headers);
    JoinEndsWithLast(fs, ",");
  }

}
