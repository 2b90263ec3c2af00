/**
 * The CSV text the export writes, after section 2 of RFC 4180: every field
 * is enclosed in double quotes (rule 5), a double quote inside a field is
 * escaped by preceding it with another double quote (rule 7), fields are
 * separated by commas (rule 4), and records by line breaks (rule 1; the
 * export uses a bare LF). The reader below takes such text apart again, so
 * that the encoding can be shown to lose nothing.
 */
module Csv {
  import opened Wrappers
  import Text

  /** `field.replace(/"/g, '""')`: every double quote doubled. */
  function Escape(f: string): (r: string)
    ensures |r| >= |f|
  {
    if f == [] then [] else (if f[0] == '"' then "\"\"" else [f[0]]) + Escape(f[1..])
  }

  /** `"${...}"`: the escaped field in double quotes. */
  function Quote(f: string): (r: string)
    ensures |r| >= 2 && r[0] == '"' && r[|r| - 1] == '"'
  {
    "\"" + Escape(f) + "\""
  }

  function QuoteAll(fields: seq<string>): (r: seq<string>)
    ensures |r| == |fields|
    ensures forall i :: 0 <= i < |fields| ==> r[i] == Quote(fields[i])
  {
    if fields == [] then [] else [Quote(fields[0])] + QuoteAll(fields[1..])
  }

  /** `row.map(quote).join(',')`. */
  function EncodeRecord(fields: seq<string>): string {
    Text.Join(QuoteAll(fields), ",")
  }

  function EncodeRecords(rows: seq<seq<string>>): (r: seq<string>)
    ensures |r| == |rows|
  {
    if rows == [] then [] else [EncodeRecord(rows[0])] + EncodeRecords(rows[1..])
  }

  /** `rows.map(encodeRecord).join('\n')`. */
  function EncodeTable(rows: seq<seq<string>>): string {
    Text.Join(EncodeRecords(rows), "\n")
  }

  // ---------------------------------------------------------------------------
  // Reading the text back

  /** The rest of a quoted field after its opening quote: its content up to the closing
      quote, with `""` read as one quote, and what follows the closing quote. */
  function ReadBody(s: string): (r: Option<(string, string)>)
    ensures r.Some? ==> |r.value.1| < |s|
    decreases |s|
  {
    if s == [] then None
    else if s[0] == '"' then
      if |s| > 1 && s[1] == '"' then
        match ReadBody(s[2..])
        case None => None
        case Some((f, rest)) => Some(("\"" + f, rest))
      else Some(("", s[1..]))
    else
      match ReadBody(s[1..])
      case None => None
      case Some((f, rest)) => Some(([s[0]] + f, rest))
  }

  /** One record: its fields, the text after it, and whether a line break ended it
      (rather than the end of the text). */
  function ReadRecord(s: string): (r: Option<(seq<string>, string, bool)>)
    ensures r.Some? ==> |r.value.1| < |s|
    ensures r.Some? && !r.value.2 ==> r.value.1 == []
    decreases |s|
  {
    if s == [] || s[0] != '"' then None
    else
      match ReadBody(s[1..])
      case None => None
      case Some((f, rest)) =>
        if rest == [] then Some(([f], [], false))
        else if rest[0] == ',' then
          match ReadRecord(rest[1..])
          case None => None
          case Some((fs, tail, more)) => Some(([f] + fs, tail, more))
        else if rest[0] == '\n' then Some(([f], rest[1..], true))
        else None
  }

  /** The records of a whole text; `None` when it is not a table of quoted fields. */
  function ParseTable(s: string): Option<seq<seq<string>>>
    decreases |s|
  {
    match ReadRecord(s)
    case None => None
    case Some((record, tail, more)) =>
      if !more then Some([record])
      else
        match ParseTable(tail)
        case None => None
        case Some(records) => Some([record] + records)
  }

  // ---------------------------------------------------------------------------
  // Round trip

  /** Unquoting an escaped field gives the field back, whatever follows the closing quote
      other than another quote. */
  lemma {:induction false} ReadEscaped(f: string, rest: string)
    requires rest == [] || rest[0] != '"'
    ensures ReadBody(Escape(f) + "\"" + rest) == Some((f, rest))
  {
    var s := Escape(f) + "\"" + rest;
    if f == [] {
      assert s == "\"" + rest;
      assert s[1..] == rest;
    } else {
      ReadEscaped(f[1..], rest);
      var tail := Escape(f[1..]) + "\"" + rest;
      if f[0] == '"' {
        assert s == "\"\"" + tail;
        assert s[2..] == tail;
        assert "\"" + f[1..] == f;
      } else {
        assert s == [f[0]] + tail;
        assert s[1..] == tail;
        assert [f[0]] + f[1..] == f;
      }
    }
  }

  lemma JoinCons(parts: seq<string>, sep: string)
    requires |parts| > 1
    ensures Text.Join(parts, sep) == parts[0] + sep + Text.Join(parts[1..], sep)
  {
  }

  /** A record of several fields is its first field, a comma, and the record of the rest. */
  lemma EncodeRecordCons(fields: seq<string>)
    requires |fields| > 1
    ensures EncodeRecord(fields) == Quote(fields[0]) + "," + EncodeRecord(fields[1..])
  {
    var q := QuoteAll(fields);
    assert q[1..] == QuoteAll(fields[1..]);
    JoinCons(q, ",");
  }

  /** The last field of a record, followed by a line break or by the end of the text. */
  lemma ReadLastField(f: string, suffix: string)
    requires suffix == [] || suffix[0] == '\n'
    ensures ReadRecord(Quote(f) + suffix) == Some(([f], if suffix == [] then [] else suffix[1..], suffix != []))
  {
    var s := Quote(f) + suffix;
    assert s[0] == '"';
    assert s[1..] == Escape(f) + "\"" + suffix;
    ReadEscaped(f, suffix);
    if suffix != [] {
      assert suffix[0] == '\n';
    }
  }

  /** A field followed by a comma: the field, then the rest of the record. */
  lemma ReadFieldThenComma(f: string, more: string)
    requires ReadRecord(more).Some?
    ensures ReadRecord(Quote(f) + "," + more) ==
            Some(([f] + ReadRecord(more).value.0, ReadRecord(more).value.1, ReadRecord(more).value.2))
  {
    var s := Quote(f) + "," + more;
    var rest := "," + more;
    assert s[1..] == Escape(f) + "\"" + rest;
    ReadEscaped(f, rest);
    assert rest[1..] == more;
  }

  /** Reading an encoded record gives its fields back, and stops at the line break or the
      end of the text that follows it. */
  lemma {:induction false} ReadEncodedRecord(fields: seq<string>, suffix: string)
    requires |fields| > 0
    requires suffix == [] || suffix[0] == '\n'
    ensures ReadRecord(EncodeRecord(fields) + suffix) ==
            Some((fields, if suffix == [] then [] else suffix[1..], suffix != []))
  {
    if |fields| == 1 {
      assert EncodeRecord(fields) == Quote(fields[0]);
      ReadLastField(fields[0], suffix);
      assert [fields[0]] == fields;
    } else {
      EncodeRecordCons(fields);
      var more := EncodeRecord(fields[1..]) + suffix;
      assert EncodeRecord(fields) + suffix == Quote(fields[0]) + "," + more;
      ReadEncodedRecord(fields[1..], suffix);
      ReadFieldThenComma(fields[0], more);
      assert [fields[0]] + fields[1..] == fields;
    }
  }

  /** Every table with at least one record, and at least one field in each record, is read
      back from its encoding exactly. */
  lemma {:induction false} TableRoundTrip(rows: seq<seq<string>>)
    requires |rows| > 0
    requires forall i :: 0 <= i < |rows| ==> |rows[i]| > 0
    ensures ParseTable(EncodeTable(rows)) == Some(rows)
  {
    var e := EncodeRecords(rows);
    assert e[0] == EncodeRecord(rows[0]);
    if |rows| == 1 {
      assert EncodeTable(rows) == EncodeRecord(rows[0]) + "";
      ReadEncodedRecord(rows[0], "");
      assert [rows[0]] == rows;
    } else {
      assert e[1..] == EncodeRecords(rows[1..]);
      JoinCons(e, "\n");
      var tail := EncodeTable(rows[1..]);
      assert EncodeTable(rows) == EncodeRecord(rows[0]) + ("\n" + tail);
      ReadEncodedRecord(rows[0], "\n" + tail);
      assert ("\n" + tail)[1..] == tail;
      TableRoundTrip(rows[1..]);
      assert [rows[0]] + rows[1..] == rows;
    }
  }
}
