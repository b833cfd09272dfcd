/** `downloadCSV`: turns a list of flat objects into CSV text. The header is the
    first object's keys joined by ','; every object becomes one line with its
    fields read at those keys. A field has each '"' doubled and is wrapped in '"'
    when it contains '"', ',' or '\n' (rules 5-7 of section 2 of RFC 4180);
    records are separated by '\n' rather than CRLF.

    Beside the encoder sits a decoder that reads that format back (quote-aware
    field and record splitting); the round-trip lemma says the encoder loses
    nothing. */
module CsvExport {
  import opened Wrappers
  import opened Text

  /** The values an exported object can hold. */
  datatype Value = Null | Undefined | Str(s: string) | Num(n: int) | Flag(b: bool)

  /** A nullable column as a value: null stays null. */
  function NullableText(s: Option<string>): Value
  {
    if s.Some? then Str(s.value) else Null
  }

  function NullableNumber(n: Option<int>): Value
  {
    if n.Some? then Num(n.value) else Null
  }

  /** One exported object: its keys, in insertion order, with their values. */
  type Row = seq<(string, Value)>

  /** `Object.keys(row)`. */
  function Keys(row: Row): seq<string>
  {
    seq(|row|, i requires 0 <= i < |row| => row[i].0)
  }

  /** `row[key]`: the value stored under `key`, or `undefined`. */
  function Get(row: Row, key: string): Value
    decreases |row|
  {
    if row == [] then Undefined else if row[0].0 == key then row[0].1 else Get(row[1..], key)
  }

  /** No key occurs twice, as in any JavaScript object. */
  predicate DistinctKeys(row: Row)
  {
    forall i, j :: 0 <= i < j < |row| ==> row[i].0 != row[j].0
  }

  /** Reading an object at its own key gives the value stored there. */
  lemma {:induction false} GetAt(row: Row, k: int)
    requires DistinctKeys(row) && 0 <= k < |row|
    ensures Get(row, row[k].0) == row[k].1
    decreases |row|
  {
    if k > 0 {
      assert row[1..][k - 1] == row[k];
      GetAt(row[1..], k - 1);
    }
  }

  /** An object read at its own keys gives its values, in order. */
  lemma ValuesAtOwnKeys(row: Row)
    requires DistinctKeys(row)
    ensures ValuesAt(Keys(row), row) == seq(|row|, k requires 0 <= k < |row| => row[k].1)
  {
    forall k | 0 <= k < |row| ensures ValuesAt(Keys(row), row)[k] == row[k].1 {
      GetAt(row, k);
    }
  }

  /** `value.toString()` once null and undefined have been replaced by ''. */
  function FieldText(v: Value): string
  {
    match v
    case Null => ""
    case Undefined => ""
    case Str(s) => s
    case Num(n) => IntString(n)
    case Flag(b) => if b then "true" else "false"
  }

  /** `s.replace(/"/g, '""')`. */
  function EscapeQuotes(s: string): (r: string)
    ensures |r| == |s| + QuoteCount(s)
    decreases |s|
  {
    if s == [] then [] else (if s[0] == '"' then "\"\"" else [s[0]]) + EscapeQuotes(s[1..])
  }

  /** `s.search(/("|,|\n)/g) >= 0`. A text that needs no quotes has no '"'
      either, so escaping leaves it as it is. */
  predicate NeedsQuotes(s: string)
    ensures !NeedsQuotes(s) ==> EscapeQuotes(s) == s
  {
    '"' in s || (EscapeWithoutQuotes(s); ',' in s || '\n' in s)
  }

  /** One field of a data line: wrapped in quotes, with its quotes doubled,
      exactly when its text contains '"', ',' or '\n'; otherwise the text
      itself. */
  function EncodeField(v: Value): (r: string)
    ensures NeedsQuotes(FieldText(v)) ==> r == "\"" + EscapeQuotes(FieldText(v)) + "\""
    ensures !NeedsQuotes(FieldText(v)) ==> r == FieldText(v)
  {
    var s := FieldText(v);
    EscapeKeepsCharacters(s, '"');
    EscapeKeepsCharacters(s, ',');
    EscapeKeepsCharacters(s, '\n');
    var e := EscapeQuotes(s);
    if NeedsQuotes(e) then "\"" + e + "\"" else e
  }

  /** `parts.join(sep)`. */
  function Join(parts: seq<string>, sep: string): string
    decreases |parts|
  {
    if parts == [] then "" else if |parts| == 1 then parts[0] else parts[0] + sep + Join(parts[1..], sep)
  }

  /** The values of `row` read at the header keys. */
  function ValuesAt(headers: seq<string>, row: Row): seq<Value>
  {
    seq(|headers|, j requires 0 <= j < |headers| => Get(row, headers[j]))
  }

  /** A line of fields joined by ','. */
  function EncodeFields(vals: seq<Value>): string
  {
    Join(FieldStrings(vals), ",")
  }

  /** Each value encoded as a field. */
  function FieldStrings(vals: seq<Value>): seq<string>
  {
    seq(|vals|, j requires 0 <= j < |vals| => EncodeField(vals[j]))
  }

  /** The header line followed by one line per object. */
  function Lines(data: seq<Row>): seq<string>
    requires |data| > 0
  {
    var headers := Keys(data[0]);
    [Join(headers, ",")] + seq(|data|, i requires 0 <= i < |data| => EncodeFields(ValuesAt(headers, data[i])))
  }

  /** The text `downloadCSV` hands to the download, or None when it alerts
      "Tidak ada data untuk diexport" and returns (null, undefined or empty data). */
  function Encode(data: Option<seq<Row>>): (r: Option<string>)
    ensures r.None? <==> data.None? || data.value == []
    ensures r.Some? ==> r.value == Join(Lines(data.value), "\n") && |Lines(data.value)| == |data.value| + 1
  {
    if data.None? || data.value == [] then None else Some(Join(Lines(data.value), "\n"))
  }

  // ---------------------------------------------------------------------------
  // Reading the format back

  /** Collapses each '""' to '"'. */
  function Unescape(s: string): string
    decreases |s|
  {
    if s == [] then []
    else if |s| >= 2 && s[0] == '"' && s[1] == '"' then "\"" + Unescape(s[2..])
    else [s[0]] + Unescape(s[1..])
  }

  /** An unquoted field: everything up to the next ',' or '\n'. */
  function ReadPlain(s: string): (r: (string, string))
    ensures |r.1| <= |s|
    decreases |s|
  {
    if s == [] || s[0] == ',' || s[0] == '\n' then ([], s)
    else var (f, t) := ReadPlain(s[1..]); ([s[0]] + f, t)
  }

  /** The body of a quoted field after its opening '"', up to and including the
      closing '"'; '""' inside stands for one '"'. */
  function ReadQuoted(s: string): (r: (string, string))
    ensures |r.1| < |s| || s == []
    decreases |s|
  {
    if s == [] then ([], [])
    else if s[0] == '"' then
      if |s| >= 2 && s[1] == '"' then var (f, t) := ReadQuoted(s[2..]); ("\"" + f, t)
      else ([], s[1..])
    else var (f, t) := ReadQuoted(s[1..]); ([s[0]] + f, t)
  }

  /** One field, quoted or not, and the text after it. */
  function ReadField(s: string): (r: (string, string))
    ensures |r.1| <= |s|
  {
    if |s| > 0 && s[0] == '"' then ReadQuoted(s[1..]) else ReadPlain(s)
  }

  /** The fields of one record, and the text after its '\n' (None at the end of the text). */
  function ParseLine(s: string): (r: (seq<string>, Option<string>))
    ensures r.1.Some? ==> |r.1.value| < |s|
    decreases |s|
  {
    var (f, t) := ReadField(s);
    if t != [] && t[0] == ',' then
      var (fs, rest) := ParseLine(t[1..]);
      ([f] + fs, rest)
    else if t != [] && t[0] == '\n' then ([f], Some(t[1..]))
    else ([f], None)
  }

  /** All records of a text. */
  function ParseDocument(s: string): seq<seq<string>>
    decreases |s|
  {
    var (fields, rest) := ParseLine(s);
    if rest.None? then [fields] else [fields] + ParseDocument(rest.value)
  }

  // ---------------------------------------------------------------------------
  // Properties

  /** Doubling quotes is undone by collapsing them: no information is lost. */
  lemma {:induction false} UnescapeEscape(s: string)
    ensures Unescape(EscapeQuotes(s)) == s
    decreases |s|
  {
    if s != [] {
      UnescapeEscape(s[1..]);
      if s[0] == '"' {
        assert EscapeQuotes(s) == "\"\"" + EscapeQuotes(s[1..]);
      } else {
        assert EscapeQuotes(s) == [s[0]] + EscapeQuotes(s[1..]);
      }
    }
  }

  /** Escaping adds exactly one character per '"'. */
  function QuoteCount(s: string): nat
    decreases |s|
  {
    if s == [] then 0 else (if s[0] == '"' then 1 else 0) + QuoteCount(s[1..])
  }

  /** Escaping touches only '"': any other character occurs in the escaped text
      iff it occurs in the original, and '"' occurs in one iff in the other. */
  lemma {:induction false} EscapeKeepsCharacters(s: string, c: char)
    ensures c in EscapeQuotes(s) <==> c in s
    decreases |s|
  {
    if s != [] {
      EscapeKeepsCharacters(s[1..], c);
      var head := if s[0] == '"' then "\"\"" else [s[0]];
      assert EscapeQuotes(s) == head + EscapeQuotes(s[1..]);
      assert s == [s[0]] + s[1..];
    }
  }

  lemma TailMembers(s: string)
    requires s != []
    ensures forall c :: c in s[1..] ==> c in s
    ensures s[0] in s
  {
    assert s == [s[0]] + s[1..];
  }

  /** Text without '"' is left as it is. */
  lemma {:induction false} EscapeWithoutQuotes(s: string)
    requires '"' !in s
    ensures EscapeQuotes(s) == s
    decreases |s|
  {
    if s != [] {
      TailMembers(s);
      EscapeWithoutQuotes(s[1..]);
    }
  }

  predicate EndsField(t: string)
  {
    t == [] || t[0] == ',' || t[0] == '\n'
  }

  lemma {:induction false} ReadPlainText(s: string, t: string)
    requires ',' !in s && '\n' !in s && EndsField(t)
    ensures ReadPlain(s + t) == (s, t)
    decreases |s|
  {
    if s == [] {
      assert s + t == t;
    } else {
      assert (s + t)[0] == s[0] && (s + t)[1..] == s[1..] + t;
      TailMembers(s);
      ReadPlainText(s[1..], t);
      assert [s[0]] + s[1..] == s;
    }
  }

  lemma {:induction false} ReadQuotedText(s: string, t: string)
    requires EndsField(t)
    ensures ReadQuoted(EscapeQuotes(s) + "\"" + t) == (s, t)
    decreases |s|
  {
    if s == [] {
      assert EscapeQuotes(s) + "\"" + t == "\"" + t;
    } else {
      ReadQuotedText(s[1..], t);
      if s[0] == '"' {
        ReadDoubledQuote(s, t);
      } else {
        ReadQuotedChar(s, t);
      }
    }
  }

  /** A doubled '"' inside a quoted field reads as one '"'. */
  lemma ReadDoubledQuote(s: string, t: string)
    requires s != [] && s[0] == '"' && EndsField(t)
    requires ReadQuoted(EscapeQuotes(s[1..]) + "\"" + t) == (s[1..], t)
    ensures ReadQuoted(EscapeQuotes(s) + "\"" + t) == (s, t)
  {
    var rest := EscapeQuotes(s[1..]) + "\"" + t;
    EscapeHead(s, t);
    QuotedDoubled(rest);
    assert "\"" + s[1..] == s;
  }

  lemma EscapeHead(s: string, t: string)
    requires s != [] && s[0] == '"'
    ensures EscapeQuotes(s) + "\"" + t == "\"\"" + (EscapeQuotes(s[1..]) + "\"" + t)
  {
    assert EscapeQuotes(s) == "\"\"" + EscapeQuotes(s[1..]);
  }

  lemma QuotedDoubled(w: string)
    ensures ReadQuoted("\"\"" + w) == ("\"" + ReadQuoted(w).0, ReadQuoted(w).1)
  {
    assert ("\"\"" + w)[2..] == w;
  }

  lemma QuotedCons(c: char, w: string)
    requires c != '"'
    ensures ReadQuoted([c] + w) == ([c] + ReadQuoted(w).0, ReadQuoted(w).1)
  {
    assert ([c] + w)[1..] == w;
  }

  /** Any other character inside a quoted field reads as itself. */
  lemma ReadQuotedChar(s: string, t: string)
    requires s != [] && s[0] != '"' && EndsField(t)
    requires ReadQuoted(EscapeQuotes(s[1..]) + "\"" + t) == (s[1..], t)
    ensures ReadQuoted(EscapeQuotes(s) + "\"" + t) == (s, t)
  {
    var rest := EscapeQuotes(s[1..]) + "\"" + t;
    EscapeOther(s, t);
    QuotedCons(s[0], rest);
    assert [s[0]] + s[1..] == s;
  }

  lemma EscapeOther(s: string, t: string)
    requires s != [] && s[0] != '"'
    ensures EscapeQuotes(s) + "\"" + t == [s[0]] + (EscapeQuotes(s[1..]) + "\"" + t)
  {
    assert EscapeQuotes(s) == [s[0]] + EscapeQuotes(s[1..]);
  }

  /** A field followed by a separator (or nothing) reads back as its text. */
  lemma ReadFieldText(v: Value, t: string)
    requires EndsField(t)
    ensures ReadField(EncodeField(v) + t) == (FieldText(v), t)
  {
    var s := FieldText(v);
    if NeedsQuotes(s) {
      ReadQuotedField(s, t);
    } else {
      ReadPlainField(s, t);
    }
  }

  lemma ReadQuotedField(s: string, t: string)
    requires EndsField(t)
    ensures ReadField("\"" + EscapeQuotes(s) + "\"" + t) == (s, t)
  {
    var e := EscapeQuotes(s);
    assert "\"" + e + "\"" + t == "\"" + (e + "\"" + t);
    assert ("\"" + (e + "\"" + t))[1..] == e + "\"" + t;
    ReadQuotedText(s, t);
  }

  lemma ReadPlainField(s: string, t: string)
    requires EndsField(t) && !NeedsQuotes(s)
    ensures ReadField(s + t) == (s, t)
  {
    if s != [] {
      assert (s + t)[0] == s[0] && s[0] in s;
    } else {
      assert s + t == t;
    }
    ReadPlainText(s, t);
  }

  function Texts(vals: seq<Value>): seq<string>
  {
    seq(|vals|, j requires 0 <= j < |vals| => FieldText(vals[j]))
  }

  lemma EncodeFieldsCons(vals: seq<Value>)
    requires |vals| >= 2
    ensures EncodeFields(vals) == EncodeField(vals[0]) + "," + EncodeFields(vals[1..])
    ensures Texts(vals) == [FieldText(vals[0])] + Texts(vals[1..])
  {
    FieldsTail(vals);
    JoinCons(FieldStrings(vals), ",");
    TextsTail(vals);
  }

  lemma JoinCons(parts: seq<string>, sep: string)
    requires |parts| >= 2
    ensures Join(parts, sep) == parts[0] + sep + Join(parts[1..], sep)
  {
  }

  lemma FieldsTail(vals: seq<Value>)
    requires |vals| >= 1
    ensures FieldStrings(vals)[1..] == FieldStrings(vals[1..])
  {
    var all, rest := FieldStrings(vals), FieldStrings(vals[1..]);
    assert |all[1..]| == |rest|;
    forall k | 0 <= k < |rest| ensures all[1..][k] == rest[k] {
      assert all[1..][k] == all[k + 1] == EncodeField(vals[k + 1]);
      assert vals[1..][k] == vals[k + 1];
    }
  }

  lemma TextsTail(vals: seq<Value>)
    requires |vals| >= 1
    ensures Texts(vals) == [FieldText(vals[0])] + Texts(vals[1..])
  {
    assert Texts(vals)[1..] == Texts(vals[1..]);
  }

  lemma ParseLineComma(s: string, t: string)
    requires ReadField(s).1 == t && t != [] && t[0] == ','
    ensures ParseLine(s) == ([ReadField(s).0] + ParseLine(t[1..]).0, ParseLine(t[1..]).1)
  {
  }

  lemma ParseLineEnd(s: string, t: string)
    requires ReadField(s).1 == t && (t == [] || t[0] == '\n')
    ensures ParseLine(s) == ([ReadField(s).0], if t == [] then None else Some(t[1..]))
  {
  }

  /** One encoded line, followed by '\n' or by nothing, reads back as its field texts. */
  lemma {:induction false} LineRoundTrip(vals: seq<Value>, t: string)
    requires |vals| > 0 && (t == [] || t[0] == '\n')
    ensures ParseLine(EncodeFields(vals) + t) == (Texts(vals), if t == [] then None else Some(t[1..]))
    decreases |vals|
  {
    if |vals| == 1 {
      assert EncodeFields(vals) == EncodeField(vals[0]);
      ReadFieldText(vals[0], t);
      ParseLineEnd(EncodeFields(vals) + t, t);
      assert Texts(vals) == [FieldText(vals[0])];
    } else {
      LineRoundTripStep(vals, t);
    }
  }

  lemma {:induction false} LineRoundTripStep(vals: seq<Value>, t: string)
    requires |vals| > 1 && (t == [] || t[0] == '\n')
    ensures ParseLine(EncodeFields(vals) + t) == (Texts(vals), if t == [] then None else Some(t[1..]))
    decreases |vals|, 0
  {
    var rest := vals[1..];
    var tail := "," + (EncodeFields(rest) + t);
    LineHead(vals, t);
    assert tail[1..] == EncodeFields(rest) + t;
    ParseLineComma(EncodeFields(vals) + t, tail);
    LineRoundTrip(rest, t);
  }

  /** The first field of a line of two or more reads back, up to the ','. */
  lemma LineHead(vals: seq<Value>, t: string)
    requires |vals| > 1
    ensures ReadField(EncodeFields(vals) + t) == (FieldText(vals[0]), "," + (EncodeFields(vals[1..]) + t))
    ensures Texts(vals) == [FieldText(vals[0])] + Texts(vals[1..])
  {
    var tail := "," + (EncodeFields(vals[1..]) + t);
    EncodeFieldsCons(vals);
    Regroup(EncodeField(vals[0]), ",", EncodeFields(vals[1..]), t);
    ReadFieldText(vals[0], tail);
  }

  lemma Regroup(a: string, sep: string, b: string, t: string)
    ensures a + sep + b + t == a + (sep + (b + t))
  {
  }

  /** Lines joined by '\n' read back line by line. */
  lemma {:induction false} DocumentRoundTrip(records: seq<seq<Value>>)
    requires |records| > 0
    requires forall i :: 0 <= i < |records| ==> |records[i]| > 0
    ensures ParseDocument(Join(RecordLines(records), "\n")) == RecordTexts(records)
    decreases |records|
  {
    if |records| == 1 {
      assert Join(RecordLines(records), "\n") == EncodeFields(records[0]) + [];
      LineRoundTrip(records[0], []);
      assert RecordTexts(records) == [Texts(records[0])];
    } else {
      var tail := "\n" + Join(RecordLines(records[1..]), "\n");
      DocumentSplit(records);
      LineRoundTrip(records[0], tail);
      assert tail[1..] == Join(RecordLines(records[1..]), "\n");
      DocumentRoundTrip(records[1..]);
    }
  }

  /** The encoded lines of some records. */
  function RecordLines(records: seq<seq<Value>>): seq<string>
  {
    seq(|records|, i requires 0 <= i < |records| => EncodeFields(records[i]))
  }

  /** The field texts of some records. */
  function RecordTexts(records: seq<seq<Value>>): seq<seq<string>>
  {
    seq(|records|, i requires 0 <= i < |records| => Texts(records[i]))
  }

  lemma DocumentSplit(records: seq<seq<Value>>)
    requires |records| > 1
    ensures Join(RecordLines(records), "\n") == EncodeFields(records[0]) + ("\n" + Join(RecordLines(records[1..]), "\n"))
    ensures RecordTexts(records) == [Texts(records[0])] + RecordTexts(records[1..])
  {
    LinesSplit(records);
    TextsSplit(records);
  }

  lemma LinesSplit(records: seq<seq<Value>>)
    requires |records| > 1
    ensures Join(RecordLines(records), "\n") == EncodeFields(records[0]) + ("\n" + Join(RecordLines(records[1..]), "\n"))
  {
    var lines := RecordLines(records);
    assert lines[1..] == RecordLines(records[1..]);
    JoinCons(lines, "\n");
    Regroup(lines[0], "\n", Join(lines[1..], "\n"), "");
    assert Join(lines[1..], "\n") + "" == Join(lines[1..], "\n");
  }

  lemma TextsSplit(records: seq<seq<Value>>)
    requires |records| > 1
    ensures RecordTexts(records) == [Texts(records[0])] + RecordTexts(records[1..])
  {
    var texts := RecordTexts(records);
    assert texts[1..] == RecordTexts(records[1..]);
    assert texts == [texts[0]] + texts[1..];
  }

  /** A header that needs no quoting: no '"', ',' or '\n'. */
  predicate PlainHeader(h: string)
  {
    !NeedsQuotes(h)
  }

  /** The export loses nothing: when the header names need no quoting, reading the
      text back gives the header names and then, for every object in order, its
      values at those names as text (null and undefined as ''), so N objects give
      N + 1 records. */
  lemma ExportRoundTrip(data: seq<Row>)
    requires |data| > 0 && |Keys(data[0])| > 0
    requires forall k :: 0 <= k < |Keys(data[0])| ==> PlainHeader(Keys(data[0])[k])
    ensures Encode(Some(data)).Some?
    ensures ParseDocument(Encode(Some(data)).value)
         == [Keys(data[0])] + seq(|data|, i requires 0 <= i < |data| => Texts(ValuesAt(Keys(data[0]), data[i])))
  {
    ExportLines(data);
    ExportTexts(data);
    DocumentRoundTrip(ExportRecords(data));
  }

  /** The header names as text values. */
  function HeaderValues(headers: seq<string>): seq<Value>
  {
    seq(|headers|, j requires 0 <= j < |headers| => Str(headers[j]))
  }

  /** The header record followed by one record per object. */
  function ExportRecords(data: seq<Row>): seq<seq<Value>>
    requires |data| > 0
  {
    var headers := Keys(data[0]);
    [HeaderValues(headers)] + seq(|data|, i requires 0 <= i < |data| => ValuesAt(headers, data[i]))
  }

  /** Plain header names are emitted as they are. */
  lemma HeaderLine(headers: seq<string>)
    requires forall k :: 0 <= k < |headers| ==> PlainHeader(headers[k])
    ensures EncodeFields(HeaderValues(headers)) == Join(headers, ",")
    ensures Texts(HeaderValues(headers)) == headers
  {
    HeaderFields(headers);
    HeaderTexts(headers);
  }

  lemma HeaderFields(headers: seq<string>)
    requires forall k :: 0 <= k < |headers| ==> PlainHeader(headers[k])
    ensures FieldStrings(HeaderValues(headers)) == headers
  {
    var vals := HeaderValues(headers);
    forall j | 0 <= j < |headers| ensures FieldStrings(vals)[j] == headers[j] {
      PlainHeaderField(headers[j]);
    }
  }

  lemma HeaderTexts(headers: seq<string>)
    ensures Texts(HeaderValues(headers)) == headers
  {
    var vals := HeaderValues(headers);
    assert forall j :: 0 <= j < |headers| ==> Texts(vals)[j] == headers[j];
  }

  lemma PlainHeaderField(h: string)
    requires PlainHeader(h)
    ensures EncodeField(Str(h)) == h
  {
  }

  lemma ExportLines(data: seq<Row>)
    requires |data| > 0
    requires forall k :: 0 <= k < |Keys(data[0])| ==> PlainHeader(Keys(data[0])[k])
    ensures RecordLines(ExportRecords(data)) == Lines(data)
  {
    HeaderLine(Keys(data[0]));
  }

  lemma ExportTexts(data: seq<Row>)
    requires |data| > 0
    requires forall k :: 0 <= k < |Keys(data[0])| ==> PlainHeader(Keys(data[0])[k])
    ensures RecordTexts(ExportRecords(data))
         == [Keys(data[0])] + seq(|data|, i requires 0 <= i < |data| => Texts(ValuesAt(Keys(data[0]), data[i])))
  {
    HeaderLine(Keys(data[0]));
  }

  // ---------------------------------------------------------------------------
  // A worked example

  /** A text without '"', ',' or '\n' is emitted as it is. */
  lemma PlainField(s: string)
    requires forall i :: 0 <= i < |s| ==> s[i] != '"' && s[i] != ',' && s[i] != '\n'
    ensures EncodeField(Str(s)) == s
  {
  }

  /** A text with a ',' but no '"' is wrapped in quotes and otherwise kept. */
  lemma QuotedField(s: string, k: nat)
    requires forall i :: 0 <= i < |s| ==> s[i] != '"'
    requires k < |s| && s[k] == ','
    ensures EncodeField(Str(s)) == "\"" + s + "\""
  {
    EscapeWithoutQuotes(s);
  }

  /** A two-field line is the two fields with a ',' between them. */
  lemma TwoFields(x: Value, y: Value)
    ensures EncodeFields([x, y]) == EncodeField(x) + "," + EncodeField(y)
  {
    var fields := FieldStrings([x, y]);
    assert fields == [EncodeField(x), EncodeField(y)];
    JoinCons(fields, ",");
    assert fields[1..] == [EncodeField(y)];
  }

  lemma ExampleDate()
    ensures EncodeField(Str("2024-01-01")) == "2024-01-01"
  {
    var s := "2024-01-01";
    forall i | 0 <= i < |s| ensures s[i] != '"' && s[i] != ',' && s[i] != '\n' {
      assert '0' <= s[i] <= '9' || s[i] == '-';
    }
    PlainField(s);
  }

  lemma ExampleAmount()
    ensures EncodeField(Str("1,000")) == "\"" + "1,000" + "\""
  {
    QuotedField("1,000", 1);
  }

  /** The row `{Tanggal: "2024-01-01", Jumlah: "1,000"}` encodes as
      `2024-01-01,"1,000"`: the date as it is, the amount quoted for its comma. */
  lemma ExampleRow()
    ensures EncodeFields([Str("2024-01-01"), Str("1,000")]) == "2024-01-01" + "," + ("\"" + "1,000" + "\"")
  {
    ExampleDate();
    ExampleAmount();
    TwoFields(Str("2024-01-01"), Str("1,000"));
  }
}
