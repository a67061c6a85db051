/** The CSV text exportSentimentCSV (src/lib/utils.ts) builds from a list of
    analysed reviews: an unquoted header line of seven column names, then one
    line per review whose seven fields are each quoted as section 2 of
    RFC 4180 describes (the value in double quotes, each inner double quote
    doubled). The ISO rendering of the instant and the four-decimal rendering
    of the score are opaque and passed in as functions. A reader is given,
    with the lemma that it reads the export back. */
module CsvExport {
  import opened Common
  import opened Domain

  const Headers: seq<string> := ["id", "createdAt", "label", "score", "categories", "suggestions", "text"]

  // ---------------------------------------------------------------------
  // Writing
  // ---------------------------------------------------------------------

  /** `v.replace(/"/g, '""')` */
  function DoubleQuotes(v: string): (r: string)
    ensures |r| == |v| + Count(v, '"')
  {
    if v == [] then []
    else (if v[0] == '"' then "\"\"" else [v[0]]) + DoubleQuotes(v[1..])
  }

  /** The escape helper: quote the value, doubling the quotes inside it. */
  function Escape(v: string): (r: string)
    ensures |r| == |v| + Count(v, '"') + 2
    ensures r[0] == '"' && r[|r| - 1] == '"'
  {
    "\"" + DoubleQuotes(v) + "\""
  }

  function EscapeAll(fs: seq<string>): (r: seq<string>)
    ensures |r| == |fs|
    ensures forall i :: 0 <= i < |fs| ==> r[i] == Escape(fs[i])
  {
    if fs == [] then [] else [Escape(fs[0])] + EscapeAll(fs[1..])
  }

  /** One CSV line: the escaped fields joined by commas. */
  function RowText(fs: seq<string>): string
  {
    Join(EscapeAll(fs), ",")
  }

  function RowTexts(fss: seq<seq<string>>): (r: seq<string>)
    ensures |r| == |fss|
  {
    if fss == [] then [] else [RowText(fss[0])] + RowTexts(fss[1..])
  }

  /** `text.replace(/\r?\n/g, " ")`: each line break, "\n" or "\r\n", becomes
      one space; a "\r" alone stays. */
  function FlattenNewlines(s: string): (r: string)
    ensures '\n' !in r
    ensures |r| <= |s|
  {
    if s == [] then []
    else if s[0] == '\n' then " " + FlattenNewlines(s[1..])
    else if |s| > 1 && s[0] == '\r' && s[1] == '\n' then " " + FlattenNewlines(s[2..])
    else [s[0]] + FlattenNewlines(s[1..])
  }

  /** Text without line feeds passes through unchanged. */
  lemma {:induction false} FlattenNewlinesNoop(s: string)
    requires '\n' !in s
    ensures FlattenNewlines(s) == s
  {
    if s != [] {
      assert s[0] != '\n';
      assert '\n' !in s[1..];
      FlattenNewlinesNoop(s[1..]);
    }
  }

  /** Flattening works piece by piece, provided the first piece does not end
      in a "\r" that a following "\n" would join into one line break. */
  lemma {:induction false} FlattenNewlinesAppend(a: string, x: string)
    requires a == [] || a[|a| - 1] != '\r'
    ensures FlattenNewlines(a + x) == FlattenNewlines(a) + FlattenNewlines(x)
  {
    if a == [] {
      assert a + x == x;
    } else {
      var n := if a[0] == '\n' then 1 else if |a| > 1 && a[0] == '\r' && a[1] == '\n' then 2 else 1;
      var h := if n == 2 || a[0] == '\n' then " " else [a[0]];
      calc {
        FlattenNewlines(a + x);
        { FlattenNewlinesHead(a, x, n, h); }
        h + FlattenNewlines(a[n..] + x);
        { FlattenNewlinesAppend(a[n..], x); }
        h + (FlattenNewlines(a[n..]) + FlattenNewlines(x));
        { Regroup3(h, FlattenNewlines(a[n..]), FlattenNewlines(x)); }
        h + FlattenNewlines(a[n..]) + FlattenNewlines(x);
        FlattenNewlines(a) + FlattenNewlines(x);
      }
    }
  }

  /** The first step of flattening a + x is the first step of flattening a. */
  lemma FlattenNewlinesHead(a: string, x: string, n: nat, h: string)
    requires a != [] && a[|a| - 1] != '\r'
    requires n == if a[0] == '\n' then 1 else if |a| > 1 && a[0] == '\r' && a[1] == '\n' then 2 else 1
    requires h == if n == 2 || a[0] == '\n' then " " else [a[0]]
    ensures n <= |a|
    ensures FlattenNewlines(a) == h + FlattenNewlines(a[n..])
    ensures FlattenNewlines(a + x) == h + FlattenNewlines(a[n..] + x)
  {
    var s := a + x;
    assert s[0] == a[0];
    assert a[0] == '\r' ==> |a| > 1 && s[1] == a[1];
    assert s[n..] == a[n..] + x;
  }

  /** A "\n" that does not end a "\r\n" becomes one space. */
  lemma LineFeedBecomesSpace(a: string, b: string)
    requires a == [] || a[|a| - 1] != '\r'
    ensures FlattenNewlines(a + "\n" + b) == FlattenNewlines(a) + " " + FlattenNewlines(b)
  {
    calc {
      FlattenNewlines(a + "\n" + b);
      { Regroup3(a, "\n", b); }
      FlattenNewlines(a + ("\n" + b));
      { FlattenNewlinesAppend(a, "\n" + b); }
      FlattenNewlines(a) + FlattenNewlines("\n" + b);
      { assert ("\n" + b)[1..] == b; }
      FlattenNewlines(a) + (" " + FlattenNewlines(b));
      { Regroup3(FlattenNewlines(a), " ", FlattenNewlines(b)); }
      FlattenNewlines(a) + " " + FlattenNewlines(b);
    }
  }

  /** A "\r" that does not start a "\r\n" is kept as it is. With
      FlattenNewlinesAppend, LineFeedBecomesSpace and CrLfBecomesSpace this
      fixes the flattening of every text. */
  lemma LoneCrKept(b: string)
    requires b == [] || b[0] != '\n'
    ensures FlattenNewlines("\r" + b) == "\r" + FlattenNewlines(b)
  {
    assert ("\r" + b)[1..] == b;
  }

  /** A "\r\n" becomes one space. */
  lemma CrLfBecomesSpace(a: string, b: string)
    requires a == [] || a[|a| - 1] != '\r'
    ensures FlattenNewlines(a + "\r\n" + b) == FlattenNewlines(a) + " " + FlattenNewlines(b)
  {
    calc {
      FlattenNewlines(a + "\r\n" + b);
      { Regroup3(a, "\r\n", b); }
      FlattenNewlines(a + ("\r\n" + b));
      { FlattenNewlinesAppend(a, "\r\n" + b); }
      FlattenNewlines(a) + FlattenNewlines("\r\n" + b);
      { assert ("\r\n" + b)[2..] == b; }
      FlattenNewlines(a) + (" " + FlattenNewlines(b));
      { Regroup3(FlattenNewlines(a), " ", FlattenNewlines(b)); }
      FlattenNewlines(a) + " " + FlattenNewlines(b);
    }
  }

  /** The seven field values of one review, in header order. */
  function Fields(r: SentimentReview, iso: int -> string, fixed4: real -> string): (fs: seq<string>)
    ensures |fs| == |Headers|
    ensures '\n' !in fs[6] && (fs[6] == [] || (!IsSpace(fs[6][0]) && !IsSpace(fs[6][|fs[6]| - 1])))
  {
    var text := Trim(FlattenNewlines(r.text));
    assert '\n' !in text by {
      TrimIsInfix(FlattenNewlines(r.text));
    }
    [r.id, iso(r.createdAt), r.sentimentLabel, fixed4(r.score),
     Join(r.categories, "; "), Join(r.suggestions, "; "), text]
  }

  function AllFields(rs: seq<SentimentReview>, iso: int -> string, fixed4: real -> string): (r: seq<seq<string>>)
    ensures |r| == |rs|
    ensures forall i :: 0 <= i < |rs| ==> r[i] == Fields(rs[i], iso, fixed4)
  {
    if rs == [] then [] else [Fields(rs[0], iso, fixed4)] + AllFields(rs[1..], iso, fixed4)
  }

  /** exportSentimentCSV up to the download: nothing for an empty list,
      otherwise the header line and one line per review, joined by "\n". */
  function ExportCsv(rs: seq<SentimentReview>, iso: int -> string, fixed4: real -> string): (r: Option<string>)
    ensures r.None? <==> rs == []
  {
    if rs == [] then None
    else Some(Join([Join(Headers, ",")] + RowTexts(AllFields(rs, iso, fixed4)), "\n"))
  }

  // ---------------------------------------------------------------------
  // Reading
  // ---------------------------------------------------------------------

  /** Reads a quoted field's body, the opening quote already consumed: a
      doubled quote stands for one quote and a single quote closes the
      field. Returns the value and the text after the closing quote. */
  function ReadQuoted(s: string): (r: Option<(string, string)>)
    ensures r.Some? ==> |r.value.1| < |s|
  {
    if s == [] then None
    else if s[0] == '"' then
      if |s| > 1 && s[1] == '"' then
        match ReadQuoted(s[2..])
        case None => None
        case Some(p) => Some(("\"" + p.0, p.1))
      else Some(("", s[1..]))
    else
      match ReadQuoted(s[1..])
      case None => None
      case Some(p) => Some(([s[0]] + p.0, p.1))
  }

  /** Reads an unquoted field: everything up to a comma or a line feed. */
  function ReadBare(s: string): (r: (string, string))
    ensures r.0 + r.1 == s
  {
    if s == [] || s[0] == ',' || s[0] == '\n' then ([], s)
    else
      var p := ReadBare(s[1..]);
      ([s[0]] + p.0, p.1)
  }

  function ReadField(s: string): (r: Option<(string, string)>)
    ensures r.Some? ==> |r.value.1| <= |s|
  {
    if s != [] && s[0] == '"' then ReadQuoted(s[1..]) else Some(ReadBare(s))
  }

  /** Reads one record: its fields, and the text after its line feed (None
      when the record ends the input). */
  function ReadRecord(s: string): (r: Option<(seq<string>, Option<string>)>)
    ensures r.Some? && r.value.1.Some? ==> |r.value.1.value| < |s|
    decreases |s|
  {
    match ReadField(s)
    case None => None
    case Some(p) =>
      if p.1 == [] then Some(([p.0], None))
      else if p.1[0] == '\n' then Some(([p.0], Some(p.1[1..])))
      else if p.1[0] == ',' then
        match ReadRecord(p.1[1..])
        case None => None
        case Some(q) => Some(([p.0] + q.0, q.1))
      else None
  }

  /** Reads every record of a CSV text. */
  function ReadCsv(s: string): Option<seq<seq<string>>>
    decreases |s|
  {
    match ReadRecord(s)
    case None => None
    case Some(p) =>
      match p.1
      case None => Some([p.0])
      case Some(rest) =>
        match ReadCsv(rest)
        case None => None
        case Some(rs) => Some([p.0] + rs)
  }

  // ---------------------------------------------------------------------
  // Round trip
  // ---------------------------------------------------------------------

  /** Reading one escaped character ahead of a quoted body yields that
      character ahead of the body's value. */
  lemma ReadQuotedCons(c: char, t: string, v: string, rest: string)
    requires ReadQuoted(t) == Some((v, rest))
    ensures ReadQuoted((if c == '"' then "\"\"" else [c]) + t) == Some(([c] + v, rest))
  {
    if c == '"' {
      var s := "\"\"" + t;
      assert s[0] == '"' && s[1] == '"' && s[2..] == t;
    } else {
      var s := [c] + t;
      assert s[0] == c && s[1..] == t;
    }
  }

  /** A single quote not followed by another closes the quoted field. */
  lemma ReadClosingQuote(rest: string)
    requires rest == [] || rest[0] != '"'
    ensures ReadQuoted("\"" + rest) == Some(("", rest))
  {
    var s := "\"" + rest;
    assert s[0] == '"' && s[1..] == rest;
  }

  /** The escaped text of a value, split after its first character. */
  lemma EscapedCons(v: string, rest: string)
    requires v != []
    ensures DoubleQuotes(v) + "\"" + rest ==
            (if v[0] == '"' then "\"\"" else [v[0]]) + (DoubleQuotes(v[1..]) + "\"" + rest)
  {
    var head := if v[0] == '"' then "\"\"" else [v[0]];
    assert DoubleQuotes(v) == head + DoubleQuotes(v[1..]);
    Regroup(head, DoubleQuotes(v[1..]), "\"", rest);
  }

  lemma Regroup3(a: string, b: string, c: string)
    ensures a + b + c == a + (b + c)
  {
  }

  lemma Regroup(a: string, b: string, c: string, d: string)
    ensures a + b + c + d == a + (b + c + d)
    ensures a + b + c + d == a + (b + (c + d))
  {
  }

  /** Removing the outer quotes and un-doubling recovers the value. */
  lemma {:induction false} ReadEscaped(v: string, rest: string)
    requires rest == [] || rest[0] != '"'
    ensures ReadQuoted(DoubleQuotes(v) + "\"" + rest) == Some((v, rest))
  {
    if v == [] {
      ReadClosingQuote(rest);
      assert DoubleQuotes(v) + "\"" + rest == "\"" + rest;
    } else {
      var t := DoubleQuotes(v[1..]) + "\"" + rest;
      calc {
        ReadQuoted(DoubleQuotes(v) + "\"" + rest);
        { EscapedCons(v, rest); }
        ReadQuoted((if v[0] == '"' then "\"\"" else [v[0]]) + t);
        { ReadEscaped(v[1..], rest); ReadQuotedCons(v[0], t, v[1..], rest); }
        Some(([v[0]] + v[1..], rest));
        { assert [v[0]] + v[1..] == v; }
        Some((v, rest));
      }
    }
  }

  lemma ReadFieldEscaped(v: string, rest: string)
    requires rest == [] || rest[0] != '"'
    ensures ReadField(Escape(v) + rest) == Some((v, rest))
  {
    var t := DoubleQuotes(v) + "\"" + rest;
    Regroup("\"", DoubleQuotes(v), "\"", rest);
    assert Escape(v) + rest == "\"" + t;
    assert ("\"" + t)[0] == '"' && ("\"" + t)[1..] == t;
    ReadEscaped(v, rest);
  }

  /** A field that ends the line ends the record. */
  lemma ReadRecordLast(s: string, v: string, rest: string)
    requires rest == [] || rest[0] == '\n'
    requires ReadField(s) == Some((v, rest))
    ensures ReadRecord(s) == Some(([v], if rest == [] then None else Some(rest[1..])))
  {
  }

  /** A field followed by a comma is the first of the record read after it. */
  lemma ReadRecordCons(s: string, v: string, more: string, vs: seq<string>, next: Option<string>)
    requires ReadField(s) == Some((v, "," + more))
    requires ReadRecord(more) == Some((vs, next))
    ensures ReadRecord(s) == Some(([v] + vs, next))
  {
    assert ("," + more)[1..] == more;
  }

  /** A record that ends the input is the last record. */
  lemma ReadCsvLast(s: string, fs: seq<string>)
    requires ReadRecord(s) == Some((fs, None))
    ensures ReadCsv(s) == Some([fs])
  {
  }

  /** A record followed by a line feed is the first of the records read
      after it. */
  lemma ReadCsvCons(s: string, fs: seq<string>, more: string, fss: seq<seq<string>>)
    requires ReadRecord(s) == Some((fs, Some(more)))
    requires ReadCsv(more) == Some(fss)
    ensures ReadCsv(s) == Some([fs] + fss)
  {
  }

  lemma RowTextCons(fs: seq<string>)
    requires |fs| > 1
    ensures RowText(fs) == Escape(fs[0]) + "," + RowText(fs[1..])
  {
    assert EscapeAll(fs)[1..] == EscapeAll(fs[1..]);
  }

  lemma RowTextSingle(fs: seq<string>)
    requires |fs| == 1
    ensures RowText(fs) == Escape(fs[0])
  {
    assert EscapeAll(fs) == [Escape(fs[0])];
  }

  /** A line of quoted fields reads back as those fields. */
  lemma {:induction false} ReadRowText(fs: seq<string>, rest: string)
    requires |fs| > 0
    requires rest == [] || rest[0] == '\n'
    ensures ReadRecord(RowText(fs) + rest) == Some((fs, if rest == [] then None else Some(rest[1..])))
  {
    var next: Option<string> := if rest == [] then None else Some(rest[1..]);
    if |fs| == 1 {
      RowTextSingle(fs);
      ReadFieldEscaped(fs[0], rest);
      ReadRecordLast(RowText(fs) + rest, fs[0], rest);
      assert [fs[0]] == fs;
    } else {
      var more := RowText(fs[1..]) + rest;
      calc {
        ReadRecord(RowText(fs) + rest);
        { RowTextCons(fs); Regroup(Escape(fs[0]), ",", RowText(fs[1..]), rest); }
        ReadRecord(Escape(fs[0]) + ("," + more));
        { ReadFieldEscaped(fs[0], "," + more);
          ReadRowText(fs[1..], rest);
          ReadRecordCons(Escape(fs[0]) + ("," + more), fs[0], more, fs[1..], next); }
        Some(([fs[0]] + fs[1..], next));
        { assert [fs[0]] + fs[1..] == fs; }
        Some((fs, next));
      }
    }
  }

  /** A value the reader takes back unquoted. */
  predicate Bare(v: string)
  {
    ',' !in v && '\n' !in v && '"' !in v
  }

  lemma {:induction false} ReadBareOf(v: string, rest: string)
    requires Bare(v)
    requires rest == [] || rest[0] == ',' || rest[0] == '\n'
    ensures ReadBare(v + rest) == (v, rest)
  {
    if v != [] {
      assert (v + rest)[1..] == v[1..] + rest;
      ReadBareOf(v[1..], rest);
      assert [v[0]] + v[1..] == v;
    } else {
      assert v + rest == rest;
    }
  }

  lemma ReadFieldBare(v: string, rest: string)
    requires Bare(v)
    requires rest == [] || rest[0] == ',' || rest[0] == '\n'
    ensures ReadField(v + rest) == Some((v, rest))
  {
    ReadBareOf(v, rest);
    if v == [] {
      assert v + rest == rest;
    }
  }

  /** A line of unquoted comma-free values reads back as those values. */
  lemma {:induction false} ReadBareLine(vs: seq<string>, rest: string)
    requires |vs| > 0
    requires forall i :: 0 <= i < |vs| ==> Bare(vs[i])
    requires rest == [] || rest[0] == '\n'
    ensures ReadRecord(Join(vs, ",") + rest) == Some((vs, if rest == [] then None else Some(rest[1..])))
  {
    var next: Option<string> := if rest == [] then None else Some(rest[1..]);
    if |vs| == 1 {
      ReadFieldBare(vs[0], rest);
      ReadRecordLast(Join(vs, ",") + rest, vs[0], rest);
      assert vs == [vs[0]];
    } else {
      var more := Join(vs[1..], ",") + rest;
      calc {
        ReadRecord(Join(vs, ",") + rest);
        { assert Join(vs, ",") == vs[0] + "," + Join(vs[1..], ",");
          Regroup(vs[0], ",", Join(vs[1..], ","), rest); }
        ReadRecord(vs[0] + ("," + more));
        { ReadFieldBare(vs[0], "," + more);
          ReadBareLine(vs[1..], rest);
          ReadRecordCons(vs[0] + ("," + more), vs[0], more, vs[1..], next); }
        Some(([vs[0]] + vs[1..], next));
        { assert [vs[0]] + vs[1..] == vs; }
        Some((vs, next));
      }
    }
  }

  lemma RowTextsCons(fss: seq<seq<string>>)
    requires |fss| > 1
    ensures Join(RowTexts(fss), "\n") == RowText(fss[0]) + ("\n" + Join(RowTexts(fss[1..]), "\n"))
  {
    assert RowTexts(fss)[1..] == RowTexts(fss[1..]);
    Regroup3(RowText(fss[0]), "\n", Join(RowTexts(fss[1..]), "\n"));
  }

  /** Lines of quoted fields joined by "\n" read back as their fields. */
  lemma {:induction false} ReadRowTexts(fss: seq<seq<string>>)
    requires |fss| > 0
    requires forall i :: 0 <= i < |fss| ==> |fss[i]| > 0
    ensures ReadCsv(Join(RowTexts(fss), "\n")) == Some(fss)
  {
    if |fss| == 1 {
      assert Join(RowTexts(fss), "\n") == RowText(fss[0]) + "";
      ReadRowText(fss[0], "");
      ReadCsvLast(RowText(fss[0]) + "", fss[0]);
      assert fss == [fss[0]];
    } else {
      var more := Join(RowTexts(fss[1..]), "\n");
      calc {
        ReadCsv(Join(RowTexts(fss), "\n"));
        { RowTextsCons(fss); }
        ReadCsv(RowText(fss[0]) + ("\n" + more));
        { ReadRowText(fss[0], "\n" + more);
          assert ("\n" + more)[1..] == more;
          ReadRowTexts(fss[1..]);
          ReadCsvCons(RowText(fss[0]) + ("\n" + more), fss[0], more, fss[1..]); }
        Some([fss[0]] + fss[1..]);
        { assert [fss[0]] + fss[1..] == fss; }
        Some(fss);
      }
    }
  }

  lemma HeadersAreBare()
    ensures forall i :: 0 <= i < |Headers| ==> Bare(Headers[i])
  {
  }

  /** Reading the exported text gives back the header names and, line by
      line, the seven field values of every review in input order. */
  lemma ExportReadsBack(rs: seq<SentimentReview>, iso: int -> string, fixed4: real -> string)
    requires rs != []
    ensures ReadCsv(ExportCsv(rs, iso, fixed4).value) == Some([Headers] + AllFields(rs, iso, fixed4))
  {
    var fss := AllFields(rs, iso, fixed4);
    var header := Join(Headers, ",");
    var more := Join(RowTexts(fss), "\n");
    var lines := [header] + RowTexts(fss);
    calc {
      ReadCsv(ExportCsv(rs, iso, fixed4).value);
      { assert lines[0] == header && lines[1..] == RowTexts(fss);
        assert Join(lines, "\n") == header + "\n" + more;
        Regroup3(header, "\n", more); }
      ReadCsv(header + ("\n" + more));
      { HeadersAreBare();
        ReadBareLine(Headers, "\n" + more);
        assert ("\n" + more)[1..] == more;
        ReadRowTexts(fss);
        ReadCsvCons(header + ("\n" + more), Headers, more, fss); }
      Some([Headers] + fss);
    }
  }
}
