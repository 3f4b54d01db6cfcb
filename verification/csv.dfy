/**
 * CSV text as both exports write it, and a reader for it.
 *
 * The writers quote a field the way rules 5-7 of section 2 of RFC 4180 say:
 * wrap it in double quotes and double every double quote inside. Some
 * exhibitor columns are written without quotes, and records are separated
 * by a bare line feed rather than CRLF. `ParseDocument` reads RFC 4180
 * records with line-feed separators; the lemmas at the end show that it
 * reads back exactly the values that were written, which is what makes
 * the writers correct.
 */
module Csv {

  import opened Wrappers
  import opened Lists

  /** Doubles every double quote (`replace(/"/g, '""')`). */
  function Escape(s: string): (r: string)
    ensures |r| >= |s|
  {
    if s == [] then []
    else (if s[0] == '"' then "\"\"" else [s[0]]) + Escape(s[1..])
  }

  /** Escaping adds exactly one character per quote in the text. */
  lemma {:induction false} EscapeLength(s: string)
    ensures |Escape(s)| == |s| + multiset(s)['"']
  {
    if s != [] {
      EscapeLength(s[1..]);
      assert s == [s[0]] + s[1..];
    }
  }

  /** Text without double quotes is left as it is. */
  lemma {:induction false} EscapeNoQuote(s: string)
    requires '"' !in s
    ensures Escape(s) == s
  {
    if s != [] {
      assert s[0] in s;
      assert forall c :: c in s[1..] ==> c in s;
      EscapeNoQuote(s[1..]);
      assert [s[0]] + s[1..] == s;
    }
  }

  /** A cell as a writer emits it: wrapped in quotes, or as it is. */
  datatype Cell = Quoted(text: string) | Bare(text: string)

  function Render(c: Cell): (r: string)
    ensures c.Bare? ==> r == c.text
    ensures c.Quoted? ==> |r| >= 2 && r[0] == '"' && r[|r| - 1] == '"'
  {
    match c
    case Quoted(t) => "\"" + Escape(t) + "\""
    case Bare(t) => t
  }

  /** Text a reader takes back unchanged when it is written without quotes. */
  predicate Plain(s: string) {
    ',' !in s && '"' !in s && '\n' !in s
  }

  predicate WellFormed(c: Cell) {
    c.Bare? ==> Plain(c.text)
  }

  /** `parts.join(sep)`: nothing for no parts, the first part, then for each further part the separator and the part. */
  function Join(sep: char, parts: seq<string>): (r: string)
    ensures parts == [] ==> r == []
    ensures parts != [] ==> parts[0] <= r
    ensures |parts| >= 2 ==> |r| > |parts[0]| && r[|parts[0]|] == sep
  {
    if |parts| == 0 then ""
    else if |parts| == 1 then parts[0]
    else parts[0] + [sep] + Join(sep, parts[1..])
  }

  function Rendered(cells: seq<Cell>): (r: seq<string>)
    ensures |r| == |cells|
  {
    if cells == [] then [] else [Render(cells[0])] + Rendered(cells[1..])
  }

  /** One record: the rendered cells joined by commas. */
  function RenderRow(cells: seq<Cell>): (r: string)
    ensures cells == [] ==> r == []
    ensures cells != [] ==> Render(cells[0]) <= r
  {
    Join(',', Rendered(cells))
  }

  /** The values a record carries. */
  function Values(cells: seq<Cell>): (r: seq<string>)
    ensures |r| == |cells|
    ensures forall k :: 0 <= k < |cells| ==> r[k] == cells[k].text
  {
    if cells == [] then [] else [cells[0].text] + Values(cells[1..])
  }

  // ---------------------------------------------------------------------
  // The reader
  // ---------------------------------------------------------------------

  datatype Parsed<T> = Parsed(value: T, rest: string)

  /**
   * Reads the inside of a quoted field, after its opening quote, up to and
   * including the closing quote; `""` stands for one quote. `None` when the
   * closing quote is missing.
   */
  function ParseQuoted(s: string): (r: Option<Parsed<string>>)
    ensures r.Some? ==> |r.value.rest| < |s|
  {
    if s == [] then None
    else if s[0] == '"' then
      if |s| >= 2 && s[1] == '"' then
        match ParseQuoted(s[2..])
        case None => None
        case Some(p) => Some(Parsed("\"" + p.value, p.rest))
      else Some(Parsed("", s[1..]))
    else
      match ParseQuoted(s[1..])
      case None => None
      case Some(p) => Some(Parsed([s[0]] + p.value, p.rest))
  }

  /**
   * Reads an unquoted field: the longest prefix free of commas and line
   * feeds.
   */
  function ParseBare(s: string): (r: Parsed<string>)
    ensures r.value + r.rest == s
    ensures ',' !in r.value && '\n' !in r.value
    ensures r.rest == [] || r.rest[0] == ',' || r.rest[0] == '\n'
  {
    if s == [] || s[0] == ',' || s[0] == '\n' then Parsed("", s)
    else
      var p := ParseBare(s[1..]);
      assert [s[0]] + p.value + p.rest == s;
      Parsed([s[0]] + p.value, p.rest)
  }

  function ParseField(s: string): (r: Option<Parsed<string>>)
    ensures r.Some? ==> |r.value.rest| <= |s|
    ensures r.Some? && s != [] && s[0] == '"' ==> |r.value.rest| < |s|
  {
    if s != [] && s[0] == '"' then ParseQuoted(s[1..]) else Some(ParseBare(s))
  }

  /**
   * Reads one record: fields separated by commas, ended by a line feed
   * (which it consumes) or by the end of the text.
   */
  function ParseRecord(s: string): (r: Option<Parsed<seq<string>>>)
    ensures r.Some? ==> |r.value.value| >= 1 && |r.value.rest| <= |s|
    ensures r.Some? && s != [] ==> |r.value.rest| < |s|
    decreases |s|
  {
    match ParseField(s)
    case None => None
    case Some(f) =>
      if f.rest == [] then Some(Parsed([f.value], []))
      else if f.rest[0] == ',' then
        match ParseRecord(f.rest[1..])
        case None => None
        case Some(more) => Some(Parsed([f.value] + more.value, more.rest))
      else if f.rest[0] == '\n' then Some(Parsed([f.value], f.rest[1..]))
      else None
  }

  /** Reads records until the text is used up; `None` on malformed text. */
  function ParseDocument(s: string): Option<seq<seq<string>>>
    decreases |s|
  {
    if s == [] then Some([])
    else
      match ParseRecord(s)
      case None => None
      case Some(rec) =>
        match ParseDocument(rec.rest)
        case None => None
        case Some(recs) => Some([rec.value] + recs)
  }

  // ---------------------------------------------------------------------
  // Reading back what was written
  // ---------------------------------------------------------------------

  /** A doubled quote inside a quoted field reads as one quote. */
  lemma ParseQuotedPair(tail: string, v: string, rest: string)
    requires ParseQuoted(tail) == Some(Parsed(v, rest))
    ensures ParseQuoted("\"\"" + tail) == Some(Parsed("\"" + v, rest))
  {
    var s := "\"\"" + tail;
    assert s[0] == '"' && s[1] == '"' && s[2..] == tail;
  }

  /** Any other character inside a quoted field reads as itself. */
  lemma ParseQuotedChar(c: char, tail: string, v: string, rest: string)
    requires c != '"'
    requires ParseQuoted(tail) == Some(Parsed(v, rest))
    ensures ParseQuoted([c] + tail) == Some(Parsed([c] + v, rest))
  {
    var s := [c] + tail;
    assert s[0] == c && s[1..] == tail;
  }

  /** The step of `ParseQuotedEscape` for a text that starts with a quote. */
  lemma ParseQuotedEscapeQuote(t: string, rest: string)
    requires t != [] && t[0] == '"'
    requires ParseQuoted(Escape(t[1..]) + "\"" + rest) == Some(Parsed(t[1..], rest))
    ensures ParseQuoted(Escape(t) + "\"" + rest) == Some(Parsed(t, rest))
  {
    var tail := Escape(t[1..]) + "\"" + rest;
    calc {
      Escape(t) + "\"" + rest;
      ("\"\"" + Escape(t[1..])) + "\"" + rest;
      "\"\"" + tail;
    }
    ParseQuotedPair(tail, t[1..], rest);
    assert "\"" + t[1..] == t;
  }

  /** The step of `ParseQuotedEscape` for a text that starts with another character. */
  lemma ParseQuotedEscapeChar(t: string, rest: string)
    requires t != [] && t[0] != '"'
    requires ParseQuoted(Escape(t[1..]) + "\"" + rest) == Some(Parsed(t[1..], rest))
    ensures ParseQuoted(Escape(t) + "\"" + rest) == Some(Parsed(t, rest))
  {
    var tail := Escape(t[1..]) + "\"" + rest;
    calc {
      Escape(t) + "\"" + rest;
      ([t[0]] + Escape(t[1..])) + "\"" + rest;
      [t[0]] + tail;
    }
    ParseQuotedChar(t[0], tail, t[1..], rest);
    assert [t[0]] + t[1..] == t;
  }

  /** An escaped text followed by a closing quote reads back as the text. */
  lemma {:induction false} ParseQuotedEscape(t: string, rest: string)
    requires rest == [] || rest[0] != '"'
    ensures ParseQuoted(Escape(t) + "\"" + rest) == Some(Parsed(t, rest))
  {
    if t == [] {
      var s := "\"" + rest;
      assert Escape(t) + "\"" + rest == s;
      assert s[0] == '"' && s[1..] == rest;
    } else {
      ParseQuotedEscape(t[1..], rest);
      if t[0] == '"' {
        ParseQuotedEscapeQuote(t, rest);
      } else {
        ParseQuotedEscapeChar(t, rest);
      }
    }
  }

  /** Plain text followed by a separator (or nothing) reads back as itself. */
  lemma {:induction false} ParseBarePlain(t: string, rest: string)
    requires Plain(t)
    requires rest == [] || rest[0] == ',' || rest[0] == '\n'
    ensures ParseBare(t + rest) == Parsed(t, rest)
  {
    if t == [] {
      assert t + rest == rest;
    } else {
      assert t[0] in t;
      assert (t + rest)[1..] == t[1..] + rest;
      ParseBarePlain(t[1..], rest);
      assert [t[0]] + t[1..] == t;
    }
  }

  /** A well-formed cell followed by a separator reads back as its value. */
  lemma ParseFieldRender(c: Cell, rest: string)
    requires WellFormed(c)
    requires rest == [] || rest[0] == ',' || rest[0] == '\n'
    ensures ParseField(Render(c) + rest) == Some(Parsed(c.text, rest))
  {
    match c
    case Quoted(t) =>
      ParseQuotedEscape(t, rest);
      assert Render(c) + rest == "\"" + (Escape(t) + "\"" + rest);
    case Bare(t) =>
      ParseBarePlain(t, rest);
      if t != [] {
        assert (t + rest)[0] == t[0];
      }
  }

  /**
   * A written record followed by a line feed (or by the end of the text)
   * reads back as its values, and the reader stops right after it.
   */
  lemma {:induction false} ParseRecordRender(cells: seq<Cell>, rest: string)
    requires |cells| >= 1
    requires forall k :: 0 <= k < |cells| ==> WellFormed(cells[k])
    requires rest == [] || rest[0] == '\n'
    ensures ParseRecord(RenderRow(cells) + rest)
         == Some(Parsed(Values(cells), if rest == [] then [] else rest[1..]))
  {
    var parts := Rendered(cells);
    if |cells| == 1 {
      assert RenderRow(cells) == Render(cells[0]);
      assert Values(cells) == [cells[0].text];
      ParseFieldRender(cells[0], rest);
    } else {
      assert parts[1..] == Rendered(cells[1..]);
      var tail := RenderRow(cells[1..]) + rest;
      assert RenderRow(cells) + rest == Render(cells[0]) + ("," + tail);
      ParseFieldRender(cells[0], "," + tail);
      assert ("," + tail)[1..] == tail;
      ParseRecordRender(cells[1..], rest);
      assert Values(cells) == [cells[0].text] + Values(cells[1..]);
    }
  }

  /** The rendered lines of a document. */
  function Lines(rows: seq<seq<Cell>>): (r: seq<string>)
    ensures |r| == |rows|
  {
    if rows == [] then [] else [RenderRow(rows[0])] + Lines(rows[1..])
  }

  /** The values of a document, record by record. */
  function Table(rows: seq<seq<Cell>>): (r: seq<seq<string>>)
    ensures |r| == |rows|
    ensures forall k :: 0 <= k < |rows| ==> r[k] == Values(rows[k])
  {
    if rows == [] then [] else [Values(rows[0])] + Table(rows[1..])
  }

  /** Rows of at least two well-formed cells: such a row is never empty text. */
  predicate WellFormedRow(cells: seq<Cell>) {
    |cells| >= 2 && forall k :: 0 <= k < |cells| ==> WellFormed(cells[k])
  }

  predicate WellFormedRows(rows: seq<seq<Cell>>) {
    forall i :: 0 <= i < |rows| ==> WellFormedRow(rows[i])
  }

  lemma RenderRowNonEmpty(cells: seq<Cell>)
    requires |cells| >= 2
    ensures RenderRow(cells) != []
  {
    var parts := Rendered(cells);
    assert RenderRow(cells) == parts[0] + [','] + Join(',', parts[1..]);
  }

  /** Lines joined by line feeds read back as the table of their values. */
  lemma {:induction false} ParseDocumentLines(rows: seq<seq<Cell>>)
    requires WellFormedRows(rows)
    ensures ParseDocument(Join('\n', Lines(rows))) == Some(Table(rows))
  {
    if rows != [] {
      var lines := Lines(rows);
      RenderRowNonEmpty(rows[0]);
      if |rows| == 1 {
        assert Join('\n', lines) == RenderRow(rows[0]) + [];
        ParseRecordRender(rows[0], []);
      } else {
        assert lines[1..] == Lines(rows[1..]);
        var tail := Join('\n', Lines(rows[1..]));
        assert Join('\n', lines) == RenderRow(rows[0]) + ("\n" + tail);
        ParseRecordRender(rows[0], "\n" + tail);
        assert ("\n" + tail)[1..] == tail;
        ParseDocumentLines(rows[1..]);
      }
    }
  }

  /** A header line followed by data lines reads back as header values, then the table. */
  lemma ParseDocumentWithHeader(header: seq<Cell>, rows: seq<seq<Cell>>)
    requires WellFormedRow(header) && WellFormedRows(rows)
    ensures ParseDocument(Join('\n', Lines([header] + rows))) == Some([Values(header)] + Table(rows))
  {
    var all := [header] + rows;
    assert all[1..] == rows;
    assert forall i :: 1 <= i < |all| ==> all[i] == rows[i - 1];
    assert WellFormedRows(all);
    ParseDocumentLines(all);
  }

  /**
   * A header line, a line feed and the data lines joined by line feeds read
   * back as the header values and then the table, with or without data lines.
   */
  lemma ParseDocumentHeaderLines(header: seq<Cell>, rows: seq<seq<Cell>>)
    requires WellFormedRow(header) && WellFormedRows(rows)
    ensures ParseDocument(RenderRow(header) + "\n" + Join('\n', Lines(rows)))
         == Some([Values(header)] + Table(rows))
  {
    if rows == [] {
      assert RenderRow(header) + "\n" + Join('\n', Lines(rows)) == RenderRow(header) + "\n";
      ParseDocumentOneLine(header);
      assert [Values(header)] + Table(rows) == [Values(header)];
    } else {
      var lines := Lines([header] + rows);
      assert ([header] + rows)[1..] == rows;
      assert lines[1..] == Lines(rows);
      assert Join('\n', lines) == RenderRow(header) + "\n" + Join('\n', Lines(rows));
      ParseDocumentWithHeader(header, rows);
    }
  }

  /** The rows built for the items carry, row by row, the values expected for them. */
  lemma MapTable<T>(cells: T -> seq<Cell>, values: T -> seq<string>, items: seq<T>)
    requires forall k :: 0 <= k < |items| ==> Values(cells(items[k])) == values(items[k])
    ensures Table(Map(cells, items)) == Map(values, items)
  {
  }

  /** Rows built from well-formed rows are well formed. */
  lemma MapWellFormed<T>(cells: T -> seq<Cell>, items: seq<T>)
    requires forall k :: 0 <= k < |items| ==> WellFormedRow(cells(items[k]))
    ensures WellFormedRows(Map(cells, items))
  {
  }

  /**
   * A header followed by data lines, all joined by line feeds, is the
   * header line alone, or the header line, a line feed and the data lines.
   */
  lemma JoinHeader(header: seq<Cell>, rows: seq<seq<Cell>>)
    ensures Join('\n', Lines([header] + rows))
         == if rows == [] then RenderRow(header) else RenderRow(header) + "\n" + Join('\n', Lines(rows))
  {
    var lines := Lines([header] + rows);
    assert ([header] + rows)[1..] == rows;
    assert lines[1..] == Lines(rows);
  }

  /** A line of column titles, every title written as it is. */
  function BareRow(names: seq<string>): (r: seq<Cell>)
    ensures |r| == |names|
    ensures forall k :: 0 <= k < |names| ==> r[k] == Bare(names[k])
  {
    if names == [] then [] else [Bare(names[0])] + BareRow(names[1..])
  }

  /** Every title is plain text. */
  predicate AllPlain(names: seq<string>) {
    names == [] || (Plain(names[0]) && AllPlain(names[1..]))
  }

  lemma {:induction false} AllPlainAt(names: seq<string>, k: nat)
    requires AllPlain(names) && k < |names|
    ensures Plain(names[k])
  {
    if k > 0 {
      AllPlainAt(names[1..], k - 1);
    }
  }

  /** A title line of plain titles is well formed and carries the titles. */
  lemma BareRowReadsBack(names: seq<string>)
    requires |names| >= 2 && AllPlain(names)
    ensures WellFormedRow(BareRow(names))
    ensures Values(BareRow(names)) == names
  {
    var r := BareRow(names);
    forall k | 0 <= k < |r| ensures WellFormed(r[k]) {
      AllPlainAt(names, k);
    }
  }

  /** A single written record ended by a line feed reads back as one record. */
  lemma ParseDocumentOneLine(cells: seq<Cell>)
    requires WellFormedRow(cells)
    ensures ParseDocument(RenderRow(cells) + "\n") == Some([Values(cells)])
  {
    RenderRowNonEmpty(cells);
    ParseRecordRender(cells, "\n");
    var s := RenderRow(cells) + "\n";
    assert "\n" != [] && "\n"[1..] == [];
    assert ParseRecord(s) == Some(Parsed(Values(cells), []));
    assert ParseDocument([]) == Some([]);
    assert s != [];
    assert ParseDocument(s) == Some([Values(cells)] + []);
    assert [Values(cells)] + [] == [Values(cells)];
  }

}
