/** The structured-content builders of `src/utils/contentUtils.js`: tables,
    FAQ sections and listicles, built from template literals. Every input
    string is interpolated as is, with no escaping. The strings below keep
    the literals' exact line breaks and indentation. */
module ContentUtils {
  import opened Wrappers
  import opened Text

  /** `n` spaces of template-literal indentation. */
  function Spaces(n: nat): (r: string)
    ensures |r| == n
    ensures forall i :: 0 <= i < n ==> r[i] == ' '
  {
    seq(n, _ => ' ')
  }

  // ---------------------------------------------------------------------
  // generateTable

  function Open(tag: string): string {
    "<" + tag + ">"
  }

  function Close(tag: string): string {
    "</" + tag + ">"
  }

  /** `cells.map(c => `<tag>${c}</tag>`).join('')`. */
  function Wrap(cells: seq<string>, tag: string): string {
    if cells == [] then "" else Open(tag) + cells[0] + Close(tag) + Wrap(cells[1..], tag)
  }

  /** The position of the first `c` in `s`, or `|s|` when there is none. */
  function IndexOf(s: string, c: char): (r: nat)
    ensures r <= |s|
    ensures r < |s| ==> s[r] == c
    ensures forall j :: 0 <= j < r ==> s[j] != c
  {
    if s == [] then 0
    else if s[0] == c then 0
    else 1 + IndexOf(s[1..], c)
  }

  /** Reads back a run of `<tag>...</tag>` elements whose texts hold no '<':
      the texts in order, or `None` when `s` is not such a run. */
  function Unwrap(s: string, tag: string): (r: Option<seq<string>>)
    decreases |s|
  {
    if s == [] then Some([])
    else if !(Open(tag) <= s) then None
    else
      var rest := s[|Open(tag)|..];
      var k := IndexOf(rest, '<');
      if Close(tag) <= rest[k..] then
        match Unwrap(rest[k + |Close(tag)|..], tag)
        case None => None
        case Some(more) => Some([rest[..k]] + more)
      else None
  }

  predicate NoTagStart(s: string) {
    '<' !in s
  }

  /** Cell texts can be read back from the markup: one element per cell, in
      order, provided no cell contains '<'. */
  lemma {:induction false} UnwrapWrap(cells: seq<string>, tag: string)
    requires forall i :: 0 <= i < |cells| ==> NoTagStart(cells[i])
    ensures Unwrap(Wrap(cells, tag), tag) == Some(cells)
  {
    if cells != [] {
      var c := cells[0];
      var tail := Wrap(cells[1..], tag);
      assert Wrap(cells, tag) == Open(tag) + (c + Close(tag) + tail);
      UnwrapWrap(cells[1..], tag);
      UnwrapOne(c, tail, tag);
      assert cells == [c] + cells[1..];
    }
  }

  /** One element is read back, then the rest. */
  lemma UnwrapOne(c: string, tail: string, tag: string)
    requires NoTagStart(c)
    ensures Unwrap(Open(tag) + (c + Close(tag) + tail), tag)
         == if Unwrap(tail, tag).Some? then Some([c] + Unwrap(tail, tag).value) else None
  {
    var s := Open(tag) + (c + Close(tag) + tail);
    var rest := s[|Open(tag)|..];
    assert rest == c + Close(tag) + tail;
    assert IndexOf(rest, '<') == |c| by {
      IndexOfAfter(c, Close(tag) + tail);
      assert rest == c + (Close(tag) + tail);
    }
    assert rest[|c|..] == Close(tag) + tail;
    assert rest[..|c|] == c;
    assert rest[|c| + |Close(tag)|..] == tail;
  }

  lemma {:induction false} IndexOfAfter(a: string, b: string)
    requires '<' !in a && b != [] && b[0] == '<'
    ensures IndexOf(a + b, '<') == |a|
  {
    if a != [] {
      assert (a + b)[1..] == a[1..] + b;
      IndexOfAfter(a[1..], b);
    }
  }

  /** The header row: one `<th>` per header. */
  function HeaderRowHtml(headers: seq<string>): string {
    "<tr>" + Wrap(headers, "th") + "</tr>"
  }

  /** The text before and after the cells of a body row. */
  const RowStart := "\n" + Spaces(16) + "<tr>"
  const RowEnd := "</tr>\n" + Spaces(14)

  /** One body row: one `<td>` per cell, on its own indented line. */
  function BodyRowHtml(row: seq<string>): string {
    RowStart + Wrap(row, "td") + RowEnd
  }

  function BodyRowsHtml(rows: seq<seq<string>>): string {
    if rows == [] then "" else BodyRowHtml(rows[0]) + BodyRowsHtml(rows[1..])
  }

  /** Reads `<td>...</td>` elements whose texts hold no '<' from the front
      of `s`: their texts in order and the text after the last one, or
      `None` when an element is not closed. */
  function ReadCells(s: string): (r: Option<(seq<string>, string)>)
    ensures r.Some? ==> |r.value.1| <= |s|
    decreases |s|
  {
    if !(Open("td") <= s) then Some(([], s))
    else
      var rest := s[|Open("td")|..];
      var k := IndexOf(rest, '<');
      if Close("td") <= rest[k..] then
        match ReadCells(rest[k + |Close("td")|..])
        case None => None
        case Some(more) => Some(([rest[..k]] + more.0, more.1))
      else None
  }

  /** Reads the body rows back from their markup: one row per
      `<tr>...</tr>` line, in order, or `None` when `s` is not such a run. */
  function ReadRows(s: string): Option<seq<seq<string>>>
    decreases |s|
  {
    if s == [] then Some([])
    else if !(RowStart <= s) then None
    else
      match ReadCells(s[|RowStart|..])
      case None => None
      case Some(cells) =>
        if RowEnd <= cells.1 then
          match ReadRows(cells.1[|RowEnd|..])
          case None => None
          case Some(more) => Some([cells.0] + more)
        else None
  }

  /** The body rows can be read back from the markup: one `<tr>` line per
      data row, in order, each with one `<td>` per cell, provided no cell
      contains '<'. */
  lemma {:induction false} ReadRowsBody(rows: seq<seq<string>>)
    requires forall i, j :: 0 <= i < |rows| && 0 <= j < |rows[i]| ==> NoTagStart(rows[i][j])
    ensures ReadRows(BodyRowsHtml(rows)) == Some(rows)
  {
    if rows != [] {
      ReadRowsBody(rows[1..]);
      ReadRowsOne(rows[0], BodyRowsHtml(rows[1..]));
      assert rows == [rows[0]] + rows[1..];
    }
  }

  /** The `<tbody>` of the generated table reads back as exactly the data
      rows: one `<tr>` line per row, in order, one `<td>` per cell. */
  lemma TableBodyRows(headers: seq<string>, rows: seq<seq<string>>)
    requires forall i, j :: 0 <= i < |rows| && 0 <= j < |rows[i]| ==> NoTagStart(rows[i][j])
    ensures var html := GenerateTable(headers, rows).html;
      var k := |TableHead + HeaderRowHtml(headers) + TableMiddle|;
      && k + |TableTail| <= |html|
      && ReadRows(html[k..|html| - |TableTail|]) == Some(rows)
  {
    var pre, body := TableHead + HeaderRowHtml(headers) + TableMiddle, BodyRowsHtml(rows);
    var html := GenerateTable(headers, rows).html;
    assert html == pre + body + TableTail;
    assert html[|pre|..|html| - |TableTail|] == body;
    ReadRowsBody(rows);
  }

  /** One row is read back, then the rest. */
  lemma ReadRowsOne(row: seq<string>, t: string)
    requires forall j :: 0 <= j < |row| ==> NoTagStart(row[j])
    ensures ReadRows(BodyRowHtml(row) + t)
         == if ReadRows(t).Some? then Some([row] + ReadRows(t).value) else None
  {
    var cs, u := Wrap(row, "td"), RowEnd + t;
    var s := BodyRowHtml(row) + t;
    Regroup3(RowStart, cs, RowEnd, t);
    assert s == RowStart + (cs + u);
    assert RowStart <= s && s[|RowStart|..] == cs + u;
    assert u[1] == '/';
    ReadCellsWrap(row, u);
    assert RowEnd <= u && u[|RowEnd|..] == t;
  }

  /** The cells of a row are read back, and reading stops after the last. */
  lemma {:induction false} ReadCellsWrap(cells: seq<string>, tail: string)
    requires forall i :: 0 <= i < |cells| ==> NoTagStart(cells[i])
    requires !(Open("td") <= tail)
    ensures ReadCells(Wrap(cells, "td") + tail) == Some((cells, tail))
  {
    if cells == [] {
      assert Wrap(cells, "td") + tail == tail;
    } else {
      var c, more := cells[0], cells[1..];
      assert cells == [c] + more;
      ReadCellsWrap(more, tail);
      var o, e, w := Open("td"), Close("td"), Wrap(more, "td");
      ReadCellsStep(c, w, tail, more);
      assert Wrap(cells, "td") == o + c + e + w;
      Regroup4(o, c, e, w, tail);
    }
  }

  lemma Regroup3(a: string, b: string, c: string, t: string)
    ensures a + b + c + t == a + (b + (c + t))
  {
  }

  lemma Regroup4(o: string, c: string, e: string, w: string, t: string)
    ensures o + c + e + w + t == o + (c + e + (w + t))
  {
  }

  lemma ReadCellsStep(c: string, w: string, tail: string, more: seq<string>)
    requires NoTagStart(c)
    requires ReadCells(w + tail) == Some((more, tail))
    ensures ReadCells(Open("td") + (c + Close("td") + (w + tail))) == Some(([c] + more, tail))
  {
    ReadCellsOne(c, w + tail);
  }

  /** One cell is read back, then the rest. */
  lemma ReadCellsOne(c: string, t: string)
    requires NoTagStart(c)
    ensures ReadCells(Open("td") + (c + Close("td") + t))
         == if ReadCells(t).Some? then Some(([c] + ReadCells(t).value.0, ReadCells(t).value.1)) else None
  {
    var s := Open("td") + (c + Close("td") + t);
    var rest := s[|Open("td")|..];
    assert rest == c + Close("td") + t;
    assert IndexOf(rest, '<') == |c| by {
      IndexOfAfter(c, Close("td") + t);
      assert rest == c + (Close("td") + t);
    }
    assert rest[|c|..] == Close("td") + t;
    assert rest[..|c|] == c;
    assert rest[|c| + |Close("td")|..] == t;
  }

  /** The fixed text around the header row and the body rows. */
  const TableHead := "\n" + Spaces(10) + "<table class=\"content-table\">\n" + Spaces(12) + "<thead>\n" + Spaces(14)
  const TableMiddle := "\n" + Spaces(12) + "</thead>\n" + Spaces(12) + "<tbody>\n" + Spaces(14)
  const TableTail := "\n" + Spaces(12) + "</tbody>\n" + Spaces(10) + "</table>\n" + Spaces(8)

  function TableHtml(headers: seq<string>, rows: seq<seq<string>>): string {
    TableHead + HeaderRowHtml(headers) + TableMiddle + BodyRowsHtml(rows) + TableTail
  }

  /** `| a | b | c |`: the cells joined by ' | ' between '| ' and ' |'. */
  function RowLine(cells: seq<string>): string {
    "| " + Join(cells, " | ") + " |"
  }

  /** `headers.map(() => '---')`. */
  function Dashes(n: nat): (r: seq<string>)
    ensures |r| == n
    ensures forall i :: 0 <= i < n ==> r[i] == "---"
  {
    seq(n, _ => "---")
  }

  function RowLines(rows: seq<seq<string>>): (r: seq<string>)
    ensures |r| == |rows|
    ensures forall i :: 0 <= i < |rows| ==> r[i] == RowLine(rows[i])
  {
    seq(|rows|, i requires 0 <= i < |rows| => RowLine(rows[i]))
  }

  function TableMarkdown(headers: seq<string>, rows: seq<seq<string>>): string {
    var h := Spaces(10) + RowLine(headers);
    var sep := Spaces(10) + RowLine(Dashes(|headers|));
    var body := Spaces(10) + Join(RowLines(rows), "\n");
    "\n" + h + "\n" + sep + "\n" + body + "\n" + Spaces(8)
  }

  datatype Table = Table(html: string, markdown: string)

  /** `generateTable(headers, rows)`. The HTML holds the header row and
      every body row, in order; the markdown holds the header line and the
      separator line. */
  function GenerateTable(headers: seq<string>, rows: seq<seq<string>>): (r: Table)
    ensures Includes(r.html, HeaderRowHtml(headers))
    ensures Includes(r.html, BodyRowsHtml(rows))
    ensures Includes(r.markdown, RowLine(headers))
    ensures Includes(r.markdown, RowLine(Dashes(|headers|)))
  {
    TableHtmlParts(headers, rows);
    TableMarkdownParts(headers, rows);
    Table(TableHtml(headers, rows), TableMarkdown(headers, rows))
  }

  lemma TableHtmlParts(headers: seq<string>, rows: seq<seq<string>>)
    ensures Includes(TableHtml(headers, rows), HeaderRowHtml(headers))
    ensures Includes(TableHtml(headers, rows), BodyRowsHtml(rows))
  {
    var h, b := HeaderRowHtml(headers), BodyRowsHtml(rows);
    Includes5(TableHead, h, TableMiddle, b, TableTail);
  }

  lemma TableMarkdownParts(headers: seq<string>, rows: seq<seq<string>>)
    ensures Includes(TableMarkdown(headers, rows), RowLine(headers))
    ensures Includes(TableMarkdown(headers, rows), RowLine(Dashes(|headers|)))
  {
    var hl, sl := RowLine(headers), RowLine(Dashes(|headers|));
    var body := Spaces(10) + Join(RowLines(rows), "\n");
    var md := TableMarkdown(headers, rows);
    assert md == ("\n" + Spaces(10)) + hl + ("\n" + Spaces(10)) + sl + ("\n" + body + "\n" + Spaces(8));
    Includes5("\n" + Spaces(10), hl, "\n" + Spaces(10), sl, "\n" + body + "\n" + Spaces(8));
  }

  /** Both middle pieces of `a + x + b + y + c` occur in it. */
  lemma Includes5(a: string, x: string, b: string, y: string, c: string)
    ensures Includes(a + x + b + y + c, x)
    ensures Includes(a + x + b + y + c, y)
  {
    var s := a + x + b + y + c;
    assert s == a + x + (b + y + c);
    IncludesWithin(a, x, b + y + c);
    assert s == a + x + b + y + c;
    IncludesWithin(a + x + b, y, c);
  }

  /** `sub` inside a string stays inside it when text is put around it. */
  lemma IncludesWithin(a: string, sub: string, c: string)
    ensures Includes(a + sub + c, sub)
  {
    assert (a + sub + c)[|a|..|a| + |sub|] == sub;
    assert OccursAt(a + sub + c, sub, |a|);
    IncludesAt(a + sub + c, sub);
  }

  function Padded(cells: seq<string>): (r: seq<string>)
    ensures |r| == |cells|
    ensures forall i :: 0 <= i < |cells| ==> r[i] == " " + cells[i] + " "
  {
    seq(|cells|, i requires 0 <= i < |cells| => " " + cells[i] + " ")
  }

  lemma {:induction false} PaddedJoin(cells: seq<string>)
    requires |cells| >= 1
    ensures " " + Join(cells, " | ") + " " == Join(Padded(cells), "|")
  {
    if |cells| > 1 {
      PaddedJoin(cells[1..]);
      assert Padded(cells)[1..] == Padded(cells[1..]);
      calc {
        " " + Join(cells, " | ") + " ";
        " " + (cells[0] + " | " + Join(cells[1..], " | ")) + " ";
        (" " + cells[0] + " ") + "|" + (" " + Join(cells[1..], " | ") + " ");
        Join(Padded(cells), "|");
      }
    }
  }

  /** A table line splits on '|' into its cells, each padded with one space
      on either side, between two empty ends: so the line has exactly one
      column per cell. A line of no cells is one blank column
      (`NoHeadersBlankColumn`). */
  lemma CellsOfLine(cells: seq<string>)
    requires |cells| >= 1
    requires forall i :: 0 <= i < |cells| ==> '|' !in cells[i]
    ensures SplitOn(RowLine(cells), '|') == [""] + Padded(cells) + [""]
  {
    PaddedJoin(cells);
    var inner := Join(Padded(cells), "|");
    assert RowLine(cells) == "" + ['|'] + (inner + ['|'] + "");
    SplitOnAround("", '|', inner + ['|'] + "");
    SplitOnAround(inner, '|', "");
    forall i | 0 <= i < |cells| ensures '|' !in Padded(cells)[i] {
      assert Padded(cells)[i] == " " + cells[i] + " ";
    }
    SplitOnJoin(Padded(cells), '|');
    assert Join(Padded(cells), "|") == Join(Padded(cells), ['|']);
  }

  /** With no headers both the header line and the separator line are
      `|  |`: one blank column. */
  lemma NoHeadersBlankColumn()
    ensures RowLine([]) == "|  |" && RowLine(Dashes(0)) == "|  |"
    ensures SplitOn("|  |", '|') == ["", "  ", ""]
  {
    assert Dashes(0) == [];
    SplitOnAround("", '|', "  |");
    SplitOnAround("  ", '|', "");
    SplitOnWithout("  ", '|');
    assert "|  |" == "" + ['|'] + ("  " + ['|'] + "");
  }

  /** The separator line has exactly one '---' column per header (for no
      headers, see `NoHeadersBlankColumn`). */
  lemma SeparatorColumns(headers: seq<string>)
    requires |headers| >= 1
    ensures var cols := SplitOn(RowLine(Dashes(|headers|)), '|');
      && |cols| == |headers| + 2
      && forall i :: 1 <= i <= |headers| ==> cols[i] == " --- "
  {
    CellsOfLine(Dashes(|headers|));
  }

  /** The markdown's lines: a blank first line, the header line, the
      separator line, one line per data row (only the first indented, since
      the rows are joined inside one interpolation), and the closing
      indentation. With no rows, an indented empty line stands in their
      place. */
  lemma MarkdownLines(headers: seq<string>, rows: seq<seq<string>>)
    requires forall i :: 0 <= i < |headers| ==> '\n' !in headers[i]
    requires forall i, j :: 0 <= i < |rows| && 0 <= j < |rows[i]| ==> '\n' !in rows[i][j]
    ensures rows != [] ==>
      SplitOn(GenerateTable(headers, rows).markdown, '\n')
        == ["", Spaces(10) + RowLine(headers), Spaces(10) + RowLine(Dashes(|headers|)),
            Spaces(10) + RowLine(rows[0])] + RowLines(rows)[1..] + [Spaces(8)]
    ensures rows == [] ==>
      SplitOn(GenerateTable(headers, rows).markdown, '\n')
        == ["", Spaces(10) + RowLine(headers), Spaces(10) + RowLine(Dashes(|headers|)), Spaces(10), Spaces(8)]
  {
    var all := MarkdownLineList(headers, rows);
    MarkdownIsJoin(headers, rows);
    MarkdownLineListNoNewline(headers, rows);
    SplitOnJoin(all, '\n');
    var h, sep := Spaces(10) + RowLine(headers), Spaces(10) + RowLine(Dashes(|headers|));
    if rows != [] {
      LinesRegroup("", h, sep, Spaces(10) + RowLine(rows[0]), RowLines(rows)[1..], Spaces(8));
    } else {
      assert all == ["", h, sep] + [Spaces(10)] + [Spaces(8)];
    }
  }

  lemma LinesRegroup(a: string, b: string, c: string, x: string, rest: seq<string>, t: string)
    ensures [a, b, c] + ([x] + rest) + [t] == [a, b, c, x] + rest + [t]
  {
    assert [a, b, c] + ([x] + rest) == [a, b, c, x] + rest;
  }

  /** The data-row lines of the markdown: the first row indented, the others
      not; an indented empty line when there are no rows. */
  function BodyLines(rows: seq<seq<string>>): seq<string> {
    if rows == [] then [Spaces(10)]
    else [Spaces(10) + RowLine(rows[0])] + RowLines(rows)[1..]
  }

  function MarkdownLineList(headers: seq<string>, rows: seq<seq<string>>): seq<string> {
    ["", Spaces(10) + RowLine(headers), Spaces(10) + RowLine(Dashes(|headers|))] + BodyLines(rows) + [Spaces(8)]
  }

  lemma BodyLinesJoin(rows: seq<seq<string>>)
    ensures Join(BodyLines(rows), "\n") == Spaces(10) + Join(RowLines(rows), "\n")
  {
    if rows == [] {
      assert Join(RowLines(rows), "\n") == "";
      assert Spaces(10) + "" == Spaces(10);
    } else {
      JoinSnocFront(RowLines(rows), "\n");
    }
  }

  /** The markdown literal is its lines joined by newlines. */
  lemma MarkdownIsJoin(headers: seq<string>, rows: seq<seq<string>>)
    ensures GenerateTable(headers, rows).markdown == Join(MarkdownLineList(headers, rows), "\n")
  {
    BodyLinesJoin(rows);
    JoinAll(MarkdownLineList(headers, rows), Spaces(10) + RowLine(headers),
            Spaces(10) + RowLine(Dashes(|headers|)), BodyLines(rows), Spaces(8));
  }

  lemma MarkdownLineListNoNewline(headers: seq<string>, rows: seq<seq<string>>)
    requires forall i :: 0 <= i < |headers| ==> '\n' !in headers[i]
    requires forall i, j :: 0 <= i < |rows| && 0 <= j < |rows[i]| ==> '\n' !in rows[i][j]
    ensures forall i :: 0 <= i < |MarkdownLineList(headers, rows)| ==> '\n' !in MarkdownLineList(headers, rows)[i]
  {
    NoNewlineInRowLine(headers);
    NoNewlineInRowLine(Dashes(|headers|));
    forall i | 0 <= i < |rows| ensures '\n' !in RowLine(rows[i]) {
      NoNewlineInRowLine(rows[i]);
    }
    var all := MarkdownLineList(headers, rows);
    forall i | 0 <= i < |all| ensures '\n' !in all[i] {
    }
  }

  lemma NoNewlineInRowLine(cells: seq<string>)
    requires forall i :: 0 <= i < |cells| ==> '\n' !in cells[i]
    ensures '\n' !in RowLine(cells)
  {
    NoCharInJoin(cells, " | ", '\n');
  }

  lemma {:induction false} NoCharInJoin(parts: seq<string>, sep: string, c: char)
    requires c !in sep
    requires forall i :: 0 <= i < |parts| ==> c !in parts[i]
    ensures c !in Join(parts, sep)
  {
    if |parts| > 1 {
      NoCharInJoin(parts[1..], sep, c);
    }
  }

  /** Indenting the first of several joined lines indents the join. */
  lemma JoinSnocFront(parts: seq<string>, sep: string)
    requires parts != []
    ensures Spaces(10) + Join(parts, sep) == Join([Spaces(10) + parts[0]] + parts[1..], sep)
  {
    var q := [Spaces(10) + parts[0]] + parts[1..];
    assert q[1..] == parts[1..];
  }

  /** The five lines of the markdown literal, joined. */
  lemma JoinAll(all: seq<string>, h: string, sep: string, lines: seq<string>, t: string)
    requires lines != []
    requires all == ["", h, sep] + lines + [t]
    ensures Join(all, "\n") == "\n" + h + "\n" + sep + "\n" + Join(lines, "\n") + "\n" + t
  {
    var body := Join(lines, "\n");
    JoinAppend(lines, t, "\n");
    var l3 := lines + [t];
    var l2 := [sep] + l3;
    var l1 := [h] + l2;
    assert all == [""] + l1;
    JoinCons(sep, l3, "\n");
    JoinCons(h, l2, "\n");
    JoinCons("", l1, "\n");
    var j3 := body + "\n" + t;
    assert Join(l3, "\n") == j3;
    assert Join(all, "\n") == "" + "\n" + (h + "\n" + (sep + "\n" + j3));
    Regroup("\n", h, sep, j3);
  }

  lemma Regroup(n: string, h: string, sep: string, j: string)
    ensures "" + n + (h + n + (sep + n + j)) == n + h + n + sep + n + j
  {
  }

  lemma JoinCons(x: string, rest: seq<string>, sep: string)
    requires rest != []
    ensures Join([x] + rest, sep) == x + sep + Join(rest, sep)
  {
    assert ([x] + rest)[1..] == rest;
  }

  lemma {:induction false} JoinAppend(parts: seq<string>, last: string, sep: string)
    requires parts != []
    ensures Join(parts + [last], sep) == Join(parts, sep) + sep + last
  {
    if |parts| > 1 {
      assert (parts + [last])[1..] == parts[1..] + [last];
      JoinAppend(parts[1..], last, sep);
    } else {
      assert parts + [last] == [parts[0], last];
    }
  }

  // ---------------------------------------------------------------------
  // Inclusion in larger strings

  /** A string that contains `b`, which contains `c`, contains `c`. */
  lemma IncludesTrans(a: string, b: string, c: string)
    requires Includes(a, b) && Includes(b, c)
    ensures Includes(a, c)
  {
    IncludesAt(a, b);
    IncludesAt(b, c);
    var k :| OccursAt(a, b, k);
    var m :| OccursAt(b, c, m);
    forall j | 0 <= j < |c| ensures a[k + m + j] == c[j] {
      assert a[k..k + |b|][m + j] == b[m + j];
      assert b[m..m + |c|][j] == c[j];
    }
    assert a[k + m..k + m + |c|] == c;
    assert OccursAt(a, c, k + m);
    IncludesAt(a, c);
  }

  /** Each part of a concatenation occurs in it. */
  lemma {:induction false} IncludesPart(parts: seq<string>, k: nat)
    requires k < |parts|
    ensures Includes(Concat(parts), parts[k])
  {
    var rest := Concat(parts[1..]);
    if k == 0 {
      assert Concat(parts) == "" + parts[0] + rest;
      IncludesWithin("", parts[0], rest);
    } else {
      IncludesPart(parts[1..], k - 1);
      assert Concat(parts) == parts[0] + rest + "";
      IncludesWithin(parts[0], rest, "");
      IncludesTrans(Concat(parts), rest, parts[k]);
    }
  }

  // ---------------------------------------------------------------------
  // generateFAQ

  datatype QA = QA(question: string, answer: string)

  datatype Answer = Answer(schemaType: string, text: string)

  datatype Question = Question(schemaType: string, name: string, acceptedAnswer: Answer)

  /** The FAQPage object, before `JSON.stringify`. */
  datatype FaqSchema = FaqSchema(context: string, schemaType: string, mainEntity: seq<Question>)

  datatype Faq = Faq(html: string, schema: FaqSchema)

  const FaqOpen := "\n" + Spaces(8) + "<div class=\"faq-item\">\n" + Spaces(10) + "<h3 class=\"faq-question\">"
  const FaqMiddle := "</h3>\n" + Spaces(10) + "<div class=\"faq-answer\">"
  const FaqClose := "</div>\n" + Spaces(8) + "</div>\n" + Spaces(6)

  /** One FAQ item: the question in an `<h3>`, the answer in a `<div>`. */
  function FaqItemHtml(q: QA): string {
    FaqOpen + q.question + FaqMiddle + q.answer + FaqClose
  }

  function FaqItems(questions: seq<QA>): (r: seq<string>)
    ensures |r| == |questions|
    ensures forall i :: 0 <= i < |r| ==> r[i] == FaqItemHtml(questions[i])
  {
    seq(|questions|, i requires 0 <= i < |questions| => FaqItemHtml(questions[i]))
  }

  /** `generateFAQ(questions)`: the HTML section holding one item per
      question, in order, and the FAQPage schema with one Question per input,
      in order. */
  function GenerateFAQ(questions: seq<QA>): (r: Faq)
    ensures r.schema.context == "https://schema.org" && r.schema.schemaType == "FAQPage"
    ensures |r.schema.mainEntity| == |questions|
    ensures forall i :: 0 <= i < |questions| ==>
      && r.schema.mainEntity[i].schemaType == "Question"
      && r.schema.mainEntity[i].acceptedAnswer.schemaType == "Answer"
  {
    var entities := seq(|questions|, i requires 0 <= i < |questions| =>
      Question("Question", questions[i].question, Answer("Answer", questions[i].answer)));
    Faq("<div class=\"faq-section\">" + Concat(FaqItems(questions)) + "</div>",
        FaqSchema("https://schema.org", "FAQPage", entities))
  }

  /** Reading the schema back: each Question's `name` and answer `text`. */
  function QuestionsOf(entities: seq<Question>): (r: seq<QA>)
    ensures |r| == |entities|
  {
    seq(|entities|, i requires 0 <= i < |entities| => QA(entities[i].name, entities[i].acceptedAnswer.text))
  }

  /** The schema loses nothing: reading it back gives the input questions
      and answers, in order. */
  lemma FaqSchemaRoundTrip(questions: seq<QA>)
    ensures QuestionsOf(GenerateFAQ(questions).schema.mainEntity) == questions
  {
  }

  /** Every question and every answer appears verbatim in the HTML. */
  lemma FaqVerbatim(questions: seq<QA>, i: nat)
    requires i < |questions|
    ensures Includes(GenerateFAQ(questions).html, questions[i].question)
    ensures Includes(GenerateFAQ(questions).html, questions[i].answer)
  {
    var items := FaqItems(questions);
    var html := GenerateFAQ(questions).html;
    var q := questions[i];
    IncludesPart(items, i);
    assert html == "<div class=\"faq-section\">" + Concat(items) + "</div>";
    IncludesWithin("<div class=\"faq-section\">", Concat(items), "</div>");
    IncludesTrans(html, Concat(items), items[i]);
    Includes5(FaqOpen, q.question, FaqMiddle, q.answer, FaqClose);
    IncludesTrans(html, items[i], q.question);
    IncludesTrans(html, items[i], q.answer);
  }

  // ---------------------------------------------------------------------
  // generateListicle

  /** A listicle entry; an absent image is `None`. */
  datatype ListItem = ListItem(title: string, content: string, image: Option<string>)

  datatype Listicle = Listicle(html: string, markdown: string)

  /** `item.image` is truthy. */
  predicate HasImage(item: ListItem) {
    item.image.Some? && item.image.value != ""
  }

  /** The `<img>` element, or nothing when the image is falsy. */
  function ImageTag(item: ListItem): (r: string)
    ensures r != "" <==> HasImage(item)
    ensures HasImage(item) ==> StartsWith(r, "<img src=\"" + item.image.value + "\"")
  {
    if HasImage(item) then
      "<img src=\"" + item.image.value + "\" alt=\"" + item.title + "\" class=\"listicle-image\">"
    else ""
  }

  /** The heading text of item `i`: its number `i + 1`, a dot, its title. */
  function Heading(i: nat, item: ListItem): string {
    Decimal(i + 1) + ". " + item.title
  }

  const ItemOpen := "\n" + Spaces(8) + "<div class=\"listicle-item\">\n" + Spaces(10)
  const ItemClose := "\n" + Spaces(8) + "</div>\n" + Spaces(6)

  function TitleTag(i: nat, item: ListItem): string {
    "<h2 class=\"listicle-title\">" + Heading(i, item) + "</h2>"
  }

  function ContentLines(item: ListItem): string {
    "\n" + Spaces(10) + "<div class=\"listicle-content\">" + item.content + "</div>\n" + Spaces(10)
  }

  /** One listicle item: its numbered title, its content, and its image
      when it has one. */
  function ListItemHtml(i: nat, item: ListItem): string {
    ItemOpen + TitleTag(i, item) + ContentLines(item) + ImageTag(item) + ItemClose
  }

  function ListItems(items: seq<ListItem>): (r: seq<string>)
    ensures |r| == |items|
    ensures forall i :: 0 <= i < |r| ==> r[i] == ListItemHtml(i, items[i])
  {
    seq(|items|, i requires 0 <= i < |items| => ListItemHtml(i, items[i]))
  }

  /** `## ${index + 1}. ${item.title}\n\n${item.content}`. */
  function MarkdownBlock(i: nat, item: ListItem): string {
    "## " + Heading(i, item) + "\n\n" + item.content
  }

  function MarkdownBlocks(items: seq<ListItem>): (r: seq<string>)
    ensures |r| == |items|
    ensures forall i :: 0 <= i < |r| ==> r[i] == MarkdownBlock(i, items[i])
  {
    seq(|items|, i requires 0 <= i < |items| => MarkdownBlock(i, items[i]))
  }

  /** `generateListicle(items)`. */
  function GenerateListicle(items: seq<ListItem>): (r: Listicle)
    ensures StartsWith(r.html, "<div class=\"listicle-container\">")
    ensures items == [] ==> r.markdown == ""
  {
    Listicle("<div class=\"listicle-container\">" + Concat(ListItems(items)) + "</div>",
             Join(MarkdownBlocks(items), "\n\n"))
  }

  /** The run of decimal digits at the start of `s`. */
  function LeadingDigits(s: string): (r: string)
    ensures IsDigits(r) && r <= s
  {
    if s != [] && '0' <= s[0] <= '9' then [s[0]] + LeadingDigits(s[1..]) else ""
  }

  lemma {:induction false} LeadingDigitsOf(d: string, rest: string)
    requires IsDigits(d)
    requires rest != [] && !('0' <= rest[0] <= '9')
    ensures LeadingDigits(d + rest) == d
  {
    if d != [] {
      assert (d + rest)[1..] == d[1..] + rest;
      LeadingDigitsOf(d[1..], rest);
    }
  }

  /** The number a heading text starts with. */
  function HeadingNumber(heading: string): nat {
    DecimalValue(LeadingDigits(heading))
  }

  /** Item `i` is numbered `i + 1`, in the markdown and in the HTML: the
      number read back from its heading is `i + 1`, and that heading appears
      in both outputs. */
  lemma ListicleNumbering(items: seq<ListItem>, i: nat)
    requires i < |items|
    ensures HeadingNumber(Heading(i, items[i])) == i + 1
    ensures MarkdownBlocks(items)[i] == "## " + Heading(i, items[i]) + "\n\n" + items[i].content
    ensures Includes(GenerateListicle(items).html, TitleTag(i, items[i]))
  {
    assert Heading(i, items[i]) == Decimal(i + 1) + (". " + items[i].title);
    LeadingDigitsOf(Decimal(i + 1), ". " + items[i].title);
    DecimalRoundTrip(i + 1);
    ItemInListicle(items, i);
    Includes5(ItemOpen, TitleTag(i, items[i]), ContentLines(items[i]), ImageTag(items[i]), ItemClose);
    IncludesTrans(GenerateListicle(items).html, ListItemHtml(i, items[i]), TitleTag(i, items[i]));
  }

  /** Each item's HTML block occurs in the listicle's HTML. */
  lemma ItemInListicle(items: seq<ListItem>, i: nat)
    requires i < |items|
    ensures Includes(GenerateListicle(items).html, ListItemHtml(i, items[i]))
  {
    var parts := ListItems(items);
    var html := GenerateListicle(items).html;
    IncludesPart(parts, i);
    IncludesWithin("<div class=\"listicle-container\">", Concat(parts), "</div>");
    IncludesTrans(html, Concat(parts), parts[i]);
  }

  /** Markdown blocks are separated by one blank line: adding an item adds
      a blank line and that item's block, numbered after the others. */
  lemma ListicleMarkdownAppend(items: seq<ListItem>, x: ListItem)
    requires items != []
    ensures GenerateListicle(items + [x]).markdown
         == GenerateListicle(items).markdown + "\n\n" + MarkdownBlock(|items|, x)
  {
    assert MarkdownBlocks(items + [x]) == MarkdownBlocks(items) + [MarkdownBlock(|items|, x)];
    JoinAppend(MarkdownBlocks(items), MarkdownBlock(|items|, x), "\n\n");
  }

  /** An image is shown exactly for the items whose image is truthy. */
  lemma ListicleImage(items: seq<ListItem>, i: nat)
    requires i < |items|
    ensures !HasImage(items[i]) ==> ImageTag(items[i]) == ""
    ensures HasImage(items[i]) ==> Includes(GenerateListicle(items).html, ImageTag(items[i]))
  {
    if HasImage(items[i]) {
      ItemInListicle(items, i);
      Includes5(ItemOpen, TitleTag(i, items[i]), ContentLines(items[i]), ImageTag(items[i]), ItemClose);
      IncludesTrans(GenerateListicle(items).html, ListItemHtml(i, items[i]), ImageTag(items[i]));
    }
  }
}
