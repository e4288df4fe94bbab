/**
  From documents to the text of a file and back: the significant lines of a
  written document are its rows, so that parsing gives its tree and nothing else.
 */
module YamlFiles {
  import opened Wrappers
  import opened Text
  import opened YamlText
  import opened YamlLines
  import opened YamlTree
  import opened YamlParser
  import opened YamlFlow
  import opened YamlDocs

  // -------------------------------------------------------------------------- writing

  function Spaces(n: nat): string {
    seq(n, _ => ' ')
  }

  function TailText(comment: Option<Comment>): string {
    if comment.Some? then Spaces(1 + comment.value.gap) + "#" + comment.value.text else ""
  }

  function GapText(g: Gap): string {
    match g
    case Blank(n) => Spaces(n)
    case Remark(n, text) => Spaces(n) + "#" + text
  }

  function GapTexts(gaps: seq<Gap>): seq<string> {
    seq(|gaps|, k requires 0 <= k < |gaps| => GapText(gaps[k]))
  }

  function RawBody(body: seq<string>, n: nat): seq<string> {
    seq(|body|, k requires 0 <= k < |body| => if body[k] == "" then "" else Spaces(n) + body[k])
  }

  /** The line of the row itself. */
  function HeadLine(row: Row): string {
    Spaces(row.indent) + (row.text + TailText(row.margin.comment))
  }

  function BodyOf(row: Row): seq<string> {
    if row.block.Some? then row.block.value.body else []
  }

  /** The lines of a row: what stands above it, itself, and its literal block. */
  function RawRow(row: Row): seq<string> {
    GapTexts(row.margin.above) + [HeadLine(row)] + RawBody(BodyOf(row), row.inner)
  }

  function RawRows(rows: seq<Row>): seq<string> {
    if rows == [] then [] else RawRow(rows[0]) + RawRows(rows[1..])
  }

  /** A document as a file. */
  function Render(doc: Doc): string {
    Join(RawRows(Layout(doc, 0)) + [""], '\n')
  }

  /** Nothing but the next row stands directly below a literal block. */
  ghost predicate Tight(rows: seq<Row>) {
    forall i, j ::
      0 <= i < |rows| && 0 <= j < |rows| && j == i + 1 && rows[i].block.Some? ==> rows[j].margin.above == []
  }

  // ---------------------------------------------------------------------- rows are tidy

  /** How far behind the text the comment starts. */
  function CommentGap(comment: Option<Comment>): nat {
    if comment.Some? then 1 + comment.value.gap else 0
  }

  /** The row is a line of its own, and its comment is one. */
  ghost predicate TidyLine(row: Row) {
    && MarginOk(row.margin) && Trim(row.text) && row.text[0] != '#' && NoBreaks(row.text)
    && CommentFrom(row.text + TailText(row.margin.comment), 0, Out) == |row.text| + CommentGap(row.margin.comment)
  }

  /** Also, it announces a literal block exactly if it has one. */
  ghost predicate TidyRow(row: Row) {
    && TidyLine(row) && row.indent < row.inner && (row.block.Some? ==> IsBlock(row.block.value))
    && Indicator(row.text) == if row.block.Some? then Some(row.block.value.indicator) else None
  }

  ghost predicate AllTidy(rows: seq<Row>) {
    forall i :: 0 <= i < |rows| ==> TidyRow(rows[i])
  }

  /** What follows a literal block is further left than its body. */
  ghost predicate Flows(rows: seq<Row>) {
    forall i, j :: 0 <= i < |rows| && 0 <= j < |rows| && j == i + 1 && rows[i].block.Some? ==>
      rows[j].indent < rows[i].inner
  }

  function RowLine(row: Row, num: nat): Line {
    Line(row.text, row.indent, num, if row.block.Some? then Some(BlockText(row.block.value)) else None)
  }

  function Numbered(rows: seq<Row>, i: nat): seq<Line> {
    if rows == [] then []
    else [RowLine(rows[0], i + |rows[0].margin.above| + 1)] + Numbered(rows[1..], i + |RawRow(rows[0])|)
  }

  // ------------------------------------------------------------------------ single lines

  lemma {:induction false} SpacesTrim(n: nat, text: string)
    requires text != "" && !IsSpace(text[0])
    ensures TrimStart(Spaces(n) + text) == text && Indent(Spaces(n) + text) == n
    decreases n
  {
    var s := Spaces(n) + text;
    if n == 0 {
      assert s == text;
    } else {
      assert s[0] == ' ' && s[1..] == Spaces(n - 1) + text;
      SpacesTrim(n - 1, text);
    }
  }

  lemma NotSpace(c: char)
    requires !IsSpace(c)
    ensures c != ' ' && c != '\t' && c != '\r' && c != '\n'
  {
  }

  lemma TidyTrims(n: nat, text: string)
    requires text != "" && !IsSpace(text[0]) && !IsSpace(text[|text| - 1])
    ensures var raw := Spaces(n) + text; TrimRight(raw, " \t\r") == raw && TrimSpace(raw) == text && Indent(raw) == n
  {
    hide IsSpace, TrimStart, TrimEnd, TrimRight, Indent;
    var raw := Spaces(n) + text;
    NotSpace(text[|text| - 1]);
    assert raw[|raw| - 1] == text[|text| - 1];
    NothingTrimmed(raw);
    EndKept(text);
    SpacesTrim(n, text);
  }

  lemma NothingTrimmed(s: string)
    requires s != "" && s[|s| - 1] != ' ' && s[|s| - 1] != '\t' && s[|s| - 1] != '\r'
    ensures TrimRight(s, " \t\r") == s
  {
  }

  lemma EndKept(s: string)
    requires s != "" && !IsSpace(s[|s| - 1])
    ensures TrimEnd(s) == s
  {
    hide IsSpace;
  }

  lemma TailShape(text: string, comment: Option<Comment>)
    requires Trim(text) && NoBreaks(text) && (comment.Some? ==> CommentOk(comment.value))
    ensures var w := text + TailText(comment);
      Trim(w) && NoBreaks(w) && w[0] == text[0] && w[..|text|] == text && |w| >= |text| + CommentGap(comment)
    ensures comment.Some? ==>
      var w := text + TailText(comment);
      |w| > |text| + CommentGap(comment) && w[..|text| + CommentGap(comment)] == text + Spaces(CommentGap(comment))
    ensures comment.None? ==> text + TailText(comment) == text
  {
    hide IsSpace;
    HashNoSpace();
    if comment.Some? {
      var c, k := comment.value, CommentGap(comment);
      var w := text + TailText(comment);
      assert w == text + Spaces(k) + "#" + c.text;
      assert w[|w| - 1] == if c.text == "" then '#' else c.text[|c.text| - 1];
      assert w[..|text| + k] == text + Spaces(k);
    } else {
      assert text + "" == text;
    }
  }

  lemma HashNoSpace()
    ensures !IsSpace('#')
  {
  }

  lemma {:induction false} SpacesDropped(text: string, k: nat)
    requires text != "" && text[|text| - 1] != ' '
    ensures TrimRight(text + Spaces(k), " ") == text
    decreases k
  {
    var s := text + Spaces(k);
    if k == 0 {
      assert s == text;
    } else {
      assert s[|s| - 1] == ' ' && s[..|s| - 1] == text + Spaces(k - 1);
      SpacesDropped(text, k - 1);
    }
  }

  /** The comment behind a value is stripped, with the spaces before it. */
  lemma TailStripped(text: string, comment: Option<Comment>)
    requires Trim(text) && NoBreaks(text) && (comment.Some? ==> CommentOk(comment.value))
    requires CommentFrom(text + TailText(comment), 0, Out) == |text| + CommentGap(comment)
    ensures Uncommented(text + TailText(comment)) == text
  {
    hide CommentFrom, IsSpace, TrimRight, TailText, Spaces, CommentOk, NoBreaks, Trim;
    TailShape(text, comment);
    NotEmptyTrim(text);
    LastNoSpace(text);
    SpacesDropped(text, CommentGap(comment));
  }

  lemma NotEmptyTrim(text: string)
    requires Trim(text)
    ensures text != ""
  {
  }

  lemma LastNoSpace(text: string)
    requires Trim(text)
    ensures text[|text| - 1] != ' '
  {
  }

  lemma RowIsLine(row: Row)
    requires TidyRow(row)
    ensures TidyLine(row)
  {
  }

  lemma HeadRead(row: Row)
    requires TidyLine(row)
    ensures var raw := HeadLine(row);
      && raw != "" && raw[0] != '\t' && !IsBlank(raw) && !IsComment(raw) && NoBreaks(raw)
      && Content(raw) == row.text && Indent(Trimmed(raw)) == row.indent
      && TrimSpace(raw) != "" && Indent(raw) == row.indent
  {
    hide CommentFrom, IsSpace, TrimSpace, TrimRight, Indent, Uncommented, Indicator, IsBlock, CommentOk, TailText;
    var w := row.text + TailText(row.margin.comment);
    TailShape(row.text, row.margin.comment);
    TailStripped(row.text, row.margin.comment);
    TidyTrims(row.indent, w);
    NotSpace(w[0]);
    var raw := HeadLine(row);
    assert raw[0] == if row.indent > 0 then ' ' else w[0];
  }

  /** A blank line or one with only a comment is passed over. */
  lemma GapSkipped(g: Gap)
    requires GapOk(g)
    ensures var raw := GapText(g); IsBlank(raw) || (raw != "" && raw[0] != '\t' && IsComment(raw))
    ensures NoBreaks(GapText(g))
  {
    hide TrimSpace, TrimRight;
    if g.Blank? {
      SpacesBlank(g.n);
    } else {
      var raw := GapText(g);
      RemarkTrimmed(g.n, g.text);
      assert raw[0] == if g.n > 0 then ' ' else '#';
    }
  }

  lemma {:induction false} SpacesBlank(n: nat)
    ensures TrimRight(Spaces(n), " \t\r") == ""
    decreases n
  {
    if n > 0 {
      assert Spaces(n)[..n - 1] == Spaces(n - 1);
      SpacesBlank(n - 1);
    }
  }

  lemma {:induction false} RemarkCut(n: nat, text: string) returns (rest: string)
    ensures TrimRight(Spaces(n) + "#" + text, " \t\r") == Spaces(n) + ("#" + rest)
    decreases |text|
  {
    var raw := Spaces(n) + "#" + text;
    if text != "" && text[|text| - 1] in " \t\r" {
      assert raw[..|raw| - 1] == Spaces(n) + "#" + text[..|text| - 1];
      rest := RemarkCut(n, text[..|text| - 1]);
    } else {
      assert raw[|raw| - 1] == if text == "" then '#' else text[|text| - 1];
      rest := text;
      assert raw == Spaces(n) + ("#" + text);
    }
  }

  /** Whatever is trimmed off its end, the line starts with '#' behind its spaces. */
  lemma RemarkTrimmed(n: nat, text: string)
    ensures HasPrefix(TrimSpace(TrimRight(Spaces(n) + "#" + text, " \t\r")), "#")
  {
    hide TrimStart, TrimEnd, TrimRight, Spaces, HasPrefix;
    var rest := RemarkCut(n, text);
    HashNoSpace();
    SpacesTrim(n, "#" + rest);
    HashStays(rest);
  }

  lemma {:induction false} HashStays(text: string)
    ensures HasPrefix(TrimEnd("#" + text), "#")
    decreases |text|
  {
    var s := "#" + text;
    if IsSpace(s[|s| - 1]) {
      HashNoSpace();
      assert s[..|s| - 1] == "#" + text[..|text| - 1];
      HashStays(text[..|text| - 1]);
    }
  }

  // ------------------------------------------------------------------ literal blocks

  lemma {:induction false} SpacesBefore(n: nat, line: string)
    ensures TrimStart(Spaces(n) + line) == TrimStart(line) && Indent(Spaces(n) + line) == n + Indent(line)
    decreases n
  {
    var s := Spaces(n) + line;
    if n == 0 {
      assert s == line;
    } else {
      assert s[0] == ' ' && s[1..] == Spaces(n - 1) + line;
      SpacesBefore(n - 1, line);
    }
  }

  /** A line of the body where it stands in the file. */
  lemma BodyLine(n: nat, line: string)
    requires TrimSpace(line) != ""
    ensures var raw := Spaces(n) + line; TrimSpace(raw) != "" && Indent(raw) >= n && raw[n..] == line
    ensures line != "" && line[0] != ' ' ==> Indent(Spaces(n) + line) == n
  {
    hide TrimStart, TrimEnd;
    SpacesBefore(n, line);
  }

  /** The body ends at line `j`. */
  ghost predicate Stops(raw: seq<string>, j: nat, n: nat) {
    j == |raw| || (j < |raw| && TrimSpace(raw[j]) != "" && Indent(raw[j]) < n)
  }

  ghost predicate BodyAt(raw: seq<string>, i: nat, body: seq<string>, n: nat) {
    && i + |body| <= |raw| && Stops(raw, i + |body|, n)
    && (forall k :: 0 <= k < |body| ==> raw[i + k] == if body[k] == "" then "" else Spaces(n) + body[k])
    && (forall k :: 0 <= k < |body| ==> body[k] == "" || TrimSpace(body[k]) != "")
  }

  lemma BodyRest(raw: seq<string>, i: nat, body: seq<string>, n: nat)
    requires BodyAt(raw, i, body, n) && body != []
    ensures BodyAt(raw, i + 1, body[1..], n) && i < |raw| && (body[0] == "" || TrimSpace(body[0]) != "")
    ensures raw[i] == if body[0] == "" then "" else Spaces(n) + body[0]
    ensures i + |body| <= |raw|
  {
    hide TrimSpace, Indent, Spaces;
    forall k | 0 <= k < |body[1..]|
      ensures raw[i + 1 + k] == if body[1..][k] == "" then "" else Spaces(n) + body[1..][k]
    {
      assert raw[i + (k + 1)] == if body[k + 1] == "" then "" else Spaces(n) + body[k + 1];
    }
    assert raw[i + 0] == if body[0] == "" then "" else Spaces(n) + body[0];
  }

  lemma {:induction false} BodyKnown(raw: seq<string>, i: nat, body: seq<string>, n: nat, head: nat)
    requires BodyAt(raw, i, body, n)
    ensures BodyFrom(raw, i, head, Some(n)) == Body(body, i + |body|)
    decreases |body|
  {
    hide TrimSpace, Indent, Spaces, BodyAt, BodyFrom;
    if body == [] {
      BodyEnd(raw, i, n, head);
    } else {
      BodyRest(raw, i, body, n);
      BodyKnown(raw, i + 1, body[1..], n, head);
      BodyTurn(raw, i, head, n, body[0]);
      assert [body[0]] + body[1..] == body;
    }
  }

  lemma BodyEnd(raw: seq<string>, i: nat, n: nat, head: nat)
    requires BodyAt(raw, i, [], n)
    ensures i <= |raw| && BodyFrom(raw, i, head, Some(n)) == Body([], i)
  {
    hide TrimSpace, Indent;
  }

  /** One line of the body, its indentation being known. */
  lemma BodyTurn(raw: seq<string>, i: nat, head: nat, n: nat, line: string)
    requires i < |raw| && raw[i] == (if line == "" then "" else Spaces(n) + line)
    requires line == "" || TrimSpace(line) != ""
    ensures var b := BodyFrom(raw, i + 1, head, Some(n));
      BodyFrom(raw, i, head, Some(n)) == Body([line] + b.lines, b.next)
  {
    hide TrimSpace, Indent, Spaces;
    TrimNothing();
    if line != "" {
      BodyLine(n, line);
    }
  }

  lemma TrimNothing()
    ensures TrimSpace("") == ""
  {
  }

  /** Up to the first line with content the indentation of the body is not known yet. */
  lemma {:induction false} BodyUnknown(raw: seq<string>, i: nat, body: seq<string>, n: nat, head: nat, c: nat)
    requires BodyAt(raw, i, body, n) && head < n && c < |body|
    requires body[c] != "" && body[c][0] != ' ' && forall j :: 0 <= j < c ==> body[j] == ""
    ensures BodyFrom(raw, i, head, None) == Body(body, i + |body|)
    decreases c
  {
    hide TrimSpace, Indent, Spaces, BodyAt, BodyFrom;
    BodyRest(raw, i, body, n);
    if c > 0 {
      BodyUnknown(raw, i + 1, body[1..], n, head, c - 1);
      BlankTurn(raw, i, head);
    } else {
      BodyKnown(raw, i + 1, body[1..], n, head);
      FirstTurn(raw, i, head, n, body[0]);
    }
    assert [body[0]] + body[1..] == body;
  }

  lemma BlankTurn(raw: seq<string>, i: nat, head: nat)
    requires i < |raw| && raw[i] == ""
    ensures var b := BodyFrom(raw, i + 1, head, None); BodyFrom(raw, i, head, None) == Body([""] + b.lines, b.next)
  {
    hide TrimSpace, Indent;
    TrimNothing();
  }

  /** The first line with content fixes the indentation. */
  lemma FirstTurn(raw: seq<string>, i: nat, head: nat, n: nat, line: string)
    requires i < |raw| && raw[i] == Spaces(n) + line && head < n
    requires line != "" && line[0] != ' ' && TrimSpace(line) != ""
    ensures var b := BodyFrom(raw, i + 1, head, Some(n));
      BodyFrom(raw, i, head, None) == Body([line] + b.lines, b.next)
  {
    hide TrimSpace, Indent, Spaces;
    BodyLine(n, line);
  }

  /** A literal block is collected back. */
  lemma LiteralRead(raw: seq<string>, i: nat, head: nat, n: nat, b: Block)
    requires IsBlock(b) && head < n && BodyAt(raw, i, b.body, n)
    ensures Literal(raw, i, head, b.indicator) == Ok((BlockText(b), i + |b.body|))
  {
    hide TrimSpace, Chomped, BodyAt, BodyFrom;
    var body := b.body;
    var c :| 0 <= c < |body| && body[c] != "" && body[c][0] != ' ' && forall j :: 0 <= j < c ==> body[j] == "";
    BodyUnknown(raw, i, body, n, head, c);
  }

  // ----------------------------------------------------------------- rows become lines

  /** The rows stand in the file from line `i` to its end. */
  ghost predicate RowsAt(raw: seq<string>, i: nat, rows: seq<Row>) {
    i <= |raw| && raw[i..] == RawRows(rows)
  }

  lemma RowsRest(raw: seq<string>, i: nat, rows: seq<Row>)
    requires RowsAt(raw, i, rows) && rows != []
    ensures var row := RawRow(rows[0]);
      && RowsAt(raw, i + |row|, rows[1..]) && i + |row| <= |raw|
      && forall k :: 0 <= k < |row| ==> raw[i + k] == row[k]
  {
    hide RawRow;
    var row, rest := RawRow(rows[0]), RawRows(rows[1..]);
    assert raw[i..] == row + rest;
    assert raw[i + |row|..] == rest by {
      assert raw[i..][|row|..] == raw[i + |row|..];
    }
    forall k | 0 <= k < |row| ensures raw[i + k] == row[k] {
      assert raw[i..][k] == (row + rest)[k];
    }
  }

  /** The parts of a row. */
  lemma RowParts(row: Row)
    ensures var lines, m := RawRow(row), |row.margin.above|;
      && |lines| == m + 1 + |BodyOf(row)| && lines[m] == HeadLine(row)
      && (forall k :: 0 <= k < m ==> lines[k] == GapText(row.margin.above[k]))
      && (forall k :: 0 <= k < |BodyOf(row)| ==>
            lines[m + 1 + k] == if BodyOf(row)[k] == "" then "" else Spaces(row.inner) + BodyOf(row)[k])
  {
    hide Spaces, HeadLine, GapText, BodyOf;
  }

  /** The next row, if there is one, ends the body of this one. */
  lemma NextStops(raw: seq<string>, j: nat, rows: seq<Row>, n: nat)
    requires RowsAt(raw, j, rows) && AllTidy(rows) && (rows != [] ==> rows[0].indent < n && rows[0].margin.above == [])
    ensures Stops(raw, j, n)
  {
    hide RawRow, TidyRow, TrimSpace, Indent, HeadLine;
    if rows == [] {
      assert raw[j..] == [];
    } else {
      RowsRest(raw, j, rows);
      RowParts(rows[0]);
      assert raw[j + 0] == RawRow(rows[0])[0];
      RowIsLine(rows[0]);
      HeadRead(rows[0]);
    }
  }

  ghost predicate Fine(rows: seq<Row>) {
    AllTidy(rows) && Flows(rows) && Tight(rows)
  }

  lemma FineRest(rows: seq<Row>)
    requires Fine(rows) && rows != []
    ensures Fine(rows[1..]) && TidyRow(rows[0])
    ensures rows[0].block.Some? && rows[1..] != [] ==>
      rows[1..][0].indent < rows[0].inner && rows[1..][0].margin.above == []
  {
    hide TidyRow;
    forall i, j | 0 <= i < |rows[1..]| && 0 <= j < |rows[1..]| && j == i + 1 && rows[1..][i].block.Some?
      ensures rows[1..][j].indent < rows[1..][i].inner && rows[1..][j].margin.above == []
    {
      assert rows[1..][i] == rows[i + 1] && rows[1..][j] == rows[j + 1];
    }
  }

  lemma BodyTidy(row: Row)
    requires TidyRow(row) && row.block.Some?
    ensures IsBlock(row.block.value) && row.indent < row.inner
    ensures forall k :: 0 <= k < |BodyOf(row)| ==> BodyOf(row)[k] == "" || TrimSpace(BodyOf(row)[k]) != ""
  {
    hide TrimSpace, Indicator, CommentFrom, IsSpace;
  }

  lemma BodyLines(raw: seq<string>, i: nat, row: Row, j: nat)
    requires i + |RawRow(row)| <= |raw| && forall k :: 0 <= k < |RawRow(row)| ==> raw[i + k] == RawRow(row)[k]
    requires j == i + |row.margin.above| + 1
    ensures j + |BodyOf(row)| == i + |RawRow(row)|
    ensures forall k :: 0 <= k < |BodyOf(row)| ==>
      raw[j + k] == if BodyOf(row)[k] == "" then "" else Spaces(row.inner) + BodyOf(row)[k]
  {
    hide RawRow, HeadLine, GapText, BodyOf, Spaces;
    var m := |row.margin.above| + 1;
    RowParts(row);
    forall k | 0 <= k < |BodyOf(row)|
      ensures raw[j + k] == if BodyOf(row)[k] == "" then "" else Spaces(row.inner) + BodyOf(row)[k]
    {
      assert raw[i + (m + k)] == RawRow(row)[m + k];
    }
  }

  lemma BodyHere(raw: seq<string>, j: nat, body: seq<string>, n: nat)
    requires j + |body| <= |raw| && Stops(raw, j + |body|, n)
    requires forall k :: 0 <= k < |body| ==> raw[j + k] == if body[k] == "" then "" else Spaces(n) + body[k]
    requires forall k :: 0 <= k < |body| ==> body[k] == "" || TrimSpace(body[k]) != ""
    ensures BodyAt(raw, j, body, n)
  {
    hide Stops, TrimSpace, Spaces;
  }

  lemma RowBody(raw: seq<string>, i: nat, rows: seq<Row>)
    requires RowsAt(raw, i, rows) && Fine(rows) && rows != [] && rows[0].block.Some?
    ensures BodyAt(raw, i + |rows[0].margin.above| + 1, BodyOf(rows[0]), rows[0].inner)
  {
    hide *;
    var row := rows[0];
    var j := i + |row.margin.above| + 1;
    RowsRest(raw, i, rows);
    FineRest(rows);
    FineTidy(rows[1..]);
    BodyLines(raw, i, row, j);
    NextStops(raw, i + |RawRow(row)|, rows[1..], row.inner);
    BodyTidy(row);
    BodyHere(raw, j, BodyOf(row), row.inner);
  }

  lemma FineTidy(rows: seq<Row>)
    requires Fine(rows)
    ensures AllTidy(rows)
  {
  }

  lemma {:induction false} GapsSkipped(raw: seq<string>, i: nat, gaps: seq<Gap>, k: nat)
    requires k <= |gaps| && i + |gaps| <= |raw| && forall j :: 0 <= j < |gaps| ==> GapOk(gaps[j])
    requires forall j :: 0 <= j < |gaps| ==> raw[i + j] == GapText(gaps[j])
    ensures LinesFrom(raw, i + k) == LinesFrom(raw, i + |gaps|)
    decreases |gaps| - k
  {
    hide IsBlank, IsComment, GapText, GapOk, Content, Indent, Trimmed, Indicator, Literal;
    if k < |gaps| {
      GapSkipped(gaps[k]);
      assert raw[i + k] == GapText(gaps[k]);
      GapsSkipped(raw, i, gaps, k + 1);
    }
  }

  /** A line with content and no literal block. */
  lemma LineStep(raw: seq<string>, i: nat, row: Row)
    requires i < |raw| && raw[i] == HeadLine(row) && TidyRow(row) && row.block.None?
    ensures LinesFrom(raw, i) == Cons(RowLine(row, i + 1), LinesFrom(raw, i + 1))
  {
    hide IsBlank, IsComment, Content, Indent, Trimmed, Indicator, Literal, HeadLine, IsBlock;
    hide MarginOk, Trim, NoBreaks, CommentFrom, BlockText, Cons, TrimSpace;
    HeadRead(row);
  }

  lemma BlockStep(raw: seq<string>, i: nat, row: Row, next: nat)
    requires i < |raw| && raw[i] == HeadLine(row) && TidyRow(row) && row.block.Some? && next <= |raw|
    requires Literal(raw, i + 1, row.indent, row.block.value.indicator) == Ok((BlockText(row.block.value), next))
    ensures LinesFrom(raw, i) == Cons(RowLine(row, i + 1), LinesFrom(raw, next))
  {
    hide IsBlank, IsComment, Content, Indent, Trimmed, Indicator, Literal, HeadLine, IsBlock;
    hide MarginOk, Trim, NoBreaks, CommentFrom, BlockText, Cons, TrimSpace;
    HeadRead(row);
  }

  /** The line of a row, with its literal block. */
  lemma RowRead(raw: seq<string>, i: nat, rows: seq<Row>)
    requires RowsAt(raw, i, rows) && Fine(rows) && rows != []
    ensures var m, k := |rows[0].margin.above|, |RawRow(rows[0])|;
      && i + m < |raw| && i + k <= |raw|
      && LinesFrom(raw, i + m) == Cons(RowLine(rows[0], i + m + 1), LinesFrom(raw, i + k))
  {
    hide RowsAt, Fine, RawRow, Literal, HeadLine, BodyAt, IsBlock, TidyRow, LinesFrom, Cons, RowLine, BlockText;
    var row := rows[0];
    var m := |row.margin.above|;
    RowsRest(raw, i, rows);
    FineRest(rows);
    RowParts(row);
    assert raw[i + m] == RawRow(row)[m];
    if row.block.Some? {
      RowBody(raw, i, rows);
      BodyTidy(row);
      LiteralRead(raw, i + m + 1, row.indent, row.inner, row.block.value);
      BlockStep(raw, i + m, row, i + m + 1 + |BodyOf(row)|);
    } else {
      LineStep(raw, i + m, row);
    }
  }

  lemma GapsOk(row: Row)
    requires TidyRow(row)
    ensures forall k :: 0 <= k < |row.margin.above| ==> GapOk(row.margin.above[k])
  {
  }

  lemma RowGaps(raw: seq<string>, i: nat, rows: seq<Row>)
    requires RowsAt(raw, i, rows) && Fine(rows) && rows != []
    ensures i + |rows[0].margin.above| <= |raw| && LinesFrom(raw, i) == LinesFrom(raw, i + |rows[0].margin.above|)
  {
    hide RowsAt, Fine, RawRow, TidyRow, GapText, GapOk, LinesFrom, BodyOf, HeadLine;
    var row := rows[0];
    RowsRest(raw, i, rows);
    FineRest(rows);
    RowParts(row);
    GapsOk(row);
    forall j | 0 <= j < |row.margin.above| ensures raw[i + j] == GapText(row.margin.above[j]) {
      assert raw[i + j] == RawRow(row)[j];
    }
    GapsSkipped(raw, i, row.margin.above, 0);
  }

  lemma {:induction false} RowsLines(raw: seq<string>, i: nat, rows: seq<Row>)
    requires RowsAt(raw, i, rows) && Fine(rows)
    ensures LinesFrom(raw, i) == Ok(Numbered(rows, i))
    decreases |rows|
  {
    hide RowsAt, Fine, RawRow, TidyRow, RowLine, LinesFrom;
    if rows == [] {
      NoRows(raw, i);
    } else {
      RowsRest(raw, i, rows);
      FineRest(rows);
      RowGaps(raw, i, rows);
      RowRead(raw, i, rows);
      RowsLines(raw, i + |RawRow(rows[0])|, rows[1..]);
    }
  }

  lemma NoRows(raw: seq<string>, i: nat)
    requires RowsAt(raw, i, [])
    ensures i == |raw| && LinesFrom(raw, i) == Ok([])
  {
    assert raw[i..] == [];
  }

  // ------------------------------------------------------- the rows of a document are tidy

  /** A comment behind quiet text is where it was put. */
  lemma TailScan(text: string, comment: Option<Comment>)
    requires Quiet(text)
    ensures CommentFrom(text + TailText(comment), 0, Out) == |text| + CommentGap(comment)
  {
    hide Quiet, CommentFrom, TailText, At;
    var w := text + TailText(comment);
    AtFront(text, TailText(comment));
    QuietUse(text, w, 0);
    if comment.Some? {
      HashBehind(text, comment.value);
    } else {
      NoTail(text);
      CommentEnd(text);
    }
  }

  lemma NoTail(text: string)
    ensures text + TailText(None) == text
  {
  }

  lemma AtFront(a: string, b: string)
    ensures At(a + b, 0, a)
  {
  }

  lemma CommentEnd(s: string)
    ensures CommentFrom(s, |s|, Out) == |s|
  {
  }

  lemma HashBehind(text: string, c: Comment)
    ensures var w := text + TailText(Some(c)); CommentFrom(w, |text|, Out) == |text| + 1 + c.gap
  {
    hide CommentFrom;
    var w, k := text + TailText(Some(c)), |text| + 1 + c.gap;
    assert w == text + Spaces(1 + c.gap) + "#" + c.text;
    assert forall j :: |text| <= j < k ==> w[j] == ' ';
    assert w[k] == '#';
    CommentPlain(w, |text|, k);
    HashHere(w, k);
  }

  lemma HashHere(s: string, k: nat)
    requires 0 < k < |s| && s[k] == '#' && s[k - 1] == ' '
    ensures CommentFrom(s, k, Out) == k
  {
  }

  lemma TailScanPlain(text: string)
    requires '#' !in text
    ensures CommentFrom(text + TailText(None), 0, Out) == |text| + CommentGap(None)
  {
    assert text + "" == text;
    CommentNone(text, 0, Out);
  }

  /** What stands in front of a value does not matter, if it is quiet. */
  lemma ValueScan(head: string, f: Flow, comment: Option<Comment>)
    requires IsInline(f) && CommentFits(f, comment) && Quiet(head) && '#' !in head
    ensures CommentFrom(head + FlowText(f) + TailText(comment), 0, Out) == |head + FlowText(f)| + CommentGap(comment)
  {
    hide Quiet, CommentFrom, IsSpace, IsMarkedUp, IsNested, Commas, TailText;
    if f.Str? && f.quotes.Bare? {
      if NoQuotes(f.text) && NoHash(f.text) {
        QuietPlain(f.text);
        QuietBoth(head, f.text);
        TailScan(head + f.text, comment);
      } else {
        PlainQuoted(f.text, comment, f);
        TailScanPlain(head + f.text);
      }
    } else {
      FlowQuiet(f);
      QuietBoth(head, FlowText(f));
      TailScan(head + FlowText(f), comment);
    }
  }

  lemma PlainQuoted(s: string, comment: Option<Comment>, f: Flow)
    requires f == Str(s, Bare) && IsPlain(s) && !(NoQuotes(s) && NoHash(s)) && CommentFits(f, comment)
    ensures comment == None && '#' !in s
  {
    hide IsSpace, IsMarkedUp;
  }

  /** What a literal block at this place would be announced by. */
  function IndicatorIn(v: string): Option<string> {
    if v == "" || (v[0] != '|' && v[0] != '>') then None else Some(v)
  }

  lemma IndicatorKey(key: string, rest: string)
    requires IsKey(key) && (rest == "" || rest[0] == ' ')
    ensures Indicator(key + ":" + rest) == IndicatorIn(TrimSpace(rest))
  {
    hide Colon, TrimSpace, IsKey, Unquoted;
    KeyColon(key, rest);
  }

  /** A row that starts with a key. */
  lemma KeyTidy(row: Row, key: string, rest: string)
    requires MarginOk(row.margin) && IsKey(key) && row.text == key + ":" + rest && (rest == "" || rest[0] == ' ')
    requires NoBreaks(rest) && (rest != "" ==> !IsSpace(rest[|rest| - 1])) && row.indent < row.inner
    requires CommentFrom(row.text + TailText(row.margin.comment), 0, Out) == |row.text| + CommentGap(row.margin.comment)
    requires row.block.Some? ==> IsBlock(row.block.value)
    requires IndicatorIn(TrimSpace(rest)) == if row.block.Some? then Some(row.block.value.indicator) else None
    ensures TidyRow(row)
  {
    hide CommentFrom, TrimSpace, IsKey, Indicator, IsBlock, MarginOk, IsSpace, TailText;
    IndicatorKey(key, rest);
    KeyFirst(key);
    KeyOneLine(key, ":");
    NoBreaksBoth(key + ":", rest);
    ColonNoSpace();
    var s := row.text;
    assert s[0] == key[0] && s[|s| - 1] == if rest == "" then ':' else rest[|rest| - 1];
  }

  lemma ColonNoSpace()
    ensures !IsSpace(':') && !IsSpace('|') && !IsSpace('-') && !IsSpace('+')
  {
  }

  lemma InlineTidy(f: Field, n: nat)
    requires IsField(f) && f.val.Inline?
    ensures TidyRow(Row(f.margin, n, f.key + ": " + FlowText(f.val.flow), None, n + 2))
  {
    hide CommentFrom, TrimSpace, IsKey, IsInline, MarginOk, IsSpace, TailText, CommentFits, TidyRow, Quiet, FlowText;
    var t := FlowText(f.val.flow);
    InlineText(f.val.flow);
    KeyQuiet(f.key, ": ");
    KeyNoHash(f.key);
    ValueScan(f.key + ": ", f.val.flow, f.margin.comment);
    KeyText(f.key, t);
    TrimSpaceOne(t);
    KeyTidy(Row(f.margin, n, f.key + ": " + t, None, n + 2), f.key, " " + t);
  }

  lemma KeyNoHash(key: string)
    requires IsKey(key)
    ensures '#' !in key + ": " && '#' !in key
  {
  }

  lemma BlockRowTidy(f: Field, n: nat)
    requires IsField(f) && f.val.Verbatim?
    ensures TidyRow(Row(f.margin, n, f.key + ": " + f.val.block.indicator, Some(f.val.block), n + 2))
  {
    hide CommentFrom, TrimSpace, IsKey, MarginOk, IsSpace, TailText, TidyRow, Quiet, IsBlock;
    var b := f.val.block;
    IndicatorShape(b);
    KeyQuiet(f.key, ": ");
    QuietBoth(f.key + ": ", b.indicator);
    TailScan(f.key + ": " + b.indicator, f.margin.comment);
    KeyText(f.key, b.indicator);
    TrimSpaceOne(b.indicator);
    KeyTidy(Row(f.margin, n, f.key + ": " + b.indicator, Some(b), n + 2), f.key, " " + b.indicator);
  }

  lemma IndicatorShape(b: Block)
    requires IsBlock(b)
    ensures Trim(b.indicator) && NoBreaks(b.indicator) && Quiet(b.indicator) && b.indicator[0] != '#'
    ensures IndicatorIn(b.indicator) == Some(b.indicator) && !IsItem(b.indicator)
  {
    hide Quiet, IsBody, IsSpace;
    ColonNoSpace();
    QuietPlain(b.indicator);
  }

  lemma BareRowTidy(f: Field, n: nat)
    requires MarginOk(f.margin) && IsKey(f.key)
    ensures TidyRow(Row(f.margin, n, f.key + ":", None, n + 2))
  {
    hide CommentFrom, IsKey, MarginOk, TailText, TidyRow, Quiet;
    KeyQuiet(f.key, ":");
    TailScan(f.key + ":", f.margin.comment);
    KeyText(f.key, "");
    TrimNothing();
    KeyTidy(Row(f.margin, n, f.key + ":", None, n + 2), f.key, "");
  }

  // ----------------------------------------------------------------------- behind markers

  lemma MarkedScan(s: string)
    requires s != "" && s[0] != '#'
    ensures CommentFrom("- " + s, 0, Out) == 2 + CommentFrom(s, 0, Out)
  {
    var m := "- " + s;
    assert m[0] == '-' && m[1] == ' ' && m[2] == s[0];
    assert CommentFrom(m, 0, Out) == CommentFrom(m, 1, Out) == CommentFrom(m, 2, Out);
    assert CommentFrom(m, 2, Out) == CommentFrom(m, 3, Step(Out, s[0]));
    CommentShift("- ", s, 1, Step(Out, s[0]));
  }

  lemma MarkedIndicator(s: string)
    ensures Indicator("- " + s) == Indicator(s)
  {
    hide Colon, TrimSpace, WithoutMarkers;
    MarkerDropped(s);
  }

  lemma MarkerDropped(s: string)
    ensures WithoutMarkers("- " + s) == WithoutMarkers(s)
  {
    hide IsItem;
    Marked(s);
  }

  /** A tidy row stays one behind a marker. */
  lemma MarkedTidy(row: Row, n: nat)
    requires TidyRow(row) && n < row.inner
    ensures TidyRow(row.(text := "- " + row.text, indent := n))
  {
    hide CommentFrom, Indicator, IsBlock, MarginOk, IsSpace, TailText;
    var s, tail := row.text, TailText(row.margin.comment);
    MarkedScan(s + tail);
    assert "- " + s + tail == "- " + (s + tail);
    MarkedIndicator(s);
    ColonNoSpace();
    NoBreaksBoth("- ", s);
    assert ("- " + s)[0] == '-' && ("- " + s)[|s| + 1] == s[|s| - 1];
  }

  lemma ItemIndicator(f: Flow)
    requires IsInline(f) && ItemFits(f)
    ensures Indicator(FlowText(f)) == None
  {
    hide IsInline, TrimSpace, FlowText, IsSpace;
    var s := FlowText(f);
    InlineText(f);
    assert WithoutMarkers(s) == s;
    if Colonless(s) {
      ColonlessFound(s);
    } else {
      var k := Colon(s);
      if k < |s| {
        var v := TrimSpace(s[k + 1..]);
        TrimSpaceChars(s[k + 1..]);
        if v != "" {
          assert v[0] in v && v[0] in s[k + 1..] && v[0] in s;
        }
      }
    }
  }

  lemma TrimSpaceChars(s: string)
    ensures forall c :: c in TrimSpace(s) ==> c in s
  {
    hide IsSpace;
    var t := TrimStart(s);
    var r := TrimEnd(t);
    forall c | c in r ensures c in s {
      var k :| 0 <= k < |r| && r[k] == c;
      assert t[k] == c && s[|s| - |t|..][k] == c;
    }
  }

  lemma ItemTidy(it: Item, n: nat)
    requires IsDocItem(it) && it.One?
    ensures LayItem(it, n) != [] && TidyRow(LayItem(it, n)[0])
  {
    hide CommentFrom, Indicator, MarginOk, TailText, TidyRow, Quiet, IsBlock, IsInline, ItemFits, CommentFits, FlowText;
    if it.val.Inline? {
      var t := FlowText(it.val.flow);
      InlineText(it.val.flow);
      ItemIndicator(it.val.flow);
      QuietNone();
      ValueScan("", it.val.flow, it.margin.comment);
      assert "" + t == t;
      BareTidy(Row(it.margin, n, t, None, n + 2));
      MarkedTidy(Row(it.margin, n, t, None, n + 2), n);
    } else {
      var b := it.val.block;
      IndicatorShape(b);
      TailScan(b.indicator, it.margin.comment);
      IndicatorAlone(b);
      BareTidy(Row(it.margin, n, b.indicator, Some(b), n + 2));
      MarkedTidy(Row(it.margin, n, b.indicator, Some(b), n + 2), n);
    }
  }

  lemma BareTidy(row: Row)
    requires MarginOk(row.margin) && Trim(row.text) && row.text[0] != '#' && NoBreaks(row.text)
    requires row.indent < row.inner
    requires CommentFrom(row.text + TailText(row.margin.comment), 0, Out) == |row.text| + CommentGap(row.margin.comment)
    requires row.block.Some? ==> IsBlock(row.block.value)
    requires Indicator(row.text) == if row.block.Some? then Some(row.block.value.indicator) else None
    ensures TidyRow(row)
  {
    hide CommentFrom, Indicator, MarginOk, TailText, IsBlock, IsSpace;
  }

  lemma IndicatorAlone(b: Block)
    requires IsBlock(b)
    ensures Indicator(b.indicator) == Some(b.indicator)
  {
    hide IsBlock, Colon;
    IndicatorShape(b);
    IndicatorPlain(b);
    assert WithoutMarkers(b.indicator) == b.indicator;
  }

  // --------------------------------------------------------------------- whole documents

  /** Rows that are lines, whose blocks end in time, and that go no further left than `n`. */
  ghost predicate Sound(rows: seq<Row>, n: nat) {
    AllTidy(rows) && Flows(rows) && forall i :: 0 <= i < |rows| ==> rows[i].indent >= n
  }

  /** Rows may be put together where the second part starts at the margin of the first. */
  lemma SoundJoin(a: seq<Row>, b: seq<Row>, n: nat)
    requires Sound(a, n) && Sound(b, n) && (b != [] ==> b[0].indent == n)
    ensures Sound(a + b, n)
  {
    var rows := a + b;
    forall i | 0 <= i < |a| ensures n < a[i].inner {
      assert TidyRow(a[i]);
    }
    hide TidyRow;
    forall i | 0 <= i < |rows| ensures TidyRow(rows[i]) && rows[i].indent >= n {
      assert rows[i] == if i < |a| then a[i] else b[i - |a|];
    }
    forall i, j | 0 <= i < |rows| && 0 <= j < |rows| && j == i + 1 && rows[i].block.Some?
      ensures rows[j].indent < rows[i].inner
    {
      if j < |a| {
        assert rows[i] == a[i] && rows[j] == a[j];
      } else if i >= |a| {
        assert rows[i] == b[i - |a|] && rows[j] == b[j - |a|];
      } else {
        assert rows[i] == a[i] && rows[j] == b[0];
      }
    }
  }

  lemma SoundOne(row: Row)
    requires TidyRow(row)
    ensures Sound([row], row.indent)
  {
    hide TidyRow;
  }

  lemma SoundNone(n: nat)
    ensures Sound([], n)
  {
  }

  lemma SoundUnder(row: Row, rows: seq<Row>, n: nat)
    requires TidyRow(row) && row.block.None? && row.indent == n && Sound(rows, n + 2)
    ensures Sound([row] + rows, n)
  {
    hide TidyRow;
    var all := [row] + rows;
    forall i, j | 0 <= i < |all| && 0 <= j < |all| && j == i + 1 && all[i].block.Some?
      ensures all[j].indent < all[i].inner
    {
      assert all[i] == rows[i - 1] && all[j] == rows[j - 1];
    }
  }

  lemma SoundFirst(rows: seq<Row>, n: nat)
    requires Sound(rows, n) && rows != []
    ensures TidyRow(rows[0]) && n < rows[0].inner
  {
    hide CommentFrom, Indicator, IsSpace, IsBlock;
    assert TidyRow(rows[0]);
  }

  lemma SoundMarked(rows: seq<Row>, n: nat)
    requires rows != [] && Sound(rows, n + 2) && rows[0].indent == n + 2
    ensures Sound(MarkFirst(rows, n), n)
  {
    hide TidyRow;
    SoundFirst(rows, n + 2);
    MarkedTidy(rows[0], n);
    var marked := MarkFirst(rows, n);
    forall i | 0 <= i < |marked| ensures TidyRow(marked[i]) && marked[i].indent >= n {
      if i > 0 {
        assert marked[i] == rows[i];
      }
    }
    forall i, j | 0 <= i < |marked| && 0 <= j < |marked| && j == i + 1 && marked[i].block.Some?
      ensures marked[j].indent < marked[i].inner
    {
      assert marked[j] == rows[j] && marked[i].inner == rows[i].inner && rows[i].block.Some?;
    }
  }

  lemma {:induction false} LayoutSound(doc: Doc, n: nat)
    requires IsDoc(doc)
    ensures Sound(Layout(doc, n), n)
    decreases doc, 0
  {
    hide Sound, LayFields, LayItems, AreFields, AreDocItems;
    match doc
    case Fields(fields) => FieldsSound(fields, n);
    case Items(items) => ItemsSound(items, n);
  }

  lemma {:induction false} FieldsSound(fields: seq<Field>, n: nat)
    requires AreFields(fields)
    ensures Sound(LayFields(fields, n), n)
    decreases fields, 0
  {
    hide Sound, IsField, LayField, IsItem;
    if fields == [] {
      SoundNone(n);
    } else {
      FieldSound(fields[0], n);
      FieldsSound(fields[1..], n);
      FieldsShape(fields[1..], n);
      SoundJoin(LayField(fields[0], n), LayFields(fields[1..], n), n);
    }
  }

  lemma {:induction false} FieldSound(f: Field, n: nat)
    requires IsField(f)
    ensures Sound(LayField(f, n), n)
    decreases f, 0
  {
    hide Sound, IsDoc, TidyRow, MarginOk, IsKey, IsInline, CommentFits, IsBlock, FlowText;
    match f.val
    case Inline(flow) =>
      InlineTidy(f, n);
      SoundOne(LayField(f, n)[0]);
    case Verbatim(block) =>
      BlockRowTidy(f, n);
      SoundOne(LayField(f, n)[0]);
    case Nothing =>
      BareRowTidy(f, n);
      SoundOne(LayField(f, n)[0]);
    case _ =>
      BareRowTidy(f, n);
      LayoutSound(f.val, n + 2);
      SoundUnder(Row(f.margin, n, f.key + ":", None, n + 2), Layout(f.val, n + 2), n);
  }

  lemma {:induction false} ItemsSound(items: seq<Item>, n: nat)
    requires AreDocItems(items)
    ensures Sound(LayItems(items, n), n)
    decreases items, 0
  {
    hide Sound, IsDocItem, LayItem, IsItem;
    if items == [] {
      SoundNone(n);
    } else {
      ItemSound(items[0], n);
      ItemsSound(items[1..], n);
      ItemsShape(items[1..], n);
      SoundJoin(LayItem(items[0], n), LayItems(items[1..], n), n);
    }
  }

  lemma {:induction false} ItemSound(it: Item, n: nat)
    requires IsDocItem(it)
    ensures Sound(LayItem(it, n), n)
    decreases it, 0
  {
    hide Sound, IsDoc, TidyRow, MarginOk, IsInline, CommentFits, IsBlock, ItemFits, Layout, IsItem;
    if it.Under? {
      LayoutSound(it.val, n + 2);
      LayoutShape(it.val, n + 2);
      SoundMarked(Layout(it.val, n + 2), n);
    } else {
      ItemTidy(it, n);
      SoundOne(LayItem(it, n)[0]);
    }
  }

  // ---------------------------------------------------------------------- the whole file

  ghost predicate OneLiners(raw: seq<string>) {
    forall k :: 0 <= k < |raw| ==> NoBreaks(raw[k])
  }

  lemma OneLinersJoin(a: seq<string>, b: seq<string>)
    requires OneLiners(a) && OneLiners(b)
    ensures OneLiners(a + b)
  {
    hide NoBreaks;
  }

  lemma OneLinersHead(line: string)
    requires NoBreaks(line)
    ensures OneLiners([line])
  {
    hide NoBreaks;
  }

  lemma RowOneLiners(row: Row)
    requires TidyRow(row)
    ensures OneLiners(RawRow(row))
  {
    hide HeadLine, NoBreaks, TidyRow, RawBody, GapTexts, OneLiners;
    GapsOneLine(row);
    BodyOneLine(row);
    RowIsLine(row);
    HeadRead(row);
    OneLinersHead(HeadLine(row));
    OneLinersJoin(GapTexts(row.margin.above), [HeadLine(row)]);
    OneLinersJoin(GapTexts(row.margin.above) + [HeadLine(row)], RawBody(BodyOf(row), row.inner));
  }

  lemma GapsOneLine(row: Row)
    requires TidyRow(row)
    ensures OneLiners(GapTexts(row.margin.above))
  {
    hide GapText, NoBreaks, TidyRow, GapOk;
    GapsOk(row);
    forall k | 0 <= k < |row.margin.above| ensures NoBreaks(GapText(row.margin.above[k])) {
      GapSkipped(row.margin.above[k]);
    }
  }

  lemma BodyOneLine(row: Row)
    requires TidyRow(row)
    ensures OneLiners(RawBody(BodyOf(row), row.inner))
  {
    hide TrimSpace, Indicator, CommentFrom, IsSpace;
    var lines := RawBody(BodyOf(row), row.inner);
    forall k | 0 <= k < |lines| ensures NoBreaks(lines[k]) {
      assert NoBreaks(BodyOf(row)[k]);
    }
  }

  lemma {:induction false} RowsOneLiners(rows: seq<Row>)
    requires AllTidy(rows)
    ensures OneLiners(RawRows(rows))
    decreases |rows|
  {
    hide TidyRow, RawRow, NoBreaks;
    if rows != [] {
      RowOneLiners(rows[0]);
      forall k | 0 <= k < |rows[1..]| ensures TidyRow(rows[1..][k]) {
        assert rows[1..][k] == rows[k + 1];
      }
      RowsOneLiners(rows[1..]);
    }
  }

  lemma RenderSplits(raw: seq<string>)
    requires OneLiners(raw)
    ensures RawLines(Join(raw + [""], '\n')) == raw && '\r' !in Join(raw + [""], '\n')
  {
    hide Join, Split;
    SplitJoin(raw + [""], '\n');
    assert (raw + [""])[..|raw|] == raw;
    if '\r' in Join(raw + [""], '\n') {
      JoinChars(raw + [""], '\n', '\r');
      assert false;
    }
  }

  const BOM: char := 0xFEFF as char

  /** A document starts with no byte order mark. */
  lemma RenderNoBom(doc: Doc)
    requires IsDoc(doc)
    ensures WithoutBom(Render(doc)) == Render(doc)
  {
    hide IsDoc, Layout, RawRow, RawRows;
    var rows := Layout(doc, 0);
    LayoutShape(doc, 0);
    FirstLine(doc);
    RowsFirst(rows);
    JoinBegins(RawRows(rows), RawRow(rows[0])[0]);
  }

  lemma RowsFirst(rows: seq<Row>)
    requires rows != []
    ensures RawRow(rows[0]) != [] && RawRows(rows) != [] && RawRows(rows)[0] == RawRow(rows[0])[0]
  {
    hide RawRow;
    RowParts(rows[0]);
  }

  lemma JoinBegins(raw: seq<string>, first: string)
    requires raw != [] && raw[0] == first && (first == "" || first[0] != BOM)
    ensures WithoutBom(Join(raw + [""], '\n')) == Join(raw + [""], '\n')
  {
    var all := raw + [""];
    assert all[0] == first && |all| > 1;
    var s := Join(all, '\n');
    assert s == first + ['\n'] + Join(all[1..], '\n');
    assert s[0] == if first == "" then '\n' else first[0];
  }

  lemma FirstLine(doc: Doc)
    requires IsDoc(doc)
    ensures Layout(doc, 0) != [] && RawRow(Layout(doc, 0)[0]) != []
    ensures var first := RawRow(Layout(doc, 0)[0])[0]; first == "" || first[0] != BOM
  {
    hide IsDoc, Layout, RawRow, TailText;
    LayoutShape(doc, 0);
    var row := Layout(doc, 0)[0];
    RowParts(row);
    FirstTextChar(doc);
    if row.margin.above == [] {
      assert HeadLine(row) == row.text + TailText(row.margin.comment) by {
        assert Spaces(0) == "";
      }
    } else {
      assert RawRow(row)[0] == GapText(row.margin.above[0]);
      GapFirst(row.margin.above[0]);
    }
  }

  lemma GapFirst(g: Gap)
    ensures GapText(g) == "" || GapText(g)[0] == ' ' || GapText(g)[0] == '#'
  {
  }

  lemma FirstTextChar(doc: Doc)
    requires IsDoc(doc)
    ensures Layout(doc, 0) != [] && Layout(doc, 0)[0].text != "" && Layout(doc, 0)[0].text[0] != BOM
  {
    hide IsField, IsDocItem, LayField, LayItem;
    LayoutShape(doc, 0);
    if doc.Fields? {
      var rest := FieldHead(doc.fields[0], 0);
      assert Layout(doc, 0)[0] == LayField(doc.fields[0], 0)[0];
      KeyNoBom(doc.fields[0]);
      assert (doc.fields[0].key + ":" + rest)[0] == doc.fields[0].key[0];
    }
  }

  lemma KeyNoBom(f: Field)
    requires IsField(f)
    ensures f.key != "" && f.key[0] != BOM
  {
    hide IsDoc, IsInline, IsBlock, IsSpace;
  }

  /** The significant lines of a written document are its rows. */
  lemma RenderLines(doc: Doc)
    requires IsDoc(doc) && Tight(Layout(doc, 0))
    ensures SignificantLines(Render(doc)) == Ok(Numbered(Layout(doc, 0), 0))
  {
    hide IsDoc, Layout, AllTidy, Flows, Tight, Join, RawRows, LinesFrom, RawLines, WithoutBom, Numbered;
    var rows := Layout(doc, 0);
    LayoutSound(doc, 0);
    RenderNoBom(doc);
    RowsOneLiners(rows);
    RenderSplits(RawRows(rows));
    NothingToNormalise(Render(doc));
    assert RawRows(rows)[0..] == RawRows(rows);
    RowsLines(RawRows(rows), 0, rows);
  }

  lemma {:induction false} NumberedSame(rows: seq<Row>, i: nat)
    ensures Same(Numbered(rows, i), rows)
    decreases |rows|
  {
    hide RawRow, BlockText;
    if rows != [] {
      NumberedSame(rows[1..], i + |RawRow(rows[0])|);
      forall k | 0 <= k < |rows| ensures Alike(Numbered(rows, i)[k], rows[k]) {
        if k > 0 {
          assert rows[k] == rows[1..][k - 1];
        }
      }
    }
  }

  /**
    A document, written out, parses to its tree and to nothing else, exactly if it
    is nested no deeper than the parser goes and has no key twice in one block.
   */
  lemma DocumentRead(doc: Doc, u: Node)
    requires IsDoc(doc) && Tight(Layout(doc, 0))
    ensures Means(Render(doc), u) <==> u == Tree(doc) && Height(doc) <= MAX_DEPTH + 1 && Unique(doc)
  {
    hide IsDoc, Layout, Render, Height, Tree, Unique, Read, SignificantLines, Tight;
    RenderLines(doc);
    NumberedSame(Layout(doc, 0), 0);
    RowsRead(doc, 0, 0, Numbered(Layout(doc, 0), 0));
  }
}
