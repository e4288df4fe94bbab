/**
  Writing a tree out and parsing it back: any tree of keys, lists and strings has a
  document. Also, what a quoted string may not contain as a list item, and that
  line endings make no difference.
 */
module YamlRoundTrip {
  import opened Wrappers
  import opened Text
  import opened YamlText
  import opened YamlLines
  import opened YamlTree
  import opened YamlParser
  import opened YamlFlow
  import opened YamlDocs
  import opened YamlFiles

  // ------------------------------------------------------------------ trees to documents

  const BARE_MARGIN := Margin([], None)

  /** A string, a list of strings or an empty map: written inline. */
  predicate IsLeaf(t: Node) {
    match t
    case Scalar(_) => true
    case Sequence(ns) => forall i :: 0 <= i < |ns| ==> ns[i].Scalar?
    case Mapping(es) => es == []
  }

  /** A tree that can be written as a block: its keys are keys, and its items are not taken for anything else. */
  predicate IsTree(t: Node) {
    match t
    case Scalar(_) => false
    case Mapping(es) => es != [] && AreEntries(es, {})
    case Sequence(ns) => ns != [] && AreNodes(ns)
  }

  predicate AreEntries(es: seq<Entry>, seen: set<string>) {
    es == [] || (IsKey(es[0].key) && es[0].key !in seen && (IsLeaf(es[0].val) || IsTree(es[0].val))
                 && AreEntries(es[1..], seen + {es[0].key}))
  }

  predicate AreNodes(ns: seq<Node>) {
    ns == []
    || ((if ns[0].Scalar? then ItemFits(Str(ns[0].text, DoubleQuoted)) else IsTree(ns[0])) && AreNodes(ns[1..]))
  }

  function Strings(ns: seq<Node>): seq<Flow> {
    if ns == [] then [] else [Str(if ns[0].Scalar? then ns[0].text else "", DoubleQuoted)] + Strings(ns[1..])
  }

  function LeafOf(t: Node): Doc {
    match t
    case Scalar(text) => Inline(Str(text, DoubleQuoted))
    case Sequence(ns) => Inline(List(Strings(ns)))
    case Mapping(_) => Inline(Map([]))
  }

  function DocOf(t: Node): Doc {
    match t
    case Scalar(_) => LeafOf(t)
    case Mapping(es) => Fields(FieldsOf(es))
    case Sequence(ns) => Items(ItemsOf(ns))
  }

  function FieldsOf(es: seq<Entry>): seq<Field> {
    if es == [] then []
    else
      var val := if IsLeaf(es[0].val) then LeafOf(es[0].val) else DocOf(es[0].val);
      [Field(BARE_MARGIN, es[0].key, val)] + FieldsOf(es[1..])
  }

  function ItemsOf(ns: seq<Node>): seq<Item> {
    if ns == [] then []
    else [if ns[0].Scalar? then One(BARE_MARGIN, LeafOf(ns[0])) else Under(DocOf(ns[0]))] + ItemsOf(ns[1..])
  }

  lemma {:induction false} StringsNested(ns: seq<Node>)
    ensures YamlFlow.AreItems(Strings(ns))
    ensures (forall i :: 0 <= i < |ns| ==> ns[i].Scalar?) ==> FlowNodes(Strings(ns)) == ns
  {
    if ns != [] {
      StringsNested(ns[1..]);
    }
  }

  lemma LeafWritten(t: Node)
    requires IsLeaf(t)
    ensures LeafOf(t).Inline? && IsInline(LeafOf(t).flow) && Tree(LeafOf(t)) == t && Unique(LeafOf(t))
  {
    match t
    case Scalar(_) =>
    case Sequence(ns) => StringsNested(ns);
    case Mapping(_) =>
  }

  lemma {:induction false} TreeWritten(t: Node)
    requires IsTree(t)
    ensures IsDoc(DocOf(t)) && Tree(DocOf(t)) == t && Unique(DocOf(t))
    decreases t, 0
  {
    hide AreFields, AreDocItems, FieldsUnique, ItemsUnique, AreEntries, AreNodes, FieldTrees, ItemTrees;
    match t
    case Mapping(es) => EntriesWritten(es, {});
    case Sequence(ns) => NodesWritten(ns);
  }

  lemma {:induction false} EntriesWritten(es: seq<Entry>, seen: set<string>)
    requires AreEntries(es, seen)
    ensures var fs := FieldsOf(es); AreFields(fs) && FieldTrees(fs) == es && FieldsUnique(fs, seen) && |fs| == |es|
    decreases es, 0
  {
    hide IsLeaf, IsTree, IsKey, IsDoc, IsInline, LeafOf, DocOf, Tree, Unique;
    if es != [] {
      var e := es[0];
      EntriesWritten(es[1..], seen + {e.key});
      if IsLeaf(e.val) {
        LeafWritten(e.val);
      } else {
        TreeWritten(e.val);
        DocNotLeaf(DocOf(e.val));
      }
    }
  }

  lemma DocNotLeaf(doc: Doc)
    requires IsDoc(doc)
    ensures doc.Fields? || doc.Items?
  {
  }

  lemma {:induction false} NodesWritten(ns: seq<Node>)
    requires AreNodes(ns)
    ensures var items := ItemsOf(ns);
      AreDocItems(items) && ItemTrees(items) == ns && ItemsUnique(items) && |items| == |ns|
    decreases ns, 0
  {
    hide IsTree, IsDoc, IsInline, DocOf, Tree, Unique, ItemFits;
    if ns != [] {
      NodesWritten(ns[1..]);
      if ns[0].Scalar? {
        LeafWritten(ns[0]);
      } else {
        TreeWritten(ns[0]);
      }
    }
  }

  /** No row has a literal block. */
  ghost predicate NoBlocks(rows: seq<Row>) {
    forall i :: 0 <= i < |rows| ==> rows[i].block.None?
  }

  lemma {:induction false} TreeNoBlocks(t: Node, n: nat)
    ensures NoBlocks(Layout(DocOf(t), n))
    decreases t, 0
  {
    match t
    case Scalar(_) =>
    case Mapping(es) => EntriesNoBlocks(es, n);
    case Sequence(ns) => NodesNoBlocks(ns, n);
  }

  lemma {:induction false} EntriesNoBlocks(es: seq<Entry>, n: nat)
    ensures NoBlocks(LayFields(FieldsOf(es), n))
    decreases es, 0
  {
    hide FlowText, IsLeaf;
    if es != [] {
      EntriesNoBlocks(es[1..], n);
      if !IsLeaf(es[0].val) {
        TreeNoBlocks(es[0].val, n + 2);
      }
      EntryNoBlocks(es[0], n);
    }
  }

  lemma EntryNoBlocks(e: Entry, n: nat)
    requires !IsLeaf(e.val) ==> NoBlocks(Layout(DocOf(e.val), n + 2))
    ensures NoBlocks(LayField(Field(BARE_MARGIN, e.key, if IsLeaf(e.val) then LeafOf(e.val) else DocOf(e.val)), n))
  {
    hide FlowText, FieldsOf, ItemsOf, LayFields, LayItems, Strings;
  }

  lemma {:induction false} NodesNoBlocks(ns: seq<Node>, n: nat)
    ensures NoBlocks(LayItems(ItemsOf(ns), n))
    decreases ns, 0
  {
    hide FlowText;
    if ns != [] {
      NodesNoBlocks(ns[1..], n);
      TreeNoBlocks(ns[0], n + 2);
    }
  }

  /**
    A tree, written out, parses back to itself and to nothing else, exactly if it is
    nested no deeper than the parser goes.
   */
  lemma RoundTrip(t: Node, u: Node)
    requires IsTree(t)
    ensures Means(Render(DocOf(t)), u) <==> u == t && Height(DocOf(t)) <= MAX_DEPTH + 1
  {
    hide IsTree, IsDoc, DocOf, Render, Height, Unique, Tree, Means, Layout;
    TreeWritten(t);
    TreeNoBlocks(t, 0);
    DocumentRead(DocOf(t), u);
  }

  // --------------------------------------------------------------------- line endings

  /** The same text with carriage returns before its newlines. */
  function CrLf(data: string): string {
    if data == "" then "" else (if data[0] == '\n' then "\r\n" else [data[0]]) + CrLf(data[1..])
  }

  /** The same text with carriage returns for its newlines. */
  function Cr(data: string): string {
    if data == "" then "" else (if data[0] == '\n' then "\r" else [data[0]]) + Cr(data[1..])
  }

  lemma {:induction false} CrLfSame(data: string)
    requires '\r' !in data
    ensures Normalised(CrLf(data)) == data
  {
    if data != "" {
      CrLfSame(data[1..]);
      var s, rest := CrLf(data), CrLf(data[1..]);
      if data[0] == '\n' {
        assert s[2..] == rest;
      } else {
        assert s[1..] == rest;
      }
      assert [data[0]] + data[1..] == data;
    }
  }

  lemma {:induction false} CrSame(data: string)
    requires '\r' !in data
    ensures Normalised(Cr(data)) == data
    ensures Cr(data) != "" ==> Cr(data)[0] != '\n'
  {
    if data != "" {
      CrSame(data[1..]);
      var s, rest := Cr(data), Cr(data[1..]);
      assert s[1..] == rest && s[0] == if data[0] == '\n' then '\r' else data[0];
      assert [data[0]] + data[1..] == data;
    }
  }

  /** Line endings and a byte order mark make no difference to what a file means. */
  lemma EndingsSame(data: string, u: Node)
    requires '\r' !in data && (data == "" || data[0] != BOM)
    ensures Means(CrLf(data), u) <==> Means(data, u)
    ensures Means(Cr(data), u) <==> Means(data, u)
    ensures Means([BOM] + data, u) <==> Means(data, u)
  {
    hide Read, LinesFrom, RawLines, Normalised;
    CrLfSame(data);
    CrSame(data);
    NothingToNormalise(data);
    assert CrLf(data) == "" || CrLf(data)[0] != BOM;
    assert Cr(data) == "" || Cr(data)[0] != BOM;
    assert ([BOM] + data)[1..] == data && ([BOM] + data)[..1] == [BOM];
    assert data != "" ==> data[..1] == [data[0]];
    assert CrLf(data) != "" ==> CrLf(data)[..1] == [CrLf(data)[0]];
    assert Cr(data) != "" ==> Cr(data)[..1] == [Cr(data)[0]];
  }

  // ------------------------------------------------------------------ quoted list items

  function QuotedRow(v: string): Row {
    Row(BARE_MARGIN, 0, "- " + Quoted(v), None, 2)
  }

  lemma QuotedTidy(v: string)
    ensures TidyLine(QuotedRow(v)) && HeadLine(QuotedRow(v)) == "- " + Quoted(v)
  {
    hide CommentFrom, Quoted, IsSpace, Quiet;
    var q := Quoted(v);
    QuotedShape(v);
    QuoteNoSpace();
    ColonNoSpace();
    QuietDouble(v);
    TailScan(q, None);
    NoTail(q);
    MarkedScan(q);
    NoTail("- " + q);
    FlowOneLine(Str(v, DoubleQuoted));
    NoBreaksBoth("- ", q);
    assert ("- " + q)[|q| + 1] == q[|q| - 1];
    assert Spaces(0) + ("- " + q) == "- " + q;
  }

  lemma QuotedEnds(v: string)
    ensures var ind := Indicator(Quoted(v)); ind.Some? ==> ind.value != "" && ind.value[|ind.value| - 1] == '"'
  {
    hide Quoted, IsSpace, TrimSpace, Colon, WithoutMarkers;
    var s := Quoted(v);
    QuotedShape(v);
    QuoteNoSpace();
    NoMarker(s);
    var k := Colon(s);
    if k < |s| {
      EndStays(s[k + 1..]);
    }
  }

  lemma NoMarker(s: string)
    requires s != "" && s[0] == '"'
    ensures WithoutMarkers(s) == s
  {
  }

  lemma EndStays(s: string)
    requires s != "" ==> !IsSpace(s[|s| - 1])
    ensures TrimSpace(s) != "" ==> TrimSpace(s)[|TrimSpace(s)| - 1] == s[|s| - 1]
  {
    hide IsSpace, TrimStart, TrimEnd;
    var t := TrimStart(s);
    if t != "" {
      assert s[|s| - |t|..][|t| - 1] == s[|s| - 1];
      EndKept(t);
    } else {
      NoEnd();
    }
  }

  lemma QuoteRefused(raw: seq<string>, ind: string)
    requires raw != [] && ind != "" && ind[|ind| - 1] == '"'
    ensures Literal(raw, 1, 0, ind).Err?
  {
    hide BodyFrom, Chomped;
  }

  lemma OneLine(raw: string, text: string)
    requires raw != "" && raw[0] != '\t' && !IsBlank(raw) && !IsComment(raw) && Content(raw) == text
    requires Indent(Trimmed(raw)) == 0
    ensures Indicator(text).None? ==> LinesFrom([raw], 0) == Ok([Line(text, 0, 1, None)])
    ensures Indicator(text).Some? && Literal([raw], 1, 0, Indicator(text).value).Err? ==> LinesFrom([raw], 0).Err?
  {
    hide IsBlank, IsComment, Content, Indent, Trimmed, Indicator, Literal, TrimSpace;
    assert LinesFrom([raw], 1) == Ok([]);
    assert [Line(text, 0, 1, None)] + [] == [Line(text, 0, 1, None)];
  }

  lemma NoEnd()
    ensures TrimEnd("") == ""
  {
  }

  lemma QuotedLines(v: string)
    ensures var raw := ["- " + Quoted(v)];
      if Indicator(Quoted(v)).None? then LinesFrom(raw, 0) == Ok([Line("- " + Quoted(v), 0, 1, None)])
      else LinesFrom(raw, 0).Err?
  {
    hide *;
    QuotedTidy(v);
    QuotedIs(v);
    HeadRead(QuotedRow(v));
    MarkedIndicator(Quoted(v));
    QuotedEnds(v);
    var line := "- " + Quoted(v);
    if Indicator(Quoted(v)).Some? {
      QuoteRefused([line], Indicator(Quoted(v)).value);
    }
    OneLine(line, line);
  }

  lemma QuotedIs(v: string)
    ensures QuotedRow(v) == Row(BARE_MARGIN, 0, "- " + Quoted(v), None, 2)
  {
  }

  lemma QuotedInline(v: string)
    ensures var l := Line("- " + Quoted(v), 0, 1, None); IsItem(l.text) && ReadItem(l, [], 0) == Some(Scalar(v))
  {
    hide Quoted, InlineValue, Colon, Read;
    Marked(Quoted(v));
    QuotedShape(v);
    DoubleRead(v, 0);
  }

  lemma {:induction false} OneItemRead(l: Line, t: Node)
    requires IsItem(l.text) && l.indent == 0 && ReadItem(l, [], 0) == Some(t)
    ensures Read([l], 0) == Some(Sequence([t]))
  {
    hide ReadItem, IsItem, ReadEntries;
    var none: seq<Line> := [];
    assert [l][1..] == none && [l][1..1] == none;
    assert Deeper(none, 0) == 0;
    assert ReadItems(none, 0, 0) == Some([]);
    assert ReadItems([l], 0, 0) == ConsItem(t, ReadItems(none, 0, 0));
    assert [t] + [] == [t];
  }

  lemma QuotedText(v: string)
    ensures var line := "- " + Quoted(v); RawLines(Normalised(WithoutBom(line + "\n"))) == [line]
  {
    hide Quoted, RawLines, Normalised, WithoutBom, TidyLine, TrimSpace, Content, Indent, HeadLine;
    var line := "- " + Quoted(v);
    QuotedTidy(v);
    HeadRead(QuotedRow(v));
    LineOf(line);
    NothingToNormalise(line + "\n");
  }

  lemma LineOf(line: string)
    requires NoBreaks(line) && line != "" && line[0] != BOM
    ensures RawLines(line + "\n") == [line] && '\r' !in line + "\n" && WithoutBom(line + "\n") == line + "\n"
  {
    hide RawLines, WithoutBom;
    assert OneLiners([line]);
    RenderSplits([line]);
    JoinBegins([line], line);
    assert ([line] + [""])[1..] == [""];
    assert Join([line] + [""], '\n') == line + "\n";
  }

  /**
    A list item that is a quoted string comes back, exactly if what stands behind
    its first colon and space does not look like the start of a block scalar.
   */
  lemma QuotedItem(v: string, u: Node)
    ensures Means("- " + Quoted(v) + "\n", u) <==> u == Sequence([Scalar(v)]) && Indicator(Quoted(v)) == None
  {
    hide Read, LinesFrom, Indicator, Quoted, RawLines, Normalised, WithoutBom, ReadItem, IsItem;
    QuotedText(v);
    QuotedLines(v);
    QuotedInline(v);
    OneItemRead(Line("- " + Quoted(v), 0, 1, None), Scalar(v));
  }

  /** So the item "a: |b", in quotes, is refused. */
  lemma QuotedItemRefused(u: Node)
    ensures !Means("- \"a: |b\"\n", u)
  {
    hide Means, Indicator, Quoted;
    RefusedText();
    QuotedItem("a: |b", u);
  }

  lemma RefusedText()
    ensures "- " + Quoted("a: |b") + "\n" == "- \"a: |b\"\n" && Indicator(Quoted("a: |b")).Some?
  {
    hide Indicator, Escape;
    var v := "a: |b";
    forall k | 0 <= k < |v| ensures EscapeChar(v[k]) == [v[k]] {
      assert v[k] != '\n' && v[k] != '\t' && v[k] != '\r' && v[k] != '\\' && v[k] != '"';
    }
    EscapePlain(v);
    RefusedIndicator();
    assert "\"" + v + "\"" == "\"a: |b\"";
  }

  lemma RefusedIndicator()
    ensures Indicator("\"a: |b\"") == Some("|b\"")
  {
    hide TrimSpace;
    var q := "\"a: |b\"";
    assert WithoutMarkers(q) == q;
    assert !IsColon(q, 0) && !IsColon(q, 1) && IsColon(q, 2);
    assert Colon(q) == 2;
    assert q[3..] == " " + "|b\"";
    TrimSpaceOne("|b\"");
  }

  lemma {:induction false} EscapePlain(v: string)
    requires forall k :: 0 <= k < |v| ==> EscapeChar(v[k]) == [v[k]]
    ensures Escape(v) == v
  {
    if v != "" {
      EscapePlain(v[1..]);
      assert [v[0]] + v[1..] == v;
    }
  }

  /** In a file that parses, a value that starts like a block scalar is a literal block with a known indicator. */
  lemma BlocksSupported(data: string, t: Node, l: Line, key: string, v: string)
    requires Means(data, t) && l in SignificantLines(data).value
    requires l.text == key + ": " + v && IsKey(key) && Trim(v)
    ensures v[0] != '>' && (l.literal.Some? <==> v[0] == '|') && (v[0] == '|' ==> v in ["|", "|-", "|+"])
  {
    hide LinesFrom, RawLines, Normalised, WithoutBom, Read, Indicator, TrimSpace, IsKey, IsSpace;
    LinesSupported(RawLines(Normalised(WithoutBom(data))), 0, l);
    assert l.text == key + ":" + (" " + v);
    IndicatorKey(key, " " + v);
    TrimSpaceOne(v);
  }
}
