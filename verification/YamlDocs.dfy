/**
  Documents: the files that the parser is for, as they are written. A document is
  a block of keys or of list items. A value is written inline, as a literal block,
  as a block of its own or not at all; comments and blank lines may stand anywhere
  except directly below a literal block. Each document has a tree, and it is proved
  here that its rows are read as that tree.
 */
module YamlDocs {
  import opened Wrappers
  import opened Text
  import opened YamlText
  import opened YamlLines
  import opened YamlTree
  import opened YamlFlow

  /** A line without content: blank, or only a comment. */
  datatype Gap = Blank(n: nat) | Remark(n: nat, text: string)

  /** A comment behind a value, with one space before it and `gap` more. */
  datatype Comment = Comment(gap: nat, text: string)

  /** What stands above and behind a row. */
  datatype Margin = Margin(above: seq<Gap>, comment: Option<Comment>)

  datatype Block = Block(indicator: string, body: seq<string>)

  datatype Doc =
    | Inline(flow: Flow)
    | Verbatim(block: Block)
    | Nothing
    | Fields(fields: seq<Field>)
    | Items(items: seq<Item>)

  datatype Field = Field(margin: Margin, key: string, val: Doc)

  /** An item is a value of its own, or a block that starts behind the marker. */
  datatype Item = One(margin: Margin, val: Doc) | Under(val: Doc)

  // -------------------------------------------------------------------------- trees

  function BlockText(b: Block): string {
    Chomped(b.body, b.indicator)
  }

  function Tree(doc: Doc): Node {
    match doc
    case Inline(flow) => FlowNode(flow)
    case Verbatim(block) => Scalar(BlockText(block))
    case Nothing => Scalar("")
    case Fields(fields) => Mapping(FieldTrees(fields))
    case Items(items) => Sequence(ItemTrees(items))
  }

  function FieldTrees(fields: seq<Field>): seq<Entry> {
    if fields == [] then [] else [Entry(fields[0].key, Tree(fields[0].val))] + FieldTrees(fields[1..])
  }

  function ItemTrees(items: seq<Item>): seq<Node> {
    if items == [] then [] else [ItemTree(items[0])] + ItemTrees(items[1..])
  }

  function ItemTree(it: Item): Node {
    match it
    case One(_, val) => Tree(val)
    case Under(val) => Tree(val)
  }

  /** How many blocks and inline maps are nested in one another. */
  function Height(doc: Doc): nat {
    match doc
    case Inline(flow) => FlowHeight(flow)
    case Verbatim(_) => 0
    case Nothing => 0
    case Fields(fields) => 1 + FieldsHeight(fields)
    case Items(items) => 1 + ItemsHeight(items)
  }

  function FieldsHeight(fields: seq<Field>): nat {
    if fields == [] then 0 else Max(Height(fields[0].val), FieldsHeight(fields[1..]))
  }

  function ItemsHeight(items: seq<Item>): nat {
    if items == [] then 0 else Max(ItemHeight(items[0]), ItemsHeight(items[1..]))
  }

  function ItemHeight(it: Item): nat {
    match it
    case One(_, val) => Height(val)
    case Under(val) => Height(val)
  }

  // ----------------------------------------------------------------- what can be written

  /** A plain string that is a whole value. */
  predicate IsPlain(s: string) {
    && Trim(s) && NoBreaks(s) && !IsMarkedUp(s) && s[0] != '|' && s[0] != '>'
    && ('#' !in s || (NoQuotes(s) && NoHash(s)))
  }

  predicate IsInline(f: Flow) {
    if f.Str? && f.quotes.Bare? then IsPlain(f.text) else IsNested(f)
  }

  /** A comment behind a plain string that holds quotes could be taken for part of it. */
  predicate CommentFits(f: Flow, comment: Option<Comment>) {
    comment.Some? && f.Str? && f.quotes.Bare? ==> NoQuotes(f.text)
  }

  /** No colon that would make the item a key: none at the end, and none before a space. */
  predicate Colonless(s: string) {
    forall k :: 0 <= k < |s| && s[k] == ':' ==> k + 1 < |s| && s[k + 1] != ' '
  }

  /** The value can stand behind a marker: it is not taken for a key, another item or a literal block. */
  predicate ItemFits(f: Flow) {
    var s := FlowText(f);
    && !IsItem(s)
    && (Colonless(s) || ((f.Map? || (f.Str? && !f.quotes.Bare?)) && '|' !in s && '>' !in s))
  }

  /** The lines of a literal block: the first with content fixes the indentation, blank ones are empty. */
  ghost predicate IsBody(body: seq<string>) {
    && (forall k :: 0 <= k < |body| ==> NoBreaks(body[k]) && (body[k] == "" || TrimSpace(body[k]) != ""))
    && exists k :: 0 <= k < |body| && body[k] != "" && body[k][0] != ' ' && forall j :: 0 <= j < k ==> body[j] == ""
  }

  ghost predicate IsBlock(b: Block) {
    b.indicator in ["|", "|-", "|+"] && IsBody(b.body)
  }

  predicate GapOk(g: Gap) {
    g.Remark? ==> NoBreaks(g.text)
  }

  predicate CommentOk(c: Comment) {
    NoBreaks(c.text) && (c.text == "" || !IsSpace(c.text[|c.text| - 1]))
  }

  predicate MarginOk(m: Margin) {
    (forall k :: 0 <= k < |m.above| ==> GapOk(m.above[k])) && (m.comment.Some? ==> CommentOk(m.comment.value))
  }

  /** A block: keys or items. */
  ghost predicate IsDoc(doc: Doc) {
    match doc
    case Fields(fields) => fields != [] && AreFields(fields)
    case Items(items) => items != [] && AreDocItems(items)
    case _ => false
  }

  ghost predicate AreFields(fields: seq<Field>) {
    fields == [] || (IsField(fields[0]) && AreFields(fields[1..]))
  }

  ghost predicate IsField(f: Field) {
    && MarginOk(f.margin) && IsKey(f.key)
    && match f.val
       case Inline(flow) => IsInline(flow) && CommentFits(flow, f.margin.comment)
       case Verbatim(block) => IsBlock(block)
       case Nothing => true
       case _ => IsDoc(f.val)
  }

  ghost predicate AreDocItems(items: seq<Item>) {
    items == [] || (IsDocItem(items[0]) && AreDocItems(items[1..]))
  }

  ghost predicate IsDocItem(it: Item) {
    match it
    case Under(val) => IsDoc(val)
    case One(margin, val) =>
      && MarginOk(margin)
      && match val
         case Inline(flow) => IsInline(flow) && CommentFits(flow, margin.comment) && ItemFits(flow)
         case Verbatim(block) => IsBlock(block)
         case _ => false
  }

  /** No block and no inline map has a key twice. */
  predicate Unique(doc: Doc) {
    match doc
    case Inline(flow) => FlowUnique(flow)
    case Verbatim(_) => true
    case Nothing => true
    case Fields(fields) => FieldsUnique(fields, {})
    case Items(items) => ItemsUnique(items)
  }

  predicate FieldsUnique(fields: seq<Field>, seen: set<string>) {
    fields == [] || (fields[0].key !in seen && Unique(fields[0].val)
                     && FieldsUnique(fields[1..], seen + {fields[0].key}))
  }

  predicate ItemsUnique(items: seq<Item>) {
    items == [] || (ItemUnique(items[0]) && ItemsUnique(items[1..]))
  }

  predicate ItemUnique(it: Item) {
    match it
    case One(_, val) => Unique(val)
    case Under(val) => Unique(val)
  }

  // -------------------------------------------------------------------------- layout

  /** One row of a file; the body of its literal block, if it has one, goes to column `inner`. */
  datatype Row = Row(margin: Margin, indent: nat, text: string, block: Option<Block>, inner: nat)

  /** The rows of a document at indentation `n`. */
  function Layout(doc: Doc, n: nat): seq<Row> {
    match doc
    case Fields(fields) => LayFields(fields, n)
    case Items(items) => LayItems(items, n)
    case _ => []
  }

  function LayFields(fields: seq<Field>, n: nat): seq<Row> {
    if fields == [] then [] else LayField(fields[0], n) + LayFields(fields[1..], n)
  }

  function LayField(f: Field, n: nat): seq<Row> {
    match f.val
    case Inline(flow) => [Row(f.margin, n, f.key + ": " + FlowText(flow), None, n + 2)]
    case Verbatim(block) => [Row(f.margin, n, f.key + ": " + block.indicator, Some(block), n + 2)]
    case Nothing => [Row(f.margin, n, f.key + ":", None, n + 2)]
    case Fields(fields) => [Row(f.margin, n, f.key + ":", None, n + 2)] + LayFields(fields, n + 2)
    case Items(items) => [Row(f.margin, n, f.key + ":", None, n + 2)] + LayItems(items, n + 2)
  }

  function LayItems(items: seq<Item>, n: nat): seq<Row> {
    if items == [] then [] else LayItem(items[0], n) + LayItems(items[1..], n)
  }

  function LayItem(it: Item, n: nat): seq<Row> {
    match it
    case Under(val) => MarkFirst(Layout(val, n + 2), n)
    case One(margin, val) =>
      match val
      case Inline(flow) => [Row(margin, n, "- " + FlowText(flow), None, n + 2)]
      case Verbatim(block) => [Row(margin, n, "- " + block.indicator, Some(block), n + 2)]
      case _ => []
  }

  /** The first row of a block behind a marker. */
  function MarkFirst(rows: seq<Row>, n: nat): seq<Row> {
    if rows == [] then [] else [rows[0].(text := "- " + rows[0].text, indent := n)] + rows[1..]
  }

  // -------------------------------------------------------------------- rows are read

  /** The lines are the rows, whatever their numbers. */
  ghost predicate Same(lines: seq<Line>, rows: seq<Row>) {
    |lines| == |rows| && forall i :: 0 <= i < |rows| ==> Alike(lines[i], rows[i])
  }

  ghost predicate Alike(l: Line, row: Row) {
    && l.text == row.text && l.indent == row.indent
    && l.literal == if row.block.Some? then Some(BlockText(row.block.value)) else None
  }

  lemma InlineText(f: Flow)
    requires IsInline(f)
    ensures Trim(FlowText(f)) && NoBreaks(FlowText(f))
    ensures var c := FlowText(f)[0]; c != '|' && c != '>' && c != '#'
  {
    hide IsSpace, Commas, Quoted, IsBare, IsMarkedUp;
    if f.Str? && f.quotes.Bare? {
      PlainFirst(f.text);
    } else {
      FlowTrim(f);
      FlowOneLine(f);
      if f.Str? {
        QuotedShape(f.text);
      }
    }
  }

  lemma PlainFirst(s: string)
    requires IsPlain(s)
    ensures Trim(s) && NoBreaks(s) && s[0] != '|' && s[0] != '>' && s[0] != '#'
  {
    hide IsSpace;
  }

  /** A whole value is read as what it was written for. */
  lemma InlineRead(f: Flow, d: nat)
    requires IsInline(f)
    ensures var r := InlineValue(FlowText(f), d);
      if d + FlowHeight(f) <= MAX_DEPTH && FlowUnique(f) then r == Ok(FlowNode(f)) else r.Err?
  {
    hide Unquoted, TrimSpace, Csv, IsNested, IsSpace;
    if f.Str? && f.quotes.Bare? {
      if d <= MAX_DEPTH {
        PlainRead(f.text, d);
      }
    } else {
      hide InlineValue;
      FlowRead(f, d);
    }
  }

  /** The rows of a block start at its indentation and go no further left. */
  lemma {:induction false} LayoutShape(doc: Doc, n: nat)
    requires IsDoc(doc)
    ensures var rows := Layout(doc, n);
      && rows != [] && rows[0].indent == n && (IsItem(rows[0].text) <==> doc.Items?)
      && (forall i :: 0 <= i < |rows| ==> rows[i].indent >= n)
    decreases doc, 0
  {
    hide IsField, IsDocItem, LayField, LayItem, IsItem;
    match doc
    case Fields(fields) => FieldsShape(fields, n);
    case Items(items) => ItemsShape(items, n);
  }

  lemma KeyText(key: string, rest: string)
    ensures key + ": " + rest == key + ":" + (" " + rest) && key + ":" == key + ":" + ""
  {
  }

  lemma {:induction false} FieldShape(f: Field, n: nat)
    requires IsField(f)
    ensures var rows := LayField(f, n);
      && rows != [] && rows[0].indent == n && !IsItem(rows[0].text)
      && (forall i :: 1 <= i < |rows| ==> rows[i].indent > n)
    decreases f, 0
  {
    hide IsKey, IsItem, IsInline, IsDoc;
    match f.val
    case Inline(flow) =>
      KeyText(f.key, FlowText(flow));
      KeyNoItem(f.key, " " + FlowText(flow));
    case Verbatim(block) =>
      KeyText(f.key, block.indicator);
      KeyNoItem(f.key, " " + block.indicator);
    case Nothing =>
      KeyText(f.key, "");
      KeyNoItem(f.key, "");
    case _ =>
      KeyText(f.key, "");
      KeyNoItem(f.key, "");
      LayoutShape(f.val, n + 2);
  }

  lemma {:induction false} FieldsShape(fields: seq<Field>, n: nat)
    requires AreFields(fields)
    ensures var rows := LayFields(fields, n);
      && (fields != [] ==> rows != [] && rows[0].indent == n && !IsItem(rows[0].text))
      && (forall i :: 0 <= i < |rows| ==> rows[i].indent >= n)
    decreases fields, 0
  {
    hide IsField, LayField, IsItem;
    if fields != [] {
      FieldShape(fields[0], n);
      FieldsShape(fields[1..], n);
    }
  }

  lemma {:induction false} ItemShape(it: Item, n: nat)
    requires IsDocItem(it)
    ensures var rows := LayItem(it, n);
      && rows != [] && rows[0].indent == n && IsItem(rows[0].text)
      && (forall i :: 1 <= i < |rows| ==> rows[i].indent > n)
    decreases it, 0
  {
    hide IsInline, IsDoc, ItemFits, Layout;
    if it.Under? {
      LayoutShape(it.val, n + 2);
      Marked(Layout(it.val, n + 2)[0].text);
    } else if it.val.Inline? {
      Marked(FlowText(it.val.flow));
    } else {
      Marked(it.val.block.indicator);
    }
  }

  lemma Marked(text: string)
    ensures IsItem("- " + text) && ("- " + text)[2..] == text
  {
    assert ("- " + text)[..2] == "- ";
  }

  lemma {:induction false} ItemsShape(items: seq<Item>, n: nat)
    requires AreDocItems(items)
    ensures var rows := LayItems(items, n);
      && (items != [] ==> rows != [] && rows[0].indent == n && IsItem(rows[0].text))
      && (forall i :: 0 <= i < |rows| ==> rows[i].indent >= n)
    decreases items, 0
  {
    hide IsDocItem, LayItem, IsItem;
    if items != [] {
      ItemShape(items[0], n);
      ItemsShape(items[1..], n);
    }
  }

  lemma {:induction false} DeeperIs(lines: seq<Line>, k: nat, base: int)
    requires k <= |lines| && (forall i :: 0 <= i < k ==> lines[i].indent > base)
    requires k < |lines| ==> lines[k].indent <= base
    ensures Deeper(lines, base) == k
    decreases k
  {
    if k > 0 {
      DeeperIs(lines[1..], k - 1, base);
    }
  }

  lemma SameParts(lines: seq<Line>, a: seq<Row>, b: seq<Row>)
    requires Same(lines, a + b)
    ensures Same(lines[..|a|], a) && Same(lines[|a|..], b)
  {
    hide BlockText;
    forall i | 0 <= i < |a| ensures Alike(lines[..|a|][i], a[i]) {
      assert (a + b)[i] == a[i];
    }
    forall i | 0 <= i < |b| ensures Alike(lines[|a|..][i], b[i]) {
      assert (a + b)[|a| + i] == b[i];
    }
  }

  /** Where the first piece of a block ends. */
  lemma FirstPiece(lines: seq<Line>, a: seq<Row>, b: seq<Row>, n: nat)
    requires Same(lines, a + b) && a != [] && (forall i :: 1 <= i < |a| ==> a[i].indent > n)
    requires b != [] ==> b[0].indent == n
    ensures 1 + Deeper(lines[1..], n) == |a|
  {
    hide BlockText;
    var rest := lines[1..];
    forall i | 0 <= i < |a| - 1 ensures rest[i].indent > n {
      assert rest[i] == lines[i + 1] && (a + b)[i + 1] == a[i + 1];
    }
    if b != [] {
      assert rest[|a| - 1] == lines[|a|] && (a + b)[|a|] == b[0];
    }
    DeeperIs(rest, |a| - 1, n);
  }

  lemma SameLength(lines: seq<Line>, rows: seq<Row>)
    requires Same(lines, rows)
    ensures |lines| == |rows|
  {
  }

  /** The rows of a document are read as its tree, exactly if it is not nested too deeply and has no key twice. */
  lemma {:induction false} RowsRead(doc: Doc, n: nat, d: nat, lines: seq<Line>)
    requires IsDoc(doc) && Same(lines, Layout(doc, n))
    ensures Read(lines, d) == if d + Height(doc) <= MAX_DEPTH + 1 && Unique(doc) then Some(Tree(doc)) else None
    decreases doc, 1
  {
    hide ReadEntries, ReadItems, LayFields, LayItems, IsItem, AreFields, AreDocItems, BlockText;
    if d <= MAX_DEPTH {
      LayoutShape(doc, n);
      match doc
      case Fields(fields) => FieldsRead(fields, {}, n, d, lines);
      case Items(items) => ItemsRead(items, n, d, lines);
    }
  }

  lemma {:induction false} FieldsRead(fields: seq<Field>, seen: set<string>, n: nat, d: nat, lines: seq<Line>)
    requires AreFields(fields) && d <= MAX_DEPTH && Same(lines, LayFields(fields, n))
    ensures ReadEntries(lines, n, seen, d) ==
      if d + FieldsHeight(fields) <= MAX_DEPTH && FieldsUnique(fields, seen) then Some(FieldTrees(fields)) else None
    decreases fields, 1
  {
    hide LayField, IsField, Key, Colon, Rest, ReadValue, Deeper, IsItem, Same, Tree, Height, Unique;
    SameLength(lines, LayFields(fields, n));
    if fields != [] {
      var f, rows, rest := fields[0], LayField(fields[0], n), LayFields(fields[1..], n);
      FieldShape(f, n);
      FieldsShape(fields[1..], n);
      SameParts(lines, rows, rest);
      FirstPiece(lines, rows, rest, n);
      FieldsRead(fields[1..], seen + {f.key}, n, d, lines[|rows|..]);
      FieldRead(f, n, d, lines[..|rows|]);
      assert lines[..|rows|][0] == lines[0] && lines[..|rows|][1..] == lines[1..|rows|];
    }
  }

  lemma RestOf(head: Line, key: string, text: string)
    requires IsKey(key) && Trim(text) && head.text == key + ": " + text
    ensures Colon(head.text) < |head.text| && Key(head) == key && Rest(head) == text
  {
    hide IsKey, Colon, TrimSpace, IsItem, Unquoted, IsSpace;
    KeyText(key, text);
    KeyColon(key, " " + text);
    TrimSpaceOne(text);
  }

  lemma RestNone(head: Line, key: string)
    requires IsKey(key) && head.text == key + ":"
    ensures Colon(head.text) < |head.text| && Key(head) == key && Rest(head) == ""
  {
    hide IsKey, Colon, IsItem, Unquoted;
    KeyText(key, "");
    KeyColon(key, "");
  }

  lemma IndicatorTrim(b: Block)
    requires IsBlock(b)
    ensures Trim(b.indicator) && NoBreaks(b.indicator)
  {
    hide IsBody;
  }

  /** One key with its rows. */
  lemma {:induction false} FieldRead(f: Field, n: nat, d: nat, lines: seq<Line>)
    requires IsField(f) && d <= MAX_DEPTH && Same(lines, LayField(f, n))
    ensures lines != [] && lines[0].indent == n && Colon(lines[0].text) < |lines[0].text| && Key(lines[0]) == f.key
    ensures ReadValue(lines[0], lines[1..], d) ==
      if d + Height(f.val) <= MAX_DEPTH && Unique(f.val) then Some(Tree(f.val)) else None
    decreases f, 1
  {
    hide IsKey, IsInline, IsDoc, Key, Colon, Rest, Read, InlineValue, BlockText, IsBlock, CommentFits, MarginOk;
    var head := lines[0];
    match f.val
    case Inline(flow) =>
      InlineText(flow);
      RestOf(head, f.key, FlowText(flow));
      InlineRead(flow, d);
      assert lines[1..] == [];
    case Verbatim(block) =>
      IndicatorTrim(block);
      RestOf(head, f.key, block.indicator);
      assert lines[1..] == [];
    case Nothing =>
      RestNone(head, f.key);
      assert lines[1..] == [];
    case _ =>
      var rows := Layout(f.val, n + 2);
      RestNone(head, f.key);
      SameParts(lines, [Row(f.margin, n, f.key + ":", None, n + 2)], rows);
      LayoutShape(f.val, n + 2);
      RowsRead(f.val, n + 2, d + 1, lines[1..]);
  }

  lemma {:induction false} ItemsRead(items: seq<Item>, n: nat, d: nat, lines: seq<Line>)
    requires AreDocItems(items) && d <= MAX_DEPTH && Same(lines, LayItems(items, n))
    ensures ReadItems(lines, n, d) ==
      if d + ItemsHeight(items) <= MAX_DEPTH && ItemsUnique(items) then Some(ItemTrees(items)) else None
    decreases items, 1
  {
    hide LayItem, IsDocItem, ReadItem, Deeper, IsItem, Same, Tree, Height, Unique;
    SameLength(lines, LayItems(items, n));
    if items != [] {
      var rows, rest := LayItem(items[0], n), LayItems(items[1..], n);
      ItemShape(items[0], n);
      ItemsShape(items[1..], n);
      SameParts(lines, rows, rest);
      FirstPiece(lines, rows, rest, n);
      ItemsRead(items[1..], n, d, lines[|rows|..]);
      ItemRead(items[0], n, d, lines[..|rows|]);
      assert lines[..|rows|][0] == lines[0] && lines[..|rows|][1..] == lines[1..|rows|];
    }
  }

  /** The value of an item is not taken for anything else. */
  lemma ItemInline(f: Flow)
    requires IsInline(f) && ItemFits(f)
    ensures IsInlineItem(FlowText(f)) && !IsItem(FlowText(f))
  {
    hide IsSpace, Commas, Quoted, IsBare, IsMarkedUp, IsItem;
    var s := FlowText(f);
    if Colonless(s) {
      ColonlessFound(s);
    } else if f.Str? {
      QuotedShape(f.text);
    }
  }

  lemma ColonlessFound(s: string)
    requires Colonless(s)
    ensures Colon(s) == |s|
  {
  }

  lemma IndicatorPlain(b: Block)
    requires IsBlock(b)
    ensures !IsItem(b.indicator) && Colon(b.indicator) == |b.indicator|
  {
    hide IsBody;
    assert Colonless(b.indicator);
    ColonlessFound(b.indicator);
  }

  lemma {:induction false} ItemRead(it: Item, n: nat, d: nat, lines: seq<Line>)
    requires IsDocItem(it) && d <= MAX_DEPTH && Same(lines, LayItem(it, n))
    ensures lines != [] && lines[0].indent == n && IsItem(lines[0].text)
    ensures ReadItem(lines[0], lines[1..], d) ==
      if d + Height(it.val) <= MAX_DEPTH && Unique(it.val) then Some(Tree(it.val)) else None
    decreases it, 1
  {
    hide IsInline, ItemFits, IsDoc, Layout, Read, InlineValue, IsInlineItem, Colon, BlockText, IsBlock, CommentFits;
    hide IsItem, MarginOk;
    ItemShape(it, n);
    SameLength(lines, LayItem(it, n));
    var head := lines[0];
    if it.Under? {
      var rows := Layout(it.val, n + 2);
      LayoutShape(it.val, n + 2);
      Marked(rows[0].text);
      FirstNotInline(it.val, n + 2);
      var block := [Unmarked(head)] + lines[1..];
      assert Same(block, rows);
      RowsRead(it.val, n + 2, d + 1, block);
    } else if it.val.Inline? {
      Marked(FlowText(it.val.flow));
      ItemInline(it.val.flow);
      InlineRead(it.val.flow, d);
      assert lines[1..] == [];
    } else {
      Marked(it.val.block.indicator);
      IndicatorPlain(it.val.block);
      assert lines[1..] == [];
    }
  }

  /** The first row of a block is a key or another item, not a value of its own. */
  lemma FirstNotInline(doc: Doc, n: nat)
    requires IsDoc(doc)
    ensures Layout(doc, n) != [] && !IsInlineItem(Layout(doc, n)[0].text)
    ensures IsItem(Layout(doc, n)[0].text) || Colon(Layout(doc, n)[0].text) < |Layout(doc, n)[0].text|
  {
    hide IsItem, Colon, IsField, IsDocItem, LayField, LayItem;
    LayoutShape(doc, n);
    if doc.Fields? {
      var f := doc.fields[0];
      FieldShape(f, n);
      assert Layout(doc, n)[0] == LayField(f, n)[0];
      FieldNotInline(f, n);
    }
  }

  /** The first row of a field is its key, a colon and what may follow it. */
  lemma FieldHead(f: Field, n: nat) returns (rest: string)
    requires IsField(f)
    ensures LayField(f, n) != [] && LayField(f, n)[0].text == f.key + ":" + rest && (rest == "" || rest[0] == ' ')
  {
    hide IsKey, IsInline, IsDoc, IsBlock, FlowText, LayFields, LayItems;
    rest := match f.val
      case Inline(flow) => " " + FlowText(flow)
      case Verbatim(block) => " " + block.indicator
      case _ => "";
    KeyText(f.key, if rest == "" then "" else rest[1..]);
  }

  lemma KeyNotInline(key: string, rest: string)
    requires IsKey(key) && (rest == "" || rest[0] == ' ')
    ensures !IsInlineItem(key + ":" + rest) && Colon(key + ":" + rest) < |key + ":" + rest|
  {
    hide IsKey, Colon, IsItem, Unquoted, TrimSpace;
    KeyColon(key, rest);
    KeyFirst(key);
    assert (key + ":" + rest)[0] == key[0];
  }

  lemma FieldNotInline(f: Field, n: nat)
    requires IsField(f)
    ensures LayField(f, n) != [] && !IsInlineItem(LayField(f, n)[0].text)
    ensures Colon(LayField(f, n)[0].text) < |LayField(f, n)[0].text|
  {
    hide IsInlineItem, Colon, LayField;
    var rest := FieldHead(f, n);
    KeyNotInline(f.key, rest);
  }

  lemma KeyFirst(key: string)
    requires IsKey(key)
    ensures key != "" && key[0] != '{' && key[0] != '"' && key[0] != '\'' && key[0] != '#' && !IsSpace(key[0])
  {
  }
}
