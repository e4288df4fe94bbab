/**
  Where each line of a file goes in its tree. A block is a tree that remembers
  its lines: reading it in order gives them back, and leaving them out gives the
  parsed tree.
 */
module YamlPlaces {
  import opened Wrappers
  import opened YamlText
  import opened YamlLines
  import opened YamlTree
  import opened YamlParser

  datatype Block = Keys(keys: Places) | Items(items: Places)

  /** The places of a block in order: a line, and what it stands for. */
  datatype Places = End | More(line: Line, value: Value, rest: Places)

  /** A value given on the line itself, or a block of its own. The block of an item begins on the item's line. */
  datatype Value = Here(node: Node) | Below(block: Block)

  /** The lines of a block, read off in order. */
  function Lines(b: Block): seq<Line> {
    match b
    case Keys(ps) => KeyLines(ps)
    case Items(ps) => ItemLines(ps)
  }

  function KeyLines(ps: Places): seq<Line> {
    match ps
    case End => []
    case More(line, Here(_), rest) => [line] + KeyLines(rest)
    case More(line, Below(b), rest) => [line] + Lines(b) + KeyLines(rest)
  }

  function ItemLines(ps: Places): seq<Line> {
    match ps
    case End => []
    case More(line, Here(_), rest) => [line] + ItemLines(rest)
    case More(line, Below(b), rest) => [line] + (if Lines(b) == [] then [] else Lines(b)[1..]) + ItemLines(rest)
  }

  /** The tree without its lines. */
  function Tree(b: Block): Node {
    match b
    case Keys(ps) => Mapping(KeyEntries(ps))
    case Items(ps) => Sequence(ItemNodes(ps))
  }

  function TreeOf(v: Value): Node {
    match v
    case Here(node) => node
    case Below(b) => Tree(b)
  }

  function KeyEntries(ps: Places): seq<Entry> {
    match ps
    case End => []
    case More(line, v, rest) => [Entry(Key(line), TreeOf(v))] + KeyEntries(rest)
  }

  function ItemNodes(ps: Places): seq<Node> {
    match ps
    case End => []
    case More(_, v, rest) => [TreeOf(v)] + ItemNodes(rest)
  }

  // ----------------------------------------------------------- lines in their places

  /** What a line says about its own value. */
  ghost predicate SaysKey(l: Line, node: Node) {
    if l.literal.Some? then node == Scalar(l.literal.value)
    else if Rest(l) == "" then node == Scalar("")
    else exists d :: InlineValue(Rest(l), d) == Ok(node)
  }

  ghost predicate SaysItem(l: Line, node: Node) {
    && IsItem(l.text)
    && ((node.Scalar? && l.literal == Some(node.text)) || exists d :: InlineValue(l.text[2..], d) == Ok(node))
  }

  /** The lines of the places stand at one indentation, those of the blocks deeper. */
  ghost predicate KeysInPlace(ps: Places, indent: nat) {
    match ps
    case End => true
    case More(l, Here(node), rest) =>
      l.indent == indent && Colon(l.text) < |l.text| && SaysKey(l, node) && KeysInPlace(rest, indent)
    case More(l, Below(b), rest) =>
      && l.indent == indent && Colon(l.text) < |l.text| && Rest(l) == "" && l.literal == None
      && BlockInPlace(b, indent) && KeysInPlace(rest, indent)
  }

  ghost predicate ItemsInPlace(ps: Places, indent: nat) {
    match ps
    case End => true
    case More(l, Here(node), rest) => l.indent == indent && SaysItem(l, node) && ItemsInPlace(rest, indent)
    case More(l, Below(b), rest) =>
      && l.indent == indent && IsItem(l.text) && BlockInPlace(b, indent)
      && Lines(b) != [] && Lines(b)[0] == Unmarked(l) && ItemsInPlace(rest, indent)
  }

  /** A block whose lines are all deeper than `outer`. */
  ghost predicate BlockInPlace(b: Block, outer: int)
    decreases b, 0
  {
    && (forall i :: 0 <= i < |Lines(b)| ==> Lines(b)[i].indent > outer)
    && match b
       case Keys(ps) => ps.More? && KeysInPlace(ps, ps.line.indent)
       case Items(ps) => ps.More? && ItemsInPlace(ps, ps.line.indent)
  }

  // --------------------------------------------------------------------- attribution

  /** Lines that stand for a tree can be put in their places in it. */
  lemma Attribute(lines: seq<Line>, depth: nat, outer: int) returns (b: Block)
    requires lines != [] && Read(lines, depth).Some? && forall i :: 0 <= i < |lines| ==> lines[i].indent > outer
    ensures Lines(b) == lines && Tree(b) == Read(lines, depth).value && BlockInPlace(b, outer)
    decreases MAX_DEPTH + 2 - depth, |lines|, 2
  {
    hide ReadEntries, ReadItems, IsItem;
    if IsItem(lines[0].text) {
      var ps := AttributeItems(lines, lines[0].indent, depth);
      b := Items(ps);
    } else {
      var ps := AttributeKeys(lines, lines[0].indent, {}, depth);
      b := Keys(ps);
    }
  }

  lemma AttributeKeys(lines: seq<Line>, base: nat, seen: set<string>, depth: nat) returns (ps: Places)
    requires depth <= MAX_DEPTH && ReadEntries(lines, base, seen, depth).Some?
    ensures KeyLines(ps) == lines && KeyEntries(ps) == ReadEntries(lines, base, seen, depth).value
    ensures KeysInPlace(ps, base)
    ensures lines != [] ==> ps.More? && ps.line == lines[0]
    decreases MAX_DEPTH + 2 - depth, |lines|, 1
  {
    hide Key, Colon, Rest, ReadValue, SaysKey, BlockInPlace, Lines, Tree, Deeper;
    if lines == [] {
      ps := End;
    } else {
      var k := 1 + Deeper(lines[1..], base);
      var rest := AttributeKeys(lines[k..], base, seen + {Key(lines[0])}, depth);
      var v := AttributeValue(lines[0], lines[1..k], depth);
      ps := More(lines[0], v, rest);
      assert lines == [lines[0]] + lines[1..k] + lines[k..];
    }
  }

  lemma AttributeValue(head: Line, below: seq<Line>, depth: nat) returns (v: Value)
    requires depth <= MAX_DEPTH && ReadValue(head, below, depth).Some?
    requires forall i :: 0 <= i < |below| ==> below[i].indent > head.indent
    ensures TreeOf(v) == ReadValue(head, below, depth).value
    ensures v.Here? ==> below == [] && SaysKey(head, v.node)
    ensures v.Below? ==> Lines(v.block) == below && BlockInPlace(v.block, head.indent)
    ensures v.Below? ==> Rest(head) == "" && head.literal == None
    decreases MAX_DEPTH + 2 - depth, |below|, 0
  {
    hide Rest, BlockInPlace, Lines, Tree, Read, InlineValue;
    if below == [] {
      v := Here(ReadValue(head, below, depth).value);
    } else {
      var b := Attribute(below, depth + 1, head.indent);
      v := Below(b);
    }
  }

  lemma AttributeItems(lines: seq<Line>, base: nat, depth: nat) returns (ps: Places)
    requires depth <= MAX_DEPTH && ReadItems(lines, base, depth).Some?
    ensures ItemLines(ps) == lines && ItemNodes(ps) == ReadItems(lines, base, depth).value && ItemsInPlace(ps, base)
    ensures lines != [] ==> ps.More? && ps.line == lines[0]
    decreases MAX_DEPTH + 2 - depth, |lines|, 1
  {
    hide ReadItem, SaysItem, BlockInPlace, Lines, Tree, TreeOf, Deeper, IsItem, Unmarked;
    if lines == [] {
      ps := End;
    } else {
      var k := 1 + Deeper(lines[1..], base);
      var rest := AttributeItems(lines[k..], base, depth);
      var v := AttributeItem(lines[0], lines[1..k], depth);
      ps := More(lines[0], v, rest);
      assert lines == [lines[0]] + lines[1..k] + lines[k..];
      ItemPlace(lines[0], lines[1..k], v, rest, base);
    }
  }

  /** One item more. */
  lemma ItemPlace(head: Line, below: seq<Line>, v: Value, rest: Places, base: nat)
    requires IsItem(head.text) && head.indent == base && ItemsInPlace(rest, base)
    requires v.Here? ==> below == [] && SaysItem(head, v.node)
    requires v.Below? ==> Lines(v.block) == [Unmarked(head)] + below && BlockInPlace(v.block, base)
    ensures var ps := More(head, v, rest);
      && ItemLines(ps) == [head] + below + ItemLines(rest) && ItemNodes(ps) == [TreeOf(v)] + ItemNodes(rest)
      && ItemsInPlace(ps, base)
  {
    hide SaysItem, BlockInPlace, Lines, Tree, IsItem;
    if v.Below? {
      assert Lines(v.block)[1..] == below;
    } else {
      assert [head] + below == [head];
    }
  }

  lemma AttributeItem(head: Line, below: seq<Line>, depth: nat) returns (v: Value)
    requires depth <= MAX_DEPTH && IsItem(head.text) && ReadItem(head, below, depth).Some?
    requires forall i :: 0 <= i < |below| ==> below[i].indent > head.indent
    ensures TreeOf(v) == ReadItem(head, below, depth).value
    ensures v.Here? ==> below == [] && SaysItem(head, v.node)
    ensures v.Below? ==> Lines(v.block) == [Unmarked(head)] + below && BlockInPlace(v.block, head.indent)
    decreases MAX_DEPTH + 2 - depth, |below|, 0
  {
    hide BlockInPlace, Lines, Tree, Read, InlineValue, IsInlineItem;
    var text := head.text[2..];
    if head.literal.Some? && !IsItem(text) && Colon(text) == |text| {
      v := Here(ReadItem(head, below, depth).value);
    } else if below == [] && IsInlineItem(text) {
      v := Here(ReadItem(head, below, depth).value);
    } else {
      var lines := [Unmarked(head)] + below;
      var b := Attribute(lines, depth + 1, head.indent);
      v := Below(b);
    }
  }

  /**
    A file that parses loses nothing: its significant lines are kept in order,
    and each has its place in the tree.
   */
  lemma NoLineDropped(data: string, t: Node) returns (b: Block)
    requires Means(data, t) && SignificantLines(data).value != []
    ensures Lines(b) == SignificantLines(data).value && Tree(b) == t && BlockInPlace(b, -1)
    ensures Accounted(RawLines(Normalised(WithoutBom(data))), 0, Lines(b))
  {
    hide Read, LinesFrom, RawLines, Normalised, WithoutBom, Accounted, BlockInPlace, Lines, Tree;
    b := Attribute(SignificantLines(data).value, 0, -1);
    LinesAccounted(RawLines(Normalised(WithoutBom(data))), 0);
  }

  /** Only a file without significant lines is an empty value. */
  lemma EmptyFile(data: string, t: Node)
    requires SignificantLines(data).Ok? && SignificantLines(data).value == []
    ensures Means(data, t) <==> t == Scalar("")
  {
    hide LinesFrom, RawLines, Normalised;
  }
}
