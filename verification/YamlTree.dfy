/**
  The block parser of internal/yml/parser.go. `Read` says which tree a list of
  lines stands for, by cutting it into entries and items at their indentation;
  every line belongs to the piece it is in. The parser threads a position
  through one array instead and stops where it cannot go on; it is proved to
  accept exactly the lists that `Read` gives a tree, with that tree.
 */
module YamlTree {
  import opened Wrappers
  import opened YamlText
  import opened YamlLines

  const MAX_DEPTH: nat := 64

  datatype Node = Scalar(text: string) | Mapping(entries: seq<Entry>) | Sequence(items: seq<Node>)

  datatype Entry = Entry(key: string, val: Node)

  // ------------------------------------------------------------------ inline values

  predicate IsList(s: string) {
    |s| >= 2 && s[0] == '[' && s[|s| - 1] == ']'
  }

  predicate IsInlineMap(s: string) {
    |s| >= 2 && s[0] == '{' && s[|s| - 1] == '}'
  }

  function Scalars(parts: seq<string>): seq<Node> {
    seq(|parts|, k requires 0 <= k < |parts| => Scalar(Unquoted(TrimSpace(parts[k]))))
  }

  /** What an inline value stands for. */
  function InlineValue(s: string, depth: nat): Result<Node, Kind>
    decreases |s|, 0
  {
    if depth > MAX_DEPTH then Err(TooDeep)
    else if IsList(s) then Ok(Sequence(Scalars(Csv(s[1..|s| - 1], Out, 0, ""))))
    else if IsInlineMap(s) then
      match InlineEntries(Csv(s[1..|s| - 1], Out, 0, ""), {}, depth, |s| - 2)
      case Ok(entries) => Ok(Mapping(entries))
      case Err(kind) => Err(kind)
    else Ok(Scalar(Unquoted(TrimSpace(s))))
  }

  /** The entries of an inline map; empty items are skipped. */
  function InlineEntries(parts: seq<string>, seen: set<string>, depth: nat, ghost size: nat): Result<seq<Entry>, Kind>
    requires forall k :: 0 <= k < |parts| ==> |parts[k]| <= size
    decreases size, 1 + |parts|
  {
    if parts == [] then Ok([])
    else
      var entry := TrimSpace(parts[0]);
      if entry == "" then InlineEntries(parts[1..], seen, depth, size)
      else
        var k := Colon(entry);
        if k == |entry| then Err(BadInlineEntry)
        else
          var key := Unquoted(TrimSpace(entry[..k]));
          if key in seen then Err(DuplicateKey)
          else
            match InlineValue(TrimSpace(entry[k + 1..]), depth + 1)
            case Err(kind) => Err(kind)
            case Ok(val) =>
              match InlineEntries(parts[1..], seen + {key}, depth, size)
              case Err(kind) => Err(kind)
              case Ok(rest) => Ok([Entry(key, val)] + rest)
  }

  /** `parseScalar`. */
  method ParseScalar(s: string, depth: nat) returns (r: Result<Node, Kind>)
    ensures r == InlineValue(s, depth)
    decreases |s|, 0
  {
    hide Csv, InlineEntries, Scalars, Unquoted, TrimSpace;
    if depth > MAX_DEPTH {
      return Err(TooDeep);
    }
    if IsList(s) {
      var items := SplitCsv(s[1..|s| - 1]);
      var sequence := ListItems(items);
      return Ok(Sequence(sequence));
    }
    if IsInlineMap(s) {
      r := ParseInlineMap(s[1..|s| - 1], depth);
      return;
    }
    var text := Unquote(TrimSpace(s));
    return Ok(Scalar(text));
  }

  method ListItems(items: seq<string>) returns (sequence: seq<Node>)
    ensures sequence == Scalars(items)
  {
    hide TrimSpace, Unquoted;
    sequence := [];
    for i := 0 to |items|
      invariant |sequence| == i && forall k :: 0 <= k < i ==> sequence[k] == Scalar(Unquoted(TrimSpace(items[k])))
    {
      var item := Unquote(TrimSpace(items[i]));
      sequence := sequence + [Scalar(item)];
    }
  }

  function AddEntries(entries: seq<Entry>, rest: Result<seq<Entry>, Kind>): Result<seq<Entry>, Kind> {
    if rest.Ok? then Ok(entries + rest.value) else rest
  }

  /** `parseInlineMap`. */
  method ParseInlineMap(inner: string, depth: nat) returns (r: Result<Node, Kind>)
    ensures var entries := InlineEntries(Csv(inner, Out, 0, ""), {}, depth, |inner|);
      r == if entries.Ok? then Ok(Mapping(entries.value)) else Err(entries.error)
    decreases |inner|, 1
  {
    hide *;
    var entries: seq<Entry>, seen: set<string> := [], {};
    var parts := SplitCsv(inner);
    CsvSizes(inner);
    InlineStarts(parts, depth, |inner|);
    for i := 0 to |parts|
      invariant InlineAll(parts, 0, [], {}, depth, |inner|) == InlineAll(parts, i, entries, seen, depth, |inner|)
    {
      InlineStep(parts, i, entries, seen, depth, |inner|);
      var entry := TrimSpace(parts[i]);
      if entry == "" {
        continue;
      }
      var colonIdx := FindColon(entry);
      if colonIdx >= |entry| {
        return Err(BadInlineEntry);
      }
      var key := Unquote(TrimSpace(entry[..colonIdx]));
      if key in seen {
        return Err(DuplicateKey);
      }
      var val := ParseScalar(TrimSpace(entry[colonIdx + 1..]), depth + 1);
      if val.Err? {
        return Err(val.error);
      }
      seen := seen + {key};
      entries := entries + [Entry(key, val.value)];
    }
    InlineEnds(parts, entries, seen, depth, |inner|);
    return Ok(Mapping(entries));
  }

  lemma CsvSizes(inner: string)
    ensures forall k :: 0 <= k < |Csv(inner, Out, 0, "")| ==> |Csv(inner, Out, 0, "")[k]| <= |inner|
  {
  }

  /** Where the loop of `parseInlineMap` stands after `i` parts. */
  ghost function InlineAll(parts: seq<string>, i: nat, entries: seq<Entry>, seen: set<string>, depth: nat, size: nat)
    : Result<seq<Entry>, Kind>
    requires i <= |parts| && forall k :: 0 <= k < |parts| ==> |parts[k]| <= size
  {
    AddEntries(entries, InlineEntries(parts[i..], seen, depth, size))
  }

  lemma InlineStarts(parts: seq<string>, depth: nat, size: nat)
    requires forall k :: 0 <= k < |parts| ==> |parts[k]| <= size
    ensures InlineAll(parts, 0, [], {}, depth, size) == InlineEntries(parts, {}, depth, size)
  {
    assert parts[0..] == parts;
    var r := InlineEntries(parts, {}, depth, size);
    if r.Ok? {
      assert [] + r.value == r.value;
    }
  }

  lemma InlineEnds(parts: seq<string>, entries: seq<Entry>, seen: set<string>, depth: nat, size: nat)
    requires forall k :: 0 <= k < |parts| ==> |parts[k]| <= size
    ensures InlineAll(parts, |parts|, entries, seen, depth, size) == Ok(entries)
  {
    assert parts[|parts|..] == [];
    assert entries + [] == entries;
  }

  lemma InlineStep(parts: seq<string>, i: nat, entries: seq<Entry>, seen: set<string>, depth: nat, size: nat)
    requires i < |parts| && forall k :: 0 <= k < |parts| ==> |parts[k]| <= size
    ensures var entry := TrimSpace(parts[i]);
      var k := Colon(entry);
      && |entry| <= size && k <= |entry| && (k < |entry| ==> |TrimSpace(entry[k + 1..])| < size)
      && InlineAll(parts, i, entries, seen, depth, size) ==
        if entry == "" then InlineAll(parts, i + 1, entries, seen, depth, size)
        else if k == |entry| then Err(BadInlineEntry)
        else
          var key := Unquoted(TrimSpace(entry[..k]));
          var val := InlineValue(TrimSpace(entry[k + 1..]), depth + 1);
          if key in seen then Err(DuplicateKey)
          else if val.Err? then Err(val.error)
          else InlineAll(parts, i + 1, entries + [Entry(key, val.value)], seen + {key}, depth, size)
  {
    hide TrimSpace, Unquoted, InlineValue;
    assert parts[i..][0] == parts[i] && parts[i..][1..] == parts[i + 1..];
    var entry := TrimSpace(parts[i]);
    var k := Colon(entry);
    if k < |entry| {
      var key := Unquoted(TrimSpace(entry[..k]));
      var val := InlineValue(TrimSpace(entry[k + 1..]), depth + 1);
      var rest := InlineEntries(parts[i + 1..], seen + {key}, depth, size);
      if val.Ok? && rest.Ok? {
        assert entries + ([Entry(key, val.value)] + rest.value) == entries + [Entry(key, val.value)] + rest.value;
      }
    }
  }

  /** `isInlineSeqItem`: an item that is a value of its own, without keys. */
  predicate IsInlineItem(s: string) {
    && !IsItem(s)
    && (IsInlineMap(s) || Colon(s) == |s| || (|s| >= 2 && (s[0] == '\'' || s[0] == '"') && s[|s| - 1] == s[0]))
  }

  // --------------------------------------------------------- which tree lines mean

  /** The number of lines up front that are indented deeper than `base`. */
  function Deeper(lines: seq<Line>, base: int): (k: nat)
    ensures k <= |lines| && forall i :: 0 <= i < k ==> lines[i].indent > base
    ensures k < |lines| ==> lines[k].indent <= base
  {
    if lines == [] || lines[0].indent <= base then 0 else 1 + Deeper(lines[1..], base)
  }

  function Key(l: Line): string {
    TrimSpace(l.text[..Colon(l.text)])
  }

  /** What follows the colon on the line. */
  function Rest(l: Line): string {
    if Colon(l.text) < |l.text| then TrimSpace(l.text[Colon(l.text) + 1..]) else ""
  }

  /** The line of an item without its marker, as the first line of a block of its own. */
  function Unmarked(l: Line): Line
    requires IsItem(l.text)
  {
    l.(text := l.text[2..], indent := l.indent + 2)
  }

  /** The tree that these lines, all of them, stand for. */
  function Read(lines: seq<Line>, depth: nat): Option<Node>
    decreases MAX_DEPTH + 2 - depth, |lines|, 2
  {
    if depth > MAX_DEPTH then None
    else if lines == [] then Some(Scalar(""))
    else if IsItem(lines[0].text) then
      match ReadItems(lines, lines[0].indent, depth)
      case None => None
      case Some(items) => Some(Sequence(items))
    else
      match ReadEntries(lines, lines[0].indent, {}, depth)
      case None => None
      case Some(entries) => Some(Mapping(entries))
  }

  /** Entries at one indentation, each with the deeper lines below it. */
  function ReadEntries(lines: seq<Line>, base: nat, seen: set<string>, depth: nat): Option<seq<Entry>>
    requires depth <= MAX_DEPTH
    decreases MAX_DEPTH + 2 - depth, |lines|, 1
  {
    if lines == [] then Some([])
    else if lines[0].indent != base || Colon(lines[0].text) == |lines[0].text| || Key(lines[0]) in seen then None
    else
      var k := 1 + Deeper(lines[1..], base);
      match ReadValue(lines[0], lines[1..k], depth)
      case None => None
      case Some(val) =>
        ConsEntry(Entry(Key(lines[0]), val), ReadEntries(lines[k..], base, seen + {Key(lines[0])}, depth))
  }

  /** A literal block, a value on the line, a block below, or nothing. */
  function ReadValue(head: Line, below: seq<Line>, depth: nat): Option<Node>
    requires depth <= MAX_DEPTH
    decreases MAX_DEPTH + 2 - depth, |below|, 0
  {
    if head.literal.Some? then (if below == [] then Some(Scalar(head.literal.value)) else None)
    else if Rest(head) != "" then
      if below == [] && InlineValue(Rest(head), depth).Ok? then Some(InlineValue(Rest(head), depth).value) else None
    else if below == [] then Some(Scalar(""))
    else Read(below, depth + 1)
  }

  function ReadItems(lines: seq<Line>, base: nat, depth: nat): Option<seq<Node>>
    requires depth <= MAX_DEPTH
    decreases MAX_DEPTH + 2 - depth, |lines|, 1
  {
    if lines == [] then Some([])
    else if lines[0].indent != base || !IsItem(lines[0].text) then None
    else
      var k := 1 + Deeper(lines[1..], base);
      match ReadItem(lines[0], lines[1..k], depth)
      case None => None
      case Some(item) => ConsItem(item, ReadItems(lines[k..], base, depth))
  }

  function ReadItem(head: Line, below: seq<Line>, depth: nat): Option<Node>
    requires depth <= MAX_DEPTH && IsItem(head.text)
    decreases MAX_DEPTH + 2 - depth, |below|, 0
  {
    var text := head.text[2..];
    if head.literal.Some? && !IsItem(text) && Colon(text) == |text| then
      if below == [] then Some(Scalar(head.literal.value)) else None
    else if below == [] && IsInlineItem(text) then
      if InlineValue(text, depth).Ok? then Some(InlineValue(text, depth).value) else None
    else Read([Unmarked(head)] + below, depth + 1)
  }

  function ConsEntry(e: Entry, rest: Option<seq<Entry>>): Option<seq<Entry>> {
    if rest.Some? then Some([e] + rest.value) else None
  }

  function ConsItem(n: Node, rest: Option<seq<Node>>): Option<seq<Node>> {
    if rest.Some? then Some([n] + rest.value) else None
  }

  function After<T>(done: seq<T>, rest: Option<seq<T>>): Option<seq<T>> {
    if rest.Some? then Some(done + rest.value) else None
  }
}
