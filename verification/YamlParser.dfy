/** `parseBlock`, `parseMapping`, `parseSequence` and `Parse` of internal/yml/parser.go. */
module YamlParser {
  import opened Wrappers
  import opened YamlText
  import opened YamlLines
  import opened YamlTree

  /** The end of the run of lines from `pos` on that are deeper than `minIndent`. */
  ghost function EndOfBlock(lines: seq<Line>, pos: nat, minIndent: int): (e: nat)
    requires pos <= |lines|
    ensures pos <= e <= |lines| && (e < |lines| ==> lines[e].indent <= minIndent)
    ensures forall i :: pos <= i < e ==> lines[i].indent > minIndent
  {
    var k := Deeper(lines[pos..], minIndent);
    assert forall i :: pos <= i < pos + k ==> lines[i] == lines[pos..][i - pos];
    assert pos + k < |lines| ==> lines[pos + k] == lines[pos..][k];
    pos + k
  }

  /**
    A parse of the block at `pos` agrees with its meaning: it gets to the end of
    the block exactly if the block has a tree, and then with that tree.
   */
  ghost predicate Agrees(lines: seq<Line>, pos: nat, e: nat, depth: nat, r: Result<Node, Fault>, next: nat)
    requires pos <= e <= |lines|
  {
    && (r.Ok? ==> pos <= next <= e)
    && Read(lines[pos..e], depth) == if r.Ok? && next == e then Some(r.value) else None
  }

  lemma {:induction false} DeeperCut(lines: seq<Line>, n: nat, base: int)
    requires n <= |lines| && (n < |lines| ==> lines[n].indent <= base)
    ensures Deeper(lines[..n], base) == Deeper(lines, base)
    decreases n
  {
    if n > 0 && lines[0].indent > base {
      assert lines[..n][1..] == lines[1..][..n - 1];
      DeeperCut(lines[1..], n - 1, base);
    }
  }

  lemma Slices(lines: seq<Line>, p: nat, k: nat, e: nat)
    requires p < k <= e <= |lines|
    ensures lines[p..e][1..k - p] == lines[p + 1..k]
    ensures lines[p..e][k - p..] == lines[k..e] && lines[p..e][0] == lines[p]
  {
    var a, b := lines[p..e][1..k - p], lines[p + 1..k];
    assert |a| == |b|;
    forall i | 0 <= i < |a| ensures a[i] == b[i] {
    }
  }

  lemma DeeperInside(lines: seq<Line>, p: nat, e: nat, base: int)
    requires p < e <= |lines| && (e < |lines| ==> lines[e].indent <= base)
    ensures Deeper(lines[p..e][1..], base) == Deeper(lines[p + 1..], base)
  {
    hide Deeper;
    var rest := lines[p + 1..];
    assert lines[p..e][1..] == rest[..e - p - 1];
    assert e < |lines| ==> rest[e - p - 1] == lines[e];
    DeeperCut(rest, e - p - 1, base);
  }

  /** Cutting off what lies behind a shallower line changes no run of deeper ones. */
  lemma BlockCut(lines: seq<Line>, p: nat, e: nat, base: int)
    requires p < e <= |lines| && (e < |lines| ==> lines[e].indent <= base)
    ensures var k := EndOfBlock(lines, p + 1, base);
      && k <= e && 1 + Deeper(lines[p..e][1..], base) == k - p
      && lines[p..e][1..k - p] == lines[p + 1..k] && lines[p..e][k - p..] == lines[k..e] && lines[p..e][0] == lines[p]
  {
    hide Deeper;
    var k := EndOfBlock(lines, p + 1, base);
    DeeperInside(lines, p, e, base);
    assert |lines[p..e][1..]| == e - p - 1;
    Slices(lines, p, k, e);
  }

  // ----------------------------------------------------------------------- entries

  lemma EntriesUnfold(lines: seq<Line>, p: nat, e: nat, b: nat, seen: set<string>, d: nat)
    requires p < e <= |lines| && (e < |lines| ==> lines[e].indent <= b) && d <= MAX_DEPTH
    ensures var k := EndOfBlock(lines, p + 1, b);
      k <= e
      && ReadEntries(lines[p..e], b, seen, d) ==
         if lines[p].indent != b || Colon(lines[p].text) == |lines[p].text| || Key(lines[p]) in seen then None
         else
           match ReadValue(lines[p], lines[p + 1..k], d)
           case None => None
           case Some(v) => ConsEntry(Entry(Key(lines[p]), v), ReadEntries(lines[k..e], b, seen + {Key(lines[p])}, d))
  {
    hide Deeper, EndOfBlock, ReadValue, Key, Colon, Rest;
    BlockCut(lines, p, e, b);
  }

  lemma EntriesStop(lines: seq<Line>, p: nat, e: nat, b: nat, seen: set<string>, d: nat)
    requires p <= e <= |lines| && d <= MAX_DEPTH
    ensures p == e ==> ReadEntries(lines[p..e], b, seen, d) == Some([])
    ensures p < e && lines[p].indent != b ==> ReadEntries(lines[p..e], b, seen, d) == None
  {
    hide Deeper, ReadValue, Key, Colon, Rest;
    if p < e {
      assert lines[p..e][0] == lines[p];
    } else {
      assert lines[p..e] == [];
    }
  }

  /** One entry more, up to line `n`: the rest of its block, if any, is then out of place. */
  lemma EntryStep(lines: seq<Line>, p: nat, e: nat, b: nat, seen: set<string>, d: nat,
                  entries: seq<Entry>, v: Node, n: nat)
    requires p < e <= |lines| && (e < |lines| ==> lines[e].indent <= b) && d <= MAX_DEPTH
    requires lines[p].indent == b && Colon(lines[p].text) < |lines[p].text| && Key(lines[p]) !in seen
    requires var k := EndOfBlock(lines, p + 1, b);
      p < n <= k && ReadValue(lines[p], lines[p + 1..k], d) == if n == k then Some(v) else None
    ensures n <= e
    ensures After(entries, ReadEntries(lines[p..e], b, seen, d))
      == After(entries + [Entry(Key(lines[p]), v)], ReadEntries(lines[n..e], b, seen + {Key(lines[p])}, d))
  {
    hide Deeper, ReadValue, Key, Colon, Rest, ReadEntries;
    EntriesUnfold(lines, p, e, b, seen, d);
    EntriesStop(lines, n, e, b, seen + {Key(lines[p])}, d);
    var rest := ReadEntries(lines[n..e], b, seen + {Key(lines[p])}, d);
    var entry := Entry(Key(lines[p]), v);
    if rest.Some? {
      assert entries + ([entry] + rest.value) == entries + [entry] + rest.value;
    }
  }

  // ------------------------------------------------------------------------- items

  lemma ItemsUnfold(lines: seq<Line>, p: nat, e: nat, b: nat, d: nat)
    requires p < e <= |lines| && (e < |lines| ==> lines[e].indent <= b) && d <= MAX_DEPTH
    ensures var k := EndOfBlock(lines, p + 1, b);
      k <= e
      && ReadItems(lines[p..e], b, d) ==
         if lines[p].indent != b || !IsItem(lines[p].text) then None
         else
           match ReadItem(lines[p], lines[p + 1..k], d)
           case None => None
           case Some(v) => ConsItem(v, ReadItems(lines[k..e], b, d))
  {
    hide Deeper, EndOfBlock, ReadItem, IsItem;
    BlockCut(lines, p, e, b);
  }

  lemma ItemsStop(lines: seq<Line>, p: nat, e: nat, b: nat, d: nat)
    requires p <= e <= |lines| && d <= MAX_DEPTH
    ensures p == e ==> ReadItems(lines[p..e], b, d) == Some([])
    ensures p < e && (lines[p].indent != b || !IsItem(lines[p].text)) ==> ReadItems(lines[p..e], b, d) == None
  {
    hide Deeper, ReadItem;
    if p < e {
      assert lines[p..e][0] == lines[p];
    } else {
      assert lines[p..e] == [];
    }
  }

  lemma ItemStep(lines: seq<Line>, p: nat, e: nat, b: nat, d: nat, items: seq<Node>, v: Node, n: nat)
    requires p < e <= |lines| && (e < |lines| ==> lines[e].indent <= b) && d <= MAX_DEPTH
    requires lines[p].indent == b && IsItem(lines[p].text)
    requires var k := EndOfBlock(lines, p + 1, b);
      p < n <= k && ReadItem(lines[p], lines[p + 1..k], d) == if n == k then Some(v) else None
    ensures n <= e
    ensures After(items, ReadItems(lines[p..e], b, d)) == After(items + [v], ReadItems(lines[n..e], b, d))
  {
    hide Deeper, ReadItem, ReadItems;
    ItemsUnfold(lines, p, e, b, d);
    ItemsStop(lines, n, e, b, d);
    var rest := ReadItems(lines[n..e], b, d);
    if rest.Some? {
      assert items + ([v] + rest.value) == items + [v] + rest.value;
    }
  }

  /** A block with a line shallower than its first has no tree. */
  lemma {:induction false} EntriesLow(lines: seq<Line>, j: nat, b: nat, seen: set<string>, d: nat)
    requires j < |lines| && lines[j].indent < b && d <= MAX_DEPTH
    ensures ReadEntries(lines, b, seen, d) == None
    decreases |lines|
  {
    hide Deeper, ReadValue, Key, Colon, Rest;
    if lines[0].indent == b && Colon(lines[0].text) != |lines[0].text| && Key(lines[0]) !in seen {
      var k := 1 + Deeper(lines[1..], b);
      assert j >= k by {
        assert forall i :: 1 <= i < k ==> lines[i] == lines[1..][i - 1];
      }
      EntriesLow(lines[k..], j - k, b, seen + {Key(lines[0])}, d);
    }
  }

  lemma {:induction false} ItemsLow(lines: seq<Line>, j: nat, b: nat, d: nat)
    requires j < |lines| && lines[j].indent < b && d <= MAX_DEPTH
    ensures ReadItems(lines, b, d) == None
    decreases |lines|
  {
    hide Deeper, ReadItem;
    if lines[0].indent == b && IsItem(lines[0].text) {
      var k := 1 + Deeper(lines[1..], b);
      assert j >= k by {
        assert forall i :: 1 <= i < k ==> lines[i] == lines[1..][i - 1];
      }
      ItemsLow(lines[k..], j - k, b, d);
    }
  }

  lemma ReadLow(lines: seq<Line>, j: nat, d: nat)
    requires j < |lines| && lines[j].indent < lines[0].indent
    ensures Read(lines, d) == None
  {
    hide ReadEntries, ReadItems;
    if d <= MAX_DEPTH {
      EntriesLow(lines, j, lines[0].indent, {}, d);
      ItemsLow(lines, j, lines[0].indent, d);
    }
  }

  // -------------------------------------------------------------------- the parser

  /** `parseBlock`. */
  method ParseBlock(lines: seq<Line>, pos: nat, minIndent: int, depth: nat) returns (r: Result<Node, Fault>, next: nat)
    requires pos <= |lines| && depth <= MAX_DEPTH + 1 && (pos < |lines| ==> lines[pos].indent > minIndent)
    ensures Agrees(lines, pos, EndOfBlock(lines, pos, minIndent), depth, r, next)
    decreases MAX_DEPTH + 2 - depth, 2
  {
    ghost var e := EndOfBlock(lines, pos, minIndent);
    hide Deeper, EndOfBlock, ReadEntries, ReadItems;
    if depth > MAX_DEPTH {
      return Err(Fault(TooDeep, if pos < |lines| then lines[pos].num else 0)), pos;
    }
    if pos >= |lines| {
      assert lines[pos..e] == [];
      return Ok(Scalar("")), pos;
    }
    assert lines[pos..e][0] == lines[pos];
    if IsItem(lines[pos].text) {
      r, next := ParseSequence(lines, pos, lines[pos].indent, minIndent, depth);
    } else {
      r, next := ParseMapping(lines, pos, minIndent, depth);
    }
  }

  /** `parseMapping`. */
  method ParseMapping(lines: seq<Line>, pos: nat, minIndent: int, depth: nat)
    returns (r: Result<Node, Fault>, next: nat)
    requires pos < |lines| && depth <= MAX_DEPTH && lines[pos].indent > minIndent && !IsItem(lines[pos].text)
    ensures Agrees(lines, pos, EndOfBlock(lines, pos, minIndent), depth, r, next)
    decreases MAX_DEPTH + 2 - depth, 1
  {
    hide *;
    ghost var e := EndOfBlock(lines, pos, minIndent);
    ghost var b := lines[pos].indent;
    var entries: seq<Entry>, seen: set<string> := [], {};
    var baseIndent: int, min := -1, minIndent;
    next := pos;
    MappingStarts(lines, pos, e, depth);
    while next < |lines|
      invariant pos <= next <= e
      invariant (baseIndent == -1 && next == pos && min == minIndent) || (baseIndent == b && min + 1 == b)
      invariant Read(lines[pos..e], depth) == MappingSoFar(lines, next, e, b, seen, depth, entries)
    {
      var line := lines[next];
      if min >= 0 && line.indent <= min {
        break;
      }
      if baseIndent < 0 {
        baseIndent := line.indent;
        min := line.indent - 1;
      } else if line.indent != baseIndent {
        break;
      }
      ghost var k := EndOfBlock(lines, next + 1, b);
      KeyIs(line);
      ValueIs(line, lines[next + 1..k], depth);
      MappingFails(lines, pos, next, e, b, seen, depth, entries);
      var colonIdx := FindColon(line.text);
      if colonIdx >= |line.text| {
        return Err(Fault(NoColon, line.num)), next;
      }
      var key := TrimSpace(line.text[..colonIdx]);
      if key in seen {
        return Err(Fault(DuplicateKey, line.num)), next;
      }
      var rest := TrimSpace(line.text[colonIdx + 1..]);
      var val, behind := ParseEntryValue(lines, next, rest, depth);
      if val.Err? {
        return Err(val.error), behind;
      }
      MappingStep(lines, next, e, b, seen, depth, entries, val.value, behind);
      seen := seen + {key};
      entries := entries + [Entry(key, val.value)];
      next := behind;
    }
    MappingDone(lines, pos, next, e, b, seen, depth, entries);
    return Ok(Mapping(entries)), next;
  }

  /** The part of the loop in `parseMapping` that reads the value of one key. */
  method ParseEntryValue(lines: seq<Line>, p: nat, rest: string, depth: nat) returns (r: Result<Node, Fault>, next: nat)
    requires p < |lines| && depth <= MAX_DEPTH && rest == Rest(lines[p])
    ensures var k := EndOfBlock(lines, p + 1, lines[p].indent);
      && (r.Ok? ==> p < next <= k)
      && ReadValue(lines[p], lines[p + 1..k], depth) == if r.Ok? && next == k then Some(r.value) else None
    decreases MAX_DEPTH + 2 - depth, 0
  {
    hide Deeper, EndOfBlock, Rest, Read, InlineValue;
    var line := lines[p];
    ghost var k := EndOfBlock(lines, p + 1, line.indent);
    if line.literal.Some? {
      return Ok(Scalar(line.literal.value)), p + 1;
    }
    if rest != "" {
      var val := ParseScalar(rest, depth);
      if val.Err? {
        return Err(Fault(val.error, line.num)), p;
      }
      return Ok(val.value), p + 1;
    }
    if p + 1 >= |lines| || lines[p + 1].indent <= line.indent {
      return Ok(Scalar("")), p + 1;
    }
    r, next := ParseBlock(lines, p + 1, line.indent, depth + 1);
  }

  lemma MappingStep(lines: seq<Line>, p: nat, e: nat, b: nat, seen: set<string>, d: nat,
                    entries: seq<Entry>, v: Node, n: nat)
    requires p < e <= |lines| && (e < |lines| ==> lines[e].indent <= b) && d <= MAX_DEPTH
    requires lines[p].indent == b && Colon(lines[p].text) < |lines[p].text| && Key(lines[p]) !in seen
    requires var k := EndOfBlock(lines, p + 1, b);
      p < n <= k && ReadValue(lines[p], lines[p + 1..k], d) == if n == k then Some(v) else None
    ensures n <= e
    ensures MappingSoFar(lines, p, e, b, seen, d, entries)
      == MappingSoFar(lines, n, e, b, seen + {Key(lines[p])}, d, entries + [Entry(Key(lines[p]), v)])
  {
    hide EndOfBlock, ReadValue, ReadEntries, Deeper, Key, Colon;
    EntryStep(lines, p, e, b, seen, d, entries, v, n);
  }

  /** An entry that cannot be read: the whole block has no tree. */
  lemma MappingFails(lines: seq<Line>, pos: nat, p: nat, e: nat, b: nat, seen: set<string>, d: nat, entries: seq<Entry>)
    requires pos <= p < e <= |lines| && (e < |lines| ==> lines[e].indent <= b) && d <= MAX_DEPTH
    requires Read(lines[pos..e], d) == MappingSoFar(lines, p, e, b, seen, d, entries)
    ensures EndOfBlock(lines, p + 1, b) <= e
    ensures (|| Colon(lines[p].text) == |lines[p].text| || Key(lines[p]) in seen
             || ReadValue(lines[p], lines[p + 1..EndOfBlock(lines, p + 1, b)], d).None?)
      ==> forall fault, next :: Agrees(lines, pos, e, d, Err(fault), next)
  {
    hide EndOfBlock, ReadValue, ReadEntries, Deeper, Read, Key, Colon;
    EntriesUnfold(lines, p, e, b, seen, d);
  }

  lemma MappingDone(lines: seq<Line>, pos: nat, p: nat, e: nat, b: nat, seen: set<string>, d: nat, entries: seq<Entry>)
    requires pos <= p <= e <= |lines| && d <= MAX_DEPTH
    requires p == e || lines[p].indent != b
    requires Read(lines[pos..e], d) == MappingSoFar(lines, p, e, b, seen, d, entries)
    ensures Agrees(lines, pos, e, d, Ok(Mapping(entries)), p)
  {
    hide ReadValue, ReadEntries, Deeper, Read, Key, Colon;
    EntriesStop(lines, p, e, b, seen, d);
    assert entries + [] == entries;
  }

  /** `parseSequence`. */
  method ParseSequence(lines: seq<Line>, pos: nat, seqIndent: nat, ghost minIndent: int, depth: nat)
    returns (r: Result<Node, Fault>, next: nat)
    requires pos < |lines| && depth <= MAX_DEPTH
    requires lines[pos].indent == seqIndent > minIndent && IsItem(lines[pos].text)
    ensures Agrees(lines, pos, EndOfBlock(lines, pos, minIndent), depth, r, next)
    decreases MAX_DEPTH + 2 - depth, 1
  {
    hide *;
    ghost var e := EndOfBlock(lines, pos, minIndent);
    var items: seq<Node> := [];
    next := pos;
    SequenceStarts(lines, pos, e, depth);
    while next < |lines|
      invariant pos <= next <= e
      invariant Read(lines[pos..e], depth) == SequenceSoFar(lines, next, e, seqIndent, depth, items)
    {
      var line := lines[next];
      if line.indent != seqIndent || !IsItem(line.text) {
        break;
      }
      ghost var k := EndOfBlock(lines, next + 1, seqIndent);
      ItemIs(line, lines[next + 1..k], depth);
      ItemStarts(line);
      SequenceFails(lines, pos, next, e, seqIndent, depth, items);
      var itemText := line.text[2..];
      var colonIdx := FindColon(itemText);
      if line.literal.Some? && !IsItem(itemText) && colonIdx >= |itemText| {
        SequenceStep(lines, next, e, seqIndent, depth, items, Scalar(line.literal.value), next + 1);
        items := items + [Scalar(line.literal.value)];
        next := next + 1;
        continue;
      }
      var itemLines, behind := ItemLines(lines, next);
      if |itemLines| == 1 && IsInlineItem(itemText) {
        var item := ParseScalar(itemText, depth);
        if item.Err? {
          return Err(Fault(item.error, line.num)), behind;
        }
        SequenceStep(lines, next, e, seqIndent, depth, items, item.value, behind);
        items := items + [item.value];
        next := behind;
        continue;
      }
      var item, used := ParseBlock(itemLines, 0, seqIndent + 1, depth + 1);
      ItemBlock(itemLines, seqIndent + 1, depth + 1, item, used);
      if item.Err? {
        return Err(item.error), behind;
      }
      if used < |itemLines| {
        return Err(Fault(BadIndent, itemLines[used].num)), behind;
      }
      SequenceStep(lines, next, e, seqIndent, depth, items, item.value, behind);
      items := items + [item.value];
      next := behind;
    }
    SequenceDone(lines, pos, next, e, seqIndent, depth, items);
    return Ok(Sequence(items)), next;
  }

  lemma ItemStarts(l: Line)
    requires IsItem(l.text)
    ensures |l.text| >= 2 && Unmarked(l).indent == l.indent + 2
  {
  }

  lemma SequenceStep(lines: seq<Line>, p: nat, e: nat, b: nat, d: nat, items: seq<Node>, v: Node, n: nat)
    requires p < e <= |lines| && (e < |lines| ==> lines[e].indent <= b) && d <= MAX_DEPTH
    requires lines[p].indent == b && IsItem(lines[p].text)
    requires var k := EndOfBlock(lines, p + 1, b);
      p < n <= k && ReadItem(lines[p], lines[p + 1..k], d) == if n == k then Some(v) else None
    ensures n <= e && SequenceSoFar(lines, p, e, b, d, items) == SequenceSoFar(lines, n, e, b, d, items + [v])
  {
    hide EndOfBlock, ReadItem, ReadItems, IsItem, Deeper;
    ItemStep(lines, p, e, b, d, items, v, n);
  }

  /** An item without a tree: the whole block has none. */
  lemma SequenceFails(lines: seq<Line>, pos: nat, p: nat, e: nat, b: nat, d: nat, items: seq<Node>)
    requires pos <= p < e <= |lines| && (e < |lines| ==> lines[e].indent <= b) && d <= MAX_DEPTH
    requires IsItem(lines[p].text)
    requires Read(lines[pos..e], d) == SequenceSoFar(lines, p, e, b, d, items)
    ensures EndOfBlock(lines, p + 1, b) <= e
    ensures ReadItem(lines[p], lines[p + 1..EndOfBlock(lines, p + 1, b)], d).None? ==>
      forall fault, next :: Agrees(lines, pos, e, d, Err(fault), next)
  {
    hide EndOfBlock, ReadItem, ReadItems, Deeper, Read;
    ItemsUnfold(lines, p, e, b, d);
  }

  lemma SequenceDone(lines: seq<Line>, pos: nat, p: nat, e: nat, b: nat, d: nat, items: seq<Node>)
    requires pos <= p <= e <= |lines| && d <= MAX_DEPTH
    requires p == e || lines[p].indent != b || !IsItem(lines[p].text)
    requires Read(lines[pos..e], d) == SequenceSoFar(lines, p, e, b, d, items)
    ensures Agrees(lines, pos, e, d, Ok(Sequence(items)), p)
  {
    hide ReadItem, ReadItems, Deeper, Read;
    ItemsStop(lines, p, e, b, d);
    assert items + [] == items;
  }

  /** The lines of one item: its own without the marker, and the deeper ones below. */
  method ItemLines(lines: seq<Line>, p: nat) returns (itemLines: seq<Line>, pos: nat)
    requires p < |lines| && IsItem(lines[p].text)
    ensures pos == EndOfBlock(lines, p + 1, lines[p].indent)
    ensures itemLines == [Unmarked(lines[p])] + lines[p + 1..pos]
  {
    hide Deeper, EndOfBlock;
    itemLines := [lines[p].(text := lines[p].text[2..], indent := lines[p].indent + 2)];
    pos := p + 1;
    while pos < |lines|
      invariant p < pos <= EndOfBlock(lines, p + 1, lines[p].indent)
      invariant itemLines == [Unmarked(lines[p])] + lines[p + 1..pos]
    {
      var next := lines[pos];
      if next.indent <= lines[p].indent {
        break;
      }
      itemLines := itemLines + [next];
      pos := pos + 1;
    }
  }

  ghost function SequenceSoFar(lines: seq<Line>, p: nat, e: nat, b: nat, d: nat, items: seq<Node>): Option<Node>
    requires p <= e <= |lines| && d <= MAX_DEPTH
  {
    match After(items, ReadItems(lines[p..e], b, d))
    case None => None
    case Some(all) => Some(Sequence(all))
  }

  lemma SequenceStarts(lines: seq<Line>, pos: nat, e: nat, d: nat)
    requires pos < e <= |lines| && d <= MAX_DEPTH && IsItem(lines[pos].text)
    ensures Read(lines[pos..e], d) == SequenceSoFar(lines, pos, e, lines[pos].indent, d, [])
  {
    hide ReadItems;
    assert lines[pos..e][0] == lines[pos];
    var all := ReadItems(lines[pos..e], lines[pos].indent, d);
    if all.Some? {
      assert [] + all.value == all.value;
    }
  }

  lemma ItemIs(head: Line, below: seq<Line>, d: nat)
    requires d <= MAX_DEPTH && IsItem(head.text)
    ensures var text := head.text[2..];
      ReadItem(head, below, d) ==
      if head.literal.Some? && !IsItem(text) && Colon(text) == |text| then
        if below == [] then Some(Scalar(head.literal.value)) else None
      else if below == [] && IsInlineItem(text) then
        if InlineValue(text, d).Ok? then Some(InlineValue(text, d).value) else None
      else Read([Unmarked(head)] + below, d + 1)
  {
    hide InlineValue, Read, IsInlineItem;
  }

  /** The block of an item is read as a whole or not at all. */
  lemma ItemBlock(lines: seq<Line>, minIndent: nat, d: nat, r: Result<Node, Fault>, used: nat)
    requires lines != [] && lines[0].indent == minIndent + 1
    requires Agrees(lines, 0, EndOfBlock(lines, 0, minIndent), d, r, used)
    ensures Read(lines, d) == if r.Ok? && used == |lines| then Some(r.value) else None
    ensures r.Ok? ==> used <= |lines|
  {
    hide Deeper, EndOfBlock, Read;
    var e := EndOfBlock(lines, 0, minIndent);
    if e < |lines| {
      ReadLow(lines, e, d);
    } else {
      assert lines[0..e] == lines;
    }
  }

  /** What the block means, given the entries read so far. */
  ghost function MappingSoFar(lines: seq<Line>, p: nat, e: nat, b: nat, seen: set<string>, d: nat,
                              entries: seq<Entry>): Option<Node>
    requires p <= e <= |lines| && d <= MAX_DEPTH
  {
    match After(entries, ReadEntries(lines[p..e], b, seen, d))
    case None => None
    case Some(all) => Some(Mapping(all))
  }

  lemma MappingStarts(lines: seq<Line>, pos: nat, e: nat, d: nat)
    requires pos < e <= |lines| && d <= MAX_DEPTH && !IsItem(lines[pos].text)
    ensures Read(lines[pos..e], d) == MappingSoFar(lines, pos, e, lines[pos].indent, {}, d, [])
  {
    hide ReadEntries;
    assert lines[pos..e][0] == lines[pos];
    var all := ReadEntries(lines[pos..e], lines[pos].indent, {}, d);
    if all.Some? {
      assert [] + all.value == all.value;
    }
  }

  lemma KeyIs(l: Line)
    ensures Key(l) == TrimSpace(l.text[..Colon(l.text)])
    ensures Colon(l.text) < |l.text| ==> Rest(l) == TrimSpace(l.text[Colon(l.text) + 1..])
  {
  }

  lemma ValueIs(head: Line, below: seq<Line>, d: nat)
    requires d <= MAX_DEPTH
    ensures ReadValue(head, below, d) ==
      if head.literal.Some? then (if below == [] then Some(Scalar(head.literal.value)) else None)
      else if Rest(head) != "" then
        if below == [] && InlineValue(Rest(head), d).Ok? then Some(InlineValue(Rest(head), d).value) else None
      else if below == [] then Some(Scalar(""))
      else Read(below, d + 1)
  {
    hide Rest, InlineValue, Read;
  }

  // ---------------------------------------------------------------------- whole files

  function SignificantLines(data: string): Result<seq<Line>, Fault> {
    LinesFrom(RawLines(Normalised(WithoutBom(data))), 0)
  }

  /** The tree that a file stands for. */
  ghost predicate Means(data: string, t: Node) {
    SignificantLines(data).Ok? && Read(SignificantLines(data).value, 0) == Some(t)
  }

  /** `Parse`: exactly the files that stand for a tree are accepted. */
  method Parse(data: string) returns (r: Result<Node, Fault>)
    ensures r.Ok? ==> Means(data, r.value)
    ensures forall t :: Means(data, t) ==> r == Ok(t)
  {
    hide Read, LinesFrom, RawLines, Normalised, Deeper, EndOfBlock;
    var text := NormaliseLineEndings(WithoutBom(data));
    var lines := SplitLines(text);
    if lines.Err? {
      return Err(lines.error);
    }
    var n, pos := ParseBlock(lines.value, 0, -1, 0);
    assert lines.value[0..|lines.value|] == lines.value;
    if n.Err? {
      return n;
    }
    if pos < |lines.value| {
      return Err(Fault(BadIndent, lines.value[pos].num));
    }
    return n;
  }
}
