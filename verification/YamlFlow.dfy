/**
  Inline values and how they are written: plain, single-quoted and double-quoted
  strings, lists of them, and maps. Each is read back as what it was written for.
  Plain and quoted styles are those of section 7.3 of YAML 1.2.2, flow collections
  of section 7.4, as far as the parser supports them.
 */
module YamlFlow {
  import opened Wrappers
  import opened Text
  import opened YamlText
  import opened YamlLines
  import opened YamlTree

  datatype Quotes = Bare | SingleQuoted | DoubleQuoted

  datatype Flow = Str(text: string, quotes: Quotes) | List(items: seq<Flow>) | Map(pairs: seq<Pair>)

  datatype Pair = Pair(key: string, val: Flow)

  // -------------------------------------------------------------------------- texts

  function StrText(text: string, quotes: Quotes): string {
    match quotes
    case Bare => text
    case SingleQuoted => "'" + text + "'"
    case DoubleQuoted => Quoted(text)
  }

  function FlowText(f: Flow): string {
    match f
    case Str(text, quotes) => StrText(text, quotes)
    case List(items) => "[" + Commas(ItemTexts(items)) + "]"
    case Map(pairs) => "{" + Commas(PairTexts(pairs)) + "}"
  }

  function ItemTexts(items: seq<Flow>): seq<string> {
    if items == [] then [] else [FlowText(items[0])] + ItemTexts(items[1..])
  }

  function PairTexts(pairs: seq<Pair>): seq<string> {
    if pairs == [] then [] else [pairs[0].key + ": " + FlowText(pairs[0].val)] + PairTexts(pairs[1..])
  }

  function Commas(texts: seq<string>): string {
    if texts == [] then "" else if |texts| == 1 then texts[0] else texts[0] + ", " + Commas(texts[1..])
  }

  // ------------------------------------------------------------------------- values

  function FlowNode(f: Flow): Node {
    match f
    case Str(text, _) => Scalar(text)
    case List(items) => Sequence(FlowNodes(items))
    case Map(pairs) => Mapping(PairNodes(pairs))
  }

  function FlowNodes(items: seq<Flow>): seq<Node> {
    if items == [] then [] else [FlowNode(items[0])] + FlowNodes(items[1..])
  }

  function PairNodes(pairs: seq<Pair>): seq<Entry> {
    if pairs == [] then [] else [Entry(pairs[0].key, FlowNode(pairs[0].val))] + PairNodes(pairs[1..])
  }

  /** How many maps are nested in one another. */
  function FlowHeight(f: Flow): nat {
    if f.Map? && f.pairs != [] then 1 + PairsHeight(f.pairs) else 0
  }

  function PairsHeight(pairs: seq<Pair>): nat {
    if pairs == [] then 0 else Max(FlowHeight(pairs[0].val), PairsHeight(pairs[1..]))
  }

  function Max(a: nat, b: nat): nat {
    if a < b then b else a
  }

  // ----------------------------------------------------------------- what can be written

  predicate NoBreaks(s: string) {
    '\n' !in s && '\r' !in s
  }

  /** No white space at the ends. */
  predicate Trim(s: string) {
    s != "" && !IsSpace(s[0]) && !IsSpace(s[|s| - 1])
  }

  /** No '#' that would start a comment: none at the front, and none behind a space. */
  predicate NoHash(s: string) {
    forall k :: 0 <= k < |s| && s[k] == '#' ==> k > 0 && s[k - 1] != ' '
  }

  predicate NoQuotes(s: string) {
    '"' !in s && '\'' !in s
  }

  /** A plain string inside a list or a map. */
  predicate IsBare(s: string) {
    && Trim(s) && NoBreaks(s) && NoHash(s) && NoQuotes(s)
    && ',' !in s && '[' !in s && ']' !in s && '{' !in s && '}' !in s
  }

  predicate IsKey(k: string) {
    && Trim(k) && NoBreaks(k) && NoQuotes(k) && '#' !in k && ':' !in k && ',' !in k
    && '[' !in k && ']' !in k && '{' !in k && '}' !in k && !IsItem(k) && k[0] != 0xFEFF as char
  }

  predicate IsNested(f: Flow) {
    match f
    case Str(text, quotes) =>
      (match quotes
       case Bare => IsBare(text)
       case SingleQuoted => NoBreaks(text) && '\'' !in text
       case DoubleQuoted => true)
    case List(items) => AreItems(items)
    case Map(pairs) => ArePairs(pairs)
  }

  predicate AreItems(items: seq<Flow>) {
    items == [] || (items[0].Str? && IsNested(items[0]) && AreItems(items[1..]))
  }

  predicate ArePairs(pairs: seq<Pair>) {
    pairs == [] || (IsKey(pairs[0].key) && IsNested(pairs[0].val) && ArePairs(pairs[1..]))
  }

  /** No map has a key twice. */
  predicate FlowUnique(f: Flow) {
    f.Map? ==> PairsUnique(f.pairs, {})
  }

  predicate PairsUnique(pairs: seq<Pair>, seen: set<string>) {
    pairs == [] || (pairs[0].key !in seen && FlowUnique(pairs[0].val)
                    && PairsUnique(pairs[1..], seen + {pairs[0].key}))
  }

  // ------------------------------------------------------------------- plain scalars

  /** Bracketed, braced or quoted: the forms that are not taken for themselves. */
  predicate IsMarkedUp(s: string) {
    || IsList(s) || IsInlineMap(s)
    || (|s| >= 2 && s[0] == s[|s| - 1] && (s[0] == '\'' || s[0] == '"'))
  }

  /** Any other text, of any length, is the scalar of itself. */
  lemma PlainRead(s: string, d: nat)
    requires Trim(s) && !IsMarkedUp(s) && d <= MAX_DEPTH
    ensures InlineValue(s, d) == Ok(Scalar(s))
  {
    hide InlineEntries, Csv;
    TrimSpaceNone(s);
  }

  /** Single quotes stand for what is between them, without escapes. */
  lemma SingleRead(v: string, d: nat)
    requires d <= MAX_DEPTH
    ensures InlineValue("'" + v + "'", d) == Ok(Scalar(v))
  {
    hide Unquoted, TrimSpace, InlineEntries, Csv;
    UnquoteSingle(v);
    assert ("'" + v + "'")[0] == '\'';
  }

  lemma UnquoteSingle(v: string)
    ensures Unquoted("'" + v + "'") == v && TrimSpace("'" + v + "'") == "'" + v + "'"
  {
    hide TrimSpace, Unescaped;
    var s := "'" + v + "'";
    TrimSpaceNone(s);
    assert s[1..|s| - 1] == v;
  }

  /** Double quotes stand for what the text between them means. */
  lemma EscapedRead(s: string, d: nat) returns (glyphs: seq<Glyph>)
    requires d <= MAX_DEPTH
    ensures Spelled(glyphs) && GlyphText(glyphs) == s
    ensures InlineValue("\"" + s + "\"", d) == Ok(Scalar(GlyphMeaning(glyphs)))
  {
    hide Unescaped, TrimSpace, InlineEntries, Csv, GlyphText, GlyphMeaning, Spelled;
    glyphs := UnescapeExact(s);
    var q := "\"" + s + "\"";
    assert q[0] == '"' && q[|q| - 1] == '"' && q[1..|q| - 1] == s;
    QuotesTrim(q);
  }

  lemma QuotesTrim(q: string)
    requires |q| >= 2 && q[0] == '"' && q[|q| - 1] == '"'
    ensures TrimSpace(q) == q
  {
    hide TrimSpace;
    TrimSpaceNone(q);
  }

  lemma DoubleRead(v: string, d: nat)
    requires d <= MAX_DEPTH
    ensures InlineValue(Quoted(v), d) == Ok(Scalar(v))
  {
    hide Unquoted, TrimSpace, Escape, InlineEntries, Csv;
    UnquoteQuoted(v);
    assert Quoted(v)[0] == '"';
  }

  // ------------------------------------------------------------ lists are cut at commas

  /** From depth `low` on, a scan for commas that is outside quotes goes over `s` and is so again. */
  ghost predicate Passes(s: string, low: nat) {
    forall rest, depth, cur :: depth >= low ==> Csv(s + rest, Out, depth, cur) == Csv(rest, Out, depth, cur + s)
  }

  lemma PassesUse(s: string, low: nat, rest: string, depth: int, cur: string)
    requires Passes(s, low) && depth >= low
    ensures Csv(s + rest, Out, depth, cur) == Csv(rest, Out, depth, cur + s)
  {
  }

  lemma PassesMore(s: string)
    requires Passes(s, 0)
    ensures Passes(s, 1)
  {
  }

  lemma PassesNone(low: nat)
    ensures Passes("", low)
  {
    forall rest, depth, cur | depth >= low ensures Csv("" + rest, Out, depth, cur) == Csv(rest, Out, depth, cur + "") {
      assert "" + rest == rest && cur + "" == cur;
    }
  }

  lemma PassesBoth(a: string, b: string, low: nat)
    requires Passes(a, low) && Passes(b, low)
    ensures Passes(a + b, low)
  {
    forall rest, depth, cur | depth >= low
      ensures Csv(a + b + rest, Out, depth, cur) == Csv(rest, Out, depth, cur + (a + b))
    {
      assert a + b + rest == a + (b + rest);
      PassesUse(a, low, b + rest, depth, cur);
      PassesUse(b, low, rest, depth, cur + a);
      assert cur + a + b == cur + (a + b);
    }
  }

  /** One character outside quotes. */
  lemma CsvChar(c: char, rest: string, depth: int, cur: string)
    requires c != '"' && c != '\'' && !(c == ',' && depth == 0)
    ensures Csv([c] + rest, Out, depth, cur) == Csv(rest, Out, depth + Nesting(c), cur + [c])
  {
    assert ([c] + rest)[1..] == rest;
  }

  /** One character inside quotes, or the quote that opens them. */
  lemma CsvStep(c: char, rest: string, q: Quote, depth: int, cur: string)
    requires q != Out || c == '"' || c == '\''
    ensures Csv([c] + rest, q, depth, cur) == Csv(rest, Step(q, c), depth, cur + [c])
  {
    assert ([c] + rest)[1..] == rest;
  }

  predicate IsPlainChar(c: char) {
    c != '"' && c != '\'' && c != ',' && c != '[' && c != ']' && c != '{' && c != '}'
  }

  lemma PassesChar(c: char)
    requires IsPlainChar(c)
    ensures Passes([c], 0)
  {
    forall rest, depth, cur | depth >= 0 ensures Csv([c] + rest, Out, depth, cur) == Csv(rest, Out, depth, cur + [c]) {
      CsvChar(c, rest, depth, cur);
    }
  }

  lemma {:induction false} PassesPlain(s: string)
    requires forall k :: 0 <= k < |s| ==> IsPlainChar(s[k])
    ensures Passes(s, 0)
    decreases |s|
  {
    hide Passes, IsPlainChar;
    if s == "" {
      PassesNone(0);
    } else {
      PassesChar(s[0]);
      PassesPlain(s[1..]);
      PassesBoth([s[0]], s[1..], 0);
      assert [s[0]] + s[1..] == s;
    }
  }

  /** Inside brackets commas do not cut. */
  lemma PassesComma()
    ensures Passes(", ", 1)
  {
    forall rest, depth, cur | depth >= 1
      ensures Csv(", " + rest, Out, depth, cur) == Csv(rest, Out, depth, cur + ", ")
    {
      assert ", " + rest == [','] + ([' '] + rest);
      CsvChar(',', [' '] + rest, depth, cur);
      CsvChar(' ', rest, depth, cur + [',']);
      assert cur + [','] + [' '] == cur + ", ";
    }
  }

  lemma PassesBracketed(open: char, s: string, close: char)
    requires Passes(s, 1) && ((open == '[' && close == ']') || (open == '{' && close == '}'))
    ensures Passes([open] + s + [close], 0)
  {
    hide Csv;
    forall rest, depth, cur | depth >= 0
      ensures Csv([open] + s + [close] + rest, Out, depth, cur) == Csv(rest, Out, depth, cur + ([open] + s + [close]))
    {
      assert [open] + s + [close] + rest == [open] + (s + ([close] + rest));
      CsvChar(open, s + ([close] + rest), depth, cur);
      PassesUse(s, 1, [close] + rest, depth + 1, cur + [open]);
      CsvChar(close, rest, depth + 1, cur + [open] + s);
      assert cur + [open] + s + [close] == cur + ([open] + s + [close]);
    }
  }

  // ----------------------------------------------------------------- quotes are passed

  lemma CsvEscape(c: char, rest: string, depth: int, cur: string)
    ensures Csv(EscapeChar(c) + rest, Double, depth, cur) == Csv(rest, Double, depth, cur + EscapeChar(c))
  {
    hide Csv;
    var e := EscapeChar(c);
    if |e| == 2 {
      assert e + rest == [e[0]] + ([e[1]] + rest);
      CsvStep(e[0], [e[1]] + rest, Double, depth, cur);
      CsvStep(e[1], rest, Escaped, depth, cur + [e[0]]);
      assert cur + [e[0]] + [e[1]] == cur + e;
    } else {
      CsvStep(c, rest, Double, depth, cur);
    }
  }

  lemma {:induction false} CsvInside(v: string, rest: string, depth: int, cur: string)
    ensures Csv(Escape(v) + rest, Double, depth, cur) == Csv(rest, Double, depth, cur + Escape(v))
    decreases |v|
  {
    hide Csv;
    if v == "" {
      assert "" + rest == rest && cur + "" == cur;
    } else {
      var e, tail := EscapeChar(v[0]), Escape(v[1..]);
      assert Escape(v) + rest == e + (tail + rest);
      CsvEscape(v[0], tail + rest, depth, cur);
      CsvInside(v[1..], rest, depth, cur + e);
      assert cur + e + tail == cur + (e + tail);
    }
  }

  lemma PassesDouble(v: string)
    ensures Passes(Quoted(v), 0)
  {
    hide Csv, Escape;
    forall rest, depth, cur | depth >= 0
      ensures Csv(Quoted(v) + rest, Out, depth, cur) == Csv(rest, Out, depth, cur + Quoted(v))
    {
      assert Quoted(v) + rest == ['"'] + (Escape(v) + (['"'] + rest));
      CsvStep('"', Escape(v) + (['"'] + rest), Out, depth, cur);
      CsvInside(v, ['"'] + rest, depth, cur + ['"']);
      CsvStep('"', rest, Double, depth, cur + ['"'] + Escape(v));
      assert cur + ['"'] + Escape(v) + ['"'] == cur + Quoted(v);
    }
  }

  lemma {:induction false} CsvSingle(v: string, rest: string, depth: int, cur: string)
    requires '\'' !in v
    ensures Csv(v + rest, Single, depth, cur) == Csv(rest, Single, depth, cur + v)
    decreases |v|
  {
    hide Csv;
    if v == "" {
      assert "" + rest == rest && cur + "" == cur;
    } else {
      assert v + rest == [v[0]] + (v[1..] + rest);
      CsvStep(v[0], v[1..] + rest, Single, depth, cur);
      CsvSingle(v[1..], rest, depth, cur + [v[0]]);
      assert cur + [v[0]] + v[1..] == cur + v;
    }
  }

  lemma PassesSingle(v: string)
    requires '\'' !in v
    ensures Passes("'" + v + "'", 0)
  {
    hide Csv;
    forall rest, depth, cur | depth >= 0
      ensures Csv("'" + v + "'" + rest, Out, depth, cur) == Csv(rest, Out, depth, cur + ("'" + v + "'"))
    {
      assert "'" + v + "'" + rest == ['\''] + (v + (['\''] + rest));
      CsvStep('\'', v + (['\''] + rest), Out, depth, cur);
      CsvSingle(v, ['\''] + rest, depth, cur + ['\'']);
      CsvStep('\'', rest, Single, depth, cur + ['\''] + v);
      assert cur + ['\''] + v + ['\''] == cur + ("'" + v + "'");
    }
  }

  // ------------------------------------------------------------------- joined with commas

  ghost predicate AllPass(texts: seq<string>) {
    forall k :: 0 <= k < |texts| ==> texts[k] != "" && Passes(texts[k], 0)
  }

  lemma AllPassRest(texts: seq<string>)
    requires AllPass(texts) && texts != []
    ensures AllPass(texts[1..]) && texts[0] != "" && Passes(texts[0], 0)
  {
    hide Passes;
  }

  lemma AllPassCons(text: string, rest: seq<string>)
    requires text != "" && Passes(text, 0) && AllPass(rest)
    ensures AllPass([text] + rest)
  {
    hide Passes;
  }

  lemma {:induction false} CommasPass(texts: seq<string>)
    requires AllPass(texts)
    ensures Passes(Commas(texts), 1)
    decreases |texts|
  {
    hide Passes, AllPass;
    if texts == [] {
      PassesNone(1);
    } else {
      AllPassRest(texts);
      PassesMore(texts[0]);
      if |texts| > 1 {
        CommasPass(texts[1..]);
        PassesComma();
        PassesBoth(texts[0], ", ", 1);
        PassesBoth(texts[0] + ", ", Commas(texts[1..]), 1);
      }
    }
  }

  /** What the cut at the commas leaves: the texts, each but the first with the space before it. */
  function Parts(texts: seq<string>, cur: string): seq<string> {
    if texts == [] then [] else [cur + texts[0]] + Parts(texts[1..], " ")
  }

  lemma {:induction false} CutAtCommas(texts: seq<string>, cur: string)
    requires AllPass(texts) && texts != []
    ensures Csv(Commas(texts), Out, 0, cur) == Parts(texts, cur)
    decreases |texts|
  {
    hide Passes, AllPass, Csv;
    AllPassRest(texts);
    var t := texts[0];
    if |texts| == 1 {
      assert t + "" == t;
      PassesUse(t, 0, "", 0, cur);
      CsvEnd(cur + t);
      assert texts[1..] == [] && [cur + t] + [] == [cur + t];
    } else {
      var rest := Commas(texts[1..]);
      assert Commas(texts) == t + (", " + rest);
      PassesUse(t, 0, ", " + rest, 0, cur);
      CsvComma(rest, cur + t);
      CutAtCommas(texts[1..], " ");
    }
  }

  lemma CutNothing()
    ensures Csv("", Out, 0, "") == []
  {
  }

  lemma CsvEnd(cur: string)
    ensures Csv("", Out, 0, cur) == if cur == "" then [] else [cur]
  {
  }

  lemma CsvComma(rest: string, cur: string)
    ensures Csv(", " + rest, Out, 0, cur) == [cur] + Csv(rest, Out, 0, " ")
  {
    assert (", " + rest)[1..] == " " + rest && (" " + rest)[1..] == rest;
    assert "" + " " == " ";
  }

  // ---------------------------------------------------------------------- flows pass

  lemma BareChars(s: string)
    requires IsBare(s)
    ensures forall k :: 0 <= k < |s| ==> IsPlainChar(s[k])
  {
    hide IsSpace;
  }

  lemma KeyChars(key: string)
    requires IsKey(key)
    ensures forall k :: 0 <= k < |key| ==> IsPlainChar(key[k])
  {
    hide IsSpace, IsItem;
  }

  lemma StrPasses(f: Flow)
    requires f.Str? && IsNested(f)
    ensures Passes(FlowText(f), 0) && FlowText(f) != ""
  {
    hide Passes, Quoted, IsBare;
    match f.quotes
    case Bare =>
      BareChars(f.text);
      PassesPlain(f.text);
      BareTrim(f.text);
    case SingleQuoted => PassesSingle(f.text);
    case DoubleQuoted =>
      PassesDouble(f.text);
      QuotedShape(f.text);
  }

  lemma BareTrim(s: string)
    requires IsBare(s)
    ensures Trim(s) && NoBreaks(s) && NoHash(s) && NoQuotes(s)
  {
  }

  lemma QuotedShape(v: string)
    ensures var s := Quoted(v); |s| >= 2 && s[0] == '"' && s[|s| - 1] == '"'
  {
  }

  lemma {:induction false} FlowPasses(f: Flow)
    requires IsNested(f)
    ensures Passes(FlowText(f), 0) && FlowText(f) != ""
    decreases f, 0
  {
    hide Passes, AllPass, Commas, IsBare, StrText;
    match f
    case Str(_, _) => StrPasses(f);
    case List(items) =>
      ItemsPass(items);
      CommasPass(ItemTexts(items));
      PassesBracketed('[', Commas(ItemTexts(items)), ']');
    case Map(pairs) =>
      PairsPass(pairs);
      CommasPass(PairTexts(pairs));
      PassesBracketed('{', Commas(PairTexts(pairs)), '}');
  }

  lemma NonePass()
    ensures AllPass([])
  {
  }

  lemma {:induction false} ItemsPass(items: seq<Flow>)
    requires AreItems(items)
    ensures AllPass(ItemTexts(items))
    decreases items, 0
  {
    hide Passes, AllPass, FlowText, IsNested;
    if items == [] {
      NonePass();
    } else {
      FlowPasses(items[0]);
      ItemsPass(items[1..]);
      AllPassCons(FlowText(items[0]), ItemTexts(items[1..]));
    }
  }

  lemma {:induction false} PairsPass(pairs: seq<Pair>)
    requires ArePairs(pairs)
    ensures AllPass(PairTexts(pairs))
    decreases pairs, 0
  {
    hide Passes, AllPass, FlowText, IsNested, IsKey;
    if pairs == [] {
      NonePass();
    } else {
      var p := pairs[0];
      FlowPasses(p.val);
      PairsPass(pairs[1..]);
      KeyPasses(p.key);
      PassesBoth(p.key + ": ", FlowText(p.val), 0);
      AllPassCons(p.key + ": " + FlowText(p.val), PairTexts(pairs[1..]));
    }
  }

  lemma KeyPasses(key: string)
    requires IsKey(key)
    ensures Passes(key + ": ", 0)
  {
    hide Passes, IsKey;
    KeyChars(key);
    PassesPlain(key + ": ");
  }

  // --------------------------------------------------------------------- flows are read

  lemma FlowTrim(f: Flow)
    requires IsNested(f)
    ensures Trim(FlowText(f))
  {
    hide Commas, IsSpace, IsBare, Quoted;
    QuoteNoSpace();
    if f.Str? {
      QuotedShape(f.text);
      if f.quotes.Bare? {
        BareTrim(f.text);
      }
    }
  }

  lemma QuoteNoSpace()
    ensures !IsSpace('"') && !IsSpace('\'') && !IsSpace('[') && !IsSpace(']') && !IsSpace('{') && !IsSpace('}')
  {
  }

  /** A text comes back from its part. */
  lemma PartTrim(cur: string, t: string)
    requires (cur == "" || cur == " ") && Trim(t)
    ensures TrimSpace(cur + t) == t
  {
    hide TrimSpace;
    TrimSpaceNone(t);
    TrimSpaceOne(t);
    assert "" + t == t;
  }

  lemma StrUnquoted(f: Flow)
    requires f.Str? && IsNested(f)
    ensures Unquoted(FlowText(f)) == f.text
  {
    hide TrimSpace, Quoted, IsSpace, Unescaped;
    match f.quotes
    case Bare => assert FlowText(f) == f.text;
    case SingleQuoted => UnquoteSingle(f.text);
    case DoubleQuoted => UnquoteQuoted(f.text);
  }

  lemma {:induction false} ItemsRead(items: seq<Flow>, cur: string)
    requires AreItems(items) && (cur == "" || cur == " ")
    ensures Scalars(Parts(ItemTexts(items), cur)) == FlowNodes(items)
    decreases items
  {
    hide Unquoted, TrimSpace, FlowText, IsNested;
    if items != [] {
      var t := FlowText(items[0]);
      FlowTrim(items[0]);
      PartTrim(cur, t);
      StrUnquoted(items[0]);
      ItemsRead(items[1..], " ");
      var rest := Parts(ItemTexts(items[1..]), " ");
      assert Scalars([cur + t] + rest) == [Scalar(items[0].text)] + Scalars(rest);
    }
  }

  lemma ListRead(items: seq<Flow>, d: nat)
    requires AreItems(items) && d <= MAX_DEPTH
    ensures InlineValue(FlowText(List(items)), d) == Ok(FlowNode(List(items)))
  {
    hide Unquoted, TrimSpace, InlineEntries, Csv, Commas, AreItems, FlowNodes, ItemTexts, AllPass;
    var body := Commas(ItemTexts(items));
    var s := "[" + body + "]";
    assert s[1..|s| - 1] == body;
    ItemsCut(items);
    ItemsRead(items, "");
  }

  lemma ItemsCut(items: seq<Flow>)
    requires AreItems(items)
    ensures Csv(Commas(ItemTexts(items)), Out, 0, "") == Parts(ItemTexts(items), "")
  {
    hide AllPass, FlowText, IsNested, Csv;
    if items == [] {
      CutNothing();
    } else {
      ItemsPass(items);
      CutAtCommas(ItemTexts(items), "");
    }
  }

  lemma PairsCut(pairs: seq<Pair>)
    requires ArePairs(pairs)
    ensures Csv(Commas(PairTexts(pairs)), Out, 0, "") == Parts(PairTexts(pairs), "")
  {
    hide AllPass, FlowText, IsNested, Csv, IsKey;
    if pairs == [] {
      CutNothing();
    } else {
      PairsPass(pairs);
      CutAtCommas(PairTexts(pairs), "");
    }
  }

  /** A key with its colon: that colon is the one found. */
  lemma KeyColon(key: string, rest: string)
    requires IsKey(key) && (rest == "" || rest[0] == ' ')
    ensures var l := key + ":" + rest; Colon(l) == |key| && l[..|key|] == key && l[|key| + 1..] == rest
    ensures TrimSpace(key) == key && Unquoted(key) == key && !IsItem(key + ":" + rest)
  {
    hide IsKey, Unquoted, TrimSpace, IsItem;
    KeyItself(key);
    KeyNoItem(key, rest);
    var l := key + ":" + rest;
    forall i | 0 <= i < |key| ensures l[i] == key[i] && !IsColon(l, i) {
      KeyNoColon(key, i);
    }
    assert IsColon(l, |key|);
  }

  lemma KeyNoColon(key: string, i: nat)
    requires IsKey(key) && i < |key|
    ensures key[i] != ':'
  {
  }

  lemma KeyItself(key: string)
    requires IsKey(key)
    ensures TrimSpace(key) == key && Unquoted(key) == key
  {
    hide IsSpace, TrimSpace;
    TrimSpaceNone(key);
  }

  lemma KeyNoItem(key: string, rest: string)
    requires IsKey(key)
    ensures !IsItem(key + ":" + rest)
  {
    hide IsSpace;
    var l := key + ":" + rest;
    assert l[0] == key[0] && (|key| > 1 ==> l[1] == key[1]) && (|key| == 1 ==> l[1] == ':');
    assert |key| > 1 ==> key[..2] == l[..2];
  }

  lemma PairTrim(p: Pair)
    requires IsKey(p.key) && IsNested(p.val)
    ensures Trim(p.key + ": " + FlowText(p.val))
  {
    hide IsSpace, FlowText, IsItem, IsNested;
    FlowTrim(p.val);
  }

  lemma PairSplit(p: Pair)
    requires IsKey(p.key) && IsNested(p.val)
    ensures var entry := p.key + ": " + FlowText(p.val);
      && Colon(entry) == |p.key| < |entry| && Unquoted(TrimSpace(entry[..|p.key|])) == p.key
      && TrimSpace(entry[|p.key| + 1..]) == FlowText(p.val)
  {
    hide IsSpace, FlowText, IsItem, IsNested, IsKey, Colon, Unquoted, TrimSpace;
    var v := FlowText(p.val);
    assert p.key + ": " + v == p.key + ":" + (" " + v);
    KeyColon(p.key, " " + v);
    FlowTrim(p.val);
    TrimSpaceOne(v);
  }

  lemma {:induction false} PairsRead(pairs: seq<Pair>, seen: set<string>, d: nat, cur: string, size: nat)
    requires ArePairs(pairs) && (cur == "" || cur == " ")
    requires forall k :: 0 <= k < |Parts(PairTexts(pairs), cur)| ==> |Parts(PairTexts(pairs), cur)[k]| <= size
    ensures var r := InlineEntries(Parts(PairTexts(pairs), cur), seen, d, size);
      if (pairs == [] || d + 1 + PairsHeight(pairs) <= MAX_DEPTH) && PairsUnique(pairs, seen)
      then r == Ok(PairNodes(pairs)) else r.Err?
    decreases pairs, 0
  {
    hide Unquoted, TrimSpace, FlowText, IsNested, IsKey, InlineValue, Colon, Csv;
    if pairs != [] {
      var p := pairs[0];
      var entry := p.key + ": " + FlowText(p.val);
      PairTrim(p);
      PartTrim(cur, entry);
      PairSplit(p);
      FlowRead(p.val, d + 1);
      var parts, rest := Parts(PairTexts(pairs), cur), Parts(PairTexts(pairs[1..]), " ");
      assert parts == [cur + entry] + rest && parts[1..] == rest;
      forall k | 0 <= k < |rest| ensures |rest[k]| <= size {
        assert rest[k] == parts[k + 1];
      }
      PairsRead(pairs[1..], seen + {p.key}, d, " ", size);
    }
  }

  /**
    An inline value is read as what it was written for, exactly if it is not nested
    too deeply and no map in it has a key twice.
   */
  lemma {:induction false} FlowRead(f: Flow, d: nat)
    requires IsNested(f)
    ensures var r := InlineValue(FlowText(f), d);
      if d + FlowHeight(f) <= MAX_DEPTH && FlowUnique(f) then r == Ok(FlowNode(f)) else r.Err?
    decreases f, 1
  {
    hide Unquoted, TrimSpace, Csv, Commas, IsBare, InlineEntries, Scalars;
    if d <= MAX_DEPTH {
      match f
      case Str(text, quotes) => StrRead(f, d);
      case List(items) => ListRead(items, d);
      case Map(pairs) =>
        var body := Commas(PairTexts(pairs));
        var s := "{" + body + "}";
        assert s[1..|s| - 1] == body && |s| - 2 == |body|;
        PairsCut(pairs);
        CsvSizes(body);
        PairsRead(pairs, {}, d, "", |body|);
    }
  }

  lemma StrRead(f: Flow, d: nat)
    requires f.Str? && IsNested(f) && d <= MAX_DEPTH
    ensures InlineValue(FlowText(f), d) == Ok(Scalar(f.text))
  {
    hide InlineValue, Quoted, IsSpace;
    match f.quotes
    case Bare => PlainRead(f.text, d);
    case SingleQuoted => SingleRead(f.text, d);
    case DoubleQuoted => DoubleRead(f.text, d);
  }

  // --------------------------------------------------------------- no comment in a flow

  /** Wherever `w` stands outside quotes, a scan for a comment goes over it and is outside quotes again. */
  ghost predicate Quiet(w: string) {
    forall s, i: nat :: At(s, i, w) ==> CommentFrom(s, i, Out) == CommentFrom(s, i + |w|, Out)
  }

  lemma QuietUse(w: string, s: string, i: nat)
    requires Quiet(w) && At(s, i, w)
    ensures i + |w| <= |s| && CommentFrom(s, i, Out) == CommentFrom(s, i + |w|, Out)
  {
  }

  lemma QuietBoth(a: string, b: string)
    requires Quiet(a) && Quiet(b)
    ensures Quiet(a + b)
  {
    forall s, i: nat | At(s, i, a + b) ensures CommentFrom(s, i, Out) == CommentFrom(s, i + |a + b|, Out) {
      AtParts(s, i, a, b);
      QuietUse(a, s, i);
      QuietUse(b, s, i + |a|);
    }
  }

  lemma QuietPlain(w: string)
    requires NoQuotes(w) && NoHash(w)
    ensures Quiet(w)
  {
    forall s, i: nat | At(s, i, w) ensures CommentFrom(s, i, Out) == CommentFrom(s, i + |w|, Out) {
      forall k | i <= k < i + |w| ensures s[k] == w[k - i] {
        AtChar(s, i, w, k - i);
      }
      hide At;
      forall k | i <= k < i + |w| && s[k] == '#' && k > 0 ensures s[k - 1] != ' ' {
        assert w[k - i] == '#';
        assert s[k - 1] == w[k - 1 - i];
      }
      CommentPlain(s, i, i + |w|);
    }
  }

  lemma QuietSingle(v: string)
    requires '\'' !in v
    ensures Quiet("'" + v + "'")
  {
    var w := "'" + v + "'";
    forall s, i: nat | At(s, i, w) ensures CommentFrom(s, i, Out) == CommentFrom(s, i + |w|, Out) {
      AtChar(s, i, w, 0);
      AtChar(s, i, w, |w| - 1);
      forall k | i + 1 <= k < i + |w| - 1 ensures s[k] != '\'' {
        AtChar(s, i, w, k - i);
        assert w[k - i] == v[k - i - 1];
      }
      hide At;
      CommentSingle(s, i + 1, i + |w| - 1);
    }
  }

  lemma QuietDouble(v: string)
    ensures Quiet(Quoted(v))
  {
    hide CommentFrom, Quoted;
    forall s, i: nat | At(s, i, Quoted(v)) ensures CommentFrom(s, i, Out) == CommentFrom(s, i + |Quoted(v)|, Out) {
      AtFits(s, i, Quoted(v));
      CommentQuoted(s, i, v);
    }
  }

  lemma QuietNone()
    ensures Quiet("")
  {
  }

  lemma {:induction false} CommasQuiet(texts: seq<string>)
    requires forall k :: 0 <= k < |texts| ==> Quiet(texts[k])
    ensures Quiet(Commas(texts))
    decreases |texts|
  {
    hide Quiet;
    if texts == [] {
      QuietNone();
    } else if |texts| > 1 {
      CommasQuiet(texts[1..]);
      QuietPlain(", ");
      QuietBoth(texts[0], ", ");
      QuietBoth(texts[0] + ", ", Commas(texts[1..]));
    }
  }

  lemma QuietBracketed(open: string, s: string, close: string)
    requires Quiet(s) && open in ["[", "{"] && close in ["]", "}"]
    ensures Quiet(open + s + close)
  {
    hide Quiet;
    QuietPlain(open);
    QuietPlain(close);
    QuietBoth(open, s);
    QuietBoth(open + s, close);
  }

  lemma StrQuiet(f: Flow)
    requires f.Str? && IsNested(f)
    ensures Quiet(FlowText(f))
  {
    hide Quiet, Quoted, IsBare;
    match f.quotes
    case Bare =>
      BareTrim(f.text);
      QuietPlain(f.text);
    case SingleQuoted => QuietSingle(f.text);
    case DoubleQuoted => QuietDouble(f.text);
  }

  lemma {:induction false} FlowQuiet(f: Flow)
    requires IsNested(f)
    ensures Quiet(FlowText(f))
    decreases f, 0
  {
    hide Quiet, Commas, IsBare, StrText;
    match f
    case Str(_, _) => StrQuiet(f);
    case List(items) =>
      ItemsQuiet(items);
      CommasQuiet(ItemTexts(items));
      QuietBracketed("[", Commas(ItemTexts(items)), "]");
    case Map(pairs) =>
      PairsQuiet(pairs);
      CommasQuiet(PairTexts(pairs));
      QuietBracketed("{", Commas(PairTexts(pairs)), "}");
  }

  lemma {:induction false} ItemsQuiet(items: seq<Flow>)
    requires AreItems(items)
    ensures forall k :: 0 <= k < |ItemTexts(items)| ==> Quiet(ItemTexts(items)[k])
    decreases items, 0
  {
    hide Quiet, FlowText, IsNested;
    if items != [] {
      FlowQuiet(items[0]);
      ItemsQuiet(items[1..]);
    }
  }

  lemma KeyQuiet(key: string, tail: string)
    requires IsKey(key) && (tail == ": " || tail == ":")
    ensures Quiet(key + tail)
  {
    hide Quiet, IsSpace, IsItem;
    QuietPlain(key + tail);
  }

  lemma {:induction false} PairsQuiet(pairs: seq<Pair>)
    requires ArePairs(pairs)
    ensures forall k :: 0 <= k < |PairTexts(pairs)| ==> Quiet(PairTexts(pairs)[k])
    decreases pairs, 0
  {
    hide Quiet, FlowText, IsNested, IsKey;
    if pairs != [] {
      var p := pairs[0];
      FlowQuiet(p.val);
      KeyQuiet(p.key, ": ");
      QuietBoth(p.key + ": ", FlowText(p.val));
      PairsQuiet(pairs[1..]);
    }
  }

  // ----------------------------------------------------------------------- on one line

  lemma NoBreaksBoth(a: string, b: string)
    requires NoBreaks(a) && NoBreaks(b)
    ensures NoBreaks(a + b)
  {
  }

  lemma {:induction false} CommasOneLine(texts: seq<string>)
    requires forall k :: 0 <= k < |texts| ==> NoBreaks(texts[k])
    ensures NoBreaks(Commas(texts))
    decreases |texts|
  {
    if |texts| > 1 {
      CommasOneLine(texts[1..]);
    }
  }

  lemma {:induction false} FlowOneLine(f: Flow)
    requires IsNested(f)
    ensures NoBreaks(FlowText(f))
    decreases f, 0
  {
    hide Commas, IsBare, Escape;
    match f
    case Str(text, quotes) =>
      EscapeOneLine(text);
      if quotes.Bare? {
        BareTrim(text);
      }
    case List(items) =>
      ItemsOneLine(items);
      CommasOneLine(ItemTexts(items));
    case Map(pairs) =>
      PairsOneLine(pairs);
      CommasOneLine(PairTexts(pairs));
  }

  lemma {:induction false} ItemsOneLine(items: seq<Flow>)
    requires AreItems(items)
    ensures forall k :: 0 <= k < |ItemTexts(items)| ==> NoBreaks(ItemTexts(items)[k])
    decreases items, 0
  {
    hide NoBreaks, FlowText, IsNested;
    if items != [] {
      FlowOneLine(items[0]);
      ItemsOneLine(items[1..]);
    }
  }

  lemma {:induction false} PairsOneLine(pairs: seq<Pair>)
    requires ArePairs(pairs)
    ensures forall k :: 0 <= k < |PairTexts(pairs)| ==> NoBreaks(PairTexts(pairs)[k])
    decreases pairs, 0
  {
    hide NoBreaks, FlowText, IsNested, IsKey;
    if pairs != [] {
      var p := pairs[0];
      FlowOneLine(p.val);
      KeyOneLine(p.key, ": ");
      NoBreaksBoth(p.key + ": ", FlowText(p.val));
      PairsOneLine(pairs[1..]);
    }
  }

  lemma KeyOneLine(key: string, tail: string)
    requires IsKey(key) && (tail == ": " || tail == ":")
    ensures NoBreaks(key + tail)
  {
    hide IsSpace, IsItem;
  }
}
