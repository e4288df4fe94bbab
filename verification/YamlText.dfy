/**
  The text-level helpers of internal/yml/parser.go: quoting, comments, lists and
  escapes inside one line. Double-quoted style and its escapes are those of
  sections 7.3.1 and 5.7 of YAML 1.2.2, as far as the parser supports them.
 */
module YamlText {
  import opened Text

  predicate HasPrefix(s: string, p: string) {
    |p| <= |s| && s[..|p|] == p
  }

  /** `strings.TrimLeft` of white space. */
  function TrimStart(s: string): (r: string)
    ensures |r| <= |s| && s[|s| - |r|..] == r && (r != "" ==> !IsSpace(r[0]))
  {
    if s != "" && IsSpace(s[0]) then TrimStart(s[1..]) else s
  }

  function TrimEnd(s: string): (r: string)
    ensures r <= s && (r != "" ==> !IsSpace(r[|r| - 1]))
  {
    if s != "" && IsSpace(s[|s| - 1]) then TrimEnd(s[..|s| - 1]) else s
  }

  /** `strings.TrimSpace`. */
  function TrimSpace(s: string): (r: string)
    ensures |r| <= |s|
  {
    TrimEnd(TrimStart(s))
  }

  /** `strings.TrimRight` with a cutset. */
  function TrimRight(s: string, cut: string): (r: string)
    ensures r <= s && (r != "" ==> r[|r| - 1] !in cut)
  {
    if s != "" && s[|s| - 1] in cut then TrimRight(s[..|s| - 1], cut) else s
  }

  /** The number of leading spaces. */
  function Indent(s: string): (n: nat)
    ensures n <= |s| && forall i :: 0 <= i < n ==> s[i] == ' '
  {
    if s != "" && s[0] == ' ' then 1 + Indent(s[1..]) else 0
  }

  lemma TrimSpaceNone(s: string)
    requires s != "" && !IsSpace(s[0]) && !IsSpace(s[|s| - 1])
    ensures TrimSpace(s) == s
  {
  }

  lemma TrimSpaceOne(s: string)
    requires s != "" && !IsSpace(s[0]) && !IsSpace(s[|s| - 1])
    ensures TrimSpace(" " + s) == s
  {
    assert (" " + s)[1..] == s;
    assert TrimStart(s) == s;
    assert TrimStart(" " + s) == s;
  }

  // ----------------------------------------------------------------------- colons

  predicate IsColon(s: string, i: nat)
    requires i < |s|
  {
    s[i] == ':' && (i + 1 == |s| || s[i + 1] == ' ')
  }

  /** `findColon`: the first colon at the end or before a space, or the length. */
  function ColonFrom(s: string, i: nat): (k: nat)
    requires i <= |s|
    ensures i <= k <= |s| && (k < |s| ==> IsColon(s, k))
    ensures forall j :: i <= j < k ==> !IsColon(s, j)
    decreases |s| - i
  {
    if i == |s| || IsColon(s, i) then i else ColonFrom(s, i + 1)
  }

  function Colon(s: string): (k: nat)
    ensures k <= |s| && (k < |s| ==> IsColon(s, k))
  {
    ColonFrom(s, 0)
  }

  method FindColon(s: string) returns (k: nat)
    ensures k == Colon(s)
  {
    k := 0;
    while k < |s|
      invariant k <= |s| && Colon(s) == ColonFrom(s, k)
    {
      if s[k] == ':' && (k + 1 >= |s| || s[k + 1] == ' ') {
        return;
      }
      k := k + 1;
    }
  }

  // ------------------------------------------------------------------------ quotes

  /** Where a scan stands: outside quotes, inside one of the two kinds, or behind a backslash in double quotes. */
  datatype Quote = Out | Single | Double | Escaped

  function Step(q: Quote, c: char): Quote {
    match q
    case Out => if c == '\'' then Single else if c == '"' then Double else Out
    case Single => if c == '\'' then Out else Single
    case Double => if c == '\\' then Escaped else if c == '"' then Out else Double
    case Escaped => Double
  }

  /** Where the comment starts, or the length: a '#' behind a space and outside quotes. */
  function CommentFrom(s: string, i: nat, q: Quote): (k: nat)
    requires i <= |s|
    ensures i <= k <= |s|
    decreases |s| - i
  {
    if i == |s| then i
    else if s[i] == '#' && q == Out && i > 0 && s[i - 1] == ' ' then i
    else CommentFrom(s, i + 1, Step(q, s[i]))
  }

  function Uncommented(s: string): (r: string)
    ensures r <= s
  {
    var k := CommentFrom(s, 0, Out);
    if k < |s| then TrimRight(s[..k], " ") else s
  }

  /** `stripInlineComment`. */
  method StripInlineComment(s: string) returns (r: string)
    ensures r == Uncommented(s)
  {
    var inSingle, inDouble, escaped := false, false, false;
    for i := 0 to |s|
      invariant !(inSingle && inDouble) && (escaped ==> inDouble)
      invariant CommentFrom(s, 0, Out) == CommentFrom(s, i, Flags(inSingle, inDouble, escaped))
    {
      var c := s[i];
      if escaped {
        escaped := false;
        continue;
      }
      match c
      case '\\' =>
        if inDouble {
          escaped := true;
        }
      case '\'' =>
        if !inDouble {
          inSingle := !inSingle;
        }
      case '"' =>
        if !inSingle {
          inDouble := !inDouble;
        }
      case '#' =>
        if !inSingle && !inDouble && i > 0 && s[i - 1] == ' ' {
          return TrimRight(s[..i], " ");
        }
      case _ =>
    }
    return s;
  }

  function Flags(inSingle: bool, inDouble: bool, escaped: bool): Quote {
    if escaped then Escaped else if inDouble then Double else if inSingle then Single else Out
  }

  // ------------------------------------------------------------------------- lists

  function Nesting(c: char): int {
    if c == '[' || c == '{' then 1 else if c == ']' || c == '}' then -1 else 0
  }

  /** The items of a list: cut at commas outside quotes and brackets; a last item that is empty is dropped. */
  function Csv(s: string, q: Quote, depth: int, cur: string): (parts: seq<string>)
    ensures forall k :: 0 <= k < |parts| ==> |parts[k]| <= |cur| + |s|
    decreases |s|
  {
    if s == "" then (if cur == "" then [] else [cur])
    else if q != Out || s[0] == '"' || s[0] == '\'' then Csv(s[1..], Step(q, s[0]), depth, cur + [s[0]])
    else if s[0] == ',' && depth == 0 then [cur] + Csv(s[1..], Out, depth, "")
    else Csv(s[1..], Out, depth + Nesting(s[0]), cur + [s[0]])
  }

  /** `splitCSV`. */
  method SplitCsv(s: string) returns (parts: seq<string>)
    ensures parts == Csv(s, Out, 0, "")
  {
    parts := [];
    var current := "";
    var inQuote, quoteChar, escaped, depth := false, ' ', false, 0;
    assert s[0..] == s;
    for i := 0 to |s|
      invariant (inQuote ==> quoteChar == '"' || quoteChar == '\'') && (escaped ==> inQuote && quoteChar == '"')
      invariant Csv(s, Out, 0, "") == parts + Csv(s[i..], QuoteState(inQuote, quoteChar, escaped), depth, current)
    {
      var c := s[i];
      assert s[i..][0] == c && s[i..][1..] == s[i + 1..];
      if escaped {
        current := current + [c];
        escaped := false;
        continue;
      }
      if inQuote {
        if c == '\\' && quoteChar == '"' {
          current := current + [c];
          escaped := true;
          continue;
        }
        current := current + [c];
        if c == quoteChar {
          inQuote := false;
        }
        continue;
      }
      if c == '"' || c == '\'' {
        inQuote := true;
        quoteChar := c;
        current := current + [c];
        continue;
      }
      match c {
        case '[' => depth := depth + 1;
        case '{' => depth := depth + 1;
        case ']' => depth := depth - 1;
        case '}' => depth := depth - 1;
        case _ =>
      }
      if c == ',' && depth == 0 {
        assert parts + ([current] + Csv(s[i + 1..], Out, 0, "")) == parts + [current] + Csv(s[i + 1..], Out, 0, "");
        parts := parts + [current];
        current := "";
        continue;
      }
      current := current + [c];
    }
    assert s[|s|..] == "";
    if |current| > 0 {
      parts := parts + [current];
    }
  }

  function QuoteState(inQuote: bool, quoteChar: char, escaped: bool): Quote {
    if escaped then Escaped else if !inQuote then Out else if quoteChar == '"' then Double else Single
  }

  // ------------------------------------------------------------------------ escapes

  function Decode(c: char): string {
    match c
    case 'n' => "\n"
    case 't' => "\t"
    case 'r' => "\r"
    case '\\' => "\\"
    case '"' => "\""
    case '\'' => "'"
    case _ => ['\\', c]
  }

  function Unescaped(s: string): string {
    if s == "" then ""
    else if s[0] != '\\' || |s| == 1 then [s[0]] + Unescaped(s[1..])
    else Decode(s[1]) + Unescaped(s[2..])
  }

  /** `unescapeDouble`, with its fast path. */
  method UnescapeDouble(s: string) returns (r: string)
    ensures r == Unescaped(s)
  {
    hide Unescaped, Decode;
    if '\\' !in s {
      NothingEscaped(s);
      return s;
    }
    r := "";
    var i := 0;
    assert s[0..] == s;
    while i < |s|
      invariant 0 <= i <= |s| && Unescaped(s) == r + Unescaped(s[i..])
    {
      UnescapedAt(s, i, r);
      if s[i] != '\\' || i + 1 >= |s| {
        r := r + [s[i]];
        i := i + 1;
        continue;
      }
      r := r + Decode(s[i + 1]);
      i := i + 2;
    }
    UnescapedEnd(s);
  }

  lemma UnescapedEnd(s: string)
    ensures s[|s|..] == "" && Unescaped("") == ""
  {
  }

  /** One turn of the loop. */
  lemma UnescapedAt(s: string, i: nat, r: string)
    requires i < |s|
    ensures r + Unescaped(s[i..]) ==
      if s[i] != '\\' || i + 1 == |s| then r + [s[i]] + Unescaped(s[i + 1..])
      else r + Decode(s[i + 1]) + Unescaped(s[i + 2..])
  {
    hide Decode;
    assert s[i..][1..] == s[i + 1..];
    if i + 1 < |s| {
      assert s[i..][1] == s[i + 1] && s[i..][2..] == s[i + 2..];
      assert r + (Decode(s[i + 1]) + Unescaped(s[i + 2..])) == r + Decode(s[i + 1]) + Unescaped(s[i + 2..]);
    }
    assert r + ([s[i]] + Unescaped(s[i + 1..])) == r + [s[i]] + Unescaped(s[i + 1..]);
  }

  lemma {:induction false} NothingEscaped(s: string)
    requires '\\' !in s
    ensures Unescaped(s) == s
  {
    if s != "" {
      NothingEscaped(s[1..]);
      assert [s[0]] + s[1..] == s;
    }
  }

  function Unquoted(s: string): string {
    if |s| < 2 then s
    else if s[0] == '\'' && s[|s| - 1] == '\'' then s[1..|s| - 1]
    else if s[0] == '"' && s[|s| - 1] == '"' then Unescaped(s[1..|s| - 1])
    else s
  }

  /** `unquote`. */
  method Unquote(s: string) returns (r: string)
    ensures r == Unquoted(s)
  {
    if |s| < 2 {
      return s;
    }
    if s[0] == '\'' && s[|s| - 1] == '\'' {
      return s[1..|s| - 1];
    }
    if s[0] == '"' && s[|s| - 1] == '"' {
      r := UnescapeDouble(s[1..|s| - 1]);
      return;
    }
    return s;
  }

  // ------------------------------------------------------------- writing strings

  function EscapeChar(c: char): string {
    match c
    case '\n' => "\\n"
    case '\t' => "\\t"
    case '\r' => "\\r"
    case '\\' => "\\\\"
    case '"' => "\\\""
    case _ => [c]
  }

  function Escape(v: string): string {
    if v == "" then "" else EscapeChar(v[0]) + Escape(v[1..])
  }

  /** A string as a double-quoted value. */
  function Quoted(v: string): string {
    "\"" + Escape(v) + "\""
  }

  lemma {:induction false} UnescapeEscape(v: string)
    ensures Unescaped(Escape(v)) == v
  {
    if v != "" {
      UnescapeEscape(v[1..]);
      UnescapeOne(v[0], Escape(v[1..]));
      assert [v[0]] + v[1..] == v;
    }
  }

  lemma UnescapeOne(c: char, rest: string)
    ensures Unescaped(EscapeChar(c) + rest) == [c] + Unescaped(rest)
  {
    var e := EscapeChar(c);
    if |e| == 2 {
      assert (e + rest)[2..] == rest;
    } else {
      assert (e + rest)[1..] == rest;
    }
  }

  /** A character between double quotes: as it is, or behind a backslash. */
  datatype Glyph = Itself(c: char) | Behind(c: char) {
    function Text(): string {
      if Itself? then [c] else ['\\', c]
    }

    /** A backslash before any other character stays. */
    function Meaning(): string {
      if Itself? then [c]
      else if c == 'n' then [10 as char]
      else if c == 't' then [9 as char]
      else if c == 'r' then [13 as char]
      else if c == '\\' || c == '"' || c == '\'' then [c]
      else ['\\', c]
    }
  }

  function GlyphText(glyphs: seq<Glyph>): string {
    if glyphs == [] then "" else glyphs[0].Text() + GlyphText(glyphs[1..])
  }

  function GlyphMeaning(glyphs: seq<Glyph>): string {
    if glyphs == [] then "" else glyphs[0].Meaning() + GlyphMeaning(glyphs[1..])
  }

  /** A backslash that is there as it is has nothing behind it. */
  predicate Spelled(glyphs: seq<Glyph>) {
    forall k :: 0 <= k < |glyphs| && glyphs[k] == Itself('\\') ==> k == |glyphs| - 1
  }

  /** Every text has such a spelling, and unescaping gives what it means. */
  lemma {:induction false} UnescapeExact(s: string) returns (glyphs: seq<Glyph>)
    ensures Spelled(glyphs) && GlyphText(glyphs) == s && Unescaped(s) == GlyphMeaning(glyphs)
    decreases |s|
  {
    if s == "" {
      glyphs := [];
    } else {
      var behind := s[0] == '\\' && |s| > 1;
      var g, n := if behind then Behind(s[1]) else Itself(s[0]), if behind then 2 else 1;
      var rest := UnescapeExact(s[n..]);
      glyphs := [g] + rest;
      assert glyphs[1..] == rest && s == s[..n] + s[n..] && g.Text() == s[..n];
      assert |s| == n ==> rest == [];
    }
  }

  /** Any string comes back from its quoted form. */
  lemma UnquoteQuoted(v: string)
    ensures Unquoted(Quoted(v)) == v && TrimSpace(Quoted(v)) == Quoted(v)
  {
    var s := Quoted(v);
    UnescapeEscape(v);
    assert s[1..|s| - 1] == Escape(v);
    TrimSpaceNone(s);
  }

  lemma {:induction false} EscapeOneLine(v: string)
    ensures '\n' !in Escape(v) && '\r' !in Escape(v)
  {
    if v != "" {
      EscapeOneLine(v[1..]);
    }
  }

  // ------------------------------------------------------ scans pass over quotes

  /** `w` stands at position `i` of `s`. */
  ghost predicate At(s: string, i: nat, w: string) {
    i + |w| <= |s| && forall k :: 0 <= k < |w| ==> s[i + k] == w[k]
  }

  lemma AtFits(s: string, i: nat, w: string)
    requires At(s, i, w)
    ensures i + |w| <= |s|
  {
  }

  lemma AtChar(s: string, i: nat, w: string, k: nat)
    requires At(s, i, w) && k < |w|
    ensures i + k < |s| && s[i + k] == w[k]
  {
  }

  lemma AtParts(s: string, i: nat, a: string, b: string)
    requires At(s, i, a + b)
    ensures At(s, i, a) && At(s, i + |a|, b)
  {
    forall k | 0 <= k < |a| ensures s[i + k] == a[k] {
      assert (a + b)[k] == a[k];
    }
    forall k | 0 <= k < |b| ensures s[i + |a| + k] == b[k] {
      assert (a + b)[|a| + k] == b[k];
    }
  }

  /** An escaped character inside double quotes. */
  lemma CommentEscape(s: string, i: nat, c: char)
    requires At(s, i, EscapeChar(c))
    ensures CommentFrom(s, i, Double) == CommentFrom(s, i + |EscapeChar(c)|, Double)
  {
    var e := EscapeChar(c);
    assert s[i + 0] == e[0];
    if |e| == 2 {
      assert s[i + 1] == e[1];
      assert CommentFrom(s, i + 1, Escaped) == CommentFrom(s, i + 2, Double);
    }
  }

  /** Inside double quotes an escaped string hides no comment. */
  lemma {:induction false} CommentInside(s: string, i: nat, v: string)
    requires At(s, i, Escape(v))
    ensures CommentFrom(s, i, Double) == CommentFrom(s, i + |Escape(v)|, Double)
    decreases |v|
  {
    hide CommentFrom, At, EscapeChar;
    AtFits(s, i, Escape(v));
    if v != "" {
      AtParts(s, i, EscapeChar(v[0]), Escape(v[1..]));
      AtFits(s, i + |EscapeChar(v[0])|, Escape(v[1..]));
      CommentEscape(s, i, v[0]);
      CommentInside(s, i + |EscapeChar(v[0])|, v[1..]);
    }
  }

  lemma CommentQuoted(s: string, i: nat, v: string)
    requires At(s, i, Quoted(v))
    ensures CommentFrom(s, i, Out) == CommentFrom(s, i + |Quoted(v)|, Out)
  {
    hide Escape;
    var e := Escape(v);
    AtParts(s, i, "\"" + e, "\"");
    AtParts(s, i, "\"", e);
    AtChar(s, i, "\"", 0);
    CommentInside(s, i + 1, v);
    AtChar(s, i + 1 + |e|, "\"", 0);
  }

  /** Outside quotes, what holds no quotes and no '#' behind a space is passed over. */
  lemma {:induction false} CommentPlain(s: string, i: nat, j: nat)
    requires i <= j <= |s| && forall k :: i <= k < j ==> s[k] != '"' && s[k] != '\''
    requires forall k :: i <= k < j && s[k] == '#' && k > 0 ==> s[k - 1] != ' '
    ensures CommentFrom(s, i, Out) == CommentFrom(s, j, Out)
    decreases j - i
  {
    if i < j {
      CommentPlain(s, i + 1, j);
    }
  }

  /** Inside single quotes everything is passed over. */
  lemma {:induction false} CommentSingle(s: string, i: nat, j: nat)
    requires i <= j <= |s| && forall k :: i <= k < j ==> s[k] != '\''
    ensures CommentFrom(s, i, Single) == CommentFrom(s, j, Single)
    decreases j - i
  {
    if i < j {
      CommentSingle(s, i + 1, j);
    }
  }

  /** Without a '#' there is no comment, whatever the quotes. */
  lemma {:induction false} CommentNone(s: string, i: nat, q: Quote)
    requires i <= |s| && forall k :: i <= k < |s| ==> s[k] != '#'
    ensures CommentFrom(s, i, q) == |s|
    decreases |s| - i
  {
    if i < |s| {
      CommentNone(s, i + 1, Step(q, s[i]));
    }
  }

  /** Where a comment starts does not depend on what comes before the text, except at its first character. */
  lemma {:induction false} CommentShift(a: string, s: string, i: nat, q: Quote)
    requires 0 < i <= |s|
    ensures CommentFrom(a + s, |a| + i, q) == |a| + CommentFrom(s, i, q)
    decreases |s| - i
  {
    if i < |s| {
      assert (a + s)[|a| + i] == s[i] && (a + s)[|a| + i - 1] == s[i - 1];
      CommentShift(a, s, i + 1, Step(q, s[i]));
    }
  }
}
