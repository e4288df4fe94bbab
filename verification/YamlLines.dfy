/**
  From the text of a file to its significant lines (`Parse` and `splitLines` in
  internal/yml/parser.go). Indentation follows section 6.1 of YAML 1.2.2, literal
  blocks sections 8.1.1.2 and 8.1.2.
 */
module YamlLines {
  import opened Wrappers
  import opened Text
  import opened YamlText

  datatype Kind =
    | TabIndent | FoldedScalar | BadIndicator
    | TooDeep | NoColon | DuplicateKey | BadInlineEntry | BadIndent

  /** What is wrong, and on which line. */
  datatype Fault = Fault(kind: Kind, line: nat)

  /** A significant line; `num` counts the lines of the file from 1. */
  datatype Line = Line(text: string, indent: nat, num: nat, literal: Option<string>)

  // -------------------------------------------------------------- line endings

  function WithoutBom(data: string): string {
    if HasPrefix(data, [0xFEFF as char]) then data[1..] else data
  }

  /** Carriage returns, alone or before a newline, become newlines. */
  function Normalised(data: string): string
    decreases |data|
  {
    if data == "" then ""
    else if data[0] != '\r' then [data[0]] + Normalised(data[1..])
    else if |data| > 1 && data[1] == '\n' then "\n" + Normalised(data[2..])
    else "\n" + Normalised(data[1..])
  }

  method NormaliseLineEndings(data: string) returns (out: string)
    ensures out == Normalised(data)
  {
    hide Normalised;
    if '\r' !in data {
      NothingToNormalise(data);
      return data;
    }
    out := "";
    var i := 0;
    assert data[0..] == data;
    while i < |data|
      invariant 0 <= i <= |data| && Normalised(data) == out + Normalised(data[i..])
    {
      NormalisedAt(data, i, out);
      if data[i] == '\r' {
        out := out + "\n";
        if i + 1 < |data| && data[i + 1] == '\n' {
          i := i + 1;
        }
        i := i + 1;
        continue;
      }
      out := out + [data[i]];
      i := i + 1;
    }
    NormalisedEnd(data);
  }

  lemma NormalisedEnd(data: string)
    ensures data[|data|..] == "" && Normalised("") == ""
  {
  }

  /** One turn of the loop. */
  lemma NormalisedAt(data: string, i: nat, out: string)
    requires i < |data|
    ensures out + Normalised(data[i..]) ==
      if data[i] != '\r' then out + [data[i]] + Normalised(data[i + 1..])
      else if i + 1 < |data| && data[i + 1] == '\n' then out + "\n" + Normalised(data[i + 2..])
      else out + "\n" + Normalised(data[i + 1..])
  {
    assert data[i..][1..] == data[i + 1..];
    if i + 1 < |data| {
      assert data[i..][1] == data[i + 1] && data[i..][2..] == data[i + 2..];
    }
  }

  lemma {:induction false} NothingToNormalise(data: string)
    requires '\r' !in data
    ensures Normalised(data) == data
  {
    if data != "" {
      NothingToNormalise(data[1..]);
      assert [data[0]] + data[1..] == data;
    }
  }

  /** The lines of a file; a final newline ends the last one. */
  function RawLines(data: string): (raw: seq<string>) {
    var raw := Split(data, '\n');
    if raw[|raw| - 1] == "" then raw[..|raw| - 1] else raw
  }

  // ------------------------------------------------------------ one line at a time

  function Trimmed(line: string): string {
    TrimRight(line, " \t\r")
  }

  predicate IsBlank(line: string) {
    Trimmed(line) == "" || TrimSpace(Trimmed(line)) == ""
  }

  predicate IsComment(line: string) {
    HasPrefix(TrimSpace(Trimmed(line)), "#")
  }

  function Content(line: string): string {
    Uncommented(TrimSpace(Trimmed(line)))
  }

  predicate IsItem(text: string) {
    HasPrefix(text, "- ")
  }

  function WithoutMarkers(s: string): string
    decreases |s|
  {
    if IsItem(s) then WithoutMarkers(s[2..]) else s
  }

  /** `blockIndicator`: what stands where a block scalar would start. */
  function Indicator(content: string): Option<string> {
    var s := WithoutMarkers(content);
    var k := Colon(s);
    var v := if k < |s| then TrimSpace(s[k + 1..]) else s;
    if v == "" || (v[0] != '|' && v[0] != '>') then None else Some(v)
  }

  method BlockIndicator(content: string) returns (ind: Option<string>)
    ensures ind == Indicator(content)
  {
    var s := content;
    while HasPrefix(s, "- ")
      invariant WithoutMarkers(content) == WithoutMarkers(s)
      decreases |s|
    {
      s := s[2..];
    }
    var idx := FindColon(s);
    if idx < |s| {
      s := TrimSpace(s[idx + 1..]);
    }
    if s == "" || (s[0] != '|' && s[0] != '>') {
      return None;
    }
    return Some(s);
  }

  // ---------------------------------------------------------------- literal blocks

  datatype Body = Body(lines: seq<string>, next: nat)

  /** The body of a literal block from line `i` on; `block` is its indentation, if known. */
  function BodyFrom(raw: seq<string>, i: nat, head: nat, block: Option<nat>): (b: Body)
    requires i <= |raw|
    ensures i <= b.next <= |raw|
    decreases |raw| - i
  {
    if i == |raw| then Body([], i)
    else if TrimSpace(raw[i]) == "" then
      var b := BodyFrom(raw, i + 1, head, block);
      Body([""] + b.lines, b.next)
    else
      var indent := Indent(raw[i]);
      if (block.None? && indent <= head) || (block.Some? && indent < block.value) then Body([], i)
      else
        var depth := if block.Some? then block.value else indent;
        var b := BodyFrom(raw, i + 1, head, Some(depth));
        Body([raw[i][depth..]] + b.lines, b.next)
  }

  /** Clip, strip or keep the line breaks at the end. */
  function Chomped(body: seq<string>, indicator: string): string {
    var text := Join(body, '\n');
    if indicator == "|-" then TrimRight(text, "\n")
    else if indicator == "|+" then (if |body| > 0 then text + "\n" else text)
    else
      var stripped := TrimRight(text, "\n");
      if stripped != "" then stripped + "\n" else stripped
  }

  /** Every line with a newline behind it. */
  function Terminated(body: seq<string>): string {
    if body == [] then "" else body[0] + "\n" + Terminated(body[1..])
  }

  lemma {:induction false} JoinTerminated(body: seq<string>)
    requires body != []
    ensures Join(body, '\n') + "\n" == Terminated(body)
  {
    if |body| == 1 {
      assert body[1..] == [] && Terminated(body[1..]) == "";
    } else {
      JoinTerminated(body[1..]);
      assert body[0] + ['\n'] + Join(body[1..], '\n') + "\n" == body[0] + "\n" + (Join(body[1..], '\n') + "\n");
    }
  }

  lemma {:induction false} TrimmedNewlines(s: string)
    ensures forall k :: |TrimRight(s, "\n")| <= k < |s| ==> s[k] == '\n'
  {
    if s != "" && s[|s| - 1] == '\n' {
      TrimmedNewlines(s[..|s| - 1]);
    }
  }

  /**
    The chompings of section 8.1.1.2 of YAML 1.2.2. Keep ends every line of the
    body. Strip is that without the newlines at its end. Clip is strip with one
    newline, unless nothing is left.
   */
  lemma Chomping(body: seq<string>)
    ensures Chomped(body, "|+") == Terminated(body)
    ensures var strip := Chomped(body, "|-");
      && strip <= Terminated(body) && (strip != "" ==> strip[|strip| - 1] != '\n')
      && (forall k :: |strip| <= k < |Terminated(body)| ==> Terminated(body)[k] == '\n')
      && Chomped(body, "|") == if strip == "" then "" else strip + "\n"
  {
    var text := Join(body, '\n');
    TrimmedNewlines(text);
    if body != [] {
      JoinTerminated(body);
      assert Terminated(body) == text + "\n";
    }
  }

  lemma KeepIs(body: seq<string>)
    requires body != []
    ensures Chomped(body, "|+") == Join(body, '\n') + "\n"
  {
    hide Join, TrimRight;
  }

  lemma StripIs(body: seq<string>)
    requires var text := Join(body, '\n'); text != "" && text[|text| - 1] != '\n'
    ensures Chomped(body, "|-") == Join(body, '\n')
  {
    hide Join;
  }

  /** Any text has a block that stands for it: kept if it ends with a newline, stripped if it does not. */
  lemma BlockFor(text: string)
    requires text != ""
    ensures text[|text| - 1] == '\n' ==> Chomped(Split(text[..|text| - 1], '\n'), "|+") == text
    ensures text[|text| - 1] != '\n' ==> Chomped(Split(text, '\n'), "|-") == text
  {
    hide Split, Join, Chomped;
    var last := |text| - 1;
    JoinSplit(text[..last], '\n');
    KeepIs(Split(text[..last], '\n'));
    assert text[..last] + [text[last]] == text;
    JoinSplit(text, '\n');
    if text[last] != '\n' {
      StripIs(Split(text, '\n'));
    }
  }

  /** The text of a literal block and the number of the line behind it. */
  function Literal(raw: seq<string>, start: nat, head: nat, indicator: string): (r: Result<(string, nat), Kind>)
    requires start <= |raw|
    ensures r.Ok? ==> start <= r.value.1 <= |raw|
  {
    if indicator in ["|", "|-", "|+"] then
      var b := BodyFrom(raw, start, head, None);
      Ok((Chomped(b.lines, indicator), b.next))
    else if indicator in [">", ">-", ">+"] then Err(FoldedScalar)
    else Err(BadIndicator)
  }

  /** `collectLiteralBlock`. */
  method CollectLiteralBlock(raw: seq<string>, start: nat, headerIndent: nat, indicator: string)
    returns (r: Result<(string, nat), Kind>)
    requires start <= |raw|
    ensures r == Literal(raw, start, headerIndent, indicator)
  {
    if indicator !in ["|", "|-", "|+"] {
      if indicator in [">", ">-", ">+"] {
        return Err(FoldedScalar);
      }
      return Err(BadIndicator);
    }
    var body, i := CollectBody(raw, start, headerIndent);
    var text := Join(body, '\n');
    if indicator == "|-" {
      text := TrimRight(text, "\n");
    } else if indicator == "|+" {
      if |body| > 0 {
        text := text + "\n";
      }
    } else {
      text := TrimRight(text, "\n");
      if text != "" {
        text := text + "\n";
      }
    }
    return Ok((text, i));
  }

  method CollectBody(raw: seq<string>, start: nat, headerIndent: nat) returns (body: seq<string>, i: nat)
    requires start <= |raw|
    ensures Body(body, i) == BodyFrom(raw, start, headerIndent, None)
  {
    hide TrimSpace, Indent;
    var blockIndent: Option<nat> := None;
    body, i := [], start;
    while i < |raw|
      invariant start <= i <= |raw|
      invariant var b := BodyFrom(raw, i, headerIndent, blockIndent);
        BodyFrom(raw, start, headerIndent, None) == Body(body + b.lines, b.next)
    {
      var line := raw[i];
      if TrimSpace(line) == "" {
        body := body + [""];
        i := i + 1;
        continue;
      }
      var indent := Indent(line);
      if blockIndent.None? {
        if indent <= headerIndent {
          break;
        }
        blockIndent := Some(indent);
      } else if indent < blockIndent.value {
        break;
      }
      body := body + [line[blockIndent.value..]];
      i := i + 1;
    }
  }

  // ------------------------------------------------------------------------ all lines

  /** The significant lines from line `i` on. */
  function LinesFrom(raw: seq<string>, i: nat): (r: Result<seq<Line>, Fault>)
    requires i <= |raw|
    decreases |raw| - i
  {
    if i == |raw| then Ok([])
    else if IsBlank(raw[i]) then LinesFrom(raw, i + 1)
    else if raw[i][0] == '\t' then Err(Fault(TabIndent, i + 1))
    else if IsComment(raw[i]) then LinesFrom(raw, i + 1)
    else
      var content, indent := Content(raw[i]), Indent(Trimmed(raw[i]));
      var ind := Indicator(content);
      if ind.None? then Cons(Line(content, indent, i + 1, None), LinesFrom(raw, i + 1))
      else
        match Literal(raw, i + 1, indent, ind.value)
        case Err(kind) => Err(Fault(kind, i + 1))
        case Ok((text, next)) => Cons(Line(content, indent, i + 1, Some(text)), LinesFrom(raw, next))
  }

  function Cons(l: Line, rest: Result<seq<Line>, Fault>): Result<seq<Line>, Fault> {
    if rest.Ok? then Ok([l] + rest.value) else rest
  }

  function Prepend(lines: seq<Line>, rest: Result<seq<Line>, Fault>): Result<seq<Line>, Fault> {
    if rest.Ok? then Ok(lines + rest.value) else rest
  }

  lemma PrependCons(lines: seq<Line>, l: Line, rest: Result<seq<Line>, Fault>)
    ensures Prepend(lines, Cons(l, rest)) == Prepend(lines + [l], rest)
  {
    if rest.Ok? {
      assert lines + ([l] + rest.value) == lines + [l] + rest.value;
    }
  }

  /** `splitLines`. */
  method SplitLines(data: string) returns (r: Result<seq<Line>, Fault>)
    ensures r == LinesFrom(RawLines(data), 0)
  {
    hide TrimSpace, TrimRight, Indicator, Literal, Uncommented, Indent, Content;
    hide Prepend, Cons, Split, HasPrefix, Trimmed;
    var raw := Split(data, '\n');
    if |raw| > 0 && raw[|raw| - 1] == "" {
      raw := raw[..|raw| - 1];
    }
    var lines, i := [], 0;
    PrependNone(LinesFrom(raw, 0));
    while i < |raw|
      invariant 0 <= i <= |raw| && LinesFrom(raw, 0) == Prepend(lines, LinesFrom(raw, i))
    {
      var num := i + 1;
      var trimmed := Trimmed(raw[i]);
      if trimmed == "" || TrimSpace(trimmed) == "" {
        i := i + 1;
        continue;
      }
      NotEmpty(raw[i]);
      if raw[i][0] == '\t' {
        PrependErr(lines, Fault(TabIndent, num));
        return Err(Fault(TabIndent, num));
      }
      var content := TrimSpace(trimmed);
      if HasPrefix(content, "#") {
        i := i + 1;
        continue;
      }
      content := StripInlineComment(content);
      ContentIs(raw[i]);
      var indent := Indent(trimmed);
      var line := Line(content, indent, num, None);
      var ind := BlockIndicator(content);
      if ind.Some? {
        var literal := CollectLiteralBlock(raw, i + 1, indent, ind.value);
        if literal.Err? {
          PrependErr(lines, Fault(literal.error, num));
          return Err(Fault(literal.error, num));
        }
        line := line.(literal := Some(literal.value.0));
        PrependCons(lines, line, LinesFrom(raw, literal.value.1));
        i := literal.value.1 - 1;
      } else {
        PrependCons(lines, line, LinesFrom(raw, i + 1));
      }
      lines := lines + [line];
      i := i + 1;
    }
    PrependOk(lines);
    return Ok(lines);
  }

  lemma NotEmpty(line: string)
    requires Trimmed(line) != ""
    ensures line != ""
  {
  }

  lemma ContentIs(line: string)
    ensures Content(line) == Uncommented(TrimSpace(Trimmed(line)))
  {
  }

  lemma PrependNone(r: Result<seq<Line>, Fault>)
    ensures Prepend([], r) == r
  {
    if r.Ok? {
      assert [] + r.value == r.value;
    }
  }

  lemma PrependOk(lines: seq<Line>)
    ensures Prepend(lines, Ok([])) == Ok(lines)
  {
    assert lines + [] == lines;
  }

  lemma PrependErr(lines: seq<Line>, e: Fault)
    ensures Prepend(lines, Err(e)) == Err(e)
  {
  }

  // --------------------------------------------------------------- no line is lost

  ghost predicate IsSignificant(line: string) {
    !IsBlank(line) && !IsComment(line)
  }

  /** The number of the first line behind `l` and its literal block. */
  ghost function EndOf(raw: seq<string>, l: Line): nat {
    if l.literal.Some? && l.num <= |raw| then BodyFrom(raw, l.num, l.indent, None).next else l.num
  }

  /** `l` stands for the line of its number. */
  ghost predicate HeadOf(raw: seq<string>, l: Line) {
    && 1 <= l.num <= |raw| && IsSignificant(raw[l.num - 1])
    && l.text == Content(raw[l.num - 1]) && l.indent == Indent(Trimmed(raw[l.num - 1]))
  }

  /**
    From line `i` on: the lines kept stand for significant lines, in file order
    and without overlap, and every significant line is one of them or part of
    the literal block of one.
   */
  ghost predicate Accounted(raw: seq<string>, i: nat, lines: seq<Line>) {
    && (forall k :: 0 <= k < |lines| ==> HeadOf(raw, lines[k]) && i < lines[k].num)
    && (forall j, k :: 0 <= j < k < |lines| ==> EndOf(raw, lines[j]) < lines[k].num)
    && (forall n :: i <= n < |raw| && IsSignificant(raw[n]) ==> Placed(raw, lines, n))
  }

  ghost predicate Placed(raw: seq<string>, lines: seq<Line>, n: nat) {
    exists k :: 0 <= k < |lines| && lines[k].num <= n + 1 <= EndOf(raw, lines[k])
  }

  lemma AccountedCons(raw: seq<string>, i: nat, l: Line, rest: seq<Line>)
    requires i < |raw| && l.num == i + 1 && HeadOf(raw, l) && Accounted(raw, EndOf(raw, l), rest)
    ensures Accounted(raw, i, [l] + rest)
  {
    hide HeadOf, IsSignificant, BodyFrom;
    var lines := [l] + rest;
    EndsBehind(raw, l);
    forall k | 0 <= k < |lines| ensures HeadOf(raw, lines[k]) && i < lines[k].num {
      if k > 0 {
        assert lines[k] == rest[k - 1];
      }
    }
    forall j, k | 0 <= j < k < |lines| ensures EndOf(raw, lines[j]) < lines[k].num {
      assert lines[k] == rest[k - 1];
      if j > 0 {
        assert lines[j] == rest[j - 1];
      }
    }
    forall n | i <= n < |raw| && IsSignificant(raw[n]) ensures Placed(raw, lines, n) {
      if n < EndOf(raw, l) {
        assert lines[0].num <= n + 1 <= EndOf(raw, lines[0]);
      } else {
        assert Placed(raw, rest, n);
        var k :| 0 <= k < |rest| && rest[k].num <= n + 1 <= EndOf(raw, rest[k]);
        assert lines[k + 1] == rest[k];
      }
    }
  }

  lemma EndsBehind(raw: seq<string>, l: Line)
    ensures EndOf(raw, l) >= l.num
  {
  }

  /** The line has a literal block exactly if one is announced, by an indicator that is supported. */
  predicate Supported(l: Line) {
    match Indicator(l.text)
    case None => l.literal.None?
    case Some(indicator) => l.literal.Some? && indicator in ["|", "|-", "|+"]
  }

  lemma {:induction false} LinesSupported(raw: seq<string>, i: nat, l: Line)
    requires i <= |raw| && LinesFrom(raw, i).Ok? && l in LinesFrom(raw, i).value
    ensures Supported(l)
    decreases |raw| - i
  {
    hide Content, TrimSpace, TrimRight, Trimmed, Indicator, BodyFrom, Indent, IsBlank, IsComment, Chomped;
    if i < |raw| {
      if !IsSignificant(raw[i]) {
        LinesSupported(raw, i + 1, l);
      } else if l != LinesFrom(raw, i).value[0] {
        var ind := Indicator(Content(raw[i]));
        var next := if ind.None? then i + 1 else Literal(raw, i + 1, Indent(Trimmed(raw[i])), ind.value).value.1;
        assert LinesFrom(raw, i).value == [LinesFrom(raw, i).value[0]] + LinesFrom(raw, next).value;
        LinesSupported(raw, next, l);
      }
    }
  }

  /** No significant line is lost when a file is split. */
  lemma {:induction false} LinesAccounted(raw: seq<string>, i: nat)
    requires i <= |raw| && LinesFrom(raw, i).Ok?
    ensures Accounted(raw, i, LinesFrom(raw, i).value)
    decreases |raw| - i
  {
    hide Content, TrimSpace, TrimRight, Trimmed, Indicator, BodyFrom, Indent, Accounted, IsBlank, IsComment, Chomped;
    if i == |raw| {
      AccountedNone(raw);
    } else if !IsSignificant(raw[i]) {
      LinesAccounted(raw, i + 1);
      AccountedSkip(raw, i, LinesFrom(raw, i).value);
    } else {
      var l := LinesFrom(raw, i).value[0];
      var next := EndOf(raw, l);
      LinesAccounted(raw, next);
      AccountedCons(raw, i, l, LinesFrom(raw, next).value);
    }
  }

  lemma AccountedNone(raw: seq<string>)
    ensures Accounted(raw, |raw|, [])
  {
  }

  lemma AccountedSkip(raw: seq<string>, i: nat, lines: seq<Line>)
    requires i < |raw| && !IsSignificant(raw[i]) && Accounted(raw, i + 1, lines)
    ensures Accounted(raw, i, lines)
  {
  }
}
