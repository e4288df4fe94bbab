/**
  The escape-sequence stripper of internal/logger/target.go. Control sequences
  are those of section 5.4 of ECMA-48; the colour form keeps SGR sequences
  (parameters of digits, ';' and ':' and the final byte 'm').
 */
module Sanitizer {

  newtype byte = x: int | 0 <= x < 0x100

  const ESC: byte := 0x1b
  const BEL: byte := 0x07
  const NL: byte := 0x0a
  const TAB: byte := 0x09
  const FINAL_M: byte := 0x6d

  /** Copied unless it is part of an escape sequence. */
  predicate Plain(b: byte) {
    b >= 0x20 || b == NL || b == TAB
  }

  predicate IsParam(b: byte) {
    0x30 <= b <= 0x39 || b == 0x3b || b == 0x3a
  }

  // ------------------------------------------------------------ what a sequence is

  datatype Extent = Extent(n: nat, sgr: bool)

  /** A CSI sequence from position `i` on; `sgr` while only colour parameters were seen. */
  function CsiExtent(p: seq<byte>, i: nat, sgr: bool): (e: Extent)
    requires 2 <= i <= |p|
    ensures i <= e.n <= |p|
    decreases |p| - i
  {
    if i == |p| then Extent(|p|, false)
    else if 0x40 <= p[i] <= 0x7e then Extent(i + 1, sgr && p[i] == FINAL_M)
    else if IsParam(p[i]) then CsiExtent(p, i + 1, sgr)
    else if p[i] < 0x20 then Extent(i, false)
    else CsiExtent(p, i + 1, false)
  }

  /** An OSC string, ended by BEL or ESC \. */
  function OscExtent(p: seq<byte>, i: nat): (n: nat)
    requires 2 <= i <= |p|
    ensures i <= n <= |p|
    decreases |p| - i
  {
    if i == |p| then |p|
    else if p[i] == BEL then i + 1
    else if p[i] == ESC then (if i + 1 < |p| && p[i + 1] == 0x5c then i + 2 else i)
    else if p[i] < 0x20 && p[i] != TAB then i
    else OscExtent(p, i + 1)
  }

  function SkipIntermediates(p: seq<byte>, i: nat): (n: nat)
    requires 1 <= i <= |p|
    ensures i <= n <= |p|
    decreases |p| - i
  {
    if i < |p| && 0x20 <= p[i] <= 0x2f then SkipIntermediates(p, i + 1) else i
  }

  /** A two-character escape, with intermediates. */
  function EscExtent(p: seq<byte>): (n: nat)
    requires 2 <= |p|
    ensures 1 <= n <= |p|
  {
    var i := SkipIntermediates(p, 1);
    if i < |p| && 0x30 <= p[i] <= 0x7e then i + 1 else i
  }

  /** The sequence that the ESC at the front of `p` opens. */
  function SeqExtent(p: seq<byte>): (e: Extent)
    requires p != []
    ensures 1 <= e.n <= |p|
  {
    if |p| < 2 then Extent(|p|, false)
    else if p[1] == 0x5b then CsiExtent(p, 2, true)
    else if p[1] == 0x5d then Extent(OscExtent(p, 2), false)
    else Extent(EscExtent(p), false)
  }

  /** The result of sanitizing, byte by byte from the front. */
  function Clean(p: seq<byte>, keepSGR: bool): seq<byte>
    decreases |p|
  {
    if p == [] then []
    else if Plain(p[0]) then [p[0]] + Clean(p[1..], keepSGR)
    else if p[0] == ESC then
      var e := SeqExtent(p);
      if keepSGR && e.sgr then p[..e.n] + Clean(p[e.n..], keepSGR) else Clean(p[e.n..], keepSGR)
    else Clean(p[1..], keepSGR)
  }

  // ----------------------------------------------------------------- the loops

  /** `ansiSeqLen`. */
  method AnsiSeqLen(p: seq<byte>) returns (n: nat, sgr: bool)
    requires p != []
    ensures Extent(n, sgr) == SeqExtent(p)
  {
    if |p| < 2 {
      return |p|, false;
    }
    if p[1] == 0x5b {
      sgr := true;
      var i := 2;
      while i < |p|
        invariant 2 <= i <= |p| && CsiExtent(p, 2, true) == CsiExtent(p, i, sgr)
      {
        var b := p[i];
        if 0x40 <= b <= 0x7e {
          return i + 1, sgr && b == FINAL_M;
        } else if IsParam(b) {
        } else if b < 0x20 {
          return i, false;
        } else {
          sgr := false;
        }
        i := i + 1;
      }
      return |p|, false;
    } else if p[1] == 0x5d {
      var i := 2;
      while i < |p|
        invariant 2 <= i <= |p| && OscExtent(p, 2) == OscExtent(p, i)
      {
        var b := p[i];
        if b == BEL {
          return i + 1, false;
        } else if b == ESC {
          if i + 1 < |p| && p[i + 1] == 0x5c {
            return i + 2, false;
          }
          return i, false;
        } else if b < 0x20 && b != TAB {
          return i, false;
        }
        i := i + 1;
      }
      return |p|, false;
    } else {
      var i := 1;
      while i < |p| && 0x20 <= p[i] <= 0x2f
        invariant 1 <= i <= |p| && SkipIntermediates(p, 1) == SkipIntermediates(p, i)
      {
        i := i + 1;
      }
      if i < |p| && 0x30 <= p[i] <= 0x7e {
        i := i + 1;
      }
      return i, false;
    }
  }

  /** `sanitizeSeq`, with its fast path for input that holds nothing to remove. */
  method SanitizeSeq(p: seq<byte>, keepSGR: bool) returns (out: seq<byte>)
    ensures out == Clean(p, keepSGR)
  {
    hide *;
    var firstBad := 0;
    while firstBad < |p| && Plain(p[firstBad])
      invariant firstBad <= |p| && forall i :: 0 <= i < firstBad ==> Plain(p[i])
    {
      firstBad := firstBad + 1;
    }
    PlainPrefix(p, firstBad, keepSGR);
    CleanEmpty(keepSGR);
    if firstBad == |p| {
      assert p[..|p|] == p && p[|p|..] == [];
      return p;
    }
    out := p[..firstBad];
    var i := firstBad;
    while i < |p|
      invariant firstBad <= i <= |p|
      invariant Clean(p, keepSGR) == out + Clean(p[i..], keepSGR)
    {
      var b := p[i];
      CleanAt(p, i, keepSGR);
      if Plain(b) {
        Assoc(out, [b], Clean(p[i + 1..], keepSGR));
        out := out + [b];
        i := i + 1;
      } else if b == ESC {
        var n, sgr := AnsiSeqLen(p[i..]);
        if keepSGR && sgr {
          Assoc(out, p[i..i + n], Clean(p[i + n..], keepSGR));
          out := out + p[i..i + n];
        }
        i := i + n;
      } else {
        i := i + 1;
      }
    }
    assert p[i..] == [];
  }

  lemma Assoc<T>(a: seq<T>, b: seq<T>, c: seq<T>)
    ensures a + (b + c) == (a + b) + c
  {
  }

  lemma CleanEmpty(keepSGR: bool)
    ensures Clean([], keepSGR) == []
  {
  }

  /** One turn of the loop. */
  lemma CleanAt(p: seq<byte>, i: nat, keepSGR: bool)
    requires i < |p|
    ensures var e := SeqExtent(p[i..]);
      && 0 < e.n && i + e.n <= |p|
      && Clean(p[i..], keepSGR) ==
         if Plain(p[i]) then [p[i]] + Clean(p[i + 1..], keepSGR)
         else if p[i] != ESC then Clean(p[i + 1..], keepSGR)
         else if keepSGR && e.sgr then p[i..i + e.n] + Clean(p[i + e.n..], keepSGR)
         else Clean(p[i + e.n..], keepSGR)
  {
    var e := SeqExtent(p[i..]);
    assert p[i..][..e.n] == p[i..i + e.n] && p[i..][e.n..] == p[i + e.n..] && p[i..][1..] == p[i + 1..];
  }

  /** Plain bytes up front are copied. */
  lemma {:induction false} PlainPrefix(p: seq<byte>, k: nat, keepSGR: bool)
    requires k <= |p| && forall i :: 0 <= i < k ==> Plain(p[i])
    ensures Clean(p, keepSGR) == p[..k] + Clean(p[k..], keepSGR)
    decreases k
  {
    if k > 0 {
      PlainPrefix(p[1..], k - 1, keepSGR);
      assert p[1..][k - 1..] == p[k..];
      assert p[..k] == [p[0]] + p[1..][..k - 1];
    } else {
      assert p[0..] == p;
    }
  }

  // ------------------------------------------------------------- cleaning twice

  /** A complete colour sequence is one whatever follows it. */
  lemma {:induction false} CsiPrefix(p: seq<byte>, i: nat, sgr: bool, y: seq<byte>)
    requires 2 <= i <= |p| && CsiExtent(p, i, sgr).sgr
    ensures var n := CsiExtent(p, i, sgr).n; i < n && CsiExtent(p[..n] + y, i, sgr) == Extent(n, true)
    decreases |p| - i
  {
    var n := CsiExtent(p, i, sgr).n;
    assert i < |p|;
    if 0x40 <= p[i] <= 0x7e {
      assert (p[..n] + y)[i] == p[i];
    } else {
      assert IsParam(p[i]) || p[i] >= 0x20;
      CsiPrefix(p, i + 1, sgr && IsParam(p[i]), y);
      assert (p[..n] + y)[i] == p[i];
    }
  }

  /** What a colour sequence looks like, and that it is read again as itself. */
  lemma SgrAgain(p: seq<byte>, y: seq<byte>)
    requires p != [] && p[0] == ESC && SeqExtent(p).sgr
    ensures var n := SeqExtent(p).n;
      var q := p[..n] + y; n > 2 && q[0] == ESC && SeqExtent(q) == Extent(n, true) && q[..n] == p[..n] && q[n..] == y
  {
    CsiPrefix(p, 2, true, y);
    var n := SeqExtent(p).n;
    var q := p[..n] + y;
    assert q[0] == p[0] && q[1] == p[1];
  }

  lemma CleanSgr(p: seq<byte>, y: seq<byte>, keepSGR: bool)
    requires p != [] && p[0] == ESC && SeqExtent(p).sgr
    ensures Clean(p[..SeqExtent(p).n] + y, keepSGR) 
      == if keepSGR then p[..SeqExtent(p).n] + Clean(y, keepSGR) else Clean(y, keepSGR)
  {
    SgrAgain(p, y);
  }

  lemma CleanPlain(b: byte, y: seq<byte>, keepSGR: bool)
    requires Plain(b)
    ensures Clean([b] + y, keepSGR) == [b] + Clean(y, keepSGR)
  {
    assert ([b] + y)[1..] == y;
  }

  /**
    Cleaning the colour form again changes nothing, and stripping the colours
    afterwards is stripping them at once.
   */
  lemma {:induction false} CleanTwice(p: seq<byte>, keepSGR: bool)
    ensures Clean(Clean(p, true), keepSGR) == Clean(p, keepSGR)
    decreases |p|
  {
    if p == [] {
    } else if Plain(p[0]) {
      CleanTwice(p[1..], keepSGR);
      CleanPlain(p[0], Clean(p[1..], true), keepSGR);
    } else if p[0] == ESC {
      var e := SeqExtent(p);
      CleanTwice(p[e.n..], keepSGR);
      if e.sgr {
        CleanSgr(p, Clean(p[e.n..], true), keepSGR);
      }
    } else {
      CleanTwice(p[1..], keepSGR);
    }
  }

  // ------------------------------------------------------------------ what is left

  /** The only control bytes are newline and tab and, if allowed, an ESC that opens a complete colour sequence. */
  ghost predicate Harmless(p: seq<byte>, colours: bool) {
    forall i :: 0 <= i < |p| && !Plain(p[i]) ==> colours && p[i] == ESC && SeqExtent(p[i..]).sgr
  }

  lemma HarmlessPlain(b: byte, y: seq<byte>, colours: bool)
    requires Plain(b) && Harmless(y, colours)
    ensures Harmless([b] + y, colours)
  {
    var q := [b] + y;
    forall i | 0 <= i < |q| && !Plain(q[i]) ensures colours && q[i] == ESC && SeqExtent(q[i..]).sgr {
      assert q[i..] == y[i - 1..] && q[i] == y[i - 1];
    }
  }

  /** Inside a colour sequence everything is plain. */
  lemma {:induction false} CsiBytes(p: seq<byte>, i: nat, sgr: bool, k: nat)
    requires 2 <= i <= |p| && CsiExtent(p, i, sgr).sgr && i <= k < CsiExtent(p, i, sgr).n
    ensures p[k] >= 0x20
    decreases |p| - i
  {
    if !(0x40 <= p[i] <= 0x7e) && k > i {
      CsiBytes(p, i + 1, sgr && IsParam(p[i]), k);
    }
  }

  lemma HarmlessSgr(p: seq<byte>, y: seq<byte>)
    requires p != [] && p[0] == ESC && SeqExtent(p).sgr && Harmless(y, true)
    ensures Harmless(p[..SeqExtent(p).n] + y, true)
  {
    var n := SeqExtent(p).n;
    var q := p[..n] + y;
    SgrAgain(p, y);
    forall i | 0 <= i < |q| && !Plain(q[i]) ensures q[i] == ESC && SeqExtent(q[i..]).sgr {
      if i == 0 {
        assert q[0..] == q;
      } else if i >= n {
        assert q[i..] == y[i - n..] && q[i] == y[i - n];
      } else {
        assert q[1] == 0x5b && i >= 2;
        CsiBytes(p, 2, true, i);
        assert false;
      }
    }
  }

  lemma {:induction false} CleanHarmless(p: seq<byte>, keepSGR: bool)
    ensures Harmless(Clean(p, keepSGR), keepSGR)
    decreases |p|
  {
    if p == [] {
    } else if Plain(p[0]) {
      CleanHarmless(p[1..], keepSGR);
      HarmlessPlain(p[0], Clean(p[1..], keepSGR), keepSGR);
    } else if p[0] == ESC {
      var e := SeqExtent(p);
      CleanHarmless(p[e.n..], keepSGR);
      if keepSGR && e.sgr {
        HarmlessSgr(p, Clean(p[e.n..], keepSGR));
      }
    } else {
      CleanHarmless(p[1..], keepSGR);
    }
  }

  // --------------------------------------------------------------------- line by line

  /** A newline ends every sequence before it just as the end of the input does. */
  lemma {:induction false} CsiAtNewline(a: seq<byte>, y: seq<byte>, i: nat, sgr: bool)
    requires 2 <= i <= |a|
    ensures CsiExtent(a + [NL] + y, i, sgr) == CsiExtent(a, i, sgr)
    decreases |a| - i
  {
    var p := a + [NL] + y;
    if i < |a| {
      assert p[i] == a[i];
      if !(0x40 <= a[i] <= 0x7e) && a[i] >= 0x20 {
        CsiAtNewline(a, y, i + 1, sgr && IsParam(a[i]));
      }
    } else {
      assert p[i] == NL;
    }
  }

  lemma {:induction false} OscAtNewline(a: seq<byte>, y: seq<byte>, i: nat)
    requires 2 <= i <= |a|
    ensures OscExtent(a + [NL] + y, i) == OscExtent(a, i)
    decreases |a| - i
  {
    var p := a + [NL] + y;
    if i < |a| {
      assert p[i] == a[i];
      assert i + 1 < |a| ==> p[i + 1] == a[i + 1];
      assert i + 1 == |a| ==> p[i + 1] == NL;
      OscAtNewline(a, y, i + 1);
    } else {
      assert p[i] == NL;
    }
  }

  lemma {:induction false} EscAtNewline(a: seq<byte>, y: seq<byte>, i: nat)
    requires 1 <= i <= |a|
    ensures SkipIntermediates(a + [NL] + y, i) == SkipIntermediates(a, i)
    decreases |a| - i
  {
    var p := a + [NL] + y;
    if i < |a| {
      assert p[i] == a[i];
      EscAtNewline(a, y, i + 1);
    } else {
      assert p[i] == NL;
    }
  }

  lemma SeqAtNewline(a: seq<byte>, y: seq<byte>)
    requires a != []
    ensures SeqExtent(a + [NL] + y) == SeqExtent(a)
  {
    var p := a + [NL] + y;
    if |a| == 1 {
      assert p[1] == NL;
    } else {
      assert p[1] == a[1];
      CsiAtNewline(a, y, 2, true);
      OscAtNewline(a, y, 2);
      EscAtNewline(a, y, 1);
      var i := SkipIntermediates(a, 1);
      assert if i < |a| then p[i] == a[i] else p[i] == NL;
    }
  }

  /** Lines are cleaned one by one: every newline of the input is kept, and none is added. */
  lemma {:induction false} CleanLines(a: seq<byte>, y: seq<byte>, keepSGR: bool)
    ensures Clean(a + [NL] + y, keepSGR) == Clean(a, keepSGR) + [NL] + Clean(y, keepSGR)
    decreases |a|
  {
    var p := a + [NL] + y;
    if a == [] {
      assert p == [NL] + y;
      CleanPlain(NL, y, keepSGR);
    } else if a[0] == ESC {
      var n := SeqExtent(a).n;
      SeqAtNewline(a, y);
      assert p[n..] == a[n..] + [NL] + y && p[..n] == a[..n];
      CleanLines(a[n..], y, keepSGR);
    } else {
      assert p[1..] == a[1..] + [NL] + y;
      CleanLines(a[1..], y, keepSGR);
    }
  }

  lemma {:induction false} CleanNoNewline(p: seq<byte>, keepSGR: bool)
    requires NL !in p
    ensures NL !in Clean(p, keepSGR)
    decreases |p|
  {
    if p != [] {
      if p[0] == ESC {
        CleanNoNewline(p[SeqExtent(p).n..], keepSGR);
      } else {
        CleanNoNewline(p[1..], keepSGR);
      }
    }
  }

  function Newlines(p: seq<byte>): nat {
    if p == [] then 0 else (if p[0] == NL then 1 else 0) + Newlines(p[1..])
  }

  lemma {:induction false} NewlinesAppend(a: seq<byte>, b: seq<byte>)
    ensures Newlines(a + b) == Newlines(a) + Newlines(b)
  {
    if a == [] {
      assert a + b == b;
    } else {
      assert (a + b)[1..] == a[1..] + b;
      NewlinesAppend(a[1..], b);
    }
  }

  lemma {:induction false} NoNewlines(p: seq<byte>)
    requires NL !in p
    ensures Newlines(p) == 0
  {
    if p != [] {
      NoNewlines(p[1..]);
    }
  }

  /** The number of lines does not change. */
  lemma {:induction false} NewlinesKept(p: seq<byte>, keepSGR: bool)
    ensures Newlines(Clean(p, keepSGR)) == Newlines(p)
    decreases |p|
  {
    if NL in p {
      var i :| 0 <= i < |p| && p[i] == NL;
      var a, y := p[..i], p[i + 1..];
      assert p == a + [NL] + y;
      CleanLines(a, y, keepSGR);
      NewlinesKept(a, keepSGR);
      NewlinesKept(y, keepSGR);
      NewlinesAppend(a + [NL], y);
      NewlinesAppend(a, [NL]);
      NewlinesAppend(Clean(a, keepSGR) + [NL], Clean(y, keepSGR));
      NewlinesAppend(Clean(a, keepSGR), [NL]);
    } else {
      CleanNoNewline(p, keepSGR);
      NoNewlines(p);
      NoNewlines(Clean(p, keepSGR));
    }
  }

  /** Nothing but control bytes and escape sequences is removed: harmless text is left alone. */
  lemma {:induction false} CleanKeeps(p: seq<byte>, colours: bool)
    requires Harmless(p, colours)
    ensures Clean(p, colours) == p
    decreases |p|
  {
    if p != [] {
      if Plain(p[0]) {
        HarmlessFrom(p, 1, colours);
        CleanKeeps(p[1..], colours);
      } else {
        assert p[0..] == p;
        var n := SeqExtent(p).n;
        HarmlessFrom(p, n, colours);
        CleanKeeps(p[n..], colours);
        assert p[..n] + p[n..] == p;
      }
    }
  }

  lemma HarmlessFrom(p: seq<byte>, n: nat, colours: bool)
    requires Harmless(p, colours) && n <= |p|
    ensures Harmless(p[n..], colours)
  {
    forall i | 0 <= i < |p[n..]| && !Plain(p[n..][i])
      ensures colours && p[n..][i] == ESC && SeqExtent(p[n..][i..]).sgr
    {
      assert p[n..][i..] == p[n + i..];
    }
  }
}
