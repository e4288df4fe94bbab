/**
  How a byte stream falls into log lines (internal/logger/writer.go): at every
  newline, and with a newline put in where the cap is reached without one.
 */
module Splitter {
  import opened Sanitizer

  /** The cap on a line buffer. */
  const MAX_BUF: nat := 0x10_0000

  /** The lines so far and the bytes that wait for a newline. */
  datatype Split = Split(lines: seq<seq<byte>>, rest: seq<byte>)

  /** One byte more. */
  function FeedByte(s: Split, b: byte): Split {
    var buf := s.rest + [b];
    if b == NL then Split(s.lines + [buf], [])
    else if |buf| >= MAX_BUF then Split(s.lines + [buf + [NL]], [])
    else s.(rest := buf)
  }

  /** The byte-at-a-time splitter. */
  function Feed(s: Split, p: seq<byte>): Split
    decreases |p|
  {
    if p == [] then s else Feed(FeedByte(s, p[0]), p[1..])
  }

  function FeedAll(s: Split, chunks: seq<seq<byte>>): Split
    decreases |chunks|
  {
    if chunks == [] then s else FeedAll(Feed(s, chunks[0]), chunks[1..])
  }

  function Concat(chunks: seq<seq<byte>>): seq<byte> {
    if chunks == [] then [] else chunks[0] + Concat(chunks[1..])
  }

  lemma {:induction false} FeedAppend(s: Split, a: seq<byte>, b: seq<byte>)
    ensures Feed(s, a + b) == Feed(Feed(s, a), b)
    decreases |a|
  {
    if a == [] {
      assert a + b == b;
    } else {
      assert (a + b)[1..] == a[1..] + b;
      FeedAppend(FeedByte(s, a[0]), a[1..], b);
    }
  }

  /** How the stream was chunked makes no difference. */
  lemma {:induction false} ChunksIrrelevant(s: Split, chunks: seq<seq<byte>>)
    ensures FeedAll(s, chunks) == Feed(s, Concat(chunks))
    decreases |chunks|
  {
    if chunks != [] {
      FeedAppend(s, chunks[0], Concat(chunks[1..]));
      ChunksIrrelevant(Feed(s, chunks[0]), chunks[1..]);
    }
  }

  /** Earlier lines play no part. */
  lemma {:induction false} FeedAfter(lines: seq<seq<byte>>, rest: seq<byte>, p: seq<byte>)
    ensures var r := Feed(Split([], rest), p); Feed(Split(lines, rest), p) == Split(lines + r.lines, r.rest)
    decreases |p|
  {
    if p == [] {
      assert lines + [] == lines;
    } else {
      var one := FeedByte(Split([], rest), p[0]);
      assert FeedByte(Split(lines, rest), p[0]) == Split(lines + one.lines, one.rest) by {
        assert lines + [] == lines;
        assert [] + [rest + [p[0]]] == [rest + [p[0]]];
        assert [] + [rest + [p[0]] + [NL]] == [rest + [p[0]] + [NL]];
      }
      FeedAfter(lines + one.lines, one.rest, p[1..]);
      FeedAfter(one.lines, one.rest, p[1..]);
      var r := Feed(Split([], one.rest), p[1..]);
      Assoc(lines, one.lines, r.lines);
    }
  }

  /** Bytes without a newline that leave the buffer below the cap. */
  lemma {:induction false} FeedShort(lines: seq<seq<byte>>, buf: seq<byte>, q: seq<byte>)
    requires NL !in q && |buf| + |q| < MAX_BUF
    ensures Feed(Split(lines, buf), q) == Split(lines, buf + q)
    decreases |q|
  {
    if q == [] {
      assert buf + q == buf;
    } else {
      assert buf + [q[0]] + q[1..] == buf + q;
      FeedShort(lines, buf + [q[0]], q[1..]);
    }
  }

  /** Bytes that end with the newline they were waiting for, or that reach the cap. */
  lemma FeedLine(lines: seq<seq<byte>>, buf: seq<byte>, q: seq<byte>)
    requires q != [] && NL !in q[..|q| - 1] && |buf| + |q| <= MAX_BUF
    requires q[|q| - 1] == NL || |buf| + |q| == MAX_BUF
    ensures Feed(Split(lines, buf), q) == Split(lines + [if q[|q| - 1] == NL then buf + q else buf + q + [NL]], [])
  {
    hide Feed;
    var k := |q| - 1;
    assert q == q[..k] + [q[k]];
    FeedAppend(Split(lines, buf), q[..k], [q[k]]);
    FeedShort(lines, buf, q[..k]);
    FeedOne(Split(lines, buf + q[..k]), q[k]);
    assert buf + q[..k] + [q[k]] == buf + q;
  }

  lemma FeedOne(s: Split, b: byte)
    ensures Feed(s, [b]) == FeedByte(s, b)
  {
    assert [b][1..] == [];
  }

  // ------------------------------------------------- what the splitter amounts to

  /** A line: one newline, at the end; longer than the cap only by the newline that was put in. */
  ghost predicate IsLine(l: seq<byte>) {
    0 < |l| <= MAX_BUF + 1 && l[|l| - 1] == NL && NL !in l[..|l| - 1]
  }

  /** The bytes of a line that came from the stream. */
  function Raw(l: seq<byte>): seq<byte> {
    if |l| > MAX_BUF then l[..MAX_BUF] else l
  }

  function Unsplit(lines: seq<seq<byte>>): seq<byte> {
    if lines == [] then [] else Unsplit(lines[..|lines| - 1]) + Raw(lines[|lines| - 1])
  }

  ghost predicate Leftover(rest: seq<byte>) {
    |rest| < MAX_BUF && NL !in rest
  }

  /** A cut of `p` into lines and a leftover, given without saying how it is found. */
  ghost predicate IsSplit(s: Split, p: seq<byte>) {
    && (forall k :: 0 <= k < |s.lines| ==> IsLine(s.lines[k]))
    && Leftover(s.rest) && Unsplit(s.lines) + s.rest == p
  }

  lemma UnsplitAppend(lines: seq<seq<byte>>, l: seq<byte>)
    ensures Unsplit(lines + [l]) == Unsplit(lines) + Raw(l)
  {
    assert (lines + [l])[..|lines|] == lines;
  }

  lemma FeedByteSplits(s: Split, p: seq<byte>, b: byte)
    requires IsSplit(s, p)
    ensures IsSplit(FeedByte(s, b), p + [b])
  {
    var buf := s.rest + [b];
    var t := FeedByte(s, b);
    assert buf[..|buf| - 1] == s.rest;
    if b == NL {
      UnsplitAppend(s.lines, buf);
      Assoc(Unsplit(s.lines), s.rest, [b]);
      assert Unsplit(t.lines) + [] == Unsplit(t.lines);
    } else if |buf| >= MAX_BUF {
      var l := buf + [NL];
      assert l[..|l| - 1] == buf && Raw(l) == buf;
      UnsplitAppend(s.lines, l);
      Assoc(Unsplit(s.lines), s.rest, [b]);
      assert Unsplit(t.lines) + [] == Unsplit(t.lines);
    } else {
      Assoc(Unsplit(s.lines), s.rest, [b]);
    }
  }

  lemma {:induction false} FeedSplits(s: Split, p: seq<byte>, q: seq<byte>)
    requires IsSplit(s, p)
    ensures IsSplit(Feed(s, q), p + q)
    decreases |q|
  {
    if q == [] {
      assert p + q == p;
    } else {
      FeedByteSplits(s, p, q[0]);
      FeedSplits(FeedByte(s, q[0]), p + [q[0]], q[1..]);
      assert p + [q[0]] + q[1..] == p + q;
    }
  }

  lemma {:induction false} FeedUnsplit(lines: seq<seq<byte>>)
    requires forall k :: 0 <= k < |lines| ==> IsLine(lines[k])
    ensures Feed(Split([], []), Unsplit(lines)) == Split(lines, [])
    decreases |lines|
  {
    if lines != [] {
      var k := |lines| - 1;
      var l := lines[k];
      FeedUnsplit(lines[..k]);
      FeedAppend(Split([], []), Unsplit(lines[..k]), Raw(l));
      RawLine(lines[..k], l);
      assert lines[..k] + [l] == lines;
    }
  }

  lemma RawLine(lines: seq<seq<byte>>, l: seq<byte>)
    requires IsLine(l)
    ensures Feed(Split(lines, []), Raw(l)) == Split(lines + [l], [])
  {
    var q := Raw(l);
    if |l| > MAX_BUF {
      assert q == l[..|l| - 1] && q + [NL] == l;
      assert q[|q| - 1] in q;
    }
    assert [] + q == q;
    assert forall i :: 0 <= i < |q| - 1 ==> q[i] == l[i];
    assert NL !in q[..|q| - 1];
    FeedLine(lines, [], q);
  }

  /** The splitter finds the one cut there is. */
  lemma FeedIsTheSplit(s: Split, p: seq<byte>)
    ensures IsSplit(s, p) <==> s == Feed(Split([], []), p)
  {
    assert IsSplit(Split([], []), []);
    FeedSplits(Split([], []), [], p);
    assert [] + p == p;
    if IsSplit(s, p) {
      FeedUnsplit(s.lines);
      FeedAppend(Split([], []), Unsplit(s.lines), s.rest);
      FeedShort(s.lines, [], s.rest);
      assert [] + s.rest == s.rest;
    }
  }
}
