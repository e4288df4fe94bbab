/**
  `PrefixWriter` (internal/logger/writer.go): splitting, prefixing, additional
  targets, the history ring and the fan-out to subscribers. A prefix depends on
  the clock, so it is an arbitrary function of the number of the line. What
  becomes of a line that is sent to a subscriber is in Slots.dfy and Follow.dfy.
 */
module LineWriter {
  import opened Sanitizer
  import opened Splitter
  import Slots

  const RING_SIZE: nat := 200

  /** What a writer has put out: its leftover, the lines sent to each writer, and those put into the ring. */
  datatype Output = Output(
    buf: seq<byte>,
    dest: seq<seq<byte>>,
    extra: seq<seq<seq<byte>>>,
    history: seq<seq<byte>>)

  /** One more line, with its prefix: to the destination and every target, and cleaned into the ring. */
  function EmitLine(prefix: nat -> seq<byte>, o: Output, line: seq<byte>): Output {
    var prefixed := prefix(|o.dest|) + line;
    o.(dest := o.dest + [prefixed], extra := SendAll(o.extra, prefixed), history := o.history + [Clean(prefixed, true)])
  }

  function SendAll(extra: seq<seq<seq<byte>>>, line: seq<byte>): seq<seq<seq<byte>>> {
    seq(|extra|, k requires 0 <= k < |extra| => extra[k] + [line])
  }

  function EmitLines(prefix: nat -> seq<byte>, o: Output, lines: seq<seq<byte>>): Output {
    if lines == [] then o else EmitLine(prefix, EmitLines(prefix, o, lines[..|lines| - 1]), lines[|lines| - 1])
  }

  /** What a write amounts to: the lines that feeding its bytes one at a time completes, and the new leftover. */
  function AfterWrite(prefix: nat -> seq<byte>, o: Output, p: seq<byte>): Output {
    var r := Feed(Split([], o.buf), p);
    EmitLines(prefix, o, r.lines).(buf := r.rest)
  }

  function AfterWrites(prefix: nat -> seq<byte>, o: Output, chunks: seq<seq<byte>>): Output
    decreases |chunks|
  {
    if chunks == [] then o else AfterWrites(prefix, AfterWrite(prefix, o, chunks[0]), chunks[1..])
  }

  /** The fan-out of one line. */
  function OfferAll(subs: seq<Slots.Sub>, line: seq<byte>): seq<Slots.Sub> {
    seq(|subs|, k requires 0 <= k < |subs| => if subs[k].bufIdx < |subs[k].bufs| then subs[k].Offer(line) else subs[k])
  }

  function OfferLines(subs: seq<Slots.Sub>, lines: seq<seq<byte>>): seq<Slots.Sub> {
    if lines == [] then subs else OfferAll(OfferLines(subs, lines[..|lines| - 1]), lines[|lines| - 1])
  }

  // --------------------------------------------------------------- lines and prefixes

  /** Lines with the prefixes numbered from `n`. */
  function Stamped(prefix: nat -> seq<byte>, n: nat, lines: seq<seq<byte>>): seq<seq<byte>> {
    seq(|lines|, k requires 0 <= k < |lines| => prefix(n + k) + lines[k])
  }

  function Cleaned(lines: seq<seq<byte>>): seq<seq<byte>> {
    seq(|lines|, k requires 0 <= k < |lines| => Clean(lines[k], true))
  }

  function Last<T>(s: seq<T>, n: nat): seq<T> {
    if |s| <= n then s else s[|s| - n..]
  }

  /** Everyone gets the same lines, in order: as they are, or cleaned in the history. */
  lemma {:induction false} EmitLinesIs(prefix: nat -> seq<byte>, o: Output, lines: seq<seq<byte>>)
    ensures var sent := Stamped(prefix, |o.dest|, lines); var o' := EmitLines(prefix, o, lines);
      && o'.buf == o.buf && o'.dest == o.dest + sent && o'.history == o.history + Cleaned(sent)
      && |o'.extra| == |o.extra| && forall k :: 0 <= k < |o.extra| ==> o'.extra[k] == o.extra[k] + sent
    decreases |lines|
  {
    hide Clean;
    var sent := Stamped(prefix, |o.dest|, lines);
    if lines == [] {
      assert sent == [] && Cleaned(sent) == [];
      assert o.dest + [] == o.dest && o.history + [] == o.history;
      assert forall k :: 0 <= k < |o.extra| ==> o.extra[k] + [] == o.extra[k];
    } else {
      var n := |lines| - 1;
      EmitLinesIs(prefix, o, lines[..n]);
      var before := Stamped(prefix, |o.dest|, lines[..n]);
      var last := prefix(|o.dest| + n) + lines[n];
      assert sent == before + [last];
      assert Cleaned(sent) == Cleaned(before) + [Clean(last, true)];
      Assoc(o.dest, before, [last]);
      Assoc(o.history, Cleaned(before), [Clean(last, true)]);
      forall k | 0 <= k < |o.extra| ensures o.extra[k] + sent == o.extra[k] + before + [last] {
        Assoc(o.extra[k], before, [last]);
      }
    }
  }

  lemma {:induction false} EmitAppend(prefix: nat -> seq<byte>, o: Output, a: seq<seq<byte>>, b: seq<seq<byte>>)
    ensures EmitLines(prefix, EmitLines(prefix, o, a), b) == EmitLines(prefix, o, a + b)
    decreases |b|
  {
    hide EmitLine;
    if b == [] {
      assert a + b == a;
    } else {
      var n := |b| - 1;
      EmitAppend(prefix, o, a, b[..n]);
      assert (a + b)[..|a + b| - 1] == a + b[..n];
    }
  }

  /** Putting out lines does not look at the leftover. */
  lemma {:induction false} EmitBuf(prefix: nat -> seq<byte>, o: Output, buf: seq<byte>, lines: seq<seq<byte>>)
    ensures EmitLines(prefix, o.(buf := buf), lines) == EmitLines(prefix, o, lines).(buf := buf)
    decreases |lines|
  {
    hide Clean;
    if lines != [] {
      EmitBuf(prefix, o, buf, lines[..|lines| - 1]);
    }
  }

  lemma EmitOne(prefix: nat -> seq<byte>, o: Output, lines: seq<seq<byte>>, line: seq<byte>)
    ensures EmitLines(prefix, o, lines + [line]) == EmitLine(prefix, EmitLines(prefix, o, lines), line)
  {
    assert (lines + [line])[..|lines|] == lines;
  }

  lemma OfferOne(subs: seq<Slots.Sub>, lines: seq<seq<byte>>, line: seq<byte>)
    ensures OfferLines(subs, lines + [line]) == OfferAll(OfferLines(subs, lines), line)
  {
    assert (lines + [line])[..|lines|] == lines;
  }

  lemma TwoWrites(prefix: nat -> seq<byte>, o: Output, p: seq<byte>, q: seq<byte>)
    ensures AfterWrite(prefix, AfterWrite(prefix, o, p), q) == AfterWrite(prefix, o, p + q)
  {
    hide Feed, EmitLines;
    var first := Feed(Split([], o.buf), p);
    var second := Feed(Split([], first.rest), q);
    FeedAppend(Split([], o.buf), p, q);
    FeedAfter(first.lines, first.rest, q);
    EmitBuf(prefix, EmitLines(prefix, o, first.lines), first.rest, second.lines);
    EmitAppend(prefix, o, first.lines, second.lines);
  }

  /** A sequence of writes puts out what one write of all the bytes would. */
  lemma {:induction false} WritesConcat(prefix: nat -> seq<byte>, o: Output, chunks: seq<seq<byte>>)
    ensures AfterWrites(prefix, o, chunks) == AfterWrite(prefix, o, Concat(chunks))
    decreases |chunks|
  {
    if chunks == [] {
      assert Feed(Split([], o.buf), []) == Split([], o.buf);
    } else {
      hide AfterWrite;
      WritesConcat(prefix, AfterWrite(prefix, o, chunks[0]), chunks[1..]);
      TwoWrites(prefix, o, chunks[0], Concat(chunks[1..]));
    }
  }

  /** A line of the history is one line still, if the prefix is within one. */
  lemma HistoryLine(stamp: seq<byte>, line: seq<byte>)
    requires NL !in stamp && IsLine(line)
    ensures var h := Clean(stamp + line, true);
      h != [] && h[|h| - 1] == NL && NL !in h[..|h| - 1] && Harmless(h, true)
  {
    hide Clean, Harmless;
    var k := |line| - 1;
    var body := stamp + line[..k];
    assert stamp + line == body + [NL] + [];
    CleanLines(body, [], true);
    CleanEmpty(true);
    CleanNoNewline(body, true);
    CleanHarmless(stamp + line, true);
    assert Clean(body, true) + [NL] + [] == Clean(body, true) + [NL];
    assert (Clean(body, true) + [NL])[..|Clean(body, true)|] == Clean(body, true);
  }

  // ------------------------------------------------------------------------ the writer

  class PrefixWriter {
    const prefix: nat -> seq<byte>
    var buf: seq<byte>
    var dest: seq<seq<byte>>
    var extra: seq<seq<seq<byte>>>
    var subs: seq<Slots.Sub>
    const ring: array<seq<byte>>
    var ringPos: nat
    var ringFull: bool
    ghost var history: seq<seq<byte>>

    /** The leftover is short of the cap and holds no newline; the ring holds the end of the history. */
    ghost predicate Valid()
      reads this, ring
    {
      Leftover(buf) && RingHolds() && SubsReady()
    }

    /** Slots before `ringPos` are from this lap, the others from the lap before. */
    ghost predicate RingHolds()
      reads this`history, this`ringPos, this`ringFull, ring
    {
      && ring.Length == RING_SIZE && ringPos < RING_SIZE && ringPos <= |history|
      && (ringFull <==> |history| >= RING_SIZE)
      && (!ringFull ==> |history| == ringPos)
      && (forall i :: 0 <= i < ringPos ==> ring[i] == history[|history| - ringPos + i])
      && (ringFull ==> forall i :: ringPos <= i < RING_SIZE ==> ring[i] == history[|history| - ringPos - RING_SIZE + i])
    }

    /** Every subscription has its ring of slots. */
    ghost predicate SubsReady()
      reads this`subs
    {
      forall k :: 0 <= k < |subs| ==> |subs[k].bufs| == Slots.RING && subs[k].bufIdx < Slots.RING
    }

    ghost function Out(): Output
      reads this
    {
      Output(buf, dest, extra, history)
    }

    constructor (prefix: nat -> seq<byte>)
      ensures Valid() && fresh(ring) && this.prefix == prefix && Out() == Output([], [], [], []) && subs == []
    {
      this.prefix := prefix;
      buf, dest, extra, subs, ringPos, ringFull, history := [], [], [], [], 0, false, [];
      ring := new seq<byte>[RING_SIZE](_ => []);
    }

    method AddTarget()
      requires Valid()
      modifies this`extra
      ensures Valid() && Out() == old(Out()).(extra := old(extra) + [[]])
    {
      extra := extra + [[]];
    }

    method ClearTargets()
      requires Valid()
      modifies this`extra
      ensures Valid() && Out() == old(Out()).(extra := [])
    {
      extra := [];
    }

    /** A subscription starts with nothing sent to it. */
    method Subscribe() returns (k: nat)
      requires Valid()
      modifies this`subs
      ensures Valid() && k == |old(subs)| && |subs| == k + 1 && subs[..k] == old(subs)
      ensures subs[k].bufIdx == 0 && subs[k].out == []
    {
      k := |subs|;
      subs := subs + [Slots.NewSub()];
    }

    /** The line goes to the destination and to every target. */
    method Send(prefixed: seq<byte>)
      modifies this`dest, this`extra
      ensures dest == old(dest) + [prefixed] && extra == SendAll(old(extra), prefixed)
    {
      dest := dest + [prefixed];
      for k := 0 to |extra|
        invariant dest == old(dest) + [prefixed] && |extra| == |old(extra)|
        invariant forall j :: 0 <= j < |extra| ==>
          extra[j] == if j < k then old(extra)[j] + [prefixed] else old(extra)[j]
      {
        extra := extra[k := extra[k] + [prefixed]];
      }
    }

    /** The line goes into the next slot of the ring. */
    method Store(clean: seq<byte>)
      requires RingHolds()
      modifies this`ringPos, this`ringFull, this`history, ring
      ensures RingHolds() && history == old(history) + [clean]
    {
      ring[ringPos] := clean;
      history := history + [clean];
      ringPos := ringPos + 1;
      if ringPos >= RING_SIZE {
        ringPos := 0;
        ringFull := true;
      }
    }

    /** The line is offered to every subscriber. */
    method FanOut(clean: seq<byte>)
      requires SubsReady()
      modifies this`subs
      ensures SubsReady() && subs == OfferAll(old(subs), clean)
    {
      for k := 0 to |subs|
        invariant SubsReady() && |subs| == |old(subs)|
        invariant forall j :: 0 <= j < |subs| ==> subs[j] == if j < k then old(subs)[j].Offer(clean) else old(subs)[j]
      {
        subs := subs[k := subs[k].Offer(clean)];
      }
    }

    /** One complete line. */
    method Emit(line: seq<byte>)
      requires RingHolds() && SubsReady()
      modifies this`dest, this`extra, this`subs, this`ringPos, this`ringFull, this`history, ring
      ensures RingHolds() && SubsReady() && Out() == EmitLine(prefix, old(Out()), line)
      ensures subs == OfferAll(old(subs), Clean(prefix(|old(dest)|) + line, true))
    {
      hide Clean, RingHolds, SubsReady, OfferAll, SendAll;
      var prefixed := prefix(|dest|) + line;
      Send(prefixed);
      var clean := SanitizeSeq(prefixed, true);
      Store(clean);
      FanOut(clean);
    }

    /** `Write`: the same as feeding the bytes one at a time, however they are chunked. */
    method Write(p: seq<byte>) returns (n: nat)
      requires Valid()
      modifies this`buf, this`dest, this`extra, this`subs, this`ringPos, this`ringFull, this`history, ring
      ensures Valid() && n == |p|
      ensures Out() == AfterWrite(prefix, old(Out()), p)
      ensures |old(history)| <= |history| && subs == OfferLines(old(subs), history[|old(history)|..])
    {
      hide *;
      n := |p|;
      var q := p;
      ghost var lines: seq<seq<byte>> := [];
      ValidParts();
      OutIs();
      Untouched(prefix, Out(), subs);
      assert history[|history|..] == [];
      while |q| > 0
        invariant Leftover(buf) && RingHolds() && SubsReady()
        invariant Feed(Split([], old(buf)), p) == Feed(Split(lines, buf), q)
        invariant Output(buf, dest, extra, history) == EmitLines(prefix, old(Out()), lines).(buf := buf)
        invariant |old(history)| <= |history| && subs == OfferLines(old(subs), history[|old(history)|..])
        decreases |q|
      {
        LeftoverRoom(buf);
        var room := MAX_BUF - |buf|;
        if room <= 0 {
          assert false;
        }
        var take := if room < |q| then room else |q|;
        var nl := IndexByte(q[..take], NL);
        if nl < take {
          take := nl + 1;
        }
        ChunkFeeds(lines, buf, q, take);
        buf := buf + q[..take];
        q := q[take..];
        if |buf| >= MAX_BUF && NL !in buf {
          buf := buf + [NL];
        }
        ghost var line, before := buf, history;
        OutIs();
        Drained(prefix, old(Out()), lines, Out(), buf);
        Drain();
        OutIs();
        if NL in line {
          OfferOne(old(subs), before[|old(history)|..], history[|before|]);
          assert history[|old(history)|..] == before[|old(history)|..] + [history[|before|]];
          lines := lines + [line];
        }
      }
      FedUp(lines, buf);
      ValidParts();
      AfterWriteIs(prefix, old(Out()), p);
      OutIs();
    }

    lemma OutIs()
      ensures Out() == Output(buf, dest, extra, history)
    {
    }

    lemma ValidParts()
      ensures Valid() <==> Leftover(buf) && RingHolds() && SubsReady()
    {
    }

    /** The loop that sends off complete lines; here there is at most one. */
    method Drain()
      requires RingHolds() && SubsReady() && EndsOnly(buf)
      modifies this`buf, this`dest, this`extra, this`subs, this`ringPos, this`ringFull, this`history, ring
      ensures RingHolds() && SubsReady()
      ensures NL !in old(buf) ==> Out() == old(Out()) && subs == old(subs)
      ensures NL in old(buf) ==> Out() == EmitLine(prefix, old(Out()), old(buf)).(buf := [])
      ensures NL in old(buf) ==>
        |history| == |old(history)| + 1 && history[..|old(history)|] == old(history)
        && subs == OfferAll(old(subs), history[|old(history)|])
    {
      hide Clean, RingHolds, SubsReady, OfferAll;
      var idx := IndexByte(buf, NL);
      while idx < |buf|
        invariant RingHolds() && SubsReady()
        invariant 0 <= idx <= |buf| && NL !in buf[..idx] && (idx < |buf| ==> buf[idx] == NL)
        invariant || (Out() == old(Out()) && subs == old(subs))
                  || (NL in old(buf) && Out() == EmitLine(prefix, old(Out()), old(buf)).(buf := [])
                      && subs == OfferAll(old(subs), Clean(prefix(|old(dest)|) + old(buf), true)))
        decreases |buf|
      {
        assert buf[idx] in buf && idx == |buf| - 1;
        var line := buf[..idx + 1];
        assert line == buf;
        buf := buf[idx + 1..];
        Emit(line);
        idx := IndexByte(buf, NL);
      }
      assert buf[..idx] == buf;
    }

    /** `Recent`: the last lines of the history, oldest first. */
    method Recent() returns (out: seq<seq<byte>>)
      requires Valid()
      ensures out == Last(history, RING_SIZE)
    {
      out := [];
      if !ringFull {
        for i := 0 to ringPos
          invariant out == ring[..i]
        {
          out := out + [ring[i]];
        }
        assert out == history;
        return;
      }
      for i := ringPos to RING_SIZE
        invariant out == ring[ringPos..i]
      {
        out := out + [ring[i]];
      }
      for i := 0 to ringPos
        invariant out == ring[ringPos..RING_SIZE] + ring[..i]
      {
        out := out + [ring[i]];
      }
      assert out == Last(history, RING_SIZE);
    }

    /** `Flush`: the leftover goes out without a newline, and not into the ring. */
    method Flush()
      requires Valid()
      modifies this`buf, this`dest, this`extra
      ensures Valid() && history == old(history)
      ensures Out() ==
        if old(buf) == [] then old(Out())
        else var prefixed := prefix(|old(dest)|) + old(buf);
             Output([], old(dest) + [prefixed], SendAll(old(extra), prefixed), old(history))
    {
      if |buf| > 0 {
        Send(prefix(|dest|) + buf);
        buf := [];
      }
    }
  }

  lemma AfterWriteIs(prefix: nat -> seq<byte>, o: Output, p: seq<byte>)
    ensures var r := Feed(Split([], o.buf), p);
      AfterWrite(prefix, o, p) == EmitLines(prefix, o, r.lines).(buf := r.rest)
  {
  }

  lemma Untouched(prefix: nat -> seq<byte>, o: Output, subs: seq<Slots.Sub>)
    ensures EmitLines(prefix, o, []) == o && OfferLines(subs, []) == subs
  {
  }

  /** What the drain loop adds when the buffer holds a line. */
  lemma Drained(prefix: nat -> seq<byte>, o: Output, lines: seq<seq<byte>>, now: Output, line: seq<byte>)
    requires now == EmitLines(prefix, o, lines).(buf := now.buf)
    ensures EmitLine(prefix, now, line).(buf := []) == EmitLines(prefix, o, lines + [line]).(buf := [])
  {
    hide EmitLines;
    EmitOne(prefix, o, lines, line);
  }

  /** A newline is last, if there is one. */
  ghost predicate EndsOnly(buf: seq<byte>) {
    forall i :: 0 <= i < |buf| && buf[i] == NL ==> i == |buf| - 1
  }

  lemma LeftoverRoom(buf: seq<byte>)
    requires Leftover(buf)
    ensures |buf| < MAX_BUF
  {
  }

  lemma FedUp(lines: seq<seq<byte>>, buf: seq<byte>)
    ensures Feed(Split(lines, buf), []) == Split(lines, buf)
  {
  }

  /** What one turn of the loop in `Write` does to the splitter. */
  lemma ChunkFeeds(lines: seq<seq<byte>>, buf: seq<byte>, q: seq<byte>, take: nat)
    requires Leftover(buf) && 0 < take <= |q| && |buf| + take <= MAX_BUF && NL !in q[..take - 1]
    requires q[take - 1] == NL || |buf| + take == MAX_BUF || take == |q|
    ensures var full := buf + q[..take];
      var line := if |full| >= MAX_BUF && NL !in full then full + [NL] else full;
      && EndsOnly(line)
      && Feed(Split(lines, buf), q) ==
           (if NL in line then Feed(Split(lines + [line], []), q[take..]) else Feed(Split(lines, line), q[take..]))
      && Leftover(if NL in line then [] else line)
  {
    hide Feed, Clean;
    var c := q[..take];
    var full := buf + c;
    assert c[..take - 1] == q[..take - 1] && c[take - 1] == q[take - 1];
    assert q == c + q[take..];
    FeedAppend(Split(lines, buf), c, q[take..]);
    if c[take - 1] == NL {
      assert full[|full| - 1] == NL;
      FeedLine(lines, buf, c);
    } else {
      assert NL !in c by {
        assert c == c[..take - 1] + [c[take - 1]];
      }
      if |buf| + take == MAX_BUF {
        FeedLine(lines, buf, c);
        assert (full + [NL])[|full|] == NL;
      } else {
        FeedShort(lines, buf, c);
      }
    }
  }

  /** `bytes.IndexByte`, with the length for "not found". */
  method IndexByte(s: seq<byte>, b: byte) returns (k: nat)
    ensures k <= |s| && b !in s[..k] && (k < |s| ==> s[k] == b)
  {
    k := 0;
    while k < |s| && s[k] != b
      invariant k <= |s| && b !in s[..k]
    {
      k := k + 1;
    }
  }
}
