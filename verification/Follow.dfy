/**
  Following a log: the writers of LineWriter.dfy and the slots of Slots.dfy put
  together. A writer that has been given bytes puts out the lines they complete
  one by one; each goes into its history and is offered to the follower, and in
  between the pipes and the handler can take their steps.
 */
module Follow {
  import opened Sanitizer
  import opened Slots
  import opened LineWriter

  /**
    One of the followed writers. `out` is what the bytes written so far amount
    to, and `emitted` the number of lines of its history put out yet; the
    follower came when there were `since`, and `kept` says of each line from
    there on whether there was room for it.
   */
  datatype Source = Source(prefix: nat -> seq<byte>, out: Output, emitted: nat, since: nat, kept: seq<bool>)

  datatype Sys = Sys(sources: seq<Source>, slots: State)

  datatype Event =
    | Bytes(k: nat, p: seq<byte>)
    | Emits(k: nat)
    | Passes(step: Step)

  /** The lines that were kept. */
  function Chosen(lines: seq<Line>, kept: seq<bool>): seq<Line> {
    if lines == [] || kept == [] then []
    else (if kept[0] then [lines[0]] else []) + Chosen(lines[1..], kept[1..])
  }

  /** The follower subscribes to writers that are between writes. */
  ghost predicate Starts(y: Sys) {
    && Slots.Init(y.slots) && |y.sources| == |y.slots.subs|
    && forall k :: 0 <= k < |y.sources| ==>
         y.sources[k].emitted == y.sources[k].since == |y.sources[k].out.history| && y.sources[k].kept == []
  }

  ghost predicate Happens(y: Sys, e: Event, y': Sys) {
    Shape(y.slots) && |y.sources| == |y.slots.subs| &&
    match e
    case Bytes(k, p) =>
      && k < |y.sources| && y.sources[k].emitted == |y.sources[k].out.history|
      && y' == y.(sources := y.sources[k := y.sources[k].(out := AfterWrite(y.sources[k].prefix, y.sources[k].out, p))])
    case Emits(k) =>
      && k < |y.sources| && y.sources[k].emitted < |y.sources[k].out.history|
      && y' == Sys(y.sources[k := Emitted(y.sources[k], |y.slots.subs[k].out| < CHAN_CAP)],
                   After(y.slots, Write(k, y.sources[k].out.history[y.sources[k].emitted])))
    case Passes(step) => !step.Write? && Enabled(y.slots, step) && y' == y.(slots := After(y.slots, step))
  }

  function Emitted(s: Source, room: bool): Source {
    s.(emitted := s.emitted + 1, kept := s.kept + [room])
  }

  ghost predicate IsFollow(run: seq<Sys>) {
    && |run| > 0 && Starts(run[0])
    && forall i, j :: 0 <= i < |run| && 0 <= j < |run| && j == i + 1 ==> Follows(run[i], run[j])
  }

  ghost predicate Follows(y: Sys, y': Sys) {
    exists e :: Happens(y, e, y')
  }

  // ----------------------------------------------------------------------- invariant

  /** What was sent to the follower is what was kept of the history since it came. */
  ghost predicate SentKept(s: Source, sent: seq<Line>) {
    && s.since <= s.emitted <= |s.out.history| && |s.kept| == s.emitted - s.since
    && sent == Chosen(s.out.history[s.since..s.emitted], s.kept)
  }

  ghost predicate Tracks(y: Sys) {
    && Slots.Inv(y.slots) && |y.sources| == |y.slots.subs|
    && forall k :: 0 <= k < |y.sources| ==> SentKept(y.sources[k], y.slots.sent[k])
  }

  lemma {:induction false} ChosenMore(lines: seq<Line>, kept: seq<bool>, line: Line, room: bool)
    requires |lines| == |kept|
    ensures Chosen(lines + [line], kept + [room]) == if room then Chosen(lines, kept) + [line] else Chosen(lines, kept)
  {
    if lines == [] {
      assert ([line] + [])[1..] == [] && Chosen([line][1..], [room][1..]) == [];
      assert lines + [line] == [line] && kept + [room] == [room];
    } else {
      assert (lines + [line])[1..] == lines[1..] + [line] && (kept + [room])[1..] == kept[1..] + [room];
      ChosenMore(lines[1..], kept[1..], line, room);
    }
  }

  /** A write only adds to the history. */
  lemma HistoryGrows(prefix: nat -> seq<byte>, o: Output, p: seq<byte>)
    ensures o.history <= AfterWrite(prefix, o, p).history
  {
    hide EmitLines, Cleaned, Stamped;
    EmitLinesIs(prefix, o, Splitter.Feed(Splitter.Split([], o.buf), p).lines);
  }

  lemma BytesKeep(s: Source, p: seq<byte>, sent: seq<Line>)
    requires SentKept(s, sent)
    ensures SentKept(s.(out := AfterWrite(s.prefix, s.out, p)), sent)
  {
    hide AfterWrite, Chosen;
    HistoryGrows(s.prefix, s.out, p);
    assert AfterWrite(s.prefix, s.out, p).history[s.since..s.emitted] == s.out.history[s.since..s.emitted];
  }

  lemma EmitsKeep(s: Source, sent: seq<Line>, room: bool)
    requires SentKept(s, sent) && s.emitted < |s.out.history|
    ensures SentKept(Emitted(s, room), if room then sent + [s.out.history[s.emitted]] else sent)
  {
    hide Chosen;
    var h := s.out.history;
    assert h[s.since..s.emitted + 1] == h[s.since..s.emitted] + [h[s.emitted]];
    ChosenMore(h[s.since..s.emitted], s.kept, h[s.emitted], room);
  }

  lemma SlotsKeep(s: State, step: Step)
    requires Slots.Inv(s) && Enabled(s, step)
    ensures Slots.Inv(After(s, step)) && |After(s, step).subs| == |s.subs|
  {
    hide Shape, Enabled, After, Intact;
    NextInv(s, After(s, step));
    ShapeKeeps(s, step);
  }

  lemma SentBy(s: State, step: Step)
    requires Shape(s) && Enabled(s, step)
    ensures After(s, step).sent ==
      if step.Write? && |s.subs[step.k].out| < CHAN_CAP then s.sent[step.k := s.sent[step.k] + [step.line]] else s.sent
  {
  }

  lemma EventKeeps(y: Sys, e: Event, y': Sys)
    requires Tracks(y) && Happens(y, e, y')
    ensures Tracks(y')
  {
    hide SentKept, After, Enabled, Shape, Intact, AfterWrite;
    SizesKept(y.slots);
    match e
    case Bytes(k, p) => BytesKeep(y.sources[k], p, y.slots.sent[k]);
    case Emits(k) =>
      var step := Write(k, y.sources[k].out.history[y.sources[k].emitted]);
      WriteEnabled(y.slots, k, step.line);
      SlotsKeep(y.slots, step);
      SentBy(y.slots, step);
      EmitsKeep(y.sources[k], y.slots.sent[k], |y.slots.subs[k].out| < CHAN_CAP);
    case Passes(step) =>
      SlotsKeep(y.slots, step);
      SentBy(y.slots, step);
  }

  lemma WriteEnabled(s: State, k: nat, line: Line)
    requires k < |s.subs|
    ensures Enabled(s, Write(k, line))
  {
  }

  lemma SizesKept(s: State)
    requires Shape(s)
    ensures |s.sent| == |s.subs|
  {
  }

  lemma StartsTrack(y: Sys)
    requires Starts(y)
    ensures Tracks(y)
  {
    hide Slots.Inv;
    InitInv(y.slots);
  }

  lemma {:induction false} TracksAlways(run: seq<Sys>, i: nat)
    requires IsFollow(run) && i < |run|
    ensures Tracks(run[i])
  {
    hide Starts, Happens, Tracks;
    if i == 0 {
      StartsTrack(run[0]);
    } else {
      TracksAlways(run, i - 1);
      assert Follows(run[i - 1], run[i]);
      var e :| Happens(run[i - 1], e, run[i]);
      EventKeeps(run[i - 1], e, run[i]);
    }
  }

  // ---------------------------------------------------------------------- the theorem

  /**
    What a follower has read of a log is a beginning of the lines of its history
    since the follower came, cleaned and in order, with only those missing for
    which its channel had no room; the rest of them are on their way.
   */
  lemma FollowerReads(run: seq<Sys>, i: nat, k: nat)
    requires IsFollow(run) && i < |run| && k < |run[i].sources|
    ensures Tracks(run[i])
    ensures var y := run[i]; var s := y.sources[k];
      && s.since <= s.emitted <= |s.out.history| && |s.kept| == s.emitted - s.since
      && y.slots.read[k] <= Chosen(s.out.history[s.since..s.emitted], s.kept)
      && |y.slots.read[k]| + |Alive(y.slots, k)| == |Chosen(s.out.history[s.since..s.emitted], s.kept)|
  {
    hide Chosen, Alive;
    TracksAlways(run, i);
    assert Intact(run[i].slots, k) && SentKept(run[i].sources[k], run[i].slots.sent[k]);
  }

  /** A follower whose channel always had room reads the history itself. */
  lemma {:induction false} NothingMissing(lines: seq<Line>, kept: seq<bool>)
    requires |lines| == |kept| && forall j :: 0 <= j < |kept| ==> kept[j]
    ensures Chosen(lines, kept) == lines
  {
    if lines != [] {
      NothingMissing(lines[1..], kept[1..]);
      assert [lines[0]] + lines[1..] == lines;
    }
  }
}
