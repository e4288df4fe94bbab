/**
  The zero-copy path of followed log lines: a subscription's ring of buffers
  (internal/logger/writer.go), the two-hop fan-in of `LogsFn` (daemon.go) and the
  connection handler (control/server.go). What travels through the channels is a
  slot, not its bytes, so a slot must not be written again while it travels.

  A goroutine that has returned is one that takes no further step; its slot then
  counts as in use for ever, which only makes the claims stronger.
 */
module Slots {
  import opened Wrappers
  import opened Sanitizer

  const CHAN_CAP: nat := 256
  const MERGED_CAP: nat := 256
  const RING: nat := 520

  /** In use at once: queued, held by a pipe, merged, held by the handler. */
  const MAX_ALIVE: nat := CHAN_CAP + 1 + MERGED_CAP + 1

  type Line = seq<byte>

  /** A slot of one of the subscriptions. */
  datatype Ref = Ref(stream: nat, slot: nat)

  /** A subscription and the pipe that empties its channel. */
  datatype Sub = Sub(bufs: seq<Line>, bufIdx: nat, out: seq<nat>, pipe: Option<nat>) {

    /** The fan-out of one line: copied into the next slot, which advances only if the send succeeds. */
    function Offer(line: Line): Sub
      requires bufIdx < |bufs|
    {
      if |out| < CHAN_CAP
      then this.(bufs := bufs[bufIdx := line], out := out + [bufIdx],
                 bufIdx := if bufIdx + 1 >= RING then 0 else bufIdx + 1)
      else this.(bufs := bufs[bufIdx := line])
    }
  }

  function NewSub(): Sub {
    Sub(seq(RING, _ => []), 0, [], None)
  }

  /** The subscriptions of one client, with what was sent and read so far on each. */
  datatype State = State(
    subs: seq<Sub>,
    merged: seq<Ref>,
    hand: Option<Ref>,
    sent: seq<seq<Line>>,
    read: seq<seq<Line>>)

  datatype Step =
    | Write(k: nat, line: Line)
    | PipeTake(k: nat)
    | PipePut(k: nat)
    | HandlerTake
    | HandlerWrite

  ghost predicate Init(s: State) {
    && |s.sent| == |s.read| == |s.subs| && s.merged == [] && s.hand == None
    && (forall k :: 0 <= k < |s.subs| ==>
          |s.subs[k].bufs| == RING && s.subs[k].bufIdx == 0 && s.subs[k].out == [] && s.subs[k].pipe == None)
    && (forall k :: 0 <= k < |s.subs| ==> s.sent[k] == [] && s.read[k] == [])
  }

  ghost predicate Enabled(s: State, step: Step) {
    match step
    case Write(k, _) => k < |s.subs|
    case PipeTake(k) => k < |s.subs| && s.subs[k].pipe.None? && s.subs[k].out != []
    case PipePut(k) => k < |s.subs| && s.subs[k].pipe.Some? && |s.merged| < MERGED_CAP
    case HandlerTake => s.hand.None? && s.merged != []
    case HandlerWrite => s.hand.Some?
  }

  /** What holds of the sizes, so that the steps are defined. */
  ghost predicate Shape(s: State) {
    && |s.sent| == |s.subs| && |s.read| == |s.subs| && |s.merged| <= MERGED_CAP
    && (forall k :: 0 <= k < |s.subs| ==>
          |s.subs[k].bufs| == RING && s.subs[k].bufIdx < RING && |s.subs[k].out| <= CHAN_CAP)
    && (forall k, i :: 0 <= k < |s.subs| && 0 <= i < |s.subs[k].out| ==> s.subs[k].out[i] < RING)
    && (forall k :: 0 <= k < |s.subs| && s.subs[k].pipe.Some? ==> s.subs[k].pipe.value < RING)
    && (forall i :: 0 <= i < |s.merged| ==> s.merged[i].stream < |s.subs| && s.merged[i].slot < RING)
    && (s.hand.Some? ==> s.hand.value.stream < |s.subs| && s.hand.value.slot < RING)
  }

  ghost function After(s: State, step: Step): State
    requires Shape(s) && Enabled(s, step)
  {
    match step
    case Write(k, line) =>
      s.(subs := s.subs[k := s.subs[k].Offer(line)],
         sent := if |s.subs[k].out| < CHAN_CAP then s.sent[k := s.sent[k] + [line]] else s.sent)
    case PipeTake(k) =>
      s.(subs := s.subs[k := s.subs[k].(pipe := Some(s.subs[k].out[0]), out := s.subs[k].out[1..])])
    case PipePut(k) =>
      s.(subs := s.subs[k := s.subs[k].(pipe := None)], merged := s.merged + [Ref(k, s.subs[k].pipe.value)])
    case HandlerTake =>
      s.(hand := Some(s.merged[0]), merged := s.merged[1..])
    case HandlerWrite =>
      var k := s.hand.value.stream;
      s.(hand := None, read := s.read[k := s.read[k] + [s.subs[k].bufs[s.hand.value.slot]]])
  }

  ghost predicate Next(s: State, s': State) {
    Shape(s) && exists step :: Enabled(s, step) && s' == After(s, step)
  }

  ghost predicate IsRun(run: seq<State>) {
    |run| > 0 && Init(run[0]) && forall i, j :: 0 <= i < |run| && 0 <= j < |run| && j == i + 1 ==> Next(run[i], run[j])
  }

  // ------------------------------------------------------------- slots in use

  /** The slots of stream `k` in a queue. */
  ghost function Mine(q: seq<Ref>, k: nat): seq<nat> {
    if q == [] then [] else (if q[0].stream == k then [q[0].slot] else []) + Mine(q[1..], k)
  }

  ghost function Held(hand: Option<Ref>, k: nat): seq<nat> {
    if hand.Some? && hand.value.stream == k then [hand.value.slot] else []
  }

  ghost function Piped(pipe: Option<nat>): seq<nat> {
    if pipe.Some? then [pipe.value] else []
  }

  /** The slots of stream `k` in use, oldest first. */
  ghost function Alive(s: State, k: nat): seq<nat>
    requires k < |s.subs|
  {
    Held(s.hand, k) + Mine(s.merged, k) + Piped(s.subs[k].pipe) + s.subs[k].out
  }

  /** The slot that line number `n` of a stream goes to. */
  function SlotOf(n: nat): (i: nat)
    ensures i < RING
  {
    n % RING
  }

  /**
    Of stream `k`: what was read is the start of what was sent; the rest is in
    use, in consecutive slots that end just before the next one to be written,
    and each still holds its line.
   */
  ghost predicate Intact(s: State, k: nat)
    requires k < |s.subs| && |s.sent| == |s.subs| && |s.read| == |s.subs|
  {
    var a, sent, r := Alive(s, k), s.sent[k], |s.read[k]|;
    && |sent| == r + |a| && s.read[k] == sent[..r]
    && s.subs[k].bufIdx == SlotOf(|sent|) && |s.subs[k].bufs| == RING
    && (forall j :: 0 <= j < |a| ==> a[j] == SlotOf(r + j) && s.subs[k].bufs[a[j]] == sent[r + j])
  }

  ghost predicate Inv(s: State) {
    Shape(s) && forall k :: 0 <= k < |s.subs| ==> Intact(s, k)
  }

  lemma {:induction false} MineShort(q: seq<Ref>, k: nat)
    ensures |Mine(q, k)| <= |q|
  {
    if q != [] {
      MineShort(q[1..], k);
    }
  }

  lemma {:induction false} MineAppend(q: seq<Ref>, x: Ref, k: nat)
    ensures Mine(q + [x], k) == Mine(q, k) + Mine([x], k)
  {
    if q == [] {
      assert q + [x] == [x];
    } else {
      assert (q + [x])[1..] == q[1..] + [x];
      MineAppend(q[1..], x, k);
    }
  }

  lemma MineOne(x: Ref, k: nat)
    ensures Mine([x], k) == if x.stream == k then [x.slot] else []
  {
    assert [x][1..] == [];
  }

  /** The arithmetic the ring size rests on: 514 slots in use leave the next one free. */
  lemma AliveBound(s: State, k: nat)
    requires Shape(s) && k < |s.subs|
    ensures |Alive(s, k)| <= MAX_ALIVE < RING
  {
    MineShort(s.merged, k);
  }

  lemma SlotsApart(m: nat, n: nat)
    requires m < n < m + RING
    ensures SlotOf(m) != SlotOf(n)
  {
  }

  lemma SlotNext(n: nat)
    ensures SlotOf(n + 1) == if SlotOf(n) + 1 >= RING then 0 else SlotOf(n) + 1
  {
  }

  // ------------------------------------------------------------------ each step

  /** A step that only passes slots on leaves everything in use as it was. */
  lemma PassingKeeps(s: State, s': State, j: nat)
    requires Inv(s) && j < |s.subs| && |s'.subs| == |s.subs|
    requires |s'.sent| == |s.sent| && |s'.read| == |s.read| && s'.sent[j] == s.sent[j] && s'.read[j] == s.read[j]
    requires s'.subs[j].bufs == s.subs[j].bufs && s'.subs[j].bufIdx == s.subs[j].bufIdx
    requires Alive(s', j) == Alive(s, j)
    ensures Intact(s', j)
  {
    hide Alive;
    assert Intact(s, j);
  }

  /** The next slot is not one of those in use. */
  lemma NextIsFree(s: State, k: nat, i: nat)
    requires Inv(s) && k < |s.subs| && i < |Alive(s, k)|
    ensures Alive(s, k)[i] < RING && Alive(s, k)[i] != s.subs[k].bufIdx
  {
    hide Alive;
    assert Intact(s, k);
    AliveBound(s, k);
    SlotsApart(|s.read[k]| + i, |s.sent[k]|);
  }

  lemma WriteAlive(s: State, k: nat, line: Line, j: nat)
    requires Shape(s) && k < |s.subs| && j < |s.subs|
    ensures Alive(After(s, Write(k, line)), j) ==
      if j == k && |s.subs[k].out| < CHAN_CAP then Alive(s, j) + [s.subs[k].bufIdx] else Alive(s, j)
  {
    hide Shape, Mine;
    if j == k {
      var out := s.subs[k].out;
      Assoc(Held(s.hand, k) + Mine(s.merged, k) + Piped(s.subs[k].pipe), out, [s.subs[k].bufIdx]);
    }
  }

  lemma WriteKeeps(s: State, k: nat, line: Line, j: nat)
    requires Inv(s) && k < |s.subs| && j < |s.subs|
    ensures Intact(After(s, Write(k, line)), j)
  {
    hide Alive, Shape, SlotOf, Intact;
    Sizes(s);
    WriteAlive(s, k, line, j);
    if j != k {
      PassingKeeps(s, After(s, Write(k, line)), j);
    } else {
      forall i | 0 <= i < |Alive(s, k)| ensures Alive(s, k)[i] < RING && Alive(s, k)[i] != s.subs[k].bufIdx {
        NextIsFree(s, k, i);
      }
      assert Intact(s, k);
      WriteHere(s, k, line);
    }
  }

  lemma WriteHere(s: State, k: nat, line: Line)
    requires Shape(s) && k < |s.subs| && Intact(s, k)
    requires forall i :: 0 <= i < |Alive(s, k)| ==> Alive(s, k)[i] < RING && Alive(s, k)[i] != s.subs[k].bufIdx
    requires Alive(After(s, Write(k, line)), k) ==
      if |s.subs[k].out| < CHAN_CAP then Alive(s, k) + [s.subs[k].bufIdx] else Alive(s, k)
    ensures Intact(After(s, Write(k, line)), k)
  {
    hide Alive, SlotOf;
    var s' := After(s, Write(k, line));
    SlotNext(|s.sent[k]|);
    var a, sent, r := Alive(s, k), s.sent[k], |s.read[k]|;
    var a', sent' := Alive(s', k), s'.sent[k];
    forall i | 0 <= i < |a'| ensures a'[i] == SlotOf(r + i) && s'.subs[k].bufs[a'[i]] == sent'[r + i] {
      if i < |a| {
        assert a'[i] == a[i] && sent'[r + i] == sent[r + i];
      }
    }
  }

  lemma Sizes(s: State)
    requires Shape(s)
    ensures |s.sent| == |s.subs| && |s.read| == |s.subs|
  {
  }

  lemma PipeTakeAlive(s: State, k: nat, j: nat)
    requires Shape(s) && Enabled(s, PipeTake(k)) && j < |s.subs|
    ensures Alive(After(s, PipeTake(k)), j) == Alive(s, j)
  {
    if j == k {
      var out := s.subs[k].out;
      assert out == [out[0]] + out[1..];
    }
  }

  lemma PipePutAlive(s: State, k: nat, j: nat)
    requires Shape(s) && Enabled(s, PipePut(k)) && j < |s.subs|
    ensures Alive(After(s, PipePut(k)), j) == Alive(s, j)
  {
    hide Shape, Mine;
    var x := Ref(k, s.subs[k].pipe.value);
    MineAppend(s.merged, x, j);
    MineOne(x, j);
    if j == k {
      Assoc(Held(s.hand, k), Mine(s.merged, k), [x.slot]);
      assert [x.slot] + [] == [x.slot];
    }
  }

  lemma HandlerTakeAlive(s: State, j: nat)
    requires Shape(s) && Enabled(s, HandlerTake) && j < |s.subs|
    requires s.merged[0].stream < |s.subs| && s.merged[0].slot < RING
    ensures Alive(After(s, HandlerTake), j) == Alive(s, j)
  {
  }

  lemma HandlerWriteKeeps(s: State, j: nat)
    requires Inv(s) && s.hand.Some? && j < |s.subs|
    ensures Intact(After(s, HandlerWrite), j)
  {
    var s' := After(s, HandlerWrite);
    assert Intact(s, j);
    var a := Alive(s, j);
    if s.hand.value.stream == j {
      var r := |s.read[j]|;
      assert a == [s.hand.value.slot] + Alive(s', j);
      assert a[0] == s.hand.value.slot;
      forall i | 0 <= i < |Alive(s', j)|
        ensures Alive(s', j)[i] == SlotOf(r + 1 + i) && s.subs[j].bufs[Alive(s', j)[i]] == s.sent[j][r + 1 + i]
      {
        assert Alive(s', j)[i] == a[i + 1];
      }
    } else {
      assert Alive(s', j) == a;
    }
  }

  lemma ShapeKept(s: State, step: Step)
    requires Shape(s) && Enabled(s, step)
    ensures Shape(After(s, step))
  {
  }

  lemma StepKeeps(s: State, step: Step, j: nat)
    requires Inv(s) && Enabled(s, step) && j < |s.subs|
    ensures Shape(After(s, step)) && |After(s, step).subs| == |s.subs| && Intact(After(s, step), j)
  {
    ShapeKept(s, step);
    StepKept(s, step, j);
  }

  lemma StepKept(s: State, step: Step, j: nat)
    requires Inv(s) && Enabled(s, step) && j < |s.subs| && Shape(After(s, step))
    ensures |After(s, step).subs| == |s.subs| && Intact(After(s, step), j)
  {
    hide Intact, Alive;
    match step
    case Write(k, line) => WriteKeeps(s, k, line, j);
    case PipeTake(k) =>
      PipeTakeAlive(s, k, j);
      PassingKeeps(s, After(s, step), j);
    case PipePut(k) =>
      PipePutAlive(s, k, j);
      PassingKeeps(s, After(s, step), j);
    case HandlerTake =>
      HandlerTakeAlive(s, j);
      PassingKeeps(s, After(s, step), j);
    case HandlerWrite => HandlerWriteKeeps(s, j);
  }

  lemma InitInv(s: State)
    requires Init(s)
    ensures Inv(s)
  {
    forall k | 0 <= k < |s.subs| ensures Intact(s, k) {
      assert Alive(s, k) == [];
      assert SlotOf(0) == 0;
    }
  }

  lemma NextInv(s: State, s': State)
    requires Inv(s) && Next(s, s')
    ensures Inv(s')
  {
    hide Shape, Enabled, After, Intact;
    var step :| Enabled(s, step) && s' == After(s, step);
    ShapeKeeps(s, step);
    forall j | 0 <= j < |s'.subs| ensures Intact(s', j) {
      StepKeeps(s, step, j);
    }
  }

  lemma ShapeKeeps(s: State, step: Step)
    requires Shape(s) && Enabled(s, step)
    ensures Shape(After(s, step)) && |After(s, step).subs| == |s.subs|
    ensures |After(s, step).sent| == |s.subs| && |After(s, step).read| == |s.subs|
  {
    ShapeKept(s, step);
  }

  lemma {:induction false} InvAlways(run: seq<State>, i: nat)
    requires IsRun(run) && i < |run|
    ensures Inv(run[i])
  {
    if i == 0 {
      InitInv(run[0]);
    } else {
      InvAlways(run, i - 1);
      NextInv(run[i - 1], run[i]);
    }
  }

  // ---------------------------------------------------------------------- theorems

  /**
    In every run, of every stream: at most 514 slots are in use, they follow one
    another round the ring and end just before the next one to be written, which
    is not one of them.
   */
  lemma NeverOverwritten(run: seq<State>, i: nat, k: nat)
    requires IsRun(run) && i < |run| && k < |run[i].subs|
    ensures var a, next := Alive(run[i], k), run[i].subs[k].bufIdx;
      && |a| <= MAX_ALIVE && next !in a
      && (forall j :: 0 <= j < |a| ==> (a[j] + (|a| - j)) % RING == next)
  {
    hide Alive;
    InvAlways(run, i);
    var s := run[i];
    assert Intact(s, k);
    AliveBound(s, k);
    var a, r := Alive(s, k), |s.read[k]|;
    forall j | 0 <= j < |a| ensures a[j] != SlotOf(r + |a|) && (a[j] + (|a| - j)) % RING == SlotOf(r + |a|) {
      SlotsApart(r + j, r + |a|);
      SlotsAhead(r + j, |a| - j);
    }
  }

  lemma SlotsAhead(m: nat, d: nat)
    ensures (SlotOf(m) + d) % RING == SlotOf(m + d)
  {
  }

  /** The handler reads exactly the lines that were sent, in order: none torn, lost, repeated or swapped. */
  lemma ReadsWhatWasSent(run: seq<State>, i: nat, k: nat)
    requires IsRun(run) && i < |run| && k < |run[i].subs|
    ensures Inv(run[i])
    ensures var s := run[i]; var r := |s.read[k]|; var a := Alive(s, k);
      && r + |a| == |s.sent[k]| && s.read[k] == s.sent[k][..r]
      && (forall j :: 0 <= j < |a| ==> a[j] < |s.subs[k].bufs| && s.subs[k].bufs[a[j]] == s.sent[k][r + j])
  {
    hide Alive;
    InvAlways(run, i);
    assert Intact(run[i], k);
  }

  // --------------------------------------------------------------------- the writer

  /** A subscription as the writer updates it. */
  class Subscription {
    const bufs: array<Line>
    var bufIdx: nat
    var out: seq<nat>

    ghost predicate Valid()
      reads this
    {
      bufs.Length == RING && bufIdx < RING
    }

    ghost function Value(pipe: Option<nat>): Sub
      reads this, bufs
    {
      Sub(bufs[..], bufIdx, out, pipe)
    }

    constructor ()
      ensures Valid() && fresh(bufs) && bufIdx == 0 && out == []
    {
      bufs := new Line[RING](_ => []);
      bufIdx, out := 0, [];
    }

    /** The fan-out of one line to this subscriber; a full channel drops it. */
    method Offer(line: Line) returns (delivered: bool)
      requires Valid()
      modifies this`bufIdx, this`out, bufs
      ensures Valid() && (delivered <==> |old(out)| < CHAN_CAP)
      ensures forall pipe :: Value(pipe) == old(Value(pipe)).Offer(line)
    {
      bufs[bufIdx] := line;
      if |out| < CHAN_CAP {
        out := out + [bufIdx];
        bufIdx := bufIdx + 1;
        if bufIdx >= RING {
          bufIdx := 0;
        }
        delivered := true;
      } else {
        delivered := false;
      }
    }
  }
}
