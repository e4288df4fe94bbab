/** Steps of `initiateShutdown` and `stopAll` keep the invariant. */
module SweepSteps {
  import opened Wrappers
  import opened Graphs
  import opened World
  import opened Protocol
  import opened Invariant
  import opened Stability
  import opened Steps
  import opened StartSteps

  // ------------------------------------------------------------ the stop sequence

  lemma ReversedElems<T>(s: seq<T>)
    ensures Elems(Reversed(s)) == Elems(s)
  {
    forall x | x in s ensures x in Reversed(s) {
      var i :| 0 <= i < |s| && s[i] == x;
      assert Reversed(s)[|s| - 1 - i] == x;
    }
    forall x | x in Reversed(s) ensures x in s {
      var i :| 0 <= i < |s| && Reversed(s)[i] == x;
    }
  }

  /** The stop sequence names every service, so whatever runs is on it. */
  lemma StopSeqCovers(w: World)
    requires Ordered(w)
    ensures RunsWithin(w, Elems(StopSeq(w))) && IsSuffix(StopSeq(w), StopSeq(w))
  {
    ReversedElems(w.order);
  }

  lemma SkipOk(w: World, todo: seq<Name>, stopped: set<Name>)
    requires SeqOk(w, todo, stopped) && todo != [] && !w.Runs(todo[0])
    ensures SeqOk(w, todo[1..], stopped)
  {
    SuffixTail(todo, StopSeq(w));
    forall n | w.Runs(n) ensures n in Elems(todo[1..]) {
      assert n in todo;
      var i :| 0 <= i < |todo| && todo[i] == n;
      assert todo[1..][i - 1] == n;
    }
  }

  lemma SuffixTail(a: seq<Name>, b: seq<Name>)
    requires IsSuffix(a, b) && a != []
    ensures IsSuffix(a[1..], b)
  {
    assert b[|b| - |a|..][1..] == b[|b| - |a| + 1..];
  }

  lemma StoppedOk(w: World, todo: seq<Name>, stopped: set<Name>)
    requires NamesPoint(w) && SeqOk(w, todo, stopped) && todo != [] && w.Runs(todo[0])
    ensures var i := w.services[todo[0]]; var e := w.Done(i);
      && AwaitOk(w.Stop(i), e) && NameOf(w, e) == {todo[0]} && NameOf(w.Stop(i), e) == {todo[0]}
      && IsSuffix(todo[1..], StopSeq(w))
      && RunsWithin(w, Elems(todo[1..]) + NameOf(w, e)) && NoneOf(w, (stopped + {todo[0]}) - NameOf(w, e))
  {
    SuffixTail(todo, StopSeq(w));
    StopAsks(w, w.services[todo[0]]);
    forall n | w.Runs(n) ensures n in Elems(todo[1..]) + {todo[0]} {
      assert n in todo;
      var i :| 0 <= i < |todo| && todo[i] == n;
      if i > 0 {
        assert todo[1..][i - 1] == n;
      }
    }
  }

  /** Once the awaited process is gone, its service does not run. */
  lemma AwaitedGone(w: World, e: Exit, names: set<Name>)
    requires NamesPoint(w) && AwaitOk(w, e) && w.Closed(e) && RunsWithin(w, names + NameOf(w, e))
    ensures RunsWithin(w, names) && NoneOf(w, NameOf(w, e))
  {
  }

  // -------------------------------------------------------------- local transfer

  /** Both ends of the step are the winner's. */
  lemma WinnerLocal(g: Shared, t: nat, pc: Pc, g': Shared, pc': Pc)
    requires IsWinner(pc) && IsWinner(pc') && g.winner == Some(t) && g'.winner == Some(t) && OkWinner(g', pc')
    requires LockStep(g, t, pc, g', pc') && Load(pc') == Load(pc)
    requires g'.pending == g.pending && g'.queue == g.queue && g'.senders == g.senders
    ensures Local(g, t, pc, g', pc', [])
  {
    hide PcOk, OkWinner, Load, Joins, IsMain, IsWinner, Holds, Local, Balanced, LockStep;
    WinnerShape(pc);
    WinnerShape(pc');
    WinnerOk(g', pc');
    BalancedAlone(g, pc, g', pc');
    LocalParts(g, t, pc, g', pc');
  }

  lemma WinnerShape(pc: Pc)
    requires IsWinner(pc)
    ensures !IsMain(pc) && Joins(pc) == 0
  {
  }

  /** What `initiateShutdown` returns to. */
  lemma AfterOk(g: Shared, k: Cont)
    requires ContOk(g.w, k) && g.flag
    ensures Plain(AfterShutdown(k), ContLoad(k)) && OkOther(g, AfterShutdown(k))
  {
  }

  // --------------------------------------------------------------------- the swap

  lemma StepSwap(g: Shared, t: nat, k: Cont, g': Shared, pc': Pc)
    requires Pre(g, t, ShSwap(k)) && DoSwap(g, t, k, g', pc')
    ensures Global(g, t, g') && Local(g, t, ShSwap(k), g', pc', [])
  {
    hide Valid, RunsWithin, ContOk, Local, Evolves, Shrinks, KeepsClaimed;
    EvolvesSelf(g.w);
    if g.flag {
      AfterOk(g, k);
      PlainLocal(g, t, ShSwap(k), g', pc');
    } else {
      SwapLocal(g, t, k, g');
    }
  }

  lemma SwapLocal(g: Shared, t: nat, k: Cont, g': Shared)
    requires FlagsOk(g) && !g.flag && g' == g.(flag := true, winner := Some(t)) && ContOk(g.w, k)
    ensures Local(g, t, ShSwap(k), g', ShClose(k), [])
  {
    hide ContOk, RunsWithin, Local, OkMain, OkOther, ContLoad, Balanced;
    BalancedAlone(g, ShSwap(k), g', ShClose(k));
    LocalParts(g, t, ShSwap(k), g', ShClose(k));
  }

  lemma StepCloseShutdown(g: Shared, t: nat, k: Cont, g': Shared, pc': Pc)
    requires Pre(g, t, ShClose(k)) && DoCloseShutdown(g, k, g', pc')
    ensures Global(g, t, g') && Local(g, t, ShClose(k), g', pc', [])
  {
    hide Valid, RunsWithin, ContOk, Local, Evolves, Shrinks, KeepsClaimed, OkMain, OkOther;
    EvolvesSelf(g.w);
    WinnerLocal(g, t, ShClose(k), g', pc');
  }

  // ------------------------------------------------------------------- the sweep

  lemma SweepGlobal(g: Shared, t: nat, g': Shared)
    requires SharedOk(g) && g.winner == Some(t) && g.mu == None && g.shutdownCh && !g.swept && !g.stopAllDone
    requires g' == g.(swept := true, mu := g'.mu, w := g'.w) && SameRuns(g.w, g'.w)
    ensures Global(g, t, g') && SharedOk(g') && Shrinks(g.w, g'.w)
  {
    SweepWorld(g, t, g'.w);
    hide Valid, RunsWithin, Evolves, Shrinks, KeepsClaimed, SameRuns;
  }

  lemma SweepWorld(g: Shared, t: nat, w': World)
    requires SharedOk(g) && SameRuns(g.w, w')
    ensures Valid(w') && Evolves(g.w, w') && Shrinks(g.w, w') && KeepsClaimed(g.w, w')
    ensures forall i :: 0 <= i < |g.queue| ==> ReqOk(w', g.queue[i])
  {
    SameRunsKeeps(g.w, w');
    ShrinksEvolves(g.w, w');
    forall i | 0 <= i < |g.queue| ensures ReqOk(w', g.queue[i]) {
      ReqStays(g.w, w', g.queue[i]);
    }
  }

  lemma SameRunsSelf(w: World)
    ensures SameRuns(w, w)
  {
  }

  lemma NoneRunning(w: World)
    requires NamesPoint(w) && RunningExits(w) == {}
    ensures RunsWithin(w, {})
  {
    forall n | n in w.services ensures !w.Runs(n) {
      var e := w.Done(w.services[n]);
      assert e !in RunningExits(w);
    }
  }

  lemma AllAwaited(w: World)
    requires Valid(w)
    ensures forall n :: StopCurrent(w).Runs(n) ==> StopCurrent(w).Done(StopCurrent(w).services[n]) in RunningExits(w)
  {
    StopCurrentKeeps(w);
    forall n | StopCurrent(w).Runs(n) ensures StopCurrent(w).Done(StopCurrent(w).services[n]) in RunningExits(w) {
      RunsShrink(w, StopCurrent(w), n);
    }
  }

  lemma AllStopped(w: World)
    requires Valid(w)
    ensures AllAsked(StopCurrent(w), RunningExits(w))
  {
    forall e | e in RunningExits(w) ensures StopCurrent(w).Asked(e) {
      var n :| n in w.services && w.Runs(n) && e == w.Done(w.services[n]);
      assert w.Current(w.services[n]);
    }
  }

  lemma SweepSeq(g: Shared, t: nat, k: Cont, g': Shared)
    requires Pre(g, t, ShLock(k)) && g.mu == None && g' == g.(swept := true, mu := Some(t)) && g.w.mode != Simultaneous
    ensures Global(g, t, g') && Local(g, t, ShLock(k), g', SwSeq(StopSeq(g.w), {}, k), [])
  {
    SharedParts(g);
    SameRunsSelf(g.w);
    StopSeqCovers(g.w);
    hide SharedOk, Local, Global, Evolves, Shrinks, KeepsClaimed, OkMain;
    hide OkOther, SameRuns, StopSeq, RunsWithin, IsSuffix;
    SweepGlobal(g, t, g');
    WinnerLocal(g, t, ShLock(k), g', SwSeq(StopSeq(g.w), {}, k));
  }

  lemma SharedParts(g: Shared)
    requires SharedOk(g)
    ensures Valid(g.w) && NamesPoint(g.w) && Ordered(g.w)
  {
  }

  lemma SweepNone(g: Shared, t: nat, k: Cont, g': Shared)
    requires Pre(g, t, ShLock(k)) && g.mu == None && g' == g.(swept := true, mu := Some(t)) && RunsWithin(g.w, {})
    ensures Global(g, t, g') && Local(g, t, ShLock(k), g', SwEnd(k), [])
  {
    SameRunsSelf(g.w);
    hide SharedOk, Local, Global, Evolves, Shrinks, KeepsClaimed, OkMain, OkOther, SameRuns, RunsWithin;
    SweepGlobal(g, t, g');
    WinnerLocal(g, t, ShLock(k), g', SwEnd(k));
  }

  lemma SweepAll(g: Shared, t: nat, k: Cont, g': Shared)
    requires Pre(g, t, ShLock(k)) && g.mu == None && g' == g.(swept := true, w := StopCurrent(g.w))
    ensures Global(g, t, g') && Local(g, t, ShLock(k), g', SwAllWait(RunningExits(g.w), k), [])
  {
    hide SharedOk, Local, Global, Evolves, Shrinks, KeepsClaimed, OkMain, OkOther, SameRuns, RunsWithin, StopCurrent,
         RunningExits, ContOk, Valid, AllAsked;
    SharedParts(g);
    StopCurrentKeeps(g.w);
    AllAwaited(g.w);
    AllStopped(g.w);
    SweepGlobal(g, t, g');
    ShrinksEvolves(g.w, g'.w);
    ContStays(g.w, g'.w, k);
    WinnerLocal(g, t, ShLock(k), g', SwAllWait(RunningExits(g.w), k));
  }

  lemma StepSweep(g: Shared, t: nat, k: Cont, g': Shared, pc': Pc)
    requires Pre(g, t, ShLock(k)) && DoSweep(g, t, k, g', pc')
    ensures Global(g, t, g') && Local(g, t, ShLock(k), g', pc', [])
  {
    hide SharedOk, Local, Global, ThreadOk, RunsWithin, StopSeq, StopCurrent, RunningExits;
    if g.w.mode != Simultaneous {
      SweepSeq(g, t, k, g');
    } else if RunningExits(g.w) == {} {
      SharedParts(g);
      NoneRunning(g.w);
      SweepNone(g, t, k, g');
    } else {
      SweepAll(g, t, k, g');
    }
  }

  // ---------------------------------------------------------- the ordered stops

  lemma SwSeqEmpty(g: Shared, t: nat, stopped: set<Name>, k: Cont)
    requires Pre(g, t, SwSeq([], stopped, k))
    ensures Global(g, t, g) && Local(g, t, SwSeq([], stopped, k), g, SwMap(g.w.services.Keys, stopped, k), [])
  {
    hide Local, Global, OkMain, OkOther, ContOk, Valid, Rely, NoneOf, SharedOk, RunsWithin;
    SharedQueue(g);
    CountersKeep(g, t, g);
    assert Elems<Name>([]) == {};
    WinnerLocal(g, t, SwSeq([], stopped, k), g, SwMap(g.w.services.Keys, stopped, k));
  }

  lemma SharedQueue(g: Shared)
    requires SharedOk(g)
    ensures forall i :: 0 <= i < |g.queue| ==> ReqOk(g.w, g.queue[i])
    ensures g.chClosed ==> g.senders <= 0
  {
    hide Valid, RunsWithin;
  }

  lemma SwSeqSkip(g: Shared, t: nat, todo: seq<Name>, stopped: set<Name>, k: Cont)
    requires Pre(g, t, SwSeq(todo, stopped, k)) && todo != [] && !g.w.Runs(todo[0])
    ensures Global(g, t, g) && Local(g, t, SwSeq(todo, stopped, k), g, SwSeq(todo[1..], stopped, k), [])
  {
    hide Local, Global, OkMain, OkOther, ContOk, SeqOk, Rely, SharedOk;
    SharedQueue(g);
    CountersKeep(g, t, g);
    SkipOk(g.w, todo, stopped);
    WinnerLocal(g, t, SwSeq(todo, stopped, k), g, SwSeq(todo[1..], stopped, k));
  }

  /** After a stop, what was known about who runs still holds. */
  lemma StopFrame(w: World, i: nat)
    requires Valid(w)
    ensures Shrinks(w, w.Stop(i)) && Evolves(w, w.Stop(i))
    ensures StopSeq(w.Stop(i)) == StopSeq(w) && w.Stop(i).mode == w.mode
  {
    StopKeeps(w, i);
    ShrinksEvolves(w, w.Stop(i));
  }

  lemma SwSeqStopOk(w: World, todo: seq<Name>, stopped: set<Name>, k: Cont)
    requires Valid(w) && SeqOk(w, todo, stopped) && todo != [] && w.Runs(todo[0]) && ContOk(w, k)
    ensures var i := w.services[todo[0]]; var e := w.Done(i); var w' := w.Stop(i);
      && ContOk(w', k) && AwaitOk(w', e) && w'.mode != Simultaneous && IsSuffix(todo[1..], StopSeq(w'))
      && RunsWithin(w', Elems(todo[1..]) + NameOf(w', e)) && NoneOf(w', (stopped + {todo[0]}) - NameOf(w', e))
  {
    var i := w.services[todo[0]];
    var e := w.Done(i);
    StoppedOk(w, todo, stopped);
    StopFrame(w, i);
    var w' := w.Stop(i);
    hide SeqOk, Shrinks, Evolves, RunsWithin, NoneOf, AwaitOk, NameOf, ContOk, IsSuffix, StopSeq;
    ContStays(w, w', k);
    WithinShrinks(w, w', Elems(todo[1..]) + NameOf(w, e));
    NoneShrinks(w, w', (stopped + {todo[0]}) - NameOf(w, e));
    assert w'.mode != Simultaneous;
  }

  lemma SwSeqStop(g: Shared, t: nat, todo: seq<Name>, stopped: set<Name>, k: Cont, g': Shared, pc': Pc)
    requires Pre(g, t, SwSeq(todo, stopped, k)) && todo != [] && g.w.Runs(todo[0])
    requires DoSwSeq(g, todo, stopped, k, g', pc')
    ensures Global(g, t, g') && Local(g, t, SwSeq(todo, stopped, k), g', pc', [])
  {
    hide Local, Global, OkMain, OkOther, SharedOk, Rely, SeqOk, ContOk;
    hide AwaitOk, RunsWithin, NoneOf, IsSuffix, Evolves, NameOf;
    SharedParts(g);
    SwSeqStopOk(g.w, todo, stopped, k);
    StopGlobal(g, t, g.w.services[todo[0]], g');
    WinnerLocal(g, t, SwSeq(todo, stopped, k), g', pc');
  }

  lemma StepSwSeq(g: Shared, t: nat, todo: seq<Name>, stopped: set<Name>, k: Cont, g': Shared, pc': Pc)
    requires Pre(g, t, SwSeq(todo, stopped, k)) && DoSwSeq(g, todo, stopped, k, g', pc')
    ensures Global(g, t, g') && Local(g, t, SwSeq(todo, stopped, k), g', pc', [])
  {
    hide Local, Global, Pre;
    if todo == [] {
      SwSeqEmpty(g, t, stopped, k);
    } else if !g.w.Runs(todo[0]) {
      SwSeqSkip(g, t, todo, stopped, k);
    } else {
      SwSeqStop(g, t, todo, stopped, k, g', pc');
    }
  }

  // -------------------------------------------------------- the remaining stops

  lemma SwMapSkip(g: Shared, t: nat, left: set<Name>, left': set<Name>, stopped: set<Name>, k: Cont)
    requires Pre(g, t, SwMap(left, stopped, k))
    ensures Global(g, t, g) && Local(g, t, SwMap(left, stopped, k), g, SwMap(left', stopped, k), [])
  {
    hide Local, Global, OkMain, OkOther, ContOk, RunsWithin, Rely, SharedOk;
    SharedQueue(g);
    CountersKeep(g, t, g);
    WinnerLocal(g, t, SwMap(left, stopped, k), g, SwMap(left', stopped, k));
  }

  lemma SwMapDone(g: Shared, t: nat, stopped: set<Name>, k: Cont)
    requires Pre(g, t, SwMap({}, stopped, k))
    ensures Global(g, t, g) && Local(g, t, SwMap({}, stopped, k), g, SwEnd(k), [])
  {
    hide Local, Global, OkMain, OkOther, ContOk, RunsWithin, Rely, SharedOk;
    SharedQueue(g);
    CountersKeep(g, t, g);
    WinnerLocal(g, t, SwMap({}, stopped, k), g, SwEnd(k));
  }

  lemma SwMapIdle(g: Shared, t: nat, left: set<Name>, stopped: set<Name>, k: Cont, n: Name)
    requires Pre(g, t, SwMap(left, stopped, k))
    ensures !g.w.Runs(n)
  {
    hide SharedOk, ContOk;
  }

  lemma StepSwMap(g: Shared, t: nat, left: set<Name>, stopped: set<Name>, k: Cont, g': Shared, pc': Pc)
    requires Pre(g, t, SwMap(left, stopped, k)) && DoSwMap(g, left, stopped, k, g', pc')
    ensures Global(g, t, g') && Local(g, t, SwMap(left, stopped, k), g', pc', [])
  {
    hide Local, Global, Pre;
    if left == {} {
      SwMapDone(g, t, stopped, k);
    } else {
      var n :| n in left && DoSwName(g, n, left, stopped, k, g', pc');
      SwMapIdle(g, t, left, stopped, k, n);
      SwMapSkip(g, t, left, left - {n}, stopped, k);
    }
  }

  // -------------------------------------------------------------------- the waits

  lemma LockGlobal(g: Shared, t: nat, g': Shared)
    requires SharedOk(g) && Locks(g, t, g')
    ensures Global(g, t, g')
  {
    hide Rely, SharedOk;
    SharedQueue(g);
    CountersKeep(g, t, g');
  }

  lemma ResumeSeq(g: Shared, t: nat, e: Exit, todo: seq<Name>, stopped: set<Name>, k: Cont, g': Shared)
    requires Pre(g, t, SwSeqWait(e, todo, stopped, k)) && Locks(g, t, g') && g.w.Closed(e)
    ensures Global(g, t, g') && Local(g, t, SwSeqWait(e, todo, stopped, k), g', SwSeq(todo, stopped, k), [])
  {
    hide Local, Global, OkMain, OkOther, SharedOk, ContOk, AwaitOk, RunsWithin, NameOf, IsSuffix, StopSeq;
    SharedParts(g);
    LockGlobal(g, t, g');
    AwaitedGone(g.w, e, Elems(todo));
    assert NoneOf(g.w, stopped);
    WinnerLocal(g, t, SwSeqWait(e, todo, stopped, k), g', SwSeq(todo, stopped, k));
  }

  lemma AllGone(w: World, waits: set<Exit>)
    requires AllClosed(w, waits) && forall n :: w.Runs(n) ==> w.Done(w.services[n]) in waits
    ensures RunsWithin(w, {})
  {
  }

  lemma ResumeAll(g: Shared, t: nat, waits: set<Exit>, k: Cont, g': Shared)
    requires Pre(g, t, SwAllWait(waits, k)) && Locks(g, t, g') && AllClosed(g.w, waits)
    ensures Global(g, t, g') && Local(g, t, SwAllWait(waits, k), g', SwEnd(k), [])
  {
    hide Local, Global, OkMain, OkOther, SharedOk, ContOk, RunsWithin, AllClosed;
    LockGlobal(g, t, g');
    AllGone(g.w, waits);
    WinnerLocal(g, t, SwAllWait(waits, k), g', SwEnd(k));
  }

  lemma StepSwResume(g: Shared, t: nat, pc: Pc, g': Shared, pc': Pc)
    requires Pre(g, t, pc) && (pc.SwSeqWait? || pc.SwAllWait?) && DoSwResume(g, t, pc, g', pc')
    ensures Global(g, t, g') && Local(g, t, pc, g', pc', [])
  {
    hide Local, Global, Pre, Locks, AllClosed;
    match pc
    case SwSeqWait(e, todo, stopped, k) => ResumeSeq(g, t, e, todo, stopped, k, g');
    case SwAllWait(waits, k) => ResumeAll(g, t, waits, k, g');
  }

  lemma StepSwEnd(g: Shared, t: nat, k: Cont, g': Shared, pc': Pc)
    requires Pre(g, t, SwEnd(k)) && DoSwEnd(g, k, g', pc')
    ensures Global(g, t, g') && Local(g, t, SwEnd(k), g', pc', [])
  {
    hide Local, Global, OkMain, OkOther, SharedOk, ContOk, RunsWithin, Rely;
    SharedQueue(g);
    CountersKeep(g, t, g');
    WinnerLocal(g, t, SwEnd(k), g', pc');
  }

  lemma StepSwDone(g: Shared, t: nat, k: Cont, g': Shared, pc': Pc)
    requires Pre(g, t, SwDone(k)) && DoSwDone(g, k, g', pc')
    ensures Global(g, t, g') && Local(g, t, SwDone(k), g', pc', [])
  {
    hide Local, OkMain, OkOther, ContOk, RunsWithin, Valid, Evolves, Shrinks, KeepsClaimed;
    EvolvesSelf(g.w);
    AfterOk(g', k);
    WinnerShape(SwDone(k));
    PlainLocal(g, t, SwDone(k), g', pc');
  }
}
