/**
  What holds in every state of every run of the supervisor: the invariant, and
  what it means for the restart channel, for shutdown, for processes and pids,
  and for the restart counter.
 */
module Safety {
  import opened World
  import opened Protocol
  import opened Invariant
  import opened Stability
  import opened Steps
  import opened StartSteps
  import opened SweepSteps
  import opened RequestSteps

  // ------------------------------------------------------ one step of a goroutine

  lemma MainStep(g: Shared, pc: Pc, g': Shared, pc': Pc, spawn: seq<Pc>)
    requires Pre(g, 0, pc) && IsMain(pc) && Act(g, 0, pc, g', pc', spawn)
    ensures Global(g, 0, g') && Local(g, 0, pc, g', pc', spawn)
  {
    hide Pre, Global, Local, DoWait, DoGot, DoExit, DoBump, DoSpawn, DoOrphan, DoTeardown;
    match pc
    case MWait => StepWait(g, g', pc', spawn);
    case MGot(p) => StepGot(g, p, g', pc', spawn);
    case MHold(e, ok, refused) => StepExit(g, e, ok, refused, g', pc', spawn);
    case MBump(req) => StepBump(g, req, g', pc', spawn);
    case MSpawn(req) => StepSpawn(g, req, g', pc', spawn);
    case MOrphan => StepOrphan(g, g', pc', spawn);
    case MBroke => StepTeardown(g, pc, g', pc', spawn);
    case MTear => StepTeardown(g, pc, g', pc', spawn);
    case MClose => StepTeardown(g, pc, g', pc', spawn);
  }

  lemma HandlerStep(g: Shared, t: nat, pc: Pc, g': Shared, pc': Pc)
    requires Pre(g, t, pc) && ActHandler(g, pc, g', pc')
    ensures Global(g, t, g') && Local(g, t, pc, g', pc', [])
  {
    hide Pre, Global, Local, DoSend, DoSent, DoHandle, DoTest, DoSettle;
    match pc
    case Send(req) => StepSend(g, t, req, g', pc');
    case Sent => StepSent(g, t, g', pc');
    case Handle(req) => StepHandle(g, t, req, g', pc');
    case HTest(req) => StepTest(g, t, req, g', pc');
    case HEnd(req, o) => StepSettle(g, t, req, o, g', pc');
  }

  lemma StartStep(g: Shared, t: nat, pc: Pc, g': Shared, pc': Pc)
    requires Pre(g, t, pc) && ActStart(g, t, pc, g', pc')
    ensures Global(g, t, g') && Local(g, t, pc, g', pc', [])
  {
    hide Pre, Global, Local, DoBegin, DoStLock, DoStart, DoCkLock, DoCtLock, DoStopOne;
    match pc
    case StBegin(i, k) => StepBegin(g, t, i, k, g', pc');
    case StLock(i, k) => StepStLock(g, t, i, k, g', pc');
    case StHold(i, k) => StepStart(g, t, i, k, g', pc');
    case CkLock(c) => StepCkLock(g, t, c, g', pc');
    case CtLock(n, wait) => StepCtLock(g, t, n, wait, g', pc');
    case StopOne(i) => StepStopOne(g, t, i, g', pc');
  }

  lemma ShutdownStep(g: Shared, t: nat, pc: Pc, g': Shared, pc': Pc)
    requires Pre(g, t, pc) && ActShutdown(g, t, pc, g', pc')
    ensures Global(g, t, g') && Local(g, t, pc, g', pc', [])
  {
    hide Pre, Global, Local, DoSwap, DoCloseShutdown, DoSweep, DoSwEnd, DoSwDone;
    match pc
    case ShSwap(k) => StepSwap(g, t, k, g', pc');
    case ShClose(k) => StepCloseShutdown(g, t, k, g', pc');
    case ShLock(k) => StepSweep(g, t, k, g', pc');
    case SwEnd(k) => StepSwEnd(g, t, k, g', pc');
    case SwDone(k) => StepSwDone(g, t, k, g', pc');
  }

  lemma NeverWaitsInMap(g: Shared, t: nat, pc: Pc)
    requires Pre(g, t, pc)
    ensures !pc.SwMapWait?
  {
    hide SharedOk, OkMain, OkOther;
  }

  lemma StoppingStep(g: Shared, t: nat, pc: Pc, g': Shared, pc': Pc)
    requires Pre(g, t, pc) && ActStopping(g, t, pc, g', pc')
    ensures Global(g, t, g') && Local(g, t, pc, g', pc', [])
  {
    NeverWaitsInMap(g, t, pc);
    hide Pre, Global, Local, DoSwSeq, DoSwMap, DoSwResume;
    match pc
    case SwSeq(todo, stopped, k) => StepSwSeq(g, t, todo, stopped, k, g', pc');
    case SwMap(left, stopped, k) => StepSwMap(g, t, left, stopped, k, g', pc');
    case SwSeqWait(_, _, _, _) => StepSwResume(g, t, pc, g', pc');
    case SwAllWait(_, _) => StepSwResume(g, t, pc, g', pc');
  }

  lemma OrderedStep(g: Shared, t: nat, pc: Pc, g': Shared, pc': Pc)
    requires Pre(g, t, pc) && ActOrdered(g, t, pc, g', pc')
    ensures Global(g, t, g') && Local(g, t, pc, g', pc', [])
  {
    hide Pre, Global, Local, DoOStop, DoOHold, DoOWait, DoOStart, DoOEnd;
    match pc
    case OStop(job) => StepOStop(g, t, job, g', pc');
    case OHold(job) => StepOHold(g, t, job, g', pc');
    case OWait(job) => StepOWait(g, t, job, g', pc');
    case OStart(job, j) => StepOStart(g, t, job, j, g', pc');
    case OEnd(job) => StepOEnd(g, t, job, g', pc');
  }

  lemma ReloadStep(g: Shared, t: nat, pc: Pc, g': Shared, pc': Pc)
    requires Pre(g, t, pc) && ActReload(g, t, pc, g', pc')
    ensures Global(g, t, g') && Local(g, t, pc, g', pc', [])
  {
    hide Pre, Global, Local, DoRlLock, DoReload, DoRlWait, DoRlStart;
    match pc
    case RlLock(c) => StepRlLock(g, t, c, g', pc');
    case RlHold(c) => StepReload(g, t, c, g', pc');
    case RlWait(waits, toStart) => StepRlWait(g, t, waits, toStart, g', pc');
    case RlStart(waits, toStart) => StepRlStart(g, t, waits, toStart, g', pc');
  }

  lemma AloneStep(g: Shared, t: nat, pc: Pc, g': Shared, pc': Pc)
    requires Pre(g, t, pc) && ActAlone(g, t, pc, g', pc')
    ensures Global(g, t, g') && Local(g, t, pc, g', pc', [])
  {
    hide Pre, Global, Local, ActHandler, ActStart, ActShutdown, ActStopping, ActOrdered, ActReload;
    if ActHandler(g, pc, g', pc') {
      HandlerStep(g, t, pc, g', pc');
    } else if ActStart(g, t, pc, g', pc') {
      StartStep(g, t, pc, g', pc');
    } else if ActShutdown(g, t, pc, g', pc') {
      ShutdownStep(g, t, pc, g', pc');
    } else if ActStopping(g, t, pc, g', pc') {
      StoppingStep(g, t, pc, g', pc');
    } else if ActOrdered(g, t, pc, g', pc') {
      OrderedStep(g, t, pc, g', pc');
    } else {
      ReloadStep(g, t, pc, g', pc');
    }
  }

  /** Every step of every goroutine keeps the shared invariant, its own, and what the others rely on. */
  lemma AnyStep(g: Shared, t: nat, pc: Pc, g': Shared, pc': Pc, spawn: seq<Pc>)
    requires Pre(g, t, pc) && Act(g, t, pc, g', pc', spawn) && (IsMain(pc) ==> t == 0)
    ensures Global(g, t, g') && Local(g, t, pc, g', pc', spawn)
  {
    hide Pre, Global, Local, ActAlone, DoWait, DoGot, DoExit, DoBump, DoSpawn, DoOrphan, DoTeardown, DoDispatch;
    hide DoCheck, DoRestart;
    if IsMain(pc) {
      MainStep(g, pc, g', pc', spawn);
    } else {
      match pc
      case Dispatch => StepDispatch(g, t, g', pc', spawn);
      case CkHold(c) => StepCheck(g, t, c, g', pc', spawn);
      case CtHold(n, wait) => StepRestart(g, t, n, wait, g', pc', spawn);
      case _ => AloneStep(g, t, pc, g', pc');
    }
  }

  // --------------------------------------------------------- one step of the system

  lemma OthersStay(s: State, t: nat, g': Shared, pc': Pc, u: nat)
    requires Inv(s) && t < |s.threads| && u < |s.threads| && u != t
    requires Global(s.g, t, g') && LockStep(s.g, t, s.threads[t], g', pc') && WinnerStep(s.g, t, s.threads[t], g', pc')
    ensures ThreadOk(g', u, s.threads[u])
  {
    assert ThreadOk(s.g, u, s.threads[u]);
    assert ThreadOk(s.g, t, s.threads[t]);
    hide SharedOk, PcOk, Holds, IsMain, IsWinner;
    InvFlags(s);
    GlobalRely(s.g, t, g');
    OkStays(s.g, t, g', u, s.threads[u]);
  }

  lemma InvFlags(s: State)
    requires Inv(s)
    ensures FlagsOk(s.g) && SharedOk(s.g)
  {
  }

  lemma GlobalRely(g: Shared, t: nat, g': Shared)
    requires Global(g, t, g')
    ensures Rely(g, t, g') && SharedOk(g')
  {
  }

  lemma InvPre(s: State, t: nat)
    requires Inv(s) && t < |s.threads|
    ensures Pre(s.g, t, s.threads[t]) && (IsMain(s.threads[t]) ==> t == 0)
  {
    hide SharedOk, PcOk;
    TotalsUpdate(s.threads, t, Gone);
  }

  lemma NewbornThread(s: State, t: nat, g': Shared, pc': Pc, u: nat, pc: Pc)
    requires Inv(s) && t < |s.threads| <= u && Newborn(g', pc) && LockStep(s.g, t, s.threads[t], g', pc')
    ensures ThreadOk(g', u, pc)
  {
    hide SharedOk, PcOk, Holds, IsMain, IsWinner;
  }

  lemma ActorThread(s: State, t: nat, g': Shared, pc': Pc)
    requires Inv(s) && t < |s.threads| && PcOk(g', pc')
    requires LockStep(s.g, t, s.threads[t], g', pc') && WinnerStep(s.g, t, s.threads[t], g', pc')
    ensures ThreadOk(g', t, pc')
  {
    assert ThreadOk(s.g, t, s.threads[t]);
    hide SharedOk, PcOk, Holds, IsMain, IsWinner;
  }

  lemma CountsStep(s: State, t: nat, g': Shared, pc': Pc, spawn: seq<Pc>)
    requires Inv(s) && t < |s.threads| && Balanced(s.g, s.threads[t], g', pc', spawn)
    ensures var ts := s.threads[t := pc'] + spawn;
      g'.pending == TotalLoad(ts) + |g'.queue| && g'.senders == TotalJoins(ts)
  {
    hide SharedOk, ThreadOk, TotalLoad, TotalJoins, Load, Joins;
    TotalsUpdate(s.threads, t, pc');
    TotalsAppend(s.threads[t := pc'], spawn);
  }

  lemma ThreadsStep(s: State, t: nat, g': Shared, pc': Pc, spawn: seq<Pc>, u: nat)
    requires Inv(s) && t < |s.threads| && u < |s.threads| + |spawn|
    requires Global(s.g, t, g') && Local(s.g, t, s.threads[t], g', pc', spawn)
    ensures ThreadOk(g', u, (s.threads[t := pc'] + spawn)[u])
  {
    LocalSplit(s.g, t, s.threads[t], g', pc', spawn);
    hide *;
    if u == t {
      ActorThread(s, t, g', pc');
    } else if u < |s.threads| {
      OthersStay(s, t, g', pc', u);
    } else {
      assert spawn[u - |s.threads|] in spawn;
      NewbornThread(s, t, g', pc', u, spawn[u - |s.threads|]);
    }
  }

  lemma LocalSplit(g: Shared, t: nat, pc: Pc, g': Shared, pc': Pc, spawn: seq<Pc>)
    requires Local(g, t, pc, g', pc', spawn)
    ensures PcOk(g', pc') && LockStep(g, t, pc, g', pc') && WinnerStep(g, t, pc, g', pc')
    ensures (forall x :: x in spawn ==> Newborn(g', x)) && Balanced(g, pc, g', pc', spawn)
  {
    hide PcOk, LockStep, WinnerStep, Newborn, Balanced;
  }

  lemma LockInRange(s: State, t: nat, g': Shared, pc': Pc)
    requires Inv(s) && t < |s.threads|
    requires LockStep(s.g, t, s.threads[t], g', pc') && WinnerStep(s.g, t, s.threads[t], g', pc')
    ensures (g'.mu.Some? ==> g'.mu.value < |s.threads|) && (g'.winner.Some? ==> g'.winner.value < |s.threads|)
  {
    hide SharedOk, ThreadOk, Holds, IsMain, IsWinner;
  }

  lemma InvThreadStep(s: State, t: nat, s': State)
    requires Inv(s) && ThreadStep(s, t, s')
    ensures Inv(s')
  {
    hide SharedOk, PcOk, Act, Local, Global, TotalLoad, TotalJoins;
    hide ThreadOk, Pre, LockStep, WinnerStep, Balanced, Newborn;
    var pc', spawn :| Act(s.g, t, s.threads[t], s'.g, pc', spawn) && s'.threads == s.threads[t := pc'] + spawn;
    InvPre(s, t);
    AnyStep(s.g, t, s.threads[t], s'.g, pc', spawn);
    GlobalRely(s.g, t, s'.g);
    LocalSplit(s.g, t, s.threads[t], s'.g, pc', spawn);
    CountsStep(s, t, s'.g, pc', spawn);
    LockInRange(s, t, s'.g, pc');
    forall u | 0 <= u < |s'.threads| ensures ThreadOk(s'.g, u, s'.threads[u]) {
      ThreadsStep(s, t, s'.g, pc', spawn, u);
    }
  }

  /** A request from outside starts a goroutine. */
  lemma InvArrival(s: State, pc: Pc)
    requires Inv(s) && Arrives(s.g, pc)
    ensures Inv(s.(threads := s.threads + [pc]))
  {
    ArrivesNewborn(s.g, pc);
    hide SharedOk, PcOk, TotalLoad, TotalJoins, Load, Joins, Holds, IsMain, IsWinner, Arrives;
    TotalsAppend(s.threads, [pc]);
    TotalsOne(pc);
    var ts := s.threads + [pc];
    forall u | 0 <= u < |ts| ensures ThreadOk(s.g, u, ts[u]) {
      if u < |s.threads| {
        assert ThreadOk(s.g, u, s.threads[u]);
      }
    }
  }

  lemma ArrivesNewborn(g: Shared, pc: Pc)
    requires Arrives(g, pc)
    ensures Newborn(g, pc) && Load(pc) == 0 && Joins(pc) == 0
  {
  }

  lemma KernelKeeps(w: World, w': World)
    requires Valid(w) && KernelStep(w, w')
    ensures Valid(w') && Shrinks(w, w') && KeepsClaimed(w, w')
  {
    KernelOnly(w, w'.kernel);
  }

  lemma InvKernel(s: State, s': State)
    requires Inv(s) && s'.threads == s.threads && KernelStep(s.g.w, s'.g.w) && s'.g == s.g.(w := s'.g.w)
    ensures Inv(s')
  {
    var nobody := |s.threads|;
    KernelGlobal(s, s', nobody);
    InvFlags(s);
    hide SharedOk, PcOk, TotalLoad, TotalJoins, KernelStep, Rely, Holds, IsMain, IsWinner, FlagsOk;
    forall u | 0 <= u < |s'.threads| ensures ThreadOk(s'.g, u, s'.threads[u]) {
      assert ThreadOk(s.g, u, s.threads[u]);
      OkStays(s.g, nobody, s'.g, u, s.threads[u]);
    }
  }

  lemma KernelGlobal(s: State, s': State, nobody: nat)
    requires Inv(s) && nobody == |s.threads| && KernelStep(s.g.w, s'.g.w) && s'.g == s.g.(w := s'.g.w)
    ensures SharedOk(s'.g) && Rely(s.g, nobody, s'.g)
  {
    InvFlags(s);
    hide FlagsOk, ThreadOk, TotalLoad, TotalJoins;
    KernelKeeps(s.g.w, s'.g.w);
    hide KernelStep, Shrinks, Evolves, Valid;
    ShrinksEvolves(s.g.w, s'.g.w);
    WorldStepKeeps(s.g, nobody, s'.g.w, s'.g);
  }

  lemma InvNext(s: State, s': State)
    requires Inv(s) && Next(s, s')
    ensures Inv(s')
  {
    hide Inv, ThreadStep, Arrives, KernelStep;
    if t: nat :| ThreadStep(s, t, s') {
      InvThreadStep(s, t, s');
    } else if pc :| Arrives(s.g, pc) && s' == s.(threads := s.threads + [pc]) {
      InvArrival(s, pc);
    } else {
      InvKernel(s, s');
    }
  }

  lemma InvInit(s: State)
    requires Init(s)
    ensures Inv(s)
  {
    TotalsOne(MWait);
    TotalsOne(Dispatch);
    TotalsAppend([MWait], [Dispatch]);
    assert s.threads == [MWait] + [Dispatch];
  }

  /** The invariant holds throughout every run. */
  lemma {:induction false} InvAlways(run: seq<State>, i: nat)
    requires IsRun(run) && i < |run|
    ensures Inv(run[i])
  {
    if i == 0 {
      InvInit(run[0]);
    } else {
      InvAlways(run, i - 1);
      InvNext(run[i - 1], run[i]);
    }
  }
}
