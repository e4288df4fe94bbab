/**
  What the steps of the supervisor do to the services, told one instance at a
  time and, where a configuration decides, from its text.
 */
module Effects {
  import opened Graphs
  import opened World
  import opened Reload
  import opened Protocol
  import opened Invariant
  import opened Steps
  import opened Safety
  import opened Theorems

  // ----------------------------------------------------------- whom a step stops

  /** Instance `j` is told to stop. */
  ghost predicate Told(w: World, w': World, j: nat) {
    j < |w.insts| && j < |w'.insts| && !w.insts[j].stopped && w'.insts[j].stopped
  }

  /** What a goroutine waits for, or the request that it carries will. */
  ghost predicate WaitsFor(pc: Pc, e: Exit) {
    match pc
    case SwSeqWait(exit, _, _, _) => e == exit
    case SwMapWait(exit, _, _, _) => e == exit
    case SwAllWait(waits, _) => e in waits
    case OWait(job) => job.exits != [] && e == job.exits[|job.exits| - 1]
    case RlWait(waits, _) => e in waits
    case Send(req) => e == req
    case Handle(req) => e == req
    case _ => false
  }

  lemma WaitAsked(g: Shared, t: nat, pc: Pc, e: Exit)
    requires ThreadOk(g, t, pc) && WaitsFor(pc, e)
    ensures g.w.Asked(e)
  {
    hide OkMain, JobOk, ContOk, RunsWithin, NoneOf, IsSuffix, StopSeq, World.Asked;
  }

  /** Nobody waits for an exit that was not asked for: the process is gone or has been told to stop. */
  lemma EveryWaitAsked(run: seq<State>, i: nat, t: nat, e: Exit)
    requires IsRun(run) && i < |run| && t < |run[i].threads| && WaitsFor(run[i].threads[t], e)
    ensures var w := run[i].g.w;
      w.Closed(e) || (e.inst < |w.insts| && w.insts[e.inst].gen == e.gen && w.insts[e.inst].stopped)
  {
    hide IsRun, WaitsFor, ThreadOk;
    InvAlways(run, i);
    assert ThreadOk(run[i].g, t, run[i].threads[t]);
    WaitAsked(run[i].g, t, run[i].threads[t], e);
  }

  /** The same of the requests in `restartCh`. */
  lemma EveryRequestAsked(run: seq<State>, i: nat, k: nat)
    requires IsRun(run) && i < |run| && k < |run[i].g.queue|
    ensures var w, e := run[i].g.w, run[i].g.queue[k];
      w.Closed(e) || (e.inst < |w.insts| && w.insts[e.inst].gen == e.gen && w.insts[e.inst].stopped)
  {
    hide IsRun, ThreadOk, RunsWithin;
    InvAlways(run, i);
    assert ReqOk(run[i].g.w, run[i].g.queue[k]);
  }

  /** A plain failure takes down what requires the failed service. */
  ghost predicate FailureTargets(w: World, e: Exit, ok: bool, refused: bool, j: nat)
    requires j < |w.insts|
  {
    && !refused && e.inst < |w.insts| && !ok && !w.insts[e.inst].stopped
    && w.insts[e.inst].config.kind != Scheduled && w.insts[e.inst].config.kind != Oneshot
    && w.Current(j) && w.insts[e.inst].config.name in w.insts[j].config.policy.needs
  }

  /** A control restart that lists nobody else and need not wait. */
  ghost predicate RestartTargets(w: World, n: Name, wait: bool, j: nat)
    requires j < |w.insts|
  {
    && n in w.services && w.services[n] == j && !wait
    && (w.insts[j].config.policy.withDependents ==> RunningDependents(w, n) == [])
  }

  /** The instances that a goroutine at `pc` is about to stop, should they run. */
  ghost predicate Targets(w: World, pc: Pc, j: nat)
    requires j < |w.insts|
  {
    match pc
    case MHold(e, ok, refused) => FailureTargets(w, e, ok, refused, j)
    case SwSeq(todo, _, _) => todo != [] && todo[0] in w.services && w.services[todo[0]] == j
    case ShLock(_) => w.mode == Simultaneous && w.Current(j)
    case CtHold(n, wait) => RestartTargets(w, n, wait, j)
    case OHold(job) => |job.exits| < |job.chain| && job.Next() == j
    // a reload: what it does not keep
    case RlHold(c) => w.Current(j) && !Keeps(w, c, w.insts[j].config.name)
    case StopOne(i) => i == j
    case _ => false
  }

  /** Of these, it tells those that run and have not been told yet. */
  ghost predicate ToTell(w: World, pc: Pc, j: nat)
    requires j < |w.insts|
  {
    Targets(w, pc, j) && w.insts[j].running && !w.insts[j].stopped
  }

  lemma StopTells(w: World, i: nat, j: nat)
    requires j < |w.insts|
    ensures Told(w, w.Stop(i), j) <==> i == j && w.insts[j].running && !w.insts[j].stopped
  {
  }

  lemma ForkTells(w: World, i: nat, p: nat, j: nat)
    requires i < |w.insts|
    ensures !Told(w, Fork(w, i, p), j)
  {
  }

  lemma SameTells(w: World, w': World, j: nat)
    requires w'.insts == w.insts
    ensures !Told(w, w', j)
  {
  }

  lemma ReconcileTells(w: World, c: Setup, j: nat)
    requires Valid(w) && j < |w.insts|
    ensures Told(w, Reconcile(w, c), j) <==>
      w.Current(j) && !Keeps(w, c, w.insts[j].config.name) && w.insts[j].running && !w.insts[j].stopped
  {
    AdjustedFacts(w, c, j);
    hide Keeps, Valid;
  }

  lemma ReapTells(w: World, p: nat, j: nat)
    requires p in w.pidMap && w.pidMap[p] < |w.insts|
    ensures !Told(w, Reap(w, p), j)
  {
  }

  lemma ExitTells(g: Shared, e: Exit, ok: bool, refused: bool, g': Shared, pc': Pc, spawn: seq<Pc>, j: nat)
    requires DoExit(g, e, ok, refused, g', pc', spawn) && j < |g.w.insts|
    ensures Told(g.w, g'.w, j) <==>
      FailureTargets(g.w, e, ok, refused, j) && g.w.insts[j].running && !g.w.insts[j].stopped
  {
    hide ExitAction;
  }

  lemma WaitSame(g: Shared, g': Shared, pc': Pc, spawn: seq<Pc>)
    requires DoWait(g, g', pc', spawn)
    ensures g'.w.insts == g.w.insts
  {
  }

  lemma TeardownSame(g: Shared, pc: Pc, g': Shared, pc': Pc, spawn: seq<Pc>)
    requires DoTeardown(g, pc, g', pc', spawn)
    ensures g'.w == g.w
  {
  }

  lemma MainSame(g: Shared, pc: Pc, g': Shared, pc': Pc, spawn: seq<Pc>)
    requires IsMain(pc) && !pc.MHold? && !pc.MGot? && Act(g, 0, pc, g', pc', spawn)
    ensures g'.w.insts == g.w.insts
  {
    hide DoWait, DoGot, DoExit, DoTeardown, ActAlone, DoCheck, DoRestart, DoDispatch;
    if pc.MWait? {
      WaitSame(g, g', pc', spawn);
    } else if pc.MBroke? || pc.MTear? || pc.MClose? {
      TeardownSame(g, pc, g', pc', spawn);
    }
  }

  lemma NoTargets(g: Shared, pc: Pc, j: nat)
    requires j < |g.w.insts| && !pc.MHold? && !pc.SwSeq? && !pc.ShLock? && !pc.CtHold? && !pc.OHold? && !pc.RlHold?
    requires !pc.StopOne?
    ensures !ToTell(g.w, pc, j)
  {
  }

  lemma GotTells(g: Shared, p: nat, g': Shared, pc': Pc, spawn: seq<Pc>, j: nat)
    requires DoGot(g, p, g', pc', spawn)
    ensures !Told(g.w, g'.w, j)
  {
    hide Told, Reap;
    if p in g.w.pidMap && g.w.pidMap[p] < |g.w.insts| {
      ReapTells(g.w, p, j);
    } else {
      SameTells(g.w, g'.w, j);
    }
  }

  lemma MainTells(g: Shared, pc: Pc, g': Shared, pc': Pc, spawn: seq<Pc>, j: nat)
    requires IsMain(pc) && Act(g, 0, pc, g', pc', spawn) && j < |g.w.insts|
    ensures Told(g.w, g'.w, j) <==> ToTell(g.w, pc, j)
  {
    hide DoExit, DoGot, Told, FailureTargets;
    if pc.MHold? {
      ExitTells(g, pc.exit, pc.success, pc.refused, g', pc', spawn, j);
    } else if pc.MGot? {
      hide ToTell;
      NoTargets(g, pc, j);
      GotTells(g, pc.pid, g', pc', spawn, j);
    } else {
      hide Act, ToTell;
      NoTargets(g, pc, j);
      MainSame(g, pc, g', pc', spawn);
      SameTells(g.w, g'.w, j);
    }
  }

  lemma RestartWorld(g: Shared, n: Name, wait: bool, g': Shared, pc': Pc, spawn: seq<Pc>)
    requires DoRestart(g, n, wait, g', pc', spawn) && n in g.w.services && g.w.services[n] < |g.w.insts|
    ensures g'.w == if RestartTargets(g.w, n, wait, g.w.services[n]) then g.w.Stop(g.w.services[n]) else g.w
  {
    hide RunningDependents, World.Stop;
  }

  lemma RestartNobody(g: Shared, n: Name, wait: bool, g': Shared, pc': Pc, spawn: seq<Pc>)
    requires DoRestart(g, n, wait, g', pc', spawn) && n !in g.w.services
    ensures g'.w == g.w
  {
    hide RunningDependents;
  }

  lemma RestartTells(g: Shared, n: Name, wait: bool, g': Shared, pc': Pc, spawn: seq<Pc>, j: nat)
    requires DoRestart(g, n, wait, g', pc', spawn) && j < |g.w.insts| && NamesPoint(g.w)
    ensures Told(g.w, g'.w, j) <==>
      RestartTargets(g.w, n, wait, j) && g.w.insts[j].running && !g.w.insts[j].stopped
  {
    hide DoRestart, RunningDependents, Told, World.Stop;
    SameTells(g.w, g.w, j);
    if n in g.w.services {
      RestartWorld(g, n, wait, g', pc', spawn);
      StopTells(g.w, g.w.services[n], j);
    } else {
      RestartNobody(g, n, wait, g', pc', spawn);
    }
  }

  lemma ForkOrNot(g: Shared, i: nat, o: Outcome, g': Shared, j: nat)
    requires StartsAs(g, i, o, g')
    ensures !Told(g.w, g'.w, j)
  {
    hide Told, Fork, FreshPid, World.Current;
    if i < |g.w.insts| && g.w.Current(i) && !g.w.insts[i].running && o == Started {
      var p :| FreshPid(g.w, p) && g' == Unlock(g.(w := Fork(g.w, i, p)));
      ForkTells(g.w, i, p, j);
    } else {
      SameTells(g.w, g'.w, j);
    }
  }

  lemma StartSame(g: Shared, t: nat, pc: Pc, g': Shared, pc': Pc)
    requires ActStart(g, t, pc, g', pc') && !pc.StHold? && !pc.StopOne?
    ensures g'.w == g.w
  {
    hide Returns;
  }

  lemma StartTells(g: Shared, t: nat, pc: Pc, g': Shared, pc': Pc, j: nat)
    requires ActStart(g, t, pc, g', pc') && j < |g.w.insts|
    ensures Told(g.w, g'.w, j) <==> ToTell(g.w, pc, j)
  {
    if pc.StopOne? {
      StopTells(g.w, pc.i, j);
    } else if pc.StHold? {
      hide Returns, StartsAs, Told, ToTell;
      NoTargets(g, pc, j);
      var o :| Returns(pc.k, o, pc') && StartsAs(g, pc.i, o, g');
      ForkOrNot(g, pc.i, o, g', j);
    } else {
      hide ActStart, Told, ToTell;
      NoTargets(g, pc, j);
      StartSame(g, t, pc, g', pc');
      SameTells(g.w, g'.w, j);
    }
  }

  lemma StoppingTells(g: Shared, t: nat, pc: Pc, g': Shared, pc': Pc, j: nat)
    requires ActStopping(g, t, pc, g', pc') && j < |g.w.insts| && NamesPoint(g.w)
    requires pc.SwMap? ==> RunsWithin(g.w, {})
    ensures Told(g.w, g'.w, j) <==> ToTell(g.w, pc, j)
  {
    match pc
    case SwSeq(todo, _, _) =>
      if todo != [] && g.w.Runs(todo[0]) {
        StopTells(g.w, g.w.services[todo[0]], j);
      }
    case _ =>
  }

  lemma HandlerSame(g: Shared, pc: Pc, g': Shared, pc': Pc)
    requires ActHandler(g, pc, g', pc')
    ensures g'.w == g.w
  {
  }

  lemma ShutdownSame(g: Shared, t: nat, pc: Pc, g': Shared, pc': Pc)
    requires ActShutdown(g, t, pc, g', pc') && !pc.ShLock?
    ensures g'.w == g.w
  {
    hide DoSweep;
  }

  lemma OrderedSame(g: Shared, t: nat, pc: Pc, g': Shared, pc': Pc)
    requires ActOrdered(g, t, pc, g', pc') && !pc.OHold?
    ensures g'.w == g.w
  {
    hide DoOHold;
  }

  lemma ReloadSame(g: Shared, t: nat, pc: Pc, g': Shared, pc': Pc)
    requires ActReload(g, t, pc, g', pc') && !pc.RlHold?
    ensures g'.w == g.w
  {
    hide DoReload, AllClosed;
  }

  lemma OtherSame(g: Shared, t: nat, pc: Pc, g': Shared, pc': Pc)
    requires ActHandler(g, pc, g', pc') || ActShutdown(g, t, pc, g', pc') || ActOrdered(g, t, pc, g', pc')
          || ActReload(g, t, pc, g', pc')
    requires !pc.OHold? && !pc.RlHold? && !pc.ShLock?
    ensures g'.w == g.w
  {
    hide *;
    if ActHandler(g, pc, g', pc') {
      HandlerSame(g, pc, g', pc');
    } else if ActShutdown(g, t, pc, g', pc') {
      ShutdownSame(g, t, pc, g', pc');
    } else if ActOrdered(g, t, pc, g', pc') {
      OrderedSame(g, t, pc, g', pc');
    } else {
      ReloadSame(g, t, pc, g', pc');
    }
  }

  lemma StopCurrentTells(w: World, j: nat)
    requires j < |w.insts|
    ensures Told(w, StopCurrent(w), j) <==> w.Current(j) && w.insts[j].running && !w.insts[j].stopped
  {
  }

  lemma NobodyRuns(w: World, j: nat)
    requires RunningExits(w) == {} && j < |w.insts|
    ensures !w.Current(j) || !w.insts[j].running
  {
    var n := w.insts[j].config.name;
    if n in w.services {
      assert w.Done(w.services[n]) !in RunningExits(w);
    }
  }

  lemma SweepLeaves(g: Shared, t: nat, k: Cont, g': Shared, pc': Pc)
    requires DoSweep(g, t, k, g', pc')
    ensures g'.w == if g.w.mode != Simultaneous || RunningExits(g.w) == {} then g.w else StopCurrent(g.w)
  {
    hide StopSeq, RunningExits, StopCurrent;
  }

  lemma SweepTells(g: Shared, t: nat, k: Cont, g': Shared, pc': Pc, j: nat)
    requires DoSweep(g, t, k, g', pc') && j < |g.w.insts|
    ensures Told(g.w, g'.w, j) <==> ToTell(g.w, ShLock(k), j)
  {
    hide DoSweep, Told, RunningExits, StopCurrent, World.Current;
    SweepLeaves(g, t, k, g', pc');
    SameTells(g.w, g.w, j);
    StopCurrentTells(g.w, j);
    if RunningExits(g.w) == {} {
      NobodyRuns(g.w, j);
    }
  }

  lemma OHoldTells(g: Shared, job: Job, g': Shared, pc': Pc, j: nat)
    requires DoOHold(g, job, g', pc') && j < |g.w.insts|
    ensures Told(g.w, g'.w, j) <==> ToTell(g.w, OHold(job), j)
  {
    hide Told, World.Stop;
    StopTells(g.w, job.Next(), j);
  }

  lemma RlHoldTells(g: Shared, c: Setup, g': Shared, pc': Pc, j: nat)
    requires DoReload(g, c, g', pc') && j < |g.w.insts| && Valid(g.w)
    ensures Told(g.w, g'.w, j) <==> ToTell(g.w, RlHold(c), j)
  {
    hide Told, Reconcile, Valid, Keeps, ToStart, IsReplaced;
    ReconcileTells(g.w, c, j);
  }

  lemma OtherTells(g: Shared, t: nat, pc: Pc, g': Shared, pc': Pc, j: nat)
    requires Valid(g.w) && j < |g.w.insts|
    requires ActHandler(g, pc, g', pc') || ActShutdown(g, t, pc, g', pc') || ActOrdered(g, t, pc, g', pc')
          || ActReload(g, t, pc, g', pc')
    ensures Told(g.w, g'.w, j) <==> ToTell(g.w, pc, j)
  {
    hide Valid, ToTell, Told, DoSweep, DoOHold, DoReload;
    if pc.OHold? {
      OHoldTells(g, pc.job, g', pc', j);
    } else if pc.RlHold? {
      RlHoldTells(g, pc.setup, g', pc', j);
    } else if pc.ShLock? {
      SweepTells(g, t, pc.k, g', pc', j);
    } else {
      hide ActHandler, ActShutdown, ActOrdered, ActReload;
      NotOther(g, t, pc, g', pc');
      NoTargets(g, pc, j);
      OtherSame(g, t, pc, g', pc');
      SameTells(g.w, g'.w, j);
    }
  }

  lemma NotOther(g: Shared, t: nat, pc: Pc, g': Shared, pc': Pc)
    requires ActHandler(g, pc, g', pc') || ActShutdown(g, t, pc, g', pc') || ActOrdered(g, t, pc, g', pc')
          || ActReload(g, t, pc, g', pc')
    ensures !pc.MHold? && !pc.SwSeq? && !pc.CtHold? && !pc.StopOne?
  {
    hide DoSend, DoSent, DoHandle, DoTest, DoSettle, DoSwap, DoCloseShutdown, DoSweep, DoSwEnd, DoSwDone;
    hide DoOStop, DoOHold, DoOWait, DoOStart, DoOEnd, DoRlLock, DoReload, DoRlWait, DoRlStart;
  }

  lemma PreFacts(g: Shared, t: nat, pc: Pc)
    requires Pre(g, t, pc)
    ensures Valid(g.w) && NamesPoint(g.w) && (pc.SwMap? ==> RunsWithin(g.w, {})) && (IsMain(pc) ==> t == 0)
  {
    hide OkMain, OkOther, ContOk, FlagsOk;
  }

  /** A step tells exactly its targets to stop, those of them that run and have not been told yet. */
  lemma TellsExactly(run: seq<State>, i: nat, t: nat, g': Shared, pc': Pc, spawn: seq<Pc>, j: nat)
    requires IsRun(run) && i < |run| && t < |run[i].threads| && !run[i].threads[t].CkHold?
    requires Act(run[i].g, t, run[i].threads[t], g', pc', spawn) && j < |run[i].g.w.insts|
    ensures var g := run[i].g;
      Told(g.w, g'.w, j) <==> ToTell(g.w, run[i].threads[t], j)
  {
    hide IsRun, Inv, Pre, Told, RestartTargets, FailureTargets, Valid, DoRestart, DoDispatch;
    hide ActHandler, ActStart, ActShutdown, ActStopping, ActOrdered, ActReload;
    var g, pc := run[i].g, run[i].threads[t];
    InvAlways(run, i);
    InvPre(run[i], t);
    PreFacts(g, t, pc);
    if IsMain(pc) {
      MainTells(g, pc, g', pc', spawn, j);
    } else if pc.CtHold? {
      RestartTells(g, pc.name, pc.wait, g', pc', spawn, j);
    } else if pc.Dispatch? {
      DispatchTells(g, g', pc', spawn, j);
    } else if ActStart(g, t, pc, g', pc') {
      StartTells(g, t, pc, g', pc', j);
    } else if ActStopping(g, t, pc, g', pc') {
      StoppingTells(g, t, pc, g', pc', j);
    } else {
      OtherTells(g, t, pc, g', pc', j);
    }
  }

  lemma DispatchTells(g: Shared, g': Shared, pc': Pc, spawn: seq<Pc>, j: nat)
    requires DoDispatch(g, g', pc', spawn) && j < |g.w.insts|
    ensures !Told(g.w, g'.w, j) && !ToTell(g.w, Dispatch, j)
  {
  }

  /**
    The sweep tells nobody to stop out of turn: when it tells an instance, that is
    a current service, and nothing ordered after it by any chain is running; before
    it in dependency order.
   */
  lemma SweepTellsInOrder(run: seq<State>, i: nat, t: nat, g': Shared, pc': Pc, spawn: seq<Pc>, j: nat, x: Name)
    requires IsRun(run) && i < |run| && t < |run[i].threads| && IsWinner(run[i].threads[t])
    requires Act(run[i].g, t, run[i].threads[t], g', pc', spawn) && Told(run[i].g.w, g'.w, j)
    ensures var w := run[i].g.w; var n := w.insts[j].config.name;
      && n in w.services && w.services[n] == j
      && (w.mode == ReverseDep && w.graph.Before(n, x) ==> !w.Runs(x))
      && (w.mode == Dep && w.graph.Before(x, n) ==> !w.Runs(x))
  {
    hide IsRun, Inv, Act, Graph.Before, Valid;
    var pc, w := run[i].threads[t], run[i].g.w;
    TellsExactly(run, i, t, g', pc', spawn, j);
    InvAlways(run, i);
    InvFlags(run[i]);
    PointAt(w);
    if pc.SwSeq? {
      StopOrder(run, i, t, x);
    }
  }

  lemma PointAt(w: World)
    requires Valid(w)
    ensures NamesPoint(w)
  {
  }
}
