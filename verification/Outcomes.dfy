/**
  What comes of requests and starts: a process that is held to have been stopped
  was told so itself, restart requests are taken in the order they were sent, a
  start that fails shuts the daemon down, and the reap loop gives up only when
  nothing is left to reap.
 */
module Outcomes {
  import opened Graphs
  import opened World
  import opened Reload
  import opened Protocol
  import opened Invariant
  import opened RequestSteps
  import opened Safety
  import opened Effects

  // -------------------------------------------------------- processes told to stop

  /** The same instances, and none of them started. */
  ghost predicate SameStarts(w: World, w': World) {
    |w'.insts| == |w.insts| && forall j: nat :: j < |w.insts| ==> w'.insts[j].gen == w.insts[j].gen
  }

  /** Whatever is stopped afterwards was there before, with the same process. */
  ghost predicate FreshStarts(w: World, w': World) {
    forall j: nat :: j < |w'.insts| && w'.insts[j].stopped ==> j < |w.insts| && w'.insts[j].gen == w.insts[j].gen
  }

  lemma SameInsts(w: World, w': World)
    requires w'.insts == w.insts
    ensures SameStarts(w, w')
  {
  }

  lemma StopStarts(w: World, i: nat)
    ensures SameStarts(w, w.Stop(i))
  {
  }

  lemma RunsStarts(w: World, w': World)
    requires SameRuns(w, w')
    ensures SameStarts(w, w')
  {
    forall j: nat | j < |w.insts| ensures w'.insts[j].gen == w.insts[j].gen {
      assert w'.insts[j].(stopped := w.insts[j].stopped) == w.insts[j];
    }
  }

  lemma StopCurrentStarts(w: World)
    ensures SameStarts(w, StopCurrent(w))
  {
  }

  lemma StopRequirersStarts(w: World, n: Name)
    ensures SameStarts(w, StopRequirers(w, n))
  {
  }

  lemma GotStarts(g: Shared, p: nat, g': Shared, pc': Pc, spawn: seq<Pc>)
    requires DoGot(g, p, g', pc', spawn)
    ensures SameStarts(g.w, g'.w)
  {
  }

  lemma ExitStarts(g: Shared, e: Exit, ok: bool, refused: bool, g': Shared, pc': Pc, spawn: seq<Pc>)
    requires DoExit(g, e, ok, refused, g', pc', spawn)
    ensures SameStarts(g.w, g'.w)
  {
    hide SameStarts, StopRequirers, ExitAction;
    SameInsts(g.w, g.w);
    if e.inst < |g.w.insts| {
      StopRequirersStarts(g.w, g.w.insts[e.inst].config.name);
    }
  }

  lemma MainStarts(g: Shared, pc: Pc, g': Shared, pc': Pc, spawn: seq<Pc>)
    requires IsMain(pc) && Act(g, 0, pc, g', pc', spawn)
    ensures SameStarts(g.w, g'.w)
  {
    hide SameStarts, DoExit, DoGot;
    if pc.MHold? {
      ExitStarts(g, pc.exit, pc.success, pc.refused, g', pc', spawn);
    } else if pc.MGot? {
      GotStarts(g, pc.pid, g', pc', spawn);
    } else {
      hide Act;
      MainSame(g, pc, g', pc', spawn);
      SameInsts(g.w, g'.w);
    }
  }

  lemma CheckStarts(g: Shared, c: Check, g': Shared, pc': Pc, spawn: seq<Pc>)
    requires Valid(g.w) && DoCheck(g, c, g', pc', spawn)
    ensures SameStarts(g.w, g'.w)
  {
    hide SameStarts, Valid, NoDup, Elems, DoCheckIn;
    var names :| NoDup(names) && Elems(names) == g.w.services.Keys && DoCheckIn(g, names, c, g', pc', spawn);
    CheckInStarts(g, names, c, g', pc', spawn);
  }

  lemma CheckInStarts(g: Shared, names: seq<Name>, c: Check, g': Shared, pc': Pc, spawn: seq<Pc>)
    requires Valid(g.w) && DoCheckIn(g, names, c, g', pc', spawn)
    ensures SameStarts(g.w, g'.w)
  {
    hide SameStarts, Valid, Sends, SameRuns, ReqOk, CheckLoop;
    CheckLoopKeeps(g.w, names, c);
    RunsStarts(g.w, CheckLoop(g.w, names, c).w);
  }

  lemma RestartStarts(g: Shared, n: Name, wait: bool, g': Shared, pc': Pc, spawn: seq<Pc>)
    requires NamesPoint(g.w) && DoRestart(g, n, wait, g', pc', spawn)
    ensures SameStarts(g.w, g'.w)
  {
    hide SameStarts, DoRestart, RestartTargets, World.Stop;
    SameInsts(g.w, g.w);
    if n in g.w.services {
      RestartWorld(g, n, wait, g', pc', spawn);
      StopStarts(g.w, g.w.services[n]);
    } else {
      RestartNobody(g, n, wait, g', pc', spawn);
    }
  }

  lemma StoppingStarts(g: Shared, t: nat, pc: Pc, g': Shared, pc': Pc)
    requires ActStopping(g, t, pc, g', pc')
    ensures SameStarts(g.w, g'.w)
  {
    hide SameStarts, World.Stop, World.Runs, AllClosed;
    SameInsts(g.w, g.w);
    forall i: nat ensures SameStarts(g.w, g.w.Stop(i)) {
      StopStarts(g.w, i);
    }
  }

  lemma OtherStarts(g: Shared, t: nat, pc: Pc, g': Shared, pc': Pc)
    requires ActHandler(g, pc, g', pc') || ActShutdown(g, t, pc, g', pc') || ActOrdered(g, t, pc, g', pc')
          || ActReload(g, t, pc, g', pc')
    requires !pc.RlHold?
    ensures SameStarts(g.w, g'.w)
  {
    hide SameStarts, DoSweep, StopCurrent, World.Stop;
    SameInsts(g.w, g.w);
    if pc.OHold? {
      StopStarts(g.w, pc.job.Next());
    } else if pc.ShLock? {
      SweepLeaves(g, t, pc.k, g', pc');
      StopCurrentStarts(g.w);
    } else {
      hide ActHandler, ActShutdown, ActOrdered, ActReload;
      OtherSame(g, t, pc, g', pc');
    }
  }

  lemma LoneStarts(g: Shared, t: nat, pc: Pc, g': Shared, pc': Pc)
    requires ActAlone(g, t, pc, g', pc') && !pc.StHold? && !pc.RlHold?
    ensures SameStarts(g.w, g'.w)
  {
    hide SameStarts, ActHandler, ActStart, ActShutdown, ActStopping, ActOrdered, ActReload;
    if ActStart(g, t, pc, g', pc') {
      if pc.StopOne? {
        StopOneStarts(g, t, pc, g', pc');
      } else {
        StartSame(g, t, pc, g', pc');
        SameInsts(g.w, g'.w);
      }
    } else if ActStopping(g, t, pc, g', pc') {
      StoppingStarts(g, t, pc, g', pc');
    } else {
      OtherStarts(g, t, pc, g', pc');
    }
  }

  lemma StopOneStarts(g: Shared, t: nat, pc: Pc, g': Shared, pc': Pc)
    requires ActStart(g, t, pc, g', pc') && pc.StopOne?
    ensures SameStarts(g.w, g'.w)
  {
    hide SameStarts, World.Stop;
    StopStarts(g.w, pc.i);
  }

  /** Processes are started by `startService` under the lock, and otherwise only a reload makes instances. */
  lemma StartsOnlyHere(g: Shared, t: nat, pc: Pc, g': Shared, pc': Pc, spawn: seq<Pc>)
    requires Valid(g.w) && Act(g, t, pc, g', pc', spawn) && (IsMain(pc) ==> t == 0) && !pc.StHold? && !pc.RlHold?
    ensures SameStarts(g.w, g'.w)
  {
    hide SameStarts, ActAlone, DoWait, DoGot, DoExit, DoTeardown, DoCheck, DoRestart, Valid, NamesPoint;
    PointAt(g.w);
    if IsMain(pc) {
      MainStarts(g, pc, g', pc', spawn);
    } else {
      match pc
      case Dispatch => SameInsts(g.w, g'.w);
      case CkHold(c) => CheckStarts(g, c, g', pc', spawn);
      case CtHold(n, wait) => RestartStarts(g, n, wait, g', pc', spawn);
      case _ => LoneStarts(g, t, pc, g', pc');
    }
  }

  lemma ForkStarts(w: World, i: nat, p: nat)
    requires i < |w.insts|
    ensures FreshStarts(w, Fork(w, i, p))
  {
  }

  lemma SameFresh(w: World, w': World)
    requires SameStarts(w, w')
    ensures FreshStarts(w, w')
  {
  }

  lemma HoldStarts(g: Shared, i: nat, k: Cont, g': Shared, pc': Pc)
    requires DoStart(g, i, k, g', pc')
    ensures FreshStarts(g.w, g'.w)
  {
    hide FreshStarts, Returns, StartsAs;
    var o :| Returns(k, o, pc') && StartsAs(g, i, o, g');
    StartsFresh(g, i, o, g');
  }

  lemma StartsFresh(g: Shared, i: nat, o: Outcome, g': Shared)
    requires StartsAs(g, i, o, g')
    ensures FreshStarts(g.w, g'.w)
  {
    hide FreshStarts, SameStarts, Fork, FreshPid, World.Current;
    if i < |g.w.insts| && g.w.Current(i) && !g.w.insts[i].running && o == Started {
      var p :| FreshPid(g.w, p) && g' == Unlock(g.(w := Fork(g.w, i, p)));
      ForkStarts(g.w, i, p);
    } else {
      SameInsts(g.w, g'.w);
      SameFresh(g.w, g'.w);
    }
  }

  lemma ReconcileStarts(w: World, c: Setup)
    ensures FreshStarts(w, Reconcile(w, c))
  {
    var w' := Reconcile(w, c);
    forall j: nat | j < |w'.insts| && w'.insts[j].stopped ensures j < |w.insts| && w'.insts[j].gen == w.insts[j].gen {
      if j < |w.insts| {
        AdjustedFacts(w, c, j);
      } else {
        FreshFacts(w, c, j - |w.insts|);
      }
    }
  }

  lemma ActFresh(g: Shared, t: nat, pc: Pc, g': Shared, pc': Pc, spawn: seq<Pc>)
    requires Valid(g.w) && Act(g, t, pc, g', pc', spawn) && (IsMain(pc) ==> t == 0)
    ensures FreshStarts(g.w, g'.w)
  {
    hide FreshStarts, SameStarts, Valid, Reconcile, ToStart, IsReplaced, DoStart;
    if pc.StHold? {
      HoldStarts(g, pc.i, pc.k, g', pc');
    } else if pc.RlHold? {
      ReconcileStarts(g.w, pc.setup);
    } else {
      hide Act;
      StartsOnlyHere(g, t, pc, g', pc', spawn);
      SameFresh(g.w, g'.w);
    }
  }

  lemma NextFresh(s: State, s': State)
    requires Inv(s) && Next(s, s')
    ensures FreshStarts(s.g.w, s'.g.w)
  {
    hide Inv, FreshStarts, SameStarts, Act, Arrives, Valid;
    InvFlags(s);
    if t: nat :| ThreadStep(s, t, s') {
      var pc', spawn :| Act(s.g, t, s.threads[t], s'.g, pc', spawn) && s'.threads == s.threads[t := pc'] + spawn;
      InvPre(s, t);
      ActFresh(s.g, t, s.threads[t], s'.g, pc', spawn);
    } else {
      SameInsts(s.g.w, s'.g.w);
      SameFresh(s.g.w, s'.g.w);
    }
  }

  lemma RunStep(run: seq<State>, i: nat, j: nat)
    requires IsRun(run) && j == i + 1 && j < |run|
    ensures Next(run[i], run[j])
  {
  }

  lemma RunBegins(run: seq<State>)
    requires IsRun(run)
    ensures |run| > 0 && forall j :: 0 <= j < |run[0].g.w.insts| ==> !run[0].g.w.insts[j].stopped
  {
  }

  /**
    An exit counts as asked for only if that very process was told to stop: there is
    a step since its start that told its instance.
   */
  lemma {:induction false} StoppedWasTold(run: seq<State>, i: nat, j: nat) returns (m: nat, n: nat)
    requires IsRun(run) && i < |run| && j < |run[i].g.w.insts| && run[i].g.w.insts[j].stopped
    ensures n == m + 1 && n <= i && Told(run[m].g.w, run[n].g.w, j)
    ensures run[m].g.w.insts[j].gen == run[n].g.w.insts[j].gen == run[i].g.w.insts[j].gen
  {
    hide IsRun, Inv, Next;
    if i == 0 {
      RunBegins(run);
    } else {
      var w, w' := run[i - 1].g.w, run[i].g.w;
      InvAlways(run, i - 1);
      RunStep(run, i - 1, i);
      NextFresh(run[i - 1], run[i]);
      assert j < |w.insts| && w'.insts[j].gen == w.insts[j].gen;
      if w.insts[j].stopped {
        m, n := StoppedWasTold(run, i - 1, j);
      } else {
        m, n := i - 1, i;
      }
    }
  }

  // -------------------------------------------------------------- the restart queue

  /** Goroutine `t` sends `req` on the restart channel. */
  ghost predicate Sending(s: State, s': State, t: nat, req: Exit) {
    t < |s.threads| && t < |s'.threads| && s.threads[t] == Send(req) && s'.threads[t] == Sent
  }

  ghost function SentIn(s: State, s': State): seq<Exit> {
    if exists t: nat, req :: Sending(s, s', t, req) then (var t: nat, req :| Sending(s, s', t, req); [req]) else []
  }

  /** The request whose handler is started. */
  ghost function TakenIn(s: State, s': State): seq<Exit> {
    var n := |s.threads|;
    if n < |s'.threads| && s'.threads[n].Handle? then [s'.threads[n].req] else []
  }

  ghost function AllSent(run: seq<State>): seq<Exit> {
    var n := |run| - 1;
    if n < 1 then [] else AllSent(run[..n]) + SentIn(run[n - 1], run[n])
  }

  ghost function AllTaken(run: seq<State>): seq<Exit> {
    var n := |run| - 1;
    if n < 1 then [] else AllTaken(run[..n]) + TakenIn(run[n - 1], run[n])
  }

  ghost predicate NoHandler(spawn: seq<Pc>) {
    forall x :: x in spawn ==> !x.Handle?
  }

  lemma MainQueue(g: Shared, pc: Pc, g': Shared, pc': Pc, spawn: seq<Pc>)
    requires IsMain(pc) && Act(g, 0, pc, g', pc', spawn)
    ensures g'.queue == g.queue && NoHandler(spawn)
  {
    hide DoExit, DoWait, DoGot, DoTeardown, NoHandler, DoCheck, DoRestart, DoDispatch, ActAlone;
    NoneHandles();
    match pc
    case MWait => WaitQueue(g, g', pc', spawn);
    case MGot(p) => GotQueue(g, p, g', pc', spawn);
    case MHold(e, ok, refused) => ExitQueue(g, e, ok, refused, g', pc', spawn);
    case MBroke => TeardownQueue(g, pc, g', pc', spawn);
    case MTear => TeardownQueue(g, pc, g', pc', spawn);
    case MClose => TeardownQueue(g, pc, g', pc', spawn);
    case _ =>
  }

  lemma NoneHandles()
    ensures NoHandler([]) && NoHandler([ShSwap(Ends)]) && forall req :: NoHandler([Send(req)])
  {
  }

  lemma WaitQueue(g: Shared, g': Shared, pc': Pc, spawn: seq<Pc>)
    requires DoWait(g, g', pc', spawn)
    ensures g'.queue == g.queue && spawn == []
  {
    hide Claim;
  }

  lemma GotQueue(g: Shared, p: nat, g': Shared, pc': Pc, spawn: seq<Pc>)
    requires DoGot(g, p, g', pc', spawn)
    ensures g'.queue == g.queue && spawn == []
  {
    hide Reap;
  }

  lemma ExitQueue(g: Shared, e: Exit, ok: bool, refused: bool, g': Shared, pc': Pc, spawn: seq<Pc>)
    requires DoExit(g, e, ok, refused, g', pc', spawn)
    ensures g'.queue == g.queue && (spawn == [] || spawn == [ShSwap(Ends)])
  {
    hide AfterExit, ExitAction;
  }

  lemma TeardownQueue(g: Shared, pc: Pc, g': Shared, pc': Pc, spawn: seq<Pc>)
    requires DoTeardown(g, pc, g', pc', spawn)
    ensures g'.queue == g.queue && spawn == []
  {
  }

  lemma CheckQueue(g: Shared, c: Check, g': Shared, pc': Pc, spawn: seq<Pc>)
    requires DoCheck(g, c, g', pc', spawn)
    ensures g'.queue == g.queue && NoHandler(spawn)
  {
    hide CheckLoop;
  }

  lemma RestartQueue(g: Shared, n: Name, wait: bool, g': Shared, pc': Pc, spawn: seq<Pc>)
    requires DoRestart(g, n, wait, g', pc', spawn)
    ensures g'.queue == g.queue && NoHandler(spawn)
  {
    hide RunningDependents, World.Stop, World.Done, NoHandler;
    NoneHandles();
  }

  lemma LoneQueue(g: Shared, t: nat, pc: Pc, g': Shared, pc': Pc)
    requires ActAlone(g, t, pc, g', pc') && !pc.Send?
    ensures g'.queue == g.queue
  {
    hide ActStopping, ActShutdown, ActOrdered, ActReload, ActStart, ActHandler;
    if ActHandler(g, pc, g', pc') {
      HandlerQueue(g, pc, g', pc');
    } else if ActStart(g, t, pc, g', pc') {
      StartQueue(g, t, pc, g', pc');
    } else if ActShutdown(g, t, pc, g', pc') {
      ShutdownQueue(g, t, pc, g', pc');
    } else if ActStopping(g, t, pc, g', pc') {
      StoppingQueue(g, t, pc, g', pc');
    } else if ActOrdered(g, t, pc, g', pc') {
      OrderedQueue(g, t, pc, g', pc');
    } else {
      ReloadQueue(g, t, pc, g', pc');
    }
  }

  lemma HandlerQueue(g: Shared, pc: Pc, g': Shared, pc': Pc)
    requires ActHandler(g, pc, g', pc') && !pc.Send?
    ensures g'.queue == g.queue
  {
  }

  lemma StartQueue(g: Shared, t: nat, pc: Pc, g': Shared, pc': Pc)
    requires ActStart(g, t, pc, g', pc')
    ensures g'.queue == g.queue
  {
    hide Returns, StartsAs, World.Stop;
    if pc.StHold? {
      var o :| Returns(pc.k, o, pc') && StartsAs(g, pc.i, o, g');
      StartsQueue(g, pc.i, o, g');
    }
  }

  lemma StartsQueue(g: Shared, i: nat, o: Outcome, g': Shared)
    requires StartsAs(g, i, o, g')
    ensures g'.queue == g.queue
  {
    hide Fork, FreshPid, World.Current;
  }

  lemma ShutdownQueue(g: Shared, t: nat, pc: Pc, g': Shared, pc': Pc)
    requires ActShutdown(g, t, pc, g', pc')
    ensures g'.queue == g.queue
  {
    hide DoSweep;
    if pc.ShLock? {
      SweepQueue(g, t, pc.k, g', pc');
    }
  }

  lemma SweepQueue(g: Shared, t: nat, k: Cont, g': Shared, pc': Pc)
    requires DoSweep(g, t, k, g', pc')
    ensures g'.queue == g.queue
  {
    hide StopCurrent, RunningExits, StopSeq;
  }

  lemma StoppingQueue(g: Shared, t: nat, pc: Pc, g': Shared, pc': Pc)
    requires ActStopping(g, t, pc, g', pc')
    ensures g'.queue == g.queue
  {
    hide World.Stop, World.Runs, World.Closed, AllClosed;
  }

  lemma OrderedQueue(g: Shared, t: nat, pc: Pc, g': Shared, pc': Pc)
    requires ActOrdered(g, t, pc, g', pc')
    ensures g'.queue == g.queue
  {
    hide World.Stop, World.Closed;
  }

  lemma ReloadQueue(g: Shared, t: nat, pc: Pc, g': Shared, pc': Pc)
    requires ActReload(g, t, pc, g', pc')
    ensures g'.queue == g.queue
  {
    hide Reconcile, ToStart, IsReplaced, AllClosed;
  }

  /** Only senders and the dispatcher touch the channel. */
  lemma QueueKept(g: Shared, t: nat, pc: Pc, g': Shared, pc': Pc, spawn: seq<Pc>)
    requires Act(g, t, pc, g', pc', spawn) && (IsMain(pc) ==> t == 0) && !pc.Send? && !pc.Dispatch?
    ensures g'.queue == g.queue && NoHandler(spawn)
  {
    hide ActAlone, DoWait, DoGot, DoExit, DoTeardown, DoCheck, DoRestart;
    if IsMain(pc) {
      MainQueue(g, pc, g', pc', spawn);
    } else {
      match pc
      case CkHold(c) => CheckQueue(g, c, g', pc', spawn);
      case CtHold(n, wait) => RestartQueue(g, n, wait, g', pc', spawn);
      case _ => LoneQueue(g, t, pc, g', pc');
    }
  }

  lemma NobodySends(s: State, s': State, t: nat, pc': Pc, spawn: seq<Pc>)
    requires t < |s.threads| && !s.threads[t].Send? && s'.threads == s.threads[t := pc'] + spawn
    ensures SentIn(s, s') == []
  {
    forall u: nat, req ensures !Sending(s, s', u, req) {
      if u < |s.threads| && u != t {
        assert s'.threads[u] == s.threads[u];
      }
    }
  }

  lemma OneSends(s: State, s': State, t: nat)
    requires t < |s.threads| && s.threads[t].Send? && s'.threads == s.threads[t := Sent]
    ensures SentIn(s, s') == [s.threads[t].req]
  {
    assert Sending(s, s', t, s.threads[t].req);
    forall u: nat, req | Sending(s, s', u, req) ensures u == t {
    }
  }

  lemma ThreadQueue(s: State, t: nat, s': State, pc': Pc, spawn: seq<Pc>)
    requires t < |s.threads| && Act(s.g, t, s.threads[t], s'.g, pc', spawn) && (IsMain(s.threads[t]) ==> t == 0)
    requires s'.threads == s.threads[t := pc'] + spawn
    ensures s.g.queue + SentIn(s, s') == TakenIn(s, s') + s'.g.queue
  {
    hide SentIn, Act;
    var pc := s.threads[t];
    if pc.Send? {
      SendStep(s.g, t, pc, s'.g, pc', spawn);
      assert s'.threads == s.threads[t := pc'];
      OneSends(s, s', t);
    } else {
      NobodySends(s, s', t, pc', spawn);
      assert spawn != [] ==> s'.threads[|s.threads|] == spawn[0];
      if pc.Dispatch? {
        DispatchStep(s.g, t, pc, s'.g, pc', spawn);
      } else {
        QueueKept(s.g, t, pc, s'.g, pc', spawn);
      }
    }
  }

  lemma DispatchStep(g: Shared, t: nat, pc: Pc, g': Shared, pc': Pc, spawn: seq<Pc>)
    requires Act(g, t, pc, g', pc', spawn) && pc.Dispatch?
    ensures if spawn == [] then g'.queue == g.queue
            else |spawn| == 1 && spawn[0].Handle? && g.queue == [spawn[0].req] + g'.queue
  {
  }

  lemma SendStep(g: Shared, t: nat, pc: Pc, g': Shared, pc': Pc, spawn: seq<Pc>)
    requires Act(g, t, pc, g', pc', spawn) && pc.Send?
    ensures pc' == Sent && spawn == [] && g'.queue == g.queue + [pc.req]
  {
  }

  lemma NextQueue(s: State, s': State)
    requires Inv(s) && Next(s, s')
    ensures s.g.queue + SentIn(s, s') == TakenIn(s, s') + s'.g.queue
  {
    hide Inv, Act;
    if t: nat :| ThreadStep(s, t, s') {
      var pc', spawn :| Act(s.g, t, s.threads[t], s'.g, pc', spawn) && s'.threads == s.threads[t := pc'] + spawn;
      InvPre(s, t);
      ThreadQueue(s, t, s', pc', spawn);
    } else {
      assert forall u: nat :: u < |s.threads| ==> s'.threads[u] == s.threads[u];
    }
  }

  /** In every run, what was sent on the restart channel is what was taken, in order, and then what is still in it. */
  lemma {:induction false} QueueInOrder(run: seq<State>)
    requires IsRun(run)
    ensures AllSent(run) == AllTaken(run) + run[|run| - 1].g.queue
  {
    hide Inv, SentIn, TakenIn, Next;
    var n := |run| - 1;
    if n > 0 {
      RunStep(run, n - 1, n);
      assert IsRun(run[..n]);
      QueueInOrder(run[..n]);
      InvAlways(run, n - 1);
      NextQueue(run[n - 1], run[n]);
      Regrouped(AllSent(run[..n]), AllTaken(run[..n]), run[n - 1].g.queue, SentIn(run[n - 1], run[n]),
                TakenIn(run[n - 1], run[n]), run[n].g.queue);
    }
  }

  lemma Regrouped<T>(sent: seq<T>, taken: seq<T>, q: seq<T>, more: seq<T>, off: seq<T>, q': seq<T>)
    requires sent == taken + q && q + more == off + q'
    ensures sent + more == taken + off + q'
  {
    assert taken + q + more == taken + (q + more);
    assert taken + off + q' == taken + (off + q');
  }

  // ------------------------------------------------------------------ failed starts

  /**
    A start on behalf of a restart that leaves the service current but not running
    leads to a shutdown; otherwise the request ends or the restart goes on.
   */
  lemma FailedStartShutsDown(g: Shared, t: nat, i: nat, k: Cont, g': Shared, pc': Pc, spawn: seq<Pc>)
    requires Act(g, t, StHold(i, k), g', pc', spawn) && (k.Settles? || k.Leg?)
    ensures i < |g'.w.insts| && g'.w.Current(i) && !g'.w.insts[i].running ==> pc' == ShSwap(k)
    ensures k.Settles? && pc' != ShSwap(k) ==> pc'.HEnd? && pc'.req == k.req
    ensures k.Leg? && pc' != ShSwap(k) ==>
      pc' == if k.j + 1 < |k.job.chain| then OStart(k.job, k.j + 1) else OEnd(k.job)
  {
    hide Act, Returns, StartsAs, World.Current;
    var o := HoldStep(g, t, i, k, g', pc', spawn);
    StartLeaves(g, i, o, g');
    ReturnsTo(k, o, pc');
  }

  lemma HoldStep(g: Shared, t: nat, i: nat, k: Cont, g': Shared, pc': Pc, spawn: seq<Pc>) returns (o: Outcome)
    requires Act(g, t, StHold(i, k), g', pc', spawn)
    ensures Returns(k, o, pc') && StartsAs(g, i, o, g')
  {
    hide Returns, StartsAs;
    o :| Returns(k, o, pc') && StartsAs(g, i, o, g');
  }

  lemma ReturnsTo(k: Cont, o: Outcome, pc': Pc)
    requires Returns(k, o, pc') && o != Refused && o != Unmet && (k.Settles? || k.Leg?)
    ensures o == Failed ==> pc' == ShSwap(k)
    ensures k.Settles? && pc' != ShSwap(k) ==> pc'.HEnd? && pc'.req == k.req
    ensures k.Leg? && pc' != ShSwap(k) ==>
      pc' == if k.j + 1 < |k.job.chain| then OStart(k.job, k.j + 1) else OEnd(k.job)
  {
  }

  lemma StartLeaves(g: Shared, i: nat, o: Outcome, g': Shared)
    requires StartsAs(g, i, o, g')
    ensures o != Refused && o != Unmet
    ensures i < |g'.w.insts| && g'.w.Current(i) && !g'.w.insts[i].running ==> o == Failed
  {
    hide Fork, FreshPid, World.Current;
    if i < |g.w.insts| && g.w.Current(i) && !g.w.insts[i].running && o == Started {
      var p :| FreshPid(g.w, p) && g' == Unlock(g.(w := Fork(g.w, i, p)));
      ForkRuns(g.w, i, p);
    }
  }

  lemma ForkRuns(w: World, i: nat, p: nat)
    requires i < |w.insts|
    ensures i < |Fork(w, i, p).insts| && Fork(w, i, p).insts[i].running
  {
  }

  // ---------------------------------------------------------------- the reap loop

  /** The reap loop ends exactly when a shutdown has begun and no service process is left to be reaped. */
  lemma ReapLoopEnds(run: seq<State>, i: nat, g': Shared, pc': Pc, spawn: seq<Pc>)
    requires IsRun(run) && i < |run| && run[i].threads != []
    requires var pc := run[i].threads[0]; pc.MWait? || pc.MOrphan? || pc.MHold?
    requires Act(run[i].g, 0, run[i].threads[0], g', pc', spawn)
    ensures var g, pc := run[i].g, run[i].threads[0];
      pc' == MBroke <==>
        && g.flag && g'.w.pidMap == map[]
        && (pc.MWait? ==> g.w.kernel == map[]) && (pc.MHold? ==> pc.refused)
  {
    hide IsRun, Inv, DoExit;
    var g, pc := run[i].g, run[i].threads[0];
    InvAlways(run, i);
    InvFlags(run[i]);
    InvPre(run[i], 0);
    if pc.MHold? {
      HoldEnds(g, pc.exit, pc.success, pc.refused, g', pc', spawn);
    } else {
      EmptyKernel(g.w);
    }
  }

  lemma EmptyKernel(w: World)
    requires Valid(w)
    ensures w.kernel == map[] ==> w.pidMap == map[]
  {
    assert w.kernel == map[] ==> forall p :: p !in w.pidMap;
  }

  lemma HoldEnds(g: Shared, e: Exit, ok: bool, refused: bool, g': Shared, pc': Pc, spawn: seq<Pc>)
    requires DoExit(g, e, ok, refused, g', pc', spawn) && OkMain(g, MHold(e, ok, refused))
    ensures pc' == MBroke <==> g.flag && g'.w.pidMap == map[] && refused
  {
    hide ExitAction;
  }

  /** The exit of a process that a reload replaced or removed leads to nothing. */
  lemma DetachedExit(run: seq<State>, i: nat, e: Exit, ok: bool, g': Shared, pc': Pc, spawn: seq<Pc>)
    requires IsRun(run) && i < |run| && run[i].threads != [] && run[i].threads[0] == MHold(e, ok, false)
    requires Act(run[i].g, 0, MHold(e, ok, false), g', pc', spawn)
    requires e.inst < |run[i].g.w.insts| && !run[i].g.w.Current(e.inst)
    ensures pc' == MWait && spawn == [] && g'.w == run[i].g.w
  {
    hide IsRun, Inv, StopRequirers;
    InvAlways(run, i);
    InvPre(run[i], 0);
  }
}
