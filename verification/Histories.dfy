/**
  Where a goroutine that is in the middle of an ordered restart or a reload has
  come from: the steps behind it, read backwards along a run.
 */
module Histories {
  import opened World
  import opened Reload
  import opened Protocol

  // ------------------------------------------------------------- the step before

  /** In one of the parts of `startService`, for the caller `k`. */
  predicate Starting(pc: Pc, k: Cont) {
    (pc.StBegin? || pc.StLock? || pc.StHold?) && pc.k == k
  }

  /** What the control socket's restart of `n` lists: the service, then its running dependents if it asks for them. */
  ghost function Listed(w: World, n: Name): seq<nat> {
    if n !in w.services then []
    else
      var i := w.services[n];
      [i] + if i < |w.insts| && w.insts[i].config.policy.withDependents then RunningDependents(w, n) else []
  }

  /** The locked section of a control restart is about to begin `job`. */
  ghost predicate Begins(w: World, pc: Pc, job: Job) {
    && pc.CtHold? && pc.name in w.services && w.services[pc.name] < |w.insts|
    && job == Job(Listed(w, pc.name), [])
  }

  /** In the middle of an ordered restart or a reload. */
  predicate Busy(pc: Pc) {
    match pc
    case OStop(_) | OHold(_) | OWait(_) | OStart(_, _) | RlWait(_, _) | RlStart(_, _) => true
    case StBegin(_, k) => k.Leg? || k.Reloading?
    case StLock(_, k) => k.Leg? || k.Reloading?
    case StHold(_, k) => k.Leg? || k.Reloading?
    case _ => false
  }

  /** The only ways to such a point, from `pc` in state `g`. */
  ghost predicate From(g: Shared, pc: Pc, pc': Pc) {
    match pc'
    case OStop(job) => pc == OWait(job) || Begins(g.w, pc, job)
    case OHold(job) => pc == OStop(job)
    case OWait(job) => Collects(g.w, pc, job)
    case OStart(job, j) => if j == 0 then pc == OWait(job) else Starting(pc, Leg(job, j - 1))
    case StBegin(i, k) =>
      && (k.Leg? ==> pc == OStart(k.job, k.j))
      && (k.Reloading? ==> pc == RlStart(k.waits, [i] + k.rest))
    case StLock(i, k) => pc == StBegin(i, k)
    case StHold(i, k) => pc == StLock(i, k)
    case RlWait(waits, _) => pc.RlHold? && forall e :: e in waits <==> IsReplaced(g.w, pc.setup, e)
    case RlStart(waits, toStart) => pc == RlWait(waits, toStart) || Starting(pc, Reloading(waits, toStart))
    case _ => true
  }

  /** Stopping the next instance adds the exit of its process to `job`. */
  ghost predicate Collects(w: World, pc: Pc, job: Job) {
    && pc.OHold? && |pc.job.exits| < |pc.job.chain|
    && job == pc.job.(exits := pc.job.exits + [w.Done(pc.job.Next())])
  }

  lemma FromReturn(g: Shared, pc: Pc, k: Cont, o: Outcome, pc': Pc)
    requires Returns(k, o, pc') && Starting(pc, k)
    ensures From(g, pc, pc')
  {
  }

  lemma FromStart(g: Shared, t: nat, pc: Pc, g': Shared, pc': Pc)
    requires ActStart(g, t, pc, g', pc') && Busy(pc')
    ensures From(g, pc, pc')
  {
    hide Locks, Peeks, StartsAs, Returns, From;
    match pc
    case StBegin(i, k) =>
      if Returns(k, Unmet, pc') {
        FromReturn(g, pc, k, Unmet, pc');
      } else if Returns(k, Failed, pc') {
        FromReturn(g, pc, k, Failed, pc');
      } else {
        FromInside(g, pc, pc');
      }
    case StLock(i, k) =>
      if Returns(k, Refused, pc') {
        FromReturn(g, pc, k, Refused, pc');
      } else {
        FromInside(g, pc, pc');
      }
    case StHold(i, k) =>
      var o :| Returns(k, o, pc') && StartsAs(g, i, o, g');
      FromReturn(g, pc, k, o, pc');
    case _ =>
  }

  lemma FromInside(g: Shared, pc: Pc, pc': Pc)
    requires (pc.StBegin? && pc' == StLock(pc.i, pc.k)) || (pc.StLock? && pc' == StHold(pc.i, pc.k))
    ensures From(g, pc, pc')
  {
  }

  lemma FromOrdered(g: Shared, t: nat, pc: Pc, g': Shared, pc': Pc)
    requires ActOrdered(g, t, pc, g', pc') && Busy(pc')
    ensures From(g, pc, pc')
  {
    hide Locks, Peeks;
  }

  lemma FromReload(g: Shared, t: nat, pc: Pc, g': Shared, pc': Pc)
    requires ActReload(g, t, pc, g', pc') && Busy(pc')
    ensures From(g, pc, pc')
  {
    hide Locks, Peeks, Reconcile, ToStart, IsReplaced;
    if pc.RlStart? {
      assert [pc.toStart[0]] + pc.toStart[1..] == pc.toStart;
    }
  }

  lemma HandlerIdle(g: Shared, pc: Pc, g': Shared, pc': Pc)
    requires ActHandler(g, pc, g', pc')
    ensures !Busy(pc')
  {
  }

  lemma ShutdownIdle(g: Shared, t: nat, pc: Pc, g': Shared, pc': Pc)
    requires ActShutdown(g, t, pc, g', pc')
    ensures !Busy(pc')
  {
    hide Locks, Peeks, RunningExits, StopSeq, StopCurrent;
  }

  lemma StoppingIdle(g: Shared, t: nat, pc: Pc, g': Shared, pc': Pc)
    requires ActStopping(g, t, pc, g', pc')
    ensures !Busy(pc')
  {
    hide Locks, AllClosed;
    if pc.SwMap? && pc.left != {} {
      var n :| n in pc.left && DoSwName(g, n, pc.left, pc.stopped, pc.k, g', pc');
    }
  }

  /** The steps of the main goroutine, the dispatcher and those that start senders. */
  predicate Spawns(pc: Pc) {
    || pc.MWait? || pc.MGot? || pc.MHold? || pc.MBump? || pc.MSpawn? || pc.MOrphan? || pc.MBroke? || pc.MTear?
    || pc.MClose? || pc.Dispatch? || pc.CkHold? || pc.CtHold?
  }

  ghost predicate IdleSpawn(spawn: seq<Pc>) {
    forall x :: x in spawn ==> x.Send? || x.Handle? || x.ShSwap?
  }

  lemma MainIdle(g: Shared, pc: Pc, g': Shared, pc': Pc, spawn: seq<Pc>)
    requires || (pc.MWait? && DoWait(g, g', pc', spawn))
             || (pc.MGot? && DoGot(g, pc.pid, g', pc', spawn))
             || (pc.MHold? && DoExit(g, pc.exit, pc.success, pc.refused, g', pc', spawn))
    ensures !Busy(pc') && IdleSpawn(spawn)
  {
    hide Locks, Reap, AfterExit, ExitAction, Claim;
  }

  lemma OtherIdle(g: Shared, pc: Pc, g': Shared, pc': Pc, spawn: seq<Pc>)
    requires || (pc.MBump? && DoBump(g, pc.req, g', pc', spawn)) || (pc.MSpawn? && DoSpawn(g, pc.req, g', pc', spawn))
             || (pc.MOrphan? && DoOrphan(g, g', pc', spawn)) || (pc.Dispatch? && DoDispatch(g, g', pc', spawn))
             || ((pc.MBroke? || pc.MTear? || pc.MClose?) && DoTeardown(g, pc, g', pc', spawn))
    ensures !Busy(pc') && IdleSpawn(spawn)
  {
  }

  lemma CheckIdle(g: Shared, c: Check, g': Shared, pc': Pc, spawn: seq<Pc>)
    requires DoCheck(g, c, g', pc', spawn)
    ensures !Busy(pc') && IdleSpawn(spawn)
  {
    hide Enqueue, CheckLoop, Unlock;
  }

  lemma FromRestart(g: Shared, n: Name, wait: bool, g': Shared, pc': Pc, spawn: seq<Pc>)
    requires DoRestart(g, n, wait, g', pc', spawn)
    ensures (Busy(pc') ==> From(g, CtHold(n, wait), pc')) && IdleSpawn(spawn)
  {
    hide Enqueue, RunningDependents, Unlock;
  }

  lemma FromSpawning(g: Shared, t: nat, pc: Pc, g': Shared, pc': Pc, spawn: seq<Pc>)
    requires Spawns(pc) && Act(g, t, pc, g', pc', spawn)
    ensures (Busy(pc') ==> From(g, pc, pc')) && IdleSpawn(spawn)
  {
    hide DoWait, DoGot, DoExit, DoCheck, DoRestart, DoBump, DoSpawn, DoOrphan, DoTeardown, DoDispatch, ActAlone;
    hide From, Busy, IdleSpawn;
    if pc.MWait? || pc.MGot? || pc.MHold? {
      MainIdle(g, pc, g', pc', spawn);
    } else if pc.CkHold? {
      CheckIdle(g, pc.check, g', pc', spawn);
    } else if pc.CtHold? {
      FromRestart(g, pc.name, pc.wait, g', pc', spawn);
    } else {
      OtherIdle(g, pc, g', pc', spawn);
    }
  }

  lemma ActCases(g: Shared, t: nat, pc: Pc, g': Shared, pc': Pc, spawn: seq<Pc>)
    requires Act(g, t, pc, g', pc', spawn) && !Spawns(pc)
    ensures spawn == [] && ActAlone(g, t, pc, g', pc')
  {
    hide ActAlone;
  }

  /** A goroutine gets into an ordered restart or a reload, and on in it, in no other way. */
  lemma Whence(g: Shared, t: nat, pc: Pc, g': Shared, pc': Pc, spawn: seq<Pc>)
    requires Act(g, t, pc, g', pc', spawn)
    ensures (Busy(pc') ==> From(g, pc, pc')) && IdleSpawn(spawn)
  {
    hide Act, Spawns, Busy, From, ActHandler, ActStart, ActShutdown, ActStopping, ActOrdered, ActReload;
    if Spawns(pc) {
      FromSpawning(g, t, pc, g', pc', spawn);
    } else {
      ActCases(g, t, pc, g', pc', spawn);
      if Busy(pc') {
        if ActStart(g, t, pc, g', pc') {
          FromStart(g, t, pc, g', pc');
        } else if ActOrdered(g, t, pc, g', pc') {
          FromOrdered(g, t, pc, g', pc');
        } else if ActReload(g, t, pc, g', pc') {
          FromReload(g, t, pc, g', pc');
        } else if ActShutdown(g, t, pc, g', pc') {
          ShutdownIdle(g, t, pc, g', pc');
        } else if ActStopping(g, t, pc, g', pc') {
          StoppingIdle(g, t, pc, g', pc');
        } else {
          HandlerIdle(g, pc, g', pc');
        }
      }
    }
  }

  // ------------------------------------------------------------------- along a run

  /** One state earlier the goroutine was where it is, or made the step that led here. */
  lemma StepBack(s: State, s': State, t: nat)
    requires Next(s, s') && t < |s'.threads| && Busy(s'.threads[t])
    ensures t < |s.threads| && (s.threads[t] == s'.threads[t] || From(s.g, s.threads[t], s'.threads[t]))
  {
    hide Act, From, Busy, KernelStep;
    if u: nat :| ThreadStep(s, u, s') {
      var pc', spawn :| Act(s.g, u, s.threads[u], s'.g, pc', spawn) && s'.threads == s.threads[u := pc'] + spawn;
      Whence(s.g, u, s.threads[u], s'.g, pc', spawn);
      if t >= |s.threads| {
        assert s'.threads[t] == spawn[t - |s.threads|];
        SpawnIdle(s'.threads[t]);
      }
    } else if pc :| Arrives(s.g, pc) && s' == s.(threads := s.threads + [pc]) {
      ArrivesIdle(s.g, pc);
    }
  }

  lemma SpawnIdle(pc: Pc)
    requires pc.Send? || pc.Handle? || pc.ShSwap?
    ensures !Busy(pc)
  {
  }

  lemma ArrivesIdle(g: Shared, pc: Pc)
    requires Arrives(g, pc)
    ensures !Busy(pc)
  {
  }

  lemma RunBack(run: seq<State>, i: nat, t: nat)
    requires IsRun(run) && i < |run| && t < |run[i].threads| && Busy(run[i].threads[t])
    ensures i > 0 && t < |run[i - 1].threads|
    ensures run[i - 1].threads[t] == run[i].threads[t] || From(run[i - 1].g, run[i - 1].threads[t], run[i].threads[t])
  {
    hide Next, Init, Busy, From;
    if i == 0 {
      InitIdle(run[0], t);
    } else {
      assert Next(run[i - 1], run[i]);
      StepBack(run[i - 1], run[i], t);
    }
  }

  lemma InitIdle(s: State, t: nat)
    requires Init(s) && t < |s.threads|
    ensures !Busy(s.threads[t])
  {
    hide NamesPoint, Ordered, NeedsOrdered;
  }

  // ------------------------------------------------------------------------- reloads

  /** Goroutine `pc` is in a reload, past its locked section, that waits or has waited for `waits`. */
  predicate ReloadOf(pc: Pc, waits: set<Exit>) {
    || (pc.RlWait? && pc.waits == waits) || (pc.RlStart? && pc.waits == waits)
    || ((pc.StBegin? || pc.StLock? || pc.StHold?) && pc.k.Reloading? && pc.k.waits == waits)
  }

  /** The locked section of that reload: what it waits for is what it replaced there. */
  lemma {:induction false} ReloadOrigin(run: seq<State>, i: nat, t: nat, waits: set<Exit>) returns (m: nat)
    requires IsRun(run) && i < |run| && t < |run[i].threads| && ReloadOf(run[i].threads[t], waits)
    ensures m < i && t < |run[m].threads| && run[m].threads[t].RlHold?
    ensures t < |run[m + 1].threads| && run[m + 1].threads[t].RlWait?
    ensures forall e :: e in waits <==> IsReplaced(run[m].g.w, run[m].threads[t].setup, e)
    decreases i
  {
    hide IsRun, IsReplaced;
    RunBack(run, i, t);
    if ReloadOf(run[i - 1].threads[t], waits) {
      m := ReloadOrigin(run, i - 1, t, waits);
    } else {
      m := i - 1;
    }
  }

  // ---------------------------------------------------------------- ordered restarts

  /** Goroutine `pc` is at the `j`-th start of `job`. */
  predicate InLeg(pc: Pc, job: Job, j: nat) {
    pc == OStart(job, j) || Starting(pc, Leg(job, j))
  }

  predicate InJob(pc: Pc) {
    || pc.OStop? || pc.OHold? || pc.OWait? || pc.OStart?
    || ((pc.StBegin? || pc.StLock? || pc.StHold?) && pc.k.Leg?)
  }

  function JobOf(pc: Pc): Job
    requires InJob(pc)
  {
    match pc
    case OStop(job) => job
    case OHold(job) => job
    case OWait(job) => job
    case OStart(job, _) => job
    case StBegin(_, k) => k.job
    case StLock(_, k) => k.job
    case StHold(_, k) => k.job
  }

  /** Within one ordered restart the chain stays, and exits are only added, by stopping. */
  lemma JobBack(g: Shared, pc: Pc, pc': Pc)
    requires InJob(pc') && From(g, pc, pc')
    ensures || (InJob(pc) && JobOf(pc) == JobOf(pc'))
            || (pc'.OWait? && Collects(g.w, pc, pc'.job))
            || (pc'.OStop? && Begins(g.w, pc, pc'.job))
  {
    hide Begins, Collects;
  }

  lemma JobBusy(pc: Pc)
    requires InJob(pc)
    ensures Busy(pc) && !pc.CtHold?
  {
  }

  /** The control request that began it, with the chain it listed. */
  lemma {:induction false} JobOrigin(run: seq<State>, i: nat, t: nat) returns (m: nat)
    requires IsRun(run) && i < |run| && t < |run[i].threads| && InJob(run[i].threads[t])
    ensures m < i && t < |run[m].threads|
    ensures Begins(run[m].g.w, run[m].threads[t], Job(JobOf(run[i].threads[t]).chain, []))
    decreases i
  {
    hide IsRun, Begins, From, Busy;
    var pc' := run[i].threads[t];
    JobBusy(pc');
    RunBack(run, i, t);
    var pc := run[i - 1].threads[t];
    if pc == pc' {
      m := JobOrigin(run, i - 1, t);
    } else {
      JobBack(run[i - 1].g, pc, pc');
      if pc'.OStop? && Begins(run[i - 1].g.w, pc, pc'.job) {
        BeginsBare(run[i - 1].g.w, pc, pc'.job);
        m := i - 1;
      } else {
        m := JobOrigin(run, i - 1, t);
      }
    }
  }

  lemma BeginsBare(w: World, pc: Pc, job: Job)
    requires Begins(w, pc, job)
    ensures job.exits == [] && job == Job(job.chain, []) && pc.CtHold?
  {
  }

  /** When and from which process the `q`-th exit of an ordered restart was collected. */
  ghost predicate CollectedAt(run: seq<State>, m: nat, t: nat, chain: seq<nat>, q: nat, e: Exit) {
    && m + 1 < |run| && t < |run[m].threads| && t < |run[m + 1].threads| && q < |chain|
    && run[m].threads[t].OHold? && run[m].threads[t].job.chain == chain && |run[m].threads[t].job.exits| == q
    && run[m + 1].threads[t].OWait? && e == run[m].g.w.Done(chain[|chain| - 1 - q])
  }

  lemma {:induction false} ExitOrigin(run: seq<State>, i: nat, t: nat, m0: nat, q: nat) returns (m: nat)
    requires IsRun(run) && m0 < i < |run| && t < |run[i].threads| && InJob(run[i].threads[t])
    requires t < |run[m0].threads| && run[m0].threads[t].CtHold?
    requires q < |JobOf(run[i].threads[t]).exits|
    ensures m0 < m < i
    ensures var job := JobOf(run[i].threads[t]); CollectedAt(run, m, t, job.chain, q, job.exits[q])
    decreases i
  {
    hide IsRun, Begins, From, Busy;
    var pc' := run[i].threads[t];
    JobBusy(pc');
    RunBack(run, i, t);
    var pc := run[i - 1].threads[t];
    if pc == pc' {
      m := ExitOrigin(run, i - 1, t, m0, q);
    } else {
      JobBack(run[i - 1].g, pc, pc');
      if pc'.OStop? && Begins(run[i - 1].g.w, pc, pc'.job) {
        BeginsBare(run[i - 1].g.w, pc, pc'.job);
        assert false;
      } else if pc'.OWait? && Collects(run[i - 1].g.w, pc, pc'.job) && q == |pc'.job.exits| - 1 {
        m := i - 1;
      } else {
        m := ExitOrigin(run, i - 1, t, m0, q);
      }
    }
  }

  /** The attempt at the `k`-th start has been made and has returned. */
  ghost predicate AttemptedAt(run: seq<State>, m: nat, t: nat, job: Job, k: nat) {
    && m + 1 < |run| && t < |run[m].threads| && t < |run[m + 1].threads|
    && InLeg(run[m].threads[t], job, k) && run[m + 1].threads[t] == OStart(job, k + 1)
  }

  lemma LegBack(g: Shared, pc: Pc, pc': Pc, job: Job, j: nat)
    requires InLeg(pc', job, j) && j > 0 && From(g, pc, pc')
    ensures InLeg(pc, job, j) || (InLeg(pc, job, j - 1) && pc' == OStart(job, j))
  {
  }

  lemma LegBusy(pc: Pc, job: Job, j: nat)
    requires InLeg(pc, job, j)
    ensures Busy(pc) && !pc.CtHold? && InJob(pc) && JobOf(pc) == job
  {
  }

  /**
    An ordered restart attempts its starts in chain order: at its `j`-th start,
    the attempt at every earlier one has returned.
   */
  lemma {:induction false} StartsInOrder(run: seq<State>, i: nat, t: nat, m0: nat, job: Job, j: nat, k: nat)
    returns (m: nat)
    requires IsRun(run) && m0 < i < |run| && t < |run[i].threads| && InLeg(run[i].threads[t], job, j) && k < j
    requires t < |run[m0].threads| && run[m0].threads[t].CtHold?
    ensures m0 < m < i && AttemptedAt(run, m, t, job, k)
    decreases i
  {
    hide IsRun, From, Busy, InLeg;
    LegBusy(run[i].threads[t], job, j);
    RunBack(run, i, t);
    var pc := run[i - 1].threads[t];
    if pc != run[i].threads[t] {
      LegBack(run[i - 1].g, pc, run[i].threads[t], job, j);
    }
    if InLeg(pc, job, j) {
      LegBusy(pc, job, j);
      m := StartsInOrder(run, i - 1, t, m0, job, j, k);
    } else {
      LegBusy(pc, job, j - 1);
      if k == j - 1 {
        m := i - 1;
      } else {
        m := StartsInOrder(run, i - 1, t, m0, job, j - 1, k);
      }
    }
  }
}
