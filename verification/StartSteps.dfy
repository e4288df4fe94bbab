/** Steps of `startService`, of ordered restarts and of reload keep the invariant. */
module StartSteps {
  import opened Wrappers
  import opened World
  import opened Reload
  import opened Protocol
  import opened Invariant
  import opened Stability
  import opened Steps

  /** Goroutine states outside the lock that owe `pendingRestarts` exactly `load`. */
  ghost predicate Plain(pc: Pc, load: int) {
    !IsMain(pc) && !IsWinner(pc) && !Holds(pc) && Load(pc) == load && Joins(pc) == 0
  }

  lemma PlainParts(pc: Pc, load: int)
    requires Plain(pc, load)
    ensures !IsMain(pc) && !IsWinner(pc) && !Holds(pc) && Load(pc) == load && Joins(pc) == 0
  {
  }

  lemma ReleaseSteps(g: Shared, t: nat, pc: Pc, g': Shared, pc': Pc)
    requires !IsMain(pc) && !IsMain(pc') && !IsWinner(pc') && !Holds(pc') && g'.winner == g.winner
    requires (Holds(pc) ==> g'.mu == None) && (!Holds(pc) ==> g'.mu == g.mu)
    ensures LockStep(g, t, pc, g', pc') && WinnerStep(g, t, pc, g', pc')
  {
    hide Holds, IsMain, IsWinner;
  }

  lemma AcquireSteps(g: Shared, t: nat, pc: Pc, g': Shared, pc': Pc)
    requires !IsMain(pc) && !IsMain(pc') && !IsWinner(pc') && !Holds(pc) && Holds(pc') && Locks(g, t, g')
    ensures LockStep(g, t, pc, g', pc') && WinnerStep(g, t, pc, g', pc')
    ensures g' == g.(mu := g'.mu)
  {
    hide Holds, IsMain, IsWinner;
  }

  /** A step outside the lock, or one that releases it. */
  lemma PlainLocal(g: Shared, t: nat, pc: Pc, g': Shared, pc': Pc)
    requires !IsMain(pc) && Joins(pc) == 0 && (Holds(pc) ==> g'.mu == None) && (!Holds(pc) ==> g'.mu == g.mu)
    requires g'.winner == g.winner && g'.senders == g.senders && g'.queue == g.queue
    requires Plain(pc', Load(pc) + g'.pending - g.pending) && OkOther(g', pc')
    ensures Local(g, t, pc, g', pc', [])
  {
    hide *;
    PlainParts(pc', Load(pc) + g'.pending - g.pending);
    ReleaseSteps(g, t, pc, g', pc');
    OtherOk(g', pc');
    BalancedAlone(g, pc, g', pc');
    LocalParts(g, t, pc, g', pc');
  }

  /** Taking the lock to go on to `pc'`. */
  lemma LockLocal(g: Shared, t: nat, pc: Pc, g': Shared, pc': Pc)
    requires !IsMain(pc) && Joins(pc) == 0 && !Holds(pc) && Locks(g, t, g')
    requires !IsMain(pc') && !IsWinner(pc') && Joins(pc') == 0 && Holds(pc') && Load(pc') == Load(pc)
    requires OkOther(g', pc')
    ensures Local(g, t, pc, g', pc', [])
  {
    hide *;
    AcquireSteps(g, t, pc, g', pc');
    OtherOk(g', pc');
    BalancedAlone(g, pc, g', pc');
    LocalParts(g, t, pc, g', pc');
  }

  // --------------------------------------------------------------- startService

  lemma ReturnsSettles(g: Shared, req: Exit, o: Outcome, pc': Pc)
    requires g.w.Closed(req) && Returns(Settles(req), o, pc') && (o == Failed || Settled(g, req, o))
    ensures Plain(pc', 1) && OkOther(g, pc')
  {
  }

  lemma ReturnsLeg(g: Shared, job: Job, j: nat, o: Outcome, pc': Pc)
    requires ContOk(g.w, Leg(job, j)) && Returns(Leg(job, j), o, pc')
    ensures Plain(pc', |job.exits|) && OkOther(g, pc')
  {
    hide JobOk;
  }

  lemma ReturnsReload(g: Shared, waits: set<Exit>, rest: seq<nat>, o: Outcome, pc': Pc)
    requires ContOk(g.w, Reloading(waits, rest)) && Returns(Reloading(waits, rest), o, pc')
    ensures Plain(pc', 0) && OkOther(g, pc')
  {
  }

  /** Wherever `startService` returns to, its caller's invariant holds. */
  lemma ReturnsOk(g: Shared, i: nat, k: Cont, o: Outcome, pc': Pc)
    requires ContFor(g.w, i, k) && Returns(k, o, pc')
    requires k.Settles? ==> o == Failed || Settled(g, k.req, o)
    ensures Plain(pc', ContLoad(k)) && OkOther(g, pc')
  {
    hide Plain, OkOther, Settled, JobOk, AllClosed;
    match k
    case Ends => ReturnsEnds(g, o, pc');
    case Settles(req) => ReturnsSettles(g, req, o, pc');
    case Leg(job, j) => ReturnsLeg(g, job, j, o, pc');
    case Reloading(waits, rest) => ReturnsReload(g, waits, rest, o, pc');
  }

  lemma ReturnsEnds(g: Shared, o: Outcome, pc': Pc)
    requires Returns(Ends, o, pc')
    ensures Plain(pc', 0) && OkOther(g, pc')
  {
  }

  lemma StepBegin(g: Shared, t: nat, i: nat, k: Cont, g': Shared, pc': Pc)
    requires Pre(g, t, StBegin(i, k)) && DoBegin(g, i, k, g', pc')
    ensures Global(g, t, g') && Local(g, t, StBegin(i, k), g', pc', [])
  {
    hide Valid, RunsWithin, Rely, OkWinner, OkMain, Global, Local, Returns, ContFor;
    CountersKeep(g, t, g');
    if pc' != StLock(i, k) {
      ReturnsOk(g, i, k, if Returns(k, Unmet, pc') then Unmet else Failed, pc');
    }
    PlainLocal(g, t, StBegin(i, k), g', pc');
  }

  lemma StepStLock(g: Shared, t: nat, i: nat, k: Cont, g': Shared, pc': Pc)
    requires Pre(g, t, StLock(i, k)) && DoStLock(g, t, i, k, g', pc')
    ensures Global(g, t, g') && Local(g, t, StLock(i, k), g', pc', [])
  {
    hide Valid, RunsWithin, Rely, OkWinner, OkMain, Global, Local, Returns, ContFor;
    CountersKeep(g, t, g');
    if g.flag {
      ReturnsOk(g, i, k, Refused, pc');
      PlainLocal(g, t, StLock(i, k), g', pc');
    } else {
      LockLocal(g, t, StLock(i, k), g', pc');
    }
  }

  /** The section of `startService` under the lock: it forks only a current, idle instance. */
  lemma GlobalStart(g: Shared, t: nat, i: nat, o: Outcome, g': Shared)
    requires SharedOk(g) && !g.swept && g.mu == Some(t) && StartsAs(g, i, o, g')
    ensures Global(g, t, g')
  {
    if o == Started {
      var p :| FreshPid(g.w, p) && g' == Unlock(g.(w := Fork(g.w, i, p)));
      GlobalFork(g, t, i, p, g');
    } else {
      hide Valid, RunsWithin, Rely;
      CountersKeep(g, t, g');
    }
  }

  lemma GlobalFork(g: Shared, t: nat, i: nat, p: nat, g': Shared)
    requires SharedOk(g) && !g.swept && g.mu == Some(t) && FreshPid(g.w, p)
    requires i < |g.w.insts| && g.w.Current(i) && !g.w.insts[i].running && g' == Unlock(g.(w := Fork(g.w, i, p)))
    ensures Global(g, t, g')
  {
    hide SharedOk, Rely, Valid, Evolves;
    SharedValid(g);
    ForkKeeps(g.w, i, p);
    WorldStepKeeps(g, t, Fork(g.w, i, p), g');
  }

  /** However a restart request's start attempt ends, the request is settled. */
  lemma StartSettles(g: Shared, i: nat, o: Outcome, g': Shared, req: Exit)
    requires StartsAs(g, i, o, g') && g.w.Closed(req) && req.inst == i
    ensures o == Failed || Settled(g', req, o)
  {
  }

  lemma StepStart(g: Shared, t: nat, i: nat, k: Cont, g': Shared, pc': Pc)
    requires Pre(g, t, StHold(i, k)) && DoStart(g, i, k, g', pc')
    ensures Global(g, t, g') && Local(g, t, StHold(i, k), g', pc', [])
  {
    hide SharedOk, Rely, OkWinner, OkMain, Global, Local, Returns, StartsAs, ContOk;
    var o :| Returns(k, o, pc') && StartsAs(g, i, o, g');
    GlobalStart(g, t, i, o, g');
    StartFrame(g, i, o, g');
    GlobalEvolves(g, t, g');
    ContStays(g.w, g'.w, k);
    ContForStays(g.w, g'.w, i, k);
    if k.Settles? {
      SettlesClosed(g.w, k);
      StartSettles(g, i, o, g', k.req);
    }
    ReturnsOk(g', i, k, o, pc');
    PlainLocal(g, t, StHold(i, k), g', pc');
  }

  lemma SettlesClosed(w: World, k: Cont)
    requires k.Settles? && ContOk(w, k)
    ensures w.Closed(k.req)
  {
  }

  lemma ContForStays(w: World, w': World, i: nat, k: Cont)
    requires Evolves(w, w') && ContFor(w, i, k) && ContOk(w', k)
    ensures ContFor(w', i, k)
  {
  }

  lemma GlobalEvolves(g: Shared, t: nat, g': Shared)
    requires Global(g, t, g')
    ensures Evolves(g.w, g'.w)
  {
  }

  lemma StartFrame(g: Shared, i: nat, o: Outcome, g': Shared)
    requires StartsAs(g, i, o, g')
    ensures g' == g.(w := g'.w, mu := None)
  {
  }

  // ------------------------------------------------------------ ordered restarts

  lemma StepOStop(g: Shared, t: nat, job: Job, g': Shared, pc': Pc)
    requires Pre(g, t, OStop(job)) && DoOStop(g, t, job, g', pc')
    ensures Global(g, t, g') && Local(g, t, OStop(job), g', pc', [])
  {
    hide Valid, RunsWithin, Rely, OkWinner, OkMain, Global, Local, JobOk;
    CountersKeep(g, t, g');
    if g.flag {
      PlainLocal(g, t, OStop(job), g', pc');
    } else {
      LockLocal(g, t, OStop(job), g', pc');
    }
  }

  lemma StopGlobal(g: Shared, t: nat, i: nat, g': Shared)
    requires SharedOk(g) && g' == g.(w := g.w.Stop(i), mu := g'.mu)
    ensures Global(g, t, g') && Evolves(g.w, g'.w)
  {
    hide SharedOk, Rely;
    SharedValid(g);
    StopKeeps(g.w, i);
    SameRunsStep(g, t, g.w.Stop(i));
    WorldStepKeeps(g, t, g.w.Stop(i), g');
    ShrinksEvolves(g.w, g.w.Stop(i));
  }

  lemma SharedValid(g: Shared)
    requires SharedOk(g)
    ensures Valid(g.w)
  {
  }

  /** `stopForRestart` adds the exit it captured before the stop. */
  lemma JobExtends(w: World, job: Job)
    requires JobOk(w, job) && |job.exits| < |job.chain| && Evolves(w, w.Stop(job.Next()))
    ensures JobWaits(w.Stop(job.Next()), job.(exits := job.exits + [w.Done(job.Next())]))
  {
    hide Evolves;
    var job' := job.(exits := job.exits + [w.Done(job.Next())]);
    assert job'.exits[..|job'.exits| - 1] == job.exits;
    assert job.Next() < |w.insts|;
    StopAsks(w, job.Next());
    JobStays(w, w.Stop(job.Next()), job);
  }

  lemma StepOHold(g: Shared, t: nat, job: Job, g': Shared, pc': Pc)
    requires Pre(g, t, OHold(job)) && DoOHold(g, job, g', pc')
    ensures Global(g, t, g') && Local(g, t, OHold(job), g', pc', [])
  {
    hide SharedOk, Rely, OkWinner, OkMain, Local, JobOk, JobWaits, Valid;
    var mid := g.(w := g'.w, mu := None);
    StopGlobal(g, t, job.Next(), mid);
    JobExtends(g.w, job);
    SharedValid(mid);
    PendingFree(g, t, mid, g');
    PlainLocal(g, t, OHold(job), g', pc');
  }

  /** `pendingRestarts` is read by nobody's invariant. */
  lemma PendingFree(g: Shared, t: nat, mid: Shared, g': Shared)
    requires Global(g, t, mid) && g' == mid.(pending := g'.pending)
    ensures Global(g, t, g')
  {
    hide Valid, Evolves, Shrinks, KeepsClaimed, RunsWithin;
  }

  lemma WaitsBecomeOk(w: World, job: Job)
    requires JobWaits(w, job) && w.Closed(job.exits[|job.exits| - 1])
    ensures JobOk(w, job)
  {
    var last := |job.exits| - 1;
    var before := job.(exits := job.exits[..last]);
    assert JobOk(w, before);
    forall m | 0 <= m < |job.exits|
      ensures job.exits[m].inst == job.chain[|job.chain| - 1 - m] && w.Closed(job.exits[m])
    {
      if m < last {
        assert before.exits[m] == job.exits[m];
      }
    }
  }

  lemma StepOWait(g: Shared, t: nat, job: Job, g': Shared, pc': Pc)
    requires Pre(g, t, OWait(job)) && DoOWait(g, job, g', pc')
    ensures Global(g, t, g') && Local(g, t, OWait(job), g', pc', [])
  {
    hide *;
    OWaitPre(g, t, job);
    OWaitNext(g, job, g', pc');
    OWaitSame(g, job, g', pc');
    CountersKeep(g, t, g');
    PlainLocal(g, t, OWait(job), g', pc');
  }

  lemma OWaitPre(g: Shared, t: nat, job: Job)
    requires Pre(g, t, OWait(job))
    ensures SharedOk(g) && JobWaits(g.w, job)
    ensures (forall i :: 0 <= i < |g.queue| ==> ReqOk(g.w, g.queue[i])) && (g.chClosed ==> g.senders <= 0)
    ensures !IsMain(OWait(job)) && Joins(OWait(job)) == 0 && !Holds(OWait(job))
  {
    hide Valid, RunsWithin, OkWinner, OkMain, JobOk, JobWaits, ReqOk;
  }

  lemma OWaitSame(g: Shared, job: Job, g': Shared, pc': Pc)
    requires DoOWait(g, job, g', pc')
    ensures g' == g
  {
  }

  lemma OWaitNext(g: Shared, job: Job, g': Shared, pc': Pc)
    requires JobWaits(g.w, job) && DoOWait(g, job, g', pc')
    ensures Plain(pc', Load(OWait(job))) && OkOther(g', pc')
  {
    hide JobOk, JobWaits, Valid;
    WaitsShape(g.w, job);
    if !pc'.OEnd? {
      WaitsBecomeOk(g.w, job);
    }
  }

  lemma WaitsShape(w: World, job: Job)
    requires JobWaits(w, job)
    ensures job.chain != [] && job.exits != [] && |job.exits| <= |job.chain|
  {
  }

  lemma StepOStart(g: Shared, t: nat, job: Job, j: nat, g': Shared, pc': Pc)
    requires Pre(g, t, OStart(job, j)) && DoOStart(g, job, j, g', pc')
    ensures Global(g, t, g') && Local(g, t, OStart(job, j), g', pc', [])
  {
    hide Valid, RunsWithin, Rely, OkWinner, OkMain, Global, Local;
    CountersKeep(g, t, g');
    PlainLocal(g, t, OStart(job, j), g', pc');
  }

  lemma StepOEnd(g: Shared, t: nat, job: Job, g': Shared, pc': Pc)
    requires Pre(g, t, OEnd(job)) && DoOEnd(g, job, g', pc')
    ensures Global(g, t, g') && Local(g, t, OEnd(job), g', pc', [])
  {
    hide Valid, RunsWithin, Rely, OkWinner, OkMain, Global, Local;
    CountersKeep(g, t, g');
    PlainLocal(g, t, OEnd(job), g', pc');
  }

  // --------------------------------------------------------------------- reload

  lemma {:induction false} ToStartInRange(w: World, names: seq<Name>)
    ensures forall k :: 0 <= k < |ToStart(w, names)| ==> ToStart(w, names)[k] < |w.insts|
  {
    if names != [] {
      ToStartInRange(w, names[1..]);
    }
  }

  lemma StepRlLock(g: Shared, t: nat, c: Setup, g': Shared, pc': Pc)
    requires Pre(g, t, RlLock(c)) && DoRlLock(g, t, c, g', pc')
    ensures Global(g, t, g') && Local(g, t, RlLock(c), g', pc', [])
  {
    hide Valid, RunsWithin, Rely, OkWinner, OkMain, Global, Local, Setup.Valid;
    CountersKeep(g, t, g');
    if g.flag {
      PlainLocal(g, t, RlLock(c), g', pc');
    } else {
      LockLocal(g, t, RlLock(c), g', pc');
    }
  }

  lemma StepReload(g: Shared, t: nat, c: Setup, g': Shared, pc': Pc)
    requires Pre(g, t, RlHold(c)) && DoReload(g, c, g', pc')
    ensures Global(g, t, g') && Local(g, t, RlHold(c), g', pc', [])
  {
    hide SharedOk, Rely, OkWinner, OkMain, Local, Setup.Valid, Reconcile, Valid, Evolves, Shrinks, AllAsked, IsReplaced;
    SharedValid(g);
    ReconcileKeeps(g.w, c);
    ReconcileClaims(g.w, c);
    WorldStepKeeps(g, t, g'.w, g');
    ToStartInRange(g'.w, g'.w.order);
    AllReplacedAsked(g.w, c, pc'.waits);
    PlainLocal(g, t, RlHold(c), g', pc');
  }

  /** A process that a reload replaces was told to stop. */
  lemma AllReplacedAsked(w: World, c: Setup, waits: set<Exit>)
    requires forall e :: e in waits <==> IsReplaced(w, c, e)
    ensures AllAsked(Reconcile(w, c), waits)
  {
    forall e | e in waits ensures Reconcile(w, c).Asked(e) {
      AdjustedFacts(w, c, e.inst);
    }
  }

  lemma ReconcileClaims(w: World, c: Setup)
    ensures KeepsClaimed(w, Reconcile(w, c))
  {
  }

  lemma StepRlWait(g: Shared, t: nat, waits: set<Exit>, toStart: seq<nat>, g': Shared, pc': Pc)
    requires Pre(g, t, RlWait(waits, toStart)) && DoRlWait(g, waits, toStart, g', pc')
    ensures Global(g, t, g') && Local(g, t, RlWait(waits, toStart), g', pc', [])
  {
    hide Valid, RunsWithin, Rely, OkWinner, OkMain, Global, Local;
    CountersKeep(g, t, g');
    PlainLocal(g, t, RlWait(waits, toStart), g', pc');
  }

  lemma StepRlStart(g: Shared, t: nat, waits: set<Exit>, toStart: seq<nat>, g': Shared, pc': Pc)
    requires Pre(g, t, RlStart(waits, toStart)) && DoRlStart(g, waits, toStart, g', pc')
    ensures Global(g, t, g') && Local(g, t, RlStart(waits, toStart), g', pc', [])
  {
    hide Valid, RunsWithin, Rely, OkWinner, OkMain, Global, Local;
    CountersKeep(g, t, g');
    PlainLocal(g, t, RlStart(waits, toStart), g', pc');
  }
}
