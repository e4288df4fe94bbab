/** Every step of a goroutine keeps the shared invariant and what the others rely on. */
module Steps {
  import opened Wrappers
  import opened World
  import opened Protocol
  import opened Invariant
  import opened Stability

  ghost predicate Pre(g: Shared, t: nat, pc: Pc) {
    SharedOk(g) && ThreadOk(g, t, pc) && g.senders >= Joins(pc)
  }

  /** A goroutine that has just been started. */
  ghost predicate Newborn(g: Shared, pc: Pc) {
    PcOk(g, pc) && !Holds(pc) && !IsWinner(pc) && !IsMain(pc)
  }

  lemma NewbornShutdown(g: Shared)
    ensures Newborn(g, ShSwap(Ends)) && TotalLoad([ShSwap(Ends)]) == 0 && TotalJoins([ShSwap(Ends)]) == 0
  {
    TotalsOne(ShSwap(Ends));
  }

  lemma NewbornSend(g: Shared, req: Exit)
    requires ReqOk(g.w, req)
    ensures Newborn(g, Send(req)) && TotalLoad([Send(req)]) == 1 && TotalJoins([Send(req)]) == 1
  {
    TotalsOne(Send(req));
  }

  lemma NewbornHandle(g: Shared, req: Exit)
    requires ReqOk(g.w, req)
    ensures Newborn(g, Handle(req)) && TotalLoad([Handle(req)]) == 1 && TotalJoins([Handle(req)]) == 0
  {
    TotalsOne(Handle(req));
  }

  /** `d.mu` changes hands only through `t`. */
  ghost predicate LockStep(g: Shared, t: nat, pc: Pc, g': Shared, pc': Pc) {
    if Holds(pc) then g'.mu == (if Holds(pc') then Some(t) else None)
    else if Holds(pc') then g.mu == None && g'.mu == Some(t)
    else g'.mu == g.mu
  }

  ghost predicate WinnerStep(g: Shared, t: nat, pc: Pc, g': Shared, pc': Pc) {
    && (g'.winner == g.winner || (g.winner == None && g'.winner == Some(t)))
    && (IsWinner(pc') ==> g'.winner == Some(t))
    && (IsMain(pc') <==> IsMain(pc))
  }

  /** Both counters move by what the goroutines involved owe. */
  ghost predicate Balanced(g: Shared, pc: Pc, g': Shared, pc': Pc, spawn: seq<Pc>) {
    && g'.pending - |g'.queue| == g.pending - |g.queue| - Load(pc) + Load(pc') + TotalLoad(spawn)
    && g'.senders == g.senders - Joins(pc) + Joins(pc') + TotalJoins(spawn)
  }

  /** What the step does to goroutine `t` itself and to those it starts. */
  ghost predicate Local(g: Shared, t: nat, pc: Pc, g': Shared, pc': Pc, spawn: seq<Pc>) {
    && PcOk(g', pc')
    && LockStep(g, t, pc, g', pc') && WinnerStep(g, t, pc, g', pc')
    && (forall x :: x in spawn ==> Newborn(g', x))
    && Balanced(g, pc, g', pc', spawn)
  }

  lemma NoNewborn(g: Shared)
    ensures forall x :: x in [] ==> Newborn(g, x)
  {
  }

  lemma LocalParts(g: Shared, t: nat, pc: Pc, g': Shared, pc': Pc)
    requires PcOk(g', pc') && LockStep(g, t, pc, g', pc') && WinnerStep(g, t, pc, g', pc')
    requires Balanced(g, pc, g', pc', [])
    ensures Local(g, t, pc, g', pc', [])
  {
    hide PcOk, LockStep, WinnerStep, Balanced, Newborn;
    NoNewborn(g');
  }

  lemma OtherOk(g: Shared, pc: Pc)
    requires !IsMain(pc) && !IsWinner(pc) && OkOther(g, pc)
    ensures PcOk(g, pc)
  {
    hide OkOther, OkMain, OkWinner, IsMain, IsWinner;
  }

  lemma WinnerOk(g: Shared, pc: Pc)
    requires !IsMain(pc) && IsWinner(pc) && OkWinner(g, pc)
    ensures PcOk(g, pc)
  {
    hide OkOther, OkMain, OkWinner, IsMain, IsWinner;
  }

  /** No goroutine is started, and the queue and the senders stay as they are. */
  lemma BalancedAlone(g: Shared, pc: Pc, g': Shared, pc': Pc)
    requires Joins(pc) == Joins(pc') && g'.senders == g.senders && g'.queue == g.queue
    requires Load(pc') - Load(pc) == g'.pending - g.pending
    ensures Balanced(g, pc, g', pc', [])
  {
    hide Load, Joins, TotalLoad, TotalJoins;
    TotalsNone();
  }

  /** What the step does to everybody. */
  ghost predicate Global(g: Shared, t: nat, g': Shared) {
    SharedOk(g') && Rely(g, t, g')
  }

  /** A step that changes the world only, or the world and the lock. */
  ghost predicate WorldStep(g: Shared, t: nat, w': World) {
    && Valid(w') && Evolves(g.w, w') && KeepsClaimed(g.w, w')
    && (g.swept || LockedOut(g, t) ==> Shrinks(g.w, w'))
  }

  lemma WorldStepKeeps(g: Shared, t: nat, w': World, g': Shared)
    requires SharedOk(g) && WorldStep(g, t, w') && g' == g.(w := w', mu := g'.mu)
    ensures SharedOk(g') && Rely(g, t, g')
  {
    forall i | 0 <= i < |g.queue| ensures ReqOk(w', g.queue[i]) {
      ReqStays(g.w, w', g.queue[i]);
    }
    if g.swept && g.stopAllDone {
      WithinShrinks(g.w, w', {});
    }
  }

  lemma SameRunsStep(g: Shared, t: nat, w': World)
    requires SharedOk(g) && SameRuns(g.w, w')
    ensures WorldStep(g, t, w')
  {
    SameRunsKeeps(g.w, w');
    ShrinksEvolves(g.w, w');
  }

  // ------------------------------------------------------------ the main goroutine

  lemma ClaimKeeps(w: World, p: nat)
    requires Valid(w) && p in w.kernel
    ensures Valid(Claim(w, p)) && Shrinks(w, Claim(w, p)) && KeepsClaimed(w, Claim(w, p))
  {
    var w' := Claim(w, p);
    assert forall i :: 0 <= i < |w.insts| ==> w'.Current(i) == w.Current(i);
    assert w'.insts == w.insts && w'.pidMap == w.pidMap;
    assert forall q :: q in w'.kernel ==> w'.kernel[q].owner == w.kernel[q].owner;
  }

  lemma DropOrphanKeeps(w: World, p: nat)
    requires Valid(w) && p !in w.pidMap
    ensures Valid(w.(kernel := w.kernel - {p})) && Shrinks(w, w.(kernel := w.kernel - {p}))
  {
    var w' := w.(kernel := w.kernel - {p});
    assert forall i :: 0 <= i < |w.insts| ==> w'.Current(i) == w.Current(i);
    assert w'.insts == w.insts && w'.pidMap == w.pidMap;
  }

  /** As `WorldStepKeeps`, for the main goroutine, which alone disposes of claimed children. */
  lemma MainWorldStep(g: Shared, w': World, g': Shared)
    requires SharedOk(g) && Valid(w') && Shrinks(g.w, w') && g' == g.(w := w', mu := g'.mu)
    ensures SharedOk(g') && Rely(g, 0, g')
  {
    ShrinksEvolves(g.w, w');
    forall i | 0 <= i < |g.queue| ensures ReqOk(w', g.queue[i]) {
      ReqStays(g.w, w', g.queue[i]);
    }
    if g.stopAllDone {
      WithinShrinks(g.w, w', {});
    }
  }

  lemma AfterExitKeeps(g: Shared, e: Exit, ok: bool, g': Shared)
    requires SharedOk(g) && g.w.Closed(e) && g.w.Done(e.inst) == e
    requires g' == Unlock(g.(w := AfterExit(g.w, e.inst, ok)))
    ensures SharedOk(g') && Rely(g, 0, g') && g'.w.Closed(e)
  {
    if FailsOthers(g.w.insts[e.inst], ok) {
      StopRequirersKeeps(g.w, g.w.insts[e.inst].config.name);
    }
    MainWorldStep(g, g'.w, g');
    ClosedStays(g.w, g'.w, e);
  }

  lemma UnlockKeeps(g: Shared, t: nat)
    requires SharedOk(g)
    ensures SharedOk(Unlock(g)) && Rely(g, t, Unlock(g))
  {
  }

  lemma MainFacts(pc: Pc)
    ensures IsMain(pc) ==> Load(pc) == (if pc.MSpawn? then 1 else 0) && Joins(pc) == 0 && !IsWinner(pc)
                           && (Holds(pc) <==> pc.MHold?)
  {
  }

  lemma GlobalWait(g: Shared, g': Shared, pc': Pc, spawn: seq<Pc>)
    requires SharedOk(g) && DoWait(g, g', pc', spawn)
    ensures Global(g, 0, g') && (pc'.MGot? ==> pc'.pid in g'.w.kernel && g'.w.kernel[pc'.pid].life == Claimed)
  {
    if g' != g {
      var p :| p in g.w.kernel && g.w.kernel[p].life == Zombie && pc' == MGot(p) && g' == g.(w := Claim(g.w, p));
      ClaimKeeps(g.w, p);
      MainWorldStep(g, Claim(g.w, p), g');
    }
  }

  lemma LocalWait(g: Shared, g': Shared, pc': Pc, spawn: seq<Pc>)
    requires DoWait(g, g', pc', spawn) && OkMain(g, MWait)
    requires pc'.MGot? ==> pc'.pid in g'.w.kernel && g'.w.kernel[pc'.pid].life == Claimed
    ensures Local(g, 0, MWait, g', pc', spawn)
  {
    hide OkWinner, OkOther, Newborn, TotalLoad, TotalJoins;
    TotalsNone();
  }

  lemma StepWait(g: Shared, g': Shared, pc': Pc, spawn: seq<Pc>)
    requires Pre(g, 0, MWait) && DoWait(g, g', pc', spawn)
    ensures Global(g, 0, g') && Local(g, 0, MWait, g', pc', spawn)
  {
    hide SharedOk, Global, Local, DoWait, OkWinner, OkOther;
    GlobalWait(g, g', pc', spawn);
    LocalWait(g, g', pc', spawn);
  }

  /** The exit just handled; if it was of an instance no longer in use, it had been asked for. */
  ghost predicate ReapedOk(w: World, e: Exit) {
    w.Closed(e) && w.Done(e.inst) == e && (!w.Current(e.inst) ==> w.insts[e.inst].stopped)
  }

  lemma ReapedNow(w: World, p: nat)
    requires Valid(w) && p in w.pidMap
    ensures ReapedOk(Reap(w, p), w.Done(w.pidMap[p]))
  {
    hide NamesPoint, ChildrenMapped, Ordered, NeedsOrdered;
    var i := w.pidMap[p];
    assert w.insts[i].running;
    assert Reap(w, p).Current(i) == w.Current(i);
  }

  lemma GlobalGot(g: Shared, p: nat, g': Shared, pc': Pc, spawn: seq<Pc>)
    requires SharedOk(g) && DoGot(g, p, g', pc', spawn)
    ensures Global(g, 0, g')
    ensures pc'.MHold? ==> ReapedOk(g'.w, pc'.exit) && (!g.flag ==> !g.swept)
  {
    if p in g.w.pidMap && g.w.pidMap[p] < |g.w.insts| {
      ReapKeeps(g.w, p);
      MainWorldStep(g, Reap(g.w, p), g');
      ReapedNow(g.w, p);
    } else {
      DropOrphanKeeps(g.w, p);
      MainWorldStep(g, g.w.(kernel := g.w.kernel - {p}), g');
    }
  }

  lemma LocalGot(g: Shared, p: nat, g': Shared, pc': Pc, spawn: seq<Pc>)
    requires DoGot(g, p, g', pc', spawn) && OkMain(g, MGot(p))
    requires pc'.MHold? ==> ReapedOk(g'.w, pc'.exit) && (!g.flag ==> !g.swept)
    ensures Local(g, 0, MGot(p), g', pc', spawn)
  {
    hide OkWinner, OkOther, Newborn, TotalLoad, TotalJoins, Reap;
    TotalsNone();
  }

  lemma StepGot(g: Shared, p: nat, g': Shared, pc': Pc, spawn: seq<Pc>)
    requires Pre(g, 0, MGot(p)) && DoGot(g, p, g', pc', spawn)
    ensures Global(g, 0, g') && Local(g, 0, MGot(p), g', pc', spawn)
  {
    hide SharedOk, Global, Local, DoGot, OkWinner, OkOther;
    GlobalGot(g, p, g', pc', spawn);
    LocalGot(g, p, g', pc', spawn);
  }

  lemma GlobalExit(g: Shared, e: Exit, ok: bool, refused: bool, g': Shared, pc': Pc, spawn: seq<Pc>)
    requires SharedOk(g) && DoExit(g, e, ok, refused, g', pc', spawn) && g.w.Closed(e) && g.w.Done(e.inst) == e
    ensures Global(g, 0, g') && g'.w.Closed(e) && (refused ==> g' == Unlock(g))
  {
    hide SharedOk;
    if refused {
      UnlockKeeps(g, 0);
    } else {
      AfterExitKeeps(g, e, ok, g');
    }
  }

  lemma LocalExit(g: Shared, e: Exit, ok: bool, refused: bool, g': Shared, pc': Pc, spawn: seq<Pc>)
    requires DoExit(g, e, ok, refused, g', pc', spawn) && OkMain(g, MHold(e, ok, refused)) && g'.w.Closed(e)
    requires g.mu == Some(0)
    ensures Local(g, 0, MHold(e, ok, refused), g', pc', spawn)
  {
    hide OkWinner, OkOther, Newborn, TotalLoad, TotalJoins, AfterExit, Load, Joins, IsWinner, Holds;
    MainFacts(MHold(e, ok, refused));
    MainFacts(pc');
    TotalsNone();
    NewbornShutdown(g');
  }

  lemma StepExit(g: Shared, e: Exit, ok: bool, refused: bool, g': Shared, pc': Pc, spawn: seq<Pc>)
    requires Pre(g, 0, MHold(e, ok, refused)) && DoExit(g, e, ok, refused, g', pc', spawn)
    ensures Global(g, 0, g') && Local(g, 0, MHold(e, ok, refused), g', pc', spawn)
  {
    hide SharedOk, Global, Local, DoExit, OkWinner, OkOther;
    GlobalExit(g, e, ok, refused, g', pc', spawn);
    LocalExit(g, e, ok, refused, g', pc', spawn);
  }

  /** A step that moves counters, the queue and the lock only. */
  lemma CountersKeep(g: Shared, t: nat, g': Shared)
    requires SharedOk(g) && g' == g.(mu := g'.mu, queue := g'.queue, pending := g'.pending, senders := g'.senders)
    requires forall i :: 0 <= i < |g'.queue| ==> ReqOk(g.w, g'.queue[i])
    requires (g.chClosed ==> g'.senders <= 0) && (t != 0 && g.swept ==> g'.senders <= g.senders)
    ensures Global(g, t, g')
  {
    hide Valid, RunsWithin;
    EvolvesSelf(g.w);
  }

  lemma EvolvesSelf(w: World)
    ensures Evolves(w, w) && Shrinks(w, w) && KeepsClaimed(w, w)
  {
  }

  lemma StepBump(g: Shared, req: Exit, g': Shared, pc': Pc, spawn: seq<Pc>)
    requires Pre(g, 0, MBump(req)) && DoBump(g, req, g', pc', spawn)
    ensures Global(g, 0, g') && Local(g, 0, MBump(req), g', pc', spawn)
  {
    hide Valid, RunsWithin, Rely, OkWinner, OkOther, Global, Newborn, TotalLoad, TotalJoins;
    TotalsNone();
    CountersKeep(g, 0, g');
  }

  lemma StepSpawn(g: Shared, req: Exit, g': Shared, pc': Pc, spawn: seq<Pc>)
    requires Pre(g, 0, MSpawn(req)) && DoSpawn(g, req, g', pc', spawn)
    ensures Global(g, 0, g') && Local(g, 0, MSpawn(req), g', pc', spawn)
  {
    hide Valid, RunsWithin, Rely, OkWinner, OkOther, Global, Newborn, TotalLoad, TotalJoins;
    NewbornSend(g', req);
    CountersKeep(g, 0, g');
  }

  lemma StepOrphan(g: Shared, g': Shared, pc': Pc, spawn: seq<Pc>)
    requires Pre(g, 0, MOrphan) && DoOrphan(g, g', pc', spawn)
    ensures Global(g, 0, g') && Local(g, 0, MOrphan, g', pc', spawn)
  {
    hide Valid, RunsWithin, Rely, OkWinner, OkOther, Global, Newborn, TotalLoad, TotalJoins;
    TotalsNone();
    CountersKeep(g, 0, g');
  }

  /** Teardown only starts once the flag is set, closes the channel after the join, and closes it once. */
  lemma StepTeardown(g: Shared, pc: Pc, g': Shared, pc': Pc, spawn: seq<Pc>)
    requires pc.MBroke? || pc.MTear? || pc.MClose?
    requires Pre(g, 0, pc) && DoTeardown(g, pc, g', pc', spawn)
    ensures Global(g, 0, g') && Local(g, 0, pc, g', pc', spawn)
  {
    hide Valid, RunsWithin, OkWinner, OkOther, Newborn, TotalLoad, TotalJoins, Shrinks, Evolves, KeepsClaimed;
    TotalsNone();
    EvolvesSelf(g.w);
  }

  // ------------------------------------------------ senders, dispatcher, handlers

  lemma StepSend(g: Shared, t: nat, req: Exit, g': Shared, pc': Pc)
    requires Pre(g, t, Send(req)) && DoSend(g, req, g', pc')
    ensures Global(g, t, g') && Local(g, t, Send(req), g', pc', [])
  {
    hide Valid, RunsWithin, Rely, OkWinner, OkMain, Global, Newborn, TotalLoad, TotalJoins;
    TotalsNone();
    CountersKeep(g, t, g');
  }

  lemma StepSent(g: Shared, t: nat, g': Shared, pc': Pc)
    requires Pre(g, t, Sent) && DoSent(g, g', pc')
    ensures Global(g, t, g') && Local(g, t, Sent, g', pc', [])
  {
    hide Valid, RunsWithin, Rely, OkWinner, OkMain, Global, Newborn, TotalLoad, TotalJoins;
    TotalsNone();
    CountersKeep(g, t, g');
  }

  lemma StepDispatch(g: Shared, t: nat, g': Shared, pc': Pc, spawn: seq<Pc>)
    requires Pre(g, t, Dispatch) && DoDispatch(g, g', pc', spawn)
    ensures Global(g, t, g') && Local(g, t, Dispatch, g', pc', spawn)
  {
    hide Valid, RunsWithin, Rely, OkWinner, OkMain, Global, Newborn, TotalLoad, TotalJoins;
    TotalsNone();
    if g.queue != [] {
      NewbornHandle(g', g.queue[0]);
    }
    CountersKeep(g, t, g');
  }

  lemma StepHandle(g: Shared, t: nat, req: Exit, g': Shared, pc': Pc)
    requires Pre(g, t, Handle(req)) && DoHandle(g, req, g', pc')
    ensures Global(g, t, g') && Local(g, t, Handle(req), g', pc', [])
  {
    hide Valid, RunsWithin, Rely, OkWinner, OkMain, Global, Newborn, TotalLoad, TotalJoins;
    TotalsNone();
    CountersKeep(g, t, g');
  }

  /** The unlocked look at `IsRunning`: if it says yes, the process is a newer one. */
  lemma StepTest(g: Shared, t: nat, req: Exit, g': Shared, pc': Pc)
    requires Pre(g, t, HTest(req)) && DoTest(g, req, g', pc')
    ensures Global(g, t, g') && Local(g, t, HTest(req), g', pc', [])
  {
    hide Valid, RunsWithin, Rely, OkWinner, OkMain, Global, Newborn, TotalLoad, TotalJoins;
    TotalsNone();
    CountersKeep(g, t, g');
  }

  lemma StepSettle(g: Shared, t: nat, req: Exit, o: Outcome, g': Shared, pc': Pc)
    requires Pre(g, t, HEnd(req, o)) && DoSettle(g, g', pc')
    ensures Global(g, t, g') && Local(g, t, HEnd(req, o), g', pc', [])
  {
    hide Valid, RunsWithin, Rely, OkWinner, OkMain, Global, Newborn, TotalLoad, TotalJoins;
    TotalsNone();
    CountersKeep(g, t, g');
  }
}
