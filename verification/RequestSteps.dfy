/** Steps of check callbacks and control requests keep the invariant. */
module RequestSteps {
  import opened Wrappers
  import opened Graphs
  import opened World
  import opened Protocol
  import opened Invariant
  import opened Steps
  import opened StartSteps
  import opened SweepSteps

  lemma StepCkLock(g: Shared, t: nat, c: Check, g': Shared, pc': Pc)
    requires Pre(g, t, CkLock(c)) && DoCkLock(g, t, c, g', pc')
    ensures Global(g, t, g') && Local(g, t, CkLock(c), g', pc', [])
  {
    hide Valid, RunsWithin, Rely, OkWinner, OkMain, Global, Local;
    CountersKeep(g, t, g');
    if g.flag {
      PlainLocal(g, t, CkLock(c), g', pc');
    } else {
      LockLocal(g, t, CkLock(c), g', pc');
    }
  }

  lemma StepCtLock(g: Shared, t: nat, n: Name, wait: bool, g': Shared, pc': Pc)
    requires Pre(g, t, CtLock(n, wait)) && DoCtLock(g, t, n, wait, g', pc')
    ensures Global(g, t, g') && Local(g, t, CtLock(n, wait), g', pc', [])
  {
    hide Valid, RunsWithin, Rely, OkWinner, OkMain, Global, Local;
    CountersKeep(g, t, g');
    if n !in g.w.services || g.flag {
      PlainLocal(g, t, CtLock(n, wait), g', pc');
    } else {
      LockLocal(g, t, CtLock(n, wait), g', pc');
    }
  }

  lemma StepStopOne(g: Shared, t: nat, i: nat, g': Shared, pc': Pc)
    requires Pre(g, t, StopOne(i)) && DoStopOne(g, i, g', pc')
    ensures Global(g, t, g') && Local(g, t, StopOne(i), g', pc', [])
  {
    hide SharedOk, Rely, OkWinner, OkMain, Global, Local, Evolves;
    StopGlobal(g, t, i, g');
    PlainLocal(g, t, StopOne(i), g', pc');
  }

  // ---------------------------------------------------------- enqueued restarts

  lemma {:induction false} CheckLoopKeeps(w: World, names: seq<Name>, c: Check)
    requires Valid(w)
    ensures var r := CheckLoop(w, names, c);
      SameRuns(w, r.w) && forall i :: 0 <= i < |r.reqs| ==> ReqOk(r.w, r.reqs[i])
    decreases |names|
  {
    if names == [] {
      SameRunsSelf(w);
    } else if names[0] !in w.services || w.services[names[0]] >= |w.insts| {
      CheckLoopKeeps(w, names[1..], c);
    } else {
      var i := w.services[names[0]];
      var actions := w.insts[i].config.policy.onCheck;
      if c !in actions || actions[c] == Ignore {
        CheckLoopKeeps(w, names[1..], c);
      } else if actions[c] == Restart {
        StopKeeps(w, i);
        CheckLoopKeeps(w.Stop(i), names[1..], c);
        var r := CheckLoop(w.Stop(i), names[1..], c);
        SameRunsTrans(w, w.Stop(i), r.w);
        assert ReqOk(r.w, w.Done(i)) by {
          DoneOk(w, r.w, i);
        }
      } else {
        SameRunsSelf(w);
      }
    }
  }

  lemma DoneOk(w: World, w': World, i: nat)
    requires i < |w.insts| && SameRuns(w.Stop(i), w')
    ensures ReqOk(w', w.Done(i))
  {
    StopAsks(w, i);
    assert w'.insts[i].(stopped := w.Stop(i).insts[i].stopped) == w.Stop(i).insts[i];
  }

  /** Senders are started only while the sweep has not begun. */
  lemma EnqueueGlobal(g: Shared, t: nat, w': World, reqs: seq<Exit>, g': Shared)
    requires SharedOk(g) && !g.swept && SameRuns(g.w, w') && g' == Unlock(Enqueue(g.(w := w'), reqs))
    ensures Global(g, t, g')
  {
    SweepWorld(g, t, w');
    hide Valid, RunsWithin, Evolves, Shrinks, KeepsClaimed, SameRuns;
  }

  lemma SendsNewborn(g: Shared, reqs: seq<Exit>)
    requires forall i :: 0 <= i < |reqs| ==> ReqOk(g.w, reqs[i])
    ensures forall x :: x in Sends(reqs) ==> Newborn(g, x)
  {
    hide Newborn, ReqOk;
    forall x | x in Sends(reqs) ensures Newborn(g, x) {
      var i :| 0 <= i < |reqs| && Sends(reqs)[i] == x;
      NewbornSend(g, reqs[i]);
    }
  }

  lemma EnqueueLocal(g: Shared, t: nat, pc: Pc, w': World, reqs: seq<Exit>, g': Shared, pc': Pc)
    requires (pc.CkHold? || pc.CtHold?) && (pc' == Gone || pc' == ShSwap(Ends))
    requires g' == Unlock(Enqueue(g.(w := w'), reqs)) && forall i :: 0 <= i < |reqs| ==> ReqOk(w', reqs[i])
    ensures Local(g, t, pc, g', pc', Sends(reqs))
  {
    hide Newborn, ReqOk, PcOk, LockStep, WinnerStep, Balanced, Enqueue, Sends;
    EnqueueWorld(g, w', reqs);
    SendsNewborn(g', reqs);
    EnqueueOk(g, t, pc, g', pc');
    EnqueueBalanced(g, pc, w', reqs, g', pc');
  }

  lemma EnqueueWorld(g: Shared, w': World, reqs: seq<Exit>)
    ensures var g' := Unlock(Enqueue(g.(w := w'), reqs)); g'.w == w' && g'.winner == g.winner && g'.mu == None
  {
  }

  lemma EnqueueOk(g: Shared, t: nat, pc: Pc, g': Shared, pc': Pc)
    requires (pc.CkHold? || pc.CtHold?) && (pc' == Gone || pc' == ShSwap(Ends))
    requires g'.winner == g.winner && g'.mu == None
    ensures PcOk(g', pc') && LockStep(g, t, pc, g', pc') && WinnerStep(g, t, pc, g', pc')
  {
    hide OkMain, OkWinner;
  }

  lemma EnqueueBalanced(g: Shared, pc: Pc, w': World, reqs: seq<Exit>, g': Shared, pc': Pc)
    requires (pc.CkHold? || pc.CtHold?) && (pc' == Gone || pc' == ShSwap(Ends))
    requires g' == Unlock(Enqueue(g.(w := w'), reqs))
    ensures Balanced(g, pc, g', pc', Sends(reqs))
  {
    hide TotalLoad, TotalJoins, Sends;
    TotalsSends(reqs);
  }

  lemma StepCheck(g: Shared, t: nat, c: Check, g': Shared, pc': Pc, spawn: seq<Pc>)
    requires Pre(g, t, CkHold(c)) && DoCheck(g, c, g', pc', spawn)
    ensures Global(g, t, g') && Local(g, t, CkHold(c), g', pc', spawn)
  {
    hide SharedOk, Global, Local, ThreadOk, Pre, DoCheckIn, Elems, NoDup;
    var names :| NoDup(names) && Elems(names) == g.w.services.Keys && DoCheckIn(g, names, c, g', pc', spawn);
    CheckPre(g, t, c);
    StepCheckIn(g, t, names, c, g', pc', spawn);
  }

  lemma CheckPre(g: Shared, t: nat, c: Check)
    requires Pre(g, t, CkHold(c))
    ensures SharedOk(g) && !g.swept
  {
    hide SharedOk, OkMain, OkWinner;
  }

  lemma StepCheckIn(g: Shared, t: nat, names: seq<Name>, c: Check, g': Shared, pc': Pc, spawn: seq<Pc>)
    requires SharedOk(g) && !g.swept && DoCheckIn(g, names, c, g', pc', spawn)
    requires Elems(names) == g.w.services.Keys && NoDup(names)
    ensures Global(g, t, g') && Local(g, t, CkHold(c), g', pc', spawn)
  {
    hide SharedOk, Global, Local, ReqOk, CheckLoop, SameRuns, Elems, NoDup, Unlock, Enqueue, Sends;
    SharedValid(g);
    CheckLoopKeeps(g.w, names, c);
    var r := CheckLoop(g.w, names, c);
    EnqueueGlobal(g, t, r.w, r.reqs, g');
    EnqueueLocal(g, t, CkHold(c), r.w, r.reqs, g', pc');
  }

  // ------------------------------------------------------------- control restart

  lemma {:induction false} DependentsRun(w: World, names: seq<Name>, n: Name)
    ensures forall k :: 0 <= k < |Dependents(w, names, n)| ==> w.Runs(Dependents(w, names, n)[k])
  {
    if names != [] {
      DependentsRun(w, names[1..], n);
    }
  }

  lemma DependentsInRange(w: World, n: Name)
    ensures forall k :: 0 <= k < |RunningDependents(w, n)| ==> RunningDependents(w, n)[k] < |w.insts|
  {
    DependentsRun(w, w.order, n);
    var deps := Dependents(w, w.order, n);
    forall k | 0 <= k < |deps| ensures RunningDependents(w, n)[k] < |w.insts| {
      assert w.Runs(deps[k]);
    }
  }

  lemma RestartJob(g: Shared, t: nat, n: Name, wait: bool, chain: seq<nat>, g': Shared)
    requires Pre(g, t, CtHold(n, wait)) && g' == Unlock(g) && chain != []
    requires forall k :: 0 <= k < |chain| ==> chain[k] < |g.w.insts|
    ensures Global(g, t, g') && Local(g, t, CtHold(n, wait), g', OStop(Job(chain, [])), [])
  {
    hide SharedOk, Rely, OkWinner, OkMain, Global, Local;
    SharedQueue(g);
    CountersKeep(g, t, g');
    PlainLocal(g, t, CtHold(n, wait), g', OStop(Job(chain, [])));
  }

  lemma RestartPlain(g: Shared, t: nat, n: Name, wait: bool, i: nat, g': Shared)
    requires Pre(g, t, CtHold(n, wait)) && i < |g.w.insts|
    requires g' == Unlock(Enqueue(g.(w := g.w.Stop(i)), [g.w.Done(i)]))
    ensures Global(g, t, g') && Local(g, t, CtHold(n, wait), g', Gone, [Send(g.w.Done(i))])
  {
    hide SharedOk, Global, Local, OkMain, OkWinner, ReqOk, SameRuns;
    SharedValid(g);
    StopKeeps(g.w, i);
    SameRunsSelf(g.w.Stop(i));
    DoneOk(g.w, g.w.Stop(i), i);
    var reqs := [g.w.Done(i)];
    EnqueueGlobal(g, t, g.w.Stop(i), reqs, g');
    EnqueueLocal(g, t, CtHold(n, wait), g.w.Stop(i), reqs, g', Gone);
    assert Sends(reqs) == [Send(g.w.Done(i))];
  }

  lemma RestartGone(g: Shared, t: nat, n: Name, wait: bool, g': Shared)
    requires Pre(g, t, CtHold(n, wait)) && g' == Unlock(g)
    ensures Global(g, t, g') && Local(g, t, CtHold(n, wait), g', Gone, [])
  {
    hide SharedOk, Rely, OkWinner, OkMain, Global, Local;
    SharedQueue(g);
    CountersKeep(g, t, g');
    PlainLocal(g, t, CtHold(n, wait), g', Gone);
  }

  lemma StepRestart(g: Shared, t: nat, n: Name, wait: bool, g': Shared, pc': Pc, spawn: seq<Pc>)
    requires Pre(g, t, CtHold(n, wait)) && DoRestart(g, n, wait, g', pc', spawn)
    ensures Global(g, t, g') && Local(g, t, CtHold(n, wait), g', pc', spawn)
  {
    hide Pre, Global, Local, RunningDependents;
    if n !in g.w.services || g.w.services[n] >= |g.w.insts| {
      RestartGone(g, t, n, wait, g');
    } else {
      var i := g.w.services[n];
      DependentsInRange(g.w, n);
      if pc' == Gone {
        RestartPlain(g, t, n, wait, i, g');
      } else {
        RestartJob(g, t, n, wait, pc'.job.chain, g');
      }
    }
  }
}
