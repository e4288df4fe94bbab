/** The supervisor's promises, over all runs. */
module Theorems {
  import opened Graphs
  import opened World
  import opened Reload
  import opened Protocol
  import opened Invariant
  import opened Steps
  import opened Safety
  import opened Histories

  // ------------------------------------------------------------- what runs keep

  lemma StepRely(s: State, s': State) returns (t: nat)
    requires Inv(s) && Next(s, s')
    ensures Rely(s.g, t, s'.g)
  {
    hide Inv, Act, Arrives, Rely, KernelStep;
    if u: nat :| ThreadStep(s, u, s') {
      var pc', spawn :| Act(s.g, u, s.threads[u], s'.g, pc', spawn);
      InvPre(s, u);
      AnyStep(s.g, u, s.threads[u], s'.g, pc', spawn);
      GlobalRely(s.g, u, s'.g);
      t := u;
    } else if pc :| Arrives(s.g, pc) && s' == s.(threads := s.threads + [pc]) {
      t := 0;
      SelfRely(s.g);
    } else {
      t := |s.threads|;
      KernelGlobal(s, s', t);
    }
  }

  lemma SelfRely(g: Shared)
    ensures Rely(g, 0, g)
  {
  }

  lemma ShrinksTrans(w: World, w': World, w'': World)
    requires Shrinks(w, w') && Shrinks(w', w'')
    ensures Shrinks(w, w'')
  {
  }

  lemma StepSwept(s: State, s': State)
    requires Inv(s) && Next(s, s') && s.g.swept
    ensures s'.g.swept && Shrinks(s.g.w, s'.g.w)
  {
    hide Inv, Next, Shrinks, Evolves;
    var t := StepRely(s, s');
  }

  /** After the sweep has begun no instance is ever started again and no service is reconfigured. */
  lemma {:induction false} NothingStartsAfterSweep(run: seq<State>, i: nat, j: nat)
    requires IsRun(run) && i <= j < |run| && run[i].g.swept
    ensures run[j].g.swept && Shrinks(run[i].g.w, run[j].g.w)
    decreases j
  {
    hide Inv, Next, Shrinks, Init;
    if i == j {
      EvolvesSelf(run[i].g.w);
    } else {
      NothingStartsAfterSweep(run, i, j - 1);
      InvAlways(run, j - 1);
      assert Next(run[j - 1], run[j]);
      StepSwept(run[j - 1], run[j]);
      ShrinksTrans(run[i].g.w, run[j - 1].g.w, run[j].g.w);
    }
  }

  // ----------------------------------------------------------- the restart channel

  /**
    Nothing is ever sent on a closed `restartCh`, no channel is closed twice,
    and the wait group never goes negative; once the channel is closed, no
    sender is left.
   */
  lemma ChannelSafe(run: seq<State>, i: nat)
    requires IsRun(run) && i < |run|
    ensures !run[i].g.panicked
    ensures run[i].g.chClosed ==>
      forall t :: 0 <= t < |run[i].threads| ==> !run[i].threads[t].Send? && !run[i].threads[t].Sent?
  {
    InvAlways(run, i);
    var s := run[i];
    if s.g.chClosed {
      forall t | 0 <= t < |s.threads| ensures !s.threads[t].Send? && !s.threads[t].Sent? {
        NoJoins(s, t);
      }
    }
  }

  lemma NoJoins(s: State, t: nat)
    requires Inv(s) && s.g.senders <= 0 && t < |s.threads|
    ensures !s.threads[t].Send? && !s.threads[t].Sent?
  {
    hide ThreadOk, SharedOk;
    TotalsUpdate(s.threads, t, Gone);
  }

  // ----------------------------------------------------------------- shutdown

  /**
    When `stopAllDone` is closed no current service runs, whatever the shutdown
    mode; every process that is still there belongs to an instance a reload
    detached, and was told to stop then, with its exit actions silenced.
   */
  lemma StopAllStopsAll(run: seq<State>, i: nat)
    requires IsRun(run) && i < |run| && run[i].g.stopAllDone
    ensures var w := run[i].g.w;
      && (forall n :: !w.Runs(n))
      && (forall p :: p in w.kernel && w.kernel[p].owner.Some? ==>
            var j := w.kernel[p].owner.value.inst;
            j < |w.insts| && !w.Current(j) && w.insts[j].stopped && w.insts[j].Silent())
  {
    InvAlways(run, i);
    StoppedWorld(run[i]);
  }

  lemma StoppedWorld(s: State)
    requires Inv(s) && s.g.stopAllDone
    ensures forall n :: !s.g.w.Runs(n)
    ensures forall p :: p in s.g.w.kernel && s.g.w.kernel[p].owner.Some? ==>
              var j := s.g.w.kernel[p].owner.value.inst;
              j < |s.g.w.insts| && !s.g.w.Current(j) && s.g.w.insts[j].stopped && s.g.w.insts[j].Silent()
  {
    hide ThreadOk, TotalLoad, TotalJoins;
    var w := s.g.w;
    forall p | p in w.kernel && w.kernel[p].owner.Some?
      ensures var j := w.kernel[p].owner.value.inst;
        j < |w.insts| && !w.Current(j) && w.insts[j].stopped && w.insts[j].Silent()
    {
      var j := w.pidMap[p];
      assert w.insts[j].running;
      assert !w.Runs(w.insts[j].config.name);
    }
  }

  /** In every mode, whatever `stopAll` stops, it stops in the right order. */
  lemma StopOrder(run: seq<State>, i: nat, t: nat, x: Name)
    requires IsRun(run) && i < |run| && t < |run[i].threads|
    requires run[i].threads[t].SwSeq? && run[i].threads[t].todo != [] && run[i].g.w.Runs(run[i].threads[t].todo[0])
    ensures var w := run[i].g.w; var n := run[i].threads[t].todo[0];
      && (w.mode == ReverseDep && w.graph.Before(n, x) ==> !w.Runs(x))
      && (w.mode == Dep && w.graph.Before(x, n) ==> !w.Runs(x))
      && w.mode != Simultaneous
  {
    InvAlways(run, i);
    var s := run[i];
    SeqFacts(s, t);
    if s.g.w.Runs(x) {
      StopOrderWorld(s.g.w, s.threads[t].todo, s.threads[t].stopped, x);
    }
  }

  lemma SeqFacts(s: State, t: nat)
    requires Inv(s) && t < |s.threads| && s.threads[t].SwSeq?
    ensures Ordered(s.g.w) && NamesPoint(s.g.w) && SeqOk(s.g.w, s.threads[t].todo, s.threads[t].stopped)
  {
    assert ThreadOk(s.g, t, s.threads[t]);
    hide TotalLoad, TotalJoins, FlagsOk, SeqOk, ContOk, OkMain, OkOther;
  }

  /** Everything that runs comes no earlier in the stop sequence than what is stopped next. */
  lemma StopOrderWorld(w: World, todo: seq<Name>, stopped: set<Name>, x: Name)
    requires Ordered(w) && SeqOk(w, todo, stopped) && todo != [] && w.Runs(todo[0]) && w.Runs(x)
    ensures w.mode == ReverseDep ==> !w.graph.Before(todo[0], x)
    ensures w.mode == Dep ==> !w.graph.Before(x, todo[0])
  {
    var base := StopSeq(w);
    var a := |base| - |todo|;
    assert x in Elems(todo);
    var b :| 0 <= b < |todo| && todo[b] == x;
    assert base[a] == todo[0] && base[a + b] == x;
    var len := |w.order|;
    if w.mode == ReverseDep && w.graph.Before(todo[0], x) {
      RespectsBefore(w.graph, w.order, len - 1 - a, len - 1 - a - b);
    }
    if w.mode == Dep && w.graph.Before(x, todo[0]) {
      RespectsBefore(w.graph, w.order, a + b, a);
    }
  }

  /** The loop over services missing from the sequence never stops anything. */
  lemma SequenceIsComplete(run: seq<State>, i: nat, t: nat)
    requires IsRun(run) && i < |run| && t < |run[i].threads|
    ensures !run[i].threads[t].SwMapWait?
  {
    InvAlways(run, i);
    InvPre(run[i], t);
    NeverWaitsInMap(run[i].g, t, run[i].threads[t]);
  }

  // ---------------------------------------------------------- processes and pids

  /**
    `pidMap[p] = s` exactly when `s` runs with pid `p`; an instance never has
    two live processes; and the reap loop only marks an instance exited when its
    process has exited.
   */
  lemma PidMapExact(run: seq<State>, i: nat, p: nat, s: nat)
    requires IsRun(run) && i < |run|
    ensures var w := run[i].g.w;
      && ((p in w.pidMap && w.pidMap[p] == s) <==> (s < |w.insts| && w.insts[s].running && w.insts[s].pid == p))
      && (forall q, r | q in w.kernel && r in w.kernel && w.kernel[q].owner.Some? && w.kernel[r].owner.Some?
            :: w.kernel[q].owner.value.inst == w.kernel[r].owner.value.inst ==> q == r)
  {
    InvAlways(run, i);
    var w := run[i].g.w;
    InvFlags(run[i]);
    hide Inv, FlagsOk, IsRun;
    forall q, r | q in w.kernel && r in w.kernel && w.kernel[q].owner.Some? && w.kernel[r].owner.Some?
        && w.kernel[q].owner.value.inst == w.kernel[r].owner.value.inst
      ensures q == r
    {
      OneProcessEach(w, q, r);
    }
  }

  lemma ReapsOnlyTheDead(run: seq<State>, i: nat)
    requires IsRun(run) && i < |run| && run[i].threads != [] && run[i].threads[0].MGot?
    ensures run[i].threads[0].pid in run[i].g.w.kernel && run[i].g.w.kernel[run[i].threads[0].pid].life == Claimed
  {
    InvAlways(run, i);
    assert ThreadOk(run[i].g, 0, run[i].threads[0]);
  }

  // ------------------------------------------------------------ restart requests

  /**
    `pendingRestarts` is the number of requests being sent, queued or handled
    plus the legs held by ordered restarts.
   */
  lemma PendingExact(run: seq<State>, i: nat)
    requires IsRun(run) && i < |run|
    ensures run[i].g.pending == TotalLoad(run[i].threads) + |run[i].g.queue|
    ensures run[i].g.pending >= 0
  {
    InvAlways(run, i);
  }

  /** A handler that is about to give its request up has settled it. */
  lemma RequestsSettle(run: seq<State>, i: nat, t: nat)
    requires IsRun(run) && i < |run| && t < |run[i].threads| && run[i].threads[t].HEnd?
    ensures Settled(run[i].g, run[i].threads[t].req, run[i].threads[t].outcome)
  {
    InvAlways(run, i);
    assert ThreadOk(run[i].g, t, run[i].threads[t]);
  }

  // --------------------------------------------------------------------- reload

  /** A reload that finds the daemon shutting down leaves everything as it is; taking the lock changes no service. */
  lemma ReloadEnters(g: Shared, t: nat, c: Setup, g': Shared, pc': Pc, spawn: seq<Pc>)
    requires Act(g, t, RlLock(c), g', pc', spawn)
    ensures spawn == [] && g'.w == g.w && (g.flag ==> g' == g && pc' == Gone) && (!g.flag ==> pc' == RlHold(c))
  {
    hide Reconcile, IsReplaced, ToStart;
  }

  lemma ReloadStep(g: Shared, t: nat, c: Setup, g': Shared, pc': Pc, spawn: seq<Pc>)
    requires Act(g, t, RlHold(c), g', pc', spawn)
    ensures spawn == [] && g'.w == Reconcile(g.w, c) && pc'.RlWait?
    ensures forall e :: e in pc'.waits <==> IsReplaced(g.w, c, e)
  {
    hide Reconcile, IsReplaced, ToStart;
  }

  lemma HoldFacts(s: State, t: nat)
    requires Inv(s) && t < |s.threads| && s.threads[t].RlHold?
    ensures Valid(s.g.w) && s.threads[t].setup.Valid()
  {
    assert ThreadOk(s.g, t, s.threads[t]);
    hide FlagsOk, OkMain, OkWinner, TotalLoad, TotalJoins, Valid, Setup.Valid;
  }

  /**
    Whatever state a reload finds: taking the lock changes no service, and it is
    given up with nothing changed at all if the daemon is shutting down. Its
    section leaves exactly the new names. Each is the same running instance with
    the same pid, if and only if it ran with an unchanged process configuration,
    and otherwise a new instance that does not run. Every process goes on; one
    that is no longer current has been sent its stop, with both exit actions
    ignored, and `waits` holds the exits of those that were replaced.
   */
  lemma ReloadAllOrNothing(run: seq<State>, i: nat, t: nat, g': Shared, pc': Pc, spawn: seq<Pc>, n: Name, j: nat)
    requires IsRun(run) && i < |run| && t < |run[i].threads| && (run[i].threads[t].RlLock? || run[i].threads[t].RlHold?)
    requires Act(run[i].g, t, run[i].threads[t], g', pc', spawn)
    ensures run[i].threads[t].RlLock? ==>
      && g'.w == run[i].g.w && (run[i].g.flag ==> g' == run[i].g && pc' == Gone)
      && (!run[i].g.flag ==> pc' == RlHold(run[i].threads[t].setup))
    ensures run[i].threads[t].RlHold? ==>
      var w, w', c := run[i].g.w, g'.w, run[i].threads[t].setup;
      && w'.services.Keys == c.Names() && w'.pidMap == w.pidMap && w'.order == c.order && w'.mode == c.mode
      && (n in c.Names() ==>
            && n in w'.services && w'.services[n] < |w'.insts|
            && (Keeps(w, c, n) <==> n in w.services && w'.services[n] == w.services[n])
            && (Keeps(w, c, n) <==> w'.Runs(n))
            && (Keeps(w, c, n) ==> w'.insts[w'.services[n]].pid == w.insts[w.services[n]].pid))
      && (j < |w.insts| && w.insts[j].running ==>
            j < |w'.insts| && w'.insts[j].running && (!w'.Current(j) ==> w'.insts[j].stopped && w'.insts[j].Silent()))
      && pc'.RlWait? && (forall e :: e in pc'.waits <==> IsReplaced(w, c, e))
  {
    hide IsRun, Inv, Valid, Setup.Valid, Keeps, Act, Setup.Names;
    var s := run[i];
    if s.threads[t].RlLock? {
      ReloadEnters(s.g, t, s.threads[t].setup, g', pc', spawn);
    } else {
      InvAlways(run, i);
      HoldFacts(s, t);
      ReloadStep(s.g, t, s.threads[t].setup, g', pc', spawn);
      ReloadParts(s.g.w, s.threads[t].setup, n, j);
    }
  }

  lemma ReloadParts(w: World, c: Setup, n: Name, j: nat)
    requires Valid(w) && c.Valid()
    ensures var w' := Reconcile(w, c);
      && w'.services.Keys == c.Names() && w'.pidMap == w.pidMap && w'.order == c.order && w'.mode == c.mode
      && (n in c.Names() ==>
            && n in w'.services && w'.services[n] < |w'.insts|
            && (Keeps(w, c, n) <==> n in w.services && w'.services[n] == w.services[n])
            && (Keeps(w, c, n) <==> w'.Runs(n))
            && (Keeps(w, c, n) ==> w'.insts[w'.services[n]].pid == w.insts[w.services[n]].pid))
      && (j < |w.insts| && w.insts[j].running ==>
            j < |w'.insts| && w'.insts[j].running && (!w'.Current(j) ==> w'.insts[j].stopped && w'.insts[j].Silent()))
  {
    hide Valid, Setup.Valid, Keeps, Setup.Names, Adjusted;
    ReloadExact(w, c, n);
    ServiceAfter(w, c, n);
    if j < |w.insts| && w.insts[j].running {
      ReloadSilences(w, c, j);
    }
  }

  lemma ReloadClosed(s: State, t: nat, waits: set<Exit>)
    requires Inv(s) && t < |s.threads| && ReloadOf(s.threads[t], waits) && !s.threads[t].RlWait?
    ensures AllClosed(s.g.w, waits)
  {
    assert ThreadOk(s.g, t, s.threads[t]);
    hide SharedOk, TotalLoad, TotalJoins, OkMain, OkWinner, AllClosed;
  }

  /**
    Reload starts nothing itself before every process it replaced has exited: a
    goroutine that has gone on to the starts of a reload made its locked section
    at `m`, and whatever that replaced is gone.
   */
  lemma ReloadWaits(run: seq<State>, i: nat, t: nat, waits: set<Exit>) returns (m: nat)
    requires IsRun(run) && i < |run| && t < |run[i].threads|
    requires ReloadOf(run[i].threads[t], waits) && !run[i].threads[t].RlWait?
    ensures m < i && t < |run[m].threads| && run[m].threads[t].RlHold?
    ensures t < |run[m + 1].threads| && run[m + 1].threads[t].RlWait?
    ensures forall e :: IsReplaced(run[m].g.w, run[m].threads[t].setup, e) ==> run[i].g.w.Closed(e)
  {
    hide Inv, IsRun, IsReplaced, ReloadOf;
    m := ReloadOrigin(run, i, t, waits);
    InvAlways(run, i);
    ReloadClosed(run[i], t, waits);
  }

  // ------------------------------------------------------------- ordered restarts

  lemma NeedsBefore(w: World, x: Name, y: Name)
    requires Valid(w) && NeedsGraph(w).Before(x, y)
    ensures w.graph.Before(x, y)
  {
    var p :| NeedsGraph(w).PathBetween(p, x, y) && |p| > 1;
    forall i, j | 0 <= i < |p| && 0 <= j < |p| && j == i + 1 ensures w.graph.Edge(p[i], p[j]) {
      assert NeedsGraph(w).Edge(p[i], p[j]);
    }
    assert w.graph.PathBetween(p, x, y);
  }

  /** Where the `a`-th dependent stands in the list it was picked from. */
  ghost function Place(w: World, names: seq<Name>, n: Name, a: nat): (i: nat)
    requires a < |Dependents(w, names, n)|
    ensures i < |names| && names[i] == Dependents(w, names, n)[a]
  {
    if |Dependents(w, names, n)| == |Dependents(w, names[1..], n)| then 1 + Place(w, names[1..], n, a)
    else if a == 0 then 0
    else 1 + Place(w, names[1..], n, a - 1)
  }

  lemma {:induction false} PlacesGrow(w: World, names: seq<Name>, n: Name, a: nat, b: nat)
    requires a < b < |Dependents(w, names, n)|
    ensures Place(w, names, n, a) < Place(w, names, n, b)
    decreases |names|
  {
    if |Dependents(w, names, n)| == |Dependents(w, names[1..], n)| {
      PlacesGrow(w, names[1..], n, a, b);
    } else if a > 0 {
      PlacesGrow(w, names[1..], n, a - 1, b - 1);
    }
  }

  /** The dependents are listed in start order: what requires another comes after it. */
  lemma DependentsOrdered(w: World, n: Name, a: nat, b: nat)
    requires Valid(w)
    requires var deps := Dependents(w, w.order, n);
      a < |deps| && b < |deps| && NeedsGraph(w).Before(deps[a], deps[b])
    ensures a < b
  {
    var deps := Dependents(w, w.order, n);
    NeedsBefore(w, deps[a], deps[b]);
    var i, j := Place(w, w.order, n, a), Place(w, w.order, n, b);
    RespectsBefore(w.graph, w.order, i, j);
    if b < a {
      PlacesGrow(w, w.order, n, b, a);
    }
  }

  lemma {:induction false} DependentsExact(w: World, names: seq<Name>, n: Name, x: Name)
    ensures x in Dependents(w, names, n) <==> x in names && NeedsGraph(w).Before(n, x) && x != n && w.Runs(x)
  {
    hide NeedsGraph, Graph.Before;
    if names != [] {
      DependentsExact(w, names[1..], n, x);
    }
  }

  /** The names behind what a control restart of `n` lists. */
  ghost function ListedNames(w: World, n: Name): seq<Name> {
    [n] + if n in w.services && w.services[n] < |w.insts| && w.insts[w.services[n]].config.policy.withDependents
          then Dependents(w, w.order, n) else []
  }

  /** `names` stand for the instances `chain`. */
  ghost predicate NamesOfChain(w: World, names: seq<Name>, chain: seq<nat>) {
    |names| == |chain| && forall k :: 0 <= k < |names| ==> names[k] in w.services && w.services[names[k]] == chain[k]
  }

  lemma ListedChain(w: World, n: Name)
    requires n in w.services && w.services[n] < |w.insts|
    ensures NamesOfChain(w, ListedNames(w, n), Listed(w, n))
  {
    var names := ListedNames(w, n);
    forall k | 1 <= k < |names| ensures w.Runs(names[k]) {
      assert names[k] == Dependents(w, w.order, n)[k - 1];
      DependentsExact(w, w.order, n, names[k]);
    }
  }

  /**
    A control restart lists the service and, if it is to take its dependents
    along, exactly the running services that require it, directly or through
    others.
   */
  lemma ListingExact(w: World, n: Name, x: Name)
    requires Valid(w) && n in w.services
    ensures NamesOfChain(w, ListedNames(w, n), Listed(w, n))
    ensures x in ListedNames(w, n) <==>
      x == n || (w.insts[w.services[n]].config.policy.withDependents && w.Runs(x) && NeedsGraph(w).Before(n, x))
  {
    hide NeedsGraph, Graph.Before, Dependents, Listed, Respects;
    ListedChain(w, n);
    DependentsExact(w, w.order, n, x);
    RunsInOrder(w, x);
  }

  lemma RunsInOrder(w: World, x: Name)
    requires Ordered(w)
    ensures w.Runs(x) ==> x in w.order
  {
    assert w.Runs(x) ==> x in Elems(w.order);
  }

  /** Of two listed services, the one that requires the other, by any chain, comes later. */
  lemma ListingOrdered(w: World, n: Name, a: nat, b: nat)
    requires Valid(w) && n in w.services && a < |ListedNames(w, n)| && b < |ListedNames(w, n)|
    requires NeedsGraph(w).Before(ListedNames(w, n)[a], ListedNames(w, n)[b])
    ensures a < b
  {
    hide NeedsGraph, Graph.Before, Dependents;
    var names := ListedNames(w, n);
    var deps := Dependents(w, w.order, n);
    if a > 0 && b > 0 {
      assert names[a] == deps[a - 1] && names[b] == deps[b - 1];
      DependentsOrdered(w, n, a - 1, b - 1);
    } else if b == 0 {
      NeedsBefore(w, names[a], n);
      if a > 0 {
        assert names[a] == deps[a - 1];
        DependentsExact(w, w.order, n, names[a]);
        NeedsBefore(w, n, names[a]);
      }
      NoLoop(w, names[a], n);
    }
  }

  lemma NoLoop(w: World, x: Name, n: Name)
    requires Ordered(w) && n in w.services && w.graph.Before(x, n)
    ensures x != n && !w.graph.Before(n, x)
  {
    if x == n || w.graph.Before(n, x) {
      InOrder(w, x, n);
      if x == n {
        RespectsAcyclic(w.graph, w.order);
        assert w.graph.OnCycle(n);
      }
      var i :| 0 <= i < |w.order| && w.order[i] == x;
      var j :| 0 <= j < |w.order| && w.order[j] == n;
      RespectsBefore(w.graph, w.order, i, j);
      RespectsBefore(w.graph, w.order, j, i);
      assert false;
    }
  }

  lemma InOrder(w: World, x: Name, n: Name)
    requires Ordered(w) && n in w.services && w.graph.Before(x, n)
    ensures x in w.order && n in w.order
  {
    var p :| w.graph.PathBetween(p, x, n) && |p| > 1;
    assert p[0] in Elems(w.order) && n in Elems(w.order);
  }

  /** Goroutine `t` began its ordered restart at `m`, for `n`, with the chain listed then. */
  ghost predicate BeganAt(run: seq<State>, m: nat, t: nat, n: Name, chain: seq<nat>) {
    && m < |run| && t < |run[m].threads| && run[m].threads[t].CtHold? && run[m].threads[t].name == n
    && n in run[m].g.w.services && chain == Listed(run[m].g.w, n)
  }

  /**
    The process that `chain[b]` had when this restart stopped it, at some point
    after `m0`, is gone: the instance does not run, unless it was started anew.
   */
  ghost predicate ExitedSince(run: seq<State>, m0: nat, i: nat, t: nat, chain: seq<nat>, b: nat)
    requires i < |run| && b < |chain|
  {
    exists m, e :: m0 < m < i && StoppedAndGone(run, m, i, t, chain, b, e)
  }

  ghost predicate StoppedAndGone(run: seq<State>, m: nat, i: nat, t: nat, chain: seq<nat>, b: nat, e: Exit)
    requires i < |run| && b < |chain|
  {
    && CollectedAt(run, m, t, chain, |chain| - 1 - b, e)
    && e.inst == chain[b] && run[i].g.w.Closed(e)
    && (run[i].g.w.insts[chain[b]].gen == e.gen ==> !run[i].g.w.insts[chain[b]].running)
  }

  /** When `n` was restarted in `w`, the `b`-th service listed required the `a`-th, directly or through others. */
  ghost predicate RequiredBy(w: World, n: Name, a: nat, b: nat) {
    var names := ListedNames(w, n);
    a < |names| && b < |names| && NeedsGraph(w).Before(names[a], names[b])
  }

  ghost predicate AttemptedSince(run: seq<State>, m0: nat, i: nat, t: nat, job: Job, k: nat) {
    exists m :: m0 < m < i && AttemptedAt(run, m, t, job, k)
  }

  lemma RestartOrigin(run: seq<State>, i: nat, t: nat) returns (m0: nat, n: Name)
    requires IsRun(run) && i < |run| && t < |run[i].threads| && InJob(run[i].threads[t])
    ensures m0 < i && BeganAt(run, m0, t, n, JobOf(run[i].threads[t]).chain) && Valid(run[m0].g.w)
  {
    hide IsRun, Inv, Listed, JobOf, InJob, Valid;
    m0 := JobOrigin(run, i, t);
    n := run[m0].threads[t].name;
    InvAlways(run, m0);
    InvFlags(run[m0]);
  }

  lemma JobClosed(s: State, t: nat)
    requires Inv(s) && t < |s.threads|
    requires s.threads[t].OHold? || s.threads[t].OStart?
          || ((s.threads[t].StBegin? || s.threads[t].StLock? || s.threads[t].StHold?) && s.threads[t].k.Leg?)
    ensures InJob(s.threads[t]) && JobOk(s.g.w, JobOf(s.threads[t]))
    ensures var job := JobOf(s.threads[t]);
      if s.threads[t].OHold? then |job.exits| < |job.chain| else |job.exits| == |job.chain|
    ensures s.threads[t].OStart? ==> s.threads[t].j < |s.threads[t].job.chain|
    ensures !s.threads[t].OHold? && !s.threads[t].OStart? ==>
      s.threads[t].k.j < |s.threads[t].k.job.chain| && s.threads[t].i == s.threads[t].k.job.chain[s.threads[t].k.j]
  {
    assert ThreadOk(s.g, t, s.threads[t]);
    hide SharedOk, TotalLoad, TotalJoins, OkMain, OkWinner, JobOk;
  }

  /** Of the instances whose exits a restart has collected, each has exited since. */
  lemma CollectedExited(run: seq<State>, i: nat, t: nat, m0: nat, b: nat)
    requires IsRun(run) && m0 < i < |run| && t < |run[i].threads| && InJob(run[i].threads[t])
    requires t < |run[m0].threads| && run[m0].threads[t].CtHold?
    requires JobOk(run[i].g.w, JobOf(run[i].threads[t]))
    requires var job := JobOf(run[i].threads[t]); |job.chain| - |job.exits| <= b < |job.chain|
    ensures ExitedSince(run, m0, i, t, JobOf(run[i].threads[t]).chain, b)
  {
    hide IsRun, InJob, JobOf, CollectedAt;
    var job := JobOf(run[i].threads[t]);
    var q := |job.chain| - 1 - b;
    var m := ExitOrigin(run, i, t, m0, q);
    var e := job.exits[q];
    assert e.inst == job.chain[|job.chain| - 1 - q] && run[i].g.w.Closed(e);
    assert StoppedAndGone(run, m, i, t, job.chain, b, e);
  }

  /**
    Whenever an ordered restart has the lock to stop an instance, every instance
    behind it in the chain was stopped by this restart and has exited since; and
    so has every listed service that required it, directly or through others,
    when the restart began.
   */
  lemma OrderedRestart(run: seq<State>, i: nat, t: nat) returns (m0: nat, n: Name)
    requires IsRun(run) && i < |run| && t < |run[i].threads| && run[i].threads[t].OHold?
    ensures var job := run[i].threads[t].job; m0 < i && BeganAt(run, m0, t, n, job.chain) && |job.exits| < |job.chain|
    ensures var job := run[i].threads[t].job; var a := |job.chain| - 1 - |job.exits|;
      && job.Next() == job.chain[a] && NamesOfChain(run[m0].g.w, ListedNames(run[m0].g.w, n), job.chain)
      && (forall b :: a < b < |job.chain| ==>
            ExitedSince(run, m0, i, t, job.chain, b))
      && (forall b: nat :: b < |job.chain| && RequiredBy(run[m0].g.w, n, a, b) ==>
            ExitedSince(run, m0, i, t, job.chain, b))
  {
    hide IsRun, Inv, Valid, Listed, ListedNames, NeedsGraph, Graph.Before, JobOk, ExitedSince, NamesOfChain;
    InvAlways(run, i);
    JobClosed(run[i], t);
    m0, n := RestartOrigin(run, i, t);
    var w := run[m0].g.w;
    var job := run[i].threads[t].job;
    var a := |job.chain| - 1 - |job.exits|;
    ListingExact(w, n, n);
    ChainLength(w, ListedNames(w, n), job.chain);
    forall b | a < b < |job.chain| ensures ExitedSince(run, m0, i, t, job.chain, b) {
      CollectedExited(run, i, t, m0, b);
    }
    forall b: nat | b < |job.chain| && RequiredBy(w, n, a, b) ensures a < b {
      ListingOrdered(w, n, a, b);
    }
  }

  lemma ChainLength(w: World, names: seq<Name>, chain: seq<nat>)
    requires NamesOfChain(w, names, chain)
    ensures |names| == |chain|
  {
  }

  /**
    Whenever an ordered restart is at the start of an instance, the whole chain
    has exited since it was stopped, and the attempt at the start of every listed
    service that this one required, directly or through others, has returned.
   */
  lemma OrderedStarts(run: seq<State>, i: nat, t: nat, job: Job, j: nat) returns (m0: nat, n: Name)
    requires IsRun(run) && i < |run| && t < |run[i].threads| && InLeg(run[i].threads[t], job, j)
    ensures m0 < i && BeganAt(run, m0, t, n, job.chain) && j < |job.chain|
    ensures NamesOfChain(run[m0].g.w, ListedNames(run[m0].g.w, n), job.chain)
    ensures !run[i].threads[t].OStart? ==> run[i].threads[t].i == job.chain[j]
    ensures forall b :: 0 <= b < |job.chain| ==> ExitedSince(run, m0, i, t, job.chain, b)
    ensures forall k: nat :: k < |job.chain| && RequiredBy(run[m0].g.w, n, k, j) ==>
      AttemptedSince(run, m0, i, t, job, k)
  {
    hide IsRun, Inv, Valid, Listed, ListedNames, NeedsGraph;
    hide Graph.Before, JobOk, ExitedSince, AttemptedAt, NamesOfChain;
    InvAlways(run, i);
    JobClosed(run[i], t);
    m0, n := RestartOrigin(run, i, t);
    var w := run[m0].g.w;
    ListingExact(w, n, n);
    ChainLength(w, ListedNames(w, n), job.chain);
    forall b | 0 <= b < |job.chain| ensures ExitedSince(run, m0, i, t, job.chain, b) {
      CollectedExited(run, i, t, m0, b);
    }
    forall k: nat | k < |job.chain| && RequiredBy(w, n, k, j) ensures AttemptedSince(run, m0, i, t, job, k) {
      ListingOrdered(w, n, k, j);
      var m := StartsInOrder(run, i, t, m0, job, j, k);
    }
  }
}
