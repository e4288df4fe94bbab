/**
  The daemon's sections under `d.mu` as they are written: loops over its maps
  that update its fields in place. Each one is proved to do what the transition
  system takes it to do in one step.

  Service instances live in `insts`, indexed by their number; a reference to a
  service is its index.
 */
module Daemons {
  import opened Wrappers
  import opened Graphs
  import opened World
  import opened Reload
  import opened Protocol
  import opened ReloadLoops
  import opened Services
  import Ordering

  class Daemon {
    var insts: seq<Inst>
    var services: map<Name, nat>
    var pidMap: map<nat, nat>
    var shutdownSeq: seq<Name>
    var shutdownMode: Mode
    var cfg: Settings
    const entrypointArgs: seq<string>
    var started: bool
    var pending: int
    var senders: int
    ghost var kernel: map<nat, Child>
    ghost var graph: Graph<Name>

    ghost function W(): World
      reads this
    {
      World(insts, services, pidMap, kernel, shutdownSeq, graph, shutdownMode)
    }

    /** Services point into the table of instances. */
    ghost predicate Ready()
      reads this
    {
      NamesPoint(W())
    }

    // ------------------------------------------------------- service run state

    method FinishStart(i: nat, p: nat)
      requires i < |insts|
      modifies this`insts
      ensures insts == old(insts)[i := old(insts)[i].FinishStart(p)]
      ensures W().Done(i).gen == old(W()).Done(i).gen + 1 && !W().Closed(W().Done(i)) && !insts[i].stopped
    {
      var inst := insts[i];
      inst := inst.(pid := p);
      inst := inst.(gen := inst.gen + 1);
      inst := inst.(running := true);
      inst := inst.(stopped := false);
      insts := insts[i := inst];
    }

    method StopService(i: nat)
      requires i < |insts|
      modifies this`insts
      ensures W() == old(W()).Stop(i)
      ensures old(insts[i].running) ==> insts[i].stopped
    {
      if !insts[i].running {
        assert insts[i := insts[i]] == insts;
        return;
      }
      insts := insts[i := insts[i].(stopped := true)];
    }

    method MarkExited(i: nat)
      requires i < |insts|
      modifies this`insts
      ensures insts == old(insts)[i := old(insts)[i].MarkExited()]
      ensures W().Closed(old(W()).Done(i))
    {
      var inst := insts[i];
      inst := inst.(running := false);
      inst := inst.(pid := 0);
      insts := insts[i := inst];
    }

    // ------------------------------------------------------------ startService

    /** The locked part of `startService`; `forked` is the pid the kernel hands out, if the fork succeeds. */
    method StartLocked(i: nat, shuttingDown: bool, forked: Option<nat>, ghost g: Shared) returns (o: Outcome)
      requires i < |insts| && (forked.Some? ==> FreshPid(W(), forked.value)) && g.w == W()
      modifies this`insts, this`pidMap, this`kernel
      ensures o == Refused <==> shuttingDown
      ensures o == Outcome.Replaced <==> !shuttingDown && !old(W()).Current(i)
      ensures o == AlreadyRunning <==> !shuttingDown && old(W()).Current(i) && old(insts)[i].running
      ensures o == Started <==> !shuttingDown && old(W()).Current(i) && !old(insts)[i].running && forked.Some?
      ensures W() == if o == Started then Fork(old(W()), i, forked.value) else old(W())
      ensures !shuttingDown ==> StartsAs(g, i, o, Unlock(g.(w := W())))
    {
      if shuttingDown {
        return Refused;
      }
      var name := insts[i].config.name;
      if name !in services || services[name] != i {
        return Outcome.Replaced;
      }
      if insts[i].running {
        return AlreadyRunning;
      }
      if forked.None? {
        return Failed;
      }
      kernel := kernel[forked.value := Child(Some(Exit(i, insts[i].gen + 1)), Alive)];
      FinishStart(i, forked.value);
      pidMap := pidMap[forked.value := i];
      return Started;
    }

    // ------------------------------------------------------------ the reap loop

    /** The reap loop's handling of a managed pid, up to its look at the flag. */
    method ReapManaged(p: nat) returns (i: nat)
      requires p in pidMap && pidMap[p] < |insts|
      modifies this`insts, this`pidMap, this`kernel
      ensures W() == Reap(old(W()), p) && i == old(pidMap)[p]
    {
      i := pidMap[p];
      pidMap := pidMap - {p};
      kernel := kernel - {p};
      MarkExited(i);
    }

    /** A failed hard dependency takes its running requirers down. */
    method StopRequirersOf(n: Name)
      requires Ready()
      modifies this`insts
      ensures W() == StopRequirers(old(W()), n)
    {
      ghost var w := W();
      var left := services.Keys;
      while left != {}
        invariant left <= services.Keys
        invariant W() == w.(insts := insts) && |insts| == |w.insts|
        invariant forall j :: 0 <= j < |insts| ==>
          insts[j] == if w.Requires(j, n) && w.insts[j].config.name !in left then w.insts[j].Stop() else w.insts[j]
        decreases left
      {
        var x :| x in left;
        var j := services[x];
        assert w.Current(j);
        if n in insts[j].config.policy.needs && insts[j].running {
          StopService(j);
        }
        left := left - {x};
      }
      assert insts == StopRequirers(w, n).insts;
    }

    /**
      The action switch of the reap loop, the daemon not shutting down: what an exit
      of the service leads to, and whom it takes along.
     */
    method ExitSection(i: nat, success: bool, ghost g: Shared) returns (action: Action)
      requires Ready() && i < |insts| && g.w == W()
      modifies this`insts
      ensures action == Restart ==>
        DoExit(g, g.w.Done(i), success, false, Unlock(g.(w := W())), MBump(g.w.Done(i)), [])
      ensures action == Ignore ==> DoExit(g, g.w.Done(i), success, false, Unlock(g.(w := W())), MWait, [])
      ensures action != Restart && action != Ignore ==>
        DoExit(g, g.w.Done(i), success, false, Unlock(g.(w := W())), MWait, [ShSwap(Ends)])
    {
      hide DoExit, StopRequirers, NamesPoint;
      var svc := insts[i];
      if svc.stopped {
        action := Ignore;
      } else if svc.config.kind == Scheduled {
        action := Ignore;
      } else if svc.config.kind == Oneshot {
        if success {
          action := Ignore;
        } else {
          action := svc.config.onceFailure;
        }
      } else if success {
        action := svc.config.policy.onSuccess;
      } else {
        action := svc.config.policy.onFailure;
        StopRequirersOf(svc.config.name);
      }
      assert action == ExitAction(svc, success) && W() == AfterExit(g.w, i, success);
      ExitIs(g, i, success);
    }

    // ---------------------------------------------------------- check failures

    /** What one service makes of the failed check. */
    method CheckOne(i: nat, c: Check) returns (req: Option<Exit>, shut: bool)
      requires i < |insts|
      modifies this`insts, this`pending, this`senders
      ensures CheckStep(old(W()), i, c) == CheckResult(W(), if req.Some? then [req.value] else [], shut)
      ensures pending == old(pending) + (if req.Some? then 1 else 0) && senders == old(senders) + pending - old(pending)
    {
      req, shut := None, false;
      var actions := insts[i].config.policy.onCheck;
      if c in actions {
        match actions[c]
        case Restart =>
          req := Some(Exit(i, insts[i].gen));
          StopService(i);
          pending := pending + 1;
          senders := senders + 1;
        case Ignore =>
        case _ =>
          shut := true;
      }
    }

    /**
      `handleCheckFailure`, the daemon not shutting down. `names` is the order in
      which the map yields the services.
     */
    method CheckFailed(names: seq<Name>, c: Check) returns (reqs: seq<Exit>, shut: bool)
      requires Ready() && Elems(names) == services.Keys
      modifies this`insts, this`pending, this`senders
      ensures CheckResult(W(), reqs, shut) == CheckLoop(old(W()), names, c)
      ensures pending == old(pending) + |reqs| && senders == old(senders) + |reqs|
    {
      reqs, shut := [], false;
      ghost var all := CheckLoop(W(), names, c);
      assert names[0..] == names;
      assert [] + all.reqs == all.reqs;
      hide CheckLoop, CheckStep, NamesPoint;
      for k := 0 to |names|
        invariant Ready() && services == old(services)
        invariant pending == old(pending) + |reqs| && senders == old(senders) + |reqs|
        invariant all == Before(reqs, CheckLoop(W(), names[k..], c))
        invariant W().(insts := old(insts)) == old(W())
      {
        hide Before;
        assert names[k] in Elems(names);
        ghost var w := W();
        PointsIn(w, names[k]);
        var i := services[names[k]];
        CheckUnfold(reqs, w, names, k, c);
        CheckStepNames(w, i, c);
        var req;
        req, shut := CheckOne(i, c);
        reqs := reqs + if req.Some? then [req.value] else [];
        if shut {
          return;
        }
      }
      NoMoreNames(W(), names, c, reqs);
    }

    // ---------------------------------------------------------------- shutdown

    method ReverseSeq() returns (rev: seq<Name>)
      ensures rev == Reversed(shutdownSeq)
      ensures Elems(rev) == Elems(shutdownSeq) && |rev| == |shutdownSeq|
    {
      var n := |shutdownSeq|;
      rev := [];
      for i := 0 to n
        invariant |rev| == i && forall j :: 0 <= j < i ==> rev[j] == shutdownSeq[n - 1 - j]
      {
        rev := rev + [shutdownSeq[n - 1 - i]];
      }
      forall x | x in shutdownSeq ensures x in rev {
        var j :| 0 <= j < n && shutdownSeq[j] == x;
        assert rev[n - 1 - j] == x;
      }
    }

    /** One turn of the loop of `stopSequential`, up to its wait: the exit to wait for, if the service runs. */
    method StopNext(todo: seq<Name>, stopped: set<Name>, ghost k: Cont, ghost g: Shared) returns (done: Option<Exit>)
      requires Ready() && todo != [] && g.w == W()
      modifies this`insts
      ensures done.None? ==> W() == old(W()) && DoSwSeq(g, todo, stopped, k, g, SwSeq(todo[1..], stopped, k))
      ensures done.Some? ==>
        var waits := SwSeqWait(done.value, todo[1..], stopped + {todo[0]}, k);
        DoSwSeq(g, todo, stopped, k, Unlock(g.(w := W())), waits)
    {
      var name := todo[0];
      if name !in services || !insts[services[name]].running {
        return None;
      }
      var i := services[name];
      done := Some(Exit(i, insts[i].gen));
      StopService(i);
    }

    /** `stopSimultaneous` up to its wait: everything current is stopped and its exit collected. */
    method StopAllAtOnce() returns (dones: set<Exit>)
      requires Ready()
      modifies this`insts
      ensures W() == StopCurrent(old(W())) && dones == RunningExits(old(W()))
    {
      ghost var w := W();
      dones := {};
      var left := services.Keys;
      while left != {}
        invariant left <= services.Keys
        invariant W() == w.(insts := insts) && |insts| == |w.insts|
        invariant forall j :: 0 <= j < |insts| ==>
          insts[j] == if w.Current(j) && w.insts[j].config.name !in left then w.insts[j].Stop() else w.insts[j]
        invariant dones == set n | n in w.services && n !in left && w.Runs(n) :: w.Done(w.services[n])
        decreases left
      {
        var x :| x in left;
        var j := services[x];
        assert w.Current(j) && insts[j] == w.insts[j];
        if insts[j].running {
          dones := dones + {Exit(j, insts[j].gen)};
          StopService(j);
        }
        left := left - {x};
      }
      assert insts == StopCurrent(w).insts;
    }

    // ------------------------------------------------- dependents of a service

    /** The services that list `cur` under requires and are not yet known, in any order. */
    method NewRequirers(cur: Name, name: Name, closure: set<Name>) returns (found: seq<Name>)
      requires Ready()
      ensures NoDup(found)
      ensures forall x :: x in found <==>
        x in services && x != name && x !in closure && cur in insts[services[x]].config.policy.needs
    {
      found := [];
      var left := services.Keys;
      while left != {}
        invariant left <= services.Keys && NoDup(found)
        invariant forall x :: x in found <==>
          x in services && x !in left && x != name && x !in closure && cur in insts[services[x]].config.policy.needs
        decreases left
      {
        var x :| x in left;
        if cur in insts[services[x]].config.policy.needs && x !in closure && x != name {
          found := found + [x];
        }
        left := left - {x};
      }
    }

    /** `dependentClosure`: exactly the services that require `name`, directly or through others. */
    method DependentClosure(name: Name) returns (closure: set<Name>)
      requires Ready() && name in services
      ensures forall x :: x in closure <==> x != name && NeedsGraph(W()).Before(name, x)
    {
      closure := {};
      var frontier := [name];
      assert Elems([name]) == {name};
      ghost var w := W();
      while frontier != []
        invariant closure <= services.Keys && name !in closure
        invariant Sound(w, name, closure) && Elems(frontier) <= closure + {name}
        invariant Saturated(w, name, closure, closure + {name} - Elems(frontier))
        decreases services.Keys - closure, |frontier|
      {
        var cur := frontier[0];
        var found := NewRequirers(cur, name, closure);
        ClosureStep(w, name, closure, frontier, found);
        frontier := frontier[1..] + found;
        closure := closure + (set x | x in found);
      }
      ClosureDone(w, name, closure);
    }

    /** `runningDependentsLocked`. */
    method RunningDependentsLocked(name: Name) returns (deps: seq<nat>)
      requires Ready() && name in services
      ensures deps == RunningDependents(W(), name)
    {
      hide *;
      WFacts(this);
      var closure := DependentClosure(name);
      deps := [];
      ghost var w := W();
      ghost var names := [];
      assert shutdownSeq[0..] == shutdownSeq;
      IndicesNone(w);
      assert names + Dependents(w, shutdownSeq, name) == Dependents(w, shutdownSeq, name);
      for k := 0 to |shutdownSeq|
        invariant Dependents(w, shutdownSeq, name) == names + Dependents(w, shutdownSeq[k..], name)
        invariant Indices(w, names, deps)
      {
        var n := shutdownSeq[k];
        RunsAt(w, n);
        assert shutdownSeq[k..] == [n] + shutdownSeq[k + 1..];
        DependentsUnfold(w, n, shutdownSeq[k + 1..], name);
        ghost var rest := Dependents(w, shutdownSeq[k + 1..], name);
        if n in closure && n in services && insts[services[n]].running {
          assert names + ([n] + rest) == names + [n] + rest;
          IndicesMore(w, names, deps, n);
          deps := deps + [services[n]];
          names := names + [n];
        } else {
          assert [] + rest == rest;
        }
      }
      assert shutdownSeq[|shutdownSeq|..] == [];
      IndicesAll(w, names, deps, name);
    }

    // ---------------------------------------------------------------- restarts

    /** `stopForRestart` on the next instance of an ordered restart, the daemon not shutting down. */
    method StopForRestart(job: Job, ghost g: Shared) returns (done: Exit)
      requires |job.exits| < |job.chain| && job.Next() < |insts| && g.w == W() && g.pending == pending
      modifies this`insts, this`pending
      ensures DoOHold(g, job, Unlock(g.(w := W(), pending := pending)), OWait(job.(exits := job.exits + [done])))
    {
      hide DoOHold, World.Stop;
      var i := job.Next();
      done := Exit(i, insts[i].gen);
      if insts[i].running {
        StopService(i);
      } else {
        StopIdle(W(), i);
      }
      pending := pending + 1;
      OHoldIs(g, job);
    }

    /** Books one restart request and stops the service, if it runs. */
    method RequestRestart(i: nat) returns (done: Exit)
      requires i < |insts|
      modifies this`insts, this`pending, this`senders
      ensures W() == old(W()).Stop(i) && done == old(W()).Done(i)
      ensures pending == old(pending) + 1 && senders == old(senders) + 1
    {
      hide World.Stop;
      done := Exit(i, insts[i].gen);
      if insts[i].running {
        StopService(i);
      } else {
        StopIdle(W(), i);
      }
      pending := pending + 1;
      senders := senders + 1;
    }

    /**
      The control socket's restart, the daemon not shutting down: an ordered restart
      of what `chain` lists, or else one request.
     */
    method RestartLocked(name: Name, wait: bool, ghost g: Shared) returns (chain: seq<nat>, req: Option<Exit>)
      requires Ready() && g.w == W() && g.pending == pending && g.senders == senders
      modifies this`insts, this`pending, this`senders
      ensures name !in services ==> chain == [] && req == None && W() == old(W())
      ensures name in services && req.None? ==>
        W() == old(W()) && DoRestart(g, name, wait, Unlock(g), OStop(Job(chain, [])), [])
      ensures name in services && req.Some? ==>
        DoRestart(g, name, wait, Unlock(g.(w := W(), pending := pending, senders := senders)), Gone, [Send(req.value)])
    {
      hide *;
      WFacts(this);
      chain, req := [], None;
      if name !in services {
        return;
      }
      PointsIn(W(), name);
      RestartIs(g, name, wait);
      var i := services[name];
      var deps := [];
      if insts[i].config.policy.withDependents {
        deps := RunningDependentsLocked(name);
      }
      if wait || deps != [] {
        chain := [i] + deps;
        return;
      }
      var done := RequestRestart(i);
      req := Some(done);
    }

    // ------------------------------------------------------------------ reload

    /** The names of a configuration. */
    method NamesIn(s: Settings, ghost c: Setup) returns (names: set<Name>)
      requires c == SetupOf(s, entrypointArgs, c.order)
      ensures names == c.Names()
    {
      names := {};
      for k := 0 to |s.processes|
        invariant names == set j | 0 <= j < k :: s.processes[j].EffectiveName()
      {
        var name := s.processes[k].name;
        if name == "" {
          name := s.processes[k].command;
        }
        names := names + {name};
      }
      NamesBuilt(s, entrypointArgs, c);
    }

    /** Services that are no longer configured are silenced, stopped and forgotten. */
    method RemoveServices(ghost c: Setup, newNames: set<Name>)
      requires Ready() && newNames == c.Names()
      modifies this`insts, this`services
      ensures Pruned(old(W()), c, {}, insts, services)
    {
      ghost var w := W();
      var left := services.Keys;
      while left != {}
        invariant left <= services.Keys && Pruned(w, c, left, insts, services)
        decreases left
      {
        var n :| n in left;
        var i := services[n];
        PrunedAt(w, c, left, insts, services, n);
        PruneStep(w, c, left, insts, services, n);
        if n !in newNames {
          var inst := insts[i];
          var policy := inst.config.policy.(onSuccess := Ignore, onFailure := Ignore);
          inst := inst.(config := inst.config.(policy := policy));
          if inst.running {
            inst := inst.(stopped := true);
          }
          insts := insts[i := inst];
          services := services - {n};
        }
        left := left - {n};
      }
    }

    /** `buildServices`: a new instance for every configured process, unless one is rejected. */
    method BuildServices(parsers: Parsers, ghost c: Setup) returns (error: Option<ServiceError>)
      requires c.Valid() && c == SetupOf(cfg, entrypointArgs, c.order)
      modifies this`insts, this`services
      ensures error.None? <==> forall k :: 0 <= k < |cfg.processes| ==> Accepts(parsers, cfg.processes[k])
      ensures error.Some? ==> exists k: nat ::
        FirstRejected(parsers, cfg.processes, k, error.value) && Built(c, old(insts), k, insts, services)
      ensures error.None? ==>
        insts == old(insts) + seq(|c.procs|, k requires 0 <= k < |c.procs| => NewInst(c.procs[k]))
      ensures error.None? ==> services == map n | n in c.Names() :: |old(insts)| + SlotOr(c, n)
    {
      hide *;
      ghost var base := insts;
      SetupIs(cfg, entrypointArgs, c);
      services := map[];
      BuiltStarts(c, base);
      for k := 0 to |cfg.processes|
        invariant Built(c, base, k, insts, services)
        invariant forall j :: 0 <= j < k ==> Accepts(parsers, cfg.processes[j])
      {
        var p := cfg.processes[k];
        SubstitutedIs(cfg, entrypointArgs, p);
        SubstitutedAccepted(parsers, cfg, entrypointArgs, p);
        if p.useEntrypointArgs && |entrypointArgs| > 0 {
          p := p.(args := p.args + entrypointArgs);
        }
        if p.prefix == "" {
          p := p.(prefix := cfg.prefix);
        }
        var svc := NewService(parsers, p);
        if svc.Err? {
          FirstRejectedIs(parsers, cfg.processes, k, svc.error);
          return Some(svc.error);
        }
        BuiltStep(c, base, k, insts, services);
        services := services[svc.value.name := |insts|];
        insts := insts + [NewInst(svc.value)];
      }
      BuiltEnds(c, base, insts, services);
      return None;
    }

    /** Running services keep their instance if the process is unchanged; otherwise they are silenced and stopped. */
    method PreserveRunning(ghost c: Setup, oldServices: map<Name, nat>, ghost w: World) returns (waits: set<Exit>)
      requires NamesPoint(w) && oldServices == w.services && Halfway(w, c, w.services.Keys, insts, services)
      modifies this`insts, this`services
      ensures Halfway(w, c, {}, insts, services)
      ensures forall e :: e in waits <==> IsReplaced(w, c, e)
    {
      hide *;
      waits := {};
      var left := oldServices.Keys;
      WaitedStarts(w, c);
      while left != {}
        invariant left <= oldServices.Keys && Halfway(w, c, left, insts, services) && Waited(w, c, left, waits)
        decreases left
      {
        var n :| n in left;
        HalfwayAt(w, c, left, insts, services, n);
        HalfwayStep(w, c, left, insts, services, n);
        WaitedStep(w, c, left, waits, n);
        AdjustedAt(w, c, n);
        var i := oldServices[n];
        if n in services {
          var inst := insts[i];
          var config := insts[services[n]].config;
          var changed := ProcessConfigChanged(inst.config.image, config.image);
          if inst.running && !changed {
            insts := insts[i := inst.(config := inst.config.(policy := config.policy))];
            services := services[n := i];
          } else if inst.running {
            waits := waits + {Exit(i, inst.gen)};
            var policy := inst.config.policy.(onSuccess := Ignore, onFailure := Ignore);
            inst := inst.(config := inst.config.(policy := policy));
            insts := insts[i := inst.(stopped := true)];
          } else {
            assert insts[i := inst] == insts;
          }
        }
        left := left - {n};
      }
      WaitedEnds(w, c, waits);
    }

    method CollectToStart() returns (toStart: seq<nat>)
      requires Ready()
      ensures toStart == ToStart(W(), shutdownSeq)
    {
      toStart := [];
      ghost var w := W();
      assert shutdownSeq[0..] == shutdownSeq;
      for k := 0 to |shutdownSeq|
        invariant ToStart(w, shutdownSeq) == toStart + ToStart(w, shutdownSeq[k..])
      {
        var n := shutdownSeq[k];
        assert shutdownSeq[k..] == [n] + shutdownSeq[k + 1..];
        ToStartUnfold(w, n, shutdownSeq[k + 1..]);
        if n in services && insts[services[n]].config.kind == Longrunning && !insts[services[n]].running {
          toStart := toStart + [services[n]];
        }
      }
    }

    /**
      The section of `reload` between its two uses of `d.mu`. The dry run before
      it leaves `buildServices` nothing to reject, so that its error cannot
      come back when services have already been stopped and removed.
     */
    method ReloadLocked(parsers: Parsers, newCfg: Settings, startOrd: seq<Name>)
      returns (waits: set<Exit>, toStart: seq<nat>)
      requires Valid(W()) && SetupOf(newCfg, entrypointArgs, startOrd).Valid()
      requires forall k :: 0 <= k < |newCfg.processes| ==> Accepts(parsers, newCfg.processes[k])
      modifies this`insts, this`services, this`shutdownSeq, this`shutdownMode, this`graph, this`cfg
      ensures W() == Reconcile(old(W()), SetupOf(newCfg, entrypointArgs, startOrd)) && Valid(W()) && cfg == newCfg
      ensures forall e :: e in waits <==> IsReplaced(old(W()), SetupOf(newCfg, entrypointArgs, startOrd), e)
      ensures toStart == ToStart(W(), shutdownSeq) && shutdownSeq == startOrd
    {
      hide *;
      ghost var w := W();
      ghost var c := SetupOf(newCfg, entrypointArgs, startOrd);
      SetupOrder(newCfg, entrypointArgs, startOrd);
      SetupIs(newCfg, entrypointArgs, c);
      WFacts(this);
      ValidPoints(w);
      var newNames := NamesIn(newCfg, c);
      var oldServices := services;
      RemoveServices(c, newNames);
      PrunedSize(w, c, insts, services);
      ghost var pruned, kept := insts, services;
      cfg := newCfg;
      var error := BuildServices(parsers, c);
      if error.Some? {
        assert false;
      }
      HalfwayStarts(w, c, pruned, kept, insts, services);
      waits := PreserveRunning(c, oldServices, w);
      shutdownSeq := startOrd;
      shutdownMode := newCfg.shutdownOrder;
      graph := c.graph;
      HalfwayEnds(w, c, insts, services);
      WFacts(this);
      ReconcileKeeps(w, c);
      ValidPoints(W());
      toStart := CollectToStart();
    }

    /**
      `reload` up to its waits. `newCfg` is what reading the file gave, if it could
      be read; `shuttingDown` is the flag as found under the lock.
     */
    method Reload(parsers: Parsers, newCfg: Option<Settings>, shuttingDown: bool)
      returns (r: Result<(set<Exit>, seq<nat>), ReloadError>)
      requires Valid(W())
      modifies this`insts, this`services, this`shutdownSeq, this`shutdownMode, this`graph, this`cfg
      ensures r.Err? ==> W() == old(W()) && cfg == old(cfg)
      ensures r.Err? ==> Blocks(parsers, started, newCfg, shuttingDown, r.error)
      ensures r.Ok? <==> started && newCfg.Some? && Acceptable(parsers, newCfg.value) && !shuttingDown
      ensures r.Ok? ==>
        var c := SetupOf(newCfg.value, entrypointArgs, shutdownSeq);
        && c.Valid() && W() == Reconcile(old(W()), c) && Valid(W()) && cfg == newCfg.value
        && (forall e :: e in r.value.0 <==> IsReplaced(old(W()), c, e))
        && r.value.1 == ToStart(W(), shutdownSeq)
      ensures r.Ok? ==> forall k: nat, p, q ::
        k < |newCfg.value.processes| && RunsAs(old(W()), newCfg.value.processes[k].EffectiveName(), p, q) ==>
          (Goes(old(W()), W(), newCfg.value.processes[k].EffectiveName()) <==>
             SameProcess(p, Effective(newCfg.value, entrypointArgs, newCfg.value.processes[k])))
    {
      hide Valid, Setup.Valid, SetupOf, Reconcile, IsReplaced, ToStart, Orderable, Accepts, W;
      hide RunsAs, Goes, SameProcess, Effective;
      ghost var w := W();
      hide Entrypoints, FirstRejected, OrderServices, Ordering.RaisedBy;
      if !started {
        return Err(NotStarted);
      }
      if newCfg.None? {
        return Err(Unreadable);
      }
      var entrypointCount := CountEntrypoints(newCfg.value.processes);
      if entrypointCount > 1 {
        return Err(ManyEntrypoints);
      }
      var startOrd := StartOrder(newCfg.value, entrypointArgs);
      if startOrd.Err? {
        return Err(Unordered(startOrd.error));
      }
      var rejected := DryRun(parsers, newCfg.value.processes);
      if rejected.Some? {
        return Err(Rejected(rejected.value));
      }
      if shuttingDown {
        return Err(ReloadError.ShuttingDown);
      }
      var waits, toStart := ReloadLocked(parsers, newCfg.value, startOrd.value);
      forall k: nat, p, q | k < |newCfg.value.processes| && RunsAs(w, newCfg.value.processes[k].EffectiveName(), p, q)
        ensures Goes(w, W(), newCfg.value.processes[k].EffectiveName()) <==>
          SameProcess(p, Effective(newCfg.value, entrypointArgs, newCfg.value.processes[k]))
      {
        ReloadGoes(w, newCfg.value, entrypointArgs, startOrd.value, k, p, q);
      }
      return Ok((waits, toStart));
    }
  }

  // ---------------------------------------------------------- sections are steps

  lemma ExitIs(g: Shared, i: nat, success: bool)
    requires i < |g.w.insts|
    ensures var g', action := Unlock(g.(w := AfterExit(g.w, i, success))), ExitAction(g.w.insts[i], success);
      && (action == Restart ==> DoExit(g, g.w.Done(i), success, false, g', MBump(g.w.Done(i)), []))
      && (action == Ignore ==> DoExit(g, g.w.Done(i), success, false, g', MWait, []))
      && (action != Restart && action != Ignore ==>
            DoExit(g, g.w.Done(i), success, false, g', MWait, [ShSwap(Ends)]))
  {
    hide AfterExit, ExitAction;
  }

  lemma StopIdle(w: World, i: nat)
    requires i < |w.insts| && !w.insts[i].running
    ensures w.Stop(i) == w
  {
    assert w.insts[i := w.insts[i]] == w.insts;
  }

  lemma OHoldIs(g: Shared, job: Job)
    requires |job.exits| < |job.chain|
    ensures DoOHold(g, job, Unlock(g.(w := g.w.Stop(job.Next()), pending := g.pending + 1)),
                    OWait(job.(exits := job.exits + [g.w.Done(job.Next())])))
  {
    hide World.Stop;
  }

  lemma RestartIs(g: Shared, n: Name, wait: bool)
    requires n in g.w.services && g.w.services[n] < |g.w.insts|
    ensures var i := g.w.services[n];
      var deps := if g.w.insts[i].config.policy.withDependents then RunningDependents(g.w, n) else [];
      if wait || deps != [] then DoRestart(g, n, wait, Unlock(g), OStop(Job([i] + deps, [])), [])
      else
        var g' := Unlock(g.(w := g.w.Stop(i), pending := g.pending + 1, senders := g.senders + 1));
        DoRestart(g, n, wait, g', Gone, [Send(g.w.Done(i))])
  {
    hide World.Stop, RunningDependents;
  }

  datatype ReloadError =
    | NotStarted
    | Unreadable
    | ManyEntrypoints
    | Unordered(error: Ordering.OrderError<string>)
    | Rejected(reason: ServiceError)
    | ShuttingDown

  // --------------------------------------------------------- validating a configuration

  ghost function Entrypoints(processes: seq<Process>): nat {
    if processes == [] then 0
    else Entrypoints(processes[..|processes| - 1]) + (if processes[|processes| - 1].useEntrypointArgs then 1 else 0)
  }

  /** `e` is a reason not to reload. */
  ghost predicate Blocks(parsers: Parsers, started: bool, newCfg: Option<Settings>, shuttingDown: bool,
                         e: ReloadError)
  {
    match e
    case NotStarted => !started
    case Unreadable => newCfg.None?
    case ManyEntrypoints => newCfg.Some? && Entrypoints(newCfg.value.processes) > 1
    case Unordered(o) => newCfg.Some? && Ordering.RaisedBy(OrderServices(newCfg.value.processes), o)
    case Rejected(f) => newCfg.Some? && exists k: nat :: FirstRejected(parsers, newCfg.value.processes, k, f)
    case ShuttingDown => shuttingDown
  }

  /** The configuration passes every check that comes before the lock. */
  ghost predicate Acceptable(parsers: Parsers, s: Settings) {
    && Entrypoints(s.processes) <= 1 && Orderable(s)
    && forall k :: 0 <= k < |s.processes| ==> Accepts(parsers, s.processes[k])
  }

  method CountEntrypoints(processes: seq<Process>) returns (count: nat)
    ensures count == Entrypoints(processes)
  {
    count := 0;
    for k := 0 to |processes|
      invariant count == Entrypoints(processes[..k])
    {
      assert processes[..k + 1][..k] == processes[..k];
      if processes[k].useEntrypointArgs {
        count := count + 1;
      }
    }
    assert processes[..|processes|] == processes;
  }

  /** `service.New` on every process, for its error alone. */
  method DryRun(parsers: Parsers, processes: seq<Process>) returns (error: Option<ServiceError>)
    ensures error.None? <==> forall k :: 0 <= k < |processes| ==> Accepts(parsers, processes[k])
    ensures error.Some? ==> exists k: nat :: FirstRejected(parsers, processes, k, error.value)
  {
    hide Accepts, Rejects;
    for k := 0 to |processes|
      invariant forall j :: 0 <= j < k ==> Accepts(parsers, processes[j])
    {
      var svc := NewService(parsers, processes[k]);
      if svc.Err? {
        assert FirstRejected(parsers, processes, k, svc.error);
        return Some(svc.error);
      }
    }
    return None;
  }

  lemma FirstRejectedIs(parsers: Parsers, processes: seq<Process>, k: nat, e: ServiceError)
    requires k < |processes| && Rejects(parsers, processes[k], e)
    requires forall j :: 0 <= j < k ==> Accepts(parsers, processes[j])
    ensures FirstRejected(parsers, processes, k, e)
  {
    hide Accepts, Rejects;
  }

  lemma SetupIs(s: Settings, entrypointArgs: seq<string>, c: Setup)
    requires c == SetupOf(s, entrypointArgs, c.order)
    ensures |c.procs| == |s.processes| && c.mode == s.shutdownOrder
    ensures forall k :: 0 <= k < |c.procs| ==> c.procs[k] == ConfigOf(Substituted(s, entrypointArgs, s.processes[k]))
  {
  }

  lemma NamesBuilt(s: Settings, entrypointArgs: seq<string>, c: Setup)
    requires c == SetupOf(s, entrypointArgs, c.order)
    ensures c.Names() == set j | 0 <= j < |s.processes| :: s.processes[j].EffectiveName()
  {
    hide GraphOf;
    var names := set j | 0 <= j < |s.processes| :: s.processes[j].EffectiveName();
    forall n ensures n in c.Names() <==> n in names {
      if n in c.Names() {
        var k :| 0 <= k < |c.procs| && c.procs[k].name == n;
        assert s.processes[k].EffectiveName() == n;
      }
      if n in names {
        var k :| 0 <= k < |s.processes| && s.processes[k].EffectiveName() == n;
        assert c.procs[k].name == n;
      }
    }
  }

  lemma SetupOrder(s: Settings, entrypointArgs: seq<string>, order: seq<Name>)
    ensures SetupOf(s, entrypointArgs, order).order == order
  {
  }

  lemma SubstitutedIs(s: Settings, entrypointArgs: seq<string>, p: Process)
    ensures Substituted(s, entrypointArgs, p) ==
      p.(args := if p.useEntrypointArgs && |entrypointArgs| > 0 then p.args + entrypointArgs else p.args,
         prefix := if p.prefix == "" then s.prefix else p.prefix)
  {
  }

  lemma WFacts(d: Daemon)
    ensures d.W() == World(d.insts, d.services, d.pidMap, d.kernel, d.shutdownSeq, d.graph, d.shutdownMode)
    ensures d.Ready() == NamesPoint(d.W())
  {
  }

  lemma ValidPoints(w: World)
    requires Valid(w)
    ensures NamesPoint(w)
  {
  }

  lemma ToStartUnfold(w: World, n: Name, rest: seq<Name>)
    requires NamesPoint(w)
    ensures ToStart(w, [n] + rest)
      == (if n in w.services && w.insts[w.services[n]].config.kind == Longrunning && !w.Runs(n)
          then [w.services[n]] else [])
         + ToStart(w, rest)
  {
    assert ([n] + rest)[1..] == rest;
  }

  /** Everything found so far requires `name`. */
  ghost predicate Sound(w: World, name: Name, closure: set<Name>) {
    forall x :: x in closure ==> NeedsGraph(w).Before(name, x)
  }

  /** Whatever requires a member of `done` has been found. */
  ghost predicate Saturated(w: World, name: Name, closure: set<Name>, done: set<Name>) {
    forall d, x :: d in done && NeedsGraph(w).Edge(d, x) && x != name ==> x in closure
  }

  lemma NeedsEdge(w: World, cur: Name, x: Name)
    requires NamesPoint(w)
    ensures NeedsGraph(w).Valid() && NeedsGraph(w).names == w.services.Keys
    ensures NeedsGraph(w).Edge(cur, x) <==>
      cur in w.services && x in w.services && cur in w.insts[w.services[x]].config.policy.needs
  {
  }

  lemma BeforeStep(g: Graph<Name>, name: Name, cur: Name, x: Name)
    requires g.Valid() && ((cur == name && name in g.names) || g.Before(name, cur))
    requires g.Edge(cur, x)
    ensures g.Before(name, x)
  {
    var p: seq<Name>;
    if cur == name {
      p := [name];
    } else {
      p :| g.PathBetween(p, name, cur) && |p| > 1;
    }
    var q := p + [x];
    assert g.PathBetween(q, name, x);
  }

  /** The instances that the names stand for. */
  ghost predicate Indices(w: World, names: seq<Name>, deps: seq<nat>) {
    |deps| == |names| && forall j :: 0 <= j < |names| ==> names[j] in w.services && deps[j] == w.services[names[j]]
  }

  lemma IndicesNone(w: World)
    ensures Indices(w, [], [])
  {
  }

  lemma IndicesMore(w: World, names: seq<Name>, deps: seq<nat>, n: Name)
    requires Indices(w, names, deps) && n in w.services
    ensures Indices(w, names + [n], deps + [w.services[n]])
  {
  }

  lemma IndicesAll(w: World, names: seq<Name>, deps: seq<nat>, name: Name)
    requires Indices(w, names, deps) && Dependents(w, w.order, name) == names + Dependents(w, [], name)
    ensures deps == RunningDependents(w, name)
  {
    hide NeedsGraph, Graph.Before;
    assert names + [] == names;
  }

  lemma RunsAt(w: World, n: Name)
    requires NamesPoint(w)
    ensures n in w.services ==> w.services[n] < |w.insts| && (w.Runs(n) <==> w.insts[w.services[n]].running)
    ensures w.Runs(n) ==> n in w.services
  {
  }

  lemma DependentsUnfold(w: World, n: Name, rest: seq<Name>, name: Name)
    ensures Dependents(w, [n] + rest, name)
      == (if NeedsGraph(w).Before(name, n) && n != name && w.Runs(n) then [n] else []) + Dependents(w, rest, name)
  {
    assert ([n] + rest)[1..] == rest;
  }

  /** A requirer of the entry just taken off the frontier is found by then. */
  lemma ClosureStep(w: World, name: Name, closure: set<Name>, frontier: seq<Name>, found: seq<Name>)
    requires NamesPoint(w) && name in w.services && frontier != [] && closure <= w.services.Keys && name !in closure
    requires Sound(w, name, closure) && Elems(frontier) <= closure + {name}
    requires Saturated(w, name, closure, closure + {name} - Elems(frontier))
    requires forall x :: x in found <==>
      x in w.services && x != name && x !in closure && frontier[0] in w.insts[w.services[x]].config.policy.needs
    ensures var closure' := closure + Elems(found); var frontier' := frontier[1..] + found;
      && closure' <= w.services.Keys && name !in closure' && Sound(w, name, closure')
      && Elems(frontier') <= closure' + {name}
      && Saturated(w, name, closure', closure' + {name} - Elems(frontier'))
      && (found != [] ==> w.services.Keys - closure' < w.services.Keys - closure)
  {
    hide NeedsGraph, Graph.Before, Graph.Edge;
    var cur := frontier[0];
    var closure' := closure + Elems(found);
    var frontier' := frontier[1..] + found;
    assert cur in Elems(frontier);
    forall x | x in closure' ensures NeedsGraph(w).Before(name, x) {
      if x in found {
        NeedsEdge(w, cur, x);
        BeforeStep(NeedsGraph(w), name, cur, x);
      }
    }
    assert frontier == [cur] + frontier[1..];
    assert Elems(frontier') == Elems(frontier[1..]) + Elems(found);
    assert Elems(frontier[1..]) <= Elems(frontier);
    forall d, x | d in closure' + {name} - Elems(frontier') && NeedsGraph(w).Edge(d, x) && x != name
      ensures x in closure'
    {
      NeedsEdge(w, d, x);
      if d == cur {
        assert x in closure || x in found;
      } else {
        assert d !in Elems(frontier);
      }
    }
    if found != [] {
      assert found[0] in w.services.Keys - closure && found[0] in closure';
    }
  }

  lemma {:induction false} SaturatedPath(w: World, name: Name, closure: set<Name>, p: seq<Name>, k: nat)
    requires Saturated(w, name, closure, closure + {name})
    requires NeedsGraph(w).IsPath(p) && p[0] == name && k < |p|
    ensures p[k] in closure + {name}
  {
    if k > 0 {
      SaturatedPath(w, name, closure, p, k - 1);
      assert NeedsGraph(w).Edge(p[k - 1], p[k]);
    }
  }

  lemma ClosureDone(w: World, name: Name, closure: set<Name>)
    requires name in w.services && name !in closure && Sound(w, name, closure)
    requires Saturated(w, name, closure, closure + {name})
    ensures forall x :: x in closure <==> x != name && NeedsGraph(w).Before(name, x)
  {
    forall x | x != name && NeedsGraph(w).Before(name, x) ensures x in closure {
      var p :| NeedsGraph(w).PathBetween(p, name, x) && |p| > 1;
      SaturatedPath(w, name, closure, p, |p| - 1);
    }
  }

  function Before(reqs: seq<Exit>, r: CheckResult): CheckResult {
    CheckResult(r.w, reqs + r.reqs, r.shut)
  }

  function CheckStep(w: World, i: nat, c: Check): CheckResult
    requires i < |w.insts|
  {
    var actions := w.insts[i].config.policy.onCheck;
    if c !in actions || actions[c] == Ignore then CheckResult(w, [], false)
    else if actions[c] == Restart then CheckResult(w.Stop(i), [w.Done(i)], false)
    else CheckResult(w, [], true)
  }

  lemma PointsIn(w: World, n: Name)
    requires NamesPoint(w) && n in w.services
    ensures w.services[n] < |w.insts|
  {
  }

  lemma NoMoreNames(w: World, names: seq<Name>, c: Check, reqs: seq<Exit>)
    ensures Before(reqs, CheckLoop(w, names[|names|..], c)) == CheckResult(w, reqs, false)
  {
  }

  lemma CheckUnfold(reqs: seq<Exit>, w: World, names: seq<Name>, k: nat, c: Check)
    requires NamesPoint(w) && k < |names| && names[k] in w.services
    ensures var one := CheckStep(w, w.services[names[k]], c);
      Before(reqs, CheckLoop(w, names[k..], c))
      == if one.shut then CheckResult(one.w, reqs + one.reqs, true)
         else Before(reqs + one.reqs, CheckLoop(one.w, names[k + 1..], c))
  {
    assert names[k..][1..] == names[k + 1..] && names[k..][0] == names[k];
    var one := CheckStep(w, w.services[names[k]], c);
    var rest := CheckLoop(one.w, names[k + 1..], c);
    assert reqs + (one.reqs + rest.reqs) == reqs + one.reqs + rest.reqs;
  }

  lemma CheckStepNames(w: World, i: nat, c: Check)
    requires NamesPoint(w) && i < |w.insts|
    ensures NamesPoint(CheckStep(w, i, c).w) && CheckStep(w, i, c).w.(insts := w.insts) == w
  {
  }
}
