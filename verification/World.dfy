/**
  What the supervisor's critical sections act on: the service instances with
  their run state (service/service.go), the maps of the daemon (daemon.go) and
  the children the kernel holds for it.

  Instances are numbered by creation: a reload that rebuilds a service gives it
  a new number, so "the same instance" is equality of numbers. The exit channel
  of an instance's n-th process is represented by the pair (instance, n).
 */
module World {
  import opened Wrappers
  import opened Graphs

  type Name = string

  type Check = string

  /** The fields of a process that take effect at fork and that nothing here looks into; `None` is an absent one. */
  datatype ForkFields = ForkFields(
    user: string,
    group: string,
    userId: Option<int>,
    groupId: Option<int>,
    umask: string,
    strictGroups: bool,
    workingDir: string,
    passEnv: Option<bool>,
    logCapture: Option<bool>,
    exportSocket: Option<bool>,
    environment: map<string, string>,
    removeEnv: seq<string>,
    dotEnv: string,
    dotEnvFollow: bool,
    readyCheck: string,
    readyTimeout: string,
    sdNotify: bool,
    sdNotifyTimeout: string,
    parentDeathSignal: string)

  /** The fields of a process that `processConfigChanged` compares. */
  datatype Image = Image(
    prefix: string,
    startup: string,
    command: string,
    args: seq<string>,
    stopSignal: string,
    killDelay: string,
    fork: ForkFields)

  datatype Action = Restart | Shutdown | SuccessShutdown | FailureShutdown | Ignore

  /** The fields reload may replace on a running instance. */
  datatype Policy = Policy(
    onSuccess: Action,
    onFailure: Action,
    onCheck: map<Check, Action>,
    needs: set<Name>,
    withDependents: bool)

  datatype Kind = Disabled | Oneshot | Scheduled | Longrunning

  /** `onceFailure` is the on-failure action a oneshot was built with, which reload leaves as it is. */
  datatype Config = Config(name: Name, image: Image, kind: Kind, policy: Policy, onceFailure: Action)

  /** An exit channel: the one made by the `gen`-th start of an instance. */
  datatype Exit = Exit(inst: nat, gen: nat)

  /** A service instance; `gen` counts its starts. */
  datatype Inst = Inst(config: Config, running: bool, pid: nat, gen: nat, stopped: bool) {

    /** `FinishStart`, once the fork has returned `pid`. */
    function FinishStart(pid: nat): Inst {
      this.(running := true, pid := pid, gen := gen + 1, stopped := false)
    }

    /** `Stop`: a no-op unless running; otherwise the exit will count as intended. */
    function Stop(): Inst {
      if running then this.(stopped := true) else this
    }

    /** `MarkExited`: the pid is gone and the exit channel closes. */
    function MarkExited(): Inst {
      this.(running := false, pid := 0)
    }

    /** Exits of this instance trigger nothing. */
    function Silenced(): Inst {
      this.(config := config.(policy := config.policy.(onSuccess := Ignore, onFailure := Ignore)))
    }

    predicate Silent() {
      config.policy.onSuccess == Ignore && config.policy.onFailure == Ignore
    }
  }

  function NewInst(c: Config): Inst {
    Inst(c, false, 0, 0, false)
  }

  /** `Claimed`: `Wait4` has returned its status, but the reap loop has yet to handle it. */
  datatype Life = Alive | Zombie | Claimed

  /** A child whose exit the daemon has not handled; orphans and probes have no owner. */
  datatype Child = Child(owner: Option<Exit>, life: Life)

  datatype Mode = ReverseDep | Dep | Simultaneous

  datatype World = World(
    insts: seq<Inst>,
    services: map<Name, nat>,
    pidMap: map<nat, nat>,
    kernel: map<nat, Child>,
    order: seq<Name>,
    graph: Graph<Name>,
    mode: Mode)
  {
    /** The instance that its name currently stands for. */
    predicate Current(i: nat)
      requires i < |insts|
    {
      insts[i].config.name in services && services[insts[i].config.name] == i
    }

    /** The exit channel is closed: that process is gone and was marked so. */
    predicate Closed(e: Exit) {
      e.inst < |insts| && (e.gen < insts[e.inst].gen || (e.gen == insts[e.inst].gen && !insts[e.inst].running))
    }

    /** The process is gone, or it has been told to stop. */
    predicate Asked(e: Exit) {
      Closed(e) || (e.inst < |insts| && e.gen == insts[e.inst].gen && insts[e.inst].stopped)
    }

    /** `Done`: the channel of the current process, or a closed one if there is none. */
    function Done(i: nat): (e: Exit)
      ensures i < |insts| ==> (!insts[i].running <==> Closed(e))
    {
      Exit(i, if i < |insts| then insts[i].gen else 0)
    }

    predicate Runs(n: Name) {
      n in services && services[n] < |insts| && insts[services[n]].running
    }

    function Stop(i: nat): World {
      if i < |insts| then this.(insts := insts[i := insts[i].Stop()]) else this
    }

    /** The instances that directly require `n`. */
    predicate Requires(i: nat, n: Name)
      requires i < |insts|
    {
      Current(i) && n in insts[i].config.policy.needs
    }
  }

  // --------------------------------------------------------------- invariants

  ghost predicate NamesPoint(w: World) {
    forall n :: n in w.services ==> w.services[n] < |w.insts| && w.insts[w.services[n]].config.name == n
  }

  /** `pidMap[p] = i` holds exactly when instance `i` runs with pid `p`. */
  ghost predicate PidsExact(w: World) {
    && (forall p :: p in w.pidMap ==>
          w.pidMap[p] < |w.insts| && w.insts[w.pidMap[p]].running && w.insts[w.pidMap[p]].pid == p)
    && (forall i :: 0 <= i < |w.insts| && w.insts[i].running ==>
          w.insts[i].pid in w.pidMap && w.pidMap[w.insts[i].pid] == i)
  }

  /** The unhandled children of service instances are exactly the processes in `pidMap`. */
  ghost predicate ChildrenMapped(w: World) {
    && (forall p :: p in w.pidMap ==> p in w.kernel && w.kernel[p].owner.Some?)
    && (forall p :: p in w.kernel && w.kernel[p].owner.Some? ==>
          && p in w.pidMap && w.pidMap[p] < |w.insts|
          && w.kernel[p].owner == Some(Exit(w.pidMap[p], w.insts[w.pidMap[p]].gen)))
  }

  /** An instance that runs although its name means another one, or none, was told to stop. */
  ghost predicate DetachedStopped(w: World) {
    forall i :: 0 <= i < |w.insts| && w.insts[i].running && !w.Current(i) ==>
      w.insts[i].stopped && w.insts[i].Silent()
  }

  /** The shutdown sequence is a start order of exactly the configured names. */
  ghost predicate Ordered(w: World) {
    Respects(w.graph, w.order) && w.services.Keys == w.graph.names
  }

  /** What a service requires is ordered before it. */
  ghost predicate NeedsOrdered(w: World) {
    forall n, m :: n in w.services && w.services[n] < |w.insts| && m in w.insts[w.services[n]].config.policy.needs ==>
      w.graph.Edge(m, n)
  }

  ghost predicate Valid(w: World) {
    NamesPoint(w) && PidsExact(w) && ChildrenMapped(w) && DetachedStopped(w) && Ordered(w) && NeedsOrdered(w)
  }

  /** No instance has two live processes, and no process belongs to two instances. */
  lemma OneProcessEach(w: World, p: nat, q: nat)
    requires Valid(w) && p in w.kernel && q in w.kernel
    requires w.kernel[p].owner.Some? && w.kernel[q].owner.Some?
    requires w.kernel[p].owner.value.inst == w.kernel[q].owner.value.inst
    ensures p == q
  {
    assert p in w.pidMap && q in w.pidMap;
    assert w.insts[w.pidMap[p]].pid == p;
  }

  // ---------------------------------------------------------- how worlds evolve

  /** What no step ever undoes. */
  ghost predicate Evolves(w: World, w': World) {
    && |w.insts| <= |w'.insts|
    && forall i :: 0 <= i < |w.insts| ==>
         && w'.insts[i].config.name == w.insts[i].config.name
         && w.insts[i].gen <= w'.insts[i].gen
         && (w.insts[i].gen == w'.insts[i].gen && w'.insts[i].running ==> w.insts[i].running)
         && (w.insts[i].gen == w'.insts[i].gen && w.insts[i].stopped ==> w'.insts[i].stopped)
         && (w'.Current(i) ==> w.Current(i))
  }

  /** A step that starts nothing and reconfigures nothing. */
  ghost predicate Shrinks(w: World, w': World) {
    && |w.insts| == |w'.insts|
    && w'.services == w.services && w'.order == w.order && w'.graph == w.graph && w'.mode == w.mode
    && forall i :: 0 <= i < |w.insts| ==>
         && w'.insts[i].config == w.insts[i].config
         && w.insts[i].gen == w'.insts[i].gen
         && (w'.insts[i].running ==> w.insts[i].running)
         && (w.insts[i].stopped ==> w'.insts[i].stopped)
  }

  lemma ShrinksEvolves(w: World, w': World)
    requires Shrinks(w, w')
    ensures Evolves(w, w')
  {
  }

  /** A closed exit channel stays closed. */
  lemma ClosedStays(w: World, w': World, e: Exit)
    requires Evolves(w, w') && w.Closed(e)
    ensures w'.Closed(e)
  {
  }

  // ----------------------------------------------------------------- stopping

  /** Stops only mark instances: what runs, and under which pid, is as before. */
  ghost predicate SameRuns(w: World, w': World) {
    && |w.insts| == |w'.insts| && w'.(insts := w.insts) == w
    && forall i :: 0 <= i < |w.insts| ==>
         w'.insts[i].(stopped := w.insts[i].stopped) == w.insts[i] && (w.insts[i].stopped ==> w'.insts[i].stopped)
  }

  lemma SameRunsKeeps(w: World, w': World)
    requires Valid(w) && SameRuns(w, w')
    ensures Valid(w') && Shrinks(w, w')
  {
    assert forall i :: 0 <= i < |w.insts| ==>
      && w'.insts[i].config == w.insts[i].config && w'.insts[i].gen == w.insts[i].gen
      && w'.insts[i].running == w.insts[i].running && w'.insts[i].pid == w.insts[i].pid;
    assert w'.services == w.services && w'.pidMap == w.pidMap && w'.kernel == w.kernel;
    assert forall i :: 0 <= i < |w.insts| ==> w'.Current(i) == w.Current(i);
  }

  lemma SameRunsTrans(w: World, w': World, w'': World)
    requires SameRuns(w, w') && SameRuns(w', w'')
    ensures SameRuns(w, w'')
  {
    assert w''.(insts := w'.insts) == w';
    forall i | 0 <= i < |w.insts|
      ensures w''.insts[i].(stopped := w.insts[i].stopped) == w.insts[i]
      ensures w.insts[i].stopped ==> w''.insts[i].stopped
    {
      assert w'.insts[i].(stopped := w.insts[i].stopped) == w.insts[i];
      assert w''.insts[i].(stopped := w'.insts[i].stopped) == w'.insts[i];
    }
  }

  lemma StopKeeps(w: World, i: nat)
    requires Valid(w)
    ensures Valid(w.Stop(i)) && Shrinks(w, w.Stop(i)) && SameRuns(w, w.Stop(i))
  {
    var w' := w.Stop(i);
    SameRunsKeeps(w, w');
  }

  /** Whoever waits for the process of an instance that it has stopped waits for one that was told to. */
  lemma StopAsks(w: World, i: nat)
    requires i < |w.insts|
    ensures w.Stop(i).Asked(w.Done(i))
  {
  }

  /** Stops every running service that directly requires `n`. */
  function StopRequirers(w: World, n: Name): World {
    w.(insts := seq(|w.insts|, i requires 0 <= i < |w.insts| =>
                      if w.Requires(i, n) then w.insts[i].Stop() else w.insts[i]))
  }

  lemma StopRequirersKeeps(w: World, n: Name)
    requires Valid(w)
    ensures Valid(StopRequirers(w, n)) && Shrinks(w, StopRequirers(w, n)) && SameRuns(w, StopRequirers(w, n))
  {
    SameRunsKeeps(w, StopRequirers(w, n));
  }

  /** Stops everything that is current. */
  function StopCurrent(w: World): World {
    w.(insts := seq(|w.insts|, i requires 0 <= i < |w.insts| =>
                      if w.Current(i) then w.insts[i].Stop() else w.insts[i]))
  }

  lemma StopCurrentKeeps(w: World)
    requires Valid(w)
    ensures Valid(StopCurrent(w)) && Shrinks(w, StopCurrent(w)) && SameRuns(w, StopCurrent(w))
  {
    SameRunsKeeps(w, StopCurrent(w));
  }

  // ----------------------------------------------------------- fork and reap

  /** The body of `startService` after its checks: fork, then record the pid. */
  function Fork(w: World, i: nat, p: nat): World
    requires i < |w.insts|
  {
    w.(insts := w.insts[i := w.insts[i].FinishStart(p)],
       pidMap := w.pidMap[p := i],
       kernel := w.kernel[p := Child(Some(Exit(i, w.insts[i].gen + 1)), Alive)])
  }

  /** A pid is not handed out again while the daemon still has to handle its exit. */
  predicate FreshPid(w: World, p: nat) {
    p > 0 && p !in w.kernel
  }

  lemma ForkKeeps(w: World, i: nat, p: nat)
    requires Valid(w) && i < |w.insts| && w.Current(i) && !w.insts[i].running && FreshPid(w, p)
    ensures Valid(Fork(w, i, p)) && Evolves(w, Fork(w, i, p))
  {
    hide NamesPoint, DetachedStopped, Ordered, NeedsOrdered, ChildrenMapped, PidsExact, Evolves;
    ForkPids(w, i, p);
    ForkRest(w, i, p);
  }

  lemma ForkPids(w: World, i: nat, p: nat)
    requires PidsExact(w) && ChildrenMapped(w) && i < |w.insts| && !w.insts[i].running && FreshPid(w, p)
    ensures PidsExact(Fork(w, i, p)) && ChildrenMapped(Fork(w, i, p))
  {
    var w' := Fork(w, i, p);
    assert p !in w.pidMap;
    assert forall q :: q in w.pidMap ==> w.pidMap[q] != i;
    assert forall j :: 0 <= j < |w.insts| && j != i ==> w'.insts[j] == w.insts[j];
  }

  lemma ForkRest(w: World, i: nat, p: nat)
    requires NamesPoint(w) && DetachedStopped(w) && Ordered(w) && NeedsOrdered(w)
    requires i < |w.insts| && w.Current(i) && !w.insts[i].running
    ensures var w' := Fork(w, i, p);
      NamesPoint(w') && DetachedStopped(w') && Ordered(w') && NeedsOrdered(w') && Evolves(w, w')
  {
    hide Respects, Graph.Edge;
    var w' := Fork(w, i, p);
    assert forall j :: 0 <= j < |w.insts| && j != i ==> w'.insts[j] == w.insts[j];
    assert forall j :: 0 <= j < |w.insts| ==> w'.insts[j].config == w.insts[j].config;
    assert forall j :: 0 <= j < |w.insts| ==> w'.Current(j) == w.Current(j);
  }

  /** The reap loop's section for a managed pid: forget it and mark the instance exited. */
  function Reap(w: World, p: nat): World
    requires p in w.pidMap && w.pidMap[p] < |w.insts|
  {
    w.(insts := w.insts[w.pidMap[p] := w.insts[w.pidMap[p]].MarkExited()],
       pidMap := w.pidMap - {p},
       kernel := w.kernel - {p})
  }

  lemma ReapKeeps(w: World, p: nat)
    requires Valid(w) && p in w.pidMap
    ensures Valid(Reap(w, p)) && Shrinks(w, Reap(w, p))
    ensures !Reap(w, p).insts[w.pidMap[p]].running
  {
    hide NamesPoint, DetachedStopped, Ordered, NeedsOrdered, ChildrenMapped, Shrinks;
    ReapPids(w, p);
    ReapRest(w, p);
  }

  lemma ReapPids(w: World, p: nat)
    requires PidsExact(w) && ChildrenMapped(w) && p in w.pidMap
    ensures PidsExact(Reap(w, p)) && ChildrenMapped(Reap(w, p))
  {
    var i := w.pidMap[p];
    var w' := Reap(w, p);
    assert forall j :: 0 <= j < |w.insts| && j != i ==> w'.insts[j] == w.insts[j];
    assert forall q :: q in w'.pidMap ==> q in w.pidMap && q != p && w'.pidMap[q] == w.pidMap[q];
    assert forall q :: q in w'.pidMap ==> w'.pidMap[q] != i;
  }

  lemma ReapRest(w: World, p: nat)
    requires NamesPoint(w) && DetachedStopped(w) && Ordered(w) && NeedsOrdered(w)
    requires p in w.pidMap && w.pidMap[p] < |w.insts|
    ensures var w' := Reap(w, p);
      NamesPoint(w') && DetachedStopped(w') && Ordered(w') && NeedsOrdered(w') && Shrinks(w, w')
  {
    hide Respects, Graph.Edge;
    var w' := Reap(w, p);
    assert forall j :: 0 <= j < |w.insts| && j != w.pidMap[p] ==> w'.insts[j] == w.insts[j];
    assert forall j :: 0 <= j < |w.insts| ==> w'.insts[j].config == w.insts[j].config;
    assert forall j :: 0 <= j < |w.insts| ==> w'.Current(j) == w.Current(j);
  }

  /** A change of the kernel's table that keeps the children of services. */
  lemma KernelOnly(w: World, k: map<nat, Child>)
    requires Valid(w)
    requires forall p :: p in w.kernel && w.kernel[p].owner.Some? ==> p in k && k[p].owner == w.kernel[p].owner
    requires forall p :: p in k && k[p].owner.Some? ==> p in w.kernel && k[p].owner == w.kernel[p].owner
    ensures Valid(w.(kernel := k)) && Shrinks(w, w.(kernel := k))
  {
    var w' := w.(kernel := k);
    assert forall i :: 0 <= i < |w.insts| ==> w'.Current(i) == w.Current(i);
    assert ChildrenMapped(w');
  }
}
