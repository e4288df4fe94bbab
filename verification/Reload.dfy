/**
  The reconciling section of `reload` (daemon.go): what a configuration that
  passed validation does to the instances, the maps and the shutdown sequence.
 */
module Reload {
  import opened Graphs
  import opened World

  /** A validated configuration together with the start order computed for it. */
  datatype Setup = Setup(procs: seq<Config>, order: seq<Name>, graph: Graph<Name>, mode: Mode) {

    ghost function Names(): set<Name> {
      set k | 0 <= k < |procs| :: procs[k].name
    }

    ghost predicate HasSlot(n: Name) {
      exists k :: 0 <= k < |procs| && procs[k].name == n
    }

    /** The position of a name in the list. */
    ghost function Slot(n: Name): (k: nat)
      requires HasSlot(n)
      ensures k < |procs| && procs[k].name == n
    {
      var k :| 0 <= k < |procs| && procs[k].name == n; k
    }

    /** What `TopoSort` and the duplicate check guarantee of it. */
    ghost predicate Valid() {
      && (forall j, k :: 0 <= j < k < |procs| ==> procs[j].name != procs[k].name)
      && Respects(graph, order) && graph.names == Names()
      && (forall k, m :: 0 <= k < |procs| && m in procs[k].policy.needs ==> graph.Edge(m, procs[k].name))
    }
  }

  /** The running instance behind `n` goes on under the new configuration. */
  ghost predicate Keeps(w: World, c: Setup, n: Name) {
    && c.HasSlot(n) && w.Runs(n)
    && w.insts[w.services[n]].config.image == c.procs[c.Slot(n)].image
  }

  /** What becomes of an existing instance. */
  ghost function Adjusted(w: World, c: Setup, i: nat): Inst
    requires i < |w.insts|
  {
    var inst := w.insts[i];
    var n := inst.config.name;
    if !w.Current(i) then inst
    else if Keeps(w, c, n) then inst.(config := inst.config.(policy := c.procs[c.Slot(n)].policy))
    else if !c.HasSlot(n) || inst.running then inst.Silenced().Stop()
    else inst
  }

  ghost function Reconcile(w: World, c: Setup): World {
    w.(insts := seq(|w.insts|, i requires 0 <= i < |w.insts| => Adjusted(w, c, i))
                + seq(|c.procs|, k requires 0 <= k < |c.procs| => NewInst(c.procs[k])),
       services := map n | n in c.Names() :: if Keeps(w, c, n) then w.services[n] else |w.insts| + SlotOr(c, n),
       order := c.order, graph := c.graph, mode := c.mode)
  }

  ghost function SlotOr(c: Setup, n: Name): nat {
    if c.HasSlot(n) then c.Slot(n) else 0
  }

  /** The exits reload waits for: running instances whose process configuration changed. */
  ghost predicate IsReplaced(w: World, c: Setup, e: Exit) {
    && e.inst < |w.insts| && w.Current(e.inst) && w.insts[e.inst].running && e.gen == w.insts[e.inst].gen
    && c.HasSlot(w.insts[e.inst].config.name) && !Keeps(w, c, w.insts[e.inst].config.name)
  }

  lemma AdjustedFacts(w: World, c: Setup, i: nat)
    requires i < |w.insts|
    ensures var w' := Reconcile(w, c);
      && i < |w'.insts| && w'.insts[i] == Adjusted(w, c, i)
      && w'.insts[i].config.name == w.insts[i].config.name && w'.insts[i].config.image == w.insts[i].config.image
      && w'.insts[i].running == w.insts[i].running && w'.insts[i].pid == w.insts[i].pid
      && w'.insts[i].gen == w.insts[i].gen && (w.insts[i].stopped ==> w'.insts[i].stopped)
  {
  }

  lemma FreshFacts(w: World, c: Setup, k: nat)
    requires k < |c.procs|
    ensures var w' := Reconcile(w, c);
      |w'.insts| == |w.insts| + |c.procs| && w'.insts[|w.insts| + k] == NewInst(c.procs[k])
  {
  }

  lemma HasSlotNames(c: Setup, n: Name)
    ensures n in c.Names() <==> c.HasSlot(n)
  {
  }

  /** Which instance a name means after the reload. */
  lemma ServiceAfter(w: World, c: Setup, n: Name)
    requires Valid(w)
    ensures var w' := Reconcile(w, c);
      && (n in w'.services <==> c.HasSlot(n))
      && (n in w'.services ==> w'.services[n] == if Keeps(w, c, n) then w.services[n] else |w.insts| + c.Slot(n))
      && (n in w'.services ==> w'.services[n] < |w'.insts| && w'.insts[w'.services[n]].config.name == n)
  {
    HasSlotNames(c, n);
    if c.HasSlot(n) {
      if Keeps(w, c, n) {
        AdjustedFacts(w, c, w.services[n]);
      } else {
        FreshFacts(w, c, c.Slot(n));
      }
    }
  }

  /** An old instance is current after the reload exactly when it was kept. */
  lemma CurrentAfter(w: World, c: Setup, i: nat)
    requires Valid(w) && i < |w.insts|
    ensures var w' := Reconcile(w, c);
      i < |w'.insts| && (w'.Current(i) <==> w.Current(i) && Keeps(w, c, w.insts[i].config.name))
  {
    AdjustedFacts(w, c, i);
    ServiceAfter(w, c, w.insts[i].config.name);
  }

  lemma ReconcilePids(w: World, c: Setup)
    requires Valid(w)
    ensures PidsExact(Reconcile(w, c)) && ChildrenMapped(Reconcile(w, c))
  {
    var w' := Reconcile(w, c);
    forall p | p in w'.pidMap
      ensures w'.pidMap[p] < |w'.insts| && w'.insts[w'.pidMap[p]].running && w'.insts[w'.pidMap[p]].pid == p
      ensures w'.insts[w'.pidMap[p]].gen == w.insts[w.pidMap[p]].gen
    {
      AdjustedFacts(w, c, w.pidMap[p]);
    }
    forall i | 0 <= i < |w'.insts| && w'.insts[i].running
      ensures w'.insts[i].pid in w'.pidMap && w'.pidMap[w'.insts[i].pid] == i
    {
      if i < |w.insts| {
        AdjustedFacts(w, c, i);
      } else {
        FreshFacts(w, c, i - |w.insts|);
      }
    }
    assert ChildrenMapped(w');
  }

  lemma ReconcileDetached(w: World, c: Setup)
    requires Valid(w)
    ensures DetachedStopped(Reconcile(w, c)) && NamesPoint(Reconcile(w, c))
  {
    var w' := Reconcile(w, c);
    forall i | 0 <= i < |w'.insts| && w'.insts[i].running && !w'.Current(i)
      ensures w'.insts[i].stopped && w'.insts[i].Silent()
    {
      if i < |w.insts| {
        AdjustedFacts(w, c, i);
        CurrentAfter(w, c, i);
      } else {
        FreshFacts(w, c, i - |w.insts|);
      }
    }
    forall n | n in w'.services
      ensures w'.services[n] < |w'.insts| && w'.insts[w'.services[n]].config.name == n
    {
      ServiceAfter(w, c, n);
    }
  }

  lemma ReconcileNeeds(w: World, c: Setup)
    requires Valid(w) && c.Valid()
    ensures NeedsOrdered(Reconcile(w, c)) && Ordered(Reconcile(w, c))
  {
    var w' := Reconcile(w, c);
    forall n ensures n in w'.services <==> n in c.Names() {
      HasSlotNames(c, n);
      ServiceAfter(w, c, n);
    }
    forall n, m | n in w'.services && w'.services[n] < |w'.insts| && m in w'.insts[w'.services[n]].config.policy.needs
      ensures w'.graph.Edge(m, n)
    {
      ReloadExact(w, c, n);
    }
  }

  /** Reload keeps every invariant and undoes nothing. */
  lemma ReconcileKeeps(w: World, c: Setup)
    requires Valid(w) && c.Valid()
    ensures Valid(Reconcile(w, c)) && Evolves(w, Reconcile(w, c))
  {
    var w' := Reconcile(w, c);
    ReconcilePids(w, c);
    ReconcileDetached(w, c);
    ReconcileNeeds(w, c);
    forall i | 0 <= i < |w.insts|
      ensures w'.insts[i].config.name == w.insts[i].config.name && w.insts[i].gen == w'.insts[i].gen
      ensures w'.insts[i].running == w.insts[i].running && (w'.Current(i) ==> w.Current(i))
    {
      AdjustedFacts(w, c, i);
      CurrentAfter(w, c, i);
    }
  }

  /**
    What a successful reload leaves: exactly the new names; each the same
    running instance and pid if it ran with an unchanged process configuration,
    and otherwise a new one that is not running.
   */
  lemma ReloadExact(w: World, c: Setup, n: Name)
    requires Valid(w) && c.Valid()
    ensures var w' := Reconcile(w, c);
      && w'.services.Keys == c.Names() && w'.pidMap == w.pidMap
      && (n in c.Names() ==>
            && w'.insts[w'.services[n]].config.policy == c.procs[c.Slot(n)].policy
            && (Keeps(w, c, n) <==> n in w.services && w'.services[n] == w.services[n])
            && (Keeps(w, c, n) <==> w'.Runs(n))
            && (Keeps(w, c, n) ==> w'.insts[w'.services[n]].pid == w.insts[w.services[n]].pid)
            && (!Keeps(w, c, n) ==> w'.insts[w'.services[n]] == NewInst(c.procs[c.Slot(n)])))
  {
    HasSlotNames(c, n);
    ServiceAfter(w, c, n);
    if n in c.Names() {
      if Keeps(w, c, n) {
        AdjustedFacts(w, c, w.services[n]);
      } else {
        FreshFacts(w, c, c.Slot(n));
      }
    }
  }

  /** Every process that reload leaves running but not current was sent its stop and will trigger nothing. */
  lemma ReloadSilences(w: World, c: Setup, i: nat)
    requires Valid(w) && c.Valid() && i < |w.insts| && w.insts[i].running
    ensures var w' := Reconcile(w, c); var policy := w'.insts[i].config.policy;
      && w'.insts[i].running
      && (!w'.Current(i) ==> w'.insts[i].stopped && policy.onSuccess == Ignore && policy.onFailure == Ignore)
  {
    ReconcileDetached(w, c);
    AdjustedFacts(w, c, i);
  }
}
