/**
  The loops of `reload` (daemon.go) one turn at a time: what has been done once
  only the names in `left` remain, and that the last turn leaves the
  reconciliation.
 */
module ReloadLoops {
  import opened Graphs
  import opened World
  import opened Reload

  /** The first loop of `reload` has dealt with every name outside `left`. */
  ghost predicate Pruned(w: World, c: Setup, left: set<Name>, insts: seq<Inst>, services: map<Name, nat>) {
    && |insts| == |w.insts|
    && (forall i :: 0 <= i < |insts| ==> insts[i] == PrunedInst(w, c, left, i))
    && services == map n | n in w.services && (n in left || n in c.Names()) :: w.services[n]
  }

  ghost function PrunedInst(w: World, c: Setup, left: set<Name>, i: nat): Inst
    requires i < |w.insts|
  {
    var n := w.insts[i].config.name;
    if w.Current(i) && n !in left && n !in c.Names() then w.insts[i].Silenced().Stop() else w.insts[i]
  }

  lemma PrunedAt(w: World, c: Setup, left: set<Name>, insts: seq<Inst>, services: map<Name, nat>, n: Name)
    requires NamesPoint(w) && Pruned(w, c, left, insts, services) && n in left && left <= services.Keys
    ensures n in w.services && services[n] == w.services[n] && w.services[n] < |insts|
    ensures insts[w.services[n]] == w.insts[w.services[n]]
  {
  }

  lemma PruneStep(w: World, c: Setup, left: set<Name>, insts: seq<Inst>, services: map<Name, nat>, n: Name)
    requires NamesPoint(w) && Pruned(w, c, left, insts, services) && n in left && n in w.services
    ensures var i := w.services[n];
      if n in c.Names() then Pruned(w, c, left - {n}, insts, services)
      else Pruned(w, c, left - {n}, insts[i := w.insts[i].Silenced().Stop()], services - {n})
  {
    hide Setup.Names;
  }

  lemma PrunedSize(w: World, c: Setup, insts: seq<Inst>, services: map<Name, nat>)
    requires Pruned(w, c, {}, insts, services)
    ensures |insts| == |w.insts|
  {
    hide Setup.Names;
  }

  /** The loop over the old services has dealt with every name outside `left`. */
  ghost predicate Halfway(w: World, c: Setup, left: set<Name>, insts: seq<Inst>, services: map<Name, nat>) {
    && |insts| == |w.insts| + |c.procs|
    && (forall i :: 0 <= i < |w.insts| ==> insts[i] == HalfInst(w, c, left, i))
    && (forall k :: 0 <= k < |c.procs| ==> insts[|w.insts| + k] == NewInst(c.procs[k]))
    && services == map n | n in c.Names() :: HalfService(w, c, left, n)
  }

  ghost function HalfInst(w: World, c: Setup, left: set<Name>, i: nat): Inst
    requires i < |w.insts|
  {
    var n := w.insts[i].config.name;
    if w.Current(i) && (n !in left || !c.HasSlot(n)) then Adjusted(w, c, i) else w.insts[i]
  }

  ghost function HalfService(w: World, c: Setup, left: set<Name>, n: Name): nat {
    if n !in left && Keeps(w, c, n) then w.services[n] else |w.insts| + SlotOr(c, n)
  }

  lemma HalfwayStarts(w: World, c: Setup, pruned: seq<Inst>, kept: map<Name, nat>,
                      insts: seq<Inst>, services: map<Name, nat>)
    requires NamesPoint(w) && Pruned(w, c, {}, pruned, kept)
    requires insts == pruned + seq(|c.procs|, k requires 0 <= k < |c.procs| => NewInst(c.procs[k]))
    requires services == map n | n in c.Names() :: |pruned| + SlotOr(c, n)
    ensures Halfway(w, c, w.services.Keys, insts, services)
  {
    hide Setup.Names, PrunedInst, HalfInst, HalfService, NewInst;
    forall i | 0 <= i < |w.insts| ensures insts[i] == HalfInst(w, c, w.services.Keys, i) {
      HalfwayFirst(w, c, i);
    }
    forall n: Name ensures HalfService(w, c, w.services.Keys, n) == |w.insts| + SlotOr(c, n) {
      NewSlot(w, c, n);
    }
  }

  lemma HalfwayFirst(w: World, c: Setup, i: nat)
    requires NamesPoint(w) && i < |w.insts|
    ensures PrunedInst(w, c, {}, i) == HalfInst(w, c, w.services.Keys, i)
  {
    hide Setup.Names;
    HasSlotNames(c, w.insts[i].config.name);
  }

  lemma NewSlot(w: World, c: Setup, n: Name)
    ensures HalfService(w, c, w.services.Keys, n) == |w.insts| + SlotOr(c, n)
  {
  }

  lemma HalfwayAt(w: World, c: Setup, left: set<Name>, insts: seq<Inst>, services: map<Name, nat>, n: Name)
    requires NamesPoint(w) && Halfway(w, c, left, insts, services) && n in left && left <= w.services.Keys
    ensures w.services[n] < |insts| && (n in services <==> c.HasSlot(n))
    ensures c.HasSlot(n) ==> insts[w.services[n]] == w.insts[w.services[n]]
    ensures c.HasSlot(n) ==> services[n] < |insts| && insts[services[n]] == NewInst(c.procs[c.Slot(n)])
  {
    hide Setup.Names;
    HasSlotNames(c, n);
  }

  lemma HalfwayStep(w: World, c: Setup, left: set<Name>, insts: seq<Inst>, services: map<Name, nat>, n: Name)
    requires NamesPoint(w) && Halfway(w, c, left, insts, services) && n in left && left <= w.services.Keys
    ensures w.services[n] < |insts|
    ensures Halfway(w, c, left - {n},
              if c.HasSlot(n) then insts[w.services[n] := Adjusted(w, c, w.services[n])] else insts,
              if Keeps(w, c, n) then services[n := w.services[n]] else services)
  {
    KeepsHasSlot(w, c, n);
    hide Setup.Names, Adjusted, Keeps, Setup.HasSlot, SlotOr;
    HasSlotNames(c, n);
  }

  lemma KeepsHasSlot(w: World, c: Setup, n: Name)
    ensures Keeps(w, c, n) ==> c.HasSlot(n)
  {
  }

  /** The exits collected so far: those of the replaced services outside `left`. */
  ghost predicate Waited(w: World, c: Setup, left: set<Name>, waits: set<Exit>) {
    forall e :: e in waits <==> IsReplaced(w, c, e) && w.insts[e.inst].config.name !in left
  }

  lemma WaitedStarts(w: World, c: Setup)
    ensures Waited(w, c, w.services.Keys, {})
  {
  }

  lemma WaitedStep(w: World, c: Setup, left: set<Name>, waits: set<Exit>, n: Name)
    requires NamesPoint(w) && Waited(w, c, left, waits) && n in left && n in w.services
    ensures var i := w.services[n];
      Waited(w, c, left - {n},
        if w.insts[i].running && c.HasSlot(n) && !Keeps(w, c, n) then waits + {Exit(i, w.insts[i].gen)} else waits)
  {
    hide Keeps, Setup.HasSlot;
  }

  lemma WaitedEnds(w: World, c: Setup, waits: set<Exit>)
    requires Waited(w, c, {}, waits)
    ensures forall e :: e in waits <==> IsReplaced(w, c, e)
  {
  }

  /** The three cases of the loop body. */
  lemma AdjustedAt(w: World, c: Setup, n: Name)
    requires NamesPoint(w) && n in w.services
    ensures var i := w.services[n]; i < |w.insts|
    ensures c.HasSlot(n) ==>
      var inst, config := w.insts[w.services[n]], c.procs[c.Slot(n)];
      && NewInst(config).config == config
      && (Keeps(w, c, n) <==> inst.running && inst.config.image == config.image)
      && Adjusted(w, c, w.services[n]) ==
         if !inst.running then inst
         else if inst.config.image == config.image then inst.(config := inst.config.(policy := config.policy))
         else inst.(stopped := true,
                    config := inst.config.(policy := inst.config.policy.(onSuccess := Ignore, onFailure := Ignore)))
    ensures !c.HasSlot(n) ==> !Keeps(w, c, n)
  {
  }

  /** `buildServices` after `k` processes. */
  ghost predicate Built(c: Setup, base: seq<Inst>, k: nat, insts: seq<Inst>, services: map<Name, nat>) {
    && k <= |c.procs| && |insts| == |base| + k
    && base == insts[..|base|]
    && (forall j :: 0 <= j < k ==> insts[|base| + j] == NewInst(c.procs[j]))
    && (forall n :: n in services <==> exists j :: 0 <= j < k && c.procs[j].name == n)
    && (forall j :: 0 <= j < k ==> services[c.procs[j].name] == |base| + j)
  }

  lemma BuiltStarts(c: Setup, base: seq<Inst>)
    ensures Built(c, base, 0, base, map[])
  {
  }

  lemma BuiltStep(c: Setup, base: seq<Inst>, k: nat, insts: seq<Inst>, services: map<Name, nat>)
    requires c.Valid() && k < |c.procs| && Built(c, base, k, insts, services)
    ensures Built(c, base, k + 1, insts + [NewInst(c.procs[k])], services[c.procs[k].name := |insts|])
  {
    hide Respects, Graph.Edge;
  }

  lemma BuiltNames(c: Setup, base: seq<Inst>, insts: seq<Inst>, services: map<Name, nat>, n: Name)
    requires Built(c, base, |c.procs|, insts, services)
    ensures n in services <==> n in c.Names()
  {
  }

  lemma BuiltAt(c: Setup, base: seq<Inst>, insts: seq<Inst>, services: map<Name, nat>, n: Name)
    requires Built(c, base, |c.procs|, insts, services) && c.HasSlot(n)
    ensures n in services && services[n] == |base| + SlotOr(c, n)
  {
    assert c.procs[c.Slot(n)].name == n;
  }

  lemma BuiltEnds(c: Setup, base: seq<Inst>, insts: seq<Inst>, services: map<Name, nat>)
    requires Built(c, base, |c.procs|, insts, services)
    ensures insts == base + seq(|c.procs|, k requires 0 <= k < |c.procs| => NewInst(c.procs[k]))
    ensures services == map n | n in c.Names() :: |base| + SlotOr(c, n)
  {
    BuiltInsts(c, base, insts, services);
    hide *;
    forall n ensures n in services <==> n in c.Names() {
      BuiltNames(c, base, insts, services, n);
    }
    forall n | n in services ensures services[n] == |base| + SlotOr(c, n) {
      HasSlotNames(c, n);
      BuiltAt(c, base, insts, services, n);
    }
  }

  lemma BuiltInsts(c: Setup, base: seq<Inst>, insts: seq<Inst>, services: map<Name, nat>)
    requires Built(c, base, |c.procs|, insts, services)
    ensures insts == base + seq(|c.procs|, k requires 0 <= k < |c.procs| => NewInst(c.procs[k]))
  {
    assert insts == insts[..|base|] + insts[|base|..];
  }

  lemma HalfwayEnds(w: World, c: Setup, insts: seq<Inst>, services: map<Name, nat>)
    requires NamesPoint(w) && Halfway(w, c, {}, insts, services)
    ensures World(insts, services, w.pidMap, w.kernel, c.order, c.graph, c.mode) == Reconcile(w, c)
  {
    hide Setup.Names;
    var w' := Reconcile(w, c);
    assert |insts| == |w'.insts|;
    forall i | 0 <= i < |insts| ensures insts[i] == w'.insts[i] {
      if i >= |w.insts| {
        assert insts[|w.insts| + (i - |w.insts|)] == NewInst(c.procs[i - |w.insts|]);
      }
    }
    assert insts == w'.insts;
    assert services == w'.services;
  }
}
