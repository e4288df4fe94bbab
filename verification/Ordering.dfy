/**
  Topological sorting of services (internal/order/order.go): `TopoSort` gives
  the start order, `TopoLayers` the startup layers. Both run Kahn's algorithm on
  the combined after/before/requires graph and reject the same inputs.
 */
module Ordering {
  import opened Wrappers
  import opened Graphs
  import opened Strings

  datatype OrderError<N> =
    | DuplicateName(name: N)
    | UnknownAfter(process: N, dep: N)
    | UnknownBefore(process: N, dep: N)
    | UnknownRequires(process: N, dep: N)
    | Cycle(names: seq<N>)

  // ---------------------------------------------------------------- rejection

  /** The first process whose name an earlier one already took. */
  ghost function DuplicateIn<N(!new)>(services: seq<Service<N>>): Option<OrderError<N>> {
    if services == [] then None else
      var n := |services| - 1;
      var earlier := DuplicateIn(services[..n]);
      if earlier.Some? then earlier
      else if services[n].name in NamesOf(services[..n]) then Some(DuplicateName(services[n].name))
      else None
  }

  ghost function FirstUnknown<N(!new)>(names: set<N>, refs: seq<N>): Option<N> {
    if refs == [] then None else
      var n := |refs| - 1;
      var earlier := FirstUnknown(names, refs[..n]);
      if earlier.Some? then earlier else if refs[n] !in names then Some(refs[n]) else None
  }

  /** Within a process, after is checked first, then before, then requires. */
  ghost function UnknownOf<N(!new)>(names: set<N>, s: Service<N>): Option<OrderError<N>> {
    var a := FirstUnknown(names, s.after);
    var b := FirstUnknown(names, s.before);
    var r := FirstUnknown(names, s.required);
    if a.Some? then Some(UnknownAfter(s.name, a.value))
    else if b.Some? then Some(UnknownBefore(s.name, b.value))
    else if r.Some? then Some(UnknownRequires(s.name, r.value))
    else None
  }

  ghost function UnknownIn<N(!new)>(names: set<N>, services: seq<Service<N>>): Option<OrderError<N>> {
    if services == [] then None else
      var n := |services| - 1;
      var earlier := UnknownIn(names, services[..n]);
      if earlier.Some? then earlier else UnknownOf(names, services[n])
  }

  /** The error raised before any sorting, if the input is malformed. */
  ghost function Malformed<N(!new)>(services: seq<Service<N>>): Option<OrderError<N>> {
    var d := DuplicateIn(services);
    if d.Some? then d else UnknownIn(Elems(NamesOf(services)), services)
  }

  ghost predicate WellFormed<N(!new)>(services: seq<Service<N>>) {
    && NoDup(NamesOf(services))
    && forall i :: 0 <= i < |services| ==> services[i].Refs() <= Elems(NamesOf(services))
  }

  lemma {:induction false} FirstUnknownNone<N(!new)>(names: set<N>, refs: seq<N>)
    ensures FirstUnknown(names, refs) == None <==> Elems(refs) <= names
    ensures FirstUnknown(names, refs).Some? ==>
      FirstUnknown(names, refs).value in refs && FirstUnknown(names, refs).value !in names
  {
    if refs != [] {
      var n := |refs| - 1;
      FirstUnknownNone(names, refs[..n]);
      assert refs == refs[..n] + [refs[n]];
      ElemsAppend(refs[..n], refs[n]);
    }
  }

  lemma {:induction false} DuplicateInNone<N(!new)>(services: seq<Service<N>>)
    ensures DuplicateIn(services) == None <==> NoDup(NamesOf(services))
  {
    if services != [] {
      var n := |services| - 1;
      DuplicateInNone(services[..n]);
      var all, some := NamesOf(services), NamesOf(services[..n]);
      assert all == some + [services[n].name];
      if !NoDup(some) {
        var i, j :| 0 <= i < j < |some| && some[i] == some[j];
        assert all[i] == all[j];
      } else if all[n] in some {
        var i :| 0 <= i < |some| && some[i] == all[n];
        assert all[i] == all[n];
      }
    }
  }

  lemma {:induction false} UnknownInNone<N(!new)>(names: set<N>, services: seq<Service<N>>)
    ensures UnknownIn(names, services) == None <==>
      forall i :: 0 <= i < |services| ==> services[i].Refs() <= names
  {
    if services != [] {
      var n := |services| - 1;
      UnknownInNone(names, services[..n]);
      FirstUnknownNone(names, services[n].after);
      FirstUnknownNone(names, services[n].before);
      FirstUnknownNone(names, services[n].required);
      assert forall i :: 0 <= i < n ==> services[i] == services[..n][i];
    }
  }

  lemma {:induction false} DuplicateKind<N(!new)>(services: seq<Service<N>>)
    ensures DuplicateIn(services).Some? ==> DuplicateIn(services).value.DuplicateName?
  {
    if services != [] {
      DuplicateKind(services[..|services| - 1]);
    }
  }

  lemma {:induction false} UnknownKind<N(!new)>(names: set<N>, services: seq<Service<N>>)
    ensures UnknownIn(names, services).Some? ==> !UnknownIn(names, services).value.Cycle?
  {
    if services != [] {
      UnknownKind(names, services[..|services| - 1]);
    }
  }

  lemma MalformedNone<N(!new)>(services: seq<Service<N>>)
    ensures Malformed(services) == None <==> WellFormed(services)
  {
    DuplicateInNone(services);
    UnknownInNone(Elems(NamesOf(services)), services);
  }

  lemma {:induction false} EdgesKnown<N(!new)>(services: seq<Service<N>>, all: set<N>)
    requires Elems(NamesOf(services)) <= all
    requires forall i :: 0 <= i < |services| ==> services[i].Refs() <= all
    ensures Graph(all, EdgesOf(services)).Valid()
  {
    if services != [] {
      var n := |services| - 1;
      assert forall i :: 0 <= i < n ==> services[..n][i] == services[i];
      assert forall i :: 0 <= i < n ==> NamesOf(services[..n])[i] == NamesOf(services)[i];
      EdgesKnown(services[..n], all);
      assert NamesOf(services)[n] == services[n].name;
      assert services[n].name in all;
      forall a, b | (a, b) in EdgesOf(services) ensures a in all && b in all {
        if (a, b) in EdgesOf(services[..n]) {
          assert Graph(all, EdgesOf(services[..n])).Edge(a, b);
        }
      }
    }
  }

  // --------------------------------------------------------- adjacency tables

  /** The adjacency list and in-degree table of the source. */
  datatype Adjacency<!N(==,!new)> = Adjacency(edges: map<N, seq<N>>, inDegree: map<N, int>) {

    function Succ(a: N): seq<N> {
      if a in edges then edges[a] else []
    }

    function Degree(x: N): int {
      if x in inDegree then inDegree[x] else 0
    }

    /** The edge list names each successor of `g` once. */
    ghost predicate Lists(g: Graph<N>) {
      && (forall a, b :: b in Succ(a) <==> g.Edge(a, b))
      && (forall a :: NoDup(Succ(a)))
    }

    /** The table counts the predecessors of `g`. */
    ghost predicate Counts(g: Graph<N>) {
      forall x :: Degree(x) == |g.Preds(x)|
    }

    /** Add `from -> to` unless it is already there. */
    function Insert(from: N, to: N): Adjacency<N> {
      Adjacency(edges[from := Succ(from) + [to]], inDegree[to := Degree(to) + 1])
    }
  }

  lemma InsertLists<N(!new)>(adj: Adjacency<N>, names: set<N>, seen: set<(N, N)>, from: N, to: N)
    requires adj.Lists(Graph(names, seen)) && (from, to) !in seen
    ensures adj.Insert(from, to).Lists(Graph(names, seen + {(from, to)}))
  {
    var g, g' := Graph(names, seen), Graph(names, seen + {(from, to)});
    var adj' := adj.Insert(from, to);
    assert !g.Edge(from, to);
    forall a, b ensures b in adj'.Succ(a) <==> g'.Edge(a, b) {
      assert b in adj.Succ(a) <==> g.Edge(a, b);
    }
    forall a ensures NoDup(adj'.Succ(a)) {
      assert NoDup(adj.Succ(a));
    }
  }

  lemma InsertCounts<N(!new)>(adj: Adjacency<N>, names: set<N>, seen: set<(N, N)>, from: N, to: N)
    requires adj.Counts(Graph(names, seen)) && (from, to) !in seen && from in names
    ensures adj.Insert(from, to).Counts(Graph(names, seen + {(from, to)}))
  {
    var g, g' := Graph(names, seen), Graph(names, seen + {(from, to)});
    forall x ensures adj.Insert(from, to).Degree(x) == |g'.Preds(x)| {
      if x == to {
        assert g'.Preds(x) == g.Preds(x) + {from};
      } else {
        assert g'.Preds(x) == g.Preds(x);
      }
    }
  }

  /** Adds an edge once; `seen` plays the part of `seenEdge`. */
  method AddEdge<N(==,!new)>(adj: Adjacency<N>, seen: set<(N, N)>, from: N, to: N, ghost names: set<N>)
    returns (adj': Adjacency<N>, seen': set<(N, N)>)
    requires adj.Lists(Graph(names, seen)) && adj.Counts(Graph(names, seen)) && from in names
    ensures seen' == seen + {(from, to)}
    ensures adj'.Lists(Graph(names, seen')) && adj'.Counts(Graph(names, seen'))
    ensures adj'.inDegree.Keys >= adj.inDegree.Keys
    ensures adj'.inDegree.Keys <= adj.inDegree.Keys + {to}
  {
    if (from, to) in seen {
      assert seen == seen + {(from, to)};
      return adj, seen;
    }
    InsertLists(adj, names, seen, from, to);
    InsertCounts(adj, names, seen, from, to);
    return adj.Insert(from, to), seen + {(from, to)};
  }

  /** Reads one reference list of a process, in order, up to the first unknown name. */
  method AddList<N(==,!new)>(adj: Adjacency<N>, seen: set<(N, N)>, names: set<N>, owner: N, refs: seq<N>,
                 incoming: bool)
    returns (unknown: Option<N>, adj': Adjacency<N>, seen': set<(N, N)>)
    requires adj.Lists(Graph(names, seen)) && adj.Counts(Graph(names, seen)) && owner in names
    requires adj.inDegree.Keys <= names
    ensures unknown == FirstUnknown(names, refs)
    ensures unknown == None ==>
      && adj'.Lists(Graph(names, seen')) && adj'.Counts(Graph(names, seen'))
      && adj.inDegree.Keys <= adj'.inDegree.Keys <= names
      && seen' == seen + (set r | r in refs :: if incoming then (r, owner) else (owner, r))
  {
    adj', seen' := adj, seen;
    for i := 0 to |refs|
      invariant FirstUnknown(names, refs[..i]) == None
      invariant adj'.Lists(Graph(names, seen')) && adj'.Counts(Graph(names, seen'))
      invariant adj.inDegree.Keys <= adj'.inDegree.Keys <= names
      invariant seen' == seen + (set r | r in refs[..i] :: if incoming then (r, owner) else (owner, r))
    {
      assert refs[..i + 1][..i] == refs[..i];
      if refs[i] !in names {
        UnknownStays(names, refs, i + 1);
        return Some(refs[i]), adj', seen';
      }
      ghost var before := seen';
      if incoming {
        adj', seen' := AddEdge(adj', seen', refs[i], owner, names);
      } else {
        adj', seen' := AddEdge(adj', seen', owner, refs[i], names);
      }
      assert refs[..i + 1] == refs[..i] + [refs[i]];
    }
    assert refs[..|refs|] == refs;
    unknown := None;
  }

  lemma {:induction false} UnknownStays<N(!new)>(names: set<N>, refs: seq<N>, n: nat)
    requires n <= |refs| && FirstUnknown(names, refs[..n]).Some?
    ensures FirstUnknown(names, refs) == FirstUnknown(names, refs[..n])
    decreases |refs| - n
  {
    if n < |refs| {
      assert refs[..n + 1][..n] == refs[..n];
      UnknownStays(names, refs, n + 1);
    } else {
      assert refs[..n] == refs;
    }
  }

  /** The table for a well-formed input: every name counted, every edge listed once. */
  ghost predicate TableFor<N(!new)>(adj: Adjacency<N>, g: Graph<N>) {
    adj.Lists(g) && adj.Counts(g) && adj.inDegree.Keys == g.names
  }

  lemma {:induction false} EarlierErrorStays<N(!new)>(names: set<N>, services: seq<Service<N>>, n: nat)
    requires n <= |services| && UnknownIn(names, services[..n]).Some?
    ensures UnknownIn(names, services) == UnknownIn(names, services[..n])
    decreases |services| - n
  {
    if n < |services| {
      assert services[..n + 1][..n] == services[..n];
      EarlierErrorStays(names, services, n + 1);
    } else {
      assert services[..n] == services;
    }
  }

  lemma {:induction false} EarlierDuplicateStays<N(!new)>(services: seq<Service<N>>, n: nat)
    requires n <= |services| && DuplicateIn(services[..n]).Some?
    ensures DuplicateIn(services) == DuplicateIn(services[..n])
    decreases |services| - n
  {
    if n < |services| {
      assert services[..n + 1][..n] == services[..n];
      EarlierDuplicateStays(services, n + 1);
    } else {
      assert services[..n] == services;
    }
  }

  method CollectNames<N(==,!new)>(services: seq<Service<N>>) returns (r: Result<set<N>, OrderError<N>>)
    ensures match r
      case Ok(names) => DuplicateIn(services) == None && names == Elems(NamesOf(services))
      case Err(e) => DuplicateIn(services) == Some(e)
  {
    var names: set<N> := {};
    for i := 0 to |services|
      invariant DuplicateIn(services[..i]) == None
      invariant names == Elems(NamesOf(services[..i]))
    {
      assert services[..i + 1][..i] == services[..i];
      assert NamesOf(services[..i + 1]) == NamesOf(services[..i]) + [services[i].name];
      if services[i].name in names {
        EarlierDuplicateStays(services, i + 1);
        return Err(DuplicateName(services[i].name));
      }
      names := names + {services[i].name};
      ElemsAppend(NamesOf(services[..i]), services[i].name);
    }
    assert services[..|services|] == services;
    return Ok(names);
  }

  /** One process's three lists; the first unknown reference ends the run. */
  method AddService<N(==,!new)>(adj: Adjacency<N>, seen: set<(N, N)>, names: set<N>, s: Service<N>)
    returns (unknown: Option<OrderError<N>>, adj': Adjacency<N>, seen': set<(N, N)>)
    requires adj.Lists(Graph(names, seen)) && adj.Counts(Graph(names, seen))
    requires adj.inDegree.Keys <= names && s.name in names
    ensures unknown == UnknownOf(names, s)
    ensures unknown == None ==>
      && adj'.Lists(Graph(names, seen')) && adj'.Counts(Graph(names, seen'))
      && adj.inDegree.Keys + {s.name} <= adj'.inDegree.Keys <= names
      && seen' == seen + s.Edges()
  {
    adj', seen' := adj, seen;
    if s.name !in adj'.inDegree {
      adj' := TouchName(adj', s.name, Graph(names, seen'));
    }
    var bad;
    bad, adj', seen' := AddList(adj', seen', names, s.name, s.after, true);
    if bad.Some? {
      return Some(UnknownAfter(s.name, bad.value)), adj', seen';
    }
    bad, adj', seen' := AddList(adj', seen', names, s.name, s.before, false);
    if bad.Some? {
      return Some(UnknownBefore(s.name, bad.value)), adj', seen';
    }
    bad, adj', seen' := AddList(adj', seen', names, s.name, s.required, true);
    if bad.Some? {
      return Some(UnknownRequires(s.name, bad.value)), adj', seen';
    }
    unknown := None;
  }

  method BuildEdges<N(==,!new)>(services: seq<Service<N>>, names: set<N>)
    returns (r: Result<Adjacency<N>, OrderError<N>>)
    requires names == Elems(NamesOf(services))
    ensures match r
      case Ok(adj) => UnknownIn(names, services) == None && TableFor(adj, GraphOf(services))
      case Err(e) => UnknownIn(names, services) == Some(e)
  {
    var adj := Adjacency(map[], map[]);
    var seen: set<(N, N)> := {};
    for i := 0 to |services|
      invariant UnknownIn(names, services[..i]) == None
      invariant adj.Lists(Graph(names, seen)) && adj.Counts(Graph(names, seen))
      invariant Elems(NamesOf(services[..i])) <= adj.inDegree.Keys <= names
      invariant seen == EdgesOf(services[..i])
    {
      ghost var done := services[..i + 1];
      assert done[..i] == services[..i] && done[i] == services[i];
      assert NamesOf(done) == NamesOf(services[..i]) + [services[i].name];
      ElemsAppend(NamesOf(services[..i]), services[i].name);
      assert NamesOf(services)[i] == services[i].name;
      var unknown;
      unknown, adj, seen := AddService(adj, seen, names, services[i]);
      if unknown.Some? {
        EarlierErrorStays(names, services, i + 1);
        return Err(unknown.value);
      }
    }
    assert services[..|services|] == services;
    return Ok(adj);
  }

  /** Gives a name its explicit zero, which changes no count. */
  method TouchName<N(==,!new)>(adj: Adjacency<N>, name: N, ghost g: Graph<N>) returns (adj': Adjacency<N>)
    requires adj.Lists(g) && adj.Counts(g) && name !in adj.inDegree
    ensures adj'.Lists(g) && adj'.Counts(g)
    ensures adj'.inDegree.Keys == adj.inDegree.Keys + {name}
  {
    adj' := Adjacency(adj.edges, adj.inDegree[name := 0]);
    assert forall a :: adj'.Succ(a) == adj.Succ(a);
    assert forall x :: adj'.Degree(x) == adj.Degree(x);
  }

  // -------------------------------------------------------------- Kahn's runs

  /** `drained` can be started in this order: each name comes after its predecessors. */
  ghost predicate Drainable<N(!new)>(g: Graph<N>, drained: seq<N>) {
    && NoDup(drained)
    && Elems(drained) <= g.names
    && forall i :: 0 <= i < |drained| ==> g.Preds(drained[i]) <= Elems(drained[..i])
  }

  /** How many predecessors of `x` still wait once `gone` has been drained. */
  ghost function Waiting<N(!new)>(g: Graph<N>, gone: set<N>, x: N): nat {
    |g.Preds(x) - gone|
  }

  /** The in-degree table after draining `gone`, with the edges into `part` of one more name taken off. */
  ghost predicate CountsAfter<N(!new)>(g: Graph<N>, inDegree: map<N, int>, gone: set<N>, part: set<N>) {
    && inDegree.Keys == g.names
    && forall x :: x in g.names ==> inDegree[x] == Waiting(g, gone, x) - (if x in part then 1 else 0)
  }

  /** Exactly the names with no waiting predecessor are queued. */
  ghost predicate HoldsReady<N(!new)>(inDegree: map<N, int>, queued: set<N>) {
    forall x :: x in inDegree ==> (inDegree[x] == 0 <==> x in queued)
  }

  /** Draining `node` takes it off the waiting set of each of its successors and of no other name. */
  lemma DrainOne<N(!new)>(g: Graph<N>, gone: set<N>, node: N, x: N)
    requires node in g.names && node !in gone
    ensures Waiting(g, gone + {node}, x) == Waiting(g, gone, x) - (if g.Edge(node, x) then 1 else 0)
  {
    if g.Edge(node, x) {
      assert node in g.Preds(x) - gone;
      assert g.Preds(x) - (gone + {node}) == g.Preds(x) - gone - {node};
    } else {
      assert g.Preds(x) - (gone + {node}) == g.Preds(x) - gone;
    }
  }

  lemma DrainNode<N(!new)>(g: Graph<N>, out: set<N>, inDegree: map<N, int>, gone: set<N>, node: N)
    requires node in g.names && node !in gone
    requires forall x :: x in out <==> g.Edge(node, x)
    requires CountsAfter(g, inDegree, gone, out)
    ensures CountsAfter(g, inDegree, gone + {node}, {})
  {
    forall x | x in g.names
      ensures inDegree[x] == Waiting(g, gone + {node}, x)
    {
      DrainOne(g, gone, node, x);
    }
  }

  /** A waiting predecessor that is the only one left is the one being drained. */
  lemma LastWaiting<N(!new)>(g: Graph<N>, gone: set<N>, node: N, x: N)
    requires g.Edge(node, x) && node in g.names && node !in gone
    ensures Waiting(g, gone, x) > 0
    ensures Waiting(g, gone, x) == 1 ==> g.Preds(x) <= gone + {node}
  {
    var w := g.Preds(x) - gone;
    assert node in w;
    assert |w - {node}| == |w| - 1;
  }

  lemma DecrementCounts<N(!new)>(g: Graph<N>, gone: set<N>, part: set<N>, inDegree: map<N, int>, x: N)
    requires x in g.names && x !in part && CountsAfter(g, inDegree, gone, part)
    ensures CountsAfter(g, inDegree[x := inDegree[x] - 1], gone, part + {x})
  {
  }

  lemma DecrementReady<N(!new)>(inDegree: map<N, int>, queued: set<N>, x: N)
    requires x in inDegree && inDegree[x] > 0 && HoldsReady(inDegree, queued)
    ensures x !in queued
    ensures HoldsReady(inDegree[x := inDegree[x] - 1], if inDegree[x] == 1 then queued + {x} else queued)
  {
  }

  lemma NoDupAppend<T>(s: seq<T>, x: T)
    requires NoDup(s) && x !in Elems(s)
    ensures NoDup(s + [x])
  {
  }

  /** One name of the current edge list, `x`, loses a waiting predecessor. */
  method Decrement<N(==,!new)>(ghost g: Graph<N>, ghost gone: set<N>, ghost node: N, ghost part: set<N>,
                               inDegree: map<N, int>, queue: seq<N>, x: N)
    returns (inDegree': map<N, int>, queue': seq<N>)
    requires x in g.names && x !in part && g.Edge(node, x) && node in g.names && node !in gone
    requires CountsAfter(g, inDegree, gone, part) && HoldsReady(inDegree, Elems(queue))
    requires NoDup(queue) && Elems(queue) <= g.names
    ensures CountsAfter(g, inDegree', gone, part + {x}) && HoldsReady(inDegree', Elems(queue'))
    ensures NoDup(queue') && Elems(queue') <= g.names
    ensures queue' == queue || (queue' == queue + [x] && g.Preds(x) <= gone + {node})
  {
    inDegree' := inDegree[x := inDegree[x] - 1];
    queue' := queue;
    LastWaiting(g, gone, node, x);
    DecrementCounts(g, gone, part, inDegree, x);
    DecrementReady(inDegree, Elems(queue), x);
    if inDegree'[x] == 0 {
      queue' := queue + [x];
      NoDupAppend(queue, x);
      ElemsAppend(queue, x);
    }
  }

  /** The queue grew from `base`, each time by a name whose predecessors are all in `gone`. */
  ghost predicate Extends<N(!new)>(g: Graph<N>, base: seq<N>, queue: seq<N>, gone: set<N>) {
    && NoDup(queue) && Elems(queue) <= g.names && base <= queue
    && forall i :: |base| <= i < |queue| ==> g.Preds(queue[i]) <= gone
  }

  /** `out` lists the successors of `node`, each once. */
  ghost predicate SuccessorsOf<N(!new)>(g: Graph<N>, node: N, out: seq<N>) {
    && NoDup(out) && Elems(out) <= g.names
    && forall x :: x in Elems(out) <==> g.Edge(node, x)
  }

  lemma SuccessorAt<N(!new)>(g: Graph<N>, node: N, out: seq<N>, k: nat)
    requires SuccessorsOf(g, node, out) && k < |out|
    ensures g.Edge(node, out[k]) && out[k] in g.names && out[k] !in Elems(out[..k])
    ensures Elems(out[..k + 1]) == Elems(out[..k]) + {out[k]}
  {
    assert out[k] in Elems(out);
    assert out[..k + 1] == out[..k] + [out[k]];
    ElemsAppend(out[..k], out[k]);
  }

  lemma ExtendsMore<N(!new)>(g: Graph<N>, base: seq<N>, queue: seq<N>, gone: set<N>, queue': seq<N>, x: N)
    requires Extends(g, base, queue, gone) && NoDup(queue') && Elems(queue') <= g.names
    requires queue' == queue || (queue' == queue + [x] && g.Preds(x) <= gone)
    ensures Extends(g, base, queue', gone)
  {
  }

  /** Takes the edges of `node`, the queue's head, off the table; names that become ready join the queue. */
  method Relax<N(==,!new)>(ghost g: Graph<N>, ghost gone: set<N>, node: N, out: seq<N>,
                           inDegree: map<N, int>, queue: seq<N>)
    returns (inDegree': map<N, int>, queue': seq<N>)
    requires node in g.names && node !in gone && SuccessorsOf(g, node, out)
    requires CountsAfter(g, inDegree, gone, {}) && HoldsReady(inDegree, Elems(queue))
    requires NoDup(queue) && Elems(queue) <= g.names
    ensures CountsAfter(g, inDegree', gone + {node}, {}) && HoldsReady(inDegree', Elems(queue'))
    ensures Extends(g, queue, queue', gone + {node})
  {
    inDegree', queue' := inDegree, queue;
    for k := 0 to |out|
      invariant CountsAfter(g, inDegree', gone, Elems(out[..k])) && HoldsReady(inDegree', Elems(queue'))
      invariant Extends(g, queue, queue', gone + {node})
    {
      SuccessorAt(g, node, out, k);
      ghost var before := queue';
      inDegree', queue' := Decrement(g, gone, node, Elems(out[..k]), inDegree', queue', out[k]);
      ExtendsMore(g, queue, before, gone + {node}, queue', out[k]);
    }
    assert out[..|out|] == out;
    DrainNode(g, Elems(out), inDegree', gone, node);
  }

  lemma DrainableExtends<N(!new)>(g: Graph<N>, queue: seq<N>, head: nat, queue': seq<N>)
    requires Drainable(g, queue) && head < |queue|
    requires Extends(g, queue, queue', Elems(queue[..head]) + {queue[head]})
    ensures Drainable(g, queue') && queue'[..head + 1] == queue[..head + 1]
    ensures Elems(queue'[..head + 1]) == Elems(queue[..head]) + {queue[head]}
  {
    assert queue[..head + 1] == queue[..head] + [queue[head]];
    ElemsAppend(queue[..head], queue[head]);
    forall i | 0 <= i < |queue'| ensures g.Preds(queue'[i]) <= Elems(queue'[..i]) {
      if i < |queue| {
        assert queue'[..i] == queue[..i] && queue'[i] == queue[i];
      } else {
        assert queue'[..i][..head + 1] == queue[..head + 1];
        assert Elems(queue'[..i][..head + 1]) <= Elems(queue'[..i]);
      }
    }
  }

  lemma TableSuccessors<N(!new)>(g: Graph<N>, adj: Adjacency<N>, node: N)
    requires TableFor(adj, g) && g.Valid()
    ensures SuccessorsOf(g, node, adj.Succ(node))
  {
    forall x ensures x in Elems(adj.Succ(node)) <==> g.Edge(node, x) {
      assert x in adj.Succ(node) <==> g.Edge(node, x);
    }
    forall x | x in Elems(adj.Succ(node)) ensures x in g.names {
      assert g.Edge(node, x);
    }
  }

  lemma InitialCounts<N(!new)>(g: Graph<N>, adj: Adjacency<N>)
    requires TableFor(adj, g)
    ensures CountsAfter(g, adj.inDegree, {}, {}) && adj.inDegree.Keys == g.names && Elems<N>([]) == {}
  {
    forall x | x in g.names ensures adj.inDegree[x] == Waiting(g, {}, x) {
      assert adj.Degree(x) == |g.Preds(x)|;
      assert g.Preds(x) - {} == g.Preds(x);
    }
  }

  /** The names of `names` that wait for nothing, each once. */
  ghost predicate ReadyAmong<N(!new)>(inDegree: map<N, int>, names: seq<N>, queue: seq<N>) {
    && NoDup(queue)
    && Elems(names) <= inDegree.Keys
    && Elems(queue) == set x | x in Elems(names) && inDegree[x] == 0
  }

  lemma ReadyNone<N(!new)>(inDegree: map<N, int>, names: seq<N>)
    ensures ReadyAmong(inDegree, names[..0], [])
  {
  }

  lemma ReadyAmongMore<N(!new)>(inDegree: map<N, int>, names: seq<N>, queue: seq<N>, x: N)
    requires ReadyAmong(inDegree, names, queue) && x in inDegree && x !in Elems(names)
    ensures ReadyAmong(inDegree, names + [x], if inDegree[x] == 0 then queue + [x] else queue)
  {
    ElemsAppend(names, x);
    if inDegree[x] == 0 {
      NoDupAppend(queue, x);
      ElemsAppend(queue, x);
    }
  }

  lemma ReadyDrainable<N(!new)>(g: Graph<N>, inDegree: map<N, int>, names: seq<N>, queue: seq<N>)
    requires ReadyAmong(inDegree, names, queue) && Elems(names) == g.names && CountsAfter(g, inDegree, {}, {})
    ensures Drainable(g, queue) && HoldsReady(inDegree, Elems(queue))
  {
    forall i | 0 <= i < |queue| ensures g.Preds(queue[i]) <= Elems(queue[..i]) {
      assert queue[i] in Elems(queue);
      assert Waiting(g, {}, queue[i]) == 0;
      assert g.Preds(queue[i]) - {} == g.Preds(queue[i]);
    }
  }

  lemma NameAt<N(!new)>(inDegree: map<N, int>, names: seq<N>, i: nat)
    requires NoDup(names) && Elems(names) == inDegree.Keys && i < |names|
    ensures names[i] in inDegree && names[i] !in Elems(names[..i]) && names[..i + 1] == names[..i] + [names[i]]
  {
    assert names[i] in Elems(names);
  }

  /** The names that wait for nothing, in the order the services were given. */
  method InitialQueue<N(==,!new)>(names: seq<N>, inDegree: map<N, int>, ghost g: Graph<N>) returns (queue: seq<N>)
    requires NoDup(names) && Elems(names) == inDegree.Keys == g.names && CountsAfter(g, inDegree, {}, {})
    ensures Drainable(g, queue) && HoldsReady(inDegree, Elems(queue))
  {
    hide *;
    queue := [];
    ReadyNone(inDegree, names);
    for i := 0 to |names|
      invariant ReadyAmong(inDegree, names[..i], queue)
    {
      NameAt(inDegree, names, i);
      ReadyAmongMore(inDegree, names[..i], queue, names[i]);
      if inDegree[names[i]] == 0 {
        queue := queue + [names[i]];
      }
    }
    assert names[..|names|] == names;
    ReadyDrainable(g, inDegree, names, queue);
  }

  /** Kahn's queue run: drains all it can and leaves the counts of the rest. */
  method DrainQueue<N(==,!new)>(names: seq<N>, adj: Adjacency<N>, ghost g: Graph<N>)
    returns (result: seq<N>, inDegree: map<N, int>)
    requires NoDup(names) && Elems(names) == g.names && g.Valid() && TableFor(adj, g)
    ensures Drainable(g, result)
    ensures CountsAfter(g, inDegree, Elems(result), {}) && HoldsReady(inDegree, Elems(result))
  {
    hide *;
    InitialCounts(g, adj);
    inDegree := adj.inDegree;
    var queue := InitialQueue(names, inDegree, g);
    result := [];
    var head := 0;
    assert queue[..head] == [];
    while head < |queue|
      invariant 0 <= head <= |queue| && result == queue[..head]
      invariant Drainable(g, queue)
      invariant CountsAfter(g, inDegree, Elems(queue[..head]), {}) && HoldsReady(inDegree, Elems(queue))
      decreases |g.names| - head
    {
      var node := queue[head];
      result := result + [node];
      TableSuccessors(g, adj, node);
      HeadFresh(g, queue, head);
      ghost var before := queue;
      inDegree, queue := Relax(g, Elems(queue[..head]), node, adj.Succ(node), inDegree, queue);
      DrainableExtends(g, before, head, queue);
      head := head + 1;
    }
    assert queue[..|queue|] == queue;
  }

  lemma HeadFresh<N(!new)>(g: Graph<N>, queue: seq<N>, head: nat)
    requires Drainable(g, queue) && head < |queue|
    ensures queue[head] in g.names && queue[head] !in Elems(queue[..head])
    ensures NoDup(queue) && Elems(queue) <= g.names && head < |g.names|
  {
    assert queue[head] in Elems(queue);
    NoDupCard(queue);
    CardLe(Elems(queue), g.names);
  }

  lemma BlockedLeft<N(!new)>(g: Graph<N>, drained: seq<N>)
    requires Drainable(g, drained)
    requires forall x {:trigger g.Preds(x)} ::
      x in g.names && x !in Elems(drained) ==> g.Preds(x) - Elems(drained) != {}
    ensures forall x :: x in g.names ==> (x !in Elems(drained) <==> g.Blocked(x))
  {
    forall i, a | 0 <= i < |drained| && g.Edge(a, drained[i]) && a in g.names ensures a in drained[..i] {
      assert a in g.Preds(drained[i]);
    }
    LeftoverIsBlocked(g, drained);
  }

  /** What a Kahn run leaves behind is exactly what is blocked by a cycle. */
  lemma LeftoverNames<N(!new)>(g: Graph<N>, result: seq<N>, inDegree: map<N, int>)
    requires g.Valid() && Drainable(g, result)
    requires CountsAfter(g, inDegree, Elems(result), {}) && HoldsReady(inDegree, Elems(result))
    ensures forall x :: x in g.names ==> (inDegree[x] > 0 <==> g.Blocked(x))
    ensures forall x :: x in g.names ==> (x !in Elems(result) <==> g.Blocked(x))
  {
    forall x | x in g.names && x !in Elems(result) ensures g.Preds(x) - Elems(result) != {} {
      assert Waiting(g, Elems(result), x) != 0;
    }
    BlockedLeft(g, result);
  }

  lemma DrainedAll<N(!new)>(g: Graph<N>, result: seq<N>)
    requires g.Valid() && Drainable(g, result) && |result| == |g.names|
    ensures Respects(g, result)
  {
    NoDupCard(result);
    SameCard(Elems(result), g.names);
    forall i, j | 0 <= i < |result| && 0 <= j < |result| && g.Edge(result[i], result[j]) ensures i < j {
      assert result[i] in g.Preds(result[j]);
      assert result[i] in Elems(result[..j]);
    }
  }

  lemma SameCard<T>(a: set<T>, b: set<T>)
    requires a <= b && |a| == |b|
    ensures a == b
  {
    assert |b - a| == |b| - |a|;
  }

  lemma StuckHasCycle<N(!new)>(g: Graph<N>, result: seq<N>)
    requires Drainable(g, result) && |result| != |g.names|
    requires forall x :: x in g.names ==> (x !in Elems(result) <==> g.Blocked(x))
    ensures !g.Acyclic()
  {
    NoDupCard(result);
    assert g.names <= Elems(result) ==> Elems(result) == g.names;
    var x: N :| x in g.names && x !in Elems(result);
    assert g.Blocked(x);
  }

  // ------------------------------------------------------- the two algorithms

  /** The names a cycle report lists: everything on a cycle or behind one, in order. */
  ghost predicate ReportsBlocked(g: Graph<string>, names: seq<string>) {
    Increasing(names) && forall x :: x in names <==> x in g.names && g.Blocked(x)
  }

  /** The error, if any, that both algorithms must raise. */
  ghost predicate RaisedBy(services: seq<Service<string>>, e: OrderError<string>) {
    match e
    case Cycle(names) =>
      WellFormed(services) && !GraphOf(services).Acyclic() && ReportsBlocked(GraphOf(services), names)
    case _ => Malformed(services) == Some(e)
  }

  /** An input raises at most one error. */
  lemma RaisedOnce(services: seq<Service<string>>, e: OrderError<string>, e': OrderError<string>)
    requires RaisedBy(services, e) && RaisedBy(services, e')
    ensures e == e'
  {
    MalformedNone(services);
    if e.Cycle? {
      IncreasingUnique(e.names, e'.names);
    }
  }

  method Leftover(names: set<string>, inDegree: map<string, int>, ghost g: Graph<string>) returns (r: seq<string>)
    requires names == g.names == inDegree.Keys
    requires forall x :: x in names ==> (inDegree[x] > 0 <==> g.Blocked(x))
    ensures ReportsBlocked(g, r)
  {
    r := SortSet(set x | x in names && inDegree[x] > 0);
  }

  method TopoSort(services: seq<Service<string>>) returns (r: Result<seq<string>, OrderError<string>>)
    ensures r.Ok? ==> WellFormed(services) && Respects(GraphOf(services), r.value)
    ensures r.Err? ==> RaisedBy(services, r.error)
  {
    DuplicateKind(services);
    UnknownKind(Elems(NamesOf(services)), services);
    var collected := CollectNames(services);
    if collected.Err? {
      return Err(collected.error);
    }
    var names := collected.value;
    var built := BuildEdges(services, names);
    if built.Err? {
      return Err(built.error);
    }
    ghost var g := GraphOf(services);
    MalformedNone(services);
    EdgesKnown(services, g.names);
    var result, inDegree := DrainQueue(ServiceNames(services), built.value, g);
    LeftoverNames(g, result, inDegree);
    if |result| != |names| {
      StuckHasCycle(g, result);
      var cycled := Leftover(names, inDegree, g);
      return Err(Cycle(cycled));
    }
    DrainedAll(g, result);
    return Ok(result);
  }

  function ServiceNames(services: seq<Service<string>>): (r: seq<string>)
    ensures r == NamesOf(services)
  {
    seq(|services|, i requires 0 <= i < |services| => services[i].name)
  }

  // ------------------------------------------------------- what the lists ask for

  /** `a` comes before `b`. */
  ghost predicate Precedes(order: seq<string>, a: string, b: string) {
    exists i, j :: 0 <= i < j < |order| && order[i] == a && order[j] == b
  }

  /** Some service lists `a` under after or requires for `b`, or `b` under before for `a`. */
  ghost predicate Asks(services: seq<Service<string>>, a: string, b: string) {
    exists k :: 0 <= k < |services| && AsksAt(services[k], a, b)
  }

  predicate AsksAt(s: Service<string>, a: string, b: string) {
    || (s.name == b && (a in s.after || a in s.required))
    || (s.name == a && b in s.before)
  }

  lemma {:induction false} EdgesAsk(services: seq<Service<string>>, a: string, b: string)
    ensures (a, b) in EdgesOf(services) <==> Asks(services, a, b)
    decreases |services|
  {
    if services != [] {
      var n := |services| - 1;
      EdgesAsk(services[..n], a, b);
      assert (a, b) in services[n].Edges() <==> AsksAt(services[n], a, b);
      forall k | 0 <= k < n ensures services[..n][k] == services[k] {
      }
      if Asks(services, a, b) {
        var k :| 0 <= k < |services| && AsksAt(services[k], a, b);
        if k < n {
          assert AsksAt(services[..n][k], a, b);
        }
      }
    }
  }

  /**
    A start order holds every name once and gives every list what it asks for: what
    a service lists under after or requires comes before it, what it lists under
    before comes after it. Such orders, and no others, respect the graph.
   */
  lemma SortedLists(services: seq<Service<string>>, order: seq<string>)
    requires WellFormed(services)
    ensures Respects(GraphOf(services), order) <==>
      && NoDup(order) && Elems(order) == Elems(NamesOf(services))
      && forall a, b :: Asks(services, a, b) ==> Precedes(order, a, b)
  {
    hide EdgesOf, NoDup, WellFormed, NamesOf;
    var g := GraphOf(services);
    forall a, b ensures g.Edge(a, b) <==> Asks(services, a, b) {
      EdgesAsk(services, a, b);
    }
    hide Asks;
    if Respects(g, order) {
      forall a, b | Asks(services, a, b) ensures Precedes(order, a, b) {
        AskedNames(services, a, b);
        assert a in Elems(order) && b in Elems(order);
        var i :| 0 <= i < |order| && order[i] == a;
        var j :| 0 <= j < |order| && order[j] == b;
        assert g.Edge(order[i], order[j]);
      }
    }
    if NoDup(order) && forall a, b :: Asks(services, a, b) ==> Precedes(order, a, b) {
      forall i, j | 0 <= i < |order| && 0 <= j < |order| && g.Edge(order[i], order[j]) ensures i < j {
        assert Precedes(order, order[i], order[j]);
        PrecedesAt(order, i, j);
      }
    }
  }

  lemma PrecedesAt(order: seq<string>, i: nat, j: nat)
    requires NoDup(order) && i < |order| && j < |order| && Precedes(order, order[i], order[j])
    ensures i < j
  {
  }

  lemma AskedNames(services: seq<Service<string>>, a: string, b: string)
    requires WellFormed(services) && Asks(services, a, b)
    ensures a in Elems(NamesOf(services)) && b in Elems(NamesOf(services))
  {
    var k :| 0 <= k < |services| && AsksAt(services[k], a, b);
    assert NamesOf(services)[k] == services[k].name;
    assert services[k].Refs() <= Elems(NamesOf(services));
    assert a in services[k].Refs() || b in services[k].Refs();
  }

  /** In layers, what a list asks for is in an earlier one. */
  lemma LayeredLists(services: seq<Service<string>>, layers: seq<seq<string>>, i: nat, j: nat, a: string, b: string)
    requires IsLayering(GraphOf(services), layers) && i < |layers| && j < |layers|
    requires a in layers[i] && b in layers[j] && Asks(services, a, b)
    ensures i < j
  {
    hide IsLayering, EdgesOf;
    EdgesAsk(services, a, b);
    LayersForward(GraphOf(services), layers, i, j, a, b);
  }

  /**
    The start order exists exactly for well-formed acyclic configurations, so
    a rejection is never spurious.
   */
  lemma SortsExactlyAcyclic(services: seq<Service<string>>, r: Result<seq<string>, OrderError<string>>)
    requires r.Ok? ==> WellFormed(services) && Respects(GraphOf(services), r.value)
    requires r.Err? ==> RaisedBy(services, r.error)
    ensures r.Ok? <==> WellFormed(services) && GraphOf(services).Acyclic()
  {
    MalformedNone(services);
    if r.Ok? {
      RespectsAcyclic(GraphOf(services), r.value);
    }
  }

  // -------------------------------------------------------------------- layers

  /** All names in `layers`, in order. */
  ghost function Flat(layers: seq<seq<string>>): set<string> {
    if layers == [] then {} else Flat(layers[..|layers| - 1]) + Elems(layers[|layers| - 1])
  }

  /** Some chain of `n` edges leads to `x`, and no longer one does. */
  ghost predicate LongestChain(g: Graph<string>, x: string, n: nat) {
    HasChain(g, x, n) && ChainsWithin(g, x, n)
  }

  /** Layer `i` holds, sorted, exactly the names whose longest incoming chain has `i` edges. */
  ghost predicate IsLayering(g: Graph<string>, layers: seq<seq<string>>) {
    && (forall i :: 0 <= i < |layers| ==> layers[i] != [] && Increasing(layers[i]))
    && (forall i, x :: 0 <= i < |layers| ==>
          (x in layers[i] <==> x in g.names && LongestChain(g, x, i)))
    && Flat(layers) == g.names
  }

  /**
    The in-degree table of the layer run: drained names carry -1, the others
    count their waiting predecessors, less the edges into `part` just taken off.
   */
  ghost predicate LayerTable<N(!new)>(g: Graph<N>, inDegree: map<N, int>, dead: set<N>, gone: set<N>, part: set<N>) {
    && inDegree.Keys == g.names
    && forall x :: x in g.names ==>
         inDegree[x] == if x in dead then -1 else Waiting(g, gone, x) - (if x in part then 1 else 0)
  }

  lemma LayerDecrement<N(!new)>(g: Graph<N>, inDegree: map<N, int>, dead: set<N>, gone: set<N>, part: set<N>, x: N)
    requires LayerTable(g, inDegree, dead, gone, part) && x in g.names && x !in dead && x !in part
    ensures LayerTable(g, inDegree[x := inDegree[x] - 1], dead, gone, part + {x})
  {
  }

  lemma LayerNodeDone<N(!new)>(g: Graph<N>, inDegree: map<N, int>, gone: set<N>, node: N, out: set<N>)
    requires node in g.names && node !in gone
    requires forall x :: x in out <==> g.Edge(node, x)
    requires LayerTable(g, inDegree, gone + {node}, gone, out)
    ensures LayerTable(g, inDegree, gone + {node}, gone + {node}, {})
  {
    forall x | x in g.names && x !in gone + {node}
      ensures inDegree[x] == Waiting(g, gone + {node}, x)
    {
      DrainOne(g, gone, node, x);
    }
  }

  /** Marks `node` drained and takes its edges off the table. */
  method DrainInLayer<N(==,!new)>(ghost g: Graph<N>, ghost gone: set<N>, node: N, out: seq<N>, inDegree: map<N, int>)
    returns (inDegree': map<N, int>)
    requires node in g.names && node !in gone && SuccessorsOf(g, node, out)
    requires Elems(out) !! gone + {node}
    requires LayerTable(g, inDegree, gone, gone, {})
    ensures LayerTable(g, inDegree', gone + {node}, gone + {node}, {})
  {
    inDegree' := inDegree[node := -1];
    assert LayerTable(g, inDegree', gone + {node}, gone, Elems(out[..0]));
    hide LayerTable, Waiting, Graph.Preds;
    for k := 0 to |out|
      invariant LayerTable(g, inDegree', gone + {node}, gone, Elems(out[..k]))
      invariant inDegree'.Keys == g.names
    {
      SuccessorAt(g, node, out, k);
      assert out[k] in Elems(out);
      LayerDecrement(g, inDegree', gone + {node}, gone, Elems(out[..k]), out[k]);
      inDegree' := inDegree'[out[k] := inDegree'[out[k]] - 1];
    }
    assert out[..|out|] == out;
    LayerNodeDone(g, inDegree', gone, node, Elems(out));
  }

  /** Nothing drained waits for anything that is not. */
  ghost predicate Closed<N(!new)>(g: Graph<N>, gone: set<N>) {
    gone <= g.names && forall x :: x in gone ==> g.Preds(x) <= gone
  }

  /** The layer to drain next: what waits for nothing outside `gone`. */
  ghost predicate IsReadyLayer<N(!new)>(g: Graph<N>, gone: set<N>, layer: set<N>) {
    forall x :: x in layer <==> x in g.names && x !in gone && g.Preds(x) <= gone
  }

  /** The successors of a ready name are neither drained nor in its own layer. */
  lemma SuccessorsFresh<N(!new)>(g: Graph<N>, gone: set<N>, layer: set<N>, node: N, out: seq<N>, taken: set<N>)
    requires Closed(g, gone) && IsReadyLayer(g, gone, layer) && node in layer && SuccessorsOf(g, node, out)
    requires taken <= layer
    ensures Elems(out) !! gone + taken + {node}
  {
    forall x | x in Elems(out) ensures x !in gone && x !in layer {
      assert g.Edge(node, x);
      assert node in g.Preds(x);
    }
  }

  lemma LayerAt<N(!new)>(g: Graph<N>, gone: set<N>, layer: seq<N>, i: nat)
    requires NoDup(layer) && IsReadyLayer(g, gone, Elems(layer)) && i < |layer|
    ensures layer[i] in Elems(layer) && layer[i] in g.names && layer[i] !in gone + Elems(layer[..i])
    ensures gone + Elems(layer[..i + 1]) == gone + Elems(layer[..i]) + {layer[i]}
    ensures Elems(layer[..i]) <= Elems(layer)
  {
    assert layer[i] in Elems(layer);
    assert layer[..i + 1] == layer[..i] + [layer[i]];
    ElemsAppend(layer[..i], layer[i]);
  }

  /** Drains one whole layer. */
  method DrainLayer<N(==,!new)>(ghost g: Graph<N>, ghost gone: set<N>, adj: Adjacency<N>, layer: seq<N>,
                                inDegree: map<N, int>)
    returns (inDegree': map<N, int>)
    requires g.Valid() && TableFor(adj, g) && NoDup(layer)
    requires Closed(g, gone) && IsReadyLayer(g, gone, Elems(layer))
    requires LayerTable(g, inDegree, gone, gone, {})
    ensures LayerTable(g, inDegree', gone + Elems(layer), gone + Elems(layer), {})
  {
    inDegree' := inDegree;
    assert gone + Elems(layer[..0]) == gone;
    hide *;
    for i := 0 to |layer|
      invariant LayerTable(g, inDegree', gone + Elems(layer[..i]), gone + Elems(layer[..i]), {})
    {
      var node := layer[i];
      LayerAt(g, gone, layer, i);
      TableSuccessors(g, adj, node);
      SuccessorsFresh(g, gone, Elems(layer), node, adj.Succ(node), Elems(layer[..i]));
      inDegree' := DrainInLayer(g, gone + Elems(layer[..i]), node, adj.Succ(node), inDegree');
    }
    assert layer[..|layer|] == layer;
  }

  // ------------------------------------------------- layers and longest chains

  /** Every name not yet drained ends some chain of `k` edges. */
  ghost predicate DeepRest(g: Graph<string>, gone: set<string>, k: nat) {
    forall x :: x in g.names && x !in gone ==> HasChain(g, x, k)
  }

  ghost predicate HasChain(g: Graph<string>, x: string, k: nat) {
    exists p :: g.IsPath(p) && p[|p| - 1] == x && |p| == k + 1
  }

  /** No chain into `x` has more than `k` edges. */
  ghost predicate ChainsWithin(g: Graph<string>, x: string, k: int) {
    forall p :: g.IsPath(p) && p[|p| - 1] == x ==> |p| <= k + 1
  }

  lemma ChainExtend(g: Graph<string>, a: string, x: string, k: nat)
    requires HasChain(g, a, k) && g.Edge(a, x) && x in g.names
    ensures HasChain(g, x, k + 1)
  {
    var p :| g.IsPath(p) && p[|p| - 1] == a && |p| == k + 1;
    var q := p + [x];
    assert g.IsPath(q);
  }

  lemma ChainsGrow(g: Graph<string>, x: string, k: nat)
    requires forall a :: a in g.Preds(x) ==> ChainsWithin(g, a, k - 1)
    ensures ChainsWithin(g, x, k)
  {
    forall p | g.IsPath(p) && p[|p| - 1] == x ensures |p| <= k + 1 {
      if |p| > 1 {
        var q := p[..|p| - 1];
        assert g.IsPath(q);
        assert g.Edge(p[|p| - 2], p[|p| - 1]);
        assert p[|p| - 2] in g.Preds(x);
        assert q[|q| - 1] == p[|p| - 2];
      }
    }
  }

  /** What holds of the layers emitted so far, `drained` listing their names. */
  ghost predicate Staged(g: Graph<string>, layers: seq<seq<string>>, drained: seq<string>) {
    && Elems(drained) == Flat(layers)
    && Drainable(g, drained)
    && DeepRest(g, Elems(drained), |layers|)
    && (forall x :: x in Elems(drained) ==> ChainsWithin(g, x, |layers| - 1))
    && (forall i :: 0 <= i < |layers| ==> IsStage(g, layers[i], i))
  }

  ghost predicate IsStage(g: Graph<string>, layer: seq<string>, i: nat) {
    layer != [] && Increasing(layer) && forall x :: x in layer ==> x in g.names && LongestChain(g, x, i)
  }

  lemma DrainableClosed<N(!new)>(g: Graph<N>, drained: seq<N>)
    requires Drainable(g, drained)
    ensures Closed(g, Elems(drained))
  {
    forall x | x in Elems(drained) ensures g.Preds(x) <= Elems(drained) {
      var i :| 0 <= i < |drained| && drained[i] == x;
      assert Elems(drained[..i]) <= Elems(drained);
    }
  }

  lemma DrainableLayer<N(!new)>(g: Graph<N>, drained: seq<N>, layer: seq<N>)
    requires Drainable(g, drained) && NoDup(layer) && IsReadyLayer(g, Elems(drained), Elems(layer))
    ensures Drainable(g, drained + layer) && Elems(drained + layer) == Elems(drained) + Elems(layer)
  {
    var all := drained + layer;
    assert forall i :: 0 <= i < |layer| ==> layer[i] in Elems(layer);
    forall i, j | 0 <= i < j < |all| ensures all[i] != all[j] {
      if i < |drained| <= j {
        assert all[i] in Elems(drained) && all[j] in Elems(layer);
      }
    }
    forall i | 0 <= i < |all| ensures g.Preds(all[i]) <= Elems(all[..i]) {
      if i < |drained| {
        assert all[..i] == drained[..i];
      } else {
        assert all[i] in Elems(layer);
        assert Elems(drained) <= Elems(all[..i]) by {
          forall x | x in Elems(drained) ensures x in all[..i] {
            var j :| 0 <= j < |drained| && drained[j] == x;
            assert all[..i][j] == x;
          }
        }
      }
    }
  }

  lemma IncreasingNoDup(s: seq<string>)
    requires Increasing(s)
    ensures NoDup(s)
  {
    forall i, j | 0 <= i < j < |s| ensures s[i] != s[j] {
      LessIrreflexive(s[i]);
    }
  }

  /** The next layer holds exactly the names at the next depth. */
  lemma StageNext(g: Graph<string>, layers: seq<seq<string>>, drained: seq<string>, layer: seq<string>)
    requires Staged(g, layers, drained) && layer != [] && Increasing(layer)
    requires IsReadyLayer(g, Elems(drained), Elems(layer))
    ensures IsStage(g, layer, |layers|)
  {
    forall x | x in layer ensures x in g.names && LongestChain(g, x, |layers|) {
      assert x in Elems(layer);
      assert HasChain(g, x, |layers|);
      ChainsGrow(g, x, |layers|);
    }
  }

  lemma DeepNext(g: Graph<string>, layers: seq<seq<string>>, drained: seq<string>, layer: seq<string>)
    requires Staged(g, layers, drained) && IsReadyLayer(g, Elems(drained), Elems(layer))
    ensures DeepRest(g, Elems(drained) + Elems(layer), |layers| + 1)
  {
    forall x | x in g.names && x !in Elems(drained) + Elems(layer) ensures HasChain(g, x, |layers| + 1) {
      assert !(g.Preds(x) <= Elems(drained));
      var a :| a in g.Preds(x) && a !in Elems(drained);
      ChainExtend(g, a, x, |layers|);
    }
  }

  lemma WithinNext(g: Graph<string>, x: string, k: int)
    requires ChainsWithin(g, x, k)
    ensures ChainsWithin(g, x, k + 1)
  {
  }

  lemma StagedNext(g: Graph<string>, layers: seq<seq<string>>, drained: seq<string>, layer: seq<string>)
    requires Staged(g, layers, drained) && layer != [] && Increasing(layer)
    requires IsReadyLayer(g, Elems(drained), Elems(layer))
    ensures Staged(g, layers + [layer], drained + layer)
    ensures Elems(drained + layer) == Elems(drained) + Elems(layer)
  {
    IncreasingNoDup(layer);
    StageNext(g, layers, drained, layer);
    DeepNext(g, layers, drained, layer);
    DrainableLayer(g, drained, layer);
    var layers' := layers + [layer];
    assert layers'[..|layers|] == layers;
    forall x | x in Elems(drained + layer) ensures ChainsWithin(g, x, |layers|) {
      if x in Elems(drained) {
        WithinNext(g, x, |layers| - 1);
      } else {
        assert x in layer;
        assert LongestChain(g, x, |layers|);
      }
    }
  }

  lemma {:induction false} InFlat(layers: seq<seq<string>>, x: string) returns (i: nat)
    requires x in Flat(layers)
    ensures i < |layers| && x in layers[i]
  {
    var n := |layers| - 1;
    if x in Elems(layers[n]) {
      i := n;
    } else {
      i := InFlat(layers[..n], x);
    }
  }

  lemma LongestUnique(g: Graph<string>, x: string, i: nat, j: nat)
    requires LongestChain(g, x, i) && LongestChain(g, x, j)
    ensures i == j
  {
  }

  lemma StagedAll(g: Graph<string>, layers: seq<seq<string>>, drained: seq<string>)
    requires Staged(g, layers, drained) && |drained| == |g.names|
    ensures IsLayering(g, layers)
  {
    NoDupCard(drained);
    SameCard(Elems(drained), g.names);
    forall i, x | 0 <= i < |layers|
      ensures x in layers[i] <==> x in g.names && LongestChain(g, x, i)
    {
      assert IsStage(g, layers[i], i);
      if x in g.names && LongestChain(g, x, i) {
        var j := InFlat(layers, x);
        assert IsStage(g, layers[j], j);
        LongestUnique(g, x, i, j);
      }
    }
  }

  lemma ReadyNames(g: Graph<string>, inDegree: map<string, int>, gone: set<string>, layer: seq<string>)
    requires gone <= g.names && LayerTable(g, inDegree, gone, gone, {})
    requires forall x :: x in layer <==> x in g.names && inDegree[x] == 0
    ensures IsReadyLayer(g, gone, Elems(layer))
  {
    forall x ensures x in Elems(layer) <==> x in g.names && x !in gone && g.Preds(x) <= gone {
      assert x in Elems(layer) <==> x in layer;
      if x in g.names && x !in gone {
        assert inDegree[x] == |g.Preds(x) - gone|;
        assert |g.Preds(x) - gone| == 0 <==> g.Preds(x) - gone == {};
      }
    }
  }

  lemma NoReadyMeansWaiting<N(!new)>(g: Graph<N>, gone: set<N>, x: N)
    requires IsReadyLayer(g, gone, {}) && x in g.names && x !in gone
    ensures g.Preds(x) - gone != {} && Waiting(g, gone, x) > 0
  {
    assert x !in {};
    assert !(g.Preds(x) <= gone);
  }

  lemma StuckNames<N(!new)>(g: Graph<N>, inDegree: map<N, int>, drained: seq<N>)
    requires g.Valid() && Drainable(g, drained) && LayerTable(g, inDegree, Elems(drained), Elems(drained), {})
    requires IsReadyLayer(g, Elems(drained), {}) && |drained| != |g.names|
    ensures forall x :: x in g.names ==> (inDegree[x] > 0 <==> g.Blocked(x))
    ensures !g.Acyclic()
  {
    forall x | x in g.names && x !in Elems(drained) ensures g.Preds(x) - Elems(drained) != {} {
      NoReadyMeansWaiting(g, Elems(drained), x);
    }
    BlockedLeft(g, drained);
    StuckHasCycle(g, drained);
    forall x | x in g.names ensures inDegree[x] > 0 <==> g.Blocked(x) {
      if x !in Elems(drained) {
        NoReadyMeansWaiting(g, Elems(drained), x);
      }
    }
  }

  method TopoLayers(services: seq<Service<string>>) returns (r: Result<seq<seq<string>>, OrderError<string>>)
    ensures r.Ok? ==> WellFormed(services) && IsLayering(GraphOf(services), r.value)
    ensures r.Err? ==> RaisedBy(services, r.error)
  {
    DuplicateKind(services);
    UnknownKind(Elems(NamesOf(services)), services);
    MalformedNone(services);
    var collected := CollectNames(services);
    if collected.Err? {
      return Err(collected.error);
    }
    var names := collected.value;
    var built := BuildEdges(services, names);
    if built.Err? {
      return Err(built.error);
    }
    ghost var g := GraphOf(services);
    EdgesKnown(services, g.names);
    r := RunLayers(names, built.value, g);
  }

  /** The layer loop of `TopoLayers`, on the finished table. */
  method RunLayers(names: set<string>, adj: Adjacency<string>, ghost g: Graph<string>)
    returns (r: Result<seq<seq<string>>, OrderError<string>>)
    requires names == g.names && g.Valid() && TableFor(adj, g)
    ensures r.Ok? ==> IsLayering(g, r.value)
    ensures r.Err? ==> r.error.Cycle? && !g.Acyclic() && ReportsBlocked(g, r.error.names)
  {
    var layers: seq<seq<string>> := [];
    var emitted := 0;
    var inDegree := adj.inDegree;
    ghost var drained: seq<string> := [];
    LayersBegin(g, adj);
    hide *;
    while emitted < |names|
      invariant Staged(g, layers, drained) && emitted == |drained| <= |names|
      invariant LayerTable(g, inDegree, Elems(drained), Elems(drained), {})
      decreases |names| - emitted
    {
      StagedDrainable(g, layers, drained);
      var layer := ReadyLayer(names, inDegree, g, Elems(drained));
      if |layer| == 0 {
        EmptyLayer(layer);
        StuckNames(g, inDegree, drained);
        TableKeys(g, inDegree, Elems(drained));
        var cycled := Leftover(names, inDegree, g);
        return Err(Cycle(cycled));
      }
      inDegree := DrainLayer(g, Elems(drained), adj, layer, inDegree);
      StagedNext(g, layers, drained, layer);
      StagedDrainable(g, layers + [layer], drained + layer);
      layers := layers + [layer];
      emitted := emitted + |layer|;
      drained := drained + layer;
    }
    StagedAll(g, layers, drained);
    return Ok(layers);
  }

  /** The names at in-degree zero, sorted. */
  method ReadyLayer(names: set<string>, inDegree: map<string, int>, ghost g: Graph<string>, ghost gone: set<string>)
    returns (layer: seq<string>)
    requires names == g.names && gone <= g.names && LayerTable(g, inDegree, gone, gone, {})
    ensures Increasing(layer) && NoDup(layer) && IsReadyLayer(g, gone, Elems(layer))
  {
    TableKeys(g, inDegree, gone);
    hide *;
    layer := SortSet(set x | x in names && inDegree[x] == 0);
    ReadyNames(g, inDegree, gone, layer);
    IncreasingNoDup(layer);
  }

  lemma EmptyLayer(layer: seq<string>)
    requires |layer| == 0
    ensures Elems(layer) == {}
  {
  }

  lemma TableKeys(g: Graph<string>, inDegree: map<string, int>, gone: set<string>)
    requires LayerTable(g, inDegree, gone, gone, {})
    ensures inDegree.Keys == g.names
  {
  }

  lemma StagedDrainable(g: Graph<string>, layers: seq<seq<string>>, drained: seq<string>)
    requires Staged(g, layers, drained)
    ensures Drainable(g, drained) && Closed(g, Elems(drained)) && Elems(drained) <= g.names && |drained| <= |g.names|
  {
    DrainableClosed(g, drained);
    NoDupCard(drained);
    CardLe(Elems(drained), g.names);
  }

  lemma LayersBegin(g: Graph<string>, adj: Adjacency<string>)
    requires TableFor(adj, g)
    ensures Staged(g, [], []) && LayerTable(g, adj.inDegree, Elems([]), Elems([]), {})
  {
    hide Drainable, TableFor, ChainsWithin, HasChain;
    InitialCounts(g, adj);
    forall x | x in g.names ensures HasChain(g, x, 0) {
      ChainOfOne(g, x);
    }
    NothingDrained(g);
  }

  lemma ChainOfOne(g: Graph<string>, x: string)
    requires x in g.names
    ensures HasChain(g, x, 0)
  {
    assert g.IsPath([x]);
  }

  lemma NothingDrained(g: Graph<string>)
    ensures Drainable(g, [])
  {
  }

  /** Edges go from a layer to a strictly later one, so no edge joins two members of a layer. */
  lemma LayersForward(g: Graph<string>, layers: seq<seq<string>>, i: nat, j: nat, x: string, y: string)
    requires IsLayering(g, layers) && i < |layers| && j < |layers|
    requires x in layers[i] && y in layers[j] && g.Edge(x, y)
    ensures i < j
  {
    assert LongestChain(g, x, i) && LongestChain(g, y, j);
    ChainExtend(g, x, y, i);
  }

  lemma LayeringAcyclic(g: Graph<string>, layers: seq<seq<string>>)
    requires IsLayering(g, layers)
    ensures g.Acyclic()
  {
    forall x ensures !g.OnCycle(x) {
      if g.OnCycle(x) {
        var c :| g.PathBetween(c, x, x) && |c| > 1;
        var i := InFlat(layers, x);
        assert LongestChain(g, x, i);
        var p :| g.IsPath(p) && p[|p| - 1] == x && |p| == i + 1;
        PathJoin(g, p, c);
      }
    }
  }

  /** The two algorithms accept the same configurations and raise the same error. */
  lemma SortAndLayersAgree(services: seq<Service<string>>, r: Result<seq<string>, OrderError<string>>,
                           l: Result<seq<seq<string>>, OrderError<string>>)
    requires r.Ok? ==> WellFormed(services) && Respects(GraphOf(services), r.value)
    requires r.Err? ==> RaisedBy(services, r.error)
    requires l.Ok? ==> WellFormed(services) && IsLayering(GraphOf(services), l.value)
    requires l.Err? ==> RaisedBy(services, l.error)
    ensures r.Ok? <==> l.Ok?
    ensures r.Err? ==> r.error == l.error
  {
    SortsExactlyAcyclic(services, r);
    MalformedNone(services);
    if l.Ok? {
      LayeringAcyclic(GraphOf(services), l.value);
    }
    if r.Err? && l.Err? {
      RaisedOnce(services, r.error, l.error);
    }
  }
}
