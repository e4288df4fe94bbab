/**
  Dependency graphs of services (internal/order/order.go): what an edge, a path
  and a cycle are, and the facts about finite graphs that the two Kahn variants
  rest on.
 */
module Graphs {

  /** What the ordering needs to know of one process. */
  datatype Service<N> = Service(name: N, after: seq<N>, before: seq<N>, required: seq<N>) {

    /** The edges this process's own lists contribute. */
    ghost function Edges(): set<(N, N)> {
      (set a | a in after :: (a, name)) + (set b | b in before :: (name, b)) + (set a | a in required :: (a, name))
    }

    ghost function Refs(): set<N> {
      Elems(after) + Elems(before) + Elems(required)
    }
  }

  /** An edge `(a, b)` means that `a` starts before `b`. */
  datatype Graph<!N(==,!new)> = Graph(names: set<N>, edges: set<(N, N)>) {

    predicate Edge(a: N, b: N) {
      (a, b) in edges
    }

    ghost predicate Valid() {
      forall a, b :: Edge(a, b) ==> a in names && b in names
    }

    ghost function Preds(x: N): set<N> {
      set a | a in names && Edge(a, x)
    }

    /** A chain of edges, given by the names it visits. */
    ghost predicate IsPath(p: seq<N>) {
      && |p| > 0
      && (forall i :: 0 <= i < |p| ==> p[i] in names)
      && (forall i, j :: 0 <= i < |p| && 0 <= j < |p| && j == i + 1 ==> Edge(p[i], p[j]))
    }

    ghost predicate PathBetween(p: seq<N>, a: N, b: N) {
      IsPath(p) && p[0] == a && p[|p| - 1] == b
    }

    /** There is a chain of at least one edge from `a` to `b`. */
    ghost predicate Before(a: N, b: N) {
      exists p :: PathBetween(p, a, b) && |p| > 1
    }

    ghost predicate OnCycle(x: N) {
      Before(x, x)
    }

    ghost predicate Acyclic() {
      forall x :: !OnCycle(x)
    }

    /** `x` lies on a cycle or behind one: it can never become ready. */
    ghost predicate Blocked(x: N) {
      exists c, p :: OnCycle(c) && PathBetween(p, c, x)
    }
  }

  ghost function NamesOf<N>(services: seq<Service<N>>): seq<N> {
    seq(|services|, i requires 0 <= i < |services| => services[i].name)
  }

  /** The combined after/before/requires graph. */
  ghost function GraphOf<N(!new)>(services: seq<Service<N>>): Graph<N> {
    Graph(Elems(NamesOf(services)), EdgesOf(services))
  }

  ghost function EdgesOf<N>(services: seq<Service<N>>): set<(N, N)> {
    if services == [] then {} else EdgesOf(services[..|services| - 1]) + services[|services| - 1].Edges()
  }

  ghost predicate NoDup<T>(s: seq<T>) {
    forall i, j :: 0 <= i < j < |s| ==> s[i] != s[j]
  }

  ghost function Elems<T>(s: seq<T>): set<T> {
    set x | x in s
  }

  lemma ElemsAppend<T>(s: seq<T>, x: T)
    ensures Elems(s + [x]) == Elems(s) + {x}
  {
  }

  lemma {:induction false} NoDupCard<T>(s: seq<T>)
    requires NoDup(s)
    ensures |Elems(s)| == |s|
  {
    if |s| == 0 {
      assert Elems(s) == {};
    } else {
      var t := s[..|s| - 1];
      NoDupCard(t);
      assert s == t + [s[|s| - 1]];
      ElemsAppend(t, s[|s| - 1]);
    }
  }

  /** A start order lists each name once and puts every edge's source first. */
  ghost predicate Respects<N(!new)>(g: Graph<N>, order: seq<N>) {
    && NoDup(order)
    && Elems(order) == g.names
    && forall i, j :: 0 <= i < |order| && 0 <= j < |order| && g.Edge(order[i], order[j]) ==> i < j
  }

  /** In a start order, chains of edges of any length go forward. */
  lemma {:induction false} RespectsPath<N(!new)>(g: Graph<N>, order: seq<N>, p: seq<N>, i: nat, j: nat)
    requires Respects(g, order) && g.IsPath(p) && |p| > 1
    requires i < |order| && j < |order| && order[i] == p[0] && order[j] == p[|p| - 1]
    ensures i < j
    decreases |p|
  {
    assert g.Edge(p[0], p[1]);
    assert p[1] in Elems(order);
    var k: nat :| k < |order| && order[k] == p[1];
    if |p| > 2 {
      var q := p[1..];
      PathSuffix(g, p, 1);
      RespectsPath(g, order, q, k, j);
    } else {
      assert order[k] == order[j];
    }
  }

  lemma RespectsBefore<N(!new)>(g: Graph<N>, order: seq<N>, i: nat, j: nat)
    requires Respects(g, order) && i < |order| && j < |order|
    requires g.Before(order[i], order[j])
    ensures i < j
  {
    var p :| g.PathBetween(p, order[i], order[j]) && |p| > 1;
    RespectsPath(g, order, p, i, j);
  }

  lemma RespectsAcyclic<N(!new)>(g: Graph<N>, order: seq<N>)
    requires Respects(g, order)
    ensures g.Acyclic()
  {
    forall x ensures !g.OnCycle(x) {
      if g.OnCycle(x) {
        var p :| g.PathBetween(p, x, x) && |p| > 1;
        assert x in Elems(order);
        var i: nat :| i < |order| && order[i] == x;
        RespectsPath(g, order, p, i, i);
      }
    }
  }

  lemma PathPrepend<N(!new)>(g: Graph<N>, a: N, p: seq<N>)
    requires g.IsPath(p) && a in g.names && g.Edge(a, p[0])
    ensures g.IsPath([a] + p)
  {
    var q := [a] + p;
    forall i, j | 0 <= i < |q| && 0 <= j < |q| && j == i + 1 ensures g.Edge(q[i], q[j]) {
      if i > 0 { assert q[i] == p[i - 1] && q[j] == p[j - 1]; }
    }
  }

  lemma PathJoin<N(!new)>(g: Graph<N>, p: seq<N>, q: seq<N>)
    requires g.IsPath(p) && g.IsPath(q) && p[|p| - 1] == q[0]
    ensures g.PathBetween(p + q[1..], p[0], q[|q| - 1])
    ensures |p + q[1..]| == |p| + |q| - 1
  {
    var r := p + q[1..];
    forall i, j | 0 <= i < |r| && 0 <= j < |r| && j == i + 1 ensures g.Edge(r[i], r[j]) {
      if i >= |p| - 1 {
        assert r[i] == q[i - |p| + 1] && r[j] == q[j - |p| + 1];
      }
    }
  }

  /**
    Walking backwards inside a finite set whose every member has a predecessor
    in the set must revisit a name, so everything in the set is behind a cycle.
   */
  lemma {:induction false} WalkBack<N(!new)>(g: Graph<N>, rest: set<N>, p: seq<N>)
    requires rest <= g.names
    requires forall x {:trigger g.Preds(x)} :: x in rest ==> g.Preds(x) * rest != {}
    requires g.IsPath(p) && NoDup(p) && Elems(p) <= rest
    ensures g.Blocked(p[|p| - 1])
    decreases |rest| - |p|
  {
    assert p[0] in Elems(p);
    assert g.Preds(p[0]) * rest != {};
    var a: N :| a in g.Preds(p[0]) * rest;
    if a in p {
      var k: nat :| k < |p| && p[k] == a;
      ClosedLoop(g, p, a, k);
    } else {
      PathPrepend(g, a, p);
      var q := [a] + p;
      assert Elems(q) == Elems(p) + {a};
      NoDupCard(q);
      CardLe(Elems(q), rest);
      WalkBack(g, rest, q);
    }
  }

  lemma ClosedLoop<N(!new)>(g: Graph<N>, p: seq<N>, a: N, k: nat)
    requires g.IsPath(p) && k < |p| && p[k] == a && g.Edge(a, p[0])
    ensures g.Blocked(p[|p| - 1])
  {
    var head := p[..k + 1];
    PathPrepend(g, a, head);
    assert g.PathBetween([a] + head, a, a);
    PathSuffix(g, p, k);
    assert g.OnCycle(a) && g.PathBetween(p[k..], a, p[|p| - 1]);
  }

  lemma PathSuffix<N(!new)>(g: Graph<N>, p: seq<N>, k: nat)
    requires g.IsPath(p) && k < |p|
    ensures g.IsPath(p[k..])
  {
    var q := p[k..];
    forall i, j | 0 <= i < |q| && 0 <= j < |q| && j == i + 1 ensures g.Edge(q[i], q[j]) {
      assert q[i] == p[k + i] && q[j] == p[k + j];
    }
  }

  lemma {:induction false} CardLe<T>(a: set<T>, b: set<T>)
    requires a <= b
    ensures |a| <= |b|
    decreases a
  {
    if a != {} {
      var x :| x in a;
      CardLe(a - {x}, b - {x});
    }
  }

  /**
    The names a Kahn run leaves over are exactly the blocked ones, whatever the
    order in which it drained the others.
   */
  lemma LeftoverIsBlocked<N(!new)>(g: Graph<N>, drained: seq<N>)
    requires Elems(drained) <= g.names
    requires forall i, a :: 0 <= i < |drained| && g.Edge(a, drained[i]) && a in g.names ==> a in drained[..i]
    requires forall x {:trigger g.Preds(x)} :: x in g.names && x !in drained ==> g.Preds(x) - Elems(drained) != {}
    ensures forall x :: x in g.names ==> (x !in drained <==> g.Blocked(x))
  {
    var rest := g.names - Elems(drained);
    forall x | x in rest ensures g.Preds(x) * rest != {} {
      assert g.Preds(x) - Elems(drained) != {};
      var a: N :| a in g.Preds(x) - Elems(drained);
      assert a in g.Preds(x) * rest;
    }
    forall x | x in g.names ensures x !in drained <==> g.Blocked(x) {
      if x !in drained {
        assert g.IsPath([x]);
        WalkBack(g, rest, [x]);
      }
      if g.Blocked(x) && x in drained {
        var c, p :| g.OnCycle(c) && g.PathBetween(p, c, x);
        var i: nat :| i < |drained| && drained[i] == x;
        var k := DrainedBack(g, drained, p, i);
        DrainedOffCycle(g, drained, k);
      }
    }
  }

  /** Every name on a path into a drained name was drained, and no later. */
  lemma {:induction false} DrainedBack<N(!new)>(g: Graph<N>, drained: seq<N>, p: seq<N>, i: nat) returns (k: nat)
    requires forall i, a :: 0 <= i < |drained| && g.Edge(a, drained[i]) && a in g.names ==> a in drained[..i]
    requires g.IsPath(p) && i < |drained| && drained[i] == p[|p| - 1]
    ensures k <= i && drained[k] == p[0]
    ensures |p| > 1 ==> k < i
    decreases |p|
  {
    if |p| == 1 {
      k := i;
    } else {
      var a := p[|p| - 2];
      assert g.Edge(a, p[|p| - 1]);
      var j: nat :| j < i && drained[j] == a;
      k := DrainedBack(g, drained, p[..|p| - 1], j);
    }
  }

  /** A drained name cannot sit on a cycle: it would precede its own first occurrence. */
  lemma {:induction false} DrainedOffCycle<N(!new)>(g: Graph<N>, drained: seq<N>, k: nat)
    requires forall i, a :: 0 <= i < |drained| && g.Edge(a, drained[i]) && a in g.names ==> a in drained[..i]
    requires k < |drained|
    ensures !g.OnCycle(drained[k])
    decreases k
  {
    if g.OnCycle(drained[k]) {
      var q :| g.PathBetween(q, drained[k], drained[k]) && |q| > 1;
      var m := DrainedBack(g, drained, q, k);
      DrainedOffCycle(g, drained, m);
    }
  }
}
