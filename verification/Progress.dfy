/**
  What can happen: where nothing stands in the way, a restart request that has
  been booked gets through to a new process.
 */
module Progress {
  import opened Wrappers
  import opened World
  import opened Protocol

  /** Any number of steps. */
  ghost predicate IsPath(path: seq<State>) {
    |path| > 0 && forall i, j :: 0 <= i < |path| && 0 <= j < |path| && j == i + 1 ==> Next(path[i], path[j])
  }

  /** `s'` can be reached from `s`. */
  ghost predicate Leads(s: State, s': State) {
    exists path :: IsPath(path) && path[0] == s && path[|path| - 1] == s'
  }

  lemma LeadsHere(s: State)
    ensures Leads(s, s)
  {
    assert IsPath([s]);
  }

  lemma LeadsOn(s: State, s': State, s'': State)
    requires Leads(s, s') && Next(s', s'')
    ensures Leads(s, s'')
  {
    hide Next;
    var path :| IsPath(path) && path[0] == s && path[|path| - 1] == s';
    var more := path + [s''];
    forall i, j | 0 <= i < |more| && 0 <= j < |more| && j == i + 1 ensures Next(more[i], more[j]) {
      if j < |path| {
        assert Next(path[i], path[j]);
      }
    }
    assert IsPath(more);
  }

  /** One step of goroutine `t`. */
  lemma Moves(s: State, s': State, t: nat, g'': Shared, pc'': Pc, spawn: seq<Pc>)
    requires Leads(s, s') && t < |s'.threads| && Act(s'.g, t, s'.threads[t], g'', pc'', spawn)
    ensures Leads(s, State(g'', s'.threads[t := pc''] + spawn))
  {
    hide Act, Arrives, KernelStep, Leads;
    var s'' := State(g'', s'.threads[t := pc''] + spawn);
    assert ThreadStep(s', t, s'');
    LeadsOn(s, s', s'');
  }

  // ------------------------------------------------------------- a request on its way

  lemma SendAct(g: Shared, t: nat, req: Exit)
    requires !g.chClosed && |g.queue| < CHANNEL_CAP
    ensures Act(g, t, Send(req), g.(queue := g.queue + [req]), Sent, [])
  {
    assert ActHandler(g, Send(req), g.(queue := g.queue + [req]), Sent);
  }

  lemma DispatchAct(g: Shared, t: nat)
    requires g.queue != []
    ensures Act(g, t, Dispatch, g.(queue := g.queue[1..]), Dispatch, [Handle(g.queue[0])])
  {
  }

  lemma HandleAct(g: Shared, t: nat, req: Exit)
    requires g.w.Closed(req)
    ensures Act(g, t, Handle(req), g, HTest(req), [])
  {
    assert ActHandler(g, Handle(req), g, HTest(req));
  }

  lemma TestAct(g: Shared, t: nat, req: Exit)
    requires req.inst < |g.w.insts| && !g.w.insts[req.inst].running
    ensures Act(g, t, HTest(req), g, StBegin(req.inst, Settles(req)), [])
  {
    assert ActHandler(g, HTest(req), g, StBegin(req.inst, Settles(req)));
  }

  lemma BeginAct(g: Shared, t: nat, i: nat, k: Cont)
    ensures Act(g, t, StBegin(i, k), g, StLock(i, k), [])
  {
    hide Returns;
    assert ActStart(g, t, StBegin(i, k), g, StLock(i, k));
  }

  lemma LockAct(g: Shared, t: nat, i: nat, k: Cont)
    requires g.mu == None && !g.flag
    ensures Act(g, t, StLock(i, k), g.(mu := Some(t)), StHold(i, k), [])
  {
    hide Returns;
    assert ActStart(g, t, StLock(i, k), g.(mu := Some(t)), StHold(i, k));
  }

  lemma ForkAct(g: Shared, t: nat, req: Exit, p: nat)
    requires req.inst < |g.w.insts| && g.w.Current(req.inst) && !g.w.insts[req.inst].running && FreshPid(g.w, p)
    ensures Act(g, t, StHold(req.inst, Settles(req)), Unlock(g.(w := Fork(g.w, req.inst, p))), HEnd(req, Started), [])
  {
    hide Fork, World.Current;
    var g' := Unlock(g.(w := Fork(g.w, req.inst, p)));
    assert Returns(Settles(req), Started, HEnd(req, Started)) && StartsAs(g, req.inst, Started, g');
    assert ActStart(g, t, StHold(req.inst, Settles(req)), g', HEnd(req, Started));
  }

  /** The lock is free, no shutdown has begun, `restartCh` is open and the dispatcher there. */
  ghost predicate Free(s: State) {
    s.g.mu == None && !s.g.flag && !s.g.chClosed && |s.threads| > 1 && s.threads[1] == Dispatch
  }

  /** The instance of the request could be started: it is current, and the process waited for is gone. */
  ghost predicate Startable(w: World, req: Exit) {
    w.Closed(req) && req.inst < |w.insts| && w.Current(req.inst) && !w.insts[req.inst].running
  }

  /** A handler gets through to a new process. */
  lemma HandlerStarts(s: State, s': State, t: nat, req: Exit, p: nat) returns (s'': State)
    requires Leads(s, s') && t < |s'.threads| && s'.threads[t] == Handle(req) && s'.g.mu == None && !s'.g.flag
    requires Startable(s'.g.w, req) && FreshPid(s'.g.w, p)
    ensures Leads(s, s'') && s''.g == s'.g.(w := Fork(s'.g.w, req.inst, p))
    ensures |s''.threads| == |s'.threads| && s''.threads[t] == HEnd(req, Started)
  {
    hide Leads, Act, Fork, World.Current, World.Closed;
    var g, k := s'.g, Settles(req);
    HandleAct(g, t, req);
    Moves(s, s', t, g, HTest(req), []);
    s'' := State(g, s'.threads[t := HTest(req)] + []);
    TestAct(g, t, req);
    Moves(s, s'', t, g, StBegin(req.inst, k), []);
    s'' := State(g, s''.threads[t := StBegin(req.inst, k)] + []);
    BeginAct(g, t, req.inst, k);
    Moves(s, s'', t, g, StLock(req.inst, k), []);
    s'' := State(g, s''.threads[t := StLock(req.inst, k)] + []);
    LockAct(g, t, req.inst, k);
    Moves(s, s'', t, g.(mu := Some(t)), StHold(req.inst, k), []);
    s'' := State(g.(mu := Some(t)), s''.threads[t := StHold(req.inst, k)] + []);
    ForkAct(s''.g, t, req, p);
    var g' := Unlock(s''.g.(w := Fork(g.w, req.inst, p)));
    Moves(s, s'', t, g', HEnd(req, Started), []);
    s'' := State(g', s''.threads[t := HEnd(req, Started)] + []);
  }

  /** The dispatcher hands every queued request to a handler of its own. */
  lemma {:induction false} QueueEmpties(s: State, s': State) returns (s'': State)
    requires Leads(s, s') && |s'.threads| > 1 && s'.threads[1] == Dispatch
    ensures Leads(s, s'') && s''.g == s'.g.(queue := []) && |s''.threads| == |s'.threads| + |s'.g.queue|
    ensures forall k :: 0 <= k < |s'.threads| ==> s''.threads[k] == s'.threads[k]
    ensures forall k :: |s'.threads| <= k < |s''.threads| ==> s''.threads[k] == Handle(s'.g.queue[k - |s'.threads|])
    decreases |s'.g.queue|
  {
    hide Leads, Act;
    if s'.g.queue == [] {
      s'' := s';
    } else {
      var g' := s'.g.(queue := s'.g.queue[1..]);
      DispatchAct(s'.g, 1);
      Moves(s, s', 1, g', Dispatch, [Handle(s'.g.queue[0])]);
      s'' := QueueEmpties(s, State(g', s'.threads[1 := Dispatch] + [Handle(s'.g.queue[0])]));
    }
  }

  /**
    A request that is about to be sent can always be served: if nothing holds the
    lock, no shutdown has begun and the queue has room, there is a continuation in
    which its instance has a new process, whatever else is queued.
   */
  lemma RequestCanBeServed(s: State, t: nat, req: Exit, p: nat) returns (s': State)
    requires Free(s) && t < |s.threads| && s.threads[t] == Send(req) && |s.g.queue| < CHANNEL_CAP
    requires Startable(s.g.w, req) && FreshPid(s.g.w, p)
    ensures Leads(s, s') && !s'.g.flag && req.inst < |s'.g.w.insts|
    ensures var inst := s'.g.w.insts[req.inst];
      inst.running && inst.pid == p && inst.gen == s.g.w.insts[req.inst].gen + 1
    ensures p in s'.g.w.pidMap && s'.g.w.pidMap[p] == req.inst
  {
    hide Leads, Act, Startable;
    LeadsHere(s);
    SendAct(s.g, t, req);
    var g' := s.g.(queue := s.g.queue + [req]);
    Moves(s, s, t, g', Sent, []);
    s' := State(g', s.threads[t := Sent] + []);
    s' := QueueEmpties(s, s');
    var u := |s.threads| + |s.g.queue|;
    assert s'.threads[u] == Handle(req);
    s' := HandlerStarts(s, s', u, req, p);
    ForkIs(s.g.w, req, p);
  }

  lemma ForkIs(w: World, req: Exit, p: nat)
    requires Startable(w, req)
    ensures req.inst < |w.insts|
    ensures var w' := Fork(w, req.inst, p);
      && |w'.insts| == |w.insts| && w'.insts[req.inst].running && w'.insts[req.inst].pid == p
      && w'.insts[req.inst].gen == w.insts[req.inst].gen + 1 && p in w'.pidMap && w'.pidMap[p] == req.inst
  {
  }
}
