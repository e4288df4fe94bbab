/** Local invariants survive the steps of other goroutines. */
module Stability {
  import opened Wrappers
  import opened Graphs
  import opened World
  import opened Protocol
  import opened Invariant

  lemma ReqStays(w: World, w': World, req: Exit)
    requires Evolves(w, w') && ReqOk(w, req)
    ensures ReqOk(w', req)
  {
  }

  lemma AllClosedStays(w: World, w': World, waits: set<Exit>)
    requires Evolves(w, w') && AllClosed(w, waits)
    ensures AllClosed(w', waits)
  {
    forall e | e in waits ensures w'.Closed(e) {
      ClosedStays(w, w', e);
    }
  }

  lemma JobStays(w: World, w': World, job: Job)
    requires Evolves(w, w') && JobOk(w, job)
    ensures JobOk(w', job)
  {
    forall m | 0 <= m < |job.exits| ensures w'.Closed(job.exits[m]) {
      ClosedStays(w, w', job.exits[m]);
    }
  }

  lemma JobWaitsStays(w: World, w': World, job: Job)
    requires Evolves(w, w') && JobWaits(w, job)
    ensures JobWaits(w', job)
  {
    JobStays(w, w', job.(exits := job.exits[..|job.exits| - 1]));
    ReqStays(w, w', job.exits[|job.exits| - 1]);
  }

  lemma ContStays(w: World, w': World, k: Cont)
    requires Evolves(w, w') && ContOk(w, k)
    ensures ContOk(w', k)
  {
    match k
    case Ends =>
    case Settles(req) => ClosedStays(w, w', req);
    case Leg(job, _) => JobStays(w, w', job);
    case Reloading(waits, rest) => AllClosedStays(w, w', waits);
  }

  lemma SettledStays(g: Shared, t: nat, g': Shared, req: Exit, o: Outcome)
    requires Rely(g, t, g') && Settled(g, req, o)
    ensures Settled(g', req, o)
  {
  }

  lemma RunsShrink(w: World, w': World, n: Name)
    requires Shrinks(w, w') && w'.Runs(n)
    ensures w.Runs(n) && w'.Done(w'.services[n]) == w.Done(w.services[n])
  {
  }

  lemma WithinShrinks(w: World, w': World, names: set<Name>)
    requires Shrinks(w, w') && RunsWithin(w, names)
    ensures RunsWithin(w', names)
  {
    forall n | w'.Runs(n) ensures n in names {
      RunsShrink(w, w', n);
    }
  }

  lemma NoneShrinks(w: World, w': World, names: set<Name>)
    requires Shrinks(w, w') && NoneOf(w, names)
    ensures NoneOf(w', names)
  {
    forall n | n in names ensures !w'.Runs(n) {
      if w'.Runs(n) {
        RunsShrink(w, w', n);
      }
    }
  }

  lemma AwaitShrinks(w: World, w': World, e: Exit)
    requires Shrinks(w, w') && AwaitOk(w, e)
    ensures AwaitOk(w', e) && NameOf(w', e) == NameOf(w, e)
  {
  }

  lemma WaitsShrink(w: World, w': World, waits: set<Exit>)
    requires Shrinks(w, w') && forall n :: w.Runs(n) ==> w.Done(w.services[n]) in waits
    ensures forall n :: w'.Runs(n) ==> w'.Done(w'.services[n]) in waits
  {
    forall n | w'.Runs(n) ensures w'.Done(w'.services[n]) in waits {
      RunsShrink(w, w', n);
    }
  }

  lemma MainStays(g: Shared, t: nat, g': Shared, pc: Pc)
    requires Rely(g, t, g') && t != 0 && IsMain(pc) && OkMain(g, pc) && FlagsOk(g) && (Holds(pc) ==> g.mu == Some(0))
    ensures OkMain(g', pc)
  {
    match pc
    case MHold(e, _, _) => ClosedStays(g.w, g'.w, e);
    case MBump(req) => ClosedStays(g.w, g'.w, req);
    case MSpawn(req) => ClosedStays(g.w, g'.w, req);
    case _ =>
  }

  lemma WinnerStays(g: Shared, t: nat, g': Shared, pc: Pc)
    requires Rely(g, t, g') && g.winner != Some(t) && IsWinner(pc) && OkWinner(g, pc) && FlagsOk(g)
    ensures OkWinner(g', pc)
  {
    match pc
    case ShClose(k) => ContStays(g.w, g'.w, k);
    case ShLock(k) => ContStays(g.w, g'.w, k);
    case SwSeq(todo, stopped, k) =>
      ContStays(g.w, g'.w, k);
      WithinShrinks(g.w, g'.w, Elems(todo));
      NoneShrinks(g.w, g'.w, stopped);
    case SwSeqWait(e, todo, stopped, k) =>
      ContStays(g.w, g'.w, k);
      AwaitShrinks(g.w, g'.w, e);
      WithinShrinks(g.w, g'.w, Elems(todo) + NameOf(g.w, e));
      NoneShrinks(g.w, g'.w, stopped - NameOf(g.w, e));
    case SwMap(_, _, k) =>
      ContStays(g.w, g'.w, k);
      WithinShrinks(g.w, g'.w, {});
    case SwAllWait(waits, k) =>
      ContStays(g.w, g'.w, k);
      WaitsShrink(g.w, g'.w, waits);
    case SwEnd(k) =>
      ContStays(g.w, g'.w, k);
      WithinShrinks(g.w, g'.w, {});
    case SwDone(k) =>
      ContStays(g.w, g'.w, k);
      WithinShrinks(g.w, g'.w, {});
  }

  lemma OtherStays(g: Shared, t: nat, g': Shared, pc: Pc)
    requires Rely(g, t, g') && !IsMain(pc) && !IsWinner(pc) && OkOther(g, pc) && (Holds(pc) ==> g.mu.Some?)
    ensures OkOther(g', pc)
  {
    match pc
    case Send(req) => ReqStays(g.w, g'.w, req);
    case Handle(req) => ReqStays(g.w, g'.w, req);
    case HTest(req) => ClosedStays(g.w, g'.w, req);
    case HEnd(req, o) => SettledStays(g, t, g', req, o);
    case StBegin(i, k) => ContStays(g.w, g'.w, k);
    case StLock(i, k) => ContStays(g.w, g'.w, k);
    case StHold(i, k) => ContStays(g.w, g'.w, k);
    case ShSwap(k) => ContStays(g.w, g'.w, k);
    case OStop(job) => JobStays(g.w, g'.w, job);
    case OHold(job) => JobStays(g.w, g'.w, job);
    case OWait(job) => JobWaitsStays(g.w, g'.w, job);
    case OStart(job, j) => JobStays(g.w, g'.w, job);
    case RlStart(waits, toStart) => AllClosedStays(g.w, g'.w, waits);
    case _ =>
  }

  /** The local invariant of any goroutine `u` survives a step of another one, `t`. */
  lemma OkStays(g: Shared, t: nat, g': Shared, u: nat, pc: Pc)
    requires Rely(g, t, g') && u != t && FlagsOk(g) && ThreadOk(g, u, pc)
    ensures PcOk(g', pc)
  {
    if IsMain(pc) {
      MainStays(g, t, g', pc);
    } else if IsWinner(pc) {
      WinnerStays(g, t, g', pc);
    } else {
      OtherStays(g, t, g', pc);
    }
  }
}
