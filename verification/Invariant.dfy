/**
  The invariant of the supervisor protocol. Each goroutine has a local
  invariant that only mentions facts no other goroutine can undo; `Rely` is
  what the steps of the others guarantee.
 */
module Invariant {
  import opened Wrappers
  import opened Graphs
  import opened World
  import opened Protocol

  // ------------------------------------------------- classes of program counters

  predicate IsMain(pc: Pc) {
    pc.MWait? || pc.MGot? || pc.MHold? || pc.MBump? || pc.MSpawn? || pc.MOrphan? || pc.MBroke? || pc.MTear?
    || pc.MClose? || pc.MExit?
  }

  /** The goroutine holds `d.mu`. */
  predicate Holds(pc: Pc) {
    || pc.MHold? || pc.StHold? || pc.CkHold? || pc.CtHold? || pc.OHold? || pc.RlHold?
    || pc.SwSeq? || pc.SwMap? || pc.SwEnd?
  }

  /** The goroutine won the swap and is shutting the daemon down. */
  predicate IsWinner(pc: Pc) {
    pc.ShClose? || pc.ShLock? || Sweeping(pc)
  }

  predicate Sweeping(pc: Pc) {
    pc.SwSeq? || pc.SwSeqWait? || pc.SwMap? || pc.SwMapWait? || pc.SwAllWait? || pc.SwEnd? || pc.SwDone?
  }

  // ------------------------------------------------------------------- weights

  function ContLoad(k: Cont): nat {
    match k
    case Settles(_) => 1
    case Leg(job, _) => |job.exits|
    case _ => 0
  }

  /** What a goroutine owes `pendingRestarts`. */
  function Load(pc: Pc): nat {
    match pc
    case MSpawn(_) | Send(_) | Handle(_) | HTest(_) | HEnd(_, _) => 1
    case StBegin(_, k) => ContLoad(k)
    case StLock(_, k) => ContLoad(k)
    case StHold(_, k) => ContLoad(k)
    case ShSwap(k) => ContLoad(k)
    case ShClose(k) => ContLoad(k)
    case ShLock(k) => ContLoad(k)
    case SwSeq(_, _, k) => ContLoad(k)
    case SwSeqWait(_, _, _, k) => ContLoad(k)
    case SwMap(_, _, k) => ContLoad(k)
    case SwMapWait(_, _, _, k) => ContLoad(k)
    case SwAllWait(_, k) => ContLoad(k)
    case SwEnd(k) => ContLoad(k)
    case SwDone(k) => ContLoad(k)
    case OStop(job) => |job.exits|
    case OHold(job) => |job.exits|
    case OWait(job) => |job.exits|
    case OStart(job, _) => |job.exits|
    case OEnd(job) => |job.exits|
    case _ => 0
  }

  /** What a goroutine owes `senderWg`. */
  function Joins(pc: Pc): nat {
    if pc.Send? || pc.Sent? then 1 else 0
  }

  ghost function TotalLoad(ts: seq<Pc>): nat {
    if ts == [] then 0 else TotalLoad(ts[..|ts| - 1]) + Load(ts[|ts| - 1])
  }

  ghost function TotalJoins(ts: seq<Pc>): nat {
    if ts == [] then 0 else TotalJoins(ts[..|ts| - 1]) + Joins(ts[|ts| - 1])
  }

  lemma {:induction false} TotalsUpdate(ts: seq<Pc>, t: nat, pc: Pc)
    requires t < |ts|
    ensures TotalLoad(ts[t := pc]) == TotalLoad(ts) - Load(ts[t]) + Load(pc)
    ensures TotalJoins(ts[t := pc]) == TotalJoins(ts) - Joins(ts[t]) + Joins(pc)
    ensures TotalLoad(ts) >= Load(ts[t]) && TotalJoins(ts) >= Joins(ts[t])
  {
    var n := |ts| - 1;
    if t == n {
      assert ts[t := pc][..n] == ts[..n];
    } else {
      assert ts[t := pc][..n] == ts[..n][t := pc];
      TotalsUpdate(ts[..n], t, pc);
    }
  }

  lemma {:induction false} TotalsAppend(ts: seq<Pc>, us: seq<Pc>)
    ensures TotalLoad(ts + us) == TotalLoad(ts) + TotalLoad(us)
    ensures TotalJoins(ts + us) == TotalJoins(ts) + TotalJoins(us)
  {
    if us == [] {
      assert ts + us == ts;
    } else {
      var n := |us| - 1;
      assert (ts + us)[..|ts + us| - 1] == ts + us[..n];
      TotalsAppend(ts, us[..n]);
    }
  }

  lemma TotalsNone()
    ensures TotalLoad([]) == 0 && TotalJoins([]) == 0
  {
  }

  lemma TotalsOne(pc: Pc)
    ensures TotalLoad([pc]) == Load(pc) && TotalJoins([pc]) == Joins(pc)
  {
    assert [pc][..0] == [];
  }

  lemma {:induction false} TotalsSends(reqs: seq<Exit>)
    ensures TotalLoad(Sends(reqs)) == |reqs| && TotalJoins(Sends(reqs)) == |reqs|
  {
    if reqs != [] {
      var n := |reqs| - 1;
      assert Sends(reqs)[..n] == Sends(reqs[..n]);
      TotalsSends(reqs[..n]);
    }
  }

  // -------------------------------------------------------- local invariants

  /** The request waits for a process of its instance that has exited or been told to. */
  ghost predicate ReqOk(w: World, req: Exit) {
    w.Asked(req)
  }

  ghost predicate AllAsked(w: World, waits: set<Exit>) {
    forall e :: e in waits ==> w.Asked(e)
  }

  /**
    A restart request has been settled: its instance has had a newer process
    than the one whose exit the request waited for, unless the daemon is
    shutting down, the instance was replaced or removed by a reload, or its
    start condition was not met.
   */
  ghost predicate Settled(g: Shared, req: Exit, o: Outcome) {
    match o
    case Started | AlreadyRunning => req.inst < |g.w.insts| && req.gen < g.w.insts[req.inst].gen
    case Replaced => req.inst < |g.w.insts| && !g.w.Current(req.inst)
    case Refused | Failed => g.flag
    case Unmet => true
  }

  /** The exits an ordered restart has collected belong to its chain, last first, and are over. */
  ghost predicate JobOk(w: World, job: Job) {
    && job.chain != [] && |job.exits| <= |job.chain|
    && (forall k :: 0 <= k < |job.chain| ==> job.chain[k] < |w.insts|)
    && (forall m :: 0 <= m < |job.exits| ==>
          job.exits[m].inst == job.chain[|job.chain| - 1 - m] && w.Closed(job.exits[m]))
  }

  /** As above, except that the exit collected last may still be awaited. */
  ghost predicate JobWaits(w: World, job: Job) {
    job.exits != [] && |job.exits| <= |job.chain| && JobOk(w, job.(exits := job.exits[..|job.exits| - 1]))
    && job.exits[|job.exits| - 1].inst == job.chain[|job.chain| - |job.exits|]
    && ReqOk(w, job.exits[|job.exits| - 1])
  }

  ghost predicate ContOk(w: World, k: Cont) {
    match k
    case Ends => true
    case Settles(req) => w.Closed(req)
    case Leg(job, j) => JobOk(w, job) && |job.exits| == |job.chain| && j < |job.chain|
    case Reloading(waits, rest) => AllClosed(w, waits) && forall k :: 0 <= k < |rest| ==> rest[k] < |w.insts|
  }

  /** The start is made on behalf of the instance it names. */
  ghost predicate ContFor(w: World, i: nat, k: Cont) {
    && i < |w.insts| && ContOk(w, k)
    && (k.Settles? ==> k.req.inst == i)
    && (k.Leg? ==> k.job.chain[k.j] == i)
  }

  /** Of the current services, only those in `names` may run. */
  ghost predicate RunsWithin(w: World, names: set<Name>) {
    forall n :: w.Runs(n) ==> n in names
  }

  ghost predicate NoneOf(w: World, names: set<Name>) {
    forall n :: n in names ==> !w.Runs(n)
  }

  ghost predicate IsSuffix(a: seq<Name>, b: seq<Name>) {
    |a| <= |b| && b[|b| - |a|..] == a
  }

  /** `todo` is what is left of the stop sequence, and nothing outside it runs any more. */
  ghost predicate SeqOk(w: World, todo: seq<Name>, stopped: set<Name>) {
    w.mode != Simultaneous && IsSuffix(todo, StopSeq(w)) && RunsWithin(w, Elems(todo)) && NoneOf(w, stopped)
  }

  /** The wait after a stop: the process in question is the current one of a current service, and was told to stop. */
  ghost predicate AwaitOk(w: World, e: Exit) {
    e.inst < |w.insts| && w.Current(e.inst) && e.gen == w.insts[e.inst].gen && w.Asked(e)
  }

  ghost function NameOf(w: World, e: Exit): set<Name> {
    if e.inst < |w.insts| then {w.insts[e.inst].config.name} else {}
  }

  ghost predicate OkMain(g: Shared, pc: Pc)
    requires IsMain(pc)
  {
    && (pc.MExit? || !g.chClosed)
    && match pc
       case MWait | MOrphan => true
       case MGot(p) => p in g.w.kernel && g.w.kernel[p].life == Claimed
       case MHold(e, _, refused) =>
         && g.w.Closed(e) && g.w.Done(e.inst) == e && (if refused then g.flag else !g.swept)
         && (!g.w.Current(e.inst) ==> g.w.insts[e.inst].stopped)
       case MBump(req) => g.w.Closed(req)
       case MSpawn(req) => g.w.Closed(req)
       case MBroke => g.flag
       case MTear => g.stopAllDone
       case MClose => g.stopAllDone && g.senders <= 0
       case MExit => g.stopAllDone && g.senders <= 0
  }

  ghost predicate OkWinner(g: Shared, pc: Pc)
    requires IsWinner(pc)
  {
    && g.flag && !g.stopAllDone && (g.shutdownCh <==> !pc.ShClose?) && (g.swept <==> Sweeping(pc))
    && match pc
       case ShClose(k) => ContOk(g.w, k)
       case ShLock(k) => ContOk(g.w, k)
       case SwSeq(todo, stopped, k) => ContOk(g.w, k) && SeqOk(g.w, todo, stopped)
       case SwSeqWait(e, todo, stopped, k) =>
         && ContOk(g.w, k) && AwaitOk(g.w, e)
         && g.w.mode != Simultaneous && IsSuffix(todo, StopSeq(g.w))
         && RunsWithin(g.w, Elems(todo) + NameOf(g.w, e)) && NoneOf(g.w, stopped - NameOf(g.w, e))
       // the ordered sequence covers every service, so the second loop finds nothing to stop
       case SwMap(_, _, k) => ContOk(g.w, k) && RunsWithin(g.w, {})
       case SwMapWait(_, _, _, _) => false
       case SwAllWait(waits, k) =>
         ContOk(g.w, k) && AllAsked(g.w, waits) && forall n :: g.w.Runs(n) ==> g.w.Done(g.w.services[n]) in waits
       case SwEnd(k) => ContOk(g.w, k) && RunsWithin(g.w, {})
       case SwDone(k) => ContOk(g.w, k) && RunsWithin(g.w, {})
  }

  ghost predicate OkOther(g: Shared, pc: Pc)
    requires !IsMain(pc) && !IsWinner(pc)
  {
    match pc
    case Send(req) => ReqOk(g.w, req)
    case Sent | Dispatch | CkLock(_) | CtLock(_, _) | StopOne(_) | Gone => true
    case Handle(req) => ReqOk(g.w, req)
    case HTest(req) => g.w.Closed(req)
    case HEnd(req, o) => Settled(g, req, o)
    case StBegin(i, k) => ContFor(g.w, i, k)
    case StLock(i, k) => ContFor(g.w, i, k)
    case StHold(i, k) => ContFor(g.w, i, k) && !g.swept
    case ShSwap(k) => ContOk(g.w, k)
    case CkHold(_) => !g.swept
    case CtHold(_, _) => !g.swept
    case OStop(job) => JobOk(g.w, job) && |job.exits| < |job.chain|
    case OHold(job) => JobOk(g.w, job) && |job.exits| < |job.chain| && !g.swept
    case OWait(job) => JobWaits(g.w, job)
    case OStart(job, j) => JobOk(g.w, job) && |job.exits| == |job.chain| && j < |job.chain|
    case OEnd(_) => true
    case RlLock(c) => c.Valid()
    case RlHold(c) => c.Valid() && !g.swept
    case RlWait(waits, toStart) => AllAsked(g.w, waits) && forall k :: 0 <= k < |toStart| ==> toStart[k] < |g.w.insts|
    case RlStart(waits, toStart) => AllClosed(g.w, waits) && forall k :: 0 <= k < |toStart| ==> toStart[k] < |g.w.insts|
  }

  ghost predicate PcOk(g: Shared, pc: Pc) {
    if IsMain(pc) then OkMain(g, pc) else if IsWinner(pc) then OkWinner(g, pc) else OkOther(g, pc)
  }

  // -------------------------------------------------------- the whole invariant

  ghost predicate FlagsOk(g: Shared) {
    && (g.flag <==> g.winner.Some?)
    && (g.shutdownCh ==> g.flag)
    && (g.swept ==> g.shutdownCh)
    && (g.stopAllDone ==> g.swept && RunsWithin(g.w, {}))
    && (g.chClosed ==> g.stopAllDone && g.senders <= 0)
    && !g.panicked
    && (forall i :: 0 <= i < |g.queue| ==> ReqOk(g.w, g.queue[i]))
  }

  ghost predicate SharedOk(g: Shared) {
    Valid(g.w) && FlagsOk(g)
  }

  /** Goroutine `t` at `pc`: its local invariant, and what it alone may hold. */
  ghost predicate ThreadOk(g: Shared, t: nat, pc: Pc) {
    && PcOk(g, pc)
    && (Holds(pc) <==> g.mu == Some(t))
    && (IsWinner(pc) ==> g.winner == Some(t))
    && (IsMain(pc) <==> t == 0)
  }

  ghost predicate Inv(s: State) {
    && SharedOk(s.g)
    && s.threads != []
    && (forall t :: 0 <= t < |s.threads| ==> ThreadOk(s.g, t, s.threads[t]))
    && (s.g.mu.Some? ==> s.g.mu.value < |s.threads|)
    && (s.g.winner.Some? ==> s.g.winner.value < |s.threads|)
    && s.g.pending == TotalLoad(s.threads) + |s.g.queue|
    && s.g.senders == TotalJoins(s.threads)
  }

  // ----------------------------------------------------------------------- rely

  /** What a step of goroutine `t` guarantees to all the others. */
  ghost predicate Rely(g: Shared, t: nat, g': Shared) {
    && Evolves(g.w, g'.w)
    && (g.swept || LockedOut(g, t) ==> Shrinks(g.w, g'.w))
    && (g.flag ==> g'.flag) && (g.winner.Some? ==> g'.winner == g.winner)
    && (g'.swept ==> g.swept || g.mu == None) && (g.swept ==> g'.swept)
    && (g.winner != Some(t) ==> g'.shutdownCh == g.shutdownCh && g'.swept == g.swept && g'.stopAllDone == g.stopAllDone)
    && (g.stopAllDone ==> g'.stopAllDone)
    && (t != 0 ==> g'.chClosed == g.chClosed && (g.swept ==> g'.senders <= g.senders) && KeepsClaimed(g.w, g'.w))
  }

  /** Another goroutine holds the lock. */
  predicate LockedOut(g: Shared, t: nat) {
    g.mu.Some? && g.mu != Some(t)
  }

  ghost predicate KeepsClaimed(w: World, w': World) {
    forall p :: p in w.kernel && w.kernel[p].life == Claimed ==> p in w'.kernel && w'.kernel[p].life == Claimed
  }
}
