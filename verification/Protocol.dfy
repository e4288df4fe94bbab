/**
  The supervisor protocol (run.go, daemon.go, lifecycle.go) as a transition
  system. Goroutines are program counters; a step belongs to one of them.

  A section under `d.mu` that tests `shuttingDown` is two steps: taking the lock
  and testing, then the rest and releasing. Whatever does not need the lock,
  such as the swap that sets the flag, can happen in between. A wait on an exit
  channel, on `stopAllDone` or on `senderWg` is a step enabled once it is over.
  Conditions, timers, gates, process exits and requests from outside are free
  to go either way at any time.
 */
module Protocol {
  import opened Wrappers
  import opened Graphs
  import opened World
  import opened Reload

  datatype Shared = Shared(
    w: World,
    mu: Option<nat>,            // the goroutine holding `d.mu`
    flag: bool,                 // `shuttingDown`
    winner: Option<nat>,        // the goroutine whose swap set the flag
    shutdownCh: bool,           // closed
    swept: bool,                // the winner has taken `d.mu`
    stopAllDone: bool,          // closed
    queue: seq<Exit>,           // `restartCh`: a request is the instance with the exit it waits for
    chClosed: bool,             // `restartCh` closed
    pending: int,               // `pendingRestarts`
    senders: int,               // `senderWg`
    panicked: bool)             // a send on, or a close of, a closed channel, or a negative wait group

  const CHANNEL_CAP := 64

  /** How `startService` can return. */
  datatype Outcome = Started | AlreadyRunning | Replaced | Refused | Unmet | Failed

  /** An ordered restart: the service, then its dependents in start order; the exits taken so far. */
  datatype Job = Job(chain: seq<nat>, exits: seq<Exit>) {
    /** The next instance to stop: from the last to the first. */
    function Next(): nat
      requires |exits| < |chain|
    {
      chain[|chain| - 1 - |exits|]
    }
  }

  /** Who called `startService` or `initiateShutdown`, and with what left to do. */
  datatype Cont =
    | Ends
    | Settles(req: Exit)
    | Leg(job: Job, j: nat)
    | Reloading(waits: set<Exit>, rest: seq<nat>)

  datatype Pc =
    // the main goroutine: reap loop, then teardown
    | MWait
    | MGot(pid: nat)
    | MHold(exit: Exit, success: bool, refused: bool)
    | MBump(req: Exit)
    | MSpawn(req: Exit)
    | MOrphan
    | MBroke
    | MTear
    | MClose
    | MExit
    // senders, the dispatcher and the restart handlers
    | Send(req: Exit)
    | Sent
    | Dispatch
    | Handle(req: Exit)
    | HTest(req: Exit)
    | HEnd(req: Exit, outcome: Outcome)
    // startService
    | StBegin(i: nat, k: Cont)
    | StLock(i: nat, k: Cont)
    | StHold(i: nat, k: Cont)
    // initiateShutdown and stopAll
    | ShSwap(k: Cont)
    | ShClose(k: Cont)
    | ShLock(k: Cont)
    | SwSeq(todo: seq<Name>, stopped: set<Name>, k: Cont)
    | SwSeqWait(exit: Exit, todo: seq<Name>, stopped: set<Name>, k: Cont)
    | SwMap(left: set<Name>, stopped: set<Name>, k: Cont)
    | SwMapWait(exit: Exit, left: set<Name>, stopped: set<Name>, k: Cont)
    | SwAllWait(waits: set<Exit>, k: Cont)
    | SwEnd(k: Cont)
    | SwDone(k: Cont)
    // check callbacks and control requests
    | CkLock(check: Check)
    | CkHold(check: Check)
    | CtLock(name: Name, wait: bool)
    | CtHold(name: Name, wait: bool)
    | StopOne(i: nat)
    // ordered restarts
    | OStop(job: Job)
    | OHold(job: Job)
    | OWait(job: Job)
    | OStart(job: Job, j: nat)
    | OEnd(job: Job)
    // reload
    | RlLock(setup: Setup)
    | RlHold(setup: Setup)
    | RlWait(waits: set<Exit>, toStart: seq<nat>)
    | RlStart(waits: set<Exit>, toStart: seq<nat>)
    | Gone

  datatype State = State(g: Shared, threads: seq<Pc>)

  // ------------------------------------------------------- lock and wait steps

  /** Goroutine `t` takes the free lock. */
  ghost predicate Locks(g: Shared, t: nat, g': Shared) {
    g.mu == None && g' == g.(mu := Some(t))
  }

  /** Takes the lock, finds a reason to leave, releases it: nothing changes. */
  ghost predicate Peeks(g: Shared, g': Shared) {
    g.mu == None && g' == g
  }

  function Unlock(g: Shared): Shared {
    g.(mu := None)
  }

  ghost predicate AllClosed(w: World, waits: set<Exit>) {
    forall e :: e in waits ==> w.Closed(e)
  }

  function Sends(reqs: seq<Exit>): seq<Pc> {
    seq(|reqs|, i requires 0 <= i < |reqs| => Send(reqs[i]))
  }

  /** Books restart requests and starts their senders. */
  function Enqueue(g: Shared, reqs: seq<Exit>): Shared {
    g.(pending := g.pending + |reqs|, senders := g.senders + |reqs|)
  }

  // ------------------------------------------------------------- the reap loop

  /** What the reap loop does about an exit (run.go, the action switch). */
  function ExitAction(inst: Inst, success: bool): Action {
    if inst.stopped then Ignore
    else if inst.config.kind == Scheduled then Ignore
    else if inst.config.kind == Oneshot then (if success then Ignore else inst.config.onceFailure)
    else if success then inst.config.policy.onSuccess
    else inst.config.policy.onFailure
  }

  /** A plain failure takes the running services that require this one down with it. */
  predicate FailsOthers(inst: Inst, success: bool) {
    !inst.stopped && inst.config.kind != Scheduled && inst.config.kind != Oneshot && !success
  }

  function AfterExit(w: World, i: nat, success: bool): World
    requires i < |w.insts|
  {
    if FailsOthers(w.insts[i], success) then StopRequirers(w, w.insts[i].config.name) else w
  }

  /** `Wait4`: no children at all, or the status of one that has exited. */
  ghost predicate DoWait(g: Shared, g': Shared, pc': Pc, spawn: seq<Pc>) {
    && spawn == []
    && (|| (g.w.kernel == map[] && g' == g && pc' == if g.flag then MBroke else MWait)
        || (exists p ::
              p in g.w.kernel && g.w.kernel[p].life == Zombie && pc' == MGot(p) && g' == g.(w := Claim(g.w, p))))
  }

  /** Under `d.mu`: forget a managed pid, mark its instance exited and look at the flag. */
  ghost predicate DoGot(g: Shared, p: nat, g': Shared, pc': Pc, spawn: seq<Pc>) {
    && spawn == []
    && (if p in g.w.pidMap && g.w.pidMap[p] < |g.w.insts| then
          && Locks(g.(w := Reap(g.w, p)), 0, g')
          && (exists ok :: pc' == MHold(g.w.Done(g.w.pidMap[p]), ok, g.flag))
        else
          g.mu == None && g' == g.(w := g.w.(kernel := g.w.kernel - {p})) && pc' == MOrphan)
  }

  /** The rest of that section. */
  ghost predicate DoExit(g: Shared, e: Exit, ok: bool, refused: bool, g': Shared, pc': Pc, spawn: seq<Pc>) {
    if refused || e.inst >= |g.w.insts| then
      g' == Unlock(g) && spawn == [] && pc' == if g.w.pidMap == map[] then MBroke else MWait
    else
      && g' == Unlock(g.(w := AfterExit(g.w, e.inst, ok)))
      && (match ExitAction(g.w.insts[e.inst], ok)
          case Restart => pc' == MBump(g.w.Done(e.inst)) && spawn == []
          case Ignore => pc' == MWait && spawn == []
          case _ => pc' == MWait && spawn == [ShSwap(Ends)])
  }

  ghost predicate DoBump(g: Shared, req: Exit, g': Shared, pc': Pc, spawn: seq<Pc>) {
    g' == g.(pending := g.pending + 1) && pc' == MSpawn(req) && spawn == []
  }

  ghost predicate DoSpawn(g: Shared, req: Exit, g': Shared, pc': Pc, spawn: seq<Pc>) {
    g' == g.(senders := g.senders + 1) && pc' == MWait && spawn == [Send(req)]
  }

  ghost predicate DoOrphan(g: Shared, g': Shared, pc': Pc, spawn: seq<Pc>) {
    && spawn == [] && g' == g
    && (if g.flag then g.mu == None && pc' == (if g.w.pidMap == map[] then MBroke else MWait) else pc' == MWait)
  }

  /** Teardown: wait for `stopAllDone`, join the senders, close `restartCh`. */
  ghost predicate DoTeardown(g: Shared, pc: Pc, g': Shared, pc': Pc, spawn: seq<Pc>) {
    && spawn == []
    && match pc
       case MBroke => g' == g && (g.flag ==> g.stopAllDone) && pc' == MTear
       case MTear => g' == g && g.senders == 0 && pc' == MClose
       case MClose => g' == g.(chClosed := true, panicked := g.panicked || g.chClosed) && pc' == MExit
       case _ => false
  }

  /** `Wait4` hands the status of `p` over. */
  function Claim(w: World, p: nat): World
    requires p in w.kernel
  {
    w.(kernel := w.kernel[p := w.kernel[p].(life := Claimed)])
  }

  // -------------------------------------------- senders, dispatcher, handlers

  ghost predicate DoSend(g: Shared, req: Exit, g': Shared, pc': Pc) {
    && pc' == Sent
    && (if g.chClosed then g' == g.(panicked := true, queue := g.queue + [req])
        else |g.queue| < CHANNEL_CAP && g' == g.(queue := g.queue + [req]))
  }

  ghost predicate DoSent(g: Shared, g': Shared, pc': Pc) {
    pc' == Gone && g' == g.(senders := g.senders - 1, panicked := g.panicked || g.senders <= 0)
  }

  ghost predicate DoDispatch(g: Shared, g': Shared, pc': Pc, spawn: seq<Pc>) {
    if g.queue != [] then spawn == [Handle(g.queue[0])] && pc' == Dispatch && g' == g.(queue := g.queue[1..])
    else g.chClosed && spawn == [] && pc' == Gone && g' == g
  }

  ghost predicate DoHandle(g: Shared, req: Exit, g': Shared, pc': Pc) {
    g.w.Closed(req) && g' == g && pc' == HTest(req)
  }

  ghost predicate DoTest(g: Shared, req: Exit, g': Shared, pc': Pc) {
    && g' == g
    && pc' == if req.inst < |g.w.insts| && g.w.insts[req.inst].running then HEnd(req, AlreadyRunning)
              else StBegin(req.inst, Settles(req))
  }

  ghost predicate DoSettle(g: Shared, g': Shared, pc': Pc) {
    g' == g.(pending := g.pending - 1) && pc' == Gone
  }

  // --------------------------------------------------------------- startService

  /** Where the caller of `startService` goes on. */
  ghost predicate Returns(k: Cont, o: Outcome, pc': Pc) {
    match k
    case Ends => pc' == Gone
    case Settles(req) => pc' == if o == Failed then ShSwap(k) else HEnd(req, o)
    case Leg(job, j) =>
      if o == Failed then pc' == ShSwap(k)
      else if o == Refused || (o == Unmet && j == 0) then pc' == OEnd(job)
      else
        // a start that went through can still fail its readiness gate
        pc' == NextLeg(job, j) || ((o == Started || o == AlreadyRunning) && pc' == ShSwap(k))
    case Reloading(waits, rest) => pc' == RlStart(waits, rest)
  }

  function NextLeg(job: Job, j: nat): Pc {
    if j + 1 < |job.chain| then OStart(job, j + 1) else OEnd(job)
  }

  ghost predicate DoBegin(g: Shared, i: nat, k: Cont, g': Shared, pc': Pc) {
    g' == g && (pc' == StLock(i, k) || Returns(k, Unmet, pc') || Returns(k, Failed, pc'))
  }

  ghost predicate DoStLock(g: Shared, t: nat, i: nat, k: Cont, g': Shared, pc': Pc) {
    if g.flag then Peeks(g, g') && Returns(k, Refused, pc') else Locks(g, t, g') && pc' == StHold(i, k)
  }

  /** Under `d.mu`, the flag having been clear: the remaining checks, then the fork. */
  ghost predicate DoStart(g: Shared, i: nat, k: Cont, g': Shared, pc': Pc) {
    exists o :: Returns(k, o, pc') && StartsAs(g, i, o, g')
  }

  ghost predicate StartsAs(g: Shared, i: nat, o: Outcome, g': Shared) {
    if i >= |g.w.insts| || !g.w.Current(i) then g' == Unlock(g) && o == Outcome.Replaced
    else if g.w.insts[i].running then g' == Unlock(g) && o == AlreadyRunning
    else
      || (g' == Unlock(g) && o == Failed)
      || (o == Started && exists p :: FreshPid(g.w, p) && g' == Unlock(g.(w := Fork(g.w, i, p))))
  }

  // ------------------------------------------------- initiateShutdown, stopAll

  /** The names in the order `stopAll` goes through them. */
  function StopSeq(w: World): seq<Name> {
    if w.mode == ReverseDep then Reversed(w.order) else w.order
  }

  function Reversed<T>(s: seq<T>): seq<T> {
    seq(|s|, i requires 0 <= i < |s| => s[|s| - 1 - i])
  }

  /** Where the caller of `initiateShutdown` goes on. */
  function AfterShutdown(k: Cont): Pc {
    match k
    case Settles(req) => HEnd(req, Failed)
    case Leg(job, _) => OEnd(job)
    case _ => Gone
  }

  /** The exits of everything current that runs. */
  ghost function RunningExits(w: World): set<Exit> {
    set n | n in w.services && w.Runs(n) :: w.Done(w.services[n])
  }

  ghost predicate DoSwap(g: Shared, t: nat, k: Cont, g': Shared, pc': Pc) {
    if g.flag then g' == g && pc' == AfterShutdown(k)
    else g' == g.(flag := true, winner := Some(t)) && pc' == ShClose(k)
  }

  ghost predicate DoCloseShutdown(g: Shared, k: Cont, g': Shared, pc': Pc) {
    g' == g.(shutdownCh := true, panicked := g.panicked || g.shutdownCh) && pc' == ShLock(k)
  }

  ghost predicate DoSweep(g: Shared, t: nat, k: Cont, g': Shared, pc': Pc) {
    if g.w.mode != Simultaneous then Locks(g.(swept := true), t, g') && pc' == SwSeq(StopSeq(g.w), {}, k)
    else if RunningExits(g.w) == {} then Locks(g.(swept := true), t, g') && pc' == SwEnd(k)
    else Peeks(g.(swept := true, w := StopCurrent(g.w)), g') && pc' == SwAllWait(RunningExits(g.w), k)
  }

  ghost predicate DoSwSeq(g: Shared, todo: seq<Name>, stopped: set<Name>, k: Cont, g': Shared, pc': Pc) {
    if todo == [] then g' == g && pc' == SwMap(g.w.services.Keys, stopped, k)
    else if !g.w.Runs(todo[0]) then g' == g && pc' == SwSeq(todo[1..], stopped, k)
    else
      var i := g.w.services[todo[0]];
      g' == Unlock(g.(w := g.w.Stop(i))) && pc' == SwSeqWait(g.w.Done(i), todo[1..], stopped + {todo[0]}, k)
  }

  ghost predicate DoSwMap(g: Shared, left: set<Name>, stopped: set<Name>, k: Cont, g': Shared, pc': Pc) {
    if left == {} then g' == g && pc' == SwEnd(k)
    else exists n :: n in left && DoSwName(g, n, left, stopped, k, g', pc')
  }

  ghost predicate DoSwName(g: Shared, n: Name, left: set<Name>, stopped: set<Name>, k: Cont, g': Shared, pc': Pc) {
    if n in stopped || !g.w.Runs(n) then g' == g && pc' == SwMap(left - {n}, stopped, k)
    else
      var i := g.w.services[n];
      g' == Unlock(g.(w := g.w.Stop(i))) && pc' == SwMapWait(g.w.Done(i), left - {n}, stopped, k)
  }

  ghost predicate DoSwResume(g: Shared, t: nat, pc: Pc, g': Shared, pc': Pc) {
    && Locks(g, t, g')
    && match pc
       case SwSeqWait(e, todo, stopped, k) => g.w.Closed(e) && pc' == SwSeq(todo, stopped, k)
       case SwMapWait(e, left, stopped, k) => g.w.Closed(e) && pc' == SwMap(left, stopped, k)
       case SwAllWait(waits, k) => AllClosed(g.w, waits) && pc' == SwEnd(k)
       case _ => false
  }

  ghost predicate DoSwEnd(g: Shared, k: Cont, g': Shared, pc': Pc) {
    g' == Unlock(g) && pc' == SwDone(k)
  }

  ghost predicate DoSwDone(g: Shared, k: Cont, g': Shared, pc': Pc) {
    g' == g.(stopAllDone := true, panicked := g.panicked || g.stopAllDone) && pc' == AfterShutdown(k)
  }

  // ------------------------------------------------------- checks and control

  datatype CheckResult = CheckResult(w: World, reqs: seq<Exit>, shut: bool)

  /** `handleCheckFailure`'s loop, over the services in the order the map yields them. */
  function CheckLoop(w: World, names: seq<Name>, c: Check): CheckResult
    decreases |names|
  {
    if names == [] then CheckResult(w, [], false)
    else if names[0] !in w.services || w.services[names[0]] >= |w.insts| then CheckLoop(w, names[1..], c)
    else
      var i := w.services[names[0]];
      var actions := w.insts[i].config.policy.onCheck;
      if c !in actions || actions[c] == Ignore then CheckLoop(w, names[1..], c)
      else if actions[c] == Restart then
        var r := CheckLoop(w.Stop(i), names[1..], c);
        CheckResult(r.w, [w.Done(i)] + r.reqs, r.shut)
      else CheckResult(w, [], true)
  }

  /** Those of `names` that run and require `n`, directly or through others. */
  ghost function Dependents(w: World, names: seq<Name>, n: Name): seq<Name> {
    if names == [] then []
    else
      var rest := Dependents(w, names[1..], n);
      if NeedsGraph(w).Before(n, names[0]) && names[0] != n && w.Runs(names[0]) then [names[0]] + rest else rest
  }

  /** `runningDependentsLocked`: the running requirers of `n`, in start order. */
  ghost function RunningDependents(w: World, n: Name): seq<nat> {
    var deps := Dependents(w, w.order, n);
    seq(|deps|, k requires 0 <= k < |deps| => if deps[k] in w.services then w.services[deps[k]] else 0)
  }

  /** `m -> n` when service `n` lists `m` under requires. */
  ghost function NeedsGraph(w: World): Graph<Name> {
    Graph(w.services.Keys, set m, n | n in w.services && m in w.services && w.services[n] < |w.insts|
                             && m in w.insts[w.services[n]].config.policy.needs :: (m, n))
  }

  ghost predicate DoCkLock(g: Shared, t: nat, c: Check, g': Shared, pc': Pc) {
    if g.flag then Peeks(g, g') && pc' == Gone else Locks(g, t, g') && pc' == CkHold(c)
  }

  ghost predicate DoCheck(g: Shared, c: Check, g': Shared, pc': Pc, spawn: seq<Pc>) {
    exists names :: NoDup(names) && Elems(names) == g.w.services.Keys && DoCheckIn(g, names, c, g', pc', spawn)
  }

  ghost predicate DoCheckIn(g: Shared, names: seq<Name>, c: Check, g': Shared, pc': Pc, spawn: seq<Pc>) {
    var r := CheckLoop(g.w, names, c);
    && g' == Unlock(Enqueue(g.(w := r.w), r.reqs)) && spawn == Sends(r.reqs)
    && pc' == if r.shut then ShSwap(Ends) else Gone
  }

  ghost predicate DoCtLock(g: Shared, t: nat, n: Name, wait: bool, g': Shared, pc': Pc) {
    if n !in g.w.services || g.flag then Peeks(g, g') && pc' == Gone else Locks(g, t, g') && pc' == CtHold(n, wait)
  }

  /** The control socket's restart, the daemon not shutting down. */
  ghost predicate DoRestart(g: Shared, n: Name, wait: bool, g': Shared, pc': Pc, spawn: seq<Pc>) {
    if n !in g.w.services || g.w.services[n] >= |g.w.insts| then g' == Unlock(g) && pc' == Gone && spawn == []
    else
      var i := g.w.services[n];
      var deps := if g.w.insts[i].config.policy.withDependents then RunningDependents(g.w, n) else [];
      if wait || deps != [] then g' == Unlock(g) && pc' == OStop(Job([i] + deps, [])) && spawn == []
      else g' == Unlock(Enqueue(g.(w := g.w.Stop(i)), [g.w.Done(i)])) && pc' == Gone && spawn == [Send(g.w.Done(i))]
  }

  ghost predicate DoStopOne(g: Shared, i: nat, g': Shared, pc': Pc) {
    g' == g.(w := g.w.Stop(i)) && pc' == Gone
  }

  // ------------------------------------------------------------ ordered restart

  ghost predicate DoOStop(g: Shared, t: nat, job: Job, g': Shared, pc': Pc) {
    if g.flag then Peeks(g, g') && pc' == OEnd(job) else Locks(g, t, g') && pc' == OHold(job)
  }

  /** `stopForRestart` on the next instance. */
  ghost predicate DoOHold(g: Shared, job: Job, g': Shared, pc': Pc) {
    && |job.exits| < |job.chain|
    && g' == Unlock(g.(w := g.w.Stop(job.Next()), pending := g.pending + 1))
    && pc' == OWait(job.(exits := job.exits + [g.w.Done(job.Next())]))
  }

  /** `waitExit`: the exit, or shutdown, whichever comes first. */
  ghost predicate DoOWait(g: Shared, job: Job, g': Shared, pc': Pc) {
    && g' == g
    && (|| (job.exits != [] && g.w.Closed(job.exits[|job.exits| - 1])
            && pc' == if |job.exits| < |job.chain| then OStop(job) else OStart(job, 0))
        || (g.shutdownCh && pc' == OEnd(job)))
  }

  ghost predicate DoOStart(g: Shared, job: Job, j: nat, g': Shared, pc': Pc) {
    && g' == g && j < |job.chain|
    && (pc' == StBegin(job.chain[j], Leg(job, j)) || pc' == ShSwap(Leg(job, j)))
  }

  ghost predicate DoOEnd(g: Shared, job: Job, g': Shared, pc': Pc) {
    g' == g.(pending := g.pending - |job.exits|) && pc' == Gone
  }

  // --------------------------------------------------------------------- reload

  /** What reload starts itself: the long-running services that do not run yet, in start order. */
  ghost function ToStart(w: World, names: seq<Name>): seq<nat> {
    if names == [] then []
    else
      var rest := ToStart(w, names[1..]);
      if names[0] in w.services && w.services[names[0]] < |w.insts|
         && w.insts[w.services[names[0]]].config.kind == Longrunning && !w.Runs(names[0])
      then [w.services[names[0]]] + rest
      else rest
  }

  ghost predicate DoRlLock(g: Shared, t: nat, c: Setup, g': Shared, pc': Pc) {
    if g.flag then Peeks(g, g') && pc' == Gone else Locks(g, t, g') && pc' == RlHold(c)
  }

  ghost predicate DoReload(g: Shared, c: Setup, g': Shared, pc': Pc) {
    && g' == Unlock(g.(w := Reconcile(g.w, c)))
    && pc'.RlWait? && pc'.toStart == ToStart(g'.w, g'.w.order)
    && (forall e :: e in pc'.waits <==> IsReplaced(g.w, c, e))
  }

  ghost predicate DoRlWait(g: Shared, waits: set<Exit>, toStart: seq<nat>, g': Shared, pc': Pc) {
    AllClosed(g.w, waits) && g' == g && pc' == RlStart(waits, toStart)
  }

  ghost predicate DoRlStart(g: Shared, waits: set<Exit>, toStart: seq<nat>, g': Shared, pc': Pc) {
    g' == g && pc' == if toStart == [] then Gone else StBegin(toStart[0], Reloading(waits, toStart[1..]))
  }

  // ------------------------------------------------------------------- all steps

  /** Goroutine `t` goes from `pc` to `pc'`, starting the goroutines `spawn`. */
  ghost predicate Act(g: Shared, t: nat, pc: Pc, g': Shared, pc': Pc, spawn: seq<Pc>) {
    match pc
    case MWait => DoWait(g, g', pc', spawn)
    case MGot(p) => DoGot(g, p, g', pc', spawn)
    case MHold(e, ok, refused) => DoExit(g, e, ok, refused, g', pc', spawn)
    case MBump(req) => DoBump(g, req, g', pc', spawn)
    case MSpawn(req) => DoSpawn(g, req, g', pc', spawn)
    case MOrphan => DoOrphan(g, g', pc', spawn)
    case MBroke => DoTeardown(g, pc, g', pc', spawn)
    case MTear => DoTeardown(g, pc, g', pc', spawn)
    case MClose => DoTeardown(g, pc, g', pc', spawn)
    case MExit => false
    case Dispatch => DoDispatch(g, g', pc', spawn)
    case CkHold(c) => DoCheck(g, c, g', pc', spawn)
    case CtHold(n, wait) => DoRestart(g, n, wait, g', pc', spawn)
    case Gone => false
    case _ => spawn == [] && ActAlone(g, t, pc, g', pc')
  }

  /** The steps that start no goroutine. */
  ghost predicate ActAlone(g: Shared, t: nat, pc: Pc, g': Shared, pc': Pc) {
    || ActHandler(g, pc, g', pc')
    || ActStart(g, t, pc, g', pc')
    || ActShutdown(g, t, pc, g', pc')
    || ActStopping(g, t, pc, g', pc')
    || ActOrdered(g, t, pc, g', pc')
    || ActReload(g, t, pc, g', pc')
  }

  ghost predicate ActHandler(g: Shared, pc: Pc, g': Shared, pc': Pc) {
    match pc
    case Send(req) => DoSend(g, req, g', pc')
    case Sent => DoSent(g, g', pc')
    case Handle(req) => DoHandle(g, req, g', pc')
    case HTest(req) => DoTest(g, req, g', pc')
    case HEnd(_, _) => DoSettle(g, g', pc')
    case _ => false
  }

  ghost predicate ActStart(g: Shared, t: nat, pc: Pc, g': Shared, pc': Pc) {
    match pc
    case StBegin(i, k) => DoBegin(g, i, k, g', pc')
    case StLock(i, k) => DoStLock(g, t, i, k, g', pc')
    case StHold(i, k) => DoStart(g, i, k, g', pc')
    case CkLock(c) => DoCkLock(g, t, c, g', pc')
    case CtLock(n, wait) => DoCtLock(g, t, n, wait, g', pc')
    case StopOne(i) => DoStopOne(g, i, g', pc')
    case _ => false
  }

  ghost predicate ActShutdown(g: Shared, t: nat, pc: Pc, g': Shared, pc': Pc) {
    match pc
    case ShSwap(k) => DoSwap(g, t, k, g', pc')
    case ShClose(k) => DoCloseShutdown(g, k, g', pc')
    case ShLock(k) => DoSweep(g, t, k, g', pc')
    case SwEnd(k) => DoSwEnd(g, k, g', pc')
    case SwDone(k) => DoSwDone(g, k, g', pc')
    case _ => false
  }

  ghost predicate ActStopping(g: Shared, t: nat, pc: Pc, g': Shared, pc': Pc) {
    match pc
    case SwSeq(todo, stopped, k) => DoSwSeq(g, todo, stopped, k, g', pc')
    case SwMap(left, stopped, k) => DoSwMap(g, left, stopped, k, g', pc')
    case SwSeqWait(_, _, _, _) => DoSwResume(g, t, pc, g', pc')
    case SwMapWait(_, _, _, _) => DoSwResume(g, t, pc, g', pc')
    case SwAllWait(_, _) => DoSwResume(g, t, pc, g', pc')
    case _ => false
  }

  ghost predicate ActOrdered(g: Shared, t: nat, pc: Pc, g': Shared, pc': Pc) {
    match pc
    case OStop(job) => DoOStop(g, t, job, g', pc')
    case OHold(job) => DoOHold(g, job, g', pc')
    case OWait(job) => DoOWait(g, job, g', pc')
    case OStart(job, j) => DoOStart(g, job, j, g', pc')
    case OEnd(job) => DoOEnd(g, job, g', pc')
    case _ => false
  }

  ghost predicate ActReload(g: Shared, t: nat, pc: Pc, g': Shared, pc': Pc) {
    match pc
    case RlLock(c) => DoRlLock(g, t, c, g', pc')
    case RlHold(c) => DoReload(g, c, g', pc')
    case RlWait(waits, toStart) => DoRlWait(g, waits, toStart, g', pc')
    case RlStart(waits, toStart) => DoRlStart(g, waits, toStart, g', pc')
    case _ => false
  }

  /** Requests that can arrive at any time. */
  ghost predicate Arrives(g: Shared, pc: Pc) {
    match pc
    case StBegin(i, k) => i < |g.w.insts| && k == Ends          // control start, scheduler tick
    case StopOne(i) => i < |g.w.insts|                          // control stop, run timeout
    case ShSwap(k) => k == Ends                                 // a shutdown signal
    case CkLock(_) | CtLock(_, _) => true                       // check failure, control restart
    case RlLock(c) => c.Valid()                                 // SIGHUP or control reload, past validation
    case _ => false
  }

  /** What the kernel does by itself: children exit, orphans arrive, unmanaged zombies are collected. */
  ghost predicate KernelStep(w: World, w': World) {
    exists p, k ::
      && w' == w.(kernel := k)
      && (|| (p in w.kernel && w.kernel[p].life == Alive && k == w.kernel[p := w.kernel[p].(life := Zombie)])
          || (FreshPid(w, p) && k == w.kernel[p := Child(None, Alive)])
          || (p in w.kernel && w.kernel[p] == Child(None, Zombie) && k == w.kernel - {p}))
  }

  ghost predicate ThreadStep(s: State, t: nat, s': State) {
    && t < |s.threads|
    && exists pc', spawn ::
         Act(s.g, t, s.threads[t], s'.g, pc', spawn) && s'.threads == s.threads[t := pc'] + spawn
  }

  ghost predicate Next(s: State, s': State) {
    || (exists t: nat :: ThreadStep(s, t, s'))
    || (exists pc :: Arrives(s.g, pc) && s' == s.(threads := s.threads + [pc]))
    || (s'.threads == s.threads && KernelStep(s.g.w, s'.g.w) && s'.g == s.g.(w := s'.g.w))
  }

  /** The configured services, none started yet; the main goroutine and the dispatcher. */
  ghost predicate Init(s: State) {
    && s.threads == [MWait, Dispatch]
    && s.g == Shared(s.g.w, None, false, None, false, false, false, [], false, 0, 0, false)
    && s.g.w.pidMap == map[] && s.g.w.kernel == map[]
    && (forall i :: 0 <= i < |s.g.w.insts| ==> s.g.w.insts[i] == NewInst(s.g.w.insts[i].config))
    && NamesPoint(s.g.w) && Ordered(s.g.w) && NeedsOrdered(s.g.w)
  }

  /** A run: a first state and any number of steps. */
  ghost predicate IsRun(run: seq<State>) {
    && |run| > 0 && Init(run[0])
    && forall i, j :: 0 <= i < |run| && 0 <= j < |run| && j == i + 1 ==> Next(run[i], run[j])
  }
}
