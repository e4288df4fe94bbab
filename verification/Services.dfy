/**
  From a configuration to what the supervisor runs: `service.New`
  (service/service.go), and the validation, the start order and the comparison of
  processes that `reload` (daemon.go) rests on.

  Signal names and durations are recognised by functions given from outside.
 */
module Services {
  import opened Wrappers
  import opened Graphs
  import opened World
  import opened Reload
  import Cron
  import Ordering

  /** A configured process: what is looked into, and the rest of the fields that are compared. */
  datatype Process = Process(
    name: string,
    command: string,
    args: seq<string>,
    useEntrypointArgs: bool,
    startup: string,
    schedule: string,
    stopSignal: string,
    killDelay: string,
    backoffDelay: string,
    backoffLimit: string,
    onSuccess: string,
    onFailure: string,
    onCheckFailure: map<Check, string>,
    after: seq<string>,
    before: seq<string>,
    required: seq<string>,
    restartWithDependents: bool,
    prefix: string,
    fork: ForkFields)
  {
    function EffectiveName(): string {
      if name == "" then command else name
    }
  }

  /** A configuration file, read. */
  datatype Settings = Settings(processes: seq<Process>, prefix: string, shutdownOrder: Mode)

  /** Whether a text is a signal name, and the duration it stands for, if any. */
  datatype Parsers = Parsers(signal: string -> bool, duration: string -> Option<int>)

  // ------------------------------------------------------------------- service.New

  function ParseExitAction(s: string, default: Action): Option<Action> {
    match s
    case "restart" => Some(Restart)
    case "shutdown" => Some(Shutdown)
    case "success-shutdown" => Some(SuccessShutdown)
    case "failure-shutdown" => Some(FailureShutdown)
    case "ignore" => Some(Ignore)
    case "" => Some(default)
    case _ => None
  }

  function ActionOr(s: string, default: Action): Action {
    var a := ParseExitAction(s, default);
    if a.Some? then a.value else default
  }

  function KindOf(startup: string): Kind {
    match startup
    case "disabled" => Disabled
    case "oneshot" => Oneshot
    case "scheduled" => Scheduled
    case _ => Longrunning
  }

  /** An absent duration has a default. */
  predicate DurationOk(parsers: Parsers, s: string) {
    s == "" || parsers.duration(s).Some?
  }

  predicate KillDelayOk(parsers: Parsers, s: string) {
    s == "" || (parsers.duration(s).Some? && parsers.duration(s).value >= 0)
  }

  /** The process is one `service.New` builds. */
  ghost predicate Accepts(parsers: Parsers, p: Process) {
    && (KindOf(p.startup).Scheduled? ==> Cron.Accepts(p.schedule))
    && parsers.signal(p.stopSignal) && KillDelayOk(parsers, p.killDelay)
    && DurationOk(parsers, p.backoffDelay) && DurationOk(parsers, p.backoffLimit)
    && (forall c :: c in p.onCheckFailure ==> ParseExitAction(p.onCheckFailure[c], Restart).Some?)
    && ParseExitAction(p.onSuccess, Shutdown).Some? && ParseExitAction(p.onFailure, Shutdown).Some?
  }

  function ImageOf(p: Process): Image {
    Image(p.prefix, p.startup, p.command, p.args, p.stopSignal, p.killDelay, p.fork)
  }

  function CheckActions(actions: map<Check, string>): map<Check, Action> {
    map c | c in actions :: ActionOr(actions[c], Restart)
  }

  /** What the supervisor keeps of a process. */
  function ConfigOf(p: Process): Config {
    Config(p.EffectiveName(), ImageOf(p), KindOf(p.startup),
      Policy(ActionOr(p.onSuccess, Shutdown), ActionOr(p.onFailure, Shutdown), CheckActions(p.onCheckFailure),
             (set r | r in p.required), p.restartWithDependents),
      ActionOr(p.onFailure, Ignore))
  }

  datatype ServiceError =
    | BadSchedule | BadSignal | BadKillDelay | NegativeKillDelay | BadBackoff | BadCheckAction(check: Check) | BadAction

  /** `e` is a fault of the process. */
  ghost predicate Rejects(parsers: Parsers, p: Process, e: ServiceError) {
    match e
    case BadSchedule => KindOf(p.startup).Scheduled? && !Cron.Accepts(p.schedule)
    case BadSignal => !parsers.signal(p.stopSignal)
    case BadKillDelay => p.killDelay != "" && parsers.duration(p.killDelay).None?
    case NegativeKillDelay =>
      p.killDelay != "" && parsers.duration(p.killDelay).Some? && parsers.duration(p.killDelay).value < 0
    case BadBackoff => !DurationOk(parsers, p.backoffDelay) || !DurationOk(parsers, p.backoffLimit)
    case BadCheckAction(c) => c in p.onCheckFailure && ParseExitAction(p.onCheckFailure[c], Restart).None?
    case BadAction => ParseExitAction(p.onSuccess, Shutdown).None? || ParseExitAction(p.onFailure, Shutdown).None?
  }

  /** The `k`-th process is the first to be rejected, for `e`. */
  ghost predicate FirstRejected(parsers: Parsers, processes: seq<Process>, k: nat, e: ServiceError) {
    && k < |processes| && Rejects(parsers, processes[k], e)
    && forall j :: 0 <= j < k ==> Accepts(parsers, processes[j])
  }

  /** `New`. */
  method NewService(parsers: Parsers, p: Process) returns (r: Result<Config, ServiceError>)
    ensures r.Ok? <==> Accepts(parsers, p)
    ensures r.Ok? ==> r.value == ConfigOf(p)
    ensures r.Err? ==> Rejects(parsers, p, r.error)
  {
    hide Cron.Accepts;
    if KindOf(p.startup).Scheduled? {
      var schedule := Cron.Parse(p.schedule);
      if schedule.Err? {
        return Err(BadSchedule);
      }
    }
    if !parsers.signal(p.stopSignal) {
      return Err(BadSignal);
    }
    if p.killDelay != "" {
      var delay := parsers.duration(p.killDelay);
      if delay.None? {
        return Err(BadKillDelay);
      }
      if delay.value < 0 {
        return Err(NegativeKillDelay);
      }
    }
    if p.backoffDelay != "" && parsers.duration(p.backoffDelay).None? {
      return Err(BadBackoff);
    }
    if p.backoffLimit != "" && parsers.duration(p.backoffLimit).None? {
      return Err(BadBackoff);
    }
    var actions := ParseCheckActions(p.onCheckFailure);
    if actions.Err? {
      return Err(actions.error);
    }
    var onSuccess := ParseExitAction(p.onSuccess, Shutdown);
    if onSuccess.None? {
      return Err(BadAction);
    }
    var onFailure := ParseExitAction(p.onFailure, Shutdown);
    if onFailure.None? {
      return Err(BadAction);
    }
    var needs := set r | r in p.required;
    var policy := Policy(onSuccess.value, onFailure.value, actions.value, needs, p.restartWithDependents);
    return Ok(Config(p.EffectiveName(), ImageOf(p), KindOf(p.startup), policy, ActionOr(p.onFailure, Ignore)));
  }

  method ParseCheckActions(texts: map<Check, string>) returns (r: Result<map<Check, Action>, ServiceError>)
    ensures r.Ok? <==> forall c :: c in texts ==> ParseExitAction(texts[c], Restart).Some?
    ensures r.Ok? ==> r.value == CheckActions(texts)
    ensures r.Err? ==>
      r.error.BadCheckAction? && r.error.check in texts && ParseExitAction(texts[r.error.check], Restart).None?
  {
    hide ParseExitAction;
    var left, actions := texts.Keys, map[];
    while left != {}
      invariant left <= texts.Keys && actions.Keys == texts.Keys - left
      invariant forall c :: c in actions ==> ParseExitAction(texts[c], Restart) == Some(actions[c])
      decreases left
    {
      var c :| c in left;
      var action := ParseExitAction(texts[c], Restart);
      if action.None? {
        return Err(BadCheckAction(c));
      }
      actions := actions[c := action.value];
      left := left - {c};
    }
    return Ok(actions);
  }

  /** `intPtrDiffers` and `boolPtrDiffers`. */
  method PtrDiffers<T(==)>(a: Option<T>, b: Option<T>) returns (differs: bool)
    ensures differs <==> a != b
  {
    if a.None? != b.None? {
      return true;
    }
    return a.Some? && a.value != b.value;
  }

  /** `processConfigChanged`: whether a field that affects the running process differs. */
  method ProcessConfigChanged(a: Image, b: Image) returns (changed: bool)
    ensures changed <==> a != b
  {
    if a.prefix != b.prefix {
      return true;
    }
    if a.startup != b.startup {
      return true;
    }
    if a.command != b.command {
      return true;
    }
    if a.args != b.args {
      return true;
    }
    if a.fork.user != b.fork.user || a.fork.group != b.fork.group {
      return true;
    }
    var userId := PtrDiffers(a.fork.userId, b.fork.userId);
    var groupId := PtrDiffers(a.fork.groupId, b.fork.groupId);
    if userId || groupId {
      return true;
    }
    if a.fork.umask != b.fork.umask {
      return true;
    }
    if a.fork.strictGroups != b.fork.strictGroups {
      return true;
    }
    if a.fork.workingDir != b.fork.workingDir {
      return true;
    }
    if a.stopSignal != b.stopSignal {
      return true;
    }
    var passEnv := PtrDiffers(a.fork.passEnv, b.fork.passEnv);
    if passEnv {
      return true;
    }
    var logCapture := PtrDiffers(a.fork.logCapture, b.fork.logCapture);
    if logCapture {
      return true;
    }
    var exportSocket := PtrDiffers(a.fork.exportSocket, b.fork.exportSocket);
    if exportSocket {
      return true;
    }
    if a.fork.environment != b.fork.environment {
      return true;
    }
    if a.fork.removeEnv != b.fork.removeEnv {
      return true;
    }
    if a.fork.dotEnv != b.fork.dotEnv || a.fork.dotEnvFollow != b.fork.dotEnvFollow {
      return true;
    }
    if a.fork.readyCheck != b.fork.readyCheck || a.fork.readyTimeout != b.fork.readyTimeout {
      return true;
    }
    if a.killDelay != b.killDelay {
      return true;
    }
    if a.fork.sdNotify != b.fork.sdNotify || a.fork.sdNotifyTimeout != b.fork.sdNotifyTimeout {
      return true;
    }
    if a.fork.parentDeathSignal != b.fork.parentDeathSignal {
      return true;
    }
    return false;
  }

  // ------------------------------------------------ which processes are the same

  /** The two agree on all that a running process depends on. */
  predicate SameProcess(p: Process, q: Process) {
    && p.prefix == q.prefix && p.startup == q.startup && p.command == q.command && p.args == q.args
    && p.stopSignal == q.stopSignal && p.killDelay == q.killDelay && p.fork == q.fork
  }

  /**
    The instance was built from process `p`; its policy is that of `q`, which is
    `p` itself or what the last reload that kept the instance brought.
   */
  ghost predicate BuiltFrom(inst: Inst, p: Process, q: Process) {
    inst.config == ConfigOf(p).(policy := ConfigOf(q).policy)
  }

  /** The service that `name` stands for runs, built in this way. */
  ghost predicate RunsAs(w: World, name: Name, p: Process, q: Process) {
    w.Runs(name) && BuiltFrom(w.insts[w.services[name]], p, q)
  }

  /** The same instance goes on with the same pid. */
  ghost predicate Goes(w: World, w': World, name: Name) {
    && w.Runs(name) && w'.Runs(name) && w'.services[name] == w.services[name]
    && w'.insts[w'.services[name]].pid == w.insts[w.services[name]].pid
  }

  /** A configured process as it is to run: with the prefix in effect, and the entrypoint's arguments if it has them. */
  function Effective(s: Settings, entrypointArgs: seq<string>, p: Process): Process {
    p.(prefix := if p.prefix == "" then s.prefix else p.prefix,
       args := p.args + if p.useEntrypointArgs then entrypointArgs else [])
  }

  lemma SubstitutedEffective(s: Settings, entrypointArgs: seq<string>, p: Process)
    ensures Substituted(s, entrypointArgs, p) == Effective(s, entrypointArgs, p)
  {
    assert p.args + [] == p.args;
  }

  lemma ImagesAgree(p: Process, q: Process)
    ensures ConfigOf(p).image == ConfigOf(q).image <==> SameProcess(p, q)
  {
    hide ActionOr, CheckActions;
  }

  /**
    A service that runs goes on at a reload, with the same instance and pid, if
    and only if its new process agrees with the one it was built from on all that
    a running process depends on. Otherwise it is told to stop and waited for.
   */
  lemma ReloadGoes(w: World, s: Settings, entrypointArgs: seq<string>, order: seq<Name>, k: nat, p: Process, q: Process)
    requires Valid(w) && SetupOf(s, entrypointArgs, order).Valid() && k < |s.processes|
    requires RunsAs(w, s.processes[k].EffectiveName(), p, q)
    ensures var c, n := SetupOf(s, entrypointArgs, order), s.processes[k].EffectiveName();
      var w', e := Reconcile(w, c), w.Done(w.services[n]);
      && (Goes(w, w', n) <==> SameProcess(p, Effective(s, entrypointArgs, s.processes[k])))
      && (!Goes(w, w', n) ==>
            IsReplaced(w, c, e) && e.inst < |w'.insts| && w'.insts[e.inst].stopped && w'.insts[e.inst].Silent())
  {
    var c, n := SetupOf(s, entrypointArgs, order), s.processes[k].EffectiveName();
    var r := Effective(s, entrypointArgs, s.processes[k]);
    SlotOf(s, entrypointArgs, order, k);
    ImagesAgree(p, r);
    hide SetupOf, Setup.Valid, ConfigOf, Effective, SameProcess, Valid;
    PointsAt(w, n);
    ReloadExact(w, c, n);
    ReloadSilences(w, c, w.services[n]);
    ServiceAfter(w, c, n);
    CurrentAfter(w, c, w.services[n]);
  }

  /**
    After a reload every configured name stands for an instance built from its
    process, the old one if it went on, under the policy of the new one.
   */
  lemma ReloadBuilds(w: World, s: Settings, entrypointArgs: seq<string>, order: seq<Name>, k: nat,
                     p: Process, q: Process)
    requires Valid(w) && SetupOf(s, entrypointArgs, order).Valid() && k < |s.processes|
    requires w.Runs(s.processes[k].EffectiveName()) ==> RunsAs(w, s.processes[k].EffectiveName(), p, q)
    ensures var w', n := Reconcile(w, SetupOf(s, entrypointArgs, order)), s.processes[k].EffectiveName();
      var r := Effective(s, entrypointArgs, s.processes[k]);
      && n in w'.services && w'.services[n] < |w'.insts|
      && BuiltFrom(w'.insts[w'.services[n]], if Goes(w, w', n) then p else r, r)
  {
    var c, n := SetupOf(s, entrypointArgs, order), s.processes[k].EffectiveName();
    SlotOf(s, entrypointArgs, order, k);
    hide SetupOf, Setup.Valid, ConfigOf, Effective, Valid;
    ReloadExact(w, c, n);
    ServiceAfter(w, c, n);
    if w.Runs(n) {
      PointsAt(w, n);
      AdjustedFacts(w, c, w.services[n]);
    }
  }

  lemma PointsAt(w: World, n: Name)
    requires Valid(w) && n in w.services
    ensures w.services[n] < |w.insts| && w.Current(w.services[n]) && w.insts[w.services[n]].config.name == n
  {
  }

  lemma SlotOf(s: Settings, entrypointArgs: seq<string>, order: seq<Name>, k: nat)
    requires SetupOf(s, entrypointArgs, order).Valid() && k < |s.processes|
    ensures var c, n := SetupOf(s, entrypointArgs, order), s.processes[k].EffectiveName();
      c.HasSlot(n) && c.Slot(n) == k && c.procs[k] == ConfigOf(Effective(s, entrypointArgs, s.processes[k]))
      && n in c.Names()
  {
    var c, n := SetupOf(s, entrypointArgs, order), s.processes[k].EffectiveName();
    SubstitutedEffective(s, entrypointArgs, s.processes[k]);
    assert c.procs[k].name == n;
    hide Substituted, Respects;
    var j := c.Slot(n);
    assert c.procs[j].name == c.procs[k].name;
  }

  // ------------------------------------------------------- what the daemon builds

  /** A process as `buildServices` hands it on: with the entrypoint's arguments and the prefix in effect. */
  function Substituted(s: Settings, entrypointArgs: seq<string>, p: Process): Process {
    p.(args := if p.useEntrypointArgs && |entrypointArgs| > 0 then p.args + entrypointArgs else p.args,
       prefix := if p.prefix == "" then s.prefix else p.prefix)
  }

  /** Neither of the two matters to `service.New`, so a dry run of it without them decides. */
  lemma SubstitutedAccepted(parsers: Parsers, s: Settings, entrypointArgs: seq<string>, p: Process)
    ensures Accepts(parsers, Substituted(s, entrypointArgs, p)) <==> Accepts(parsers, p)
    ensures forall e :: Rejects(parsers, Substituted(s, entrypointArgs, p), e) <==> Rejects(parsers, p, e)
    ensures ConfigOf(Substituted(s, entrypointArgs, p)).name == p.EffectiveName()
    ensures ConfigOf(Substituted(s, entrypointArgs, p)).policy == ConfigOf(p).policy
  {
  }

  function OrderServices(processes: seq<Process>): seq<Service<string>> {
    seq(|processes|, k requires 0 <= k < |processes| =>
      var p := processes[k]; Service(p.EffectiveName(), p.after, p.before, p.required))
  }

  /** `buildOrderServices`. */
  method BuildOrderServices(processes: seq<Process>) returns (services: seq<Service<string>>)
    ensures services == OrderServices(processes)
  {
    services := [];
    for k := 0 to |processes|
      invariant |services| == k
      invariant forall j :: 0 <= j < k ==>
        var p := processes[j]; services[j] == Service(p.EffectiveName(), p.after, p.before, p.required)
    {
      var p := processes[k];
      var name := p.name;
      if name == "" {
        name := p.command;
      }
      services := services + [Service(name, p.after, p.before, p.required)];
    }
  }

  /** What a configuration gives the supervisor once `order` has been computed for it. */
  ghost function SetupOf(s: Settings, entrypointArgs: seq<string>, order: seq<Name>): Setup {
    Setup(seq(|s.processes|, k requires 0 <= k < |s.processes| =>
                ConfigOf(Substituted(s, entrypointArgs, s.processes[k]))),
          order, GraphOf(OrderServices(s.processes)), s.shutdownOrder)
  }

  /** Names are distinct, references known, and the combined graph of after, before and requires has no cycle. */
  ghost predicate Orderable(s: Settings) {
    Ordering.WellFormed(OrderServices(s.processes)) && GraphOf(OrderServices(s.processes)).Acyclic()
  }

  lemma {:induction false} EdgesHas(services: seq<Service<string>>, k: nat)
    requires k < |services|
    ensures services[k].Edges() <= EdgesOf(services)
    decreases |services|
  {
    var n := |services| - 1;
    if k < n {
      assert services[..n][k] == services[k];
      EdgesHas(services[..n], k);
    }
  }

  /** An order for a configuration makes everything a reload and any later shutdown rely on. */
  lemma SortedSetup(s: Settings, entrypointArgs: seq<string>, order: seq<Name>)
    requires Ordering.WellFormed(OrderServices(s.processes)) && Respects(GraphOf(OrderServices(s.processes)), order)
    ensures SetupOf(s, entrypointArgs, order).Valid()
  {
    hide Respects, EdgesOf, Ordering.WellFormed, Substituted, ConfigOf;
    var services := OrderServices(s.processes);
    var c := SetupOf(s, entrypointArgs, order);
    forall k | 0 <= k < |services|
      ensures c.procs[k].name == services[k].name && c.procs[k].policy.needs == Elems(services[k].required)
    {
      SubstitutedConfig(s, entrypointArgs, s.processes[k]);
    }
    SetupNames(services, c);
    forall k, m | 0 <= k < |c.procs| && m in c.procs[k].policy.needs ensures c.graph.Edge(m, c.procs[k].name) {
      EdgesHas(services, k);
      assert (m, services[k].name) in services[k].Edges();
    }
  }

  lemma SubstitutedConfig(s: Settings, entrypointArgs: seq<string>, p: Process)
    ensures var c := ConfigOf(Substituted(s, entrypointArgs, p));
      c.name == p.EffectiveName() && c.policy.needs == Elems(p.required)
  {
  }

  lemma SetupNames(services: seq<Service<string>>, c: Setup)
    requires Ordering.WellFormed(services) && |c.procs| == |services| && c.graph == GraphOf(services)
    requires forall k :: 0 <= k < |services| ==> c.procs[k].name == services[k].name
    ensures forall j, k :: 0 <= j < k < |c.procs| ==> c.procs[j].name != c.procs[k].name
    ensures c.graph.names == c.Names()
  {
    hide EdgesOf;
    var names := NamesOf(services);
    forall j, k | 0 <= j < k < |c.procs| ensures c.procs[j].name != c.procs[k].name {
      assert names[j] != names[k];
    }
    forall n ensures n in c.Names() <==> n in Elems(names) {
      if n in names {
        var k :| 0 <= k < |names| && names[k] == n;
        assert c.procs[k].name == n;
      }
      if n in c.Names() {
        var k :| 0 <= k < |c.procs| && c.procs[k].name == n;
        assert names[k] == n;
      }
    }
  }

  /** `startOrder`: the shutdown sequence of a configuration, exactly if it has one. */
  method StartOrder(s: Settings, ghost entrypointArgs: seq<string>)
    returns (r: Result<seq<Name>, Ordering.OrderError<string>>)
    ensures r.Ok? <==> Orderable(s)
    ensures r.Ok? ==> SetupOf(s, entrypointArgs, r.value).Valid()
    ensures r.Err? ==> Ordering.RaisedBy(OrderServices(s.processes), r.error)
  {
    hide *;
    var services := BuildOrderServices(s.processes);
    r := Ordering.TopoSort(services);
    Ordering.SortsExactlyAcyclic(services, r);
    if r.Ok? {
      SortedSetup(s, entrypointArgs, r.value);
    }
    OrderableIs(s);
  }

  lemma OrderableIs(s: Settings)
    ensures Orderable(s) <==>
      Ordering.WellFormed(OrderServices(s.processes)) && GraphOf(OrderServices(s.processes)).Acyclic()
  {
  }
}
