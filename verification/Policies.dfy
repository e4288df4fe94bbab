/**
  What the text of a configuration makes the supervisor do: about an exit, about
  a failed check, and at a reload.
 */
module Policies {
  import opened Wrappers
  import opened Graphs
  import opened World
  import opened Reload
  import opened Protocol
  import opened Invariant
  import opened Safety
  import opened Histories
  import opened Theorems
  import opened Services
  import opened Effects

  const SHUTDOWN_TEXTS := ["shutdown", "success-shutdown", "failure-shutdown"]

  lemma ActionText(s: string, default: Action)
    requires ParseExitAction(s, default).Some?
    ensures ActionOr(s, default) == Restart <==> s == "restart" || (s == "" && default == Restart)
    ensures ActionOr(s, default) == Ignore <==> s == "ignore" || (s == "" && default == Ignore)
  {
  }

  lemma ShutdownText(s: string, default: Action)
    requires ParseExitAction(s, default).Some?
    ensures ActionOr(s, default) != Restart && ActionOr(s, default) != Ignore <==>
      s in SHUTDOWN_TEXTS || (s == "" && default != Restart && default != Ignore)
  {
  }

  // -------------------------------------------------------------------------- exits

  /** The text that decides what an exit leads to, if any does. */
  function Decides(p: Process, q: Process, ok: bool): Option<string> {
    if p.startup == "scheduled" then None
    else if p.startup == "oneshot" then (if ok then None else Some(p.onFailure))
    else Some(if ok then q.onSuccess else q.onFailure)
  }

  /** A failure that takes others down: not of a run that is meant to end. */
  predicate PlainFailure(p: Process, ok: bool) {
    !ok && p.startup != "scheduled" && p.startup != "oneshot"
  }

  /** The exit was not asked for, and the text says to restart. */
  predicate SaysRestart(p: Process, q: Process, stopped: bool, ok: bool) {
    !stopped && Decides(p, q, ok) == Some("restart")
  }

  /** Likewise to shut down; that is the default, except for a oneshot. */
  predicate SaysShutdown(p: Process, q: Process, stopped: bool, ok: bool) {
    && !stopped && Decides(p, q, ok).Some?
    && (Decides(p, q, ok).value in SHUTDOWN_TEXTS || (Decides(p, q, ok).value == "" && p.startup != "oneshot"))
  }

  lemma ExitActionText(parsers: Parsers, inst: Inst, p: Process, q: Process, ok: bool)
    requires BuiltFrom(inst, p, q) && Accepts(parsers, p) && Accepts(parsers, q)
    ensures ExitAction(inst, ok) == Restart <==> SaysRestart(p, q, inst.stopped, ok)
    ensures ExitAction(inst, ok) != Restart && ExitAction(inst, ok) != Ignore <==> SaysShutdown(p, q, inst.stopped, ok)
  {
    hide ParseExitAction, ActionOr;
    KindText(p);
    OncePolicy(parsers, p);
    ActionText(q.onSuccess, Shutdown);
    ActionText(q.onFailure, Shutdown);
    ShutdownText(q.onSuccess, Shutdown);
    ShutdownText(q.onFailure, Shutdown);
    ActionText(p.onFailure, Ignore);
    ShutdownText(p.onFailure, Ignore);
  }

  lemma KindText(p: Process)
    ensures ConfigOf(p).kind == Scheduled <==> p.startup == "scheduled"
    ensures ConfigOf(p).kind == Oneshot <==> p.startup == "oneshot"
    ensures ConfigOf(p).kind == Disabled <==> p.startup == "disabled"
  {
  }

  lemma OncePolicy(parsers: Parsers, p: Process)
    requires Accepts(parsers, p)
    ensures ParseExitAction(p.onFailure, Ignore).Some?
  {
  }

  /**
    What the reap loop does about an exit, from the text of the processes that the
    instances were built from. A restart is booked exactly if the exit was not
    asked for and the text that applies says so; a shutdown exactly for the three
    texts that say so and by default, except of a oneshot; and after a plain
    failure, exactly the running services that list the failed one under requires
    are told to stop.
   */
  lemma ExitFollowsText(run: seq<State>, i: nat, e: Exit, ok: bool, g': Shared, pc': Pc, spawn: seq<Pc>,
                        parsers: Parsers, p: Process, q: Process)
    requires IsRun(run) && i < |run| && run[i].threads != [] && run[i].threads[0] == MHold(e, ok, false)
    requires Act(run[i].g, 0, MHold(e, ok, false), g', pc', spawn)
    requires e.inst < |run[i].g.w.insts| && BuiltFrom(run[i].g.w.insts[e.inst], p, q)
    requires Accepts(parsers, p) && Accepts(parsers, q)
    ensures var w := run[i].g.w; var stopped := w.insts[e.inst].stopped;
      && (pc' == MBump(e) <==> SaysRestart(p, q, stopped, ok))
      && (spawn == [ShSwap(Ends)] <==> SaysShutdown(p, q, stopped, ok))
      && (pc' == MBump(e) || pc' == MWait) && (spawn == [] || spawn == [ShSwap(Ends)])
      && SameRuns(w, g'.w)
    ensures var w := run[i].g.w;
      forall j: nat, r, s :: j < |w.insts| && BuiltFrom(w.insts[j], r, s) ==>
        (Told(w, g'.w, j) <==>
           && PlainFailure(p, ok) && !w.insts[e.inst].stopped
           && w.Current(j) && w.insts[j].running && !w.insts[j].stopped && p.EffectiveName() in s.required)
  {
    hide IsRun, Act, BuiltFrom, Accepts, SaysRestart, SaysShutdown, Told, SameRuns;
    var g := run[i].g;
    ExitFacts(run, i, e, ok);
    ExitActionText(parsers, g.w.insts[e.inst], p, q, ok);
    ExitSwitch(g, e, ok, g', pc', spawn);
    forall j: nat, r, s | j < |g.w.insts| && BuiltFrom(g.w.insts[j], r, s)
      ensures Told(g.w, g'.w, j) <==>
        && PlainFailure(p, ok) && !g.w.insts[e.inst].stopped
        && g.w.Current(j) && g.w.insts[j].running && !g.w.insts[j].stopped && p.EffectiveName() in s.required
    {
      TellsExactly(run, i, 0, g', pc', spawn, j);
      TargetText(g.w, e, ok, j, p, q, r, s);
    }
  }

  lemma ExitFacts(run: seq<State>, i: nat, e: Exit, ok: bool)
    requires IsRun(run) && i < |run| && run[i].threads != [] && run[i].threads[0] == MHold(e, ok, false)
    ensures Valid(run[i].g.w) && run[i].g.w.Done(e.inst) == e
  {
    hide IsRun, Valid, FlagsOk, TotalLoad, TotalJoins;
    InvAlways(run, i);
    assert ThreadOk(run[i].g, 0, run[i].threads[0]);
  }

  lemma ExitSwitch(g: Shared, e: Exit, ok: bool, g': Shared, pc': Pc, spawn: seq<Pc>)
    requires Valid(g.w) && e.inst < |g.w.insts| && g.w.Done(e.inst) == e
    requires Act(g, 0, MHold(e, ok, false), g', pc', spawn)
    ensures var a := ExitAction(g.w.insts[e.inst], ok);
      && (pc' == MBump(e) <==> a == Restart) && (spawn == [ShSwap(Ends)] <==> a != Restart && a != Ignore)
      && (pc' == MBump(e) || pc' == MWait) && (spawn == [] || spawn == [ShSwap(Ends)])
    ensures SameRuns(g.w, g'.w)
  {
    hide Valid, ExitAction, StopRequirers, SameRuns, FailsOthers;
    StopRequirersKeeps(g.w, g.w.insts[e.inst].config.name);
    SameSelf(g.w);
  }

  lemma SameSelf(w: World)
    ensures SameRuns(w, w)
  {
  }

  lemma TargetText(w: World, e: Exit, ok: bool, j: nat, p: Process, q: Process, r: Process, s: Process)
    requires e.inst < |w.insts| && BuiltFrom(w.insts[e.inst], p, q) && j < |w.insts| && BuiltFrom(w.insts[j], r, s)
    ensures ToTell(w, MHold(e, ok, false), j) <==>
      && PlainFailure(p, ok) && !w.insts[e.inst].stopped
      && w.Current(j) && w.insts[j].running && !w.insts[j].stopped && p.EffectiveName() in s.required
  {
    hide ImageOf, CheckActions, ActionOr;
  }

  // ------------------------------------------------------------------- failed checks

  /** The text asks for a restart when the check fails, which is also the default. */
  predicate RestartsOn(p: Process, c: Check) {
    c in p.onCheckFailure && (p.onCheckFailure[c] == "restart" || p.onCheckFailure[c] == "")
  }

  predicate ShutsOn(p: Process, c: Check) {
    c in p.onCheckFailure && p.onCheckFailure[c] in SHUTDOWN_TEXTS
  }

  /** Each service has the policy of the process under its name, and all of these are valid. */
  ghost predicate PoliciesOf(w: World, parsers: Parsers, procs: map<Name, Process>) {
    forall n :: n in w.services ==>
      && w.services[n] < |w.insts| && n in procs && Accepts(parsers, procs[n])
      && w.insts[w.services[n]].config.policy == ConfigOf(procs[n]).policy
  }

  lemma CheckText(w: World, parsers: Parsers, procs: map<Name, Process>, n: Name, c: Check)
    requires PoliciesOf(w, parsers, procs) && n in w.services
    ensures w.services[n] < |w.insts| && n in procs
    ensures var actions := w.insts[w.services[n]].config.policy.onCheck;
      && (c in actions && actions[c] == Restart <==> RestartsOn(procs[n], c))
      && (c in actions && actions[c] != Restart && actions[c] != Ignore <==> ShutsOn(procs[n], c))
  {
    hide ParseExitAction, ActionOr, Cron.Accepts;
    if c in procs[n].onCheckFailure {
      ActionText(procs[n].onCheckFailure[c], Restart);
      ShutdownText(procs[n].onCheckFailure[c], Restart);
    }
  }

  /** How many of the services are looked at: all, or those before the first that shuts the daemon down. */
  function Seen(procs: map<Name, Process>, names: seq<Name>, c: Check): (k: nat)
    ensures k <= |names| && forall j :: 0 <= j < k ==> names[j] !in procs || !ShutsOn(procs[names[j]], c)
    ensures k < |names| ==> names[k] in procs && ShutsOn(procs[names[k]], c)
  {
    if names == [] || (names[0] in procs && ShutsOn(procs[names[0]], c)) then 0
    else 1 + Seen(procs, names[1..], c)
  }

  /** The services among the first `k` that are to be restarted. */
  ghost predicate Restarted(procs: map<Name, Process>, names: seq<Name>, k: nat, c: Check, n: Name)
    requires k <= |names|
  {
    n in names[..k] && n in procs && RestartsOn(procs[n], c)
  }

  lemma RestartedRest(procs: map<Name, Process>, names: seq<Name>, k: nat, c: Check, n: Name)
    requires names != [] && k <= |names| - 1
    ensures Restarted(procs, names, k + 1, c, n) <==>
      (n == names[0] && n in procs && RestartsOn(procs[n], c)) || Restarted(procs, names[1..], k, c, n)
  {
    assert names[..k + 1] == [names[0]] + names[1..][..k];
  }

  lemma RestartedMore(procs: map<Name, Process>, names: seq<Name>, m: nat, k: nat, c: Check)
    requires names != [] && k <= |names| - 1 && m == k + 1
    requires names[0] in procs && RestartsOn(procs[names[0]], c)
    ensures forall n :: Restarted(procs, names, m, c, n) <==> n == names[0] || Restarted(procs, names[1..], k, c, n)
  {
    hide Restarted, RestartsOn;
    forall n ensures Restarted(procs, names, m, c, n) <==> n == names[0] || Restarted(procs, names[1..], k, c, n) {
      RestartedRest(procs, names, k, c, n);
    }
  }

  lemma StopPolicies(w: World, i: nat, parsers: Parsers, procs: map<Name, Process>)
    requires PoliciesOf(w, parsers, procs)
    ensures PoliciesOf(w.Stop(i), parsers, procs)
  {
    hide Accepts, ConfigOf;
  }

  /** What the loop over the services has done once it is over. */
  ghost predicate Checked(w: World, names: seq<Name>, c: Check, procs: map<Name, Process>, r: CheckResult) {
    var k := Seen(procs, names, c);
    && (r.shut <==> k < |names|) && NoDup(r.reqs) && SameRuns(w, r.w)
    && (forall e :: e in r.reqs <==> Requested(w, names, k, c, procs, e))
    && (forall j: nat :: j < |w.insts| ==> (Told(w, r.w, j) <==> CheckTells(w, names, k, c, procs, j)))
  }

  /** The exit of a service that is to be restarted. */
  ghost predicate Requested(w: World, names: seq<Name>, k: nat, c: Check, procs: map<Name, Process>, e: Exit)
    requires k <= |names|
  {
    exists n :: n in w.services && Restarted(procs, names, k, c, n) && e == w.Done(w.services[n])
  }

  ghost predicate CheckTells(w: World, names: seq<Name>, k: nat, c: Check, procs: map<Name, Process>, j: nat)
    requires k <= |names| && j < |w.insts|
  {
    && w.insts[j].running && !w.insts[j].stopped
    && w.Current(j) && Restarted(procs, names, k, c, w.insts[j].config.name)
  }

  lemma CheckedNone(w: World, names: seq<Name>, c: Check, procs: map<Name, Process>, shut: bool)
    requires Seen(procs, names, c) == 0 && (shut <==> names != [])
    ensures Checked(w, names, c, procs, CheckResult(w, [], shut))
  {
    SameSelf(w);
  }

  lemma CheckedSkip(w: World, names: seq<Name>, c: Check, procs: map<Name, Process>, r: CheckResult)
    requires names != [] && names[0] in procs && !RestartsOn(procs[names[0]], c) && !ShutsOn(procs[names[0]], c)
    requires Checked(w, names[1..], c, procs, r)
    ensures Checked(w, names, c, procs, r)
  {
    hide Restarted, RestartsOn, ShutsOn, SameRuns, Told, NoDup;
    var k := Seen(procs, names[1..], c);
    forall n ensures Restarted(procs, names, k + 1, c, n) <==> Restarted(procs, names[1..], k, c, n) {
      RestartedRest(procs, names, k, c, n);
    }
  }

  lemma StopSame(w: World, i: nat, j: nat)
    requires i < |w.insts| && j < |w.insts|
    ensures var w' := w.Stop(i);
      && |w'.insts| == |w.insts| && w'.services == w.services && w'.Current(j) == w.Current(j)
      && w'.Done(j) == w.Done(j) && w'.insts[j].running == w.insts[j].running
      && w'.insts[j].config == w.insts[j].config
      && (w'.insts[j].stopped <==> w.insts[j].stopped || (j == i && w.insts[j].running))
  {
  }

  lemma NamesApart(w: World, n: Name, m: Name)
    requires NamesPoint(w) && n in w.services && m in w.services && w.services[n] == w.services[m]
    ensures n == m
  {
  }

  /** No service comes twice. */
  lemma FirstOnce(procs: map<Name, Process>, names: seq<Name>, k: nat, c: Check)
    requires NoDup(names) && names != [] && k <= |names| - 1
    ensures !Restarted(procs, names[1..], k, c, names[0])
  {
  }

  lemma RequestedMore(w: World, names: seq<Name>, m: nat, k: nat, c: Check, procs: map<Name, Process>, e: Exit)
    requires NamesPoint(w) && names != [] && names[0] in w.services && k <= |names| - 1
    requires m == k + 1
    requires forall n :: Restarted(procs, names, m, c, n) <==> n == names[0] || Restarted(procs, names[1..], k, c, n)
    ensures Requested(w, names, m, c, procs, e) <==>
      e == w.Done(w.services[names[0]]) || Requested(w.Stop(w.services[names[0]]), names[1..], k, c, procs, e)
  {
    hide Restarted;
    var i := w.services[names[0]];
    var w' := w.Stop(i);
    forall n | n in w.services ensures w'.Done(w'.services[n]) == w.Done(w.services[n]) {
      StopSame(w, i, w.services[n]);
    }
    if e == w.Done(i) {
      assert Restarted(procs, names, m, c, names[0]);
    }
  }

  lemma NotAgain(w: World, names: seq<Name>, k: nat, c: Check, procs: map<Name, Process>)
    requires NamesPoint(w) && NoDup(names) && names != [] && names[0] in w.services && k <= |names| - 1
    ensures !Requested(w.Stop(w.services[names[0]]), names[1..], k, c, procs, w.Done(w.services[names[0]]))
  {
    var i := w.services[names[0]];
    var w' := w.Stop(i);
    FirstOnce(procs, names, k, c);
    hide Restarted;
    forall n | n in w.services && w.services[n] == i ensures n == names[0] {
      NamesApart(w, n, names[0]);
    }
  }

  lemma TellMore(w: World, names: seq<Name>, m: nat, k: nat, c: Check, procs: map<Name, Process>, w'': World, j: nat)
    requires NamesPoint(w) && NoDup(names) && names != [] && names[0] in w.services && k <= |names| - 1 && j < |w.insts|
    requires m == k + 1
    requires forall n :: Restarted(procs, names, m, c, n) <==> n == names[0] || Restarted(procs, names[1..], k, c, n)
    requires var w' := w.Stop(w.services[names[0]]);
      SameRuns(w', w'') && (Told(w', w'', j) <==> CheckTells(w', names[1..], k, c, procs, j))
    ensures Told(w, w'', j) <==> CheckTells(w, names, m, c, procs, j)
  {
    hide Restarted, NoDup;
    var i := w.services[names[0]];
    StopSame(w, i, j);
    assert w.Stop(i).insts[j].stopped ==> w''.insts[j].stopped;
    if w.Current(j) && w.insts[j].config.name == names[0] {
      assert j == i;
    }
  }

  lemma NoDupCons<T>(x: T, s: seq<T>)
    requires NoDup(s) && x !in s
    ensures NoDup([x] + s)
  {
  }

  lemma CheckedRestart(w: World, names: seq<Name>, c: Check, procs: map<Name, Process>, r: CheckResult)
    requires Valid(w) && NoDup(names) && names != [] && names[0] in w.services
    requires names[0] in procs && RestartsOn(procs[names[0]], c) && !ShutsOn(procs[names[0]], c)
    requires Checked(w.Stop(w.services[names[0]]), names[1..], c, procs, r)
    ensures Checked(w, names, c, procs, CheckResult(r.w, [w.Done(w.services[names[0]])] + r.reqs, r.shut))
  {
    hide Restarted, RestartsOn, ShutsOn, Seen, Valid, NoDup, SameRuns, Told, CheckTells, Requested, NamesPoint;
    PointAt(w);
    var i, k := w.services[names[0]], Seen(procs, names[1..], c);
    var w', e0 := w.Stop(i), w.Done(i);
    SeenMore(procs, names, c);
    var m := k + 1;
    RestartedMore(procs, names, m, k, c);
    StopKeeps(w, i);
    SameRunsTrans(w, w', r.w);
    forall e ensures e in [e0] + r.reqs <==> Requested(w, names, m, c, procs, e) {
      RequestedMore(w, names, m, k, c, procs, e);
    }
    forall j: nat | j < |w.insts| ensures Told(w, r.w, j) <==> CheckTells(w, names, m, c, procs, j) {
      TellMore(w, names, m, k, c, procs, r.w, j);
    }
    NotAgain(w, names, k, c, procs);
    NoDupCons(e0, r.reqs);
  }

  lemma SeenMore(procs: map<Name, Process>, names: seq<Name>, c: Check)
    requires names != []
    ensures Seen(procs, names, c) ==
      if names[0] in procs && ShutsOn(procs[names[0]], c) then 0 else 1 + Seen(procs, names[1..], c)
  {
  }

  /** The loop over the services after a failed check. */
  lemma {:induction false} CheckLoopText(w: World, names: seq<Name>, c: Check, parsers: Parsers,
                                         procs: map<Name, Process>)
    requires Valid(w) && PoliciesOf(w, parsers, procs) && NoDup(names) && forall n :: n in names ==> n in w.services
    ensures Checked(w, names, c, procs, CheckLoop(w, names, c))
    decreases |names|
  {
    hide Valid, PoliciesOf, RestartsOn, ShutsOn, Checked, Seen;
    if names == [] {
      SeenNothing(procs, names, c);
      CheckedNone(w, names, c, procs, false);
    } else {
      assert names[0] in names;
      SeenMore(procs, names, c);
      CheckText(w, parsers, procs, names[0], c);
      var i := w.services[names[0]];
      NoDupTail(names);
      if ShutsOn(procs[names[0]], c) {
        CheckedNone(w, names, c, procs, true);
      } else if RestartsOn(procs[names[0]], c) {
        StopKeeps(w, i);
        StopPolicies(w, i, parsers, procs);
        CheckLoopText(w.Stop(i), names[1..], c, parsers, procs);
        CheckedRestart(w, names, c, procs, CheckLoop(w.Stop(i), names[1..], c));
      } else {
        CheckLoopText(w, names[1..], c, parsers, procs);
        CheckedSkip(w, names, c, procs, CheckLoop(w, names[1..], c));
      }
    }
  }

  lemma SeenNothing(procs: map<Name, Process>, names: seq<Name>, c: Check)
    requires names == []
    ensures Seen(procs, names, c) == 0
  {
  }

  lemma NoDupTail<T>(s: seq<T>)
    requires NoDup(s) && s != []
    ensures NoDup(s[1..]) && forall x :: x in s[1..] ==> x in s
  {
  }

  /**
    What a failed check leads to, from the text of the processes. The services are
    looked at in some order, up to the first whose text says to shut down, if there
    is one; then the daemon does. Each of those before it whose text says to
    restart gets one request, for the process it has, and is told to stop if it
    runs; nobody else is, and gets any.
   */
  lemma CheckFollowsText(run: seq<State>, i: nat, t: nat, c: Check, g': Shared, pc': Pc, spawn: seq<Pc>,
                         parsers: Parsers, procs: map<Name, Process>) returns (names: seq<Name>, k: nat)
    requires IsRun(run) && i < |run| && t < |run[i].threads| && run[i].threads[t] == CkHold(c)
    requires Act(run[i].g, t, CkHold(c), g', pc', spawn) && PoliciesOf(run[i].g.w, parsers, procs)
    ensures NoDup(names) && Elems(names) == run[i].g.w.services.Keys && k <= |names|
    ensures k < |names| ==> names[k] in procs && ShutsOn(procs[names[k]], c)
    ensures forall j :: 0 <= j < k ==> names[j] !in procs || !ShutsOn(procs[names[j]], c)
    ensures pc' == (if k < |names| then ShSwap(Ends) else Gone) && SameRuns(run[i].g.w, g'.w)
    ensures NoDup(spawn)
    ensures forall x :: x in spawn <==> x.Send? && Requested(run[i].g.w, names, k, c, procs, x.req)
    ensures forall j: nat :: j < |run[i].g.w.insts| ==>
      (Told(run[i].g.w, g'.w, j) <==> CheckTells(run[i].g.w, names, k, c, procs, j))
  {
    hide IsRun, Inv, Act, NoDup, Elems, PoliciesOf, CheckLoop, Checked, Seen, ShutsOn, SameRuns, Told;
    hide CheckTells, Requested, Sends, Valid;
    var g := run[i].g;
    InvAlways(run, i);
    InvFlags(run[i]);
    names := CheckOrder(g, t, c, g', pc', spawn);
    k := Seen(procs, names, c);
    var r := CheckLoop(g.w, names, c);
    InElems(names, g.w.services.Keys);
    CheckLoopText(g.w, names, c, parsers, procs);
    CheckedIs(g.w, names, c, procs, r);
    SendsOf(r.reqs);
  }

  /** The order in which the services were looked at. */
  lemma CheckOrder(g: Shared, t: nat, c: Check, g': Shared, pc': Pc, spawn: seq<Pc>) returns (names: seq<Name>)
    requires Act(g, t, CkHold(c), g', pc', spawn)
    ensures NoDup(names) && Elems(names) == g.w.services.Keys
    ensures var r := CheckLoop(g.w, names, c);
      g'.w == r.w && spawn == Sends(r.reqs) && pc' == if r.shut then ShSwap(Ends) else Gone
  {
    hide NoDup, Elems, CheckLoop, Sends;
    names :| NoDup(names) && Elems(names) == g.w.services.Keys && DoCheckIn(g, names, c, g', pc', spawn);
  }

  lemma InElems<T>(s: seq<T>, all: set<T>)
    requires Elems(s) == all
    ensures forall x :: x in s <==> x in all
  {
  }

  lemma CheckedIs(w: World, names: seq<Name>, c: Check, procs: map<Name, Process>, r: CheckResult)
    requires Checked(w, names, c, procs, r)
    ensures var k := Seen(procs, names, c);
      && (r.shut <==> k < |names|) && NoDup(r.reqs) && SameRuns(w, r.w)
      && (forall e :: e in r.reqs <==> Requested(w, names, k, c, procs, e))
      && (forall j: nat :: j < |w.insts| ==> (Told(w, r.w, j) <==> CheckTells(w, names, k, c, procs, j)))
  {
    hide Requested, Told, CheckTells, SameRuns, NoDup, Seen;
  }

  lemma SendsOf(reqs: seq<Exit>)
    requires NoDup(reqs)
    ensures NoDup(Sends(reqs)) && forall x :: x in Sends(reqs) <==> x.Send? && x.req in reqs
  {
    forall x ensures x in Sends(reqs) <==> x.Send? && x.req in reqs {
      if x.Send? && x.req in reqs {
        var j :| 0 <= j < |reqs| && reqs[j] == x.req;
        assert Sends(reqs)[j] == x;
      }
    }
  }

  // ---------------------------------------------------------------- control restarts

  /** Some running service requires `n`, directly or through others. */
  ghost predicate HasDependents(w: World, n: Name) {
    exists x :: w.Runs(x) && x != n && NeedsGraph(w).Before(n, x)
  }

  lemma DependentsNone(w: World, n: Name)
    requires Valid(w)
    ensures RunningDependents(w, n) != [] <==> HasDependents(w, n)
  {
    hide NeedsGraph, Graph.Before, Dependents, Respects;
    var deps := Dependents(w, w.order, n);
    assert |RunningDependents(w, n)| == |deps|;
    if deps != [] {
      DependentsExact(w, w.order, n, deps[0]);
    }
    forall x | w.Runs(x) && x != n && NeedsGraph(w).Before(n, x) ensures x in deps {
      RunsInOrder(w, x);
      DependentsExact(w, w.order, n, x);
    }
  }

  lemma RestartSplit(g: Shared, t: nat, n: Name, wait: bool, g': Shared, pc': Pc, spawn: seq<Pc>)
    requires Act(g, t, CtHold(n, wait), g', pc', spawn) && n in g.w.services && g.w.services[n] < |g.w.insts|
    ensures var i := g.w.services[n];
      if wait || (g.w.insts[i].config.policy.withDependents && RunningDependents(g.w, n) != [])
      then g'.w == g.w && pc' == OStop(Job(Listed(g.w, n), [])) && spawn == []
      else g'.w == g.w.Stop(i) && pc' == Gone && spawn == [Send(g.w.Done(i))]
  {
    hide RunningDependents, World.Stop;
  }

  /**
    A control restart becomes an ordered one exactly if the client waits or the
    text asks for the dependents and some are running. Otherwise the service gets
    one request, for the process it has, and it alone is told to stop, if it runs.
   */
  lemma RestartFollowsText(run: seq<State>, i: nat, t: nat, n: Name, wait: bool, g': Shared, pc': Pc, spawn: seq<Pc>,
                           p: Process, q: Process)
    requires IsRun(run) && i < |run| && t < |run[i].threads| && run[i].threads[t] == CtHold(n, wait)
    requires Act(run[i].g, t, CtHold(n, wait), g', pc', spawn)
    requires n in run[i].g.w.services && run[i].g.w.services[n] < |run[i].g.w.insts|
    requires BuiltFrom(run[i].g.w.insts[run[i].g.w.services[n]], p, q)
    ensures var w := run[i].g.w; var e := w.Done(w.services[n]);
      if wait || (q.restartWithDependents && HasDependents(w, n))
      then g'.w == w && pc' == OStop(Job(Listed(w, n), [])) && spawn == []
      else
        && pc' == Gone && spawn == [Send(e)] && SameRuns(w, g'.w)
        && forall j: nat :: j < |w.insts| ==>
             (Told(w, g'.w, j) <==> j == e.inst && w.insts[j].running && !w.insts[j].stopped)
  {
    hide IsRun, Inv, Act, Valid, HasDependents, Told, SameRuns, World.Stop, Listed, ActionOr, CheckActions, ImageOf;
    var w := run[i].g.w;
    InvAlways(run, i);
    InvFlags(run[i]);
    DependentsNone(w, n);
    RestartSplit(run[i].g, t, n, wait, g', pc', spawn);
    StopKeeps(w, w.services[n]);
    forall j: nat | j < |w.insts|
      ensures Told(w, w.Stop(w.services[n]), j) <==> j == w.services[n] && w.insts[j].running && !w.insts[j].stopped
    {
      StopTells(w, w.services[n], j);
    }
  }

  // ------------------------------------------------------------------------- reload

  /** A long-running service that does not run. */
  ghost predicate Idle(w: World, n: Name) {
    && n in w.services && w.services[n] < |w.insts|
    && w.insts[w.services[n]].config.kind == Longrunning && !w.insts[w.services[n]].running
  }

  lemma {:induction false} ToStartHas(w: World, names: seq<Name>, i: nat)
    ensures i in ToStart(w, names) <==> exists n :: n in names && Idle(w, n) && w.services[n] == i
  {
    if names != [] {
      ToStartHas(w, names[1..], i);
    }
  }

  /** Where the `a`-th service to start stands in the list it was picked from. */
  ghost function StartPlace(w: World, names: seq<Name>, a: nat): (i: nat)
    requires a < |ToStart(w, names)|
    ensures i < |names| && names[i] in w.services && w.services[names[i]] == ToStart(w, names)[a]
  {
    if |ToStart(w, names)| == |ToStart(w, names[1..])| then 1 + StartPlace(w, names[1..], a)
    else if a == 0 then 0
    else 1 + StartPlace(w, names[1..], a - 1)
  }

  lemma {:induction false} StartPlacesGrow(w: World, names: seq<Name>, a: nat, b: nat)
    requires a < b < |ToStart(w, names)|
    ensures StartPlace(w, names, a) < StartPlace(w, names, b)
    decreases |names|
  {
    if |ToStart(w, names)| == |ToStart(w, names[1..])| {
      StartPlacesGrow(w, names[1..], a, b);
    } else if a > 0 {
      StartPlacesGrow(w, names[1..], a - 1, b - 1);
    }
  }

  /** What is to be started is in start order: no service before one that it is ordered after, and none twice. */
  lemma StartsAreOrdered(w: World, a: nat, b: nat)
    requires Valid(w) && a < b < |ToStart(w, w.order)|
    ensures var i, j := ToStart(w, w.order)[a], ToStart(w, w.order)[b];
      && i < |w.insts| && j < |w.insts| && i != j
      && !w.graph.Before(w.insts[j].config.name, w.insts[i].config.name)
  {
    var x, y := StartPlace(w, w.order, a), StartPlace(w, w.order, b);
    StartPlacesGrow(w, w.order, a, b);
    if w.graph.Before(w.order[y], w.order[x]) {
      RespectsBefore(w.graph, w.order, y, x);
    }
  }

  /** The text says that the process is to be kept running. */
  predicate KeptRunning(p: Process) {
    p.startup != "disabled" && p.startup != "oneshot" && p.startup != "scheduled"
  }

  lemma GoesKeeps(w: World, s: Settings, entrypointArgs: seq<string>, order: seq<Name>, k: nat)
    requires Valid(w) && SetupOf(s, entrypointArgs, order).Valid() && k < |s.processes|
    ensures var w', n := Reconcile(w, SetupOf(s, entrypointArgs, order)), s.processes[k].EffectiveName();
      n in w'.services && w'.services[n] < |w'.insts| && (Goes(w, w', n) <==> w'.insts[w'.services[n]].running)
  {
    var c, n := SetupOf(s, entrypointArgs, order), s.processes[k].EffectiveName();
    SlotOf(s, entrypointArgs, order, k);
    hide SetupOf, Setup.Valid, ConfigOf, Effective, Valid;
    ReloadExact(w, c, n);
    ServiceAfter(w, c, n);
  }

  /** A reload starts exactly the configured services that are to be kept running and do not go on. */
  lemma ReloadStarts(w: World, s: Settings, entrypointArgs: seq<string>, order: seq<Name>, k: nat,
                     p: Process, q: Process)
    requires Valid(w) && SetupOf(s, entrypointArgs, order).Valid() && k < |s.processes|
    requires w.Runs(s.processes[k].EffectiveName()) ==> RunsAs(w, s.processes[k].EffectiveName(), p, q)
    ensures var w', n := Reconcile(w, SetupOf(s, entrypointArgs, order)), s.processes[k].EffectiveName();
      && n in w'.services
      && (w'.services[n] in ToStart(w', w'.order) <==> KeptRunning(s.processes[k]) && !Goes(w, w', n))
  {
    var c, n := SetupOf(s, entrypointArgs, order), s.processes[k].EffectiveName();
    var w', r := Reconcile(w, c), Effective(s, entrypointArgs, s.processes[k]);
    ReloadBuilds(w, s, entrypointArgs, order, k, p, q);
    GoesKeeps(w, s, entrypointArgs, order, k);
    ReconcileKeeps(w, c);
    PointsAt(w', n);
    KindText(r);
    KindText(p);
    hide SetupOf, Reconcile, Goes, Setup.Valid, Respects, ImageOf, CheckActions, ActionOr;
    ToStartHas(w', w'.order, w'.services[n]);
    InStartOrder(w', n);
    LongText(r);
    if Idle(w', n) {
      assert n in w'.order && Idle(w', n);
    }
    OnlyName(w', n);
  }

  lemma LongText(p: Process)
    ensures ConfigOf(p).kind == Longrunning <==> KeptRunning(p)
  {
  }

  lemma InStartOrder(w: World, n: Name)
    requires Ordered(w) && n in w.services
    ensures n in w.order
  {
    assert n in Elems(w.order);
  }

  lemma OnlyName(w: World, n: Name)
    requires NamesPoint(w) && n in w.services
    ensures forall m :: m in w.services && w.services[m] == w.services[n] ==> m == n
  {
  }

  /**
    What a reload does to each configured service, in every run and from the text:
    it goes on with the same instance and pid if and only if it ran and its process
    is the same; it is started if and only if it is to be kept running and does not
    go on; and it is built from its new process, or the old one if it goes on, under
    the new policy.
   */
  lemma ReloadFollowsText(run: seq<State>, i: nat, t: nat, g': Shared, pc': Pc, spawn: seq<Pc>, s: Settings,
                          entrypointArgs: seq<string>, order: seq<Name>, k: nat, p: Process, q: Process)
    requires IsRun(run) && i < |run| && t < |run[i].threads| && k < |s.processes|
    requires run[i].threads[t] == RlHold(SetupOf(s, entrypointArgs, order))
    requires Act(run[i].g, t, run[i].threads[t], g', pc', spawn)
    requires var w, n := run[i].g.w, s.processes[k].EffectiveName(); w.Runs(n) ==> RunsAs(w, n, p, q)
    ensures var w, w', n := run[i].g.w, g'.w, s.processes[k].EffectiveName();
      var r := Effective(s, entrypointArgs, s.processes[k]);
      && (Goes(w, w', n) <==> w.Runs(n) && SameProcess(p, r))
      && n in w'.services && w'.services[n] < |w'.insts| && pc'.RlWait?
      && (w'.services[n] in pc'.toStart <==> KeptRunning(s.processes[k]) && !Goes(w, w', n))
      && BuiltFrom(w'.insts[w'.services[n]], if Goes(w, w', n) then p else r, r)
  {
    hide IsRun, Inv, Valid, SetupOf, Setup.Valid, BuiltFrom, Goes, SameProcess, Effective, Reconcile, Act, ToStart;
    hide KeptRunning, RunsAs;
    var g, c := run[i].g, SetupOf(s, entrypointArgs, order);
    InvAlways(run, i);
    HoldFacts(run[i], t);
    Theorems.ReloadStep(g, t, c, g', pc', spawn);
    ReloadTold(g, t, c, g', pc', spawn);
    ReloadStarts(g.w, s, entrypointArgs, order, k, p, q);
    ReloadBuilds(g.w, s, entrypointArgs, order, k, p, q);
    if g.w.Runs(s.processes[k].EffectiveName()) {
      ReloadGoes(g.w, s, entrypointArgs, order, k, p, q);
    } else {
      NotGoing(g.w, g'.w, s.processes[k].EffectiveName());
    }
  }

  lemma NotGoing(w: World, w': World, n: Name)
    requires !w.Runs(n)
    ensures !Goes(w, w', n)
  {
  }

  lemma ReloadTold(g: Shared, t: nat, c: Setup, g': Shared, pc': Pc, spawn: seq<Pc>)
    requires Act(g, t, RlHold(c), g', pc', spawn)
    ensures pc'.RlWait? && pc'.toStart == ToStart(g'.w, g'.w.order)
  {
    hide Reconcile, IsReplaced, ToStart;
  }
}
