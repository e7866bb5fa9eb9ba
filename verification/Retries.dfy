/**
  Port retries in whole runs. Each sync offers a workspace's services the next two ports; between two
  offers anything may happen, and syncs of other workspaces move the same counters. Still every service
  gets its port after as many healthy offers as there are ports held by others, and a few more.
*/
module Retries {
  import opened Wrappers
  import opened Naming
  import opened ObjectStore
  import opened Manifests
  import opened Workspaces
  import opened ClusterManagers
  import opened Pipeline
  import opened NodePorts
  import opened Agreement

  /** Where a service stands among the hub manifests. */
  function Position(toWork: bool): nat {
    if toWork then 3 else 2
  }

  /** Step `k` applies a service of the workspace, and the API server answers. */
  ghost predicate Offers(ss: seq<State>, ls: seq<Label>, org: string, ws: string, toWork: bool, k: nat) {
    && k < |ls| && k < |ss| && ls[k] == HubApply(org, Healthy) && Works(ss[k], org)
    && ss[k].controllers[org].work.ws == ws && ss[k].controllers[org].work.next == Position(toWork)
  }

  function OfferedPort(s: State, org: string, toWork: bool): nat
    requires org in s.controllers
  {
    if toWork then s.controllers[org].workPort else s.controllers[org].registrationPort
  }

  /** A sync in progress applies the objects rendered with the ports the counters stand at. */
  ghost predicate RenderedNow(c: HubController, org: string) {
    c.work.Applying? ==>
      exists kubeconfig :: c.work.ms == HubManifests(org, c.work.ws, kubeconfig, c.registrationPort, c.workPort)
  }

  /** The counters, and within one sync the number of manifests gone through, only move forward. */
  function Progress(c: HubController): nat {
    if c.work.Resting? then 6 else c.work.next
  }

  ghost predicate NotBefore(c: HubController, d: HubController) {
    c.registrationPort < d.registrationPort || (c.registrationPort == d.registrationPort && Progress(c) <= Progress(d))
  }

  ghost predicate ProgressOk(c: HubController, org: string) {
    RenderedNow(c, org) && (c.work.Applying? ==> c.work.next <= |c.work.ms|)
  }

  lemma BegunProgress(c: HubController, org: string, ws: string, seen: HubWorkspace, written: bool)
    requires ProgressOk(c, org)
    ensures var d := Begun(c, org, ws, seen, written); ProgressOk(d, org) && NotBefore(c, d)
  {
    var d := Begun(c, org, ws, seen, written);
    if d != c {
      assert d.work.ms == HubManifests(org, ws, seen.url, d.registrationPort, d.workPort);
    }
  }

  lemma OneMoreManifest(c: HubController, d: HubController, org: string, failed: bool)
    requires ProgressOk(c, org) && c.work.Applying? && c.work.next < |c.work.ms|
    requires d == c.(work := c.work.(next := c.work.next + 1, failed := failed))
    ensures ProgressOk(d, org) && c.registrationPort == d.registrationPort && Progress(c) < Progress(d)
  {
    var kubeconfig :| c.work.ms == HubManifests(org, c.work.ws, kubeconfig, c.registrationPort, c.workPort);
    assert d.work.ms == HubManifests(org, d.work.ws, kubeconfig, d.registrationPort, d.workPort);
  }

  lemma FinishedProgress(c: HubController, org: string, client: bool)
    requires ProgressOk(c, org) && c.work.Applying?
    ensures ProgressOk(Finished(c, client), org) && NotBefore(c, Finished(c, client))
  {
    var kubeconfig :| c.work.ms == HubManifests(org, c.work.ws, kubeconfig, c.registrationPort, c.workPort);
  }

  lemma AppliesOneMore(s: State, view: State, l: Label)
    requires l.HubApply? && Enabled(s, view, l)
    ensures var c := s.controllers[l.org];
      && l.org in Next(s, view, l).controllers
      && Next(s, view, l).controllers[l.org]
         == c.(work := c.work.(next := c.work.next + 1, failed := Next(s, view, l).controllers[l.org].work.failed))
  {}

  lemma ProgressStep(s: State, view: State, l: Label, org: string)
    requires Enabled(s, view, l) && s.controllers.Keys == s.organizations && org in s.controllers
    requires ProgressOk(s.controllers[org], org)
    ensures org in Next(s, view, l).controllers
    ensures var c, d := s.controllers[org], Next(s, view, l).controllers[org];
      && ProgressOk(d, org) && NotBefore(c, d)
      && (l.HubApply? && l.org == org ==> c.registrationPort == d.registrationPort && Progress(c) < Progress(d))
  {
    var c := s.controllers[org];
    if !Concerns(l, org) {
      Unconcerned(s, view, l, org);
    } else if l.HubBegin? {
      BegunProgress(c, org, l.ws, view.hubs[Pair(org, l.ws)], l.written);
    } else if l.HubApply? {
      AppliesOneMore(s, view, l);
      var d := Next(s, view, l).controllers[org];
      OneMoreManifest(c, d, org, d.work.failed);
    } else {
      FinishedProgress(c, org, l.client);
    }
  }

  lemma {:induction false} ProgressHolds(ss: seq<State>, ls: seq<Label>, org: string, k: nat)
    requires Run(ss, ls) && k < |ss| && org in ss[k].controllers
    ensures ProgressOk(ss[k].controllers[org], org)
  {
    assert k > 0;
    assert StepAt(ss, ls, k - 1);
    StartOnce(ss, ls, k - 1);
    if org in ss[k - 1].controllers {
      ProgressHolds(ss, ls, org, k - 1);
      ProgressStep(ss[k - 1], ss[Seen(ls[k - 1])], ls[k - 1], org);
    } else {
      OrganizationsStep(ss[k - 1], ss[Seen(ls[k - 1])], ls[k - 1]);
    }
  }

  lemma {:induction false} ProgressForward(ss: seq<State>, ls: seq<Label>, org: string, i: nat, j: nat)
    requires Run(ss, ls) && i <= j < |ss| && org in ss[i].controllers
    ensures org in ss[j].controllers && NotBefore(ss[i].controllers[org], ss[j].controllers[org])
  {
    if i < j {
      ProgressForward(ss, ls, org, i, j - 1);
      assert StepAt(ss, ls, j - 1);
      StartOnce(ss, ls, j - 1);
      ProgressHolds(ss, ls, org, j - 1);
      ProgressStep(ss[j - 1], ss[Seen(ls[j - 1])], ls[j - 1], org);
    }
  }

  /** A service is never offered the same port twice, whatever else its controller syncs in between. */
  lemma OffersIncrease(ss: seq<State>, ls: seq<Label>, org: string, ws: string, toWork: bool, i: nat, j: nat)
    requires Run(ss, ls) && i < j && Offers(ss, ls, org, ws, toWork, i) && Offers(ss, ls, org, ws, toWork, j)
    ensures OfferedPort(ss[i], org, toWork) < OfferedPort(ss[j], org, toWork)
  {
    assert StepAt(ss, ls, i);
    StartOnce(ss, ls, i);
    StartOnce(ss, ls, j);
    ProgressHolds(ss, ls, org, i);
    ProgressStep(ss[i], ss[Seen(ls[i])], ls[i], org);
    ProgressForward(ss, ls, org, i + 1, j);
    assert ControllerOk(ss[i].controllers[org]) && ControllerOk(ss[j].controllers[org]);
  }

  /** An offer is declined only when the port is taken, and then the service was not there before either. */
  lemma DeclinedIsTaken(ss: seq<State>, ls: seq<Label>, org: string, ws: string, toWork: bool, k: nat)
    requires Run(ss, ls) && Offers(ss, ls, org, ws, toWork, k) && InNodeRange(OfferedPort(ss[k], org, toWork))
    requires ServiceKey(ManagerName(org, ws), toWork) !in ss[k + 1].store
    ensures ServiceKey(ManagerName(org, ws), toWork) !in ss[k].store
    ensures OfferedPort(ss[k], org, toWork) in TakenPorts(ss[k].store)
  {
    assert StepAt(ss, ls, k);
    ProgressHolds(ss, ls, org, k);
    var c := ss[k].controllers[org];
    var kubeconfig :| c.work.ms == HubManifests(org, ws, kubeconfig, c.registrationPort, c.workPort);
    var m := ServiceManifest(ManagerName(org, ws), toWork, OfferedPort(ss[k], org, toWork));
    assert c.work.ms[c.work.next] == m;
    ApplyOneKeeps(ss[k].store, m, Healthy);
  }

  lemma {:induction false} NoRepeatsFit(ports: seq<nat>, s: set<nat>)
    requires NoRepeats(ports) && forall i | 0 <= i < |ports| :: ports[i] in s
    ensures |ports| <= |s|
  {
    if |ports| > 0 {
      var front, last := ports[..|ports| - 1], ports[|ports| - 1];
      NoRepeatsFit(front, s - {last});
    }
  }

  /** Several offers to one service, in the order of the run and within the node port range. */
  ghost predicate OffersAt(ss: seq<State>, ls: seq<Label>, org: string, ws: string, toWork: bool, ks: seq<nat>) {
    && (forall i, j | 0 <= i < j < |ks| :: ks[i] < ks[j])
    && forall i | 0 <= i < |ks| :: Offers(ss, ls, org, ws, toWork, ks[i]) && InNodeRange(OfferedPort(ss[ks[i]], org, toWork))
  }

  /** One offer more than others hold ports, and one of the offers was good: the service was there right after it. */
  lemma ServiceGranted(ss: seq<State>, ls: seq<Label>, org: string, ws: string, toWork: bool, others: set<nat>, ks: seq<nat>)
    requires Run(ss, ls) && OffersAt(ss, ls, org, ws, toWork, ks) && |ks| > |others|
    requires forall i | 0 <= i < |ks| && ServiceKey(ManagerName(org, ws), toWork) !in ss[ks[i]].store :: TakenPorts(ss[ks[i]].store) <= others
    ensures exists i :: 0 <= i < |ks| && ServiceKey(ManagerName(org, ws), toWork) in ss[ks[i] + 1].store
  {
    var key := ServiceKey(ManagerName(org, ws), toWork);
    if forall i | 0 <= i < |ks| :: key !in ss[ks[i] + 1].store {
      var ports := seq(|ks|, i requires 0 <= i < |ks| => OfferedPort(ss[ks[i]], org, toWork));
      forall i | 0 <= i < |ks| ensures ports[i] in others {
        DeclinedIsTaken(ss, ls, org, ws, toWork, ks[i]);
      }
      forall i, j | 0 <= i < j < |ks| ensures ports[i] != ports[j] {
        OffersIncrease(ss, ls, org, ws, toWork, ks[i], ks[j]);
      }
      NoRepeatsFit(ports, others);
    }
  }

  /** Nothing but services is ever stored under the name of a service. */
  ghost predicate ServicesOnly(ss: seq<State>, key: Key) {
    forall k | 0 <= k < |ss| && key in ss[k].store :: ss[k].store[key].ServiceBody?
  }

  /** The port a service holds, if it is there. */
  function PortOf(store: Store, key: Key): Option<nat> {
    if key in store && store[key].ServiceBody? then Some(store[key].nodePort) else None
  }

  /** Apart from the workspace's own two services, nobody holds a port outside `others` when an offer is made. */
  ghost predicate OthersHold(ss: seq<State>, org: string, ws: string, others: set<nat>, ks: seq<nat>) {
    forall i | 0 <= i < |ks| && ks[i] < |ss| :: OthersHoldAt(ss[ks[i]].store, org, ws, others)
  }

  ghost predicate OthersHoldAt(store: Store, org: string, ws: string, others: set<nat>) {
    var m := ManagerName(org, ws);
    TakenPorts(store) <= others + Ports(PortOf(store, ServiceKey(m, false))) + Ports(PortOf(store, ServiceKey(m, true)))
  }

  /** While a service is missing, what is taken is held by the others, or by its sibling for good. */
  lemma HeldWhileMissing(ss: seq<State>, ls: seq<Label>, org: string, ws: string, toWork: bool, others: set<nat>, k: nat)
    requires ServiceLeft(ss, ls, ServiceKey(ManagerName(org, ws), !toWork)) && k < |ss| && OthersHoldAt(ss[k].store, org, ws, others)
    requires ServiceKey(ManagerName(org, ws), toWork) !in ss[k].store
    ensures TakenPorts(ss[k].store) <= others + Ports(PortOf(ss[|ls|].store, ServiceKey(ManagerName(org, ws), !toWork)))
  {
    ServiceKeptInRun(ss, ls, ServiceKey(ManagerName(org, ws), !toWork), k, |ls|);
  }

  /** One of the offers was good, whichever port the sibling holds in the end. */
  lemma GrantedOnce(ss: seq<State>, ls: seq<Label>, org: string, ws: string, toWork: bool, others: set<nat>, ks: seq<nat>)
    returns (i: nat)
    requires ServiceLeft(ss, ls, ServiceKey(ManagerName(org, ws), !toWork)) && OthersHold(ss, org, ws, others, ks)
    requires OffersAt(ss, ls, org, ws, toWork, ks) && |ks| == |others| + 2
    ensures i < |ks| && ks[i] + 1 < |ss| && ServiceKey(ManagerName(org, ws), toWork) in ss[ks[i] + 1].store
  {
    var sibling := PortOf(ss[|ls|].store, ServiceKey(ManagerName(org, ws), !toWork));
    AddsAtMostOne(others, sibling);
    forall i | 0 <= i < |ks| && ServiceKey(ManagerName(org, ws), toWork) !in ss[ks[i]].store
      ensures TakenPorts(ss[ks[i]].store) <= others + Ports(sibling)
    {
      HeldWhileMissing(ss, ls, org, ws, toWork, others, ks[i]);
    }
    ServiceGranted(ss, ls, org, ws, toWork, others + Ports(sibling), ks);
    i :| 0 <= i < |ks| && ServiceKey(ManagerName(org, ws), toWork) in ss[ks[i] + 1].store;
  }

  lemma HoldPart(ss: seq<State>, org: string, ws: string, others: set<nat>, rs: seq<nat>, qs: seq<nat>)
    requires OthersHold(ss, org, ws, others, rs + qs)
    ensures OthersHold(ss, org, ws, others, rs) && OthersHold(ss, org, ws, others, qs)
  {
    assert forall i | 0 <= i < |rs| :: (rs + qs)[i] == rs[i];
    assert forall i | 0 <= i < |qs| :: (rs + qs)[|rs| + i] == qs[i];
  }

  lemma GrantedForGood(ss: seq<State>, ls: seq<Label>, key: Key, k: nat, j: nat)
    requires ServiceLeft(ss, ls, key) && ServicesOnly(ss, key) && k <= j < |ss| && key in ss[k].store
    ensures key in ss[j].store
  {
    ServiceKeptInRun(ss, ls, key, k, j);
  }

  /**
    The retry ends in every run in which the workspace's own two services, once there, are left alone: once both
    have been offered ports as many times as others ever hold ports, and twice more, both are there and stay,
    whatever happened between the offers.
  */
  lemma BothServicesGranted(ss: seq<State>, ls: seq<Label>, org: string, ws: string, others: set<nat>, rs: seq<nat>, qs: seq<nat>, j: nat)
    requires var m := ManagerName(org, ws);
      forall toWork :: ServiceLeft(ss, ls, ServiceKey(m, toWork)) && ServicesOnly(ss, ServiceKey(m, toWork))
    requires OthersHold(ss, org, ws, others, rs + qs)
    requires OffersAt(ss, ls, org, ws, false, rs) && OffersAt(ss, ls, org, ws, true, qs)
    requires |rs| == |qs| == |others| + 2
    requires rs[|rs| - 1] < j < |ss| && qs[|qs| - 1] < j
    ensures forall toWork :: ServiceKey(ManagerName(org, ws), toWork) in ss[j].store
  {
    var m := ManagerName(org, ws);
    assert ServiceLeft(ss, ls, ServiceKey(m, false)) && ServiceLeft(ss, ls, ServiceKey(m, true));
    HoldPart(ss, org, ws, others, rs, qs);
    var i := GrantedOnce(ss, ls, org, ws, false, others, rs);
    GrantedForGood(ss, ls, ServiceKey(m, false), rs[i] + 1, j);
    i := GrantedOnce(ss, ls, org, ws, true, others, qs);
    GrantedForGood(ss, ls, ServiceKey(m, true), qs[i] + 1, j);
  }
}
