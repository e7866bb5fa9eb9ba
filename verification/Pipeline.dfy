/**
  The provisioning pipeline as one state machine over all controllers.

  A sync is cut into its API calls, so anything may happen between two of them: other controllers
  act, writes fail, and everyone else changes workspaces, objects and clusters at will. A controller
  reads its informer at any lag: what it sees is the version of some earlier state.
*/
module Pipeline {
  import opened Conditions
  import opened Naming
  import opened ObjectStore
  import opened Manifests
  import opened Workspaces
  import opened ClusterManagers

  /** Where a hub controller is in its sync: which workspace, what its copy said, how far the manifests are. */
  datatype HubWork = Resting | Applying(ws: string, applied: bool, ms: seq<Manifest>, next: nat, failed: bool)

  datatype HubController = HubController(
    registrationPort: nat, workPort: nat, controllers: set<string>, launched: seq<string>, work: HubWork)

  /** What a sync of a manager has read so far: the CA bundle first, then the two services, in three calls. */
  datatype Found = NothingYet | Bundle(caBundle: string) | BundleAndPort(caBundle: string, port: nat)

  /** Where the cluster manager controller is in its sync. */
  datatype ManagerWork =
    | Idle
    | Reading(manager: string, plan: Plan, found: Found)
    | Hooking(manager: string, plan: Plan, ms: seq<Manifest>, next: nat, failed: bool)
    | Updating(plan: Plan)

  datatype State = State(
    orgs: map<string, OrgWorkspace>,
    hubs: map<Pair, HubWorkspace>,
    store: Store,
    clusters: map<string, Store>,
    hosts: Hosts,
    organizations: set<string>,
    launched: seq<string>,
    controllers: map<string, HubController>,
    manager: ManagerWork)

  datatype Label =
    | Environment(orgs: map<string, OrgWorkspace>, hubs: map<Pair, HubWorkspace>, store: Store, clusters: map<string, Store>)
    | OrgSync(org: string, seen: nat, client: bool)
    | HubBegin(org: string, ws: string, seen: nat, written: bool)
    | HubApply(org: string, fate: Fate)
    | HubFinish(org: string, client: bool)
    | ManagerBegin(name: string, seen: nat)
    | ManagerRead(client: bool)
    | ManagerHook(fate: Fate)
    | ManagerHooked
    | ManagerUpdate(now: int, luck: Luck)

  /** The state whose version of an object the label's informer shows. */
  function Seen(l: Label): nat {
    match l
    case OrgSync(_, seen, _) => seen
    case HubBegin(_, _, seen, _) => seen
    case ManagerBegin(_, seen) => seen
    case _ => 0
  }

  /** The process has just started, for the first time or again; the servers may hold anything. */
  predicate Initial(s: State) {
    s.organizations == {} && s.launched == [] && s.controllers == map[] && s.manager == Idle
  }

  const NEW_CONTROLLER := HubController(FIRST_REGISTRATION_PORT, FIRST_WORK_PORT, {}, [], Resting)

  predicate Works(s: State, org: string) {
    org in s.controllers && s.controllers[org].work.Applying?
  }

  predicate Enabled(s: State, view: State, l: Label) {
    match l
    case Environment(_, _, _, _) => true
    case OrgSync(org, _, _) => org in view.orgs
    case HubBegin(org, ws, _, _) =>
      org in s.controllers && s.controllers[org].work.Resting? && Pair(org, ws) in view.hubs && view.hubs[Pair(org, ws)].labelled
    case HubApply(org, _) => Works(s, org) && s.controllers[org].work.next < |s.controllers[org].work.ms|
    case HubFinish(org, _) => Works(s, org) && s.controllers[org].work.next == |s.controllers[org].work.ms|
    case ManagerBegin(name, _) =>
      && s.manager.Idle? && HasPrefix(name, MANAGER_PREFIX)
      && ManagerKey(name) in view.store && view.store[ManagerKey(name)].ManagerBody?
    case ManagerRead(_) => s.manager.Reading?
    case ManagerHook(_) => s.manager.Hooking? && s.manager.plan.Proceed? && s.manager.next < |s.manager.ms|
    case ManagerHooked => s.manager.Hooking? && s.manager.next == |s.manager.ms|
    case ManagerUpdate(_, _) => s.manager.Updating? && s.manager.plan.Proceed?
  }

  function WithController(s: State, org: string, c: HubController): State {
    s.(controllers := s.controllers[org := c])
  }

  function OrgSynced(s: State, org: string, seen: OrgWorkspace, client: bool): State {
    if !OrgReady(seen) || org in s.organizations || !client then s
    else WithController(s, org, NEW_CONTROLLER).(organizations := s.organizations + {org}, launched := s.launched + [org])
  }

  /** Both counters move before anything is applied, but after the kubeconfig is written. */
  function Begun(c: HubController, org: string, ws: string, seen: HubWorkspace, written: bool): HubController {
    if seen.phase != READY || !written then c
    else
      c.(registrationPort := c.registrationPort + 1, workPort := c.workPort + 1,
         work := Applying(ws, ManagerApplied(seen),
                          HubManifests(org, ws, seen.url, c.registrationPort + 1, c.workPort + 1), 0, false))
  }

  function Finished(c: HubController, client: bool): HubController
    requires c.work.Applying?
  {
    var ws := c.work.ws;
    if c.work.failed || !c.work.applied || ws in c.controllers || !client then c.(work := Resting)
    else c.(controllers := c.controllers + {ws}, launched := c.launched + [ws], work := Resting)
  }

  /** The objects of a logical cluster; there are none in one that does not exist. */
  function Inside(clusters: map<string, Store>, id: string): Store {
    if id in clusters then clusters[id] else map[]
  }

  /** One apply inside a logical cluster; nothing can be applied in one that does not exist. */
  function ApplyInside(clusters: map<string, Store>, id: string, m: Manifest, fate: Fate): Applied {
    if id in clusters then ApplyOne(clusters[id], m, fate) else Applied(map[], m.Unhandled?)
  }

  function WithCluster(clusters: map<string, Store>, id: string, store: Store): map<string, Store> {
    if id in clusters then clusters[id := store] else clusters
  }

  function Planned(name: string, body: Body): ManagerWork
    requires body.ManagerBody?
  {
    var plan := PlanFor(body.annotation, body.conditions);
    if !plan.Proceed? then Idle
    else if plan.condition.status == IsFalse then Updating(plan)
    else Reading(name, plan, NothingYet)
  }

  /** The next of the three reads; after the last the client is made and the webhooks are rendered. */
  function ReadOn(store: Store, hosts: Hosts, m: ManagerWork, client: bool): ManagerWork
    requires m.Reading?
  {
    match m.found
    case NothingYet =>
      if BundleThere(store, m.manager) then m.(found := Bundle(store[CaBundle(m.manager)].bundle.value)) else Idle
    case Bundle(caBundle) =>
      if ServiceThere(store, m.manager, false)
      then m.(found := BundleAndPort(caBundle, store[ServiceKey(m.manager, false)].nodePort)) else Idle
    case BundleAndPort(caBundle, port) =>
      if ServiceThere(store, m.manager, true) && client
      then Hooking(m.manager, m.plan,
                   WebhookManifests(hosts, caBundle, port, store[ServiceKey(m.manager, true)].nodePort), 0, false)
      else Idle
  }

  /** The hub controller applies its next manifest. */
  function HubApplied(s: State, org: string, fate: Fate): State
    requires Works(s, org) && s.controllers[org].work.next < |s.controllers[org].work.ms|
  {
    var c := s.controllers[org];
    var a := ApplyOne(s.store, c.work.ms[c.work.next], fate);
    WithController(s, org, c.(work := c.work.(next := c.work.next + 1, failed := c.work.failed || !a.ok))).(store := a.store)
  }

  /** The cluster manager controller applies its next webhook. */
  function HookApplied(s: State, fate: Fate): State
    requires s.manager.Hooking? && s.manager.plan.Proceed? && s.manager.next < |s.manager.ms|
  {
    var m := s.manager;
    var a := ApplyInside(s.clusters, m.plan.id, m.ms[m.next], fate);
    s.(clusters := WithCluster(s.clusters, m.plan.id, a.store), manager := m.(next := m.next + 1, failed := m.failed || !a.ok))
  }

  function Next(s: State, view: State, l: Label): State
    requires Enabled(s, view, l)
  {
    match l
    case Environment(orgs, hubs, store, clusters) => s.(orgs := orgs, hubs := hubs, store := store, clusters := clusters)
    case OrgSync(org, _, client) => OrgSynced(s, org, view.orgs[org], client)
    case HubBegin(org, ws, _, written) =>
      WithController(s, org, Begun(s.controllers[org], org, ws, view.hubs[Pair(org, ws)], written))
    case HubApply(org, fate) => HubApplied(s, org, fate)
    case HubFinish(org, client) => WithController(s, org, Finished(s.controllers[org], client))
    case ManagerBegin(name, _) => s.(manager := Planned(name, view.store[ManagerKey(name)]))
    case ManagerRead(client) => s.(manager := ReadOn(s.store, s.hosts, s.manager, client))
    case ManagerHook(fate) => HookApplied(s, fate)
    case ManagerHooked => s.(manager := if s.manager.failed then Idle else Updating(s.manager.plan))
    case ManagerUpdate(now, luck) =>
      s.(hubs := StatusUpdate(s.hubs, s.manager.plan.pair, s.manager.plan.condition, now, luck).workspaces, manager := Idle)
  }

  ghost predicate StepAt(ss: seq<State>, ls: seq<Label>, k: nat)
    requires k < |ls| && |ss| == |ls| + 1
  {
    var seen := Seen(ls[k]);
    seen <= k && Enabled(ss[k], ss[seen], ls[k]) && ss[k + 1] == Next(ss[k], ss[seen], ls[k])
  }

  ghost predicate Run(ss: seq<State>, ls: seq<Label>) {
    |ss| == |ls| + 1 && Initial(ss[0]) && forall k: nat | k < |ls| :: StepAt(ss, ls, k)
  }

  // ---------------------------------------------------------------- start once, and the counters

  ghost predicate ControllerOk(c: HubController) {
    && StartedOnce(c.controllers, c.launched)
    && c.workPort == c.registrationPort + 10 && c.registrationPort >= FIRST_REGISTRATION_PORT
  }

  ghost predicate Bookkeeping(s: State) {
    && StartedOnce(s.organizations, s.launched) && s.controllers.Keys == s.organizations
    && forall org | org in s.controllers :: ControllerOk(s.controllers[org])
  }

  /** What a step may do to one hub controller. */
  ghost predicate Advances(c: HubController, d: HubController) {
    && (ControllerOk(c) ==> ControllerOk(d))
    && c.controllers <= d.controllers && c.launched <= d.launched
    && c.registrationPort <= d.registrationPort
  }

  /** The step is one of this organization's hub controller. */
  predicate Concerns(l: Label, org: string) {
    (l.HubBegin? || l.HubApply? || l.HubFinish?) && l.org == org
  }

  lemma Unconcerned(s: State, view: State, l: Label, org: string)
    requires Enabled(s, view, l) && s.controllers.Keys == s.organizations && org in s.controllers && !Concerns(l, org)
    ensures org in Next(s, view, l).controllers && Next(s, view, l).controllers[org] == s.controllers[org]
  {}

  lemma BegunAdvances(c: HubController, org: string, ws: string, seen: HubWorkspace, written: bool)
    ensures Advances(c, Begun(c, org, ws, seen, written))
  {}

  lemma FinishedAdvances(c: HubController, client: bool)
    requires c.work.Applying?
    ensures Advances(c, Finished(c, client))
  {
    if c.work.ws !in c.controllers && ControllerOk(c) {
      LaunchOneMore(c.controllers, c.launched, c.work.ws);
    }
  }

  lemma ControllerAdvances(s: State, view: State, l: Label, org: string)
    requires Enabled(s, view, l) && s.controllers.Keys == s.organizations && org in s.controllers
    ensures org in Next(s, view, l).controllers && Advances(s.controllers[org], Next(s, view, l).controllers[org])
  {
    if !Concerns(l, org) {
      Unconcerned(s, view, l, org);
    } else if l.HubBegin? {
      BegunAdvances(s.controllers[org], org, l.ws, view.hubs[Pair(org, l.ws)], l.written);
    } else if l.HubFinish? {
      FinishedAdvances(s.controllers[org], l.client);
    }
  }

  /** The organizations grow by one fresh name at a time, and only in an organization's sync. */
  lemma OrganizationsStep(s: State, view: State, l: Label)
    requires Enabled(s, view, l) && s.controllers.Keys == s.organizations
    ensures var t := Next(s, view, l);
      || (t.organizations == s.organizations && t.launched == s.launched && t.controllers.Keys == s.controllers.Keys)
      || (&& l.OrgSync? && l.org !in s.organizations
          && t.organizations == s.organizations + {l.org} && t.launched == s.launched + [l.org]
          && t.controllers == s.controllers[l.org := NEW_CONTROLLER])
  {
    assert l.HubBegin? || l.HubApply? || l.HubFinish? ==> l.org in s.controllers;
  }

  lemma BookkeepingStep(s: State, view: State, l: Label)
    requires Enabled(s, view, l) && Bookkeeping(s)
    ensures Bookkeeping(Next(s, view, l))
    ensures s.organizations <= Next(s, view, l).organizations && s.launched <= Next(s, view, l).launched
  {
    var t := Next(s, view, l);
    forall org | org in s.controllers ensures org in t.controllers && ControllerOk(t.controllers[org]) {
      ControllerAdvances(s, view, l, org);
    }
    OrganizationsStep(s, view, l);
    if t.organizations != s.organizations {
      LaunchOneMore(s.organizations, s.launched, l.org);
    }
  }

  /** In every run each name is started at most once, and the started names are exactly the recorded ones. */
  lemma {:induction false} StartOnce(ss: seq<State>, ls: seq<Label>, k: nat)
    requires Run(ss, ls) && k < |ss|
    ensures Bookkeeping(ss[k])
  {
    if k > 0 {
      StartOnce(ss, ls, k - 1);
      assert StepAt(ss, ls, k - 1);
      BookkeepingStep(ss[k - 1], ss[Seen(ls[k - 1])], ls[k - 1]);
    }
  }

  /** What was started stays started, in the order it was. */
  lemma {:induction false} StartedStays(ss: seq<State>, ls: seq<Label>, i: nat, j: nat)
    requires Run(ss, ls) && i <= j < |ss|
    ensures ss[i].launched <= ss[j].launched && ss[i].organizations <= ss[j].organizations
    ensures forall org | org in ss[i].controllers ::
      org in ss[j].controllers && Advances(ss[i].controllers[org], ss[j].controllers[org])
  {
    if i < j {
      StartedStays(ss, ls, i, j - 1);
      StartOnce(ss, ls, j - 1);
      assert StepAt(ss, ls, j - 1);
      BookkeepingStep(ss[j - 1], ss[Seen(ls[j - 1])], ls[j - 1]);
      forall org | org in ss[i].controllers
        ensures org in ss[j].controllers && Advances(ss[i].controllers[org], ss[j].controllers[org])
      {
        ControllerAdvances(ss[j - 1], ss[Seen(ls[j - 1])], ls[j - 1], org);
      }
    }
  }

  // ---------------------------------------------------------------- the proposed ports

  /** Step `k` begins a sync that proposes two ports. */
  ghost predicate Proposes(ss: seq<State>, ls: seq<Label>, org: string, k: nat) {
    k < |ls| && k + 1 < |ss| && ls[k].HubBegin? && ls[k].org == org && Works(ss[k + 1], org)
  }

  /** How many syncs of the organization's controller have proposed ports before step `k`. */
  ghost function Proposals(ss: seq<State>, ls: seq<Label>, org: string, k: nat): nat {
    if k == 0 then 0 else Proposals(ss, ls, org, k - 1) + (if Proposes(ss, ls, org, k - 1) then 1 else 0)
  }

  lemma CountersStep(s: State, view: State, l: Label, org: string)
    requires Enabled(s, view, l) && s.controllers.Keys == s.organizations && org in s.controllers
    ensures org in Next(s, view, l).controllers
    ensures var c, d := s.controllers[org], Next(s, view, l).controllers[org];
      var n := if l.HubBegin? && l.org == org && Works(Next(s, view, l), org) then 1 else 0;
      d.registrationPort == c.registrationPort + n && d.workPort == c.workPort + n
  {
    if !Concerns(l, org) {
      Unconcerned(s, view, l, org);
    }
  }

  /** The counters stand exactly where the number of proposing syncs puts them. */
  lemma {:induction false} CountersExactly(ss: seq<State>, ls: seq<Label>, org: string, k: nat)
    requires Run(ss, ls) && k < |ss|
    ensures org !in ss[k].controllers ==> Proposals(ss, ls, org, k) == 0
    ensures org in ss[k].controllers ==>
      var c := ss[k].controllers[org]; (c.registrationPort, c.workPort) == Proposal(Proposals(ss, ls, org, k))
  {
    if k > 0 {
      CountersExactly(ss, ls, org, k - 1);
      assert StepAt(ss, ls, k - 1);
      StartOnce(ss, ls, k - 1);
      var s, view, l := ss[k - 1], ss[Seen(ls[k - 1])], ls[k - 1];
      if org in s.controllers {
        CountersStep(s, view, l, org);
      } else {
        OrganizationsStep(s, view, l);
      }
    }
  }

  lemma {:induction false} ProposalsGrow(ss: seq<State>, ls: seq<Label>, org: string, i: nat, j: nat)
    requires i <= j
    ensures Proposals(ss, ls, org, i) <= Proposals(ss, ls, org, j)
  {
    if i < j {
      ProposalsGrow(ss, ls, org, i, j - 1);
    }
  }

  /**
    In every run no two syncs propose the same registration port, and a registration port meets the work port
    of another sync exactly when ten syncs of that controller lie between them.
  */
  lemma RunProposalsMeet(ss: seq<State>, ls: seq<Label>, org: string, i: nat, j: nat)
    requires Run(ss, ls) && Proposes(ss, ls, org, i) && Proposes(ss, ls, org, j)
    ensures var c, d := ss[i + 1].controllers[org], ss[j + 1].controllers[org];
      && (c.registrationPort == d.registrationPort <==> i == j)
      && (c.registrationPort == d.workPort <==> Proposals(ss, ls, org, i) == Proposals(ss, ls, org, j) + 10)
  {
    CountersExactly(ss, ls, org, i + 1);
    CountersExactly(ss, ls, org, j + 1);
    if i < j {
      ProposalsGrow(ss, ls, org, i + 1, j);
    } else if j < i {
      ProposalsGrow(ss, ls, org, j + 1, i);
    }
  }
}
