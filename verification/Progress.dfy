/**
  End-to-end progress: from every reachable state with a ready organization, a labelled and ready workspace
  and a manager that was reported on, the controllers can get all the way. One failure-free sync of the
  organization, of the manager and of the workspace, in that order, launches the workspace's controllers.
*/
module Progress {
  import opened Conditions
  import opened Naming
  import opened ObjectStore
  import opened Manifests
  import opened Workspaces
  import opened ClusterManagers
  import opened Pipeline
  import opened Causality
  import opened Convergence
  import opened Syncs

  // ---------------------------------------------------------------- a healthy pass succeeds

  /** An apply of the manifest is not refused: what exists is of its kind, and a service exists. */
  predicate Fits(store: Store, m: Manifest) {
    m.Manifest? ==> if m.key in store then SameKind(store[m.key], m.body) else !m.body.ServiceBody?
  }

  /** On a healthy server every manifest of the pass succeeds. */
  lemma HealthyPassSucceeds(store: Store, ms: seq<Manifest>, fates: seq<Fate>)
    requires |ms| == |fates| && DistinctKeys(ms)
    requires forall i | 0 <= i < |ms| :: fates[i] == Healthy && Fits(store, ms[i])
    ensures AllSucceed(store, ms, fates)
  {
    forall i: nat | i < |ms| ensures Succeeds(store, ms, fates, i) {
      if ms[i].Manifest? {
        OthersLeave(store, ms, fates, 0, i, ms[i].key);
      }
    }
  }

  const HEALTHY_HOOKS: seq<Fate> := [Healthy, Healthy, Healthy, Healthy]
  const LUCKY := Luck(true, HEALTHY_HOOKS, true, true, true)

  // ---------------------------------------------------------------- the starting point

  /** Everything the chain needs is there, and nobody is in the middle of a sync of the pair. */
  ghost predicate Prepared(s: State, p: Pair) {
    var m := ManagerName(p.org, p.ws);
    && SEPARATOR !in p.org && SEPARATOR !in p.ws
    && s.manager.Idle? && (p.org in s.controllers ==> s.controllers[p.org].work.Resting?)
    && OrgWanted(s, p.org) && p in s.hubs && s.hubs[p].labelled && s.hubs[p].phase == "Ready"
    && ManagerKey(m) in s.store && ReportedOn(s.store[ManagerKey(m)], WorkspaceId(p.org, p.ws))
    && HubFits(s.store, m) && WebhookInputs(s.store, m)
    && WorkspaceId(p.org, p.ws) in s.clusters && HooksFit(s.clusters[WorkspaceId(p.org, p.ws)])
  }

  /** What bears the name of the namespace or of the secret is one. */
  predicate HubFits(store: Store, m: string) {
    && (NamespaceManifest(m).key in store ==> store[NamespaceManifest(m).key].NamespaceBody?)
    && (KubeconfigSecret(m) in store ==> store[KubeconfigSecret(m)].SecretBody?)
  }

  /** What bears the name of a webhook configuration is one. */
  predicate HooksFit(cluster: Store) {
    forall i | 0 <= i < |WEBHOOKS| && WEBHOOKS[i].key in cluster :: cluster[WEBHOOKS[i].key].WebhookBody?
  }

  lemma HubPassSucceeds(store: Store, p: Pair, kubeconfig: string, r: nat, w: nat)
    requires var m := ManagerName(p.org, p.ws);
      HubFits(store, m) && WebhookInputs(store, m) && ManagerKey(m) in store && store[ManagerKey(m)].ManagerBody?
    ensures AllSucceed(store, HubManifests(p.org, p.ws, kubeconfig, r, w), ALL_HEALTHY)
  {
    HubKeysDistinct(p.org, p.ws, kubeconfig, r, w);
    HealthyPassSucceeds(store, HubManifests(p.org, p.ws, kubeconfig, r, w), ALL_HEALTHY);
  }

  lemma HookPassSucceeds(cluster: Store, hosts: Hosts, hub: Store, m: string)
    requires HooksFit(cluster) && WebhookInputs(hub, m)
    ensures AllSucceed(cluster, WebhooksFor(hosts, hub, m), HEALTHY_HOOKS)
  {
    var ms := WebhooksFor(hosts, hub, m);
    forall i, j | 0 <= i < j < |ms| ensures ms[i].key != ms[j].key {
      WebhookKeysDistinct(i, j);
    }
    HealthyPassSucceeds(cluster, ms, HEALTHY_HOOKS);
  }

  // ---------------------------------------------------------------- the three syncs

  /** The hub's side of what is prepared, with a hub controller at rest. */
  ghost predicate HubSide(s: State, p: Pair) {
    var m := ManagerName(p.org, p.ws);
    && p.org in s.controllers && s.controllers[p.org].work.Resting?
    && p in s.hubs && s.hubs[p].labelled && s.hubs[p].phase == "Ready"
    && ManagerKey(m) in s.store && s.store[ManagerKey(m)].ManagerBody?
    && HubFits(s.store, m) && WebhookInputs(s.store, m)
  }

  /** The organization's sync leaves a hub controller behind that is at rest. */
  lemma OrgSyncPrepares(s: State, p: Pair)
    requires Bookkeeping(s) && Prepared(s, p)
    ensures var t := OrgSynced(s, p.org, s.orgs[p.org], true);
      Prepared(t, p) && HubSide(t, p)
  {}

  /** A sync of the pair's manager is about to go through the webhooks. */
  ghost predicate Underway(s: State, p: Pair) {
    && HubSide(s, p)
    && ReadyToRead(s) && s.manager.manager == ManagerName(p.org, p.ws)
    && s.manager.plan.pair == p && s.manager.plan.id == WorkspaceId(p.org, p.ws)
    && s.manager.plan.condition.ctype == CLUSTER_MANAGER_APPLIED && s.manager.plan.condition.status == IsTrue
    && WorkspaceId(p.org, p.ws) in s.clusters && HooksFit(s.clusters[WorkspaceId(p.org, p.ws)])
  }

  lemma ManagerPlanned(s: State, p: Pair)
    requires Prepared(s, p) && HubSide(s, p)
    ensures Underway(s.(manager := Planned(ManagerName(p.org, p.ws), s.store[ManagerKey(ManagerName(p.org, p.ws))])), p)
  {
    var body := s.store[ManagerKey(ManagerName(p.org, p.ws))];
    assert p == Pair(p.org, p.ws);
    PlanMeaning(body.annotation, body.conditions);
  }

  /** A healthy sync of the manager marks the workspace, and leaves everything else of it and the hub as it was. */
  lemma ManagerSyncMarks(s: State, p: Pair, now: int)
    requires Underway(s, p)
    ensures var t := HookSync(s, HEALTHY_HOOKS, now, LUCKY); HubSide(t, p) && ManagerApplied(t.hubs[p])
  {
    UndisturbedManagerSync(s, HEALTHY_HOOKS, now, LUCKY);
    HookPassSucceeds(s.clusters[WorkspaceId(p.org, p.ws)], s.hosts, s.store, s.manager.manager);
    SecondUpdateWritesNothing(s.hubs, p, s.manager.plan.condition, now, LUCKY, now, LUCKY);
  }

  /** A healthy sync of the marked workspace launches its controllers, or finds them launched. */
  lemma HubSyncLaunches(s: State, p: Pair)
    requires Bookkeeping(s) && HubSide(s, p) && ManagerApplied(s.hubs[p])
    ensures Runs(HubSync(s, p.org, s.hubs[p], p.ws, ALL_HEALTHY, true), p)
  {
    var c := s.controllers[p.org];
    assert ControllerOk(c);
    HubPassSucceeds(s.store, p, s.hubs[p].url, c.registrationPort + 1, c.workPort + 1);
    UndisturbedHubSync(s, p.org, s.hubs[p], p.ws, ALL_HEALTHY, true);
  }

  // ---------------------------------------------------------------- as steps of a run

  lemma ExtendRun(ss: seq<State>, ls: seq<Label>, l: Label) returns (ss': seq<State>, ls': seq<Label>)
    requires Run(ss, ls) && Seen(l) <= |ls| && Enabled(ss[|ls|], ss[Seen(l)], l)
    ensures Run(ss', ls') && ls <= ls' && |ls'| == |ls| + 1
    ensures ss'[|ls'|] == Next(ss[|ls|], ss[Seen(l)], l)
  {
    ss', ls' := ss + [Next(ss[|ls|], ss[Seen(l)], l)], ls + [l];
    forall k: nat | k < |ls'| ensures StepAt(ss', ls', k) {
      assert k < |ls| ==> StepAt(ss, ls, k);
    }
  }

  /** A step that looks at no informer is the same whatever it is shown. */
  lemma NoView(s: State, view: State, l: Label)
    requires l.HubApply? || l.HubFinish? || l.ManagerRead? || l.ManagerHook? || l.ManagerHooked? || l.ManagerUpdate?
    requires Enabled(s, s, l)
    ensures Enabled(s, view, l) && Next(s, view, l) == Next(s, s, l)
  {}

  lemma ExtendBlind(ss: seq<State>, ls: seq<Label>, l: Label) returns (ss': seq<State>, ls': seq<Label>)
    requires l.HubApply? || l.HubFinish? || l.ManagerRead? || l.ManagerHook? || l.ManagerHooked? || l.ManagerUpdate?
    requires Run(ss, ls) && Enabled(ss[|ls|], ss[|ls|], l)
    ensures Run(ss', ls') && ls <= ls' && ss'[|ls'|] == Next(ss[|ls|], ss[|ls|], l)
  {
    NoView(ss[|ls|], ss[0], l);
    ss', ls' := ExtendRun(ss, ls, l);
  }

  lemma {:induction false} ExtendByHooks(ss: seq<State>, ls: seq<Label>, fates: seq<Fate>, n: nat)
    returns (ss': seq<State>, ls': seq<Label>)
    requires Run(ss, ls) && ss[|ls|].manager.Hooking? && ss[|ls|].manager.plan.Proceed? && ss[|ls|].manager.next == 0
    requires n <= |ss[|ls|].manager.ms| == |fates|
    ensures Run(ss', ls') && ls <= ls' && ss'[|ls'|] == HookSteps(ss[|ls|], fates, n)
  {
    if n == 0 {
      ss', ls' := ss, ls;
    } else {
      ss', ls' := ExtendByHooks(ss, ls, fates, n - 1);
      ss', ls' := ExtendBlind(ss', ls', ManagerHook(fates[n - 1]));
    }
  }

  lemma ExtendByTold(ss: seq<State>, ls: seq<Label>, now: int, luck: Luck) returns (ss': seq<State>, ls': seq<Label>)
    requires Run(ss, ls) && ss[|ls|].manager.Hooking? && ss[|ls|].manager.plan.Proceed?
    requires ss[|ls|].manager.next == |ss[|ls|].manager.ms|
    ensures Run(ss', ls') && ls <= ls' && ss'[|ls'|] == Told(ss[|ls|], now, luck)
  {
    ss', ls' := ExtendBlind(ss, ls, ManagerHooked);
    if ss'[|ls'|].manager.Updating? {
      ss', ls' := ExtendBlind(ss', ls', ManagerUpdate(now, luck));
    }
  }

  lemma ExtendByReads(ss: seq<State>, ls: seq<Label>) returns (ss': seq<State>, ls': seq<Label>)
    requires Run(ss, ls) && ReadyToRead(ss[|ls|])
    ensures Run(ss', ls') && ls <= ls' && ss'[|ls'|] == ReadAll(ss[|ls|])
  {
    ss', ls' := ExtendBlind(ss, ls, ManagerRead(true));
    ss', ls' := ExtendBlind(ss', ls', ManagerRead(true));
    ss', ls' := ExtendBlind(ss', ls', ManagerRead(true));
  }

  lemma ExtendByHookSync(ss: seq<State>, ls: seq<Label>, fates: seq<Fate>, now: int, luck: Luck)
    returns (ss': seq<State>, ls': seq<Label>)
    requires Run(ss, ls) && ReadyToRead(ss[|ls|]) && |fates| == |WEBHOOKS|
    ensures Run(ss', ls') && ls <= ls' && ss'[|ls'|] == HookSync(ss[|ls|], fates, now, luck)
  {
    ReadEffect(ss[|ls|]);
    ss', ls' := ExtendByReads(ss, ls);
    ss', ls' := ExtendByHooks(ss', ls', fates, |WEBHOOKS|);
    ss', ls' := ExtendByTold(ss', ls', now, luck);
  }

  lemma {:induction false} ExtendByApplies(ss: seq<State>, ls: seq<Label>, org: string, fates: seq<Fate>, n: nat)
    returns (ss': seq<State>, ls': seq<Label>)
    requires Run(ss, ls) && Works(ss[|ls|], org) && ss[|ls|].controllers[org].work.next == 0
    requires n <= |ss[|ls|].controllers[org].work.ms| == |fates|
    ensures Run(ss', ls') && ls <= ls' && ss'[|ls'|] == HubSteps(ss[|ls|], org, fates, n)
  {
    if n == 0 {
      ss', ls' := ss, ls;
    } else {
      ss', ls' := ExtendByApplies(ss, ls, org, fates, n - 1);
      ss', ls' := ExtendBlind(ss', ls', HubApply(org, fates[n - 1]));
    }
  }

  lemma ExtendByHubSync(ss: seq<State>, ls: seq<Label>, p: Pair, fates: seq<Fate>, client: bool)
    returns (ss': seq<State>, ls': seq<Label>)
    requires Run(ss, ls) && p.org in ss[|ls|].controllers && ss[|ls|].controllers[p.org].work.Resting? && |fates| == 5
    requires p in ss[|ls|].hubs && ss[|ls|].hubs[p].labelled && ss[|ls|].hubs[p].phase == "Ready"
    ensures Run(ss', ls') && ls <= ls'
    ensures ss'[|ls'|] == HubSync(ss[|ls|], p.org, ss[|ls|].hubs[p], p.ws, fates, client)
  {
    assert p == Pair(p.org, p.ws);
    BeginEffect(ss[|ls|], p.org, ss[|ls|].hubs[p], p.ws);
    ss', ls' := ExtendRun(ss, ls, HubBegin(p.org, p.ws, |ls|, true));
    ss', ls' := ExtendByApplies(ss', ls', p.org, fates, 5);
    ss', ls' := ExtendBlind(ss', ls', HubFinish(p.org, client));
  }

  lemma OrgSynchronized(ss: seq<State>, ls: seq<Label>, p: Pair) returns (ss': seq<State>, ls': seq<Label>)
    requires Run(ss, ls) && Prepared(ss[|ls|], p)
    ensures Run(ss', ls') && ls <= ls' && Prepared(ss'[|ls'|], p) && HubSide(ss'[|ls'|], p)
  {
    StartOnce(ss, ls, |ls|);
    OrgSyncPrepares(ss[|ls|], p);
    ss', ls' := ExtendRun(ss, ls, OrgSync(p.org, |ls|, true));
  }

  lemma BeginEnabled(s: State, p: Pair, seen: nat)
    requires Prepared(s, p)
    ensures Enabled(s, s, ManagerBegin(ManagerName(p.org, p.ws), seen))
  {
    ManagerNamePrefixed(p.org, p.ws);
  }

  /** The organization's sync, and the start of the manager's. */
  lemma GetsUnderway(ss: seq<State>, ls: seq<Label>, p: Pair) returns (ss': seq<State>, ls': seq<Label>)
    requires Run(ss, ls) && Prepared(ss[|ls|], p)
    ensures Run(ss', ls') && ls <= ls' && Underway(ss'[|ls'|], p)
  {
    ss', ls' := OrgSynchronized(ss, ls, p);
    ManagerPlanned(ss'[|ls'|], p);
    BeginEnabled(ss'[|ls'|], p, |ls'|);
    ss', ls' := ExtendRun(ss', ls', ManagerBegin(ManagerName(p.org, p.ws), |ls'|));
  }

  lemma MarkedLaunches(ss: seq<State>, ls: seq<Label>, p: Pair) returns (ss': seq<State>, ls': seq<Label>)
    requires Run(ss, ls) && HubSide(ss[|ls|], p) && ManagerApplied(ss[|ls|].hubs[p])
    ensures Run(ss', ls') && ls <= ls' && Runs(ss'[|ls'|], p)
  {
    StartOnce(ss, ls, |ls|);
    HubSyncLaunches(ss[|ls|], p);
    ss', ls' := ExtendByHubSync(ss, ls, p, ALL_HEALTHY, true);
  }

  /** From every reachable state in which all is prepared, the run can go on to launch the controllers. */
  lemma PreparedLaunches(ss: seq<State>, ls: seq<Label>, p: Pair, now: int) returns (ss': seq<State>, ls': seq<Label>)
    requires Run(ss, ls) && Prepared(ss[|ls|], p)
    ensures Run(ss', ls') && ls <= ls' && Runs(ss'[|ls'|], p)
  {
    ss', ls' := GetsUnderway(ss, ls, p);
    ManagerSyncMarks(ss'[|ls'|], p, now);
    ss', ls' := ExtendByHookSync(ss', ls', HEALTHY_HOOKS, now, LUCKY);
    ss', ls' := MarkedLaunches(ss', ls', p);
  }
}
