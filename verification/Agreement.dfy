/**
  The results that hold as long as others leave a workspace's own objects alone. Each asks for no more than it
  uses: that nobody else annotates a manager with the workspace, that one of its services, once there, stays and
  keeps its port, or that nobody else configures one of its webhooks. What happens to other workspaces is free.
*/
module Agreement {
  import opened Wrappers
  import opened Naming
  import opened ObjectStore
  import opened Manifests
  import opened ClusterManagers
  import opened Pipeline
  import opened Causality
  import opened Deliveries

  // ---------------------------------------------------------------- one service

  /** The service, if it is there, stays, and keeps its port. */
  ghost predicate ServiceKept(before: Store, after: Store, key: Key) {
    key in before && before[key].ServiceBody? ==>
      key in after && after[key].ServiceBody? && after[key].nodePort == before[key].nodePort
  }

  /** Nobody else deletes this service, or changes its port. */
  ghost predicate ServiceLeft(ss: seq<State>, ls: seq<Label>, key: Key) {
    Run(ss, ls) && forall k: nat | k < |ls| && ls[k].Environment? :: ServiceKept(ss[k].store, ss[k + 1].store, key)
  }

  /** The controllers themselves never take a service or its port, whatever ports they render. */
  lemma ServiceStep(s: State, view: State, l: Label, key: Key)
    requires Enabled(s, view, l) && !l.Environment?
    ensures ServiceKept(s.store, Next(s, view, l).store, key)
  {
    if l.HubApply? {
      var work := s.controllers[l.org].work;
      ApplyOneKeeps(s.store, work.ms[work.next], l.fate);
    }
  }

  /** A service keeps its port through the whole run. */
  lemma {:induction false} ServiceKeptInRun(ss: seq<State>, ls: seq<Label>, key: Key, i: nat, j: nat)
    requires ServiceLeft(ss, ls, key) && i <= j < |ss|
    ensures ServiceKept(ss[i].store, ss[j].store, key)
  {
    if i < j {
      ServiceKeptInRun(ss, ls, key, i, j - 1);
      assert StepAt(ss, ls, j - 1);
      if !ls[j - 1].Environment? {
        ServiceStep(ss[j - 1], ss[Seen(ls[j - 1])], ls[j - 1], key);
      }
    }
  }

  // ---------------------------------------------------------------- managers annotated with one workspace

  ghost predicate AnnotatedWith(store: Store, key: Key, id: string) {
    key in store && store[key].ManagerBody? && store[key].annotation == Some(id)
  }

  ghost predicate IdKept(before: Store, after: Store, id: string) {
    forall key | AnnotatedWith(after, key, id) :: AnnotatedWith(before, key, id)
  }

  /** Nobody else annotates a manager with this workspace, though they may delete those that are. */
  ghost predicate IdLeft(ss: seq<State>, ls: seq<Label>, id: string) {
    Run(ss, ls) && forall k: nat | k < |ls| && ls[k].Environment? :: IdKept(ss[k].store, ss[k + 1].store, id)
  }

  /** The managers annotated with the pair all bear the name rendered for it. */
  ghost predicate OwnManagers(store: Store, p: Pair) {
    forall key | AnnotatedWith(store, key, WorkspaceId(p.org, p.ws)) :: key == ManagerKey(ManagerName(p.org, p.ws))
  }

  /** A colon-free pair is the only pair its annotation can come from. */
  lemma OnePairPerId(org: string, ws: string, org2: string, ws2: string)
    requires WorkspaceId(org, ws) == WorkspaceId(org2, ws2) && SEPARATOR !in org && SEPARATOR !in ws
    ensures org2 == org && ws2 == ws
  {
    var id := WorkspaceId(org, ws);
    assert id[|org2|] == SEPARATOR;
    assert forall i | 0 <= i < |id| && i != |org| :: id[i] != SEPARATOR;
    assert org == id[..|org|] && org2 == id[..|org2|];
    assert ws == id[|org| + 1..] && ws2 == id[|org2| + 1..];
  }

  /** An annotation found after a hub manifest was applied was there before, or is the rendered one on a new manager. */
  lemma HubApplyAnnotates(store: Store, org: string, ws: string, kubeconfig: string, r: nat, w: nat, i: nat, fate: Fate, key: Key, id: string)
    requires i < 5
    requires AnnotatedWith(ApplyOne(store, HubManifests(org, ws, kubeconfig, r, w)[i], fate).store, key, id)
    ensures || AnnotatedWith(store, key, id)
            || (&& key !in store && HubManifests(org, ws, kubeconfig, r, w)[i] == ManagerManifest(org, ws)
                && key == ManagerKey(ManagerName(org, ws)) && id == WorkspaceId(org, ws))
  {
    var m := HubManifests(org, ws, kubeconfig, r, w)[i];
    ApplyOneKeeps(store, m, fate);
    if key in store {
      assert Keeps(store[key], ApplyOne(store, m, fate).store[key]);
    }
  }

  /** What a hub controller is applying was rendered for its organization and workspace. */
  lemma RenderedAs(ss: seq<State>, ls: seq<Label>, org: string, k: nat) returns (kubeconfig: string, r: nat, w: nat)
    requires Run(ss, ls) && k < |ss| && Works(ss[k], org)
    ensures var work := ss[k].controllers[org].work; work.ms == HubManifests(org, work.ws, kubeconfig, r, w)
  {
    var b := WorkBegan(ss, ls, org, k);
    var c := ss[b].controllers[org];
    kubeconfig, r, w := ss[Seen(ls[b])].hubs[Pair(org, ls[b].ws)].url, c.registrationPort + 1, c.workPort + 1;
  }

  /** The step in which a hub controller creates the manager of a workspace it is provisioning. */
  ghost predicate Creates(ss: seq<State>, ls: seq<Label>, org: string, ws: string, c: nat) {
    && c < |ls| && c + 1 < |ss| && ls[c].HubApply? && ls[c].org == org && Works(ss[c], org)
    && var w := ss[c].controllers[org].work;
       && w.ws == ws && w.next < |w.ms| && w.ms[w.next] == ManagerManifest(org, ws)
       && ManagerKey(ManagerName(org, ws)) !in ss[c].store && ManagerKey(ManagerName(org, ws)) in ss[c + 1].store
  }

  /** An annotation found after a step was there before it, or the step created the manager. */
  lemma AnnotationStep(ss: seq<State>, ls: seq<Label>, id: string, key: Key, k: nat) returns (org: string, ws: string)
    requires IdLeft(ss, ls, id) && k < |ls| && AnnotatedWith(ss[k + 1].store, key, id)
    ensures || AnnotatedWith(ss[k].store, key, id)
            || (Creates(ss, ls, org, ws, k) && key == ManagerKey(ManagerName(org, ws)) && id == WorkspaceId(org, ws))
  {
    assert StepAt(ss, ls, k);
    var s, l := ss[k], ls[k];
    org, ws := "", "";
    if l.HubApply? {
      var kubeconfig, rp, wp := RenderedAs(ss, ls, l.org, k);
      var w := s.controllers[l.org].work;
      HubApplyAnnotates(s.store, l.org, w.ws, kubeconfig, rp, wp, w.next, l.fate, key, id);
      org, ws := l.org, w.ws;
    }
  }

  /** Managers annotated with the pair bear its own name in every state, if they did when the process started. */
  lemma {:induction false} OwnManagersHold(ss: seq<State>, ls: seq<Label>, p: Pair, k: nat)
    requires IdLeft(ss, ls, WorkspaceId(p.org, p.ws)) && SEPARATOR !in p.org && SEPARATOR !in p.ws
    requires OwnManagers(ss[0].store, p) && k < |ss|
    ensures OwnManagers(ss[k].store, p)
  {
    if k > 0 {
      OwnManagersHold(ss, ls, p, k - 1);
      var id := WorkspaceId(p.org, p.ws);
      forall key | AnnotatedWith(ss[k].store, key, id) ensures key == ManagerKey(ManagerName(p.org, p.ws)) {
        var org, ws := AnnotationStep(ss, ls, id, key, k - 1);
        if !AnnotatedWith(ss[k - 1].store, key, id) {
          OnePairPerId(p.org, p.ws, org, ws);
        }
      }
    }
  }

  /** An annotated manager was created by its own workspace's sync, unless it was there when the process started. */
  lemma {:induction false} AnnotationCreated(ss: seq<State>, ls: seq<Label>, id: string, key: Key, k: nat)
    returns (c: nat, org: string, ws: string)
    requires IdLeft(ss, ls, id) && !AnnotatedWith(ss[0].store, key, id)
    requires k < |ss| && AnnotatedWith(ss[k].store, key, id)
    ensures c < k && Creates(ss, ls, org, ws, c)
    ensures key == ManagerKey(ManagerName(org, ws)) && id == WorkspaceId(org, ws)
  {
    assert k > 0;
    org, ws := AnnotationStep(ss, ls, id, key, k - 1);
    if AnnotatedWith(ss[k - 1].store, key, id) {
      c, org, ws := AnnotationCreated(ss, ls, id, key, k - 1);
    } else {
      c := k - 1;
    }
  }

  // ---------------------------------------------------------------- whose workspace is informed

  /** Nothing is annotated with the pair when the process starts, and nobody else does it later. */
  ghost predicate AnnotatedHereOnly(ss: seq<State>, ls: seq<Label>, p: Pair) {
    && IdLeft(ss, ls, WorkspaceId(p.org, p.ws))
    && forall key :: !AnnotatedWith(ss[0].store, key, WorkspaceId(p.org, p.ws))
  }

  /** Whenever a workspace's status is updated, it is the workspace whose own sync created the manager reported on. */
  lemma InformedIsCreator(ss: seq<State>, ls: seq<Label>, u: nat, p: Pair) returns (c: nat)
    requires AnnotatedHereOnly(ss, ls, p) && Informs(ss, ls, p, u)
    ensures c < u && Creates(ss, ls, p.org, p.ws, c)
  {
    var f := UpdatingHooked(ss, ls, u);
    var r := HookingRead(ss, ls, f);
    var plan := ss[u].manager.plan;
    SplitInTwo(plan.id, p.org, p.ws);
    var org, ws;
    c, org, ws := AnnotationCreated(ss, ls, plan.id, ManagerKey(ss[f].manager.manager), Seen(ls[r.reported]));
    OnePairPerId(p.org, p.ws, org, ws);
  }

  /** A manager's sync on behalf of the pair is about the manager rendered for the pair. */
  lemma HeldNameOwn(ss: seq<State>, ls: seq<Label>, p: Pair, k: nat)
    requires IdLeft(ss, ls, WorkspaceId(p.org, p.ws)) && SEPARATOR !in p.org && SEPARATOR !in p.ws
    requires OwnManagers(ss[0].store, p) && k < |ss|
    requires ss[k].manager.Reading? && ss[k].manager.plan.Proceed? && ss[k].manager.plan.id == WorkspaceId(p.org, p.ws)
    ensures ss[k].manager.manager == ManagerName(p.org, p.ws)
  {
    var r := ReadingReported(ss, ls, k);
    var b := Seen(ls[r.reported]);
    OwnManagersHold(ss, ls, p, b);
    assert AnnotatedWith(ss[b].store, ManagerKey(ss[k].manager.manager), WorkspaceId(p.org, p.ws));
  }

  /** The chain behind a launch goes through the manager rendered for the very workspace. */
  lemma OwnLaunchExplained(ss: seq<State>, ls: seq<Label>, p: Pair, k: nat) returns (t: Trail)
    requires MarkLeft(ss, ls, p) && IdLeft(ss, ls, WorkspaceId(p.org, p.ws)) && OwnManagers(ss[0].store, p)
    requires k < |ss| && p.org in ss[k].controllers && p.ws in ss[k].controllers[p.org].launched
    ensures Explains(ss, ls, p.org, p.ws, t) && t.launches < k && t.manager == ManagerName(p.org, p.ws)
  {
    assert p == Pair(p.org, p.ws);
    t := LaunchExplained(ss, ls, p.org, p.ws, k);
    SplitInTwo(ss[t.informs].manager.plan.id, p.org, p.ws);
    HeldNameOwn(ss, ls, p, t.inputs.work);
  }

  // ---------------------------------------------------------------- webhooks and services

  /** A webhook calls the port that the workspace's own service holds. */
  ghost predicate Agrees(store: Store, hosts: Hosts, p: Pair, w: Webhook, body: Body) {
    var service := ServiceKey(ManagerName(p.org, p.ws), w.toWork);
    && service in store && store[service].ServiceBody?
    && body.WebhookBody?
    && body.port == store[service].nodePort && body.host == (if w.toWork then hosts.work else hosts.registration)
  }

  /** The webhook of the pair, if it is there, agrees with the pair's service. */
  ghost predicate HookAgrees(s: State, p: Pair, i: nat)
    requires i < |WEBHOOKS|
  {
    var id := WorkspaceId(p.org, p.ws);
    HasWebhook(s, id, WEBHOOKS[i].key) ==> Agrees(s.store, s.hosts, p, WEBHOOKS[i], Inside(s.clusters, id)[WEBHOOKS[i].key])
  }

  /** Others leave alone what this one webhook is about: the pair's annotation, the one service, the one configuration. */
  ghost predicate PairLeft(ss: seq<State>, ls: seq<Label>, p: Pair, i: nat)
    requires i < |WEBHOOKS|
  {
    && SEPARATOR !in p.org && SEPARATOR !in p.ws
    && IdLeft(ss, ls, WorkspaceId(p.org, p.ws))
    && ServiceLeft(ss, ls, ServiceKey(ManagerName(p.org, p.ws), WEBHOOKS[i].toWork))
    && HookLeft(ss, ls, WorkspaceId(p.org, p.ws), WEBHOOKS[i].key)
  }

  lemma {:induction false} HostsStay(ss: seq<State>, ls: seq<Label>, k: nat)
    requires Run(ss, ls) && k < |ss|
    ensures ss[k].hosts == ss[0].hosts
  {
    if k > 0 {
      HostsStay(ss, ls, k - 1);
      assert StepAt(ss, ls, k - 1);
    }
  }

  /** A created webhook agreed with the service its pass had read. */
  lemma CreatedAgrees(ss: seq<State>, ls: seq<Label>, p: Pair, i: nat, body: Body, c: nat) returns (at: nat)
    requires i < |WEBHOOKS| && PairLeft(ss, ls, p, i) && OwnManagers(ss[0].store, p)
    requires CreatesHook(ss, ls, WorkspaceId(p.org, p.ws), WEBHOOKS[i].key, body, c)
    ensures at < c && Agrees(ss[at].store, ss[0].hosts, p, WEBHOOKS[i], body)
  {
    var r := CreatedAsRead(ss, ls, WorkspaceId(p.org, p.ws), i, body, c);
    at := ServiceRead(r, WEBHOOKS[i].toWork);
    HeldNameOwn(ss, ls, p, r.work);
    HostsStay(ss, ls, r.work);
  }

  /** Every webhook found in a workspace, at any time, calls the port its service holds then and ever after. */
  lemma WebhooksCallTheirServices(ss: seq<State>, ls: seq<Label>, p: Pair, i: nat, k: nat, j: nat)
    requires i < |WEBHOOKS| && PairLeft(ss, ls, p, i) && OwnManagers(ss[0].store, p) && HookAgrees(ss[0], p, i)
    requires k <= j < |ss| && HasWebhook(ss[k], WorkspaceId(p.org, p.ws), WEBHOOKS[i].key)
    ensures Agrees(ss[j].store, ss[j].hosts, p, WEBHOOKS[i], Inside(ss[k].clusters, WorkspaceId(p.org, p.ws))[WEBHOOKS[i].key])
  {
    var id, key := WorkspaceId(p.org, p.ws), WEBHOOKS[i].key;
    var origin := WebhookOrigin(ss, ls, id, key, k);
    var at := 0;
    if origin.Some? {
      at := CreatedAgrees(ss, ls, p, i, Inside(ss[k].clusters, id)[key], origin.value);
    }
    ServiceKeptInRun(ss, ls, ServiceKey(ManagerName(p.org, p.ws), WEBHOOKS[i].toWork), at, j);
    HostsStay(ss, ls, j);
  }

  /** In every state the pair's managers bear its name and its webhooks agree with its services, if they did at the start. */
  lemma AgreementHolds(ss: seq<State>, ls: seq<Label>, p: Pair, k: nat)
    requires forall i: nat | i < |WEBHOOKS| :: PairLeft(ss, ls, p, i) && HookAgrees(ss[0], p, i)
    requires k < |ss| && OwnManagers(ss[0].store, p)
    ensures OwnManagers(ss[k].store, p) && forall i: nat | i < |WEBHOOKS| :: HookAgrees(ss[k], p, i)
  {
    assert PairLeft(ss, ls, p, 0);
    OwnManagersHold(ss, ls, p, k);
    forall i: nat | i < |WEBHOOKS| ensures HookAgrees(ss[k], p, i) {
      assert PairLeft(ss, ls, p, i);
      if HasWebhook(ss[k], WorkspaceId(p.org, p.ws), WEBHOOKS[i].key) {
        WebhooksCallTheirServices(ss, ls, p, i, k, k);
      }
    }
  }
}
