/**
  End-to-end causality: what must have happened, and in which order, before the CSR and cluster
  controllers of a workspace run. Each lemma goes back one hop, to the step that caused what it
  is given, so the chain holds for every interleaving and every lag of the informers.
*/
module Causality {
  import opened Wrappers
  import opened Conditions
  import opened Naming
  import opened ObjectStore
  import opened Manifests
  import opened Workspaces
  import opened ClusterManagers
  import opened Pipeline

  /** At some state after `from` and no later than `to`, the hub's store had what the manifest asks for. */
  ghost predicate InStore(ss: seq<State>, m: Manifest, from: nat, to: nat) {
    exists h: nat :: from < h <= to && h < |ss| && Satisfied(ss[h].store, m)
  }

  /** At some state after `from` and no later than `to`, the logical cluster had what the manifest asks for. */
  ghost predicate InCluster(ss: seq<State>, id: string, m: Manifest, from: nat, to: nat) {
    exists h: nat :: from < h <= to && h < |ss| && Satisfied(Inside(ss[h].clusters, id), m)
  }

  // ---------------------------------------------------------------- the hub controller

  /** A launch is the end of a sync whose copy said applied and whose objects all applied. */
  ghost predicate Launches(ss: seq<State>, ls: seq<Label>, org: string, ws: string, e: nat) {
    && e < |ls| && e < |ss| && ls[e] == HubFinish(org, true) && Works(ss[e], org)
    && var w := ss[e].controllers[org].work;
       w.ws == ws && w.applied && !w.failed && w.next == |w.ms|
  }

  lemma LaunchStep(s: State, view: State, l: Label, org: string, ws: string)
    requires Enabled(s, view, l) && org in Next(s, view, l).controllers
    requires ws in Next(s, view, l).controllers[org].launched
    requires org !in s.controllers || ws !in s.controllers[org].launched
    requires s.controllers.Keys == s.organizations
    ensures l == HubFinish(org, true) && Works(s, org)
    ensures var w := s.controllers[org].work; w.ws == ws && w.applied && !w.failed && w.next == |w.ms|
  {}

  lemma {:induction false} LaunchedByFinish(ss: seq<State>, ls: seq<Label>, org: string, ws: string, k: nat) returns (e: nat)
    requires Run(ss, ls) && k < |ss| && org in ss[k].controllers && ws in ss[k].controllers[org].launched
    ensures e < k && Launches(ss, ls, org, ws, e)
  {
    assert k > 0;
    if org in ss[k - 1].controllers && ws in ss[k - 1].controllers[org].launched {
      e := LaunchedByFinish(ss, ls, org, ws, k - 1);
    } else {
      e := k - 1;
      assert StepAt(ss, ls, e);
      StartOnce(ss, ls, e);
      LaunchStep(ss[e], ss[Seen(ls[e])], ls[e], org, ws);
    }
  }

  /** The work is on a labelled, ready workspace, with the objects rendered for it and the next two ports. */
  ghost predicate StartsFrom(seen: HubWorkspace, c: HubController, org: string, w: HubWork)
    requires w.Applying?
  {
    && seen.labelled && seen.phase == "Ready" && w.applied == ConditionTrue(seen.conditions, "ClusterManagerApplied")
    && w.ms == HubManifests(org, w.ws, seen.url, c.registrationPort + 1, c.workPort + 1)
  }

  /** A sync in progress began at `b`, on a ready workspace, and has gone through `next` of its manifests since. */
  ghost predicate BeganAt(ss: seq<State>, ls: seq<Label>, org: string, b: nat, k: nat, w: HubWork) {
    && w.Applying? && b < k < |ss| && b < |ls|
    && ls[b].HubBegin? && ls[b].org == org && ls[b].ws == w.ws && Seen(ls[b]) <= b
    && Pair(org, w.ws) in ss[Seen(ls[b])].hubs
    && org in ss[b].controllers
    && StartsFrom(ss[Seen(ls[b])].hubs[Pair(org, w.ws)], ss[b].controllers[org], org, w)
    && w.next <= |w.ms|
    && (!w.failed ==> forall i: nat | i < w.next :: InStore(ss, w.ms[i], b, k))
  }

  lemma InStoreLater(ss: seq<State>, m: Manifest, from: nat, to: nat, later: nat)
    requires InStore(ss, m, from, to) && to <= later
    ensures InStore(ss, m, from, later)
  {
    var h: nat :| from < h <= to && h < |ss| && Satisfied(ss[h].store, m);
  }

  lemma BeganLater(ss: seq<State>, ls: seq<Label>, org: string, b: nat, k: nat, w: HubWork)
    requires BeganAt(ss, ls, org, b, k, w) && k + 1 < |ss|
    ensures BeganAt(ss, ls, org, b, k + 1, w)
  {
    if !w.failed {
      forall i: nat | i < w.next ensures InStore(ss, w.ms[i], b, k + 1) {
        InStoreLater(ss, w.ms[i], b, k, k + 1);
      }
    }
  }

  lemma BeganOneMore(ss: seq<State>, ls: seq<Label>, org: string, b: nat, k: nat, v: HubWork, fate: Fate)
    requires BeganAt(ss, ls, org, b, k, v) && k + 1 < |ss| && v.next < |v.ms|
    requires ss[k + 1].store == ApplyOne(ss[k].store, v.ms[v.next], fate).store
    ensures var failed := v.failed || !ApplyOne(ss[k].store, v.ms[v.next], fate).ok;
      BeganAt(ss, ls, org, b, k + 1, v.(next := v.next + 1, failed := failed))
  {
    BeganLater(ss, ls, org, b, k, v);
    var m := v.ms[v.next];
    assert m.Manifest?;
    if ApplyOne(ss[k].store, m, fate).ok {
      SucceededIsSatisfied(ss[k].store, m, fate);
      assert InStore(ss, m, b, k + 1);
    }
  }

  /** One step of a hub controller's work: it begins, applies one more manifest, or is left alone. */
  lemma WorkStep(s: State, view: State, l: Label, org: string)
    requires Enabled(s, view, l) && s.controllers.Keys == s.organizations && Works(Next(s, view, l), org)
    ensures org in s.controllers
    ensures var c, w := s.controllers[org], Next(s, view, l).controllers[org].work;
      || w == c.work
      || (&& l.HubBegin? && l.org == org && Pair(org, l.ws) in view.hubs
          && w == Begun(c, org, l.ws, view.hubs[Pair(org, l.ws)], l.written).work
          && view.hubs[Pair(org, l.ws)].labelled && view.hubs[Pair(org, l.ws)].phase == READY)
      || (&& l.HubApply? && l.org == org && c.work.Applying? && c.work.next < |c.work.ms|
          && var a := ApplyOne(s.store, c.work.ms[c.work.next], l.fate);
             w == c.work.(next := c.work.next + 1, failed := c.work.failed || !a.ok) && Next(s, view, l).store == a.store)
  {}

  /** The same within a run: the sync has just begun, one more manifest was applied, or the work was left alone. */
  lemma WorkStepAt(ss: seq<State>, ls: seq<Label>, org: string, k: nat)
    requires Run(ss, ls) && 0 < k < |ss| && Works(ss[k], org)
    ensures org in ss[k - 1].controllers
    ensures var v, w, l := ss[k - 1].controllers[org].work, ss[k].controllers[org].work, ls[k - 1];
      || w == v
      || BeganAt(ss, ls, org, k - 1, k, w)
      || (&& l.HubApply? && v.Applying? && v.next < |v.ms|
          && var a := ApplyOne(ss[k - 1].store, v.ms[v.next], l.fate);
             w == v.(next := v.next + 1, failed := v.failed || !a.ok) && ss[k].store == a.store)
  {
    assert StepAt(ss, ls, k - 1);
    StartOnce(ss, ls, k - 1);
    WorkStep(ss[k - 1], ss[Seen(ls[k - 1])], ls[k - 1], org);
  }

  lemma {:induction false} WorkBegan(ss: seq<State>, ls: seq<Label>, org: string, k: nat) returns (b: nat)
    requires Run(ss, ls) && k < |ss| && Works(ss[k], org)
    ensures BeganAt(ss, ls, org, b, k, ss[k].controllers[org].work)
  {
    assert k > 0;
    WorkStepAt(ss, ls, org, k);
    var v, w := ss[k - 1].controllers[org].work, ss[k].controllers[org].work;
    if BeganAt(ss, ls, org, k - 1, k, w) {
      b := k - 1;
    } else {
      b := WorkBegan(ss, ls, org, k - 1);
      if w == v {
        BeganLater(ss, ls, org, b, k - 1, v);
      } else {
        BeganOneMore(ss, ls, org, b, k - 1, v, ls[k - 1].fate);
      }
    }
  }

  /** A controller of an organization exists because a sync saw the organization ready. */
  ghost predicate OrgStarts(ss: seq<State>, ls: seq<Label>, org: string, o: nat) {
    && o < |ls| && o < |ss| && ls[o].OrgSync? && ls[o].org == org && ls[o].client && Seen(ls[o]) <= o
    && org in ss[Seen(ls[o])].orgs
    && ss[Seen(ls[o])].orgs[org].wsType == "organization" && ss[Seen(ls[o])].orgs[org].phase == "Ready"
  }

  lemma {:induction false} ControllerStarted(ss: seq<State>, ls: seq<Label>, org: string, k: nat) returns (o: nat)
    requires Run(ss, ls) && k < |ss| && org in ss[k].controllers
    ensures o < k && OrgStarts(ss, ls, org, o) && org !in ss[o].controllers && org in ss[o + 1].controllers
  {
    assert k > 0;
    assert StepAt(ss, ls, k - 1);
    StartOnce(ss, ls, k - 1);
    if org in ss[k - 1].controllers {
      o := ControllerStarted(ss, ls, org, k - 1);
    } else {
      o := k - 1;
      OrganizationsStep(ss[o], ss[Seen(ls[o])], ls[o]);
    }
  }

  // ---------------------------------------------------------------- the cluster manager controller

  /** The workspace's condition became true by the controller's own update. */
  ghost predicate Informs(ss: seq<State>, ls: seq<Label>, p: Pair, u: nat) {
    && u < |ls| && u < |ss| && ls[u].ManagerUpdate? && ss[u].manager.Updating?
    && ss[u].manager.plan.Proceed? && ss[u].manager.plan.pair == p
  }

  lemma HubsStep(s: State, view: State, l: Label)
    requires Enabled(s, view, l)
    ensures l.Environment? || l.ManagerUpdate? || Next(s, view, l).hubs == s.hubs
  {}

  lemma UpdateMarks(hubs: map<Pair, HubWorkspace>, plan: Plan, now: int, luck: Luck, p: Pair)
    requires plan.Proceed?
    ensures var after := StatusUpdate(hubs, plan.pair, plan.condition, now, luck).workspaces;
      p in after && (p !in hubs || after[p] != hubs[p]) ==> p == plan.pair
  {}

  lemma AppliedStep(s: State, view: State, l: Label, p: Pair)
    requires Enabled(s, view, l) && PlanOk(s.manager) && !l.Environment?
    requires p in Next(s, view, l).hubs && ManagerApplied(Next(s, view, l).hubs[p])
    requires p !in s.hubs || !ManagerApplied(s.hubs[p])
    ensures l.ManagerUpdate? && s.manager.plan.pair == p
  {
    HubsStep(s, view, l);
    if l.ManagerUpdate? {
      UpdateMarks(s.hubs, s.manager.plan, l.now, l.luck, p);
    }
  }

  ghost predicate PlanOk(m: ManagerWork) {
    m.Idle? || (m.plan.Proceed? && m.plan.condition.ctype == CLUSTER_MANAGER_APPLIED && m.plan.condition.status == IsTrue)
  }

  lemma ManagerStep(s: State, view: State, l: Label)
    requires Enabled(s, view, l) && PlanOk(s.manager)
    ensures PlanOk(Next(s, view, l).manager)
    ensures Next(s, view, l).manager == s.manager || l.ManagerBegin? || l.ManagerRead? || l.ManagerHook? || l.ManagerHooked? || l.ManagerUpdate?
  {
    if l.ManagerBegin? {
      PlannedReads(l.name, view.store[ManagerKey(l.name)]);
    }
  }

  lemma {:induction false} PlanStaysOk(ss: seq<State>, ls: seq<Label>, k: nat)
    requires Run(ss, ls) && k < |ss|
    ensures PlanOk(ss[k].manager)
  {
    if k > 0 {
      PlanStaysOk(ss, ls, k - 1);
      assert StepAt(ss, ls, k - 1);
      ManagerStep(ss[k - 1], ss[Seen(ls[k - 1])], ls[k - 1]);
    }
  }

  /** Nobody has told the workspace yet. */
  predicate Unmarked(s: State, p: Pair) {
    p in s.hubs ==> !ConditionTrue(s.hubs[p].conditions, "ClusterManagerApplied")
  }

  /** Nobody but the cluster manager controller tells the workspace. */
  ghost predicate MarkLeft(ss: seq<State>, ls: seq<Label>, p: Pair) {
    && Run(ss, ls) && Unmarked(ss[0], p)
    && forall k: nat | k < |ls| && ls[k].Environment? :: Unmarked(ss[k], p) ==> Unmarked(ss[k + 1], p)
  }

  lemma {:induction false} ConditionInformed(ss: seq<State>, ls: seq<Label>, p: Pair, k: nat) returns (u: nat)
    requires MarkLeft(ss, ls, p) && k < |ss| && p in ss[k].hubs
    requires ConditionTrue(ss[k].hubs[p].conditions, "ClusterManagerApplied")
    ensures u < k && Informs(ss, ls, p, u)
  {
    assert k > 0;
    if p in ss[k - 1].hubs && ManagerApplied(ss[k - 1].hubs[p]) {
      u := ConditionInformed(ss, ls, p, k - 1);
    } else {
      u := k - 1;
      assert StepAt(ss, ls, u);
      PlanStaysOk(ss, ls, u);
      AppliedStep(ss[u], ss[Seen(ls[u])], ls[u], p);
    }
  }

  /** An update is due because every webhook was applied. */
  ghost predicate Hooks(ss: seq<State>, ls: seq<Label>, plan: Plan, f: nat) {
    && f < |ls| && f < |ss| && ls[f].ManagerHooked?
    && ss[f].manager.Hooking? && ss[f].manager.plan == plan
    && !ss[f].manager.failed && ss[f].manager.next == |ss[f].manager.ms|
  }

  /** The status a sync starts out with is never False, so it goes through the webhooks or nowhere. */
  lemma PlannedReads(name: string, body: Body)
    requires body.ManagerBody?
    ensures !Planned(name, body).Updating? && PlanOk(Planned(name, body))
  {
    PlanMeaning(body.annotation, body.conditions);
  }

  lemma UpdatingStep(s: State, view: State, l: Label)
    requires Enabled(s, view, l) && PlanOk(s.manager) && Next(s, view, l).manager.Updating?
    ensures Next(s, view, l).manager == s.manager
      || (l.ManagerHooked? && s.manager.Hooking? && !s.manager.failed && Next(s, view, l).manager.plan == s.manager.plan)
  {
    if l.ManagerBegin? {
      PlannedReads(l.name, view.store[ManagerKey(l.name)]);
    }
  }

  lemma {:induction false} UpdatingHooked(ss: seq<State>, ls: seq<Label>, k: nat) returns (f: nat)
    requires Run(ss, ls) && k < |ss| && ss[k].manager.Updating?
    ensures f < k && Hooks(ss, ls, ss[k].manager.plan, f)
  {
    assert k > 0;
    assert StepAt(ss, ls, k - 1);
    PlanStaysOk(ss, ls, k - 1);
    UpdatingStep(ss[k - 1], ss[Seen(ls[k - 1])], ls[k - 1]);
    if ss[k].manager == ss[k - 1].manager {
      f := UpdatingHooked(ss, ls, k - 1);
    } else {
      f := k - 1;
    }
  }

  // ---------------------------------------------------------------- what a sync of a manager has read

  ghost predicate ReportedOn(body: Body, id: string) {
    body.ManagerBody? && body.annotation == Some(id) && Present(body.conditions, "Applied")
  }

  /** A sync of a manager begins because the operator had reported on a manager with that annotation. */
  ghost predicate Reports(ss: seq<State>, ls: seq<Label>, name: string, plan: Plan, b: nat) {
    && b < |ls| && b < |ss| && ls[b].ManagerBegin? && ls[b].name == name && Seen(ls[b]) <= b
    && plan.Proceed? && "kcp-" <= name
    && ManagerKey(name) in ss[Seen(ls[b])].store
    && ReportedOn(ss[Seen(ls[b])].store[ManagerKey(name)], plan.id)
    && Split(plan.id, ':') == [plan.pair.org, plan.pair.ws]
    && Some(plan.condition) == AppliedCondition(ss[Seen(ls[b])].store[ManagerKey(name)].conditions)
  }

  /** The positions of a sync's beginning and of its three reads. */
  datatype Reads = Reads(reported: nat, bundle: nat, registration: nat, work: nat)

  ghost predicate BundleReadAt(ss: seq<State>, ls: seq<Label>, manager: string, caBundle: string, k: nat) {
    && k < |ls| && k < |ss| && ls[k].ManagerRead?
    && BundleThere(ss[k].store, manager) && ss[k].store[CaBundle(manager)].bundle == Some(caBundle)
  }

  ghost predicate PortReadAt(ss: seq<State>, ls: seq<Label>, manager: string, toWork: bool, port: nat, k: nat) {
    && k < |ls| && k < |ss| && ls[k].ManagerRead?
    && ServiceThere(ss[k].store, manager, toWork) && ss[k].store[ServiceKey(manager, toWork)].nodePort == port
  }

  /** A sync in progress began at `r.reported`, and read since then, in order, what it has found. */
  ghost predicate ReadSince(ss: seq<State>, ls: seq<Label>, r: Reads, k: nat, m: ManagerWork) {
    && m.Reading? && r.reported < k < |ss| && Reports(ss, ls, m.manager, m.plan, r.reported)
    && match m.found
       case NothingYet => true
       case Bundle(caBundle) => r.reported < r.bundle < k && BundleReadAt(ss, ls, m.manager, caBundle, r.bundle)
       case BundleAndPort(caBundle, port) =>
         && r.reported < r.bundle < r.registration < k && BundleReadAt(ss, ls, m.manager, caBundle, r.bundle)
         && PortReadAt(ss, ls, m.manager, false, port, r.registration)
  }

  lemma ReadingStep(s: State, view: State, l: Label)
    requires Enabled(s, view, l) && PlanOk(s.manager) && Next(s, view, l).manager.Reading?
    ensures var m := Next(s, view, l).manager;
      || m == s.manager
      || (&& l.ManagerBegin? && m.manager == l.name && ManagerKey(l.name) in view.store && m.found.NothingYet?
          && HasPrefix(l.name, MANAGER_PREFIX)
          && var body := view.store[ManagerKey(l.name)];
             body.ManagerBody? && m.plan == PlanFor(body.annotation, body.conditions) && m.plan.Proceed?)
      || (&& l.ManagerRead? && s.manager.Reading? && m == ReadOn(s.store, s.hosts, s.manager, l.client))
  {}

  lemma BeganReading(ss: seq<State>, ls: seq<Label>, k: nat)
    requires Run(ss, ls) && 0 < k < |ss| && ss[k].manager.Reading? && ss[k].manager.found.NothingYet?
    requires ls[k - 1].ManagerBegin? && ls[k - 1].name == ss[k].manager.manager && Seen(ls[k - 1]) < k
    requires HasPrefix(ss[k].manager.manager, MANAGER_PREFIX)
    requires var view, key := ss[Seen(ls[k - 1])], ManagerKey(ss[k].manager.manager);
      && key in view.store && view.store[key].ManagerBody?
      && ss[k].manager.plan == PlanFor(view.store[key].annotation, view.store[key].conditions) && ss[k].manager.plan.Proceed?
    ensures ReadSince(ss, ls, Reads(k - 1, 0, 0, 0), k, ss[k].manager)
  {
    var body := ss[Seen(ls[k - 1])].store[ManagerKey(ss[k].manager.manager)];
    PlanMeaning(body.annotation, body.conditions);
  }

  /** Of the first two reads, the one that has just been made. */
  function JustRead(r: Reads, found: Found, k: nat): Reads {
    if found.Bundle? then r.(bundle := k) else r.(registration := k)
  }

  lemma ReadOneMore(ss: seq<State>, ls: seq<Label>, r: Reads, k: nat, m: ManagerWork, client: bool)
    requires ReadSince(ss, ls, r, k, m) && k + 1 < |ss| && k < |ls| && ls[k].ManagerRead?
    requires ReadOn(ss[k].store, ss[k].hosts, m, client).Reading?
    ensures var n := ReadOn(ss[k].store, ss[k].hosts, m, client); ReadSince(ss, ls, JustRead(r, n.found, k), k + 1, n)
  {}

  /** A read goes back to a manager, as some state had it, annotated with the pair and reported on, and to the reads before it. */
  lemma {:induction false} ReadingReported(ss: seq<State>, ls: seq<Label>, k: nat) returns (r: Reads)
    requires Run(ss, ls) && k < |ss| && ss[k].manager.Reading?
    ensures ReadSince(ss, ls, r, k, ss[k].manager)
  {
    assert k > 0;
    assert StepAt(ss, ls, k - 1);
    PlanStaysOk(ss, ls, k - 1);
    var s, l := ss[k - 1], ls[k - 1];
    ReadingStep(s, ss[Seen(l)], l);
    if ss[k].manager == s.manager {
      r := ReadingReported(ss, ls, k - 1);
    } else if l.ManagerBegin? {
      r := Reads(k - 1, 0, 0, 0);
      BeganReading(ss, ls, k);
    } else {
      r := ReadingReported(ss, ls, k - 1);
      ReadOneMore(ss, ls, r, k - 1, s.manager, l.client);
      r := JustRead(r, ss[k].manager.found, k - 1);
    }
  }

  // ---------------------------------------------------------------- the webhooks it applies

  /** The three reads, in order, behind the webhooks rendered at `r.work`. */
  ghost predicate InputsRead(ss: seq<State>, ls: seq<Label>, manager: string, plan: Plan, r: Reads) {
    && r.reported < r.bundle < r.registration < r.work < |ss| && r.work < |ls|
    && Reports(ss, ls, manager, plan, r.reported)
    && BundleThere(ss[r.bundle].store, manager) && ls[r.bundle].ManagerRead?
    && ServiceThere(ss[r.registration].store, manager, false) && ls[r.registration].ManagerRead?
    && ServiceThere(ss[r.work].store, manager, true) && ls[r.work].ManagerRead?
    && ss[r.work].manager.Reading? && ss[r.work].manager.manager == manager && ss[r.work].manager.plan == plan
  }

  /** The webhooks as rendered from what was read at `r`. */
  ghost function WebhooksRead(ss: seq<State>, ls: seq<Label>, manager: string, plan: Plan, r: Reads): (ms: seq<Manifest>)
    requires InputsRead(ss, ls, manager, plan, r)
    ensures |ms| == |WEBHOOKS|
  {
    WebhookManifests(ss[r.work].hosts, ss[r.bundle].store[CaBundle(manager)].bundle.value,
                     ss[r.registration].store[ServiceKey(manager, false)].nodePort,
                     ss[r.work].store[ServiceKey(manager, true)].nodePort)
  }

  /** Webhooks are being applied since their inputs were read at `r`; `next` of them are there. */
  ghost predicate HooksSince(ss: seq<State>, ls: seq<Label>, r: Reads, k: nat, m: ManagerWork) {
    && m.Hooking? && m.plan.Proceed? && r.work < k < |ss|
    && InputsRead(ss, ls, m.manager, m.plan, r) && m.ms == WebhooksRead(ss, ls, m.manager, m.plan, r)
    && m.next <= |m.ms|
    && (!m.failed ==> forall i: nat | i < m.next :: InCluster(ss, m.plan.id, m.ms[i], r.work, k))
  }

  lemma InClusterLater(ss: seq<State>, id: string, m: Manifest, from: nat, to: nat, later: nat)
    requires InCluster(ss, id, m, from, to) && to <= later
    ensures InCluster(ss, id, m, from, later)
  {
    var h: nat :| from < h <= to && h < |ss| && Satisfied(Inside(ss[h].clusters, id), m);
  }

  lemma HooksLater(ss: seq<State>, ls: seq<Label>, r: Reads, k: nat, m: ManagerWork)
    requires HooksSince(ss, ls, r, k, m) && k + 1 < |ss|
    ensures HooksSince(ss, ls, r, k + 1, m)
  {
    if !m.failed {
      forall i: nat | i < m.next ensures InCluster(ss, m.plan.id, m.ms[i], r.work, k + 1) {
        InClusterLater(ss, m.plan.id, m.ms[i], r.work, k, k + 1);
      }
    }
  }

  /** The last read renders the webhooks from all three. */
  lemma HooksBegin(ss: seq<State>, ls: seq<Label>, r: Reads, k: nat, m: ManagerWork, client: bool)
    requires ReadSince(ss, ls, r, k, m) && k + 1 < |ss| && k < |ls| && ls[k].ManagerRead? && ss[k].manager == m
    requires m.plan.Proceed? && ReadOn(ss[k].store, ss[k].hosts, m, client).Hooking?
    ensures HooksSince(ss, ls, r.(work := k), k + 1, ReadOn(ss[k].store, ss[k].hosts, m, client))
  {}

  lemma HooksOneMore(ss: seq<State>, ls: seq<Label>, r: Reads, k: nat, m: ManagerWork, fate: Fate)
    requires HooksSince(ss, ls, r, k, m) && k + 1 < |ss| && m.next < |m.ms|
    requires Inside(ss[k + 1].clusters, m.plan.id) == ApplyInside(ss[k].clusters, m.plan.id, m.ms[m.next], fate).store
    ensures var a := ApplyInside(ss[k].clusters, m.plan.id, m.ms[m.next], fate);
      HooksSince(ss, ls, r, k + 1, m.(next := m.next + 1, failed := m.failed || !a.ok))
  {
    HooksLater(ss, ls, r, k, m);
    if ApplyInside(ss[k].clusters, m.plan.id, m.ms[m.next], fate).ok {
      SucceededIsSatisfied(Inside(ss[k].clusters, m.plan.id), m.ms[m.next], fate);
      assert InCluster(ss, m.plan.id, m.ms[m.next], r.work, k + 1);
    }
  }

  lemma HookingStep(s: State, view: State, l: Label)
    requires Enabled(s, view, l) && PlanOk(s.manager) && Next(s, view, l).manager.Hooking?
    ensures var m := Next(s, view, l).manager;
      || m == s.manager
      || (l.ManagerRead? && s.manager.Reading? && m == ReadOn(s.store, s.hosts, s.manager, l.client))
      || (&& l.ManagerHook? && s.manager.Hooking? && s.manager.next < |s.manager.ms|
          && var a := ApplyInside(s.clusters, m.plan.id, s.manager.ms[s.manager.next], l.fate);
             && m == s.manager.(next := s.manager.next + 1, failed := s.manager.failed || !a.ok)
             && Inside(Next(s, view, l).clusters, m.plan.id) == a.store)
  {}

  lemma HookingStepAt(ss: seq<State>, ls: seq<Label>, k: nat)
    requires Run(ss, ls) && 0 < k < |ss| && ss[k].manager.Hooking?
    ensures var w, m, l := ss[k - 1].manager, ss[k].manager, ls[k - 1];
      || m == w
      || (l.ManagerRead? && w.Reading? && w.plan.Proceed? && m == ReadOn(ss[k - 1].store, ss[k - 1].hosts, w, l.client))
      || (&& l.ManagerHook? && w.Hooking? && w.plan.Proceed? && w.next < |w.ms|
          && var a := ApplyInside(ss[k - 1].clusters, w.plan.id, w.ms[w.next], l.fate);
             && m == w.(next := w.next + 1, failed := w.failed || !a.ok)
             && Inside(ss[k].clusters, w.plan.id) == a.store)
  {
    assert StepAt(ss, ls, k - 1);
    PlanStaysOk(ss, ls, k - 1);
    HookingStep(ss[k - 1], ss[Seen(ls[k - 1])], ls[k - 1]);
  }

  lemma {:induction false} HookingRead(ss: seq<State>, ls: seq<Label>, k: nat) returns (r: Reads)
    requires Run(ss, ls) && k < |ss| && ss[k].manager.Hooking?
    ensures HooksSince(ss, ls, r, k, ss[k].manager)
  {
    assert k > 0;
    HookingStepAt(ss, ls, k);
    var w := ss[k - 1].manager;
    if w.Reading? {
      r := ReadingReported(ss, ls, k - 1);
      HooksBegin(ss, ls, r, k - 1, w, ls[k - 1].client);
      r := r.(work := k - 1);
    } else {
      r := HookingRead(ss, ls, k - 1);
      if ss[k].manager == w {
        HooksLater(ss, ls, r, k - 1, w);
      } else {
        HooksOneMore(ss, ls, r, k - 1, w, ls[k - 1].fate);
      }
    }
  }

  // ---------------------------------------------------------------- the whole chain

  /** The steps behind one launch, by their positions in the run. */
  datatype Trail = Trail(orgStarts: nat, inputs: Reads, hooked: nat, informs: nat, begins: nat, launches: nat, manager: string)

  /**
    In this order: an operator reported on a manager annotated with the workspace, the CA bundle and then
    both services were read, all four webhooks rendered from them were applied, the workspace was
    informed, a sync saw it ready and informed, all five hub objects rendered for it were applied, the
    controllers were launched. And before that sync, the organization was seen ready and its hub
    controller started.
  */
  ghost predicate Explains(ss: seq<State>, ls: seq<Label>, org: string, ws: string, t: Trail) {
    && |ss| == |ls| + 1
    && OrgStarts(ss, ls, org, t.orgStarts) && t.orgStarts < t.begins
    && t.inputs.work < t.hooked < t.informs < t.begins < t.launches < |ls|
    && Informs(ss, ls, Pair(org, ws), t.informs)
    && ss[t.informs].manager.plan.id == WorkspaceId(org, ws)
    && InputsRead(ss, ls, t.manager, ss[t.informs].manager.plan, t.inputs)
    && (forall i | 0 <= i < |WEBHOOKS| ::
          InCluster(ss, WorkspaceId(org, ws),
                    WebhooksRead(ss, ls, t.manager, ss[t.informs].manager.plan, t.inputs)[i], t.inputs.work, t.hooked))
    && t.informs < Seen(ls[t.begins]) <= t.begins
    && Launches(ss, ls, org, ws, t.launches)
    && BeganAt(ss, ls, org, t.begins, t.launches, ss[t.launches].controllers[org].work)
    && forall i | 0 <= i < |ss[t.launches].controllers[org].work.ms| ::
         InStore(ss, ss[t.launches].controllers[org].work.ms[i], t.begins, t.launches)
  }

  lemma AppliedThroughout(ss: seq<State>, ls: seq<Label>, org: string, ws: string, b: nat, e: nat)
    requires e < |ss| && Works(ss[e], org) && BeganAt(ss, ls, org, b, e, ss[e].controllers[org].work)
    requires Launches(ss, ls, org, ws, e)
    ensures forall i | 0 <= i < |ss[e].controllers[org].work.ms| :: InStore(ss, ss[e].controllers[org].work.ms[i], b, e)
  {}

  lemma LaunchExplained(ss: seq<State>, ls: seq<Label>, org: string, ws: string, k: nat) returns (t: Trail)
    requires MarkLeft(ss, ls, Pair(org, ws)) && k < |ss| && org in ss[k].controllers && ws in ss[k].controllers[org].launched
    ensures Explains(ss, ls, org, ws, t) && t.launches < k
  {
    var e := LaunchedByFinish(ss, ls, org, ws, k);
    var b := WorkBegan(ss, ls, org, e);
    AppliedThroughout(ss, ls, org, ws, b, e);
    var u := ConditionInformed(ss, ls, Pair(org, ws), Seen(ls[b]));
    var f := UpdatingHooked(ss, ls, u);
    var r := HookingRead(ss, ls, f);
    var o := ControllerStarted(ss, ls, org, b);
    t := Trail(o, r, f, u, b, e, ss[f].manager.manager);
    SplitInTwo(ss[u].manager.plan.id, org, ws);
  }
}
