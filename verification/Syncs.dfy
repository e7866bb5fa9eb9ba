/** When nothing comes between the steps of a sync, the state machine does what the controllers' methods do. */
module Syncs {
  import opened ObjectStore
  import opened Manifests
  import opened Workspaces
  import opened ClusterManagers
  import opened Pipeline

  ghost predicate SomeFails(store: Store, ms: seq<Manifest>, fates: seq<Fate>, n: nat)
    requires n <= |ms| == |fates|
  {
    exists i: nat :: i < n && !Succeeds(store, ms, fates, i)
  }

  lemma SomeFailsStep(store: Store, ms: seq<Manifest>, fates: seq<Fate>, n: nat)
    requires n < |ms| == |fates|
    ensures SomeFails(store, ms, fates, n + 1) <==> SomeFails(store, ms, fates, n) || !Succeeds(store, ms, fates, n)
  {}

  lemma AllOrSome(store: Store, ms: seq<Manifest>, fates: seq<Fate>)
    requires |ms| == |fates|
    ensures AllSucceed(store, ms, fates) <==> !SomeFails(store, ms, fates, |ms|)
  {}

  lemma HubStepEffect(s: State, org: string, fate: Fate)
    requires Works(s, org) && s.controllers[org].work.next < |s.controllers[org].work.ms|
    ensures var t := HubApplied(s, org, fate);
      var w := s.controllers[org].work;
      && t.store == ApplyOne(s.store, w.ms[w.next], fate).store && Works(t, org)
      && t.controllers[org].work.failed == (w.failed || !ApplyOne(s.store, w.ms[w.next], fate).ok)
  {}

  lemma HookStepEffect(s: State, fate: Fate)
    requires s.manager.Hooking? && s.manager.plan.Proceed? && s.manager.next < |s.manager.ms|
    ensures var t := HookApplied(s, fate);
      var m := s.manager;
      var a := ApplyInside(s.clusters, m.plan.id, m.ms[m.next], fate);
      && t.clusters == WithCluster(s.clusters, m.plan.id, a.store) && t.manager.Hooking?
      && t.manager.failed == (m.failed || !a.ok)
  {}

  /** The same controller, `n` applies further on. */
  ghost predicate GoneThrough(c: HubController, d: HubController, n: nat) {
    c.work.Applying? && d.work.Applying? && d == c.(work := c.work.(next := n, failed := d.work.failed))
  }

  lemma HubStepGoesOn(c: HubController, s: State, org: string, fate: Fate)
    requires Works(s, org) && s.controllers[org].work.next < |s.controllers[org].work.ms|
    requires GoneThrough(c, s.controllers[org], s.controllers[org].work.next)
    ensures var t := HubApplied(s, org, fate);
      Works(t, org) && GoneThrough(c, t.controllers[org], s.controllers[org].work.next + 1)
  {}

  /** `n` applies in a row by one hub controller. */
  ghost function HubSteps(s: State, org: string, fates: seq<Fate>, n: nat): (t: State)
    requires Works(s, org) && s.controllers[org].work.next == 0
    requires n <= |s.controllers[org].work.ms| == |fates|
    ensures Works(t, org) && GoneThrough(s.controllers[org], t.controllers[org], n)
  {
    if n == 0 then s
    else
      var before := HubSteps(s, org, fates, n - 1);
      HubStepGoesOn(s.controllers[org], before, org, fates[n - 1]);
      HubApplied(before, org, fates[n - 1])
  }

  /** The store after `n` applies, and whether one of them failed. */
  ghost predicate AppliesDo(was: Store, store: Store, ms: seq<Manifest>, fates: seq<Fate>, n: nat, failed: bool)
    requires n <= |ms| == |fates|
  {
    store == ApplyFirst(was, ms, fates, n) && (failed <==> SomeFails(was, ms, fates, n))
  }

  lemma AppliesDoMore(was: Store, store: Store, ms: seq<Manifest>, fates: seq<Fate>, n: nat, failed: bool)
    requires n < |ms| == |fates| && AppliesDo(was, store, ms, fates, n, failed)
    ensures var a := ApplyOne(store, ms[n], fates[n]); AppliesDo(was, a.store, ms, fates, n + 1, failed || !a.ok)
  {
    SomeFailsStep(was, ms, fates, n);
  }

  lemma HubStepDoes(was: Store, s: State, org: string, fates: seq<Fate>)
    requires Works(s, org) && s.controllers[org].work.next < |s.controllers[org].work.ms| == |fates|
    requires var w := s.controllers[org].work; AppliesDo(was, s.store, w.ms, fates, w.next, w.failed)
    ensures var w := s.controllers[org].work;
      var t := HubApplied(s, org, fates[w.next]);
      Works(t, org) && AppliesDo(was, t.store, w.ms, fates, w.next + 1, t.controllers[org].work.failed)
  {
    var w := s.controllers[org].work;
    HubStepEffect(s, org, fates[w.next]);
    AppliesDoMore(was, s.store, w.ms, fates, w.next, w.failed);
  }

  lemma {:induction false} HubStepsApply(s: State, org: string, fates: seq<Fate>, n: nat)
    requires Works(s, org) && s.controllers[org].work.next == 0 && !s.controllers[org].work.failed
    requires n <= |s.controllers[org].work.ms| == |fates|
    ensures var t := HubSteps(s, org, fates, n);
      AppliesDo(s.store, t.store, s.controllers[org].work.ms, fates, n, t.controllers[org].work.failed)
  {
    if n > 0 {
      HubStepsApply(s, org, fates, n - 1);
      var before := HubSteps(s, org, fates, n - 1);
      HubStepDoes(s.store, before, org, fates);
    }
  }

  /** One whole sync of a hub workspace, undisturbed. */
  ghost function HubSync(s: State, org: string, seen: HubWorkspace, ws: string, fates: seq<Fate>, client: bool): State
    requires org in s.controllers && s.controllers[org].work.Resting? && |fates| == 5 && seen.phase == READY
  {
    var begun := WithController(s, org, Begun(s.controllers[org], org, ws, seen, true));
    var applied := HubSteps(begun, org, fates, 5);
    Next(applied, applied, HubFinish(org, client))
  }

  lemma BeginEffect(s: State, org: string, seen: HubWorkspace, ws: string)
    requires org in s.controllers && seen.phase == READY
    ensures var c := s.controllers[org];
      var t := WithController(s, org, Begun(c, org, ws, seen, true));
      && t.store == s.store && Works(t, org)
      && t.controllers[org] == c.(registrationPort := c.registrationPort + 1, workPort := c.workPort + 1,
           work := Applying(ws, ManagerApplied(seen),
                            HubManifests(org, ws, seen.url, c.registrationPort + 1, c.workPort + 1), 0, false))
  {}

  lemma FinishEffect(s: State, org: string, client: bool)
    requires Works(s, org) && s.controllers[org].work.next == |s.controllers[org].work.ms|
    ensures var t := Next(s, s, HubFinish(org, client));
      && t.store == s.store && org in t.controllers && t.controllers[org] == Finished(s.controllers[org], client)
  {}

  /** What finishing makes of the controller. */
  lemma FinishedExactly(c: HubController, client: bool)
    requires c.work.Applying?
    ensures var starts := !c.work.failed && c.work.applied && c.work.ws !in c.controllers && client;
      Finished(c, client) == HubController(c.registrationPort, c.workPort,
        c.controllers + (if starts then {c.work.ws} else {}), c.launched + (if starts then [c.work.ws] else []), Resting)
  {}

  /** The undisturbed sync ends as the hub workspace controller's method does, ports, objects and launches alike. */
  lemma UndisturbedHubSync(s: State, org: string, seen: HubWorkspace, ws: string, fates: seq<Fate>, client: bool)
    requires org in s.controllers && s.controllers[org].work.Resting? && |fates| == 5 && seen.phase == READY
    ensures var c := s.controllers[org];
      var t := HubSync(s, org, seen, ws, fates, client);
      var ms := HubManifests(org, ws, seen.url, c.registrationPort + 1, c.workPort + 1);
      var starts := AllSucceed(s.store, ms, fates) && ManagerApplied(seen) && ws !in c.controllers && client;
      && t.store == ApplyAll(s.store, ms, fates)
      && org in t.controllers
      && t.controllers[org] == HubController(c.registrationPort + 1, c.workPort + 1,
           c.controllers + (if starts then {ws} else {}), c.launched + (if starts then [ws] else []), Resting)
  {
    BeginEffect(s, org, seen, ws);
    var begun := WithController(s, org, Begun(s.controllers[org], org, ws, seen, true));
    HubStepsApply(begun, org, fates, 5);
    AllOrSome(s.store, begun.controllers[org].work.ms, fates);
    var applied := HubSteps(begun, org, fates, 5);
    FinishEffect(applied, org, client);
    FinishedExactly(applied.controllers[org], client);
  }

  /** `n` webhook applies in a row. */
  ghost function HookSteps(s: State, fates: seq<Fate>, n: nat): (t: State)
    requires s.manager.Hooking? && s.manager.plan.Proceed? && s.manager.next == 0
    requires n <= |s.manager.ms| == |fates|
    ensures t.manager.Hooking? && t.manager == s.manager.(next := n, failed := t.manager.failed)
    ensures t == s.(manager := t.manager, clusters := t.clusters)
  {
    if n == 0 then s
    else
      var before := HookSteps(s, fates, n - 1);
      HookApplied(before, fates[n - 1])
  }

  /** The clusters after `n` webhooks: those of a missing cluster all fail. */
  ghost predicate HooksDo(was: map<string, Store>, clusters: map<string, Store>, id: string, ms: seq<Manifest>, fates: seq<Fate>, n: nat, failed: bool)
    requires n <= |ms| == |fates|
  {
    if id in was then
      && clusters == was[id := ApplyFirst(was[id], ms, fates, n)]
      && (failed <==> SomeFails(was[id], ms, fates, n))
    else clusters == was && (failed <==> n > 0)
  }

  lemma HooksDoMore(was: map<string, Store>, clusters: map<string, Store>, id: string, ms: seq<Manifest>, fates: seq<Fate>, n: nat, failed: bool)
    requires n < |ms| == |fates| && ms[n].Manifest? && HooksDo(was, clusters, id, ms, fates, n, failed)
    ensures var a := ApplyInside(clusters, id, ms[n], fates[n]);
      HooksDo(was, WithCluster(clusters, id, a.store), id, ms, fates, n + 1, failed || !a.ok)
  {
    if id in was {
      SomeFailsStep(was[id], ms, fates, n);
    }
  }

  ghost predicate NoneUnhandled(ms: seq<Manifest>) {
    forall i | 0 <= i < |ms| :: ms[i].Manifest?
  }

  lemma HooksDoNothing(was: map<string, Store>, id: string, ms: seq<Manifest>, fates: seq<Fate>)
    requires |ms| == |fates|
    ensures HooksDo(was, was, id, ms, fates, 0, false)
  {
    if id in was {
      assert was == was[id := ApplyFirst(was[id], ms, fates, 0)];
    }
  }

  lemma HookStepDoes(was: map<string, Store>, s: State, fates: seq<Fate>)
    requires s.manager.Hooking? && s.manager.plan.Proceed? && s.manager.next < |s.manager.ms| == |fates|
    requires NoneUnhandled(s.manager.ms)
    requires HooksDo(was, s.clusters, s.manager.plan.id, s.manager.ms, fates, s.manager.next, s.manager.failed)
    ensures var m := s.manager;
      var t := HookApplied(s, fates[m.next]);
      t.manager.Hooking? && HooksDo(was, t.clusters, m.plan.id, m.ms, fates, m.next + 1, t.manager.failed)
  {
    var m := s.manager;
    HookStepEffect(s, fates[m.next]);
    HooksDoMore(was, s.clusters, m.plan.id, m.ms, fates, m.next, m.failed);
  }

  lemma {:induction false} HookStepsApply(s: State, fates: seq<Fate>, n: nat)
    requires s.manager.Hooking? && s.manager.plan.Proceed? && s.manager.next == 0 && !s.manager.failed
    requires n <= |s.manager.ms| == |fates| && NoneUnhandled(s.manager.ms)
    ensures var t := HookSteps(s, fates, n);
      HooksDo(s.clusters, t.clusters, s.manager.plan.id, s.manager.ms, fates, n, t.manager.failed)
  {
    if n == 0 {
      HooksDoNothing(s.clusters, s.manager.plan.id, s.manager.ms, fates);
    } else {
      HookStepsApply(s, fates, n - 1);
      var before := HookSteps(s, fates, n - 1);
      HookStepDoes(s.clusters, before, fates);
      assert HookSteps(s, fates, n) == HookApplied(before, fates[n - 1]);
    }
  }

  /** A sync of a manager that has read nothing yet, with everything there to be read. */
  predicate ReadyToRead(s: State) {
    && s.manager.Reading? && s.manager.plan.Proceed? && s.manager.found.NothingYet?
    && WebhookInputs(s.store, s.manager.manager)
  }

  /** The three reads in a row. */
  function ReadAll(s: State): State
    requires ReadyToRead(s)
  {
    var one := Next(s, s, ManagerRead(true));
    var two := Next(one, one, ManagerRead(true));
    Next(two, two, ManagerRead(true))
  }

  lemma ReadEffect(s: State)
    requires ReadyToRead(s)
    ensures ReadAll(s) == s.(manager :=
      Hooking(s.manager.manager, s.manager.plan, WebhooksFor(s.hosts, s.store, s.manager.manager), 0, false))
  {}

  /** What is left of a manager's sync when the webhooks have been gone through. */
  ghost function Told(s: State, now: int, luck: Luck): State
    requires s.manager.Hooking? && s.manager.plan.Proceed? && s.manager.next == |s.manager.ms|
  {
    var due := Next(s, s, ManagerHooked);
    if due.manager.Updating? then Next(due, due, ManagerUpdate(now, luck)) else due
  }

  /** The rest of a manager's sync once its webhook inputs are there, undisturbed. */
  ghost function HookSync(s: State, fates: seq<Fate>, now: int, luck: Luck): State
    requires ReadyToRead(s) && |fates| == |WEBHOOKS|
  {
    var read := ReadAll(s);
    Told(HookSteps(read, fates, |WEBHOOKS|), now, luck)
  }

  lemma ToldEffect(s: State, now: int, luck: Luck)
    requires s.manager.Hooking? && s.manager.plan.Proceed? && s.manager.next == |s.manager.ms|
    ensures var plan := s.manager.plan;
      Told(s, now, luck) == s.(manager := Idle,
        hubs := if s.manager.failed then s.hubs else StatusUpdate(s.hubs, plan.pair, plan.condition, now, luck).workspaces)
  {}

  /** The undisturbed sync ends as the cluster manager controller's method does: webhooks first, status only after all of them. */
  lemma UndisturbedManagerSync(s: State, fates: seq<Fate>, now: int, luck: Luck)
    requires ReadyToRead(s) && |fates| == |WEBHOOKS|
    ensures var plan := s.manager.plan;
      var served := plan.id in s.clusters;
      var ms := WebhooksFor(s.hosts, s.store, s.manager.manager);
      HookSync(s, fates, now, luck) == s.(manager := Idle,
        clusters := if served then s.clusters[plan.id := ApplyAll(s.clusters[plan.id], ms, fates)] else s.clusters,
        hubs := if served && AllSucceed(s.clusters[plan.id], ms, fates)
                then StatusUpdate(s.hubs, plan.pair, plan.condition, now, luck).workspaces else s.hubs)
  {
    ReadEffect(s);
    var read := ReadAll(s);
    HookStepsApply(read, fates, |WEBHOOKS|);
    if s.manager.plan.id in s.clusters {
      AllOrSome(s.clusters[s.manager.plan.id], read.manager.ms, fates);
    }
    ToldEffect(HookSteps(read, fates, |WEBHOOKS|), now, luck);
  }
}
