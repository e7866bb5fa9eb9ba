/** Where a run ends does not depend on its order: the started controllers are those the final objects call for. */
module Convergence {
  import opened Conditions
  import opened Workspaces
  import opened ClusterManagers
  import opened Pipeline
  import opened Causality

  predicate HubReady(w: HubWorkspace) {
    w.labelled && w.phase == "Ready" && ConditionTrue(w.conditions, "ClusterManagerApplied")
  }

  predicate OrgWanted(s: State, org: string) {
    org in s.orgs && s.orgs[org].wsType == "organization" && s.orgs[org].phase == "Ready"
  }

  predicate HubWanted(s: State, p: Pair) {
    OrgWanted(s, p.org) && p in s.hubs && HubReady(s.hubs[p])
  }

  predicate Runs(s: State, p: Pair) {
    p.org in s.controllers && p.ws in s.controllers[p.org].launched
  }

  /** Type, readiness and the applied condition never go backwards. */
  ghost predicate Monotone(ss: seq<State>) {
    forall i, j | 0 <= i <= j < |ss| ::
      && (forall org | OrgWanted(ss[i], org) :: OrgWanted(ss[j], org))
      && (forall p | p in ss[i].hubs && HubReady(ss[i].hubs[p]) :: p in ss[j].hubs && HubReady(ss[j].hubs[p]))
  }

  ghost predicate OrgSyncedAt(ss: seq<State>, ls: seq<Label>, org: string, k: nat) {
    && |ss| == |ls| + 1 && k < |ls| && ls[k].OrgSync? && ls[k].org == org && ls[k].client && Seen(ls[k]) <= k
    && org in ss[Seen(ls[k])].orgs && org in ss[|ls|].orgs && ss[Seen(ls[k])].orgs[org] == ss[|ls|].orgs[org]
  }

  /** A sync of the workspace from `b` to `e` that saw its final version and met no failure. */
  ghost predicate HubSyncedAt(ss: seq<State>, ls: seq<Label>, p: Pair, b: nat, e: nat) {
    && |ss| == |ls| + 1 && b < e < |ls|
    && ls[b].HubBegin? && ls[b].org == p.org && ls[b].ws == p.ws && ls[b].written && Seen(ls[b]) <= b
    && p in ss[Seen(ls[b])].hubs && p in ss[|ls|].hubs && ss[Seen(ls[b])].hubs[p] == ss[|ls|].hubs[p]
    && (forall k | b < k < e :: !(ls[k].HubFinish? && ls[k].org == p.org))
    && ls[e] == HubFinish(p.org, true) && Works(ss[e], p.org) && !ss[e].controllers[p.org].work.failed
  }

  /** Every wanted object had a failure-free sync after its last change. */
  ghost predicate CaughtUp(ss: seq<State>, ls: seq<Label>) {
    && |ss| == |ls| + 1
    && (forall org | OrgWanted(ss[|ls|], org) :: exists k: nat :: OrgSyncedAt(ss, ls, org, k))
    && (forall p | HubWanted(ss[|ls|], p) :: exists b: nat, e: nat :: HubSyncedAt(ss, ls, p, b, e))
  }

  /** Nothing is started that the final objects do not call for. */
  lemma StartedIsWanted(ss: seq<State>, ls: seq<Label>)
    requires Run(ss, ls) && Monotone(ss)
    ensures forall org | org in ss[|ls|].controllers :: OrgWanted(ss[|ls|], org)
    ensures forall p | Runs(ss[|ls|], p) :: HubWanted(ss[|ls|], p)
  {
    forall org | org in ss[|ls|].controllers ensures OrgWanted(ss[|ls|], org) {
      var o := ControllerStarted(ss, ls, org, |ls|);
      assert OrgWanted(ss[Seen(ls[o])], org);
    }
    forall p | Runs(ss[|ls|], p) ensures HubWanted(ss[|ls|], p) {
      var e := LaunchedByFinish(ss, ls, p.org, p.ws, |ls|);
      var b := WorkBegan(ss, ls, p.org, e);
      assert p == Pair(p.org, p.ws);
      assert HubReady(ss[Seen(ls[b])].hubs[p]);
    }
  }

  /** Until it finishes, a sync works on the workspace it began with, and remembers whether it was applied. */
  lemma {:induction false} WorkStays(ss: seq<State>, ls: seq<Label>, p: Pair, b: nat, k: nat)
    requires Run(ss, ls) && b < k < |ss| && ls[b].HubBegin? && ls[b].org == p.org && ls[b].ws == p.ws && ls[b].written
    requires Seen(ls[b]) <= b && p in ss[Seen(ls[b])].hubs && HubReady(ss[Seen(ls[b])].hubs[p])
    requires forall i | b < i < k :: !(ls[i].HubFinish? && ls[i].org == p.org)
    ensures Works(ss[k], p.org)
    ensures ss[k].controllers[p.org].work.ws == p.ws && ss[k].controllers[p.org].work.applied
  {
    assert StepAt(ss, ls, k - 1);
    assert p == Pair(p.org, p.ws);
    if k > b + 1 {
      WorkStays(ss, ls, p, b, k - 1);
      StartOnce(ss, ls, k - 1);
      LeftAlone(ss[k - 1], ss[Seen(ls[k - 1])], ls[k - 1], p.org);
    }
  }

  lemma LeftAlone(s: State, view: State, l: Label, org: string)
    requires Enabled(s, view, l) && s.controllers.Keys == s.organizations && Works(s, org)
    requires !(l.HubFinish? && l.org == org)
    ensures Works(Next(s, view, l), org)
    ensures var v, w := s.controllers[org].work, Next(s, view, l).controllers[org].work; w.ws == v.ws && w.applied == v.applied
  {}

  lemma SyncedOrgIsStarted(ss: seq<State>, ls: seq<Label>, org: string, k: nat)
    requires Run(ss, ls) && OrgWanted(ss[|ls|], org) && OrgSyncedAt(ss, ls, org, k)
    ensures org in ss[|ls|].controllers
  {
    assert StepAt(ss, ls, k);
    StartOnce(ss, ls, k);
    assert org in ss[k + 1].organizations;
    StartOnce(ss, ls, k + 1);
    StartedStays(ss, ls, k + 1, |ls|);
  }

  lemma CleanFinishStarts(s: State, view: State, org: string)
    requires Enabled(s, view, HubFinish(org, true)) && Bookkeeping(s)
    requires !s.controllers[org].work.failed && s.controllers[org].work.applied
    ensures Runs(Next(s, view, HubFinish(org, true)), Pair(org, s.controllers[org].work.ws))
  {
    assert ControllerOk(s.controllers[org]);
  }

  lemma SyncedHubIsStarted(ss: seq<State>, ls: seq<Label>, p: Pair, b: nat, e: nat)
    requires Run(ss, ls) && HubWanted(ss[|ls|], p) && HubSyncedAt(ss, ls, p, b, e)
    ensures Runs(ss[|ls|], p)
  {
    WorkStays(ss, ls, p, b, e);
    assert StepAt(ss, ls, e);
    StartOnce(ss, ls, e);
    CleanFinishStarts(ss[e], ss[0], p.org);
    assert p == Pair(p.org, p.ws);
    assert Runs(ss[e + 1], p);
    StartedStays(ss, ls, e + 1, |ls|);
    LaunchedStays(ss[e + 1].controllers[p.org], ss[|ls|].controllers[p.org], p.ws);
  }

  lemma LaunchedStays(c: HubController, d: HubController, ws: string)
    requires Advances(c, d) && ws in c.launched
    ensures ws in d.launched
  {}

  /** Everything the final objects call for is started. */
  lemma WantedIsStarted(ss: seq<State>, ls: seq<Label>)
    requires Run(ss, ls) && CaughtUp(ss, ls)
    ensures forall org | OrgWanted(ss[|ls|], org) :: org in ss[|ls|].controllers
    ensures forall p | HubWanted(ss[|ls|], p) :: Runs(ss[|ls|], p)
  {
    forall org | OrgWanted(ss[|ls|], org) ensures org in ss[|ls|].controllers {
      var k: nat :| OrgSyncedAt(ss, ls, org, k);
      SyncedOrgIsStarted(ss, ls, org, k);
    }
    forall p | HubWanted(ss[|ls|], p) ensures Runs(ss[|ls|], p) {
      var b: nat, e: nat :| HubSyncedAt(ss, ls, p, b, e);
      SyncedHubIsStarted(ss, ls, p, b, e);
    }
  }

  /** Two final states that want the same, reached in whatever order, have started the same. */
  lemma OrderIndependence(ss: seq<State>, ls: seq<Label>, ss2: seq<State>, ls2: seq<Label>)
    requires Run(ss, ls) && Monotone(ss) && CaughtUp(ss, ls)
    requires Run(ss2, ls2) && Monotone(ss2) && CaughtUp(ss2, ls2)
    requires forall org :: OrgWanted(ss[|ls|], org) <==> OrgWanted(ss2[|ls2|], org)
    requires forall p :: HubWanted(ss[|ls|], p) <==> HubWanted(ss2[|ls2|], p)
    ensures ss[|ls|].organizations == ss2[|ls2|].organizations
    ensures forall org :: org in ss[|ls|].launched <==> org in ss2[|ls2|].launched
    ensures forall p :: Runs(ss[|ls|], p) <==> Runs(ss2[|ls2|], p)
    ensures forall p :: Runs(ss[|ls|], p) <==> HubWanted(ss[|ls|], p)
  {
    StartedIsWanted(ss, ls);
    StartedIsWanted(ss2, ls2);
    WantedIsStarted(ss, ls);
    WantedIsStarted(ss2, ls2);
    StartOnce(ss, ls, |ls|);
    StartOnce(ss2, ls2, |ls2|);
    assert forall org :: org in ss[|ls|].controllers <==> org in ss2[|ls2|].controllers;
  }
}
