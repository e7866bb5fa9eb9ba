/** The cluster manager controller: applies the webhooks of a workspace, then tells the workspace so. */
module ClusterManagers {
  import opened Wrappers
  import opened Conditions
  import opened Naming
  import opened ObjectStore
  import opened Manifests
  import opened Workspaces

  datatype Pair = Pair(org: string, ws: string)

  /** The kcp side: the hub workspaces of every organization, and the objects inside each logical cluster. */
  class KcpServer {
    var workspaces: map<Pair, HubWorkspace>
    var clusters: map<string, ApiServer>

    constructor ()
      ensures workspaces == map[] && clusters == map[]
    {
      workspaces, clusters := map[], map[];
    }
  }

  /** What a failing client or server does to one sync. */
  datatype Luck = Luck(webhookClient: bool, webhooks: seq<Fate>, workspaceClient: bool, get: bool, update: bool)

  /** What a sync of a manager is going to do, from the manager alone. */
  datatype Plan = Nothing | BadAnnotation | Proceed(id: string, pair: Pair, condition: Condition)

  function PlanFor(annotation: Option<string>, conditions: seq<Condition>): Plan {
    if annotation.None? then Nothing
    else
      var ids := Split(annotation.value, SEPARATOR);
      if |ids| != 2 then BadAnnotation
      else
        match AppliedCondition(conditions)
        case None => Nothing
        case Some(c) => Proceed(annotation.value, Pair(ids[0], ids[1]), c)
  }

  /**
    A sync proceeds exactly for a manager annotated with two colon-free names on which the operator has reported;
    an annotation of another form is an error, and a manager without one, or without a report, is left alone.
  */
  lemma PlanMeaning(annotation: Option<string>, conditions: seq<Condition>)
    ensures var p := PlanFor(annotation, conditions);
      && (p.BadAnnotation? <==> annotation.Some? && |Split(annotation.value, ':')| != 2)
      && (p.Nothing? <==> annotation.None?
                          || (|Split(annotation.value, ':')| == 2 && !Present(conditions, "Applied")))
      && (p.Proceed? ==>
            && annotation == Some(p.id) && p.id == WorkspaceId(p.pair.org, p.pair.ws)
            && Split(p.id, ':') == [p.pair.org, p.pair.ws]
            && Some(p.condition) == AppliedCondition(conditions)
            && p.condition.ctype == "ClusterManagerApplied" && p.condition.status == IsTrue)
      && (forall org, ws | annotation == Some(WorkspaceId(org, ws)) && ':' !in org && ':' !in ws ::
            p.Proceed? == Present(conditions, "Applied") && (p.Proceed? ==> p.pair == Pair(org, ws)))
  {
    AppliedConditionNeverFalse(conditions);
    var p := PlanFor(annotation, conditions);
    if p.Proceed? {
      var ids := Split(annotation.value, SEPARATOR);
      assert ids == [ids[0], ids[1]];
      SplitInTwo(p.id, p.pair.org, p.pair.ws);
    }
    forall org, ws | annotation == Some(WorkspaceId(org, ws)) && ':' !in org && ':' !in ws
      ensures p.Proceed? == Present(conditions, "Applied") && (p.Proceed? ==> p.pair == Pair(org, ws))
    {
      AnnotationRoundTrip(org, ws);
    }
  }

  /** The workspaces after a status update, whether it succeeded, and whether it wrote anything. */
  datatype Updated = Updated(workspaces: map<Pair, HubWorkspace>, ok: bool, wrote: bool)

  /** The condition goes to the workspace as it stands; no workspace and no difference are both fine. */
  function StatusUpdate(workspaces: map<Pair, HubWorkspace>, p: Pair, c: Condition, now: int, luck: Luck): Updated {
    if !luck.workspaceClient || !luck.get then Updated(workspaces, false, false)
    else if p !in workspaces then Updated(workspaces, true, false)
    else
      var w := workspaces[p];
      var conditions := Upsert(w.conditions, c, now);
      if conditions == w.conditions then Updated(workspaces, true, false)
      else if !luck.update then Updated(workspaces, false, false)
      else Updated(workspaces[p := w.(conditions := conditions)], true, true)
  }

  /**
    A failed update changes nothing. A successful one leaves its mark in the workspace's conditions alone, and
    there under its own type alone; repeating it with the same report writes nothing, however unlucky the server.
  */
  lemma SecondUpdateWritesNothing(workspaces: map<Pair, HubWorkspace>, p: Pair, c: Condition, now: int, luck: Luck, later: int, luck2: Luck)
    ensures var first := StatusUpdate(workspaces, p, c, now, luck);
      var told := p in workspaces && Present(workspaces[p].conditions, c.ctype)
                  && SameReport(workspaces[p].conditions[First(workspaces[p].conditions, c.ctype)], c);
      && (first.ok <==> luck.workspaceClient && luck.get && (p !in workspaces || told || luck.update))
      && (first.wrote <==> first.ok && p in workspaces && !told)
      && (!first.ok ==> first.workspaces == workspaces)
      && (first.ok && p in workspaces ==>
            && p in first.workspaces
            && first.workspaces[p] == workspaces[p].(conditions := Upsert(workspaces[p].conditions, c, now))
            && Present(first.workspaces[p].conditions, c.ctype)
            && SameReport(first.workspaces[p].conditions[First(first.workspaces[p].conditions, c.ctype)], c)
            && (ConditionTrue(first.workspaces[p].conditions, c.ctype) <==> c.status == IsTrue))
      && (forall t | t != c.ctype && p in workspaces && p in first.workspaces ::
            ConditionTrue(first.workspaces[p].conditions, t) <==> ConditionTrue(workspaces[p].conditions, t))
      && (forall q | q != p :: q in first.workspaces <==> q in workspaces)
      && (forall q | q != p && q in workspaces :: first.workspaces[q] == workspaces[q])
      && var second := StatusUpdate(first.workspaces, p, c, later, luck2);
         first.ok ==>
           && !second.wrote && second.workspaces == first.workspaces
           && second.ok == (luck2.workspaceClient && luck2.get)
  {
    if p in workspaces {
      UpsertMeaning(workspaces[p].conditions, c, now);
      UpsertFixpoint(workspaces[p].conditions, c, now, later);
      UpsertChangesIff(workspaces[p].conditions, c, now);
      UpsertChangesIff(workspaces[p].conditions, c, later);
      forall t | t != c.ctype
        ensures ConditionTrue(Upsert(workspaces[p].conditions, c, now), t) <==> ConditionTrue(workspaces[p].conditions, t)
      {
        UpsertKeepsOthers(workspaces[p].conditions, c, now, t);
      }
    }
  }

  predicate BundleThere(hub: Store, manager: string) {
    CaBundle(manager) in hub && hub[CaBundle(manager)].ConfigBody? && hub[CaBundle(manager)].bundle.Some?
  }

  predicate ServiceThere(hub: Store, manager: string, toWork: bool) {
    ServiceKey(manager, toWork) in hub && hub[ServiceKey(manager, toWork)].ServiceBody?
  }

  /** Everything the webhooks are rendered from is there. */
  predicate WebhookInputs(hub: Store, manager: string) {
    BundleThere(hub, manager) && ServiceThere(hub, manager, false) && ServiceThere(hub, manager, true)
  }

  function WebhooksFor(hosts: Hosts, hub: Store, manager: string): (ms: seq<Manifest>)
    requires WebhookInputs(hub, manager)
    ensures |ms| == |WEBHOOKS|
  {
    WebhookManifests(hosts, hub[CaBundle(manager)].bundle.value, hub[RegistrationService(manager)].nodePort, hub[WorkService(manager)].nodePort)
  }

  class ClusterManagerController {
    const hosts: Hosts
    const hub: ApiServer
    const kcp: KcpServer

    constructor (hosts: Hosts, hub: ApiServer, kcp: KcpServer)
      ensures this.hosts == hosts && this.hub == hub && this.kcp == kcp
    {
      this.hosts, this.hub, this.kcp := hosts, hub, kcp;
    }

    /** Copies the conditions, upserts the copy, and writes the workspace only when the copy differs. */
    method UpdateWorkspaceStatus(p: Pair, applied: Condition, now: int, luck: Luck) returns (ok: bool, wrote: bool)
      modifies kcp
      ensures kcp.clusters == old(kcp.clusters)
      ensures Updated(kcp.workspaces, ok, wrote) == StatusUpdate(old(kcp.workspaces), p, applied, now, luck)
    {
      wrote := false;
      if !luck.workspaceClient {
        return false, false;
      }
      if !luck.get {
        return false, false;
      }
      if p !in kcp.workspaces {
        return true, false;
      }
      var workspace := kcp.workspaces[p];
      var oldConditions := workspace.conditions;
      var copied := new Condition[|oldConditions|](i requires 0 <= i < |oldConditions| => oldConditions[i]);
      assert copied[..] == oldConditions;
      var newConditions := SetStatusCondition(copied, applied, now);
      if oldConditions == newConditions[..] {
        return true, false;
      }
      if !luck.update {
        return false, false;
      }
      kcp.workspaces := kcp.workspaces[p := workspace.(conditions := newConditions[..])];
      return true, true;
    }

    /** The logical cluster of an annotation, as far as there is one. */
    ghost function Touched(id: string): set<ApiServer>
      reads kcp
    {
      if id in kcp.clusters then {kcp.clusters[id]} else {}
    }

    /**
      Reads the CA bundle and the two services, and applies the four webhook configurations; in a
      logical cluster that does not exist no apply succeeds.
    */
    method ApplyWebhooks(manager: string, id: string, luck: Luck) returns (ok: bool)
      requires hub !in Touched(id) && |luck.webhooks| == |WEBHOOKS|
      modifies Touched(id)
      ensures id !in kcp.clusters ==> !ok
      ensures id in kcp.clusters && !(WebhookInputs(hub.objects, manager) && luck.webhookClient) ==>
        !ok && kcp.clusters[id].objects == old(kcp.clusters[id].objects)
      ensures id in kcp.clusters && WebhookInputs(hub.objects, manager) && luck.webhookClient ==>
        var ms := WebhooksFor(hosts, hub.objects, manager);
        && kcp.clusters[id].objects == ApplyAll(old(kcp.clusters[id].objects), ms, luck.webhooks)
        && ok == AllSucceed(old(kcp.clusters[id].objects), ms, luck.webhooks)
    {
      var bundle, registration, work := CaBundle(manager), RegistrationService(manager), WorkService(manager);
      if bundle !in hub.objects || !hub.objects[bundle].ConfigBody? {
        return false;
      }
      var caBundle := hub.objects[bundle].bundle;
      if caBundle.None? {
        return false;
      }
      if registration !in hub.objects || !hub.objects[registration].ServiceBody? {
        return false;
      }
      if work !in hub.objects || !hub.objects[work].ServiceBody? {
        return false;
      }
      if !luck.webhookClient || id !in kcp.clusters {
        return false;
      }
      var ms := WebhookManifests(hosts, caBundle.value,
                                 hub.objects[registration].nodePort, hub.objects[work].nodePort);
      var errs := ApplyObjects(kcp.clusters[id], ms, luck.webhooks);
      ok := |errs| == 0;
    }

    /**
      One sync of a manager as the informer shows it. The workspace learns nothing before every webhook
      is applied, and a repetition with nothing changed in between writes no status.
    */
    method Sync(manager: string, annotation: Option<string>, conditions: array<Condition>, now: int, luck: Luck)
      returns (ok: bool, wrote: bool)
      requires |luck.webhooks| == |WEBHOOKS|
      requires annotation.Some? ==> hub !in Touched(annotation.value)
      modifies kcp, if annotation.Some? then Touched(annotation.value) else {}
      ensures kcp.clusters == old(kcp.clusters)
      ensures var plan := PlanFor(annotation, old(conditions[..]));
        && (!plan.Proceed? ==> !wrote && ok == plan.Nothing? && kcp.workspaces == old(kcp.workspaces))
        && (plan.Proceed? ==>
              var served := plan.id in kcp.clusters;
              var ready := served && WebhookInputs(hub.objects, manager) && luck.webhookClient;
              var inside := if served then old(kcp.clusters[plan.id].objects) else map[];
              var ms := if ready then WebhooksFor(hosts, hub.objects, manager) else [];
              && (served ==> kcp.clusters[plan.id].objects == (if ready then ApplyAll(inside, ms, luck.webhooks) else inside))
              && Updated(kcp.workspaces, ok, wrote) ==
                   (if ready && AllSucceed(inside, ms, luck.webhooks)
                    then StatusUpdate(old(kcp.workspaces), plan.pair, plan.condition, now, luck)
                    else Updated(old(kcp.workspaces), false, false)))
    {
      wrote := false;
      if annotation.None? {
        return true, false;
      }
      var ids := Split(annotation.value, SEPARATOR);
      if |ids| != 2 {
        return false, false;
      }
      var applied := IsClusterManagerApplied(conditions);
      if applied.None? {
        return true, false;
      }
      AppliedConditionNeverFalse(conditions[..]);
      if applied.value.status == IsFalse {
        assert false;
      }
      ok := ApplyWebhooks(manager, annotation.value, luck);
      if !ok {
        return;
      }
      ok, wrote := UpdateWorkspaceStatus(Pair(ids[0], ids[1]), applied.value, now, luck);
    }
  }
}
