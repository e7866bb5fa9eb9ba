/** The two workspace controllers: one starts a hub controller per organization, which starts controllers per hub workspace. */
module Workspaces {
  import opened Wrappers
  import opened Conditions
  import opened ObjectStore
  import opened Manifests

  const ORGANIZATION := "organization"
  const READY := "Ready"
  const FIRST_REGISTRATION_PORT: nat := 30442
  const FIRST_WORK_PORT: nat := 30452

  datatype OrgWorkspace = OrgWorkspace(wsType: string, phase: string)

  /** `labelled` is what the hub controller's informer selects on; the kubeconfig is rendered from the URL. */
  datatype HubWorkspace = HubWorkspace(labelled: bool, phase: string, url: string, conditions: seq<Condition>)

  predicate OrgReady(w: OrgWorkspace) {
    w.wsType == ORGANIZATION && w.phase == READY
  }

  predicate ManagerApplied(w: HubWorkspace) {
    ConditionTrue(w.conditions, CLUSTER_MANAGER_APPLIED)
  }

  predicate NoRepeats<T(==)>(s: seq<T>) {
    forall i, j | 0 <= i < j < |s| :: s[i] != s[j]
  }

  /** Every key was started, every started name is a key, and none was started twice. */
  ghost predicate StartedOnce(keys: set<string>, launched: seq<string>) {
    NoRepeats(launched) && forall n :: n in keys <==> n in launched
  }

  lemma LaunchOneMore(keys: set<string>, launched: seq<string>, n: string)
    requires StartedOnce(keys, launched) && n !in keys
    ensures StartedOnce(keys + {n}, launched + [n])
  {}

  /** The n-th proposal of a controller, counting from one: the registration and the work port. */
  function Proposal(n: nat): (nat, nat) {
    (FIRST_REGISTRATION_PORT + n, FIRST_WORK_PORT + n)
  }

  class HubWorkspaceController {
    const org: string
    var controllers: set<string>
    var launched: seq<string>
    var registrationPort: nat
    var workPort: nat
    ghost var proposals: nat

    ghost predicate Valid()
      reads this
    {
      StartedOnce(controllers, launched) && (registrationPort, workPort) == Proposal(proposals)
    }

    constructor (org: string)
      ensures Valid() && this.org == org && controllers == {} && launched == [] && proposals == 0
      ensures registrationPort == 30442 && workPort == 30452
    {
      this.org, controllers, launched, proposals := org, {}, [], 0;
      registrationPort, workPort := FIRST_REGISTRATION_PORT, FIRST_WORK_PORT;
    }

    /**
      Takes the next two ports, whatever becomes of them, and applies the five hub objects; without a
      kubeconfig, None when it cannot be written, it does neither.
    */
    method PrepareClusterManager(ws: string, kubeconfig: Option<string>, api: ApiServer, fates: seq<Fate>) returns (ok: bool)
      requires Valid() && |fates| == 5
      modifies this`registrationPort, this`workPort, this`proposals, api
      ensures Valid() && proposals == old(proposals) + (if kubeconfig.Some? then 1 else 0)
      ensures registrationPort == old(registrationPort) + (if kubeconfig.Some? then 1 else 0)
      ensures workPort == old(workPort) + (if kubeconfig.Some? then 1 else 0)
      ensures kubeconfig.None? ==> !ok && api.objects == old(api.objects)
      ensures kubeconfig.Some? ==>
        var ms := HubManifests(org, ws, kubeconfig.value, registrationPort, workPort);
        api.objects == ApplyAll(old(api.objects), ms, fates) && ok == AllSucceed(old(api.objects), ms, fates)
    {
      if kubeconfig.None? {
        return false;
      }
      registrationPort := registrationPort + 1;
      workPort := workPort + 1;
      proposals := proposals + 1;
      var errs := ApplyObjects(api, HubManifests(org, ws, kubeconfig.value, registrationPort, workPort), fates);
      ok := |errs| == 0;
    }

    /** Starts the CSR and cluster controllers of a workspace, unless they run; a failing client leaves no trace. */
    method StartHubControllers(ws: string, kubeClient: bool, clusterClient: bool) returns (ok: bool)
      requires Valid()
      modifies this`controllers, this`launched
      ensures Valid()
      ensures ok == (ws in old(controllers) || (kubeClient && clusterClient))
      ensures controllers == if ok then old(controllers) + {ws} else old(controllers)
      ensures launched == if ok && ws !in old(controllers) then old(launched) + [ws] else old(launched)
    {
      if ws in controllers {
        return true;
      }
      if !kubeClient {
        return false;
      }
      if !clusterClient {
        return false;
      }
      LaunchOneMore(controllers, launched, ws);
      controllers := controllers + {ws};
      launched := launched + [ws];
      return true;
    }

    /** One sync of a workspace as the informer shows it, None when it is not there; `written` says whether its kubeconfig can be. */
    method Sync(
      ws: string, seen: Option<HubWorkspace>, written: bool, api: ApiServer, fates: seq<Fate>, kubeClient: bool, clusterClient: bool)
      returns (ok: bool)
      requires Valid() && |fates| == 5
      modifies this, api
      ensures Valid() && old(controllers) <= controllers
      ensures seen.None? || seen.value.phase != "Ready" || !written ==>
        && ok == (seen.None? || seen.value.phase != "Ready")
        && proposals == old(proposals) && api.objects == old(api.objects) && launched == old(launched)
      ensures seen.Some? && seen.value.phase == "Ready" && written ==>
        var (r, w) := Proposal(old(proposals) + 1);
        var ms := HubManifests(org, ws, seen.value.url, r, w);
        var applied := AllSucceed(old(api.objects), ms, fates);
        var told := ConditionTrue(seen.value.conditions, "ClusterManagerApplied");
        var starts := applied && told && ws !in old(controllers) && kubeClient && clusterClient;
        && proposals == old(proposals) + 1
        && api.objects == ApplyAll(old(api.objects), ms, fates)
        && launched == old(launched) + (if starts then [ws] else [])
        && ok == (applied && (told ==> ws in controllers))
    {
      if seen.None? {
        return true;
      }
      var workspace := seen.value;
      if workspace.phase != READY {
        return true;
      }
      ok := PrepareClusterManager(ws, if written then Some(workspace.url) else None, api, fates);
      if !ok {
        return;
      }
      if !ManagerApplied(workspace) {
        return true;
      }
      ok := StartHubControllers(ws, kubeClient, clusterClient);
    }
  }

  class OrgWorkspaceController {
    var workspaces: map<string, HubWorkspaceController>
    var launched: seq<string>

    ghost predicate Valid()
      reads this
    {
      StartedOnce(workspaces.Keys, launched)
    }

    constructor ()
      ensures Valid() && workspaces == map[] && launched == []
    {
      workspaces, launched := map[], [];
    }

    /** Starts the hub controller of an organization, unless it runs; a failing client leaves no trace. */
    method StartHubWorkspaceController(org: string, client: bool) returns (ok: bool)
      requires Valid()
      modifies this
      ensures Valid()
      ensures ok == (org in old(workspaces) || client)
      ensures launched == if ok && org !in old(workspaces) then old(launched) + [org] else old(launched)
      ensures workspaces.Keys == if ok then old(workspaces.Keys) + {org} else old(workspaces.Keys)
      ensures forall o | o in old(workspaces) :: o in workspaces && workspaces[o] == old(workspaces)[o]
      ensures ok && org !in old(workspaces) ==>
        fresh(workspaces[org]) && workspaces[org].Valid() && workspaces[org].org == org && workspaces[org].launched == []
    {
      if org in workspaces {
        return true;
      }
      if !client {
        return false;
      }
      var controller := new HubWorkspaceController(org);
      LaunchOneMore(workspaces.Keys, launched, org);
      assert workspaces[org := controller].Keys == workspaces.Keys + {org};
      workspaces := workspaces[org := controller];
      launched := launched + [org];
      return true;
    }

    /** One sync of a workspace of the root: only ready organizations matter. */
    method Sync(org: string, seen: Option<OrgWorkspace>, client: bool) returns (ok: bool)
      requires Valid()
      modifies this
      ensures Valid()
      ensures var starts := seen.Some? && seen.value.wsType == "organization" && seen.value.phase == "Ready"
                            && org !in old(workspaces);
        && launched == (if starts && client then old(launched) + [org] else old(launched))
        && workspaces.Keys == (if starts && client then old(workspaces.Keys) + {org} else old(workspaces.Keys))
        && ok == (starts ==> client)
    {
      if seen.None? {
        return true;
      }
      if seen.value.wsType != ORGANIZATION {
        return true;
      }
      if seen.value.phase != READY {
        return true;
      }
      ok := StartHubWorkspaceController(org, client);
    }
  }

  // ---------------------------------------------------------------- the proposed ports

  function ProposedFrom(n: nat, calls: nat): seq<nat> {
    if calls == 0 then [] else ProposedFrom(n, calls - 1) + [Proposal(n + calls).0, Proposal(n + calls).1]
  }

  lemma {:induction false} ProposedFromMeaning(n: nat, calls: nat)
    ensures |ProposedFrom(n, calls)| == 2 * calls
    ensures forall i: nat | i < calls :: ProposedFrom(n, calls)[2 * i] == Proposal(n + i + 1).0
                                      && ProposedFrom(n, calls)[2 * i + 1] == Proposal(n + i + 1).1
  {
    if calls > 0 {
      ProposedFromMeaning(n, calls - 1);
    }
  }

  /** Up to ten calls in a row propose all different ports; eleven never do. */
  lemma ConsecutiveProposals(n: nat, calls: nat)
    ensures NoRepeats(ProposedFrom(n, calls)) <==> calls <= 10
  {
    ProposedFromMeaning(n, calls);
    var ps := ProposedFrom(n, calls);
    if calls <= 10 {
      forall i: nat, j: nat | i < j < |ps| ensures ps[i] != ps[j] {
        assert i == 2 * (i / 2) || i == 2 * (i / 2) + 1;
        assert j == 2 * (j / 2) || j == 2 * (j / 2) + 1;
        assert i / 2 < calls && j / 2 < calls;
      }
    } else {
      assert ps[2 * 0 + 1] == Proposal(n + 1).1 && ps[2 * 10] == Proposal(n + 11).0;
    }
  }
}
