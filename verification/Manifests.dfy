/** The manifests the controllers render: five hub objects, and four webhook configurations. */
module Manifests {
  import opened Wrappers
  import opened Naming
  import opened ObjectStore

  const REGISTRATION_SERVICE := "cluster-manager-registration-webhook"
  const WORK_SERVICE := "cluster-manager-work-webhook"
  const KUBECONFIG_SECRET := "external-hub-kubeconfig"
  const OPAQUE := "Opaque"
  const CA_BUNDLE_CONFIG_MAP := "ca-bundle-configmap"

  /** The same for every cluster manager. */
  const MANAGER_SPEC := ManagerSpec(
    "quay.io/skeeey/registration:kcp-latest", "quay.io/open-cluster-management/work",
    "quay.io/open-cluster-management/placement", "Hosted")

  function RegistrationService(manager: string): Key { Key(ServiceKind, manager, REGISTRATION_SERVICE) }

  function WorkService(manager: string): Key { Key(ServiceKind, manager, WORK_SERVICE) }

  function ServiceKey(manager: string, toWork: bool): Key {
    if toWork then WorkService(manager) else RegistrationService(manager)
  }

  /** Each service selects the pods of its own webhook. */
  function ServiceManifest(manager: string, toWork: bool, port: nat): Manifest {
    Manifest(ServiceKey(manager, toWork),
             ServiceBody(port, manager + (if toWork then "-work-webhook" else "-registration-webhook")))
  }

  function ManagerKey(manager: string): Key { Key(ManagerKind, "", manager) }

  function CaBundle(manager: string): Key { Key(ConfigMapKind, manager, CA_BUNDLE_CONFIG_MAP) }

  /** Where the operator reads the kubeconfig of a hub. */
  function KubeconfigSecret(manager: string): Key { Key(SecretKind, manager, KUBECONFIG_SECRET) }

  function NamespaceManifest(manager: string): Manifest {
    Manifest(Key(NamespaceKind, "", manager), NamespaceBody)
  }

  function SecretManifest(manager: string, kubeconfig: string): Manifest {
    Manifest(KubeconfigSecret(manager), SecretBody(kubeconfig, OPAQUE, false))
  }

  function ManagerManifest(org: string, ws: string): Manifest {
    Manifest(ManagerKey(ManagerName(org, ws)), ManagerBody(Some(WorkspaceId(org, ws)), MANAGER_SPEC, []))
  }

  function HubManifests(org: string, ws: string, kubeconfig: string, registrationPort: nat, workPort: nat): seq<Manifest> {
    var manager := ManagerName(org, ws);
    [ NamespaceManifest(manager),
      SecretManifest(manager, kubeconfig),
      ServiceManifest(manager, false, registrationPort),
      ServiceManifest(manager, true, workPort),
      ManagerManifest(org, ws) ]
  }

  /** Which service a webhook configuration calls. */
  datatype Webhook = Webhook(key: Key, toWork: bool)

  const WEBHOOKS: seq<Webhook> := [
    Webhook(Key(ValidatingKind, "", "managedclustersetbindingvalidators.admission.cluster.open-cluster-management.io"), false),
    Webhook(Key(MutatingKind, "", "managedclustermutators.admission.cluster.open-cluster-management.io"), false),
    Webhook(Key(ValidatingKind, "", "managedclustervalidators.admission.cluster.open-cluster-management.io"), false),
    Webhook(Key(ValidatingKind, "", "manifestworkvalidators.admission.work.open-cluster-management.io"), true)
  ]

  datatype Hosts = Hosts(registration: string, work: string)

  function WebhookManifest(hosts: Hosts, caBundle: string, registrationPort: nat, workPort: nat, w: Webhook): Manifest {
    Manifest(w.key, if w.toWork then WebhookBody(hosts.work, workPort, caBundle)
                    else WebhookBody(hosts.registration, registrationPort, caBundle))
  }

  function WebhookManifests(hosts: Hosts, caBundle: string, registrationPort: nat, workPort: nat): (ms: seq<Manifest>)
    ensures |ms| == |WEBHOOKS|
    ensures forall i | 0 <= i < |ms| :: ms[i] == WebhookManifest(hosts, caBundle, registrationPort, workPort, WEBHOOKS[i])
  {
    seq(|WEBHOOKS|, i requires 0 <= i < |WEBHOOKS| =>
      WebhookManifest(hosts, caBundle, registrationPort, workPort, WEBHOOKS[i]))
  }

  /** The five objects of a hub, as its manifests have them. */
  lemma HubManifestsRendered(org: string, ws: string, kubeconfig: string, registrationPort: nat, workPort: nat)
    ensures var m := "kcp-" + org + "-" + ws + "-cluster-manager";
      HubManifests(org, ws, kubeconfig, registrationPort, workPort) == [
        Manifest(Key(NamespaceKind, "", m), NamespaceBody),
        Manifest(Key(SecretKind, m, "external-hub-kubeconfig"), SecretBody(kubeconfig, "Opaque", false)),
        Manifest(Key(ServiceKind, m, "cluster-manager-registration-webhook"),
                 ServiceBody(registrationPort, m + "-registration-webhook")),
        Manifest(Key(ServiceKind, m, "cluster-manager-work-webhook"), ServiceBody(workPort, m + "-work-webhook")),
        Manifest(Key(ManagerKind, "", m), ManagerBody(Some(org + ":" + ws), ManagerSpec(
          "quay.io/skeeey/registration:kcp-latest", "quay.io/open-cluster-management/work",
          "quay.io/open-cluster-management/placement", "Hosted"), [])) ]
  {
    ManagerNamePrefixed(org, ws);
    AnnotationRoundTrip(org, ws);
  }

  /** The objects that the webhooks of a manager are rendered from. */
  lemma InputKeys(manager: string)
    ensures CaBundle(manager) == Key(ConfigMapKind, manager, "ca-bundle-configmap")
    ensures ServiceKey(manager, false) == Key(ServiceKind, manager, "cluster-manager-registration-webhook")
    ensures ServiceKey(manager, true) == Key(ServiceKind, manager, "cluster-manager-work-webhook")
    ensures ManagerKey(manager) == Key(ManagerKind, "", manager)
  {}

  /** The four configurations: three call the registration service, the one for manifest works the work service. */
  lemma WebhookRows()
    ensures |WEBHOOKS| == 4
    ensures forall i | 0 <= i < 4 :: WEBHOOKS[i].key.ns == ""
    ensures forall i | 0 <= i < 4 ::
      WEBHOOKS[i].toWork <==> WEBHOOKS[i].key.name == "manifestworkvalidators.admission.work.open-cluster-management.io"
    ensures forall i | 0 <= i < 4 ::
      WEBHOOKS[i].key.kind == MutatingKind
      <==> WEBHOOKS[i].key.name == "managedclustermutators.admission.cluster.open-cluster-management.io"
    ensures forall i | 0 <= i < 4 :: WEBHOOKS[i].key.kind in {MutatingKind, ValidatingKind}
    ensures WEBHOOKS[0].key.name == "managedclustersetbindingvalidators.admission.cluster.open-cluster-management.io"
    ensures WEBHOOKS[1].key.name == "managedclustermutators.admission.cluster.open-cluster-management.io"
    ensures WEBHOOKS[2].key.name == "managedclustervalidators.admission.cluster.open-cluster-management.io"
    ensures WEBHOOKS[3].key.name == "manifestworkvalidators.admission.work.open-cluster-management.io"
  {
    assert |WEBHOOKS[0].key.name| == 79 && |WEBHOOKS[1].key.name| == 67 && |WEBHOOKS[2].key.name| == 69 && |WEBHOOKS[3].key.name| == 64;
  }

  lemma HubKeysDistinct(org: string, ws: string, kubeconfig: string, registrationPort: nat, workPort: nat)
    ensures DistinctKeys(HubManifests(org, ws, kubeconfig, registrationPort, workPort))
  {
    assert REGISTRATION_SERVICE != WORK_SERVICE by {
      assert |REGISTRATION_SERVICE| != |WORK_SERVICE|;
    }
  }

  lemma WebhookKeysDistinct(i: nat, j: nat)
    requires i < j < |WEBHOOKS|
    ensures WEBHOOKS[i].key != WEBHOOKS[j].key
  {
    assert |WEBHOOKS[0].key.name| == 79 && |WEBHOOKS[2].key.name| == 69 && |WEBHOOKS[3].key.name| == 64;
  }

  lemma WebhookIndexUnique(i: nat, j: nat)
    requires i < |WEBHOOKS| && j < |WEBHOOKS| && WEBHOOKS[i].key == WEBHOOKS[j].key
    ensures i == j
  {
    if i < j {
      WebhookKeysDistinct(i, j);
    } else if j < i {
      WebhookKeysDistinct(j, i);
    }
  }

  const ALL_HEALTHY: seq<Fate> := [Healthy, Healthy, Healthy, Healthy, Healthy]

  lemma FiveApplies(store: Store, ms: seq<Manifest>)
    requires |ms| == 5
    ensures ApplyAll(store, ms, ALL_HEALTHY)
         == ApplyOne(ApplyOne(ApplyOne(ApplyOne(ApplyOne(store,
              ms[0], Healthy).store, ms[1], Healthy).store, ms[2], Healthy).store, ms[3], Healthy).store, ms[4], Healthy).store
  {
    assert ApplyFirst(store, ms, ALL_HEALTHY, 0) == store;
    assert ApplyFirst(store, ms, ALL_HEALTHY, 2) == ApplyOne(ApplyFirst(store, ms, ALL_HEALTHY, 1), ms[1], Healthy).store;
    assert ApplyFirst(store, ms, ALL_HEALTHY, 4) == ApplyOne(ApplyFirst(store, ms, ALL_HEALTHY, 3), ms[3], Healthy).store;
  }

  /**
    Two workspaces with one manager name share its objects: the later sync replaces the kubeconfig
    of the earlier one, while the manager goes on naming, and reporting on, the workspace that came first.
  */
  lemma ClashTakesKubeconfig(store: Store, first: Body, org: string, ws: string, org2: string, ws2: string, kubeconfig2: string, r: nat, w: nat)
    requires ManagerName(org, ws) == ManagerName(org2, ws2)
    requires var m := ManagerName(org, ws);
      && ManagerKey(m) in store && store[ManagerKey(m)] == first
      && first.ManagerBody? && first.annotation == Some(WorkspaceId(org, ws))
      && KubeconfigSecret(m) in store && store[KubeconfigSecret(m)].SecretBody?
    ensures var m := ManagerName(org, ws);
      var after := ApplyAll(store, HubManifests(org2, ws2, kubeconfig2, r, w), ALL_HEALTHY);
      && KubeconfigSecret(m) in after && after[KubeconfigSecret(m)].SecretBody? && after[KubeconfigSecret(m)].data == kubeconfig2
      && ManagerKey(m) in after && after[ManagerKey(m)].ManagerBody?
      && after[ManagerKey(m)].annotation == Some(WorkspaceId(org, ws))
      && after[ManagerKey(m)].conditions == first.conditions
  {
    var ms := HubManifests(org2, ws2, kubeconfig2, r, w);
    HubKeysDistinct(org2, ws2, kubeconfig2, r, w);
    KeptObject(store, ms, ALL_HEALTHY, ManagerKey(ManagerName(org, ws)));
    OwnApplyDecides(store, ms, ALL_HEALTHY, 1);
  }

  /** The hub loses the kubeconfig: the secret is immutable, the rendered kubeconfig another, and the create after the delete fails. */
  lemma KubeconfigLost(store: Store, org: string, ws: string, was: string, kubeconfig: string, r: nat, w: nat, fates: seq<Fate>)
    requires |fates| == 5 && fates[1] == SecondWriteFails && was != kubeconfig
    requires var secret := KubeconfigSecret(ManagerName(org, ws));
      secret in store && store[secret] == SecretBody(was, OPAQUE, true)
    ensures KubeconfigSecret(ManagerName(org, ws)) !in ApplyAll(store, HubManifests(org, ws, kubeconfig, r, w), fates)
  {
    HubKeysDistinct(org, ws, kubeconfig, r, w);
    OwnApplyDecides(store, HubManifests(org, ws, kubeconfig, r, w), fates, 1);
  }
}
