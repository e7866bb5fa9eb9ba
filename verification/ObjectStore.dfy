/**
  The objects of an API server and the apply helper every controller provisions through. What an
  apply does to an object that exists depends on its kind: data and cluster manager specs are
  brought up to date, a service gets the selector but keeps its port, and a webhook configuration
  is left alone. A secret that cannot be updated is deleted and created anew.
*/
module ObjectStore {
  import opened Wrappers
  import opened Conditions

  datatype Kind = NamespaceKind | SecretKind | ConfigMapKind | ServiceKind | ManagerKind | MutatingKind | ValidatingKind

  datatype Key = Key(kind: Kind, ns: string, name: string)

  /** The images of a cluster manager's components, and where it runs them. */
  datatype ManagerSpec = ManagerSpec(registrationImage: string, workImage: string, placementImage: string, mode: string)

  /** `bundle` is None while a config map lacks that key; a secret that is `immutable` takes no other data. */
  datatype Body =
    | NamespaceBody
    | SecretBody(data: string, secretType: string, immutable: bool)
    | ConfigBody(bundle: Option<string>)
    | ServiceBody(nodePort: nat, selector: string)
    | ManagerBody(annotation: Option<string>, spec: ManagerSpec, conditions: seq<Condition>)
    | WebhookBody(host: string, port: nat, caBundle: string)

  /** A rendered manifest; the apply helper passes over kinds it does not know. */
  datatype Manifest = Manifest(key: Key, body: Body) | Unhandled

  type Store = map<Key, Body>

  /** How the API server treats one apply: it may fail the read, the write, or, where a write takes two, the second. */
  datatype Fate = Healthy | GetFails | WriteFails | SecondWriteFails

  const LOWEST_NODE_PORT := 30000
  const HIGHEST_NODE_PORT := 32767

  function TakenPorts(store: Store): set<nat> {
    set k | k in store && store[k].ServiceBody? :: store[k].nodePort
  }

  predicate InNodeRange(port: nat) {
    LOWEST_NODE_PORT <= port <= HIGHEST_NODE_PORT
  }

  /** A service is refused for a port out of range or held by another service. */
  predicate Refused(store: Store, body: Body) {
    body.ServiceBody? && (!InNodeRange(body.nodePort) || body.nodePort in TakenPorts(store))
  }

  predicate SameKind(a: Body, b: Body) {
    match a
    case NamespaceBody => b.NamespaceBody?
    case SecretBody(_, _, _) => b.SecretBody?
    case ConfigBody(_) => b.ConfigBody?
    case ServiceBody(_, _) => b.ServiceBody?
    case ManagerBody(_, _, _) => b.ManagerBody?
    case WebhookBody(_, _, _) => b.WebhookBody?
  }

  /** What the object becomes when it exists already. */
  function Merged(existing: Body, required: Body): Body
    requires SameKind(existing, required)
  {
    match required
    case SecretBody(data, secretType, _) => existing.(data := data, secretType := secretType)
    case ConfigBody(_) => required
    case ServiceBody(_, selector) => existing.(selector := selector)
    case ManagerBody(_, spec, _) => existing.(spec := spec)
    case _ => existing
  }

  /** A secret of another type, or one whose data is immutable, is deleted and created anew. */
  predicate Replaces(existing: Body, required: Body) {
    && existing.SecretBody? && required.SecretBody?
    && (existing.secretType != required.secretType || (existing.immutable && existing.data != required.data))
  }

  /** The store after one apply, and whether it succeeded. */
  datatype Applied = Applied(store: Store, ok: bool)

  function ApplyOne(store: Store, m: Manifest, fate: Fate): Applied {
    if m.Unhandled? then Applied(store, true)
    else if fate.GetFails? then Applied(store, false)
    else if m.key !in store then
      if fate.WriteFails? || Refused(store, m.body) then Applied(store, false)
      else Applied(store[m.key := m.body], true)
    else if !SameKind(store[m.key], m.body) then Applied(store, false)
    else
      var merged := Merged(store[m.key], m.body);
      if merged == store[m.key] then Applied(store, true)
      else if fate.WriteFails? then Applied(store, false)
      else if fate.SecondWriteFails? && Replaces(store[m.key], m.body) then Applied(store - {m.key}, false)
      else Applied(store[m.key := merged], true)
  }

  /** The first `n` manifests applied in order, none of them skipped for an earlier failure. */
  function ApplyFirst(store: Store, ms: seq<Manifest>, fates: seq<Fate>, n: nat): Store
    requires n <= |ms| == |fates|
  {
    if n == 0 then store else ApplyOne(ApplyFirst(store, ms, fates, n - 1), ms[n - 1], fates[n - 1]).store
  }

  predicate Succeeds(store: Store, ms: seq<Manifest>, fates: seq<Fate>, i: nat)
    requires i < |ms| == |fates|
  {
    ApplyOne(ApplyFirst(store, ms, fates, i), ms[i], fates[i]).ok
  }

  predicate AllSucceed(store: Store, ms: seq<Manifest>, fates: seq<Fate>)
    requires |ms| == |fates|
  {
    forall i: nat | i < |ms| :: Succeeds(store, ms, fates, i)
  }

  function ApplyAll(store: Store, ms: seq<Manifest>, fates: seq<Fate>): Store
    requires |ms| == |fates|
  {
    ApplyFirst(store, ms, fates, |ms|)
  }

  // ---------------------------------------------------------------- what an apply keeps

  /** What no apply ever takes from an object that is no secret: its kind, a port, a URL, an annotation, the reported conditions. */
  ghost predicate Keeps(before: Body, after: Body) {
    match before
    case SecretBody(_, _, immutable) => after.SecretBody? && after.immutable == immutable
    case ConfigBody(_) => after.ConfigBody?
    case ServiceBody(nodePort, _) => after.ServiceBody? && after.nodePort == nodePort
    case ManagerBody(annotation, _, conditions) =>
      after.ManagerBody? && after.annotation == annotation && after.conditions == conditions
    case _ => after == before
  }

  /** Only a secret may be missing, and what is there keeps what it must. */
  ghost predicate KeepsAll(before: Store, after: Store) {
    forall k | k in before :: (k in after || before[k].SecretBody?) && (k in after ==> Keeps(before[k], after[k]))
  }

  /** The one way in which an apply loses an object: the secret is deleted, and not created anew. */
  predicate Loses(store: Store, m: Manifest, fate: Fate) {
    fate.SecondWriteFails? && m.Manifest? && m.key in store && Replaces(store[m.key], m.body)
  }

  /** A secret that exists and has another type than the rendered one, or immutable data that differ from the rendered ones. */
  ghost predicate MustBeReplaced(store: Store, m: Manifest) {
    && m.Manifest? && m.key in store && store[m.key].SecretBody? && m.body.SecretBody?
    && (store[m.key].secretType != m.body.secretType
        || (store[m.key].immutable && store[m.key].data != m.body.data))
  }

  lemma ApplyOneKeeps(store: Store, m: Manifest, fate: Fate)
    ensures KeepsAll(store, ApplyOne(store, m, fate).store)
    ensures ApplyOne(store, m, fate).store.Keys <= store.Keys + (if m.Unhandled? then {} else {m.key})
    ensures forall k | k in store :: k !in ApplyOne(store, m, fate).store <==> Loses(store, m, fate) && k == m.key
  {}

  ghost predicate DistinctKeys(ms: seq<Manifest>) {
    forall i, j | 0 <= i < j < |ms| :: ms[i].Manifest? && ms[j].Manifest? ==> ms[i].key != ms[j].key
  }

  /** Manifests with other keys leave an object alone. */
  lemma {:induction false} OthersLeave(store: Store, ms: seq<Manifest>, fates: seq<Fate>, i: nat, n: nat, key: Key)
    requires i <= n <= |ms| == |fates|
    requires forall k | i <= k < n :: ms[k].Manifest? ==> ms[k].key != key
    ensures var before, after := ApplyFirst(store, ms, fates, i), ApplyFirst(store, ms, fates, n);
      (key in before <==> key in after) && (key in before ==> after[key] == before[key])
  {
    if i < n {
      OthersLeave(store, ms, fates, i, n - 1, key);
    }
  }

  /** What a pass over different objects makes of one of them is what its own manifest makes of it. */
  lemma OwnApplyDecides(store: Store, ms: seq<Manifest>, fates: seq<Fate>, i: nat)
    requires i < |ms| == |fates| && DistinctKeys(ms) && ms[i].Manifest?
    ensures var key, before := ms[i].key, ApplyFirst(store, ms, fates, i);
      var own, after := ApplyOne(before, ms[i], fates[i]).store, ApplyAll(store, ms, fates);
      && (key in before <==> key in store) && (key in store ==> before[key] == store[key])
      && (key in after <==> key in own) && (key in own ==> after[key] == own[key])
  {
    OthersLeave(store, ms, fates, 0, i, ms[i].key);
    OthersLeave(store, ms, fates, i + 1, |ms|, ms[i].key);
  }

  ghost predicate SomeLoses(store: Store, ms: seq<Manifest>, fates: seq<Fate>, key: Key)
    requires |ms| == |fates|
  {
    exists i | 0 <= i < |ms| ::
      ms[i].Manifest? && ms[i].key == key && MustBeReplaced(store, ms[i]) && fates[i] == SecondWriteFails
  }

  lemma KeptObject(store: Store, ms: seq<Manifest>, fates: seq<Fate>, key: Key)
    requires |ms| == |fates| && DistinctKeys(ms) && key in store
    ensures var after := ApplyAll(store, ms, fates);
      && (key !in after <==> SomeLoses(store, ms, fates, key))
      && (key in after ==> Keeps(store[key], after[key]))
  {
    if i :| 0 <= i < |ms| && ms[i].Manifest? && ms[i].key == key {
      OwnApplyDecides(store, ms, fates, i);
      ApplyOneKeeps(ApplyFirst(store, ms, fates, i), ms[i], fates[i]);
      assert forall j | 0 <= j < |ms| && j != i && ms[j].Manifest? :: ms[j].key != key;
    } else {
      OthersLeave(store, ms, fates, 0, |ms|, key);
    }
  }

  /**
    Applying, however it fails, takes no port, URL, annotation or condition from any object. It loses an object
    exactly when that is a secret it has to replace and the server takes the delete but not the create.
  */
  lemma ApplyAllKeeps(store: Store, ms: seq<Manifest>, fates: seq<Fate>)
    requires |ms| == |fates| && DistinctKeys(ms)
    ensures KeepsAll(store, ApplyAll(store, ms, fates))
    ensures forall k | k in store :: k !in ApplyAll(store, ms, fates) <==> SomeLoses(store, ms, fates, k)
  {
    forall k | k in store
      ensures var after := ApplyAll(store, ms, fates);
        && (k in after || store[k].SecretBody?) && (k in after ==> Keeps(store[k], after[k]))
        && (k !in after <==> SomeLoses(store, ms, fates, k))
    {
      KeptObject(store, ms, fates, k);
    }
  }

  /**
    When one apply succeeds, and that one which fails changes nothing, but for the secret it may lose. A write
    that is refused is no failure when there is nothing to write.
  */
  lemma ApplyOutcome(store: Store, m: Manifest, fate: Fate)
    requires m.Manifest?
    ensures var a := ApplyOne(store, m, fate);
      var there := m.key in store;
      && (fate == GetFails ==> !a.ok)
      && (fate == WriteFails ==> a.store == store && (a.ok <==> there && Meets(store[m.key], m.body)))
      && (fate == SecondWriteFails ==> (MustBeReplaced(store, m) ==> !a.ok && a.store == store - {m.key}))
      && (fate == Healthy || (fate == SecondWriteFails && !MustBeReplaced(store, m)) ==>
            (a.ok <==> if there then SameKind(store[m.key], m.body) else !Refused(store, m.body)))
      && (!a.ok && !(fate == SecondWriteFails && MustBeReplaced(store, m)) ==> a.store == store)
  {}

  /** No two services hold the same port, and all hold one within the node port range. */
  ghost predicate PortsInOrder(store: Store) {
    && (forall k | k in store && store[k].ServiceBody? :: 30000 <= store[k].nodePort <= 32767)
    && forall k, l | k in store && l in store && k != l && store[k].ServiceBody? && store[l].ServiceBody? ::
         store[k].nodePort != store[l].nodePort
  }

  /** A service is created exactly with a port in range that no other holds. */
  lemma ServiceCreatedIff(store: Store, m: Manifest)
    requires m.Manifest? && m.body.ServiceBody? && m.key !in store
    ensures ApplyOne(store, m, Healthy).ok <==>
      && 30000 <= m.body.nodePort <= 32767
      && forall k | k in store && store[k].ServiceBody? :: store[k].nodePort != m.body.nodePort
  {
    assert forall k | k in store && store[k].ServiceBody? :: store[k].nodePort in TakenPorts(store);
  }

  /** What an apply leaves behind holds the port it held before, or was just created. */
  lemma PortsComeFrom(store: Store, m: Manifest, fate: Fate, k: Key)
    requires k in ApplyOne(store, m, fate).store && ApplyOne(store, m, fate).store[k].ServiceBody?
    ensures var port := ApplyOne(store, m, fate).store[k].nodePort;
      || (k in store && store[k].ServiceBody? && store[k].nodePort == port)
      || (k !in store && m.Manifest? && k == m.key && m.body.ServiceBody? && m.body.nodePort == port && !Refused(store, m.body))
  {}

  /** No apply ever brings the ports out of order. */
  lemma PortsStayInOrder(store: Store, m: Manifest, fate: Fate)
    requires PortsInOrder(store)
    ensures PortsInOrder(ApplyOne(store, m, fate).store)
  {
    var after := ApplyOne(store, m, fate).store;
    forall k | k in after && after[k].ServiceBody? ensures 30000 <= after[k].nodePort <= 32767 {
      PortsComeFrom(store, m, fate, k);
    }
    forall k, l | k in after && l in after && k != l && after[k].ServiceBody? && after[l].ServiceBody?
      ensures after[k].nodePort != after[l].nodePort
    {
      PortsComeFrom(store, m, fate, k);
      PortsComeFrom(store, m, fate, l);
      assert k in store && store[k].ServiceBody? ==> store[k].nodePort in TakenPorts(store);
      assert l in store && store[l].ServiceBody? ==> store[l].nodePort in TakenPorts(store);
    }
  }

  // ---------------------------------------------------------------- what a clean pass reaches

  /** What an apply sees to, whatever was there: data, the selector, the spec; no port, URL or annotation. */
  ghost predicate Meets(existing: Body, required: Body) {
    && SameKind(existing, required)
    && match required
       case SecretBody(data, secretType, _) => existing.data == data && existing.secretType == secretType
       case ConfigBody(_) => existing == required
       case ServiceBody(_, selector) => existing.selector == selector
       case ManagerBody(_, spec, _) => existing.spec == spec
       case _ => true
  }

  ghost predicate Satisfied(store: Store, m: Manifest) {
    m.Manifest? ==> m.key in store && Meets(store[m.key], m.body)
  }

  lemma SucceededIsSatisfied(store: Store, m: Manifest, fate: Fate)
    requires ApplyOne(store, m, fate).ok
    ensures Satisfied(ApplyOne(store, m, fate).store, m)
  {}

  lemma OthersStaySatisfied(store: Store, m: Manifest, fate: Fate, other: Manifest)
    requires Satisfied(store, other)
    requires m.Manifest? && other.Manifest? ==> m.key != other.key
    ensures Satisfied(ApplyOne(store, m, fate).store, other)
  {}

  lemma {:induction false} CleanPrefix(store: Store, ms: seq<Manifest>, fates: seq<Fate>, n: nat)
    requires n <= |ms| == |fates| && DistinctKeys(ms) && AllSucceed(store, ms, fates)
    ensures forall i | 0 <= i < n :: Satisfied(ApplyFirst(store, ms, fates, n), ms[i])
  {
    if n > 0 {
      CleanPrefix(store, ms, fates, n - 1);
      var before := ApplyFirst(store, ms, fates, n - 1);
      assert Succeeds(store, ms, fates, n - 1);
      SucceededIsSatisfied(before, ms[n - 1], fates[n - 1]);
      forall i | 0 <= i < n - 1 ensures Satisfied(ApplyFirst(store, ms, fates, n), ms[i]) {
        OthersStaySatisfied(before, ms[n - 1], fates[n - 1], ms[i]);
      }
    }
  }

  /** A pass without failures sees to every object of the desired set at once. */
  lemma CleanPassReachesAll(store: Store, ms: seq<Manifest>, fates: seq<Fate>)
    requires |ms| == |fates| && DistinctKeys(ms) && AllSucceed(store, ms, fates)
    ensures forall i | 0 <= i < |ms| :: Satisfied(ApplyAll(store, ms, fates), ms[i])
  {
    CleanPrefix(store, ms, fates, |ms|);
  }

  /** What an apply leaves as it finds it is rendered as it stands: a port, a URL, a namespace, an annotation with its conditions. */
  ghost predicate StandsAsRendered(existing: Body, required: Body) {
    match (existing, required)
    case (SecretBody(_, _, immutable), SecretBody(_, _, wanted)) => immutable == wanted
    case (ConfigBody(_), ConfigBody(_)) => true
    case (ServiceBody(nodePort, _), ServiceBody(wanted, _)) => nodePort == wanted
    case (ManagerBody(annotation, _, conditions), ManagerBody(wanted, _, reported)) => annotation == wanted && conditions == reported
    case _ => existing == required
  }

  /** A successful apply stores exactly the rendered object if and only if nothing it leaves alone stood in the way. */
  lemma RenderedIff(store: Store, m: Manifest, fate: Fate)
    requires m.Manifest? && ApplyOne(store, m, fate).ok
    ensures var after := ApplyOne(store, m, fate).store;
      && m.key in after
      && (after[m.key] == m.body <==> m.key !in store || StandsAsRendered(store[m.key], m.body))
  {}

  /** After a clean pass an object is the rendered one if and only if it was missing, or stood as rendered, before the pass. */
  lemma CleanPassRendersIff(store: Store, ms: seq<Manifest>, fates: seq<Fate>, i: nat)
    requires i < |ms| == |fates| && DistinctKeys(ms) && AllSucceed(store, ms, fates) && ms[i].Manifest?
    ensures var after, key := ApplyAll(store, ms, fates), ms[i].key;
      && key in after
      && (after[key] == ms[i].body <==> key !in store || StandsAsRendered(store[key], ms[i].body))
  {
    OwnApplyDecides(store, ms, fates, i);
    assert Succeeds(store, ms, fates, i);
    RenderedIff(ApplyFirst(store, ms, fates, i), ms[i], fates[i]);
  }

  /** The same object, but a service may be rendered with another port and a webhook with another URL. */
  ghost predicate SameWish(a: Manifest, b: Manifest) {
    match a
    case Unhandled => b.Unhandled?
    case Manifest(key, body) =>
      b.Manifest? && b.key == key
      && match body
         case ServiceBody(_, selector) => b.body.ServiceBody? && b.body.selector == selector
         case WebhookBody(_, _, _) => b.body.WebhookBody?
         case _ => b.body == body
  }

  lemma {:induction false} SettledPrefix(store: Store, ms: seq<Manifest>, again: seq<Manifest>, fates: seq<Fate>, n: nat)
    requires n <= |ms| == |again| == |fates|
    requires forall i | 0 <= i < |ms| :: Satisfied(store, ms[i]) && SameWish(ms[i], again[i])
    ensures ApplyFirst(store, again, fates, n) == store
  {
    if n > 0 {
      SettledPrefix(store, ms, again, fates, n - 1);
      assert Satisfied(store, ms[n - 1]) && SameWish(ms[n - 1], again[n - 1]);
    }
  }

  /**
    After a clean pass, a further one writes nothing, though the ports are rendered anew: even on a
    server that would fail every write the store stays as it is, and only failing reads are reported.
  */
  lemma SettledPassWritesNothing(store: Store, ms: seq<Manifest>, fates: seq<Fate>, again: seq<Manifest>, fates2: seq<Fate>)
    requires |ms| == |fates| == |again| == |fates2| && DistinctKeys(ms) && AllSucceed(store, ms, fates)
    requires forall i | 0 <= i < |ms| :: SameWish(ms[i], again[i])
    ensures var settled := ApplyAll(store, ms, fates);
      && ApplyAll(settled, again, fates2) == settled
      && forall i: nat | i < |ms| :: Succeeds(settled, again, fates2, i) <==> again[i].Unhandled? || !fates2[i].GetFails?
  {
    CleanPassReachesAll(store, ms, fates);
    var settled := ApplyAll(store, ms, fates);
    SettledPrefix(settled, ms, again, fates2, |ms|);
    forall i: nat | i < |ms|
      ensures Succeeds(settled, again, fates2, i) <==> again[i].Unhandled? || !fates2[i].GetFails?
    {
      SettledPrefix(settled, ms, again, fates2, i);
      assert Satisfied(settled, ms[i]) && SameWish(ms[i], again[i]);
    }
  }

  // ---------------------------------------------------------------- the algorithm

  class ApiServer {
    var objects: Store

    constructor ()
      ensures objects == map[]
    {
      objects := map[];
    }
  }

  /** Creates the cluster manager, or replaces the spec of the one that is there. */
  method ApplyClusterManager(api: ApiServer, key: Key, required: Body, fate: Fate) returns (ok: bool)
    requires required.ManagerBody?
    modifies api
    ensures Applied(api.objects, ok) == ApplyOne(old(api.objects), Manifest(key, required), fate)
  {
    if fate.GetFails? {
      return false;
    }
    if key !in api.objects {
      if fate.WriteFails? {
        return false;
      }
      api.objects := api.objects[key := required];
      return true;
    }
    var existing := api.objects[key];
    if !existing.ManagerBody? {
      return false;
    }
    if existing.spec == required.spec {
      return true;
    }
    existing := existing.(spec := required.spec);
    if fate.WriteFails? {
      return false;
    }
    api.objects := api.objects[key := existing];
    return true;
  }

  /** Updates a secret, or deletes it and creates it anew when its type or its immutability stands in the way. */
  method ApplySecret(api: ApiServer, key: Key, required: Body, fate: Fate) returns (ok: bool)
    requires required.SecretBody?
    modifies api
    ensures Applied(api.objects, ok) == ApplyOne(old(api.objects), Manifest(key, required), fate)
  {
    if fate.GetFails? {
      return false;
    }
    if key !in api.objects {
      if fate.WriteFails? {
        return false;
      }
      api.objects := api.objects[key := required];
      return true;
    }
    var existing := api.objects[key];
    if !existing.SecretBody? {
      return false;
    }
    var copied := existing.(data := required.data);
    copied := copied.(secretType := required.secretType);
    if copied == existing {
      return true;
    }
    if fate.WriteFails? {
      return false;
    }
    if copied.secretType == existing.secretType {
      if !existing.immutable {
        api.objects := api.objects[key := copied];
        return true;
      }
    }
    api.objects := api.objects - {key};
    if fate.SecondWriteFails? {
      return false;
    }
    api.objects := api.objects[key := copied];
    assert api.objects == old(api.objects)[key := copied];
    return true;
  }

  /** The library's apply for every other kind. */
  method ApplyResource(api: ApiServer, key: Key, required: Body, fate: Fate) returns (ok: bool)
    requires !required.SecretBody?
    modifies api
    ensures Applied(api.objects, ok) == ApplyOne(old(api.objects), Manifest(key, required), fate)
  {
    if fate.GetFails? {
      return false;
    }
    if key !in api.objects {
      if fate.WriteFails? || Refused(api.objects, required) {
        return false;
      }
      api.objects := api.objects[key := required];
      return true;
    }
    if !SameKind(api.objects[key], required) {
      return false;
    }
    var merged := Merged(api.objects[key], required);
    if merged == api.objects[key] {
      return true;
    }
    if fate.WriteFails? {
      return false;
    }
    api.objects := api.objects[key := merged];
    return true;
  }

  /** Applies every manifest once and in order, collecting the positions of those that failed. */
  method ApplyObjects(api: ApiServer, ms: seq<Manifest>, fates: seq<Fate>) returns (errs: seq<nat>)
    requires |ms| == |fates|
    modifies api
    ensures api.objects == ApplyAll(old(api.objects), ms, fates)
    ensures forall i: nat :: i in errs <==> i < |ms| && !Succeeds(old(api.objects), ms, fates, i)
    ensures |errs| == 0 <==> AllSucceed(old(api.objects), ms, fates)
  {
    errs := [];
    for n := 0 to |ms|
      invariant api.objects == ApplyFirst(old(api.objects), ms, fates, n)
      invariant forall i: nat :: i in errs <==> i < n && !Succeeds(old(api.objects), ms, fates, i)
    {
      match ms[n]
      case Unhandled =>
      case Manifest(key, body) =>
        var ok;
        if body.ManagerBody? {
          ok := ApplyClusterManager(api, key, body, fates[n]);
        } else if body.SecretBody? {
          ok := ApplySecret(api, key, body, fates[n]);
        } else {
          ok := ApplyResource(api, key, body, fates[n]);
        }
        if !ok {
          errs := errs + [n];
        }
    }
    NoErrors(errs);
  }

  lemma NoErrors(errs: seq<nat>)
    ensures |errs| > 0 ==> exists i: nat :: i in errs
  {
    if |errs| > 0 {
      var i := errs[0];
      assert i in errs;
    }
  }
}
