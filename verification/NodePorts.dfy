/** Retrying the hub objects until both webhook services hold a port. */
module NodePorts {
  import opened Wrappers
  import opened Naming
  import opened ObjectStore
  import opened Manifests

  /** Every attempt proposes the next registration port, and the work port ten above it. */
  const PORT_GAP := 10

  function Attempt(store: Store, org: string, ws: string, kubeconfig: string, port: nat): Store {
    ApplyAll(store, HubManifests(org, ws, kubeconfig, port, port + PORT_GAP), ALL_HEALTHY)
  }

  /** `n` attempts in a row, the counter standing at `counter` before the first. */
  function Attempts(store: Store, org: string, ws: string, kubeconfig: string, counter: nat, n: nat): Store {
    if n == 0 then store
    else Attempt(Attempts(store, org, ws, kubeconfig, counter, n - 1), org, ws, kubeconfig, counter + n)
  }

  /** A port is taken only by the service that is created with it. */
  lemma PortsAfterOne(store: Store, m: Manifest, fate: Fate)
    ensures var after := ApplyOne(store, m, fate).store;
      TakenPorts(after) ==
        if m.Manifest? && m.body.ServiceBody? && m.key !in store && m.key in after
        then TakenPorts(store) + {m.body.nodePort} else TakenPorts(store)
  {
    var after := ApplyOne(store, m, fate).store;
    forall p | p in TakenPorts(store) ensures p in TakenPorts(after) {
      var k :| k in store && store[k].ServiceBody? && store[k].nodePort == p;
      assert k in after && after[k].ServiceBody? && after[k].nodePort == p;
    }
    forall p | p in TakenPorts(after)
      ensures p in TakenPorts(store) || (m.Manifest? && m.key !in store && m.body.ServiceBody? && m.body.nodePort == p)
    {
      var k :| k in after && after[k].ServiceBody? && after[k].nodePort == p;
      if k in store {
        assert store[k].ServiceBody? && store[k].nodePort == p;
      }
    }
    if m.Manifest? && m.body.ServiceBody? && m.key !in store && m.key in after {
      assert after[m.key].nodePort == m.body.nodePort;
    }
  }

  /** A service that is there keeps its port. */
  ghost predicate PortKept(before: Store, after: Store, key: Key) {
    key in before ==>
      key in after && (before[key].ServiceBody? ==> after[key].ServiceBody? && after[key].nodePort == before[key].nodePort)
  }

  /** `after` is `before` but for `key`, and takes the ports `taken`. */
  ghost predicate Touches(before: Store, after: Store, key: Key, taken: set<nat>) {
    && TakenPorts(after) == taken && PortKept(before, after, key)
    && forall k | k != key :: (k in after <==> k in before) && (k in before ==> after[k] == before[k])
  }

  lemma PlainApply(store: Store, m: Manifest)
    requires m.Manifest? && !m.body.ServiceBody?
    ensures Touches(store, ApplyOne(store, m, Healthy).store, m.key, TakenPorts(store))
  {
    PortsAfterOne(store, m, Healthy);
  }

  /** A port that a service could still get. */
  predicate Free(taken: set<nat>, port: nat) {
    30000 <= port <= 32767 && port !in taken
  }

  /** What one healthy apply does for a service, and what it makes of the taken ports. */
  ghost predicate Offered(before: Store, after: Store, key: Key, port: nat, taken: set<nat>, takenAfter: set<nat>) {
    var granted := key !in before && Free(taken, port);
    && takenAfter == taken + (if granted then {port} else {})
    && PortKept(before, after, key)
    && (key in after <==> key in before || granted)
    && (granted ==> after[key].ServiceBody? && after[key].nodePort == port)
  }

  lemma ServiceApply(store: Store, manager: string, toWork: bool, port: nat)
    ensures var m := ServiceManifest(manager, toWork, port);
      var after := ApplyOne(store, m, Healthy).store;
      && Touches(store, after, m.key, TakenPorts(after))
      && Offered(store, after, m.key, port, TakenPorts(store), TakenPorts(after))
  {
    PortsAfterOne(store, ServiceManifest(manager, toWork, port), Healthy);
  }

  /** What an attempt does to the two services: the registration service first, then the work service, each on its own. */
  ghost predicate AttemptDoes(before: Store, after: Store, r: Key, w: Key, port: nat) {
    var between := TakenPorts(before) + (if r !in before && Free(TakenPorts(before), port) then {port} else {});
    && Offered(before, after, r, port, TakenPorts(before), between)
    && Offered(before, after, w, port + PORT_GAP, between, TakenPorts(after))
  }

  lemma TwoServices(manager: string)
    ensures RegistrationService(manager) != WorkService(manager)
  {
    assert |REGISTRATION_SERVICE| != |WORK_SERVICE|;
  }

  lemma AttemptEffect(store: Store, org: string, ws: string, kubeconfig: string, port: nat)
    ensures var manager := ManagerName(org, ws);
      AttemptDoes(store, Attempt(store, org, ws, kubeconfig, port), RegistrationService(manager), WorkService(manager), port)
  {
    var manager := ManagerName(org, ws);
    var q := port + PORT_GAP;
    FiveApplies(store, HubManifests(org, ws, kubeconfig, port, q));
    TwoServices(manager);
    var s1 := ApplyOne(store, NamespaceManifest(manager), Healthy).store;
    PlainApply(store, NamespaceManifest(manager));
    var s2 := ApplyOne(s1, SecretManifest(manager, kubeconfig), Healthy).store;
    PlainApply(s1, SecretManifest(manager, kubeconfig));
    var s3 := ApplyOne(s2, ServiceManifest(manager, false, port), Healthy).store;
    ServiceApply(s2, manager, false, port);
    var s4 := ApplyOne(s3, ServiceManifest(manager, true, q), Healthy).store;
    ServiceApply(s3, manager, true, q);
    PlainApply(s4, ManagerManifest(org, ws));
  }

  // ---------------------------------------------------------------- what a retry comes to

  /** The least free port of the `n` ports above `low`. */
  function Least(taken: set<nat>, low: nat, n: nat): Option<nat> {
    if n == 0 then None
    else if Least(taken, low, n - 1).Some? then Least(taken, low, n - 1)
    else if Free(taken, low + n) then Some(low + n)
    else None
  }

  lemma {:induction false} LeastMeaning(taken: set<nat>, low: nat, n: nat)
    ensures Least(taken, low, n).Some? <==> exists p: nat :: low < p <= low + n && Free(taken, p)
    ensures Least(taken, low, n).Some? ==>
      var p := Least(taken, low, n).value;
      low < p <= low + n && Free(taken, p) && forall q: nat | low < q < p :: !Free(taken, q)
  {
    if n > 0 {
      LeastMeaning(taken, low, n - 1);
    }
  }

  /** Ports beyond the offered ones make no difference. */
  lemma {:induction false} LeastIgnores(taken: set<nat>, more: set<nat>, low: nat, n: nat)
    requires forall p | p in more :: p > low + n
    ensures Least(taken + more, low, n) == Least(taken, low, n)
  {
    if n > 0 {
      LeastIgnores(taken, more, low, n - 1);
    }
  }

  function Ports(port: Option<nat>): set<nat> {
    if port.Some? then {port.value} else {}
  }

  /** The service is there exactly when it was granted a port, and holds that port. */
  ghost predicate Holds(s: Store, key: Key, port: Option<nat>) {
    && (key in s <==> port.Some?)
    && (port.Some? ==> s[key].ServiceBody? && s[key].nodePort == port.value)
  }

  /** What the work service gets in `n` attempts, and what is left for the registration service. */
  function WorkPort(taken: set<nat>, counter: nat, n: nat): Option<nat> {
    Least(taken, counter + PORT_GAP, n)
  }

  function RegistrationPort(taken: set<nat>, counter: nat, n: nat): Option<nat> {
    Least(taken + Ports(WorkPort(taken, counter, n)), counter, n)
  }

  /** `s` is where `n` attempts lead from a store that has taken `taken` and has neither service. */
  ghost predicate Served(taken: set<nat>, s: Store, r: Key, w: Key, counter: nat, n: nat) {
    && Holds(s, r, RegistrationPort(taken, counter, n)) && Holds(s, w, WorkPort(taken, counter, n))
    && TakenPorts(s) == taken + Ports(RegistrationPort(taken, counter, n)) + Ports(WorkPort(taken, counter, n))
  }

  lemma PortsOneMore(taken: set<nat>, counter: nat, n: nat)
    ensures var p, q := counter + n + 1, counter + PORT_GAP + n + 1;
      var r, w := RegistrationPort(taken, counter, n), WorkPort(taken, counter, n);
      && RegistrationPort(taken, counter, n + 1) ==
           (if r.Some? then r else if Free(taken + Ports(w), p) then Some(p) else None)
      && WorkPort(taken, counter, n + 1) == (if w.Some? then w else if Free(taken, q) then Some(q) else None)
      && (r.Some? ==> r.value < p)
  {
    var w := WorkPort(taken, counter, n);
    LeastMeaning(taken + Ports(w), counter, n);
    if w.None? {
      var more := Ports(WorkPort(taken, counter, n + 1));
      assert taken + Ports(w) == taken;
      LeastIgnores(taken, more, counter, n + 1);
    }
  }

  lemma ServedOneMore(taken: set<nat>, s: Store, t: Store, r: Key, w: Key, counter: nat, n: nat)
    requires r != w && Served(taken, s, r, w, counter, n) && AttemptDoes(s, t, r, w, counter + n + 1)
    ensures Served(taken, t, r, w, counter, n + 1)
  {
    PortsOneMore(taken, counter, n);
  }

  lemma AttemptServes(taken: set<nat>, s: Store, org: string, ws: string, kubeconfig: string, counter: nat, n: nat)
    requires var m := ManagerName(org, ws); Served(taken, s, RegistrationService(m), WorkService(m), counter, n)
    ensures var m := ManagerName(org, ws);
      Served(taken, Attempt(s, org, ws, kubeconfig, counter + n + 1), RegistrationService(m), WorkService(m), counter, n + 1)
  {
    var m := ManagerName(org, ws);
    TwoServices(m);
    AttemptEffect(s, org, ws, kubeconfig, counter + n + 1);
    ServedOneMore(taken, s, Attempt(s, org, ws, kubeconfig, counter + n + 1),
                  RegistrationService(m), WorkService(m), counter, n);
  }

  /**
    Exactly what `n` attempts bring a workspace without services: the work service holds the least port that
    was free among the ones offered to it, and the registration service the least that is then left of its own.
  */
  lemma {:induction false} ServedExactly(store: Store, org: string, ws: string, kubeconfig: string, counter: nat, n: nat)
    requires var m := ManagerName(org, ws); RegistrationService(m) !in store && WorkService(m) !in store
    ensures var m := ManagerName(org, ws);
      Served(TakenPorts(store), Attempts(store, org, ws, kubeconfig, counter, n),
             RegistrationService(m), WorkService(m), counter, n)
  {
    if n == 0 {
      assert TakenPorts(store) == TakenPorts(store) + {} + {};
    } else {
      ServedExactly(store, org, ws, kubeconfig, counter, n - 1);
      AttemptServes(TakenPorts(store), Attempts(store, org, ws, kubeconfig, counter, n - 1), org, ws, kubeconfig, counter, n - 1);
    }
  }

  /** After `n` attempts both services are there. */
  ghost predicate EndsBy(store: Store, org: string, ws: string, kubeconfig: string, counter: nat, n: nat) {
    var m := ManagerName(org, ws);
    var after := Attempts(store, org, ws, kubeconfig, counter, n);
    RegistrationService(m) in after && WorkService(m) in after
  }

  /** Two different ports are left above the counter, and one of them above the first work port. */
  ghost predicate TwoLeft(taken: set<nat>, counter: nat, p: nat, q: nat) {
    p != q && counter < p && counter + PORT_GAP < q && Free(taken, p) && Free(taken, q)
  }

  lemma TwoLeftGranted(taken: set<nat>, counter: nat, p: nat, q: nat)
    requires TwoLeft(taken, counter, p, q)
    ensures WorkPort(taken, counter, HIGHEST_NODE_PORT).Some?
    ensures RegistrationPort(taken, counter, HIGHEST_NODE_PORT).Some?
  {
    LeastMeaning(taken, counter + PORT_GAP, HIGHEST_NODE_PORT);
    var w := WorkPort(taken, counter, HIGHEST_NODE_PORT);
    LeastMeaning(taken + Ports(w), counter, HIGHEST_NODE_PORT);
    assert Free(taken + Ports(w), if p != w.value then p else q);
  }

  lemma GrantedTwoLeft(taken: set<nat>, counter: nat, n: nat)
    requires WorkPort(taken, counter, n).Some? && RegistrationPort(taken, counter, n).Some?
    ensures TwoLeft(taken, counter, RegistrationPort(taken, counter, n).value, WorkPort(taken, counter, n).value)
  {
    LeastMeaning(taken, counter + PORT_GAP, n);
    LeastMeaning(taken + Ports(WorkPort(taken, counter, n)), counter, n);
  }

  lemma EndedTwoLeft(store: Store, org: string, ws: string, kubeconfig: string, counter: nat, n: nat)
    requires var m := ManagerName(org, ws); RegistrationService(m) !in store && WorkService(m) !in store
    requires EndsBy(store, org, ws, kubeconfig, counter, n)
    ensures exists p: nat, q: nat :: TwoLeft(TakenPorts(store), counter, p, q)
  {
    ServedExactly(store, org, ws, kubeconfig, counter, n);
    GrantedTwoLeft(TakenPorts(store), counter, n);
  }

  lemma TwoLeftEnds(store: Store, org: string, ws: string, kubeconfig: string, counter: nat, p: nat, q: nat) returns (n: nat)
    requires var m := ManagerName(org, ws); RegistrationService(m) !in store && WorkService(m) !in store
    requires TwoLeft(TakenPorts(store), counter, p, q)
    ensures EndsBy(store, org, ws, kubeconfig, counter, n)
  {
    n := HIGHEST_NODE_PORT;
    TwoLeftGranted(TakenPorts(store), counter, p, q);
    ServedExactly(store, org, ws, kubeconfig, counter, n);
  }

  /** The retry ends if and only if two ports are left for it when it starts, one of them within reach of the work service. */
  lemma RetryEndsIff(store: Store, org: string, ws: string, kubeconfig: string, counter: nat)
    requires var m := ManagerName(org, ws); RegistrationService(m) !in store && WorkService(m) !in store
    ensures (exists n: nat :: EndsBy(store, org, ws, kubeconfig, counter, n))
      <==> exists p: nat, q: nat :: TwoLeft(TakenPorts(store), counter, p, q)
  {
    forall n: nat | EndsBy(store, org, ws, kubeconfig, counter, n)
      ensures exists p: nat, q: nat :: TwoLeft(TakenPorts(store), counter, p, q)
    {
      EndedTwoLeft(store, org, ws, kubeconfig, counter, n);
    }
    forall p: nat, q: nat | TwoLeft(TakenPorts(store), counter, p, q)
      ensures exists n: nat :: EndsBy(store, org, ws, kubeconfig, counter, n)
    {
      var _ := TwoLeftEnds(store, org, ws, kubeconfig, counter, p, q);
    }
  }

  /** Ten ports before the counter itself runs out, nothing is left for the work service. */
  lemma ExhaustedForever(store: Store, org: string, ws: string, kubeconfig: string, counter: nat, n: nat)
    requires var m := ManagerName(org, ws); RegistrationService(m) !in store && WorkService(m) !in store
    requires HIGHEST_NODE_PORT <= counter + PORT_GAP
    ensures !EndsBy(store, org, ws, kubeconfig, counter, n)
  {
    RetryEndsIff(store, org, ws, kubeconfig, counter);
  }

  // ---------------------------------------------------------------- how soon

  ghost predicate InRange(counter: nat, n: nat) {
    LOWEST_NODE_PORT <= counter + 1 && counter + PORT_GAP + n <= HIGHEST_NODE_PORT
  }

  lemma {:induction false} Pigeonhole(s: set<nat>, low: nat, n: nat)
    requires forall p: nat | low < p <= low + n :: p in s
    ensures n <= |s|
  {
    if n > 0 {
      assert low + n in s;
      Pigeonhole(s - {low + n}, low, n - 1);
    }
  }

  lemma EnoughOffers(taken: set<nat>, low: nat, n: nat)
    requires n > |taken| && LOWEST_NODE_PORT <= low + 1 && low + n <= HIGHEST_NODE_PORT
    ensures Least(taken, low, n).Some?
  {
    LeastMeaning(taken, low, n);
    if Least(taken, low, n).None? {
      forall p: nat | low < p <= low + n ensures p in taken {
        assert !Free(taken, p);
      }
      Pigeonhole(taken, low, n);
    }
  }

  lemma AddsAtMostOne(s: set<nat>, port: Option<nat>)
    ensures |s + Ports(port)| <= |s| + 1
  {
    if port.None? {
      assert s + Ports(port) == s;
    } else if port.value in s {
      assert s + Ports(port) == s;
    }
  }

  lemma EnoughForBoth(taken: set<nat>, counter: nat, n: nat)
    requires InRange(counter, n) && n >= |taken| + 2
    ensures var r, w := RegistrationPort(taken, counter, n), WorkPort(taken, counter, n);
      && r.Some? && counter < r.value <= counter + n
      && w.Some? && counter + PORT_GAP < w.value <= counter + PORT_GAP + n
  {
    var w := WorkPort(taken, counter, n);
    EnoughOffers(taken, counter + PORT_GAP, n);
    AddsAtMostOne(taken, w);
    EnoughOffers(taken + Ports(w), counter, n);
    LeastMeaning(taken, counter + PORT_GAP, n);
    LeastMeaning(taken + Ports(w), counter, n);
  }

  /**
    A workspace without services has both after as many attempts as there are taken ports, and two
    more, each holding a port proposed for it, although the two services are applied independently.
  */
  lemma BothServicesWithinBound(store: Store, org: string, ws: string, kubeconfig: string, counter: nat, n: nat)
    requires var m := ManagerName(org, ws); RegistrationService(m) !in store && WorkService(m) !in store
    requires InRange(counter, n) && n >= |TakenPorts(store)| + 2
    ensures var m := ManagerName(org, ws);
      var after := Attempts(store, org, ws, kubeconfig, counter, n);
      var r, w := RegistrationService(m), WorkService(m);
      && r in after && after[r].ServiceBody? && counter < after[r].nodePort <= counter + n
      && w in after && after[w].ServiceBody? && counter + PORT_GAP < after[w].nodePort <= counter + PORT_GAP + n
  {
    ServedExactly(store, org, ws, kubeconfig, counter, n);
    EnoughForBoth(TakenPorts(store), counter, n);
  }

  lemma WorkTakesTheEleventh(taken: set<nat>, counter: nat)
    requires InRange(counter, 11) && counter + 11 !in taken
    ensures WorkPort(taken, counter, 11) == Some(counter + 11)
  {
    LeastMeaning(taken, counter + PORT_GAP, 11);
    assert Free(taken, counter + 11);
  }

  lemma NothingLeft(taken: set<nat>, counter: nat)
    requires counter + 11 in taken && forall p: nat | counter < p <= counter + 10 :: p in taken
    ensures Least(taken, counter, 11).None?
  {
    LeastMeaning(taken, counter, 11);
  }

  /**
    The second of the two extra attempts is needed: when exactly the ten ports after the counter are
    taken, the work service wins the eleventh and the registration service runs into it.
  */
  lemma BoundIsTight(store: Store, org: string, ws: string, kubeconfig: string, counter: nat)
    requires var m := ManagerName(org, ws); RegistrationService(m) !in store && WorkService(m) !in store
    requires |TakenPorts(store)| == 10 && counter + 11 !in TakenPorts(store)
    requires forall p: nat | counter < p <= counter + 10 :: p in TakenPorts(store)
    requires InRange(counter, 11)
    ensures RegistrationService(ManagerName(org, ws))
      !in Attempts(store, org, ws, kubeconfig, counter, |TakenPorts(store)| + 1)
  {
    var n: nat := |TakenPorts(store)| + 1;
    ServedExactly(store, org, ws, kubeconfig, counter, n);
    WorkTakesTheEleventh(TakenPorts(store), counter);
    NothingLeft(TakenPorts(store) + Ports(Some(counter + 11)), counter);
  }
}
