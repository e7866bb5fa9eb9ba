/** What the signing protocol can always get done: a request that can be signed need not wait for anyone else. */
module CsrProgress {
  import opened Wrappers
  import opened KeyUsages
  import opened Signing
  import opened CsrObjects
  import opened CsrProtocol
  import opened CsrSafety
  import opened CsrFailures

  /** An identity that no object in memory bears. */
  lemma UnusedId(ids: set<nat>) returns (unused: nat)
    ensures forall id | id in ids :: id < unused
  {
    if |ids| == 0 {
      unused := 0;
    } else {
      var some := Inhabitant(ids);
      unused := UnusedId(ids - {some});
      assert forall id | id in ids :: id == some || id in ids - {some};
      if unused <= some {
        unused := some + 1;
      }
    }
  }

  /** The same requests on the server, and the same CA. */
  ghost predicate SameServer(s: State, t: State) {
    t.versions == s.versions && t.live == s.live && t.ca == s.ca && t.strict == s.strict
  }

  lemma UnloadedDecision(s: State, crypto: Crypto)
    requires s.worker.Holding? && s.worker.id in s.memory
    ensures var t := Decided(s, 0, None, crypto); SameServer(s, t) && !t.worker.Holding?
  {
    DecidedStoresNothing(s, 0, None, crypto);
    DecidedLetsGo(s, 0, None, crypto);
    DecisionMeaning(s.ca, s.memory[s.worker.id].csr, 0, None, crypto);
  }

  /** A sync in progress can always come to its end without the server noticing. */
  lemma GetsIdle(states: seq<State>, labels: seq<Label>) returns (states': seq<State>, labels': seq<Label>)
    requires Run(states, labels)
    ensures Run(states', labels') && labels <= labels' && states'[0] == states[0]
    ensures states'[|labels'|].worker.Idle? && SameServer(states[|labels|], states'[|labels'|])
  {
    RunKeepsInv(states, labels, |labels|);
    states', labels' := states, labels;
    if states'[|labels'|].worker.Holding? {
      UnloadedDecision(states'[|labels'|], Crypto(false, false));
      states', labels' := ExtendRun(states', labels', Decide(0, None, Crypto(false, false)));
    }
    if states'[|labels'|].worker.Writing? {
      states', labels' := ExtendRun(states', labels', Write(false));
    }
  }

  /** A request on the server that can be signed, by the CA that is held or else by the one that can be loaded. */
  ghost predicate CanBeSigned(s: State, name: string, now: int, loaded: Option<CertificateAuthority>, crypto: Crypto) {
    && name in s.live && s.live[name] in s.versions && Signable(Server(s, name))
    && CanIssue(if s.ca.Some? then s.ca else loaded, Server(s, name).spec.request, now, crypto)
  }

  /** The request `csr` has got its certificate under its name, from `ca`, valid from five minutes before `now`. */
  ghost predicate IsSigned(s: State, name: string, csr: Csr, now: int, ca: CertificateAuthority) {
    && name in s.live && s.live[name] in s.versions
    && Server(s, name).uid == csr.uid && Server(s, name).certificate.Some?
    && ClientCertificate(Server(s, name).certificate.value, csr.spec, now, ca)
  }

  function HeldOr(s: State, loaded: Option<CertificateAuthority>): CertificateAuthority
    requires s.ca.Some? || loaded.Some?
  {
    if s.ca.Some? then s.ca.value else loaded.value
  }

  lemma DeliveredGetsSigned(s: State, name: string, now: int, loaded: Option<CertificateAuthority>, crypto: Crypto)
    requires Inv(s) && JustDelivered(s, name) && CanBeSigned(s, name, now, loaded, crypto)
    ensures IsSigned(Sync(s, name, now, loaded, crypto, true), name, Server(s, name), now, HeldOr(s, loaded))
  {
    UndisturbedSync(s, name, now, loaded, crypto);
    UndisturbedCertificate(s, name, now, loaded, crypto);
  }

  /** With nobody at work, one delivery and one sync sign the request. */
  lemma SignedFromIdle(
    states: seq<State>, labels: seq<Label>, name: string, now: int, loaded: Option<CertificateAuthority>, crypto: Crypto)
    returns (states': seq<State>, labels': seq<Label>)
    requires Run(states, labels) && states[|labels|].worker.Idle?
    requires CanBeSigned(states[|labels|], name, now, loaded, crypto)
    ensures Run(states', labels') && labels <= labels' && states'[0] == states[0]
    ensures IsSigned(states'[|labels'|], name, Server(states[|labels|], name), now, HeldOr(states[|labels|], loaded))
  {
    var s := states[|labels|];
    RunKeepsInv(states, labels, |labels|);
    var id := UnusedId(s.memory.Keys);
    SettledIsDeliverable(s, name, id);
    DeliveredShape(s, name, id);
    states', labels' := ExtendRun(states, labels, Deliver(name, s.live[name], id));
    RunKeepsInv(states', labels', |labels'|);
    DeliveredGetsSigned(states'[|labels'|], name, now, loaded, crypto);
    states', labels' := ExtendBySync(states', labels', name, now, loaded, crypto);
  }

  /** From every reachable state a request that can be signed can get its certificate in what follows. */
  lemma SignableGetsSigned(
    states: seq<State>, labels: seq<Label>, name: string, now: int, loaded: Option<CertificateAuthority>, crypto: Crypto)
    returns (states': seq<State>, labels': seq<Label>)
    requires Run(states, labels) && CanBeSigned(states[|labels|], name, now, loaded, crypto)
    ensures Run(states', labels') && labels <= labels' && states'[0] == states[0]
    ensures IsSigned(states'[|labels'|], name, Server(states[|labels|], name), now, HeldOr(states[|labels|], loaded))
  {
    states', labels' := GetsIdle(states, labels);
    states', labels' := SignedFromIdle(states', labels', name, now, loaded, crypto);
  }

  /** A request that is created for a cluster with client usages, and then approved by someone. */
  predicate Wellformed(labels: map<string, string>, spec: CsrSpec, ca: CertificateAuthority, now: int) {
    && "open-cluster-management.io/cluster-name" in labels
    && spec.signerName == "kubernetes.io/kube-apiserver-client" && ForClients(spec.usages)
    && spec.request.Some? && spec.request.value.signatureValid && now < ca.notAfter
  }

  /** From the very start, with no CA loaded: created, approved, signed by the CA that the files hold. */
  lemma FirstCertificate(
    strict: bool, name: string, tags: map<string, string>, spec: CsrSpec, approval: CsrCondition,
    ca: CertificateAuthority, now: int) returns (states: seq<State>, labels: seq<Label>)
    requires Wellformed(tags, spec, ca, now) && approval.ctype == Approved
    ensures Run(states, labels) && states[0] == Initial(strict)
    ensures var s := states[|labels|];
      && name in s.live && s.live[name] in s.versions && Server(s, name).certificate.Some?
      && ClientCertificate(Server(s, name).certificate.value, spec, now, ca)
  {
    states, labels := [Initial(strict)], [];
    states, labels := ExtendRun(states, labels, Create(name, tags, spec));
    states, labels := ExtendRun(states, labels, Edit(name, tags, [approval]));
    var csr := Server(states[|labels|], name);
    assert csr == Csr(0, tags, spec, [approval], None);
    assert csr.conditions[0].ctype == Approved;
    states, labels := SignableGetsSigned(states, labels, name, now, Some(ca), Crypto(true, true));
  }
}
