/**
  The signing controller as a protocol over a lagging cache and conditional writes.

  The API server keeps every version it ever stored under a fresh resource version. The informer
  hands the controller objects in memory; a delivery replaces the object a name points to, while a
  sync in progress keeps the object it holds. Rejecting a request changes the held object in
  place; signing works on a copy. Status writes are refused when the resource version is stale,
  and may fail for any other reason. A strict server also refuses two conditions of one type, as the
  API promises; a lax one takes them. Everyone else may create, relabel, approve, deny and delete
  requests at any moment, but neither changes a spec nor writes a certificate.
*/
module CsrProtocol {
  import opened Wrappers
  import opened Signing
  import opened CsrObjects

  datatype Version = Version(name: string, csr: Csr)

  /** An object in the controller's memory, as read at resource version `rv`. */
  datatype Cached = Cached(rv: nat, csr: Csr)

  datatype Worker = Idle | Holding(name: string, id: nat) | Writing(name: string, copy: Cached)

  datatype State = State(
    strict: bool,
    versions: map<nat, Version>,
    live: map<string, nat>,
    nextRv: nat,
    memory: map<nat, Cached>,
    cache: map<string, nat>,
    ca: Option<CertificateAuthority>,
    worker: Worker)

  datatype Label =
    | Create(name: string, labels: map<string, string>, spec: CsrSpec)
    | Edit(name: string, labels: map<string, string>, conditions: seq<CsrCondition>)
    | Delete(name: string)
    | Deliver(name: string, rv: nat, id: nat)
    | Forget(name: string)
    | Read(name: string)
    | Decide(now: int, loaded: Option<CertificateAuthority>, crypto: Crypto)
    | Write(accepted: bool)

  function Initial(strict: bool): State {
    State(strict, map[], map[], 0, map[], map[], None, Idle)
  }

  function Server(s: State, name: string): Csr
    requires name in s.live && s.live[name] in s.versions
  {
    s.versions[s.live[name]].csr
  }

  /** Whether the server stores these conditions. */
  predicate Takes(s: State, conditions: seq<CsrCondition>) {
    s.strict ==> OnePerType(conditions)
  }

  predicate Enabled(s: State, l: Label) {
    match l
    case Create(name, _, _) => name !in s.live
    case Edit(name, _, conditions) => name in s.live && s.live[name] in s.versions && Takes(s, conditions)
    case Delete(name) => name in s.live
    case Deliver(name, rv, id) => rv in s.versions && s.versions[rv].name == name && id !in s.memory
    case Forget(name) => name in s.cache
    case Read(name) => s.worker.Idle? && name in s.cache
    case Decide(_, _, _) => s.worker.Holding? && s.worker.id in s.memory
    case Write(_) => s.worker.Writing?
  }

  /** Stores a new version under the next resource version and makes it the live one. */
  function Stored(s: State, name: string, csr: Csr): State {
    s.(versions := s.versions[s.nextRv := Version(name, csr)], live := s.live[name := s.nextRv], nextRv := s.nextRv + 1)
  }

  /** The CA once loaded is kept. */
  function LoadedCa(held: Option<CertificateAuthority>, loaded: Option<CertificateAuthority>): Option<CertificateAuthority> {
    if held.Some? then held else loaded
  }

  /** What a sync decides to do with the request it holds, up to the point of writing. */
  datatype Decision =
    | Drop
    | Fail(failure: CsrCondition)
    | Hold(ca: Option<CertificateAuthority>)
    | Sign(authority: CertificateAuthority, certificate: Certificate)

  /** The gate, and what follows each verdict. */
  function DecisionFor(
    held: Option<CertificateAuthority>, csr: Csr, now: int, loaded: Option<CertificateAuthority>, crypto: Crypto): Decision
  {
    match Gate(csr)
    case Ignore => Drop
    case Reject(complaint) => Fail(FailedCondition(complaint, now))
    case Accept =>
      match LoadedCa(held, loaded)
      case None => Hold(None)
      case Some(ca) =>
        match CertificateFor(ca, csr.spec, now, crypto)
        case Failure(_) => Hold(Some(ca))
        case Success(c) => Sign(ca, c)
  }

  /** Failing spoils the object in memory; signing makes a copy of it. */
  function Carried(s: State, d: Decision): State
    requires s.worker.Holding? && s.worker.id in s.memory
  {
    var Holding(name, id) := s.worker;
    var o := s.memory[id];
    match d
    case Drop => s.(worker := Idle)
    case Fail(failure) =>
      var spoiled := o.(csr := WithFailure(o.csr, failure));
      s.(memory := s.memory[id := spoiled], worker := Writing(name, spoiled))
    case Hold(ca) => s.(ca := ca, worker := Idle)
    case Sign(ca, c) => s.(ca := Some(ca), worker := Writing(name, o.(csr := o.csr.(certificate := Some(c)))))
  }

  function Decided(s: State, now: int, loaded: Option<CertificateAuthority>, crypto: Crypto): State
    requires s.worker.Holding? && s.worker.id in s.memory
  {
    Carried(s, DecisionFor(s.ca, s.memory[s.worker.id].csr, now, loaded, crypto))
  }

  /** The API server takes a status write only at the current resource version, and only conditions it may store. */
  predicate Lands(s: State, accepted: bool)
    requires s.worker.Writing?
  {
    && accepted && s.worker.name in s.live
    && s.live[s.worker.name] == s.worker.copy.rv && s.worker.copy.rv in s.versions
    && Takes(s, s.worker.copy.csr.conditions)
  }

  function Written(s: State, accepted: bool): State
    requires s.worker.Writing?
  {
    if Lands(s, accepted) then
      var Writing(name, copy) := s.worker;
      Stored(s, name, Server(s, name).(conditions := copy.csr.conditions, certificate := copy.csr.certificate))
        .(worker := Idle)
    else s.(worker := Idle)
  }

  function Next(s: State, l: Label): State
    requires Enabled(s, l)
  {
    match l
    case Create(name, labels, spec) => Stored(s, name, Csr(s.nextRv, labels, spec, [], None))
    case Edit(name, labels, conditions) => Stored(s, name, Server(s, name).(labels := labels, conditions := conditions))
    case Delete(name) => s.(live := s.live - {name})
    case Deliver(name, rv, id) =>
      s.(memory := s.memory[id := Cached(rv, s.versions[rv].csr)], cache := s.cache[name := id])
    case Forget(name) => s.(cache := s.cache - {name})
    case Read(name) => s.(worker := Holding(name, s.cache[name]))
    case Decide(now, loaded, crypto) => Decided(s, now, loaded, crypto)
    case Write(accepted) => Written(s, accepted)
  }

  ghost predicate Run(states: seq<State>, labels: seq<Label>) {
    && |states| == |labels| + 1
    && states[0] == Initial(states[0].strict)
    && forall i | 0 <= i < |labels| :: Enabled(states[i], labels[i]) && states[i + 1] == Next(states[i], labels[i])
  }

  // ---------------------------------------------------------------- what every step keeps

  /** `o` is `base` with failures of the controller's own making appended, and those only for bad usages. */
  ghost predicate Spoiled(o: Csr, base: Csr) {
    && |base.conditions| <= |o.conditions|
    && base.conditions == o.conditions[..|base.conditions|]
    && o == base.(conditions := o.conditions)
    && (forall i | |base.conditions| <= i < |o.conditions| :: ControllersFailure(o.conditions[i], base.spec.usages))
    && (|base.conditions| < |o.conditions| ==> !ForClients(base.spec.usages))
  }

  /** Issued for `spec` by the CA the controller holds, at the instant its validity is counted from. */
  ghost predicate Issued(ca: Option<CertificateAuthority>, c: Certificate, spec: CsrSpec) {
    ca.Some? && ClientCertificate(c, spec, c.notBefore + BACKDATE, ca.value)
  }

  ghost predicate RejectCopy(copy: Csr, base: Csr) {
    Misused(base) && Spoiled(copy, base) && |base.conditions| < |copy.conditions|
  }

  ghost predicate SignCopy(ca: Option<CertificateAuthority>, copy: Csr, base: Csr) {
    && Signable(base)
    && copy.certificate.Some? && copy == base.(certificate := copy.certificate)
    && Issued(ca, copy.certificate.value, base.spec)
  }

  type Versions = map<nat, Version>

  ghost predicate VersionsOk(versions: Versions, nextRv: nat) {
    forall rv | rv in versions :: rv < nextRv && versions[rv].csr.uid <= rv
  }

  /** Every certificate the server ever stored comes from the CA the controller holds. */
  ghost predicate CertificatesOk(versions: Versions, ca: Option<CertificateAuthority>) {
    forall rv | rv in versions && versions[rv].csr.certificate.Some? ::
      Issued(ca, versions[rv].csr.certificate.value, versions[rv].csr.spec)
  }

  ghost predicate ConditionsOk(versions: Versions, strict: bool) {
    strict ==> forall rv | rv in versions :: OnePerType(versions[rv].csr.conditions)
  }

  /** Versions of one request share name and spec, and a certificate once there stays. */
  ghost predicate SameRequest(a: Version, b: Version) {
    && a.name == b.name && a.csr.spec == b.csr.spec
    && (a.csr.certificate.Some? ==> b.csr.certificate == a.csr.certificate)
  }

  ghost predicate LineageOk(versions: Versions) {
    forall p, q | p in versions && q in versions && p <= q && versions[p].csr.uid == versions[q].csr.uid ::
      SameRequest(versions[p], versions[q])
  }

  ghost predicate Newest(versions: Versions, rv: nat)
    requires rv in versions
  {
    forall p | p in versions && versions[p].csr.uid == versions[rv].csr.uid :: p <= rv
  }

  /** The live version of a name is the newest of its request. */
  ghost predicate LiveOk(versions: Versions, live: map<string, nat>) {
    forall name | name in live ::
      live[name] in versions && versions[live[name]].name == name && Newest(versions, live[name])
  }

  ghost predicate ReadFrom(versions: Versions, o: Cached) {
    o.rv in versions && Spoiled(o.csr, versions[o.rv].csr)
  }

  ghost predicate MemoryOk(versions: Versions, memory: map<nat, Cached>) {
    forall id | id in memory :: ReadFrom(versions, memory[id])
  }

  ghost predicate Refers(versions: Versions, memory: map<nat, Cached>, name: string, id: nat) {
    id in memory && memory[id].rv in versions && versions[memory[id].rv].name == name
  }

  ghost predicate CacheOk(versions: Versions, memory: map<nat, Cached>, cache: map<string, nat>) {
    forall name | name in cache :: Refers(versions, memory, name, cache[name])
  }

  ghost predicate CopyOk(versions: Versions, ca: Option<CertificateAuthority>, name: string, copy: Cached) {
    && copy.rv in versions && versions[copy.rv].name == name
    && (RejectCopy(copy.csr, versions[copy.rv].csr) || SignCopy(ca, copy.csr, versions[copy.rv].csr))
  }

  ghost predicate WorkerOk(versions: Versions, memory: map<nat, Cached>, ca: Option<CertificateAuthority>, worker: Worker) {
    match worker
    case Idle => true
    case Holding(name, id) => Refers(versions, memory, name, id)
    case Writing(name, copy) => CopyOk(versions, ca, name, copy)
  }

  ghost predicate Inv(s: State) {
    && VersionsOk(s.versions, s.nextRv) && LineageOk(s.versions) && LiveOk(s.versions, s.live)
    && CertificatesOk(s.versions, s.ca) && ConditionsOk(s.versions, s.strict)
    && MemoryOk(s.versions, s.memory) && CacheOk(s.versions, s.memory, s.cache)
    && WorkerOk(s.versions, s.memory, s.ca, s.worker)
  }

  /** The controller's own failures do not change what it decides about a request. */
  lemma SpoiledSameVerdict(o: Csr, base: Csr)
    requires Spoiled(o, base)
    ensures Addressed(o) <==> Addressed(base)
    ensures Gate(o) == Gate(base)
  {
    SpoiledSameAddress(o, base);
    RelevantIsAddressed(o);
    RelevantIsAddressed(base);
  }

  lemma SpoiledSameAddress(o: Csr, base: Csr)
    requires Spoiled(o, base)
    ensures Addressed(o) <==> Addressed(base)
  {
    forall i | 0 <= i < |base.conditions| ensures o.conditions[i] == base.conditions[i] {}
    forall i | |base.conditions| <= i < |o.conditions| ensures o.conditions[i].ctype == Failed {
      assert ControllersFailure(o.conditions[i], base.spec.usages);
    }
  }

  /** What every decision about an object is good for. */
  ghost predicate DecisionOk(held: Option<CertificateAuthority>, csr: Csr, d: Decision) {
    match d
    case Drop => true
    case Fail(failure) => Misused(csr) && ControllersFailure(failure, csr.spec.usages)
    case Hold(ca) => held.Some? ==> ca == held
    case Sign(ca, c) => Signable(csr) && (held.Some? ==> held.value == ca) && Issued(Some(ca), c, csr.spec)
  }

  lemma DecisionMeaning(
    held: Option<CertificateAuthority>, csr: Csr, now: int, loaded: Option<CertificateAuthority>, crypto: Crypto)
    ensures DecisionOk(held, csr, DecisionFor(held, csr, now, loaded, crypto))
  {
    GateDecides(csr);
    if Gate(csr).Accept? && LoadedCa(held, loaded).Some? {
      GatedCertificate(LoadedCa(held, loaded).value, csr.spec, now, crypto);
    }
  }

  lemma FailureSpoils(o: Csr, base: Csr, failure: CsrCondition)
    requires Spoiled(o, base) && Misused(base) && ControllersFailure(failure, base.spec.usages)
    ensures RejectCopy(WithFailure(o, failure), base)
  {}

  /** What passes the gate was never spoiled, so the signed copy differs from the server's version in the certificate alone. */
  lemma AcceptSigns(o: Csr, base: Csr, ca: CertificateAuthority, c: Certificate)
    requires Spoiled(o, base) && Signable(base) && Issued(Some(ca), c, o.spec)
    ensures SignCopy(Some(ca), o.(certificate := Some(c)), base)
  {
    assert o.conditions == base.conditions;
  }

  /** Replacing an object in memory by one read at the same version keeps every reference to it. */
  lemma ReplaceInMemory(versions: Versions, memory: map<nat, Cached>, cache: map<string, nat>, id: nat, o: Cached)
    requires MemoryOk(versions, memory) && CacheOk(versions, memory, cache)
    requires id in memory && o.rv == memory[id].rv && ReadFrom(versions, o)
    ensures MemoryOk(versions, memory[id := o]) && CacheOk(versions, memory[id := o], cache)
  {
    forall name | name in cache ensures Refers(versions, memory[id := o], name, cache[name]) {
      assert Refers(versions, memory, name, cache[name]);
    }
  }

  lemma FailingKeepsInv(s: State, failure: CsrCondition)
    requires Inv(s) && s.worker.Holding? && DecisionOk(s.ca, s.memory[s.worker.id].csr, Fail(failure))
    ensures Inv(Carried(s, Fail(failure)))
  {
    var o := s.memory[s.worker.id];
    assert ReadFrom(s.versions, o);
    SpoiledSameVerdict(o.csr, s.versions[o.rv].csr);
    FailureSpoils(o.csr, s.versions[o.rv].csr, failure);
    ReplaceInMemory(s.versions, s.memory, s.cache, s.worker.id, o.(csr := WithFailure(o.csr, failure)));
  }

  lemma SigningKeepsInv(s: State, ca: CertificateAuthority, c: Certificate)
    requires Inv(s) && s.worker.Holding? && DecisionOk(s.ca, s.memory[s.worker.id].csr, Sign(ca, c))
    ensures Inv(Carried(s, Sign(ca, c)))
  {
    var o := s.memory[s.worker.id];
    assert ReadFrom(s.versions, o);
    SpoiledSameVerdict(o.csr, s.versions[o.rv].csr);
    AcceptSigns(o.csr, s.versions[o.rv].csr, ca, c);
    KeepsCertificates(s.versions, s.ca, Some(ca));
  }

  /** What a CA issued before is still issued by the CA that is held. */
  lemma KeepsCertificates(versions: Versions, before: Option<CertificateAuthority>, after: Option<CertificateAuthority>)
    requires CertificatesOk(versions, before) && (before.Some? ==> after == before)
    ensures CertificatesOk(versions, after)
  {}

  lemma CarryingKeepsInv(s: State, d: Decision)
    requires Inv(s) && s.worker.Holding? && DecisionOk(s.ca, s.memory[s.worker.id].csr, d)
    ensures Inv(Carried(s, d))
  {
    match d
    case Drop =>
    case Fail(failure) => FailingKeepsInv(s, failure);
    case Hold(ca) => KeepsCertificates(s.versions, s.ca, ca);
    case Sign(ca, c) => SigningKeepsInv(s, ca, c);
  }

  lemma DecideKeepsInv(s: State, now: int, loaded: Option<CertificateAuthority>, crypto: Crypto)
    requires Inv(s) && s.worker.Holding?
    ensures Inv(Decided(s, now, loaded, crypto))
  {
    var csr := s.memory[s.worker.id].csr;
    DecisionMeaning(s.ca, csr, now, loaded, crypto);
    CarryingKeepsInv(s, DecisionFor(s.ca, csr, now, loaded, crypto));
  }

  /** Storing a successor of the live version, or a new request, keeps the server's history in order. */
  lemma StoreKeepsLineage(s: State, name: string, csr: Csr)
    requires VersionsOk(s.versions, s.nextRv) && LineageOk(s.versions) && LiveOk(s.versions, s.live)
    requires Follows(s, name, csr)
    ensures LineageOk(Stored(s, name, csr).versions)
  {
    var versions := Stored(s, name, csr).versions;
    forall p, q | p in versions && q in versions && p <= q && versions[p].csr.uid == versions[q].csr.uid
      ensures SameRequest(versions[p], versions[q])
    {
      if q < s.nextRv {
        assert SameRequest(s.versions[p], s.versions[q]);
      } else if p < s.nextRv && name in s.live {
        assert Newest(s.versions, s.live[name]);
        assert SameRequest(s.versions[p], s.versions[s.live[name]]);
      }
    }
  }

  /** The next version of a name: a new request, or a successor of the live one. */
  ghost predicate Follows(s: State, name: string, csr: Csr) {
    && (csr.certificate.Some? ==> Issued(s.ca, csr.certificate.value, csr.spec))
    && Takes(s, csr.conditions)
    && if name in s.live then
         && s.live[name] in s.versions && csr.uid == Server(s, name).uid
         && SameRequest(s.versions[s.live[name]], Version(name, csr))
       else csr.uid == s.nextRv
  }

  lemma LiveStaysNewest(s: State, name: string, csr: Csr, m: string)
    requires VersionsOk(s.versions, s.nextRv) && LineageOk(s.versions) && LiveOk(s.versions, s.live)
    requires Follows(s, name, csr) && m in s.live && m != name
    ensures Newest(Stored(s, name, csr).versions, s.live[m])
  {
    var rv := s.live[m];
    assert Newest(s.versions, rv);
    if name in s.live && s.versions[rv].csr.uid == csr.uid {
      OneRequestPerUid(s.versions, rv, s.live[name]);
    }
  }

  lemma StoreKeepsLive(s: State, name: string, csr: Csr)
    requires VersionsOk(s.versions, s.nextRv) && LineageOk(s.versions) && LiveOk(s.versions, s.live)
    requires Follows(s, name, csr)
    ensures var t := Stored(s, name, csr); VersionsOk(t.versions, t.nextRv) && LiveOk(t.versions, t.live)
  {
    var t := Stored(s, name, csr);
    forall m | m in t.live
      ensures t.live[m] in t.versions && t.versions[t.live[m]].name == m && Newest(t.versions, t.live[m])
    {
      if m != name {
        LiveStaysNewest(s, name, csr, m);
      }
    }
  }

  lemma OneRequestPerUid(versions: Versions, p: nat, q: nat)
    requires LineageOk(versions) && p in versions && q in versions && versions[p].csr.uid == versions[q].csr.uid
    ensures versions[p].name == versions[q].name && versions[p].csr.spec == versions[q].csr.spec
  {
    assert p <= q ==> SameRequest(versions[p], versions[q]);
    assert q <= p ==> SameRequest(versions[q], versions[p]);
  }

  /** A new version changes nothing about the ones already read. */
  lemma StoreKeepsReaders(s: State, name: string, csr: Csr)
    requires VersionsOk(s.versions, s.nextRv) && MemoryOk(s.versions, s.memory)
    requires CacheOk(s.versions, s.memory, s.cache) && WorkerOk(s.versions, s.memory, s.ca, s.worker)
    ensures var versions := Stored(s, name, csr).versions;
      && MemoryOk(versions, s.memory) && CacheOk(versions, s.memory, s.cache)
      && WorkerOk(versions, s.memory, s.ca, s.worker)
  {
    var versions := Stored(s, name, csr).versions;
    forall id | id in s.memory ensures ReadFrom(versions, s.memory[id]) {
      assert ReadFrom(s.versions, s.memory[id]);
    }
    forall n | n in s.cache ensures Refers(versions, s.memory, n, s.cache[n]) {
      assert Refers(s.versions, s.memory, n, s.cache[n]);
    }
  }

  lemma StoreKeepsInv(s: State, name: string, csr: Csr)
    requires Inv(s) && Follows(s, name, csr)
    ensures Inv(Stored(s, name, csr))
  {
    StoreKeepsLineage(s, name, csr);
    StoreKeepsLive(s, name, csr);
    StoreKeepsReaders(s, name, csr);
  }

  /** A fresh object in memory disturbs none of the references to the others. */
  lemma DeliverKeepsReaders(versions: Versions, memory: map<nat, Cached>, cache: map<string, nat>, name: string, rv: nat, id: nat)
    requires MemoryOk(versions, memory) && CacheOk(versions, memory, cache)
    requires rv in versions && versions[rv].name == name && id !in memory
    ensures var delivered := memory[id := Cached(rv, versions[rv].csr)];
      MemoryOk(versions, delivered) && CacheOk(versions, delivered, cache[name := id])
  {
    var delivered := memory[id := Cached(rv, versions[rv].csr)];
    forall i | i in delivered ensures ReadFrom(versions, delivered[i]) {
      assert i in memory ==> ReadFrom(versions, memory[i]);
    }
    var cached := cache[name := id];
    forall n | n in cached ensures Refers(versions, delivered, n, cached[n]) {
      assert n in cache ==> Refers(versions, memory, n, cache[n]);
    }
  }

  lemma DeliverKeepsInv(s: State, name: string, rv: nat, id: nat)
    requires Inv(s) && Enabled(s, Deliver(name, rv, id))
    ensures Inv(Next(s, Deliver(name, rv, id)))
  {
    DeliverKeepsReaders(s.versions, s.memory, s.cache, name, rv, id);
  }

  lemma WriteKeepsInv(s: State, accepted: bool)
    requires Inv(s) && s.worker.Writing?
    ensures Inv(Written(s, accepted))
  {
    if Lands(s, accepted) {
      var name, copy := s.worker.name, s.worker.copy.csr;
      StoreKeepsInv(s, name, Server(s, name).(conditions := copy.conditions, certificate := copy.certificate));
    }
  }

  lemma StepKeepsInv(s: State, l: Label)
    requires Inv(s) && Enabled(s, l)
    ensures Inv(Next(s, l))
  {
    match l
    case Create(name, labels, spec) => StoreKeepsInv(s, name, Csr(s.nextRv, labels, spec, [], None));
    case Edit(name, labels, conditions) =>
      StoreKeepsInv(s, name, Server(s, name).(labels := labels, conditions := conditions));
    case Delete(_) =>
    case Deliver(name, rv, id) => DeliverKeepsInv(s, name, rv, id);
    case Forget(_) =>
    case Read(_) =>
    case Decide(now, loaded, crypto) => DecideKeepsInv(s, now, loaded, crypto);
    case Write(accepted) => WriteKeepsInv(s, accepted);
  }

  lemma {:induction false} RunKeepsInv(states: seq<State>, labels: seq<Label>, i: nat)
    requires Run(states, labels) && i < |states|
    ensures Inv(states[i])
  {
    if i > 0 {
      RunKeepsInv(states, labels, i - 1);
      StepKeepsInv(states[i - 1], labels[i - 1]);
    }
  }
}
