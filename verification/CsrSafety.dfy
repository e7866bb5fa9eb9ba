/** What holds over every run of the signing protocol, whatever the interleaving. */
module CsrSafety {
  import opened Wrappers
  import opened Signing
  import opened CsrObjects
  import opened CsrProtocol

  /** A request that stays in place has a different certificate after the step. */
  ghost predicate CertificateChanges(s: State, t: State, name: string) {
    && name in s.live && s.live[name] in s.versions
    && name in t.live && t.live[name] in t.versions
    && Server(s, name).uid == Server(t, name).uid
    && Server(s, name).certificate != Server(t, name).certificate
  }

  /** A request that stays in place has other conditions after a step of the controller. */
  ghost predicate ControllerFails(s: State, l: Label, t: State, name: string) {
    && l.Write?
    && name in s.live && s.live[name] in s.versions
    && name in t.live && t.live[name] in t.versions
    && Server(s, name).conditions != Server(t, name).conditions
  }

  /** Before it writes, a sync touches neither the server nor the name and version it works on. */
  lemma CarriedStoresNothing(s: State, d: Decision)
    requires s.worker.Holding? && s.worker.id in s.memory
    ensures var t := Carried(s, d);
      && t.versions == s.versions && t.nextRv == s.nextRv && t.live == s.live && t.strict == s.strict && t.cache == s.cache
      && (t.worker.Writing? ==> t.worker.name == s.worker.name && t.worker.copy.rv == s.memory[s.worker.id].rv)
  {}

  lemma DecidedStoresNothing(s: State, now: int, loaded: Option<CertificateAuthority>, crypto: Crypto)
    requires s.worker.Holding? && s.worker.id in s.memory
    ensures var t := Decided(s, now, loaded, crypto);
      && t.versions == s.versions && t.nextRv == s.nextRv && t.live == s.live && t.strict == s.strict && t.cache == s.cache
      && (t.worker.Writing? ==> t.worker.name == s.worker.name && t.worker.copy.rv == s.memory[s.worker.id].rv)
  {
    CarriedStoresNothing(s, DecisionFor(s.ca, s.memory[s.worker.id].csr, now, loaded, crypto));
  }

  /** Storing a version changes the certificate of no request but the one it is stored for. */
  lemma StoredChanges(s: State, stored: string, csr: Csr, name: string)
    requires VersionsOk(s.versions, s.nextRv) && CertificateChanges(s, Stored(s, stored, csr), name)
    ensures name == stored && csr.certificate != Server(s, name).certificate
    ensures Server(Stored(s, stored, csr), name) == csr
  {}

  lemma OthersKeepCertificates(s: State, l: Label, name: string)
    requires VersionsOk(s.versions, s.nextRv) && Enabled(s, l) && !l.Write?
    ensures !CertificateChanges(s, Next(s, l), name)
  {
    if CertificateChanges(s, Next(s, l), name) {
      match l
      case Create(n, labels, spec) => StoredChanges(s, n, Csr(s.nextRv, labels, spec, [], None), name);
      case Edit(n, labels, conditions) =>
        StoredChanges(s, n, Server(s, n).(labels := labels, conditions := conditions), name);
      case Decide(now, loaded, crypto) => DecidedStoresNothing(s, now, loaded, crypto);
      case _ =>
    }
  }

  /** Only a write by the controller changes a certificate, only on a request the gate accepts, and nothing else of it. */
  lemma SigningStep(s: State, l: Label, name: string)
    requires VersionsOk(s.versions, s.nextRv) && WorkerOk(s.versions, s.memory, s.ca, s.worker)
    requires Enabled(s, l) && CertificateChanges(s, Next(s, l), name)
    ensures l == Write(true) && s.worker.Writing? && s.worker.copy.csr.certificate.Some?
    ensures Signable(Server(s, name))
    ensures var c := Server(Next(s, l), name).certificate;
      && c == s.worker.copy.csr.certificate && s.worker.copy.csr.spec == Server(s, name).spec
      && Server(Next(s, l), name) == Server(s, name).(certificate := c)
  {
    if !l.Write? {
      OthersKeepCertificates(s, l, name);
    } else {
      var n, copy := s.worker.name, s.worker.copy.csr;
      assert Lands(s, l.accepted);
      var written := Server(s, n).(conditions := copy.conditions, certificate := copy.certificate);
      StoredChanges(s, n, written, name);
      assert CopyOk(s.versions, s.ca, n, s.worker.copy);
    }
  }

  /** What a step that leads to writing did: it decided, or left the worker and the CA alone. */
  lemma WritingStep(s: State, l: Label)
    requires Enabled(s, l) && Next(s, l).worker.Writing?
    ensures l.Decide? || (Next(s, l).worker == s.worker && Next(s, l).ca == s.ca)
  {}

  lemma CarriedSigns(s: State, d: Decision)
    requires s.worker.Holding? && s.worker.id in s.memory && s.memory[s.worker.id].csr.certificate.None?
    requires Carried(s, d).worker.Writing? && Carried(s, d).worker.copy.csr.certificate.Some?
    ensures d.Sign? && Carried(s, d).ca == Some(d.authority)
    ensures Carried(s, d).worker.copy.csr == s.memory[s.worker.id].csr.(certificate := Some(d.certificate))
  {}

  lemma DecisionSigns(
    held: Option<CertificateAuthority>, csr: Csr, now: int, loaded: Option<CertificateAuthority>, crypto: Crypto)
    ensures var d := DecisionFor(held, csr, now, loaded, crypto);
      && (!d.Drop? ==> csr.certificate.None?)
      && (d.Sign? ==> CertificateFor(d.authority, csr.spec, now, crypto) == Success(d.certificate))
  {}

  /** The copy that is about to be written holds what an earlier decision got from the CA the controller still holds. */
  lemma {:induction false} WritingWasDecided(states: seq<State>, labels: seq<Label>, k: nat) returns (d: nat)
    requires Run(states, labels) && k < |states|
    requires states[k].worker.Writing? && states[k].worker.copy.csr.certificate.Some?
    ensures d < k && labels[d].Decide? && states[k].ca.Some?
    ensures var copy := states[k].worker.copy.csr;
      CertificateFor(states[k].ca.value, copy.spec, labels[d].now, labels[d].crypto) == Success(copy.certificate.value)
  {
    assert k > 0;
    var s, l := states[k - 1], labels[k - 1];
    WritingStep(s, l);
    if l.Decide? {
      d := k - 1;
      var csr := s.memory[s.worker.id].csr;
      DecisionSigns(s.ca, csr, l.now, l.loaded, l.crypto);
      CarriedSigns(s, DecisionFor(s.ca, csr, l.now, l.loaded, l.crypto));
    } else {
      d := WritingWasDecided(states, labels, k - 1);
    }
  }

  /**
    A certificate changes only by a landed write, on a server copy that is signable at that moment, and
    nothing else of it changes. What is written is what the CA issued at an earlier decision's instant.
  */
  lemma SigningWriteIsGated(states: seq<State>, labels: seq<Label>, i: nat, name: string) returns (d: nat)
    requires Run(states, labels) && i < |labels| && CertificateChanges(states[i], states[i + 1], name)
    ensures labels[i] == Write(true)
    ensures Signable(Server(states[i], name))
    ensures Server(states[i + 1], name) == Server(states[i], name).(certificate := Server(states[i + 1], name).certificate)
    ensures d < i && labels[d].Decide? && states[i].ca.Some? && Server(states[i + 1], name).certificate.Some?
    ensures CertificateFor(states[i].ca.value, Server(states[i], name).spec, labels[d].now, labels[d].crypto)
         == Success(Server(states[i + 1], name).certificate.value)
  {
    RunKeepsInv(states, labels, i);
    SigningStep(states[i], labels[i], name);
    d := WritingWasDecided(states, labels, i);
  }

  lemma CaStep(s: State, l: Label)
    requires Enabled(s, l) && s.ca.Some?
    ensures Next(s, l).ca == s.ca
  {
    if l.Decide? && s.worker.Holding? {
      DecisionMeaning(s.ca, s.memory[s.worker.id].csr, l.now, l.loaded, l.crypto);
    }
  }

  ghost predicate CaSteady(states: seq<State>) {
    forall k: nat | k + 1 < |states| && states[k].ca.Some? :: states[k + 1].ca == states[k].ca
  }

  lemma RunIsSteady(states: seq<State>, labels: seq<Label>)
    requires Run(states, labels)
    ensures CaSteady(states)
  {
    forall k: nat | k + 1 < |states| && states[k].ca.Some? ensures states[k + 1].ca == states[k].ca {
      CaStep(states[k], labels[k]);
    }
  }

  lemma {:induction false} SteadyKept(states: seq<State>, i: nat, j: nat)
    requires CaSteady(states) && i <= j < |states| && states[i].ca.Some?
    ensures states[j].ca == states[i].ca
  {
    if i < j {
      SteadyKept(states, i, j - 1);
    }
  }

  /** Once loaded, the CA is the same for the rest of the run. */
  lemma CaKept(states: seq<State>, labels: seq<Label>, i: nat, j: nat)
    requires Run(states, labels) && i <= j < |states| && states[i].ca.Some?
    ensures states[j].ca == states[i].ca
  {
    RunIsSteady(states, labels);
    SteadyKept(states, i, j);
  }

  lemma {:induction false} VersionsPersist(states: seq<State>, labels: seq<Label>, i: nat, j: nat)
    requires Run(states, labels) && i <= j < |states|
    ensures states[i].nextRv <= states[j].nextRv
    ensures forall rv | rv in states[i].versions ::
      rv in states[j].versions && states[j].versions[rv] == states[i].versions[rv]
  {
    if i < j {
      VersionsPersist(states, labels, i, j - 1);
      RunKeepsInv(states, labels, j - 1);
      StepAddsVersions(states[j - 1], labels[j - 1]);
    }
  }

  lemma StepAddsVersions(s: State, l: Label)
    requires VersionsOk(s.versions, s.nextRv) && Enabled(s, l)
    ensures s.nextRv <= Next(s, l).nextRv
    ensures forall rv | rv in s.versions :: rv in Next(s, l).versions && Next(s, l).versions[rv] == s.versions[rv]
  {
    match l
    case Decide(now, loaded, crypto) => DecidedStoresNothing(s, now, loaded, crypto);
    case _ =>
      assert Next(s, l).versions.Keys <= s.versions.Keys + {s.nextRv};
  }

  /** While a request exists, what one state shows of it is continued by every later state. */
  lemma RequestContinues(states: seq<State>, labels: seq<Label>, i: nat, j: nat, m: string, n: string)
    requires Run(states, labels) && i <= j < |states|
    requires m in states[i].live && states[i].live[m] in states[i].versions
    requires n in states[j].live && states[j].live[n] in states[j].versions
    requires Server(states[i], m).uid == Server(states[j], n).uid
    ensures m == n && Server(states[i], m).spec == Server(states[j], n).spec
    ensures Server(states[i], m).certificate.Some?
      ==> Server(states[j], n).certificate == Server(states[i], m).certificate
  {
    VersionsPersist(states, labels, i, j);
    RunKeepsInv(states, labels, i);
    RunKeepsInv(states, labels, j);
    var versions, p, q := states[j].versions, states[i].live[m], states[j].live[n];
    assert Newest(versions, q);
    assert SameRequest(versions[p], versions[q]);
  }

  /** A request's certificate is written at most once in any run. */
  lemma SignedAtMostOnce(states: seq<State>, labels: seq<Label>, i: nat, j: nat, m: string, n: string)
    requires Run(states, labels) && i < |labels| && j < |labels|
    requires CertificateChanges(states[i], states[i + 1], m) && CertificateChanges(states[j], states[j + 1], n)
    requires Server(states[i], m).uid == Server(states[j], n).uid
    ensures i == j && m == n
  {
    var _ := SigningWriteIsGated(states, labels, i, m);
    var _ := SigningWriteIsGated(states, labels, j, n);
    if i < j {
      RequestContinues(states, labels, i + 1, j, m, n);
    } else if j < i {
      RequestContinues(states, labels, j + 1, i, n, m);
    } else {
      RequestContinues(states, labels, i, j, m, n);
    }
  }

  /** Every certificate on the server, at any time, is a plain client certificate for its own request, from the controller's CA. */
  lemma EveryCertificateIsIssued(states: seq<State>, labels: seq<Label>, i: nat, name: string)
    requires Run(states, labels) && i < |states| && name in states[i].live
    ensures states[i].live[name] in states[i].versions
    ensures Server(states[i], name).certificate.Some?
      ==> Issued(states[i].ca, Server(states[i], name).certificate.value, Server(states[i], name).spec)
  {
    RunKeepsInv(states, labels, i);
  }

  /** `after` is `before` with failures of the controller's appended, and nothing else. */
  ghost predicate OnlyFailed(before: Csr, after: Csr) {
    && after == before.(conditions := after.conditions)
    && before.conditions < after.conditions
    && forall k | |before.conditions| <= k < |after.conditions| ::
         ControllersFailure(after.conditions[k], before.spec.usages)
  }

  lemma RejectCopyFails(copy: Csr, base: Csr)
    requires RejectCopy(copy, base)
    ensures OnlyFailed(base, base.(conditions := copy.conditions, certificate := copy.certificate))
  {}

  lemma FailingStep(s: State, accepted: bool, name: string)
    requires VersionsOk(s.versions, s.nextRv) && s.worker.Writing?
    requires CopyOk(s.versions, s.ca, s.worker.name, s.worker.copy)
    requires ControllerFails(s, Write(accepted), Written(s, accepted), name)
    ensures Misused(Server(s, name)) && OnlyFailed(Server(s, name), Server(Written(s, accepted), name))
  {
    assert Lands(s, accepted) && s.worker.name == name;
    assert RejectCopy(s.worker.copy.csr, Server(s, name));
    RejectCopyFails(s.worker.copy.csr, Server(s, name));
  }

  /** The controller appends failures, and nothing else, only to a request with bad usages. */
  lemma FailingWrite(states: seq<State>, labels: seq<Label>, i: nat, name: string)
    requires Run(states, labels) && i < |labels| && ControllerFails(states[i], labels[i], states[i + 1], name)
    ensures Misused(Server(states[i], name)) && OnlyFailed(Server(states[i], name), Server(states[i + 1], name))
  {
    RunKeepsInv(states, labels, i);
    FailingStep(states[i], labels[i].accepted, name);
  }

  /** No request is both failed and signed by the controller, in either order. */
  lemma NeverFailedAndSigned(states: seq<State>, labels: seq<Label>, i: nat, j: nat, m: string, n: string)
    requires Run(states, labels) && i < |labels| && j < |labels|
    requires ControllerFails(states[i], labels[i], states[i + 1], m)
    requires CertificateChanges(states[j], states[j + 1], n)
    ensures Server(states[i], m).uid != Server(states[j], n).uid
  {
    FailingWrite(states, labels, i, m);
    var _ := SigningWriteIsGated(states, labels, j, n);
    if Server(states[i], m).uid == Server(states[j], n).uid {
      if i <= j {
        RequestContinues(states, labels, i, j, m, n);
      } else {
        RequestContinues(states, labels, j, i, n, m);
      }
    }
  }

  /** The in-place append never corrupts a decision: memory always decides as the version it was read at. */
  lemma MemoryDecidesAsServerVersion(states: seq<State>, labels: seq<Label>, i: nat, id: nat)
    requires Run(states, labels) && i < |states| && id in states[i].memory
    ensures var o := states[i].memory[id];
      && o.rv in states[i].versions
      && var base := states[i].versions[o.rv].csr;
         && Spoiled(o.csr, base)
         && Gate(o.csr) == Gate(base)
         && (Addressed(o.csr) <==> Addressed(base))
         && (Signable(base) ==> o.csr == base)
  {
    RunKeepsInv(states, labels, i);
    var o := states[i].memory[id];
    assert ReadFrom(states[i].versions, o);
    SpoiledSameVerdict(o.csr, states[i].versions[o.rv].csr);
  }

  // ---------------------------------------------------------------- progress

  /** The write, if the decision came to one. */
  function Finished(s: State, accepted: bool): State {
    if s.worker.Writing? then Written(s, accepted) else s
  }

  function HoldingIn(s: State, name: string): State
    requires name in s.cache
  {
    s.(worker := Holding(name, s.cache[name]))
  }

  /** One sync of a request, nothing happening in between. */
  function Sync(s: State, name: string, now: int, loaded: Option<CertificateAuthority>, crypto: Crypto, accepted: bool): State
    requires name in s.cache && s.cache[name] in s.memory
  {
    Finished(Decided(HoldingIn(s, name), now, loaded, crypto), accepted)
  }

  /** The conditions under which the CA hands out a certificate for a request. */
  predicate CanIssue(ca: Option<CertificateAuthority>, request: Option<CertificateRequest>, now: int, crypto: Crypto) {
    && ca.Some? && now < ca.value.notAfter
    && request.Some? && request.value.signatureValid && crypto == Crypto(true, true)
  }

  lemma DecisionSignsIff(
    held: Option<CertificateAuthority>, csr: Csr, now: int, loaded: Option<CertificateAuthority>, crypto: Crypto)
    ensures DecisionFor(held, csr, now, loaded, crypto).Sign?
      <==> Signable(csr) && CanIssue(if held.Some? then held else loaded, csr.spec.request, now, crypto)
  {
    GateDecides(csr);
    if Gate(csr).Accept? && LoadedCa(held, loaded).Some? {
      ValidIsForClients(csr.spec.usages);
      GatedCertificate(LoadedCa(held, loaded).value, csr.spec, now, crypto);
    }
  }

  /** A certificate for the server's own version lands when the server is willing. */
  lemma SigningLands(s: State, name: string, ca: CertificateAuthority, c: Certificate)
    requires Inv(s) && s.worker.Holding? && s.worker.name == name && name in s.live
    requires DecisionOk(s.ca, s.memory[s.worker.id].csr, Sign(ca, c))
    ensures Lands(Carried(s, Sign(ca, c)), true) <==> s.memory[s.worker.id].rv == s.live[name]
  {
    var o := s.memory[s.worker.id];
    assert ReadFrom(s.versions, o);
    SpoiledSameVerdict(o.csr, s.versions[o.rv].csr);
    AcceptSigns(o.csr, s.versions[o.rv].csr, ca, c);
  }

  lemma WrittenCertificate(s: State, accepted: bool)
    requires s.worker.Writing? && s.worker.name in s.live && s.live[s.worker.name] in s.versions
    ensures var name, t := s.worker.name, Written(s, accepted);
      && name in t.live && t.live[name] in t.versions
      && Server(t, name).certificate == (if Lands(s, accepted) then s.worker.copy.csr else Server(s, name)).certificate
      && Server(t, name).uid == Server(s, name).uid
  {}

  /** A signing decision on the server's own version puts a certificate there; no other decision does. */
  lemma CarriedOut(s: State, name: string, d: Decision)
    requires Inv(s) && s.worker.Holding? && s.worker.name == name && name in s.live && Server(s, name).certificate.None?
    requires DecisionOk(s.ca, s.memory[s.worker.id].csr, d)
    requires s.memory[s.worker.id].rv == s.live[name] ==> s.memory[s.worker.id].csr.certificate.None?
    ensures var t := Finished(Carried(s, d), true);
      && name in t.live && t.live[name] in t.versions
      && (Server(t, name).certificate.Some? <==> d.Sign? && s.memory[s.worker.id].rv == s.live[name])
      && Server(t, name).uid == Server(s, name).uid
  {
    CarriedStoresNothing(s, d);
    if d.Sign? {
      SigningLands(s, name, d.authority, d.certificate);
    }
    if d.Sign? || d.Fail? {
      WrittenCertificate(Carried(s, d), true);
    }
  }

  /** An undisturbed sync signs exactly the gated requests it has read at the server's version. */
  lemma UndisturbedSync(s: State, name: string, now: int, loaded: Option<CertificateAuthority>, crypto: Crypto)
    requires Inv(s) && s.worker.Idle? && name in s.cache && name in s.live
    requires Server(s, name).certificate.None?
    ensures s.cache[name] in s.memory
    ensures var t := Sync(s, name, now, loaded, crypto, true);
      && name in t.live && t.live[name] in t.versions
      && (Server(t, name).certificate.Some? <==>
            (&& s.memory[s.cache[name]].rv == s.live[name]
             && Signable(Server(s, name))
             && CanIssue(if s.ca.Some? then s.ca else loaded, Server(s, name).spec.request, now, crypto)))
      && Server(t, name).uid == Server(s, name).uid
  {
    assert Refers(s.versions, s.memory, name, s.cache[name]);
    StepKeepsInv(s, Read(name));
    var held := HoldingIn(s, name);
    var o := s.memory[s.cache[name]];
    var d := DecisionFor(s.ca, o.csr, now, loaded, crypto);
    HeldUnsigned(s, name);
    DecisionMeaning(s.ca, o.csr, now, loaded, crypto);
    DecisionSignsIff(s.ca, o.csr, now, loaded, crypto);
    CarriedOut(held, name, d);
  }

  lemma SignedWith(s: State, name: string, ca: CertificateAuthority, c: Certificate)
    requires Inv(s) && s.worker.Holding? && s.worker.name == name && name in s.live
    requires DecisionOk(s.ca, s.memory[s.worker.id].csr, Sign(ca, c)) && s.memory[s.worker.id].rv == s.live[name]
    ensures var t := Finished(Carried(s, Sign(ca, c)), true);
      name in t.live && t.live[name] in t.versions && Server(t, name).certificate == Some(c)
  {
    SigningLands(s, name, ca, c);
    WrittenCertificate(Carried(s, Sign(ca, c)), true);
  }

  /** The certificate that an undisturbed sync puts on a request is a client certificate from the CA, loaded now if need be. */
  lemma UndisturbedCertificate(s: State, name: string, now: int, loaded: Option<CertificateAuthority>, crypto: Crypto)
    requires Inv(s) && s.worker.Idle? && name in s.cache && name in s.live && s.cache[name] in s.memory
    requires s.memory[s.cache[name]].rv == s.live[name] && Signable(Server(s, name))
    requires CanIssue(if s.ca.Some? then s.ca else loaded, Server(s, name).spec.request, now, crypto)
    ensures var t := Sync(s, name, now, loaded, crypto, true);
      && name in t.live && t.live[name] in t.versions && Server(t, name).certificate.Some?
      && ClientCertificate(Server(t, name).certificate.value, Server(s, name).spec, now, (if s.ca.Some? then s.ca else loaded).value)
  {
    StepKeepsInv(s, Read(name));
    HeldUnsigned(s, name);
    var csr := s.memory[s.cache[name]].csr;
    var d := DecisionFor(s.ca, csr, now, loaded, crypto);
    DecisionMeaning(s.ca, csr, now, loaded, crypto);
    DecisionSignsIff(s.ca, csr, now, loaded, crypto);
    DecidedCertificate(s.ca, csr, now, loaded, crypto);
    SignedWith(HoldingIn(s, name), name, d.authority, d.certificate);
  }

  lemma DecidedCertificate(
    held: Option<CertificateAuthority>, csr: Csr, now: int, loaded: Option<CertificateAuthority>, crypto: Crypto)
    ensures var d := DecisionFor(held, csr, now, loaded, crypto);
      d.Sign? ==>
        && ClientCertificate(d.certificate, csr.spec, now, d.authority)
        && Some(d.authority) == (if held.Some? then held else loaded)
  {
    GateDecides(csr);
    if Gate(csr).Accept? && LoadedCa(held, loaded).Some? {
      ValidIsForClients(csr.spec.usages);
      GatedCertificate(LoadedCa(held, loaded).value, csr.spec, now, crypto);
    }
  }

  /** What is cached of an unsigned request is unsigned, and decides as the version it was read at. */
  lemma HeldUnsigned(s: State, name: string)
    requires Inv(s) && name in s.cache && name in s.live && Server(s, name).certificate.None?
    ensures s.cache[name] in s.memory
    ensures var o := s.memory[s.cache[name]];
      o.rv == s.live[name] ==>
        && o.csr.certificate.None? && o.csr.spec == Server(s, name).spec && (Signable(o.csr) <==> Signable(Server(s, name)))
  {
    assert Refers(s.versions, s.memory, name, s.cache[name]);
    var o := s.memory[s.cache[name]];
    assert ReadFrom(s.versions, o);
    SpoiledSameVerdict(o.csr, s.versions[o.rv].csr);
  }
}
