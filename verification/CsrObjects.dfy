/** Certificate signing requests, and the gate the signing controller puts in front of the CA. */
module CsrObjects {
  import opened Wrappers
  import opened KeyUsages
  import opened Signing

  const CLUSTER_NAME_LABEL := "open-cluster-management.io/cluster-name"
  const API_SERVER_CLIENT_SIGNER := "kubernetes.io/kube-apiserver-client"

  datatype ConditionType = Approved | Denied | Failed | OtherType(name: string)

  datatype CsrCondition = CsrCondition(ctype: ConditionType, reason: string, message: string, lastUpdate: int)

  /** `request` is what the request's PEM block parses to, None when it does not parse. */
  datatype CsrSpec = CsrSpec(
    request: Option<CertificateRequest>, signerName: string, usages: seq<string>, expirationSeconds: Option<int32>)

  /** `certificate` is None while the status holds no certificate bytes. */
  datatype Csr = Csr(
    uid: nat, labels: map<string, string>, spec: CsrSpec, conditions: seq<CsrCondition>, certificate: Option<Certificate>)

  predicate HasCondition(conditions: seq<CsrCondition>, t: ConditionType) {
    exists i | 0 <= i < |conditions| :: conditions[i].ctype == t
  }

  /** Approved and never denied, wherever in the list either condition stands. */
  predicate IsApprovedCsr(conditions: seq<CsrCondition>) {
    HasCondition(conditions, Approved) && !HasCondition(conditions, Denied)
  }

  /** No two conditions of one type: what the API promises about the conditions of a stored request. */
  predicate OnePerType(conditions: seq<CsrCondition>) {
    forall i, j | 0 <= i < j < |conditions| :: conditions[i].ctype != conditions[j].ctype
  }

  predicate ClientUsage(usage: string) {
    usage == USAGE_DIGITAL_SIGNATURE || usage == USAGE_KEY_ENCIPHERMENT || usage == USAGE_CLIENT_AUTH
  }

  /** Only client usages, and client authentication among them. */
  predicate ValidClientUsages(usages: seq<string>) {
    (forall i | 0 <= i < |usages| :: ClientUsage(usages[i])) && USAGE_CLIENT_AUTH in usages
  }

  /** Which complaint the gate makes: the first foreign usage, else the missing one. */
  function FirstForeign(usages: seq<string>): Option<string> {
    if |usages| == 0 then None
    else if !ClientUsage(usages[0]) then Some(usages[0])
    else FirstForeign(usages[1..])
  }

  function UsageComplaint(usages: seq<string>): string {
    var foreign := FirstForeign(usages);
    if foreign.Some? then "invalid usage for client certificate: " + foreign.value
    else "missing required usage for client certificate: " + USAGE_CLIENT_AUTH
  }

  /** What one sync does with a request it has read. */
  datatype Verdict = Ignore | Reject(complaint: string) | Accept

  predicate Relevant(csr: Csr) {
    && CLUSTER_NAME_LABEL in csr.labels
    && IsApprovedCsr(csr.conditions)
    && csr.certificate.None?
    && csr.spec.signerName == API_SERVER_CLIENT_SIGNER
  }

  function Gate(csr: Csr): Verdict {
    if !Relevant(csr) then Ignore
    else if !ValidClientUsages(csr.spec.usages) then Reject(UsageComplaint(csr.spec.usages))
    else Accept
  }

  function FailedCondition(complaint: string, now: int): CsrCondition {
    CsrCondition(Failed, "SignerValidationFailure", complaint, now)
  }

  function WithFailure(csr: Csr, failure: CsrCondition): Csr {
    csr.(conditions := csr.conditions + [failure])
  }

  datatype SyncError = CaNotLoaded | UnparsableRequest | SignFailed(reason: SignError) | UpdateRefused

  /** The certificate for a request that passed the gate. */
  function CertificateFor(ca: CertificateAuthority, spec: CsrSpec, now: int, crypto: Crypto): Result<Certificate, SyncError> {
    if spec.request.None? then Failure(UnparsableRequest)
    else
      match Signed(ca, spec.request.value, ControllerPolicy(spec.usages, spec.expirationSeconds), now, crypto)
      case Failure(e) => Failure(SignFailed(e))
      case Success(c) => Success(c)
  }

  // ---------------------------------------------------------------- the gate, said on the fields of a request alone

  /** An approved, undenied, unsigned request of a cluster for the API server client signer. */
  ghost predicate Addressed(csr: Csr) {
    && "open-cluster-management.io/cluster-name" in csr.labels
    && (exists i | 0 <= i < |csr.conditions| :: csr.conditions[i].ctype == Approved)
    && (forall i | 0 <= i < |csr.conditions| :: csr.conditions[i].ctype != Denied)
    && csr.certificate == None
    && csr.spec.signerName == "kubernetes.io/kube-apiserver-client"
  }

  predicate Foreign(usage: string) {
    usage != "digital signature" && usage != "key encipherment" && usage != "client auth"
  }

  predicate ForClients(usages: seq<string>) {
    "client auth" in usages && forall i | 0 <= i < |usages| :: !Foreign(usages[i])
  }

  ghost predicate Signable(csr: Csr) {
    Addressed(csr) && ForClients(csr.spec.usages)
  }

  ghost predicate Misused(csr: Csr) {
    Addressed(csr) && !ForClients(csr.spec.usages)
  }

  /** The complaint names the first foreign usage, or, when there is none, the missing one. */
  ghost predicate Complains(usages: seq<string>, message: string) {
    || (exists i | 0 <= i < |usages| ::
          && Foreign(usages[i]) && (forall j | 0 <= j < i :: !Foreign(usages[j]))
          && message == "invalid usage for client certificate: " + usages[i])
    || (&& (forall i | 0 <= i < |usages| :: !Foreign(usages[i])) && "client auth" !in usages
        && message == "missing required usage for client certificate: client auth")
  }

  /** The failure that the controller puts on a request with these usages. */
  ghost predicate ControllersFailure(c: CsrCondition, usages: seq<string>) {
    c.ctype == Failed && c.reason == "SignerValidationFailure" && Complains(usages, c.message)
  }

  // ---------------------------------------------------------------- the algorithms

  /** Stops at the first denial; an approval may come before or after. */
  method IsApproved(conditions: seq<CsrCondition>) returns (approved: bool)
    ensures approved == IsApprovedCsr(conditions)
  {
    approved := false;
    for i := 0 to |conditions|
      invariant !HasCondition(conditions[..i], Denied)
      invariant approved == HasCondition(conditions[..i], Approved)
    {
      assert conditions[..i + 1] == conditions[..i] + [conditions[i]];
      if conditions[i].ctype == Denied {
        return false;
      } else if conditions[i].ctype == Approved {
        approved := true;
      }
    }
    assert conditions[..|conditions|] == conditions;
  }

  lemma {:induction false} FirstForeignAt(usages: seq<string>, i: nat)
    requires i < |usages| && !ClientUsage(usages[i])
    requires forall j | 0 <= j < i :: ClientUsage(usages[j])
    ensures FirstForeign(usages) == Some(usages[i])
  {
    if i > 0 {
      FirstForeignAt(usages[1..], i - 1);
    }
  }

  lemma {:induction false} NoForeign(usages: seq<string>)
    requires forall j | 0 <= j < |usages| :: ClientUsage(usages[j])
    ensures FirstForeign(usages) == None
  {
    if |usages| > 0 {
      NoForeign(usages[1..]);
    }
  }

  /** None when the usages are those of an API server client, else the complaint. */
  method ValidateClientUsages(usages: seq<string>) returns (complaint: Option<string>)
    ensures complaint == if ValidClientUsages(usages) then None else Some(UsageComplaint(usages))
  {
    var hasClientAuth := false;
    for i := 0 to |usages|
      invariant forall j | 0 <= j < i :: ClientUsage(usages[j])
      invariant hasClientAuth == (USAGE_CLIENT_AUTH in usages[..i])
    {
      if usages[i] == USAGE_DIGITAL_SIGNATURE || usages[i] == USAGE_KEY_ENCIPHERMENT {
      } else if usages[i] == USAGE_CLIENT_AUTH {
        hasClientAuth := true;
      } else {
        FirstForeignAt(usages, i);
        return Some("invalid usage for client certificate: " + usages[i]);
      }
    }
    assert usages[..|usages|] == usages;
    NoForeign(usages);
    if !hasClientAuth {
      return Some("missing required usage for client certificate: " + USAGE_CLIENT_AUTH);
    }
    return None;
  }

  // ---------------------------------------------------------------- the gate decides as said

  lemma {:induction false} LeadingForeign(usages: seq<string>)
    ensures FirstForeign(usages).None? ==> forall i | 0 <= i < |usages| :: !Foreign(usages[i])
    ensures FirstForeign(usages).Some? ==>
      exists i | 0 <= i < |usages| ::
        Foreign(usages[i]) && (forall j | 0 <= j < i :: !Foreign(usages[j])) && usages[i] == FirstForeign(usages).value
  {
    if |usages| > 0 && !Foreign(usages[0]) {
      LeadingForeign(usages[1..]);
      if FirstForeign(usages[1..]).Some? {
        var i :| 0 <= i < |usages| - 1 && Foreign(usages[1..][i]) && (forall j | 0 <= j < i :: !Foreign(usages[1..][j]))
              && usages[1..][i] == FirstForeign(usages[1..]).value;
        assert usages[i + 1] == usages[1..][i];
        assert forall j | 0 < j < i + 1 :: usages[j] == usages[1..][j - 1];
      } else {
        assert forall j | 0 < j < |usages| :: usages[j] == usages[1..][j - 1];
      }
    }
  }

  lemma ComplaintSays(usages: seq<string>)
    requires !ForClients(usages)
    ensures Complains(usages, UsageComplaint(usages))
  {
    LeadingForeign(usages);
  }

  lemma RelevantIsAddressed(csr: Csr)
    ensures Relevant(csr) <==> Addressed(csr)
  {}

  lemma ValidIsForClients(usages: seq<string>)
    ensures ValidClientUsages(usages) <==> ForClients(usages)
  {
    assert forall u :: ClientUsage(u) <==> !Foreign(u);
  }

  /** The gate accepts the signable requests, rejects the misused ones with their complaint, and ignores the rest. */
  lemma GateDecides(csr: Csr)
    ensures Gate(csr).Accept? <==> Signable(csr)
    ensures Gate(csr).Reject? <==> Misused(csr)
    ensures Gate(csr).Reject? ==> Complains(csr.spec.usages, Gate(csr).complaint)
  {
    RelevantIsAddressed(csr);
    ValidIsForClients(csr.spec.usages);
    if !ForClients(csr.spec.usages) {
      ComplaintSays(csr.spec.usages);
    }
  }

  // ---------------------------------------------------------------- gate and translator agree

  /** Client usages translate to client authentication alone, with no bit but the two optional ones. */
  lemma GatedUsagesTranslate(usages: seq<string>)
    requires ValidClientUsages(usages)
    ensures Translate(usages).Success?
    ensures Translate(usages).value.ext == [EXT_CLIENT_AUTH]
    ensures Translate(usages).value.mask & !(DIGITAL_SIGNATURE | KEY_ENCIPHERMENT) == 0
    ensures Translate(usages).value.mask & DIGITAL_SIGNATURE != 0 <==> USAGE_DIGITAL_SIGNATURE in usages
    ensures Translate(usages).value.mask & KEY_ENCIPHERMENT != 0 <==> USAGE_KEY_ENCIPHERMENT in usages
  {
    ClientDictionary();
    TranslateMeaning(usages);
    forall u | u in usages ensures ClientUsage(u) && Recognized(u) {
      var i :| 0 <= i < |usages| && usages[i] == u;
    }
    var t := Translate(usages).value;
    assert MapsToExt(USAGE_CLIENT_AUTH, EXT_CLIENT_AUTH);
    AscendingUnique(t.ext, [EXT_CLIENT_AUTH]);
    forall b: Mask | KeyUsageBit(b) ensures t.mask & b != 0 ==> b == DIGITAL_SIGNATURE || b == KEY_ENCIPHERMENT {
      MaskBits(usages, b);
    }
    ClientMask(t.mask);
    MaskBits(usages, DIGITAL_SIGNATURE);
    MaskBits(usages, KEY_ENCIPHERMENT);
  }

  lemma ClientMask(m: Mask)
    requires m & 0xFE00 == 0
    requires forall b: Mask | KeyUsageBit(b) :: m & b != 0 ==> b == DIGITAL_SIGNATURE || b == KEY_ENCIPHERMENT
    ensures m & !(DIGITAL_SIGNATURE | KEY_ENCIPHERMENT) == 0
  {
    assert KeyUsageBit(CONTENT_COMMITMENT) && KeyUsageBit(DATA_ENCIPHERMENT) && KeyUsageBit(KEY_AGREEMENT);
    assert KeyUsageBit(CERT_SIGN) && KeyUsageBit(CRL_SIGN) && KeyUsageBit(ENCIPHER_ONLY) && KeyUsageBit(DECIPHER_ONLY);
  }

  /** What a certificate issued for `spec` at `now` under `ca` must look like. */
  ghost predicate ClientCertificate(c: Certificate, spec: CsrSpec, now: int, ca: CertificateAuthority) {
    && spec.request.Some? && spec.request.value.signatureValid
    && c.identity == spec.request.value.identity
    && c.extensions == [] && c.extraExtensions == []
    && c.basicConstraintsValid && !c.isCA
    && c.extKeyUsage == [2]
    && (c.keyUsage & 0x001 != 0 <==> "digital signature" in spec.usages)
    && (c.keyUsage & 0x004 != 0 <==> "key encipherment" in spec.usages)
    && c.keyUsage & 0xFFFA == 0
    && c.notBefore == now - 300_000_000_000
    && now < c.notAfter <= ca.notAfter
    && c.notAfter == EndFor(spec.expirationSeconds, now, ca.notAfter)
  }

  /** Sections 4.2.1.3, 4.2.1.9 and 4.2.1.12 of RFC 5280: everything signed behind the gate is a plain client certificate. */
  lemma GatedCertificate(ca: CertificateAuthority, spec: CsrSpec, now: int, crypto: Crypto)
    requires ValidClientUsages(spec.usages)
    ensures var r := CertificateFor(ca, spec, now, crypto);
      && (r.Success? ==> ClientCertificate(r.value, spec, now, ca))
      && (r.Success? <==> (spec.request.Some? && spec.request.value.signatureValid
                           && crypto == Crypto(true, true) && now < ca.notAfter))
  {
    GatedUsagesTranslate(spec.usages);
    if spec.request.Some? {
      ValidityWindow(spec.usages, spec.expirationSeconds, now, TemplateOf(spec.request.value), ca.notAfter);
    }
  }
}
