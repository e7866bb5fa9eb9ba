/**
  The signing policy: how long an issued certificate lives, and which fields of the certificate
  template the policy overwrites. Instants and durations count nanoseconds.
*/
module Signing {
  import opened Wrappers
  import opened KeyUsages

  newtype int32 = x: int | -0x8000_0000 <= x < 0x8000_0000

  /** Go's time.Duration: a signed 64-bit number of nanoseconds. */
  type Duration = d: int | -0x8000_0000_0000_0000 <= d < 0x8000_0000_0000_0000

  const SECOND: Duration := 1_000_000_000
  const MINUTE: Duration := 60 * SECOND
  const HOUR: Duration := 60 * MINUTE

  const CERT_TTL: Duration := 30 * 24 * HOUR
  const MIN_TTL: Duration := 10 * MINUTE
  const BACKDATE: Duration := 5 * MINUTE
  const SHORT: Duration := 8 * HOUR

  /** The result type records that no 32-bit number of seconds overflows a 64-bit duration. */
  function ExpirationSecondsToDuration(seconds: int32): Duration {
    seconds as int * SECOND
  }

  /** The lifetime granted to a request: the default when none is asked for, clamped otherwise. */
  function GrantedTtl(expirationSeconds: Option<int32>): Duration {
    if expirationSeconds.None? then CERT_TTL
    else
      var requested := ExpirationSecondsToDuration(expirationSeconds.value);
      if requested > CERT_TTL then CERT_TTL else if requested < MIN_TTL then MIN_TTL else requested
  }

  /** Who a certificate is for: the subject, the alternative names of every kind, and the public key. */
  datatype Identity = Identity(
    subject: string, dnsNames: seq<string>, ipAddresses: seq<string>, emailAddresses: seq<string>,
    uris: seq<string>, publicKey: string)

  datatype CertificateRequest = CertificateRequest(
    identity: Identity, extensions: seq<string>, extraExtensions: seq<string>, signatureValid: bool)

  datatype Certificate = Certificate(
    identity: Identity, extensions: seq<string>, extraExtensions: seq<string>,
    keyUsage: Mask, extKeyUsage: seq<int>, basicConstraintsValid: bool, isCA: bool,
    notBefore: int, notAfter: int)

  datatype SigningPolicy = SigningPolicy(ttl: Duration, usages: seq<string>, backdate: Duration, short: Duration)

  datatype PolicyError =
    | UnrecognizedUsages(usages: seq<string>)
    | SignerExpired(notAfter: int)
    | ExpiredInPast(notAfter: int)

  datatype SignError =
    | BadSignature
    | NoSerialNumber
    | PolicyRefused(reason: PolicyError)
    | CreateFailed

  /** The loaded CA; only its expiry matters to the policy. */
  datatype CertificateAuthority = CertificateAuthority(notAfter: int)

  /** What the cryptographic library does: draws a serial number, and signs the template. */
  datatype Crypto = Crypto(serialDrawn: bool, created: bool)

  /** Where a lifetime ends: short ones are not shortened by the backdate, and none outlives the CA. */
  function NotAfterFor(p: SigningPolicy, now: int, signerNotAfter: int): int {
    var end := if p.ttl < p.short then now + p.ttl else now + (p.ttl - p.backdate);
    if end < signerNotAfter then end else signerNotAfter
  }

  /** The template after the policy has overwritten it. */
  function Overwritten(p: SigningPolicy, now: int, usages: Usages, c: Certificate, signerNotAfter: int): Certificate {
    c.(keyUsage := usages.mask, extKeyUsage := usages.ext, extensions := [], extraExtensions := [],
       basicConstraintsValid := true, isCA := false,
       notBefore := now - p.backdate, notAfter := NotAfterFor(p, now, signerNotAfter))
  }

  function PolicyOutcome(p: SigningPolicy, now: int, c: Certificate, signerNotAfter: int): Result<Certificate, PolicyError> {
    match Translate(p.usages)
    case Failure(unknown) => Failure(UnrecognizedUsages(unknown))
    case Success(usages) =>
      if now - p.backdate >= signerNotAfter then Failure(SignerExpired(signerNotAfter))
      else if now >= signerNotAfter then Failure(ExpiredInPast(signerNotAfter))
      else Success(Overwritten(p, now, usages, c, signerNotAfter))
  }

  /** The policy the signing controller builds for a request. */
  function ControllerPolicy(usages: seq<string>, expirationSeconds: Option<int32>): SigningPolicy {
    SigningPolicy(GrantedTtl(expirationSeconds), usages, BACKDATE, SHORT)
  }

  /** The template copied from a request before the policy sees it. */
  function TemplateOf(req: CertificateRequest): Certificate {
    Certificate(req.identity, req.extensions, req.extraExtensions, 0, [], false, false, 0, 0)
  }

  function Signed(ca: CertificateAuthority, req: CertificateRequest, p: SigningPolicy, now: int, crypto: Crypto)
    : Result<Certificate, SignError>
  {
    if !req.signatureValid then Failure(BadSignature)
    else if !crypto.serialDrawn then Failure(NoSerialNumber)
    else
      match PolicyOutcome(p, now, TemplateOf(req), ca.notAfter)
      case Failure(e) => Failure(PolicyRefused(e))
      case Success(c) => if crypto.created then Success(c) else Failure(CreateFailed)
  }

  // ---------------------------------------------------------------- the algorithm

  class CertificateTemplate {
    var identity: Identity
    var extensions: seq<string>
    var extraExtensions: seq<string>
    var keyUsage: Mask
    var extKeyUsage: seq<int>
    var basicConstraintsValid: bool
    var isCA: bool
    var notBefore: int
    var notAfter: int

    function Contents(): Certificate
      reads this
    {
      Certificate(identity, extensions, extraExtensions, keyUsage, extKeyUsage,
                  basicConstraintsValid, isCA, notBefore, notAfter)
    }

    constructor (req: CertificateRequest)
      ensures Contents() == TemplateOf(req)
    {
      identity, extensions, extraExtensions := req.identity, req.extensions, req.extraExtensions;
      keyUsage, extKeyUsage, basicConstraintsValid, isCA := 0, [], false, false;
      notBefore, notAfter := 0, 0;
    }
  }

  /** Overwrites the template field by field; the expiry checks come last. */
  method Apply(p: SigningPolicy, now: int, tmpl: CertificateTemplate, signerNotAfter: int)
    returns (err: Option<PolicyError>)
    modifies tmpl
    ensures PolicyOutcome(p, now, old(tmpl.Contents()), signerNotAfter)
         == if err.None? then Success(tmpl.Contents()) else Failure(err.value)
  {
    ghost var was := tmpl.Contents();
    var translated := KeyUsagesFromStrings(p.usages);
    if translated.Failure? {
      return Some(UnrecognizedUsages(translated.error));
    }
    tmpl.keyUsage := translated.value.mask;
    tmpl.extKeyUsage := translated.value.ext;
    tmpl.extraExtensions := [];
    tmpl.extensions := [];
    tmpl.basicConstraintsValid := true;
    tmpl.isCA := false;
    tmpl.notBefore := now - p.backdate;
    if p.ttl < p.short {
      tmpl.notAfter := now + p.ttl;
    } else {
      tmpl.notAfter := now + (p.ttl - p.backdate);
    }
    if !(tmpl.notAfter < signerNotAfter) {
      tmpl.notAfter := signerNotAfter;
    }
    assert tmpl.Contents() == Overwritten(p, now, translated.value, was, signerNotAfter);
    if !(tmpl.notBefore < signerNotAfter) {
      return Some(SignerExpired(signerNotAfter));
    }
    if !(now < signerNotAfter) {
      return Some(ExpiredInPast(signerNotAfter));
    }
    return None;
  }

  /** Checks the request, fills a fresh template, applies the policy and signs. */
  method Sign(ca: CertificateAuthority, req: CertificateRequest, p: SigningPolicy, now: int, crypto: Crypto)
    returns (r: Result<Certificate, SignError>)
    ensures r == Signed(ca, req, p, now, crypto)
  {
    if !req.signatureValid {
      return Failure(BadSignature);
    }
    if !crypto.serialDrawn {
      return Failure(NoSerialNumber);
    }
    var tmpl := new CertificateTemplate(req);
    var err := Apply(p, now, tmpl, ca.notAfter);
    if err.Some? {
      return Failure(PolicyRefused(err.value));
    }
    if !crypto.created {
      return Failure(CreateFailed);
    }
    return Success(tmpl.Contents());
  }

  // ---------------------------------------------------------------- the validity window

  /** The granted lifetime, in nanoseconds: as asked between 10 minutes and 30 days, else the nearer end; unasked, 30 days. */
  lemma GrantedTtlRange(expirationSeconds: Option<int32>)
    ensures 600_000_000_000 <= GrantedTtl(expirationSeconds) <= 2_592_000_000_000_000
    ensures expirationSeconds.Some? && 600 <= expirationSeconds.value <= 2_592_000
        ==> GrantedTtl(expirationSeconds) == expirationSeconds.value as int * 1_000_000_000
    ensures expirationSeconds.Some? && expirationSeconds.value < 600 ==> GrantedTtl(expirationSeconds) == 600_000_000_000
    ensures expirationSeconds.None? || expirationSeconds.value > 2_592_000
        ==> GrantedTtl(expirationSeconds) == 2_592_000_000_000_000
  {}

  ghost predicate TranslatesOk(usages: seq<string>) {
    Translate(usages).Success?
  }

  /**
    Section 4.1.2.5 of RFC 5280, validity. The policy accepts exactly while the CA has not expired;
    what it accepts is valid now, ends no later than the CA, and lives at most 30 days, and at least
    15 minutes unless the CA's own expiry cuts it short.
  */
  lemma ValidityWindow(usages: seq<string>, expirationSeconds: Option<int32>, now: int, c: Certificate, signerNotAfter: int)
    requires TranslatesOk(usages)
    ensures var r := PolicyOutcome(ControllerPolicy(usages, expirationSeconds), now, c, signerNotAfter);
      && (r.Success? <==> now < signerNotAfter)
      && (r.Failure? ==> r.error == (if now - 300_000_000_000 >= signerNotAfter then SignerExpired(signerNotAfter)
                                     else ExpiredInPast(signerNotAfter)))
      && (r.Success? ==>
        && r.value.notBefore == now - 300_000_000_000
        && r.value.notBefore < now < r.value.notAfter <= signerNotAfter
        && r.value.notAfter - r.value.notBefore <= 2_592_000_000_000_000
        && (r.value.notAfter < signerNotAfter ==> r.value.notAfter - r.value.notBefore >= 900_000_000_000)
        && r.value.notAfter == EndFor(expirationSeconds, now, signerNotAfter))
  {
    GrantedTtlRange(expirationSeconds);
  }

  /** The granted lifetime ends the certificate, five minutes early from eight hours on, unless the CA ends it first. */
  lemma EndExactly(expirationSeconds: Option<int32>, now: int, signerNotAfter: int)
    ensures var ttl, end := GrantedTtl(expirationSeconds), EndFor(expirationSeconds, now, signerNotAfter);
      && (ttl < 28_800_000_000_000 ==> end == Earlier(now + ttl, signerNotAfter))
      && (ttl >= 28_800_000_000_000 ==> end == Earlier(now + ttl - 300_000_000_000, signerNotAfter))
  {}

  function Earlier(a: int, b: int): int {
    if a < b then a else b
  }

  /** The end of the certificate the controller issues for a request. */
  function EndFor(expirationSeconds: Option<int32>, now: int, signerNotAfter: int): int {
    NotAfterFor(ControllerPolicy([], expirationSeconds), now, signerNotAfter)
  }

  predicate IsShort(expirationSeconds: Option<int32>) {
    GrantedTtl(expirationSeconds) < 28_800_000_000_000
  }

  /** Asking for longer never grants less, and not asking grants the most. */
  lemma GrantedTtlMonotone(a: int32, b: Option<int32>)
    requires b.Some? ==> a <= b.value
    ensures GrantedTtl(Some(a)) <= GrantedTtl(b)
  {}

  /**
    A longer request does not always end later. It ends earlier exactly when it crosses the
    eight-hour boundary by less than the five-minute backdate and the CA does not cut it off first.
  */
  lemma EndInversion(a: int32, b: Option<int32>, now: int, signerNotAfter: int)
    requires b.Some? ==> a <= b.value
    ensures EndFor(b, now, signerNotAfter) < EndFor(Some(a), now, signerNotAfter)
      <==> && IsShort(Some(a)) && !IsShort(b)
           && GrantedTtl(b) - GrantedTtl(Some(a)) < 300_000_000_000
           && now + GrantedTtl(b) - 300_000_000_000 < signerNotAfter
  {
    GrantedTtlMonotone(a, b);
  }

  /**
    What signing comes to, and why it fails: the first of the checks that does not hold, in the order signature,
    serial number, known usages, CA expiry, creation. What is signed means the policy's usages, keeps the identity
    and carries no extension of the request's.
  */
  lemma SignMeaning(ca: CertificateAuthority, req: CertificateRequest, p: SigningPolicy, now: int, crypto: Crypto)
    ensures var r := Signed(ca, req, p, now, crypto);
      var known := forall u | u in p.usages :: Recognized(u);
      && (r == Failure(BadSignature) <==> !req.signatureValid)
      && (r == Failure(NoSerialNumber) <==> req.signatureValid && !crypto.serialDrawn)
      && (r.Failure? && r.error.PolicyRefused? && r.error.reason.UnrecognizedUsages?
          <==> req.signatureValid && crypto.serialDrawn && !known)
      && (r == Failure(PolicyRefused(SignerExpired(ca.notAfter)))
          <==> req.signatureValid && crypto.serialDrawn && known && ca.notAfter <= now - p.backdate)
      && (r == Failure(PolicyRefused(ExpiredInPast(ca.notAfter)))
          <==> req.signatureValid && crypto.serialDrawn && known && now - p.backdate < ca.notAfter <= now)
      && (r == Failure(CreateFailed) ==> req.signatureValid && crypto.serialDrawn && known && !crypto.created)
      && (r.Success? ==>
            && req.signatureValid && crypto.serialDrawn && crypto.created && known
            && ca.notAfter > now && ca.notAfter > now - p.backdate
            && Means(p.usages, Usages(r.value.keyUsage, r.value.extKeyUsage))
            && r.value.identity == req.identity && r.value.extensions == [] && r.value.extraExtensions == []
            && r.value.basicConstraintsValid && !r.value.isCA && r.value.notBefore == now - p.backdate)
  {
    TranslateMeaning(p.usages);
  }

  /** The inversion is real: asking for one second more than 7:59:59 costs all but a second of five minutes. */
  lemma EndInversionWitness(now: int, signerNotAfter: int)
    requires now + 28_800_000_000_000 < signerNotAfter
    ensures EndFor(Some(28_799), now, signerNotAfter) - EndFor(Some(28_800), now, signerNotAfter) == 299_000_000_000
  {}

  /** Up to the backdate, longer requests end later; within one regime, and against no request at all, exactly so. */
  lemma EndNearMonotone(a: int32, b: Option<int32>, now: int, signerNotAfter: int)
    requires b.Some? ==> a <= b.value
    ensures EndFor(b, now, signerNotAfter) >= EndFor(Some(a), now, signerNotAfter) - 300_000_000_000
    ensures IsShort(Some(a)) == IsShort(b) || b.None?
        ==> EndFor(b, now, signerNotAfter) >= EndFor(Some(a), now, signerNotAfter)
  {
    GrantedTtlMonotone(a, b);
  }
}
