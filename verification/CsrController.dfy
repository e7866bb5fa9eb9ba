/** The signing controller itself: one sync over the informer's object, the CA field and the API server. */
module CsrController {
  import opened Wrappers
  import opened Signing
  import opened CsrObjects
  import P = CsrProtocol
  import S = CsrSafety

  /** A request as the informer shares it: the controller reads it, and appends to its conditions in place. */
  class CachedRequest {
    const rv: nat
    const uid: nat
    const labels: map<string, string>
    const spec: CsrSpec
    var conditions: seq<CsrCondition>
    var certificate: Option<Certificate>

    function Value(): Csr
      reads this
    {
      Csr(uid, labels, spec, conditions, certificate)
    }

    constructor (rv: nat, csr: Csr)
      ensures this.rv == rv && Value() == csr
    {
      this.rv, this.uid, this.labels, this.spec := rv, csr.uid, csr.labels, csr.spec;
      this.conditions, this.certificate := csr.conditions, csr.certificate;
    }
  }

  class CsrApiServer {
    /** Whether two conditions of one type are refused. */
    const strict: bool
    var versions: map<nat, P.Version>
    var live: map<string, nat>
    var nextRv: nat

    constructor (strict: bool)
      ensures versions == map[] && live == map[] && nextRv == 0 && this.strict == strict
    {
      this.strict := strict;
      versions, live, nextRv := map[], map[], 0;
    }

    /** Takes the status of `request` if the server is willing, nobody wrote since it was read, and its conditions may be stored. */
    method UpdateStatus(name: string, request: CachedRequest, accepted: bool) returns (landed: bool)
      modifies this
      ensures landed == (&& accepted && name in old(live) && old(live)[name] == request.rv
                         && request.rv in old(versions)
                         && (strict ==> OnePerType(request.conditions)))
      ensures !landed ==> versions == old(versions) && live == old(live) && nextRv == old(nextRv)
      ensures landed ==>
        && live == old(live)[name := old(nextRv)] && nextRv == old(nextRv) + 1
        && versions == old(versions)[old(nextRv) := P.Version(name,
             old(versions)[request.rv].csr.(conditions := request.conditions, certificate := request.certificate))]
    {
      landed := accepted && name in live && live[name] == request.rv && request.rv in versions
                && (strict ==> OnePerType(request.conditions));
      if landed {
        var stored := versions[request.rv].csr.(conditions := request.conditions, certificate := request.certificate);
        versions := versions[nextRv := P.Version(name, stored)];
        live, nextRv := live[name := nextRv], nextRv + 1;
      }
    }
  }

  /** The error a sync returns, which decides whether the queue retries it. */
  function SyncResult(s: P.State, now: int, loaded: Option<CertificateAuthority>, crypto: Crypto, accepted: bool)
    : Option<SyncError>
    requires s.worker.Holding? && s.worker.id in s.memory
  {
    var o := s.memory[s.worker.id].csr;
    var d := P.Decided(s, now, loaded, crypto);
    if d.worker.Writing? then (if P.Lands(d, accepted) then None else Some(UpdateRefused))
    else if !Gate(o).Accept? then None
    else
      var ca := P.LoadedCa(s.ca, loaded);
      if ca.None? then Some(CaNotLoaded)
      else
        match CertificateFor(ca.value, o.spec, now, crypto)
        case Failure(e) => Some(e)
        case Success(_) => None
  }

  /** What a pass over a request of each verdict comes to. */
  lemma IgnoringPass(s: P.State, name: string, now: int, loaded: Option<CertificateAuthority>, crypto: Crypto, accepted: bool)
    requires s.worker.Idle? && name in s.cache && s.cache[name] in s.memory && Gate(s.memory[s.cache[name]].csr).Ignore?
    ensures S.Sync(s, name, now, loaded, crypto, accepted) == s
    ensures SyncResult(S.HoldingIn(s, name), now, loaded, crypto, accepted) == None
  {}

  lemma RejectingPass(
    s: P.State, name: string, now: int, loaded: Option<CertificateAuthority>, crypto: Crypto, accepted: bool, complaint: string)
    requires s.worker.Idle? && name in s.cache && s.cache[name] in s.memory
    requires Gate(s.memory[s.cache[name]].csr) == Reject(complaint)
    ensures var o := s.memory[s.cache[name]];
      var spoiled := o.(csr := WithFailure(o.csr, FailedCondition(complaint, now)));
      var w := s.(memory := s.memory[s.cache[name] := spoiled], worker := P.Writing(name, spoiled));
      && S.Sync(s, name, now, loaded, crypto, accepted) == P.Written(w, accepted)
      && SyncResult(S.HoldingIn(s, name), now, loaded, crypto, accepted)
         == (if P.Lands(w, accepted) then None else Some(UpdateRefused))
  {}

  /** What issuing comes to for a CA that may be missing. */
  function IssueResult(ca: Option<CertificateAuthority>, spec: CsrSpec, now: int, crypto: Crypto): Result<Certificate, SyncError> {
    if ca.None? then Failure(CaNotLoaded) else CertificateFor(ca.value, spec, now, crypto)
  }

  lemma FailingPass(
    s: P.State, name: string, now: int, loaded: Option<CertificateAuthority>, crypto: Crypto, accepted: bool, e: SyncError)
    requires s.worker.Idle? && name in s.cache && s.cache[name] in s.memory && Gate(s.memory[s.cache[name]].csr).Accept?
    requires IssueResult(P.LoadedCa(s.ca, loaded), s.memory[s.cache[name]].csr.spec, now, crypto) == Failure(e)
    ensures S.Sync(s, name, now, loaded, crypto, accepted) == s.(ca := P.LoadedCa(s.ca, loaded))
    ensures SyncResult(S.HoldingIn(s, name), now, loaded, crypto, accepted) == Some(e)
  {}

  lemma SigningPass(
    s: P.State, name: string, now: int, loaded: Option<CertificateAuthority>, crypto: Crypto, accepted: bool, c: Certificate)
    requires s.worker.Idle? && name in s.cache && s.cache[name] in s.memory && Gate(s.memory[s.cache[name]].csr).Accept?
    requires IssueResult(P.LoadedCa(s.ca, loaded), s.memory[s.cache[name]].csr.spec, now, crypto) == Success(c)
    ensures var o := s.memory[s.cache[name]];
      var signed := o.(csr := o.csr.(certificate := Some(c)));
      var w := s.(ca := P.LoadedCa(s.ca, loaded), worker := P.Writing(name, signed));
      && S.Sync(s, name, now, loaded, crypto, accepted) == P.Written(w, accepted)
      && SyncResult(S.HoldingIn(s, name), now, loaded, crypto, accepted)
         == (if P.Lands(w, accepted) then None else Some(UpdateRefused))
  {}

  /**
    What the work queue is told. Requests that are none of the controller's business, or whose status has been
    written, are done; everything else comes back as an error, and so is tried again.
  */
  lemma ResultMeaning(s: P.State, name: string, now: int, loaded: Option<CertificateAuthority>, crypto: Crypto, accepted: bool)
    requires s.worker.Idle? && name in s.cache && s.cache[name] in s.memory
    ensures var o := s.memory[s.cache[name]].csr;
      var t := S.Sync(s, name, now, loaded, crypto, accepted);
      var r := SyncResult(S.HoldingIn(s, name), now, loaded, crypto, accepted);
      var ca := if s.ca.Some? then s.ca else loaded;
      && (!Addressed(o) ==> r == None && t == s)
      && (Misused(o) || (Signable(o) && S.CanIssue(ca, o.spec.request, now, crypto)) ==>
            r == (if t.nextRv == s.nextRv + 1 then None else Some(UpdateRefused)))
      && (Signable(o) && !S.CanIssue(ca, o.spec.request, now, crypto) ==>
            && t == s.(ca := ca) && r.Some?
            && (r.value == CaNotLoaded <==> ca == None)
            && (r.value == UnparsableRequest <==> ca.Some? && o.spec.request == None))
  {
    var o := s.memory[s.cache[name]].csr;
    GateDecides(o);
    if Misused(o) {
      RejectingPass(s, name, now, loaded, crypto, accepted, Gate(o).complaint);
    } else if Signable(o) {
      SignableResult(s, name, now, loaded, crypto, accepted);
    } else {
      IgnoringPass(s, name, now, loaded, crypto, accepted);
    }
  }

  lemma SignableResult(s: P.State, name: string, now: int, loaded: Option<CertificateAuthority>, crypto: Crypto, accepted: bool)
    requires s.worker.Idle? && name in s.cache && s.cache[name] in s.memory && Signable(s.memory[s.cache[name]].csr)
    ensures var o := s.memory[s.cache[name]].csr;
      var t := S.Sync(s, name, now, loaded, crypto, accepted);
      var r := SyncResult(S.HoldingIn(s, name), now, loaded, crypto, accepted);
      var ca := if s.ca.Some? then s.ca else loaded;
      && (S.CanIssue(ca, o.spec.request, now, crypto) ==>
            r == (if t.nextRv == s.nextRv + 1 then None else Some(UpdateRefused)))
      && (!S.CanIssue(ca, o.spec.request, now, crypto) ==>
            && t == s.(ca := ca) && r.Some?
            && (r.value == CaNotLoaded <==> ca == None)
            && (r.value == UnparsableRequest <==> ca.Some? && o.spec.request == None))
  {
    var o := s.memory[s.cache[name]].csr;
    var ca := if s.ca.Some? then s.ca else loaded;
    GateDecides(o);
    IssuableIff(ca, o.spec, now, crypto);
    match IssueResult(ca, o.spec, now, crypto)
    case Failure(e) => FailingPass(s, name, now, loaded, crypto, accepted, e);
    case Success(c) => SigningPass(s, name, now, loaded, crypto, accepted, c);
  }

  lemma IssuableIff(ca: Option<CertificateAuthority>, spec: CsrSpec, now: int, crypto: Crypto)
    requires ForClients(spec.usages)
    ensures var r := IssueResult(ca, spec, now, crypto);
      && (r.Success? <==> S.CanIssue(ca, spec.request, now, crypto))
      && (r.Failure? ==> (r.error == CaNotLoaded <==> ca == None))
      && (r.Failure? ==> (r.error == UnparsableRequest <==> ca.Some? && spec.request == None))
  {
    ValidIsForClients(spec.usages);
    if ca.Some? {
      GatedCertificate(ca.value, spec, now, crypto);
    }
  }

  class CsrSigningController {
    var ca: Option<CertificateAuthority>
    var cache: map<string, CachedRequest>
    const api: CsrApiServer

    constructor (api: CsrApiServer)
      ensures ca == None && cache == map[] && this.api == api
    {
      this.ca, this.cache, this.api := None, map[], api;
    }

    /** The protocol state of one object the informer holds, seen as object 0. */
    ghost function Seen(name: string): P.State
      requires name in cache
      reads this, api, cache[name]
    {
      P.State(api.strict, api.versions, api.live, api.nextRv, map[0 := P.Cached(cache[name].rv, cache[name].Value())],
              map[name := 0], ca, P.Idle)
    }

    /** The CA is read from its files once, and kept. */
    method InitCA(loaded: Option<CertificateAuthority>) returns (ready: bool)
      modifies this`ca
      ensures old(ca).None? ==> ca == loaded
      ensures old(ca).Some? ==> ca == old(ca)
      ensures ready == ca.Some?
    {
      if ca.None? {
        ca := loaded;
      }
      ready := ca.Some?;
    }

    /** Appends the failure to the shared object itself, then writes that object's status. */
    method Fail(name: string, complaint: string, now: int, accepted: bool) returns (err: Option<SyncError>)
      requires name in cache
      modifies api, cache[name]
      ensures var spoiled := P.Cached(cache[name].rv, WithFailure(old(cache[name].Value()), FailedCondition(complaint, now)));
        var w := old(Seen(name)).(memory := map[0 := spoiled], worker := P.Writing(name, spoiled));
        && Seen(name) == P.Written(w, accepted)
        && err == (if P.Lands(w, accepted) then None else Some(UpdateRefused))
    {
      var request := cache[name];
      request.conditions := request.conditions + [FailedCondition(complaint, now)];
      var landed := api.UpdateStatus(name, request, accepted);
      return if landed then None else Some(UpdateRefused);
    }

    /** Puts the certificate on a deep copy, and writes the copy's status; the shared object stays as it was. */
    method Store(name: string, certificate: Certificate, accepted: bool) returns (err: Option<SyncError>)
      requires name in cache
      modifies api
      ensures var signed := P.Cached(cache[name].rv, cache[name].Value().(certificate := Some(certificate)));
        var w := old(Seen(name)).(worker := P.Writing(name, signed));
        && Seen(name) == P.Written(w, accepted)
        && err == (if P.Lands(w, accepted) then None else Some(UpdateRefused))
    {
      var copy := new CachedRequest(cache[name].rv, cache[name].Value());
      copy.certificate := Some(certificate);
      var landed := api.UpdateStatus(name, copy, accepted);
      return if landed then None else Some(UpdateRefused);
    }

    /** The checks a sync makes before it touches anything, in their order; together they are the gate. */
    method Examine(request: CachedRequest) returns (verdict: Verdict)
      ensures verdict == Gate(request.Value())
      ensures verdict.Accept? <==> Signable(request.Value())
      ensures verdict.Reject? <==> Misused(request.Value())
      ensures verdict.Reject? ==> Complains(request.spec.usages, verdict.complaint)
    {
      GateDecides(request.Value());
      if CLUSTER_NAME_LABEL !in request.labels {
        return Ignore;
      }
      var approved := IsApproved(request.conditions);
      if !approved {
        return Ignore;
      }
      if request.certificate.Some? {
        return Ignore;
      }
      if request.spec.signerName != API_SERVER_CLIENT_SIGNER {
        return Ignore;
      }
      var complaint := ValidateClientUsages(request.spec.usages);
      return if complaint.Some? then Reject(complaint.value) else Accept;
    }

    /** Loads the CA if need be, and signs the parsed request. */
    method Issue(spec: CsrSpec, now: int, loaded: Option<CertificateAuthority>, crypto: Crypto)
      returns (r: Result<Certificate, SyncError>)
      modifies this`ca
      ensures ca == if old(ca).Some? then old(ca) else loaded
      ensures r == IssueResult(ca, spec, now, crypto)
    {
      var ready := InitCA(loaded);
      if !ready {
        return Failure(CaNotLoaded);
      }
      if spec.request.None? {
        return Failure(UnparsableRequest);
      }
      var signed := Sign(ca.value, spec.request.value, ControllerPolicy(spec.usages, spec.expirationSeconds), now, crypto);
      return match signed case Failure(e) => Failure(SignFailed(e)) case Success(c) => Success(c);
    }

    /** What follows once the gate has accepted. */
    method SignAccepted(name: string, now: int, loaded: Option<CertificateAuthority>, crypto: Crypto, accepted: bool)
      returns (err: Option<SyncError>)
      requires name in cache && Gate(cache[name].Value()).Accept?
      modifies this`ca, api
      ensures Seen(name) == S.Sync(old(Seen(name)), name, now, loaded, crypto, accepted)
      ensures err == SyncResult(S.HoldingIn(old(Seen(name)), name), now, loaded, crypto, accepted)
    {
      ghost var seen := Seen(name);
      var r := Issue(cache[name].spec, now, loaded, crypto);
      match r
      case Failure(e) =>
        FailingPass(seen, name, now, loaded, crypto, accepted, e);
        return Some(e);
      case Success(c) =>
        SigningPass(seen, name, now, loaded, crypto, accepted, c);
        err := Store(name, c, accepted);
    }

    /** What follows each verdict of the gate. */
    method Act(
      name: string, verdict: Verdict, now: int, loaded: Option<CertificateAuthority>, crypto: Crypto, accepted: bool)
      returns (err: Option<SyncError>)
      requires name in cache && verdict == Gate(cache[name].Value())
      modifies this`ca, api, cache[name]
      ensures Seen(name) == S.Sync(old(Seen(name)), name, now, loaded, crypto, accepted)
      ensures err == SyncResult(S.HoldingIn(old(Seen(name)), name), now, loaded, crypto, accepted)
    {
      ghost var seen := Seen(name);
      match verdict
      case Ignore =>
        IgnoringPass(seen, name, now, loaded, crypto, accepted);
        return None;
      case Reject(complaint) =>
        RejectingPass(seen, name, now, loaded, crypto, accepted, complaint);
        HeldObject(seen.memory);
        err := Fail(name, complaint, now, accepted);
      case Accept =>
        err := SignAccepted(name, now, loaded, crypto, accepted);
    }

    /** One sync does to the server, the CA field and the shared object what an undisturbed pass of the protocol does. */
    method Sync(name: string, now: int, loaded: Option<CertificateAuthority>, crypto: Crypto, accepted: bool)
      returns (err: Option<SyncError>)
      modifies this`ca, api, if name in cache then {cache[name]} else {}
      ensures name !in old(cache) ==>
        err == None && ca == old(ca) && api.versions == old(api.versions) && api.live == old(api.live)
        && api.nextRv == old(api.nextRv)
      ensures name in old(cache) ==>
        && Seen(name) == S.Sync(old(Seen(name)), name, now, loaded, crypto, accepted)
        && err == SyncResult(S.HoldingIn(old(Seen(name)), name), now, loaded, crypto, accepted)
    {
      if name !in cache {
        return None;
      }
      var verdict := Examine(cache[name]);
      err := Act(name, verdict, now, loaded, crypto, accepted);
    }
  }

  lemma HeldObject(memory: map<nat, P.Cached>)
    requires memory.Keys == {0}
    ensures forall o :: memory[0 := o] == map[0 := o]
  {}
}
