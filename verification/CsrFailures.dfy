/**
  How many failures a request with bad usages collects. The controller never looks for a failure that is
  already there, so only the API server stands between it and one failure per delivered version.
*/
module CsrFailures {
  import opened Wrappers
  import opened Signing
  import opened CsrObjects
  import opened CsrProtocol
  import opened CsrSafety

  /** The server stores one more failure beside these conditions. */
  predicate TakesFailure(strict: bool, conditions: seq<CsrCondition>) {
    strict ==> !HasCondition(conditions, Failed)
  }

  lemma OneMoreFailure(conditions: seq<CsrCondition>, failure: CsrCondition)
    requires failure.ctype == Failed
    ensures OnePerType(conditions + [failure]) <==> OnePerType(conditions) && !HasCondition(conditions, Failed)
    ensures HasCondition(conditions + [failure], Failed)
  {
    var more := conditions + [failure];
    assert more[|conditions|] == failure;
    forall i | 0 <= i < |conditions| ensures more[i] == conditions[i] {}
  }

  /** An object that differs from what the server stored shows a failure. */
  lemma SpoiledShows(o: Csr, base: Csr)
    requires Spoiled(o, base) && o != base
    ensures HasCondition(o.conditions, Failed)
  {
    assert o.conditions[..|o.conditions|] == o.conditions != base.conditions;
    assert o.conditions[|base.conditions|].ctype == Failed;
  }

  // ---------------------------------------------------------------- one attempt

  /** The object a name points to, while the gate rejects it. */
  ghost predicate Rejecting(s: State, name: string) {
    && s.worker.Idle? && name in s.cache && s.cache[name] in s.memory
    && Misused(s.memory[s.cache[name]].csr)
  }

  /** The failure a sync at `now` puts on the object. */
  function FailureAt(csr: Csr, now: int): CsrCondition {
    CsrCondition(Failed, "SignerValidationFailure", UsageComplaint(csr.spec.usages), now)
  }

  function SpoiledAgain(s: State, name: string, now: int): State
    requires name in s.cache && s.cache[name] in s.memory
  {
    var o := s.memory[s.cache[name]];
    s.(memory := s.memory[s.cache[name] := o.(csr := WithFailure(o.csr, FailureAt(o.csr, now)))])
  }

  /** A rejecting sync spoils the object in memory whatever becomes of its write. */
  lemma RejectingSync(s: State, name: string, now: int, loaded: Option<CertificateAuthority>, crypto: Crypto, accepted: bool)
    requires Rejecting(s, name)
    ensures var o := s.memory[s.cache[name]];
      var spoiled := o.(csr := WithFailure(o.csr, FailureAt(o.csr, now)));
      Sync(s, name, now, loaded, crypto, accepted)
      == Written(SpoiledAgain(s, name, now).(worker := Writing(name, spoiled)), accepted)
  {
    GateDecides(s.memory[s.cache[name]].csr);
  }

  /** What a strict server does not store is lost: only the object in memory shows that there was an attempt. */
  lemma RefusedSync(s: State, name: string, now: int, loaded: Option<CertificateAuthority>, crypto: Crypto, accepted: bool)
    requires Rejecting(s, name)
    requires accepted ==> s.strict && HasCondition(s.memory[s.cache[name]].csr.conditions, Failed)
    ensures Sync(s, name, now, loaded, crypto, accepted) == SpoiledAgain(s, name, now)
  {
    var o := s.memory[s.cache[name]].csr;
    RejectingSync(s, name, now, loaded, crypto, accepted);
    OneMoreFailure(o.conditions, FailureAt(o, now));
  }

  lemma RejectingAgain(s: State, name: string, now: int)
    requires Rejecting(s, name)
    ensures var t := SpoiledAgain(s, name, now);
      Rejecting(t, name) && HasCondition(t.memory[s.cache[name]].csr.conditions, Failed)
  {
    var o := s.memory[s.cache[name]].csr;
    OneMoreFailure(o.conditions, FailureAt(o, now));
    MisusedStays(o, now);
  }

  /** A failure of the controller's leaves a misused request misused. */
  lemma MisusedStays(csr: Csr, now: int)
    requires Misused(csr)
    ensures Misused(WithFailure(csr, FailureAt(csr, now))) && ControllersFailure(FailureAt(csr, now), csr.spec.usages)
  {
    var more := WithFailure(csr, FailureAt(csr, now));
    assert forall i | 0 <= i < |csr.conditions| :: more.conditions[i] == csr.conditions[i];
    ComplaintSays(csr.spec.usages);
  }

  /** A write that may land, and whether it does. */
  ghost predicate Current(s: State, name: string) {
    && Rejecting(s, name) && name in s.live && s.live[name] in s.versions
    && s.memory[s.cache[name]].rv == s.live[name]
  }

  /** Lands, or not: the write of an object with one more failure than what the server shows. */
  lemma RejectionLands(s: State, name: string, now: int, loaded: Option<CertificateAuthority>, crypto: Crypto)
    requires Current(s, name) && Spoiled(s.memory[s.cache[name]].csr, Server(s, name)) && Takes(s, Server(s, name).conditions)
    ensures var t := Sync(s, name, now, loaded, crypto, true);
      var o, before := s.memory[s.cache[name]].csr, Server(s, name);
      && t.worker.Idle? && name in t.live && t.live[name] in t.versions
      && Server(t, name) == before.(conditions :=
           if TakesFailure(s.strict, o.conditions) then o.conditions + [FailureAt(o, now)] else before.conditions)
      && (s.strict && TakesFailure(s.strict, o.conditions) ==> o == before)
  {
    var o, before := s.memory[s.cache[name]].csr, Server(s, name);
    RejectingSync(s, name, now, loaded, crypto, true);
    OneMoreFailure(o.conditions, FailureAt(o, now));
    if o != before {
      SpoiledShows(o, before);
    }
  }

  /**
    A rejection of the server's own version lands on a willing server exactly when that server takes one more
    failure on the object in memory; what it adds is everything that object has gathered, and one more.
  */
  lemma RejectionLandsIff(s: State, name: string, now: int, loaded: Option<CertificateAuthority>, crypto: Crypto)
    requires Inv(s) && Current(s, name)
    ensures var t := Sync(s, name, now, loaded, crypto, true);
      var o, before := s.memory[s.cache[name]].csr, Server(s, name);
      && t.worker.Idle? && name in t.live && t.live[name] in t.versions
      && before.conditions <= o.conditions
      && Server(t, name) == before.(conditions :=
           if TakesFailure(s.strict, o.conditions) then o.conditions + [FailureAt(o, now)] else before.conditions)
      && ControllersFailure(FailureAt(o, now), before.spec.usages)
      && (s.strict && TakesFailure(s.strict, o.conditions) ==> o == before)
  {
    assert ReadFrom(s.versions, s.memory[s.cache[name]]);
    MisusedStays(s.memory[s.cache[name]].csr, now);
    RejectionLands(s, name, now, loaded, crypto);
  }

  // ---------------------------------------------------------------- attempts on one object in memory

  /** Attempt after attempt on the same object in memory, each at its time, the server willing or not. */
  function Attempts(
    s: State, name: string, tries: seq<(int, bool)>, loaded: Option<CertificateAuthority>, crypto: Crypto): State
  {
    if |tries| == 0 then s
    else
      var before := Attempts(s, name, tries[..|tries| - 1], loaded, crypto);
      var (now, accepted) := tries[|tries| - 1];
      if name in before.cache && before.cache[name] in before.memory
      then Sync(before, name, now, loaded, crypto, accepted) else before
  }

  /** Only the object in memory differs, and by `n` failures. */
  ghost predicate Gathered(s: State, t: State, name: string, n: nat)
    requires Rejecting(s, name)
  {
    && t == s.(memory := t.memory) && Rejecting(t, name)
    && var o, after := s.memory[s.cache[name]], t.memory[s.cache[name]];
       && after.rv == o.rv && |after.csr.conditions| == |o.csr.conditions| + n
       && (n > 0 || HasCondition(o.csr.conditions, Failed) ==> HasCondition(after.csr.conditions, Failed))
  }

  lemma GatheredMore(s: State, t: State, name: string, n: nat, now: int)
    requires Rejecting(s, name) && Gathered(s, t, name, n)
    ensures Gathered(s, SpoiledAgain(t, name, now), name, n + 1)
  {
    RejectingAgain(t, name, now);
  }

  /** Refused attempts leave everything alone but the object in memory, which gathers one failure for each. */
  lemma {:induction false} RefusalsGather(
    s: State, name: string, tries: seq<(int, bool)>, loaded: Option<CertificateAuthority>, crypto: Crypto)
    requires Rejecting(s, name)
    requires forall i | 0 <= i < |tries| :: tries[i].1 ==> s.strict && HasCondition(s.memory[s.cache[name]].csr.conditions, Failed)
    ensures Gathered(s, Attempts(s, name, tries, loaded, crypto), name, |tries|)
  {
    if |tries| > 0 {
      var last := |tries| - 1;
      RefusalsGather(s, name, tries[..last], loaded, crypto);
      var before := Attempts(s, name, tries[..last], loaded, crypto);
      RefusedSync(before, name, tries[last].0, loaded, crypto, tries[last].1);
      GatheredMore(s, before, name, last, tries[last].0);
    }
  }

  /** On a strict server an object once refused is stuck: no later write of it lands until it is delivered anew. */
  lemma StuckOnceRefused(
    s: State, name: string, refused: int, tries: seq<(int, bool)>, loaded: Option<CertificateAuthority>, crypto: Crypto)
    requires s.strict && Rejecting(s, name)
    ensures var t := Attempts(Sync(s, name, refused, loaded, crypto, false), name, tries, loaded, crypto);
      t.versions == s.versions && t.live == s.live && t.nextRv == s.nextRv
  {
    RefusedSync(s, name, refused, loaded, crypto, false);
    RejectingAgain(s, name, refused);
    RefusalsGather(SpoiledAgain(s, name, refused), name, tries, loaded, crypto);
  }

  lemma {:induction false} AttemptsKeepInv(
    s: State, name: string, tries: seq<(int, bool)>, loaded: Option<CertificateAuthority>, crypto: Crypto)
    requires Inv(s) && s.worker.Idle?
    ensures var t := Attempts(s, name, tries, loaded, crypto); Inv(t) && t.worker.Idle?
  {
    if |tries| > 0 {
      var last := |tries| - 1;
      AttemptsKeepInv(s, name, tries[..last], loaded, crypto);
      var before := Attempts(s, name, tries[..last], loaded, crypto);
      if name in before.cache && before.cache[name] in before.memory {
        SyncKeepsInv(before, name, tries[last].0, loaded, crypto, tries[last].1);
      }
    }
  }

  /** On a lax server the write that lands brings the failures of all the refused ones before it. */
  lemma LandedBringsRefused(
    s: State, name: string, refused: seq<(int, bool)>, now: int, loaded: Option<CertificateAuthority>, crypto: Crypto)
    requires Inv(s) && Current(s, name) && !s.strict
    requires s.memory[s.cache[name]].csr == Server(s, name) && forall i | 0 <= i < |refused| :: !refused[i].1
    ensures var held := Attempts(s, name, refused, loaded, crypto);
      && name in held.cache && held.cache[name] in held.memory
      && var t := Sync(held, name, now, loaded, crypto, true);
         && name in t.live && t.live[name] in t.versions
         && |Server(t, name).conditions| == |Server(s, name).conditions| + |refused| + 1
  {
    RefusalsGather(s, name, refused, loaded, crypto);
    AttemptsKeepInv(s, name, refused, loaded, crypto);
    RejectionLandsIff(Attempts(s, name, refused, loaded, crypto), name, now, loaded, crypto);
  }

  lemma HoldingKeepsInv(s: State, name: string)
    requires Inv(s) && name in s.cache
    ensures Inv(HoldingIn(s, name))
  {
    assert Refers(s.versions, s.memory, name, s.cache[name]);
  }

  lemma FinishingKeepsInv(s: State, accepted: bool)
    requires Inv(s) && !s.worker.Holding?
    ensures Inv(Finished(s, accepted)) && Finished(s, accepted).worker.Idle?
  {
    if s.worker.Writing? {
      WriteKeepsInv(s, accepted);
    }
  }

  lemma DecidedLetsGo(s: State, now: int, loaded: Option<CertificateAuthority>, crypto: Crypto)
    requires s.worker.Holding? && s.worker.id in s.memory
    ensures !Decided(s, now, loaded, crypto).worker.Holding?
  {}

  lemma SyncKeepsInv(s: State, name: string, now: int, loaded: Option<CertificateAuthority>, crypto: Crypto, accepted: bool)
    requires Inv(s) && s.worker.Idle? && name in s.cache && s.cache[name] in s.memory
    ensures var t := Sync(s, name, now, loaded, crypto, accepted); Inv(t) && t.worker.Idle?
  {
    HoldingKeepsInv(s, name);
    DecideKeepsInv(HoldingIn(s, name), now, loaded, crypto);
    DecidedLetsGo(HoldingIn(s, name), now, loaded, crypto);
    FinishingKeepsInv(Decided(HoldingIn(s, name), now, loaded, crypto), accepted);
  }

  // ---------------------------------------------------------------- rounds of delivery and sync

  /** The informer delivers the live version as a fresh object, and a sync of it runs on a willing server. */
  function Round(s: State, name: string, id: nat, now: int, loaded: Option<CertificateAuthority>, crypto: Crypto): State {
    if name in s.live && Enabled(s, Deliver(name, s.live[name], id))
    then Sync(Next(s, Deliver(name, s.live[name], id)), name, now, loaded, crypto, true) else s
  }

  /** One round after the other, delivering objects with the identities from `from` on. */
  ghost predicate Rounds(
    states: seq<State>, name: string, from: nat, now: int, loaded: Option<CertificateAuthority>, crypto: Crypto)
  {
    && |states| > 0
    && forall i | 0 < i < |states| :: states[i] == Round(states[i - 1], name, from + i - 1, now, loaded, crypto)
  }

  lemma {:induction false} SomeRounds(
    s: State, n: nat, name: string, from: nat, now: int, loaded: Option<CertificateAuthority>, crypto: Crypto)
    returns (states: seq<State>)
    ensures Rounds(states, name, from, now, loaded, crypto) && |states| == n + 1 && states[0] == s
  {
    states := [s];
    if n > 0 {
      var before := SomeRounds(s, n - 1, name, from, now, loaded, crypto);
      var next := Round(before[n - 1], name, from + n - 1, now, loaded, crypto);
      states := before + [next];
      assert states[..n] == before;
      forall i | 0 < i < n + 1 ensures states[i] == Round(states[i - 1], name, from + i - 1, now, loaded, crypto) {
        assert states[i - 1] == before[i - 1];
        assert i < n ==> states[i] == before[i];
      }
    }
  }

  /** Between two rounds: nobody is at work, and the request is there. */
  ghost predicate Settled(s: State, name: string) {
    Inv(s) && s.worker.Idle? && name in s.live
  }

  /** What one round adds to the conditions on the server. */
  ghost function OneRound(strict: bool, csr: Csr, now: int): seq<CsrCondition> {
    if Misused(csr) && TakesFailure(strict, csr.conditions) then [FailureAt(csr, now)] else []
  }

  /** What the informer and the server show of the request right after a delivery. */
  ghost predicate JustDelivered(s: State, name: string) {
    && s.worker.Idle? && name in s.live && s.live[name] in s.versions && Takes(s, Server(s, name).conditions)
    && name in s.cache && s.cache[name] in s.memory
    && s.memory[s.cache[name]] == Cached(s.live[name], Server(s, name))
  }

  lemma SettledIsDeliverable(s: State, name: string, id: nat)
    requires Settled(s, name) && id !in s.memory
    ensures Enabled(s, Deliver(name, s.live[name], id)) && Takes(s, Server(s, name).conditions)
  {}

  lemma DeliveredShape(s: State, name: string, id: nat)
    requires s.worker.Idle? && name in s.live && Enabled(s, Deliver(name, s.live[name], id))
    requires Takes(s, Server(s, name).conditions)
    ensures var t := Next(s, Deliver(name, s.live[name], id));
      JustDelivered(t, name) && t == s.(memory := t.memory, cache := t.cache) && t.memory.Keys == s.memory.Keys + {id}
  {}

  lemma SignedIsIgnored(csr: Csr, c: Certificate)
    ensures !Misused(csr.(certificate := Some(c)))
  {}

  /** A decision that does not reject leaves the conditions on the server alone, and the request unrejected. */
  lemma UnrejectedCarried(s: State, name: string, d: Decision)
    requires JustDelivered(s, name) && !Misused(Server(s, name)) && !d.Fail?
    ensures var t := Finished(Carried(HoldingIn(s, name), d), true);
      && name in t.live && t.live[name] in t.versions && t.memory == s.memory && t.strict == s.strict
      && Server(t, name).conditions == Server(s, name).conditions && !Misused(Server(t, name))
  {
    if d.Sign? {
      SignedIsIgnored(Server(s, name), d.certificate);
    }
  }

  lemma DecisionFails(
    held: Option<CertificateAuthority>, csr: Csr, now: int, loaded: Option<CertificateAuthority>, crypto: Crypto)
    ensures DecisionFor(held, csr, now, loaded, crypto).Fail? <==> Misused(csr)
  {
    GateDecides(csr);
  }

  lemma RejectedShape(s: State, name: string, now: int, loaded: Option<CertificateAuthority>, crypto: Crypto)
    requires JustDelivered(s, name) && Misused(Server(s, name))
    ensures var t := Sync(s, name, now, loaded, crypto, true); t.memory.Keys == s.memory.Keys && t.strict == s.strict
  {
    RejectingSync(s, name, now, loaded, crypto, true);
  }

  lemma RejectedRound(s: State, name: string, now: int, loaded: Option<CertificateAuthority>, crypto: Crypto)
    requires JustDelivered(s, name) && Misused(Server(s, name))
    ensures var t := Sync(s, name, now, loaded, crypto, true);
      && name in t.live && t.live[name] in t.versions && t.memory.Keys == s.memory.Keys && t.strict == s.strict
      && Server(t, name).conditions == Server(s, name).conditions + OneRound(s.strict, Server(s, name), now)
      && Misused(Server(t, name))
  {
    RejectionLands(s, name, now, loaded, crypto);
    RejectedShape(s, name, now, loaded, crypto);
    MisusedStays(Server(s, name), now);
  }

  /** What a sync right after a delivery adds. */
  lemma DeliveredSync(s: State, name: string, now: int, loaded: Option<CertificateAuthority>, crypto: Crypto)
    requires JustDelivered(s, name)
    ensures var t := Sync(s, name, now, loaded, crypto, true);
      && name in t.live && t.live[name] in t.versions && t.memory.Keys == s.memory.Keys && t.strict == s.strict
      && Server(t, name).conditions == Server(s, name).conditions + OneRound(s.strict, Server(s, name), now)
      && (Misused(Server(t, name)) <==> Misused(Server(s, name)))
  {
    if Misused(Server(s, name)) {
      RejectedRound(s, name, now, loaded, crypto);
    } else {
      DecisionFails(s.ca, Server(s, name), now, loaded, crypto);
      UnrejectedCarried(s, name, DecisionFor(s.ca, Server(s, name), now, loaded, crypto));
    }
  }

  lemma RoundSettles(s: State, name: string, id: nat, now: int, loaded: Option<CertificateAuthority>, crypto: Crypto)
    requires Settled(s, name) && id !in s.memory
    ensures Inv(Round(s, name, id, now, loaded, crypto)) && Round(s, name, id, now, loaded, crypto).worker.Idle?
  {
    SettledIsDeliverable(s, name, id);
    DeliverKeepsInv(s, name, s.live[name], id);
    DeliveredShape(s, name, id);
    SyncKeepsInv(Next(s, Deliver(name, s.live[name], id)), name, now, loaded, crypto, true);
  }

  /** One round adds a failure exactly when the gate rejects the request and the server takes it. */
  lemma RoundAdds(s: State, name: string, id: nat, now: int, loaded: Option<CertificateAuthority>, crypto: Crypto)
    requires Settled(s, name) && id !in s.memory
    ensures var t := Round(s, name, id, now, loaded, crypto);
      && Settled(t, name) && t.memory.Keys == s.memory.Keys + {id} && t.strict == s.strict
      && Server(t, name).conditions == Server(s, name).conditions + OneRound(s.strict, Server(s, name), now)
      && (Misused(Server(t, name)) <==> Misused(Server(s, name)))
  {
    SettledIsDeliverable(s, name, id);
    DeliveredShape(s, name, id);
    DeliveredSync(Next(s, Deliver(name, s.live[name], id)), name, now, loaded, crypto);
    RoundSettles(s, name, id, now, loaded, crypto);
  }

  /** The failures that `n` rounds add. */
  ghost function Added(strict: bool, csr: Csr, n: nat): nat {
    if !Misused(csr) then 0
    else if !strict then n
    else if n > 0 && !HasCondition(csr.conditions, Failed) then 1
    else 0
  }

  /** No object in memory has an identity from `from` on. */
  ghost predicate UnusedFrom(s: State, from: nat) {
    forall id | id in s.memory :: id < from
  }

  /** `after` is `before` with `n` failures appended. */
  ghost predicate FailuresAppended(before: seq<CsrCondition>, after: seq<CsrCondition>, n: nat) {
    && |after| == |before| + n && before == after[..|before|]
    && forall i | |before| <= i < |after| :: after[i].ctype == Failed
  }

  lemma FailuresShow(before: seq<CsrCondition>, after: seq<CsrCondition>, n: nat)
    requires FailuresAppended(before, after, n)
    ensures HasCondition(after, Failed) <==> n > 0 || HasCondition(before, Failed)
  {
    forall i | 0 <= i < |before| ensures after[i] == before[i] {}
    if n > 0 {
      assert after[|before|].ctype == Failed;
    }
  }

  lemma OneRoundMore(strict: bool, base: Csr, csr: Csr, n: nat, now: int)
    requires FailuresAppended(base.conditions, csr.conditions, Added(strict, base, n))
    requires Misused(csr) <==> Misused(base)
    ensures FailuresAppended(base.conditions, csr.conditions + OneRound(strict, csr, now), Added(strict, base, n + 1))
  {
    FailuresShow(base.conditions, csr.conditions, Added(strict, base, n));
  }

  // ---------------------------------------------------------------- runs

  lemma ExtendRun(states: seq<State>, labels: seq<Label>, l: Label) returns (states': seq<State>, labels': seq<Label>)
    requires Run(states, labels) && Enabled(states[|labels|], l)
    ensures Run(states', labels') && labels <= labels' && |labels'| == |labels| + 1
    ensures states'[|labels'|] == Next(states[|labels|], l) && states'[0] == states[0]
  {
    states', labels' := states + [Next(states[|labels|], l)], labels + [l];
  }

  /** A sync is four steps of the protocol at most. */
  lemma ExtendBySync(
    states: seq<State>, labels: seq<Label>, name: string, now: int, loaded: Option<CertificateAuthority>, crypto: Crypto)
    returns (states': seq<State>, labels': seq<Label>)
    requires Run(states, labels) && states[|labels|].worker.Idle?
    requires name in states[|labels|].cache && states[|labels|].cache[name] in states[|labels|].memory
    ensures Run(states', labels') && labels <= labels' && states'[0] == states[0]
    ensures states'[|labels'|] == Sync(states[|labels|], name, now, loaded, crypto, true)
  {
    states', labels' := ExtendRun(states, labels, Read(name));
    states', labels' := ExtendRun(states', labels', Decide(now, loaded, crypto));
    if states'[|labels'|].worker.Writing? {
      states', labels' := ExtendRun(states', labels', Write(true));
    }
  }

  lemma ExtendByRound(
    states: seq<State>, labels: seq<Label>, name: string, id: nat, now: int,
    loaded: Option<CertificateAuthority>, crypto: Crypto) returns (states': seq<State>, labels': seq<Label>)
    requires Run(states, labels) && Settled(states[|labels|], name) && id !in states[|labels|].memory
    ensures Run(states', labels') && states'[0] == states[0]
    ensures states'[|labels'|] == Round(states[|labels|], name, id, now, loaded, crypto)
  {
    var s := states[|labels|];
    SettledIsDeliverable(s, name, id);
    DeliveredShape(s, name, id);
    states', labels' := ExtendRun(states, labels, Deliver(name, s.live[name], id));
    states', labels' := ExtendBySync(states', labels', name, now, loaded, crypto);
  }

  /** Some run leads there. */
  ghost predicate Reachable(s: State) {
    exists states, labels :: Run(states, labels) && states[|labels|] == s
  }

  lemma ReachableInv(s: State)
    requires Reachable(s)
    ensures Inv(s)
  {
    var states, labels :| Run(states, labels) && states[|labels|] == s;
    RunKeepsInv(states, labels, |labels|);
  }

  /** A reachable state between two rounds. */
  ghost predicate Ready(s: State, name: string) {
    Reachable(s) && s.worker.Idle? && name in s.live && s.live[name] in s.versions
  }

  lemma RoundReachable(s: State, name: string, id: nat, now: int, loaded: Option<CertificateAuthority>, crypto: Crypto)
    requires Ready(s, name) && id !in s.memory
    ensures Reachable(Round(s, name, id, now, loaded, crypto))
  {
    ReachableInv(s);
    var states, labels :| Run(states, labels) && states[|labels|] == s;
    var states', labels' := ExtendByRound(states, labels, name, id, now, loaded, crypto);
  }

  /** What one round does to a request. */
  ghost predicate OneMore(before: State, after: State, name: string, from: nat, now: int)
    requires name in before.live && before.live[name] in before.versions
    requires name in after.live && after.live[name] in after.versions
  {
    && after.strict == before.strict && after.memory.Keys == before.memory.Keys + {from}
    && Server(after, name).conditions
       == Server(before, name).conditions + OneRound(before.strict, Server(before, name), now)
    && (Misused(Server(after, name)) <==> Misused(Server(before, name)))
  }

  lemma ReadyRound(s: State, name: string, from: nat, now: int, loaded: Option<CertificateAuthority>, crypto: Crypto)
    requires Ready(s, name) && from !in s.memory
    ensures var t := Round(s, name, from, now, loaded, crypto); Ready(t, name) && OneMore(s, t, name, from, now)
  {
    ReachableInv(s);
    RoundAdds(s, name, from, now, loaded, crypto);
    RoundReachable(s, name, from, now, loaded, crypto);
    SettledIsThere(Round(s, name, from, now, loaded, crypto), name);
  }

  lemma SettledIsThere(s: State, name: string)
    requires Settled(s, name)
    ensures s.live[name] in s.versions
  {}

  lemma StaysUnused(s: State, t: State, from: nat)
    requires UnusedFrom(s, from) && t.memory.Keys == s.memory.Keys + {from}
    ensures UnusedFrom(t, from + 1)
  {
    forall id | id in t.memory ensures id < from + 1 {
      assert id in t.memory.Keys;
    }
  }

  /** What `n` rounds make of a request. */
  ghost predicate Rounded(s: State, t: State, name: string, n: nat)
    requires name in s.live && s.live[name] in s.versions && name in t.live && t.live[name] in t.versions
  {
    && t.strict == s.strict && (Misused(Server(t, name)) <==> Misused(Server(s, name)))
    && FailuresAppended(Server(s, name).conditions, Server(t, name).conditions, Added(s.strict, Server(s, name), n))
  }

  lemma RoundedMore(s: State, before: State, after: State, name: string, n: nat, from: nat, now: int)
    requires name in s.live && s.live[name] in s.versions
    requires name in before.live && before.live[name] in before.versions
    requires name in after.live && after.live[name] in after.versions
    requires Rounded(s, before, name, n) && OneMore(before, after, name, from, now)
    ensures Rounded(s, after, name, n + 1)
  {
    OneRoundMore(s.strict, Server(s, name), Server(before, name), n, now);
  }

  /** What `n` rounds from `first` on leave. */
  ghost predicate After(first: State, s: State, name: string, from: nat, n: nat)
    requires name in first.live && first.live[name] in first.versions
  {
    Ready(s, name) && UnusedFrom(s, from + n) && Rounded(first, s, name, n)
  }

  lemma OneMoreAfter(first: State, s: State, t: State, n: nat, name: string, from: nat, now: int)
    requires name in first.live && first.live[name] in first.versions && After(first, s, name, from, n)
    requires Ready(t, name) && OneMore(s, t, name, from + n, now)
    ensures After(first, t, name, from, n + 1)
  {
    StaysUnused(s, t, from + n);
    RoundedMore(first, s, t, name, n, from + n, now);
  }

  /**
    From every reachable state, rounds add failures only to a request the gate rejects: each round one on a lax
    server, and on a strict one the first round alone, unless a failure was there before.
  */
  lemma {:induction false} RoundsAdd(
    states: seq<State>, n: nat, name: string, from: nat, now: int, loaded: Option<CertificateAuthority>, crypto: Crypto)
    requires Rounds(states, name, from, now, loaded, crypto) && n < |states|
    requires Ready(states[0], name) && UnusedFrom(states[0], from)
    ensures After(states[0], states[n], name, from, n)
  {
    if n > 0 {
      RoundsAdd(states, n - 1, name, from, now, loaded, crypto);
      ReadyRound(states[n - 1], name, from + n - 1, now, loaded, crypto);
      OneMoreAfter(states[0], states[n - 1], states[n], n - 1, name, from, now);
    }
  }

  ghost predicate AtMostOneFailed(conditions: seq<CsrCondition>) {
    forall i, j | 0 <= i < j < |conditions| :: !(conditions[i].ctype == Failed && conditions[j].ctype == Failed)
  }

  /** In no state of the run does the server show two failures on one request. */
  ghost predicate FailsAtMostOnce(states: seq<State>) {
    forall i, name | 0 <= i < |states| && name in states[i].live && states[i].live[name] in states[i].versions ::
      AtMostOneFailed(Server(states[i], name).conditions)
  }

  lemma StrictStep(s: State, l: Label)
    requires Enabled(s, l)
    ensures Next(s, l).strict == s.strict
  {
    if l.Decide? {
      DecidedStoresNothing(s, l.now, l.loaded, l.crypto);
    }
  }

  lemma {:induction false} StrictStays(states: seq<State>, labels: seq<Label>, i: nat)
    requires Run(states, labels) && i < |states|
    ensures states[i].strict == states[0].strict
  {
    if i > 0 {
      StrictStays(states, labels, i - 1);
      StrictStep(states[i - 1], labels[i - 1]);
    }
  }

  lemma StrictFailsOnce(states: seq<State>, labels: seq<Label>)
    requires Run(states, labels) && states[0].strict
    ensures FailsAtMostOnce(states)
  {
    forall i, name | 0 <= i < |states| && name in states[i].live && states[i].live[name] in states[i].versions
      ensures AtMostOneFailed(Server(states[i], name).conditions)
    {
      RunKeepsInv(states, labels, i);
      StrictStays(states, labels, i);
    }
  }

  const EXAMPLE := "csr"
  const EXAMPLE_LABELS := map[CLUSTER_NAME_LABEL := "cluster"]
  const EXAMPLE_SPEC := CsrSpec(None, API_SERVER_CLIENT_SIGNER, ["server auth"], None)
  const APPROVAL := CsrCondition(Approved, "", "", 0)

  /** An approved request for a server certificate, and nothing else. */
  lemma ExampleRun() returns (states: seq<State>, labels: seq<Label>)
    ensures Run(states, labels) && !states[0].strict
    ensures var s := states[|labels|];
      && Settled(s, EXAMPLE) && s.memory == map[] && !s.strict
      && Server(s, EXAMPLE).conditions == [APPROVAL] && Misused(Server(s, EXAMPLE))
  {
    states, labels := [Initial(false)], [];
    states, labels := ExtendRun(states, labels, Create(EXAMPLE, EXAMPLE_LABELS, EXAMPLE_SPEC));
    states, labels := ExtendRun(states, labels, Edit(EXAMPLE, EXAMPLE_LABELS, [APPROVAL]));
    RunKeepsInv(states, labels, |labels|);
    ExampleRejected(Csr(0, EXAMPLE_LABELS, EXAMPLE_SPEC, [APPROVAL], None));
  }

  lemma ExampleRejected(csr: Csr)
    requires csr == Csr(0, EXAMPLE_LABELS, EXAMPLE_SPEC, [APPROVAL], None)
    ensures Misused(csr)
  {
    assert csr.conditions[0].ctype == Approved;
    assert !ClientUsage(EXAMPLE_SPEC.usages[0]);
  }

  /** On a lax server one request collects any number of failures, without a single refused write. */
  lemma ManyFailures(n: nat) returns (states: seq<State>, labels: seq<Label>)
    ensures Run(states, labels) && !states[0].strict
    ensures var s := states[|labels|];
      && EXAMPLE in s.live && s.live[EXAMPLE] in s.versions
      && FailuresAppended([APPROVAL], Server(s, EXAMPLE).conditions, n)
  {
    states, labels := ExampleRun();
    var s := states[|labels|];
    var rounds := SomeRounds(s, n, EXAMPLE, 0, 0, None, Crypto(true, true));
    RoundsAdd(rounds, n, EXAMPLE, 0, 0, None, Crypto(true, true));
    states, labels :| Run(states, labels) && states[|labels|] == rounds[n];
    StrictStays(states, labels, |labels|);
  }

  /** At most one failure in every run: exactly what a strict server gives, and the controller does not. */
  lemma AtMostOneFailedIffStrict(strict: bool)
    ensures (forall states: seq<State>, labels: seq<Label> | Run(states, labels) && states[0].strict == strict :: FailsAtMostOnce(states)) <==> strict
  {
    if strict {
      forall states: seq<State>, labels: seq<Label> | Run(states, labels) && states[0].strict ensures FailsAtMostOnce(states) {
        StrictFailsOnce(states, labels);
      }
    } else {
      var states, labels := ManyFailures(2);
      var s := states[|labels|];
      assert Server(s, EXAMPLE).conditions[1].ctype == Failed && Server(s, EXAMPLE).conditions[2].ctype == Failed;
      assert !AtMostOneFailed(Server(s, EXAMPLE).conditions);
      assert !FailsAtMostOnce(states);
    }
  }
}
