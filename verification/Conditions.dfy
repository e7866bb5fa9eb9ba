/** Status conditions: the upsert, and the condition a cluster manager's status turns into. */
module Conditions {
  import opened Wrappers

  datatype Status = IsTrue | IsFalse | IsUnknown

  /** `transition` is None for a zero time. */
  datatype Condition = Condition(
    ctype: string, status: Status, reason: string, message: string, generation: int, transition: Option<int>)

  const APPLIED := "Applied"
  const REGISTRATION_DEGRADED := "HubRegistrationDegraded"
  const PLACEMENT_DEGRADED := "HubPlacementDegraded"
  const CLUSTER_MANAGER_APPLIED := "ClusterManagerApplied"

  /** The position of the first condition of a type, at or after `from`; the length when there is none. */
  function FirstFrom(conditions: seq<Condition>, t: string, from: nat): (i: nat)
    requires from <= |conditions|
    ensures from <= i <= |conditions|
    ensures i < |conditions| ==> conditions[i].ctype == t
    ensures forall j | from <= j < i :: conditions[j].ctype != t
    decreases |conditions| - from
  {
    if from == |conditions| || conditions[from].ctype == t then from else FirstFrom(conditions, t, from + 1)
  }

  function First(conditions: seq<Condition>, t: string): nat {
    FirstFrom(conditions, t, 0)
  }

  predicate Present(conditions: seq<Condition>, t: string) {
    First(conditions, t) < |conditions|
  }

  /** Only the first condition of a type counts. */
  predicate ConditionTrue(conditions: seq<Condition>, t: string) {
    Present(conditions, t) && conditions[First(conditions, t)].status == IsTrue
  }

  /** A type is present when some condition has it, and true when the first such condition says so, whatever later ones say. */
  lemma FirstCounts(conditions: seq<Condition>, t: string)
    ensures Present(conditions, t) <==> exists i | 0 <= i < |conditions| :: conditions[i].ctype == t
    ensures ConditionTrue(conditions, t) <==>
      exists i | 0 <= i < |conditions| ::
        && conditions[i].ctype == t && conditions[i].status == IsTrue
        && forall j | 0 <= j < i :: conditions[j].ctype != t
  {
    var i := First(conditions, t);
    if Present(conditions, t) {
      assert conditions[i].ctype == t;
    }
  }

  /** An existing condition takes over everything but its transition time, which moves only with the status. */
  function Revised(existing: Condition, c: Condition, now: int): Condition {
    c.(transition := if existing.status == c.status then existing.transition
                     else if c.transition.Some? then c.transition else Some(now))
  }

  function Added(c: Condition, now: int): Condition {
    if c.transition.None? then c.(transition := Some(now)) else c
  }

  function Upsert(conditions: seq<Condition>, c: Condition, now: int): seq<Condition> {
    var i := First(conditions, c.ctype);
    if i < |conditions| then conditions[i := Revised(conditions[i], c, now)] else conditions + [Added(c, now)]
  }

  predicate OnePerType(conditions: seq<Condition>) {
    forall i, j | 0 <= i < j < |conditions| :: conditions[i].ctype != conditions[j].ctype
  }

  /** Equal up to the transition time. */
  predicate SameReport(a: Condition, b: Condition) {
    a.(transition := None) == b.(transition := None)
  }

  /** The upsert touches one position only, keeps types unique, and what it leaves there reports the new condition. */
  lemma UpsertMeaning(conditions: seq<Condition>, c: Condition, now: int)
    ensures var r := Upsert(conditions, c, now);
      && |conditions| <= |r| <= |conditions| + 1
      && Present(r, c.ctype) && First(r, c.ctype) == First(conditions, c.ctype)
      && SameReport(r[First(r, c.ctype)], c)
      && (forall i | 0 <= i < |conditions| && i != First(conditions, c.ctype) :: r[i] == conditions[i])
      && (OnePerType(conditions) ==> OnePerType(r))
      && (ConditionTrue(r, c.ctype) <==> c.status == IsTrue)
      && (Present(conditions, c.ctype) && conditions[First(conditions, c.ctype)].status == c.status ==>
            r[First(r, c.ctype)].transition == conditions[First(conditions, c.ctype)].transition)
      && (!Present(conditions, c.ctype) || conditions[First(conditions, c.ctype)].status != c.status ==>
            r[First(r, c.ctype)].transition == (if c.transition.Some? then c.transition else Some(now)))
  {
    var r, i := Upsert(conditions, c, now), First(conditions, c.ctype);
    assert r[i].ctype == c.ctype;
    assert forall j | 0 <= j < i :: r[j] == conditions[j];
  }

  /** Other types keep their first position, so what is true of them stays true. */
  lemma UpsertKeepsOthers(conditions: seq<Condition>, c: Condition, now: int, t: string)
    requires t != c.ctype
    ensures ConditionTrue(Upsert(conditions, c, now), t) <==> ConditionTrue(conditions, t)
  {
    var r := Upsert(conditions, c, now);
    var i, j := First(conditions, t), First(r, t);
    assert i < |conditions| ==> r[i] == conditions[i];
  }

  /** The list changes exactly when the first condition of the type is missing or reports something else. */
  lemma UpsertChangesIff(conditions: seq<Condition>, c: Condition, now: int)
    ensures Upsert(conditions, c, now) == conditions
      <==> Present(conditions, c.ctype) && SameReport(conditions[First(conditions, c.ctype)], c)
  {
    var i := First(conditions, c.ctype);
    if i < |conditions| {
      assert Upsert(conditions, c, now)[i] == Revised(conditions[i], c, now);
    }
  }

  /** One upsert reaches the fixpoint, at whatever later time it is repeated. */
  lemma UpsertFixpoint(conditions: seq<Condition>, c: Condition, now: int, later: int)
    ensures Upsert(Upsert(conditions, c, now), c, later) == Upsert(conditions, c, now)
  {
    UpsertMeaning(conditions, c, now);
    UpsertChangesIff(Upsert(conditions, c, now), c, later);
  }

  /** What the cluster manager's conditions make of the workspace's. */
  function AppliedCondition(conditions: seq<Condition>): Option<Condition> {
    var applied := Condition(CLUSTER_MANAGER_APPLIED, IsTrue, "ClusterManagerApplied", "ClusterManager is applied", 0, None);
    if !ConditionTrue(conditions, APPLIED) then
      if Present(conditions, APPLIED) then
        Some(applied.(reason := "ClusterManagerApplyFailed", message := conditions[First(conditions, APPLIED)].message))
      else None
    else if ConditionTrue(conditions, REGISTRATION_DEGRADED) then
      Some(applied.(reason := "ClusterManagerApplyDegraded",
                    message := conditions[First(conditions, REGISTRATION_DEGRADED)].message))
    else if ConditionTrue(conditions, PLACEMENT_DEGRADED) then
      Some(applied.(reason := "ClusterManagerApplyDegraded",
                    message := conditions[First(conditions, PLACEMENT_DEGRADED)].message))
    else Some(applied)
  }

  /**
    The workspace is told True as soon as the operator reports any Applied condition, be it False:
    failure shows in the reason alone, and the code that expects a False status is never reached.
  */
  lemma AppliedConditionNeverFalse(conditions: seq<Condition>)
    ensures AppliedCondition(conditions).Some? <==> Present(conditions, "Applied")
    ensures AppliedCondition(conditions).Some? ==>
      var c := AppliedCondition(conditions).value;
      && c.ctype == "ClusterManagerApplied" && c.status == IsTrue && c.generation == 0 && c.transition == None
      && (!ConditionTrue(conditions, "Applied") ==>
            c.reason == "ClusterManagerApplyFailed" && c.message == conditions[First(conditions, "Applied")].message)
      && (ConditionTrue(conditions, "Applied") && ConditionTrue(conditions, "HubRegistrationDegraded") ==>
            && c.reason == "ClusterManagerApplyDegraded"
            && c.message == conditions[First(conditions, "HubRegistrationDegraded")].message)
      && (ConditionTrue(conditions, "Applied") && !ConditionTrue(conditions, "HubRegistrationDegraded")
          && ConditionTrue(conditions, "HubPlacementDegraded") ==>
            && c.reason == "ClusterManagerApplyDegraded"
            && c.message == conditions[First(conditions, "HubPlacementDegraded")].message)
      && (ConditionTrue(conditions, "Applied") && !ConditionTrue(conditions, "HubRegistrationDegraded")
          && !ConditionTrue(conditions, "HubPlacementDegraded") ==>
            c.reason == "ClusterManagerApplied" && c.message == "ClusterManager is applied")
  {}

  /** The gap is real: the operator reports that it failed to apply, and the workspace is told True. */
  lemma FailedReportToldTrue(message: string)
    ensures AppliedCondition([Condition("Applied", IsFalse, "ApplyFailed", message, 0, None)])
         == Some(Condition("ClusterManagerApplied", IsTrue, "ClusterManagerApplyFailed", message, 0, None))
  {}

  // ---------------------------------------------------------------- the algorithms

  method FindStatusCondition(conditions: array<Condition>, t: string) returns (i: nat)
    ensures i == First(conditions[..], t)
  {
    i := 0;
    while i < conditions.Length && conditions[i].ctype != t
      invariant i <= conditions.Length
      invariant forall j | 0 <= j < i :: conditions[j].ctype != t
    {
      i := i + 1;
    }
  }

  /** Revises the condition in place, or returns a longer list; the given list grows nowhere else. */
  method SetStatusCondition(conditions: array<Condition>, c: Condition, now: int) returns (r: array<Condition>)
    modifies conditions
    ensures r[..] == Upsert(old(conditions[..]), c, now)
    ensures r == conditions || (fresh(r) && conditions[..] == old(conditions[..]))
  {
    var i := FindStatusCondition(conditions, c.ctype);
    if i == conditions.Length {
      r := new Condition[conditions.Length + 1](_ => Added(c, now));
      for k := 0 to conditions.Length
        invariant forall j | 0 <= j < k :: r[j] == conditions[j]
        invariant r[conditions.Length] == Added(c, now)
        invariant conditions[..] == old(conditions[..])
      {
        r[k] := conditions[k];
      }
      return;
    }
    r := conditions;
    if r[i].status != c.status {
      r[i] := r[i].(status := c.status, transition := if c.transition.Some? then c.transition else Some(now));
    }
    r[i] := r[i].(reason := c.reason);
    r[i] := r[i].(message := c.message);
    r[i] := r[i].(generation := c.generation);
  }

  /** Fills in one condition along the branches; nil only when the operator has not spoken. */
  method IsClusterManagerApplied(conditions: array<Condition>) returns (r: Option<Condition>)
    ensures r == AppliedCondition(conditions[..])
  {
    var applied := Condition(CLUSTER_MANAGER_APPLIED, IsTrue, "ClusterManagerApplied", "ClusterManager is applied", 0, None);
    var i := FindStatusCondition(conditions, APPLIED);
    if !(i < conditions.Length && conditions[i].status == IsTrue) {
      if i == conditions.Length {
        return None;
      }
      applied := applied.(reason := "ClusterManagerApplyFailed");
      applied := applied.(message := conditions[i].message);
      return Some(applied);
    }
    i := FindStatusCondition(conditions, REGISTRATION_DEGRADED);
    if i < conditions.Length && conditions[i].status == IsTrue {
      applied := applied.(reason := "ClusterManagerApplyDegraded");
      applied := applied.(message := conditions[i].message);
      return Some(applied);
    }
    i := FindStatusCondition(conditions, PLACEMENT_DEGRADED);
    if i < conditions.Length && conditions[i].status == IsTrue {
      applied := applied.(reason := "ClusterManagerApplyDegraded");
      applied := applied.(message := conditions[i].message);
      return Some(applied);
    }
    return Some(applied);
  }
}
