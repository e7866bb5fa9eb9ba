/**
  What a shared manager name means for whole runs: the manager belongs to the workspace whose sync
  created it, and of the workspaces that share the name only that one ever gets its controllers.
*/
module Clashes {
  import opened Naming
  import opened ObjectStore
  import opened Manifests
  import opened ClusterManagers
  import opened Pipeline
  import opened Causality
  import opened Agreement

  /** Nobody else deletes this one manager. */
  ghost predicate ManagerLeft(ss: seq<State>, ls: seq<Label>, key: Key) {
    Run(ss, ls) && forall k: nat | k < |ls| && ls[k].Environment? && ManagerThere(ss[k].store, key) :: ManagerThere(ss[k + 1].store, key)
  }

  ghost predicate ManagerThere(store: Store, key: Key) {
    key in store && store[key].ManagerBody?
  }

  lemma ManagerStep(s: State, view: State, l: Label, key: Key)
    requires Enabled(s, view, l) && !l.Environment? && ManagerThere(s.store, key)
    ensures ManagerThere(Next(s, view, l).store, key)
  {
    if l.HubApply? {
      var w := s.controllers[l.org].work;
      ApplyOneKeeps(s.store, w.ms[w.next], l.fate);
      assert Keeps(s.store[key], Next(s, view, l).store[key]);
    }
  }

  lemma {:induction false} ManagerStaysInRun(ss: seq<State>, ls: seq<Label>, key: Key, i: nat, j: nat)
    requires ManagerLeft(ss, ls, key) && i <= j < |ss| && ManagerThere(ss[i].store, key)
    ensures ManagerThere(ss[j].store, key)
  {
    if i < j {
      ManagerStaysInRun(ss, ls, key, i, j - 1);
      assert StepAt(ss, ls, j - 1);
      if !ls[j - 1].Environment? {
        ManagerStep(ss[j - 1], ss[Seen(ls[j - 1])], ls[j - 1], key);
      }
    }
  }

  lemma CreatedIsThere(ss: seq<State>, ls: seq<Label>, org: string, ws: string, c: nat)
    requires Run(ss, ls) && Creates(ss, ls, org, ws, c)
    ensures ManagerThere(ss[c + 1].store, ManagerKey(ManagerName(org, ws)))
  {
    assert StepAt(ss, ls, c);
  }

  /** A manager that nobody else deletes is created once, for one workspace. */
  lemma CreatedOnce(ss: seq<State>, ls: seq<Label>, p: Pair, q: Pair, c: nat, d: nat)
    requires ManagerLeft(ss, ls, ManagerKey(ManagerName(p.org, p.ws)))
    requires Creates(ss, ls, p.org, p.ws, c) && Creates(ss, ls, q.org, q.ws, d)
    requires ManagerName(p.org, p.ws) == ManagerName(q.org, q.ws)
    ensures c == d && p == q
  {
    var key := ManagerKey(ManagerName(p.org, p.ws));
    if c < d {
      CreatedIsThere(ss, ls, p.org, p.ws, c);
      ManagerStaysInRun(ss, ls, key, c + 1, d);
    } else if d < c {
      CreatedIsThere(ss, ls, q.org, q.ws, d);
      ManagerStaysInRun(ss, ls, key, d + 1, c);
    }
  }

  /** Of the workspaces that share a manager name at most one is ever informed. */
  lemma OneInformedPerName(ss: seq<State>, ls: seq<Label>, p: Pair, q: Pair, u: nat, v: nat)
    requires ManagerLeft(ss, ls, ManagerKey(ManagerName(p.org, p.ws)))
    requires AnnotatedHereOnly(ss, ls, p) && AnnotatedHereOnly(ss, ls, q)
    requires Informs(ss, ls, p, u) && Informs(ss, ls, q, v) && ManagerName(p.org, p.ws) == ManagerName(q.org, q.ws)
    ensures p == q
  {
    var c := InformedIsCreator(ss, ls, u, p);
    var d := InformedIsCreator(ss, ls, v, q);
    CreatedOnce(ss, ls, p, q, c, d);
  }

  /** Once a sync has created the manager, no other workspace of that name ever gets its controllers. */
  lemma OthersNeverStart(ss: seq<State>, ls: seq<Label>, p: Pair, q: Pair, c: nat, k: nat)
    requires ManagerLeft(ss, ls, ManagerKey(ManagerName(p.org, p.ws))) && Creates(ss, ls, p.org, p.ws, c)
    requires AnnotatedHereOnly(ss, ls, q) && MarkLeft(ss, ls, q) && k < |ss|
    requires p != q && ManagerName(p.org, p.ws) == ManagerName(q.org, q.ws)
    ensures q.org in ss[k].controllers ==> q.ws !in ss[k].controllers[q.org].launched
  {
    if q.org in ss[k].controllers && q.ws in ss[k].controllers[q.org].launched {
      assert q == Pair(q.org, q.ws);
      var t := LaunchExplained(ss, ls, q.org, q.ws, k);
      var d := InformedIsCreator(ss, ls, t.informs, q);
      CreatedOnce(ss, ls, p, q, c, d);
    }
  }
}
