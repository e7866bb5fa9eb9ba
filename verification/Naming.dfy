/** Names that cross controllers: the cluster manager's, and the workspace annotation on it. */
module Naming {
  const SEPARATOR := ':'
  const MANAGER_PREFIX := "kcp-"
  const MANAGER_SUFFIX := "-cluster-manager"

  /** The parts of a string between the occurrences of a separator, as Go's strings.Split gives them. */
  function Split(s: string, sep: char): (parts: seq<string>)
    ensures |parts| > 0
  {
    if |s| == 0 then [[]]
    else
      var rest := Split(s[1..], sep);
      if s[0] == sep then [[]] + rest else [[s[0]] + rest[0]] + rest[1..]
  }

  function WorkspaceId(org: string, ws: string): string {
    org + [SEPARATOR] + ws
  }

  function ManagerName(org: string, ws: string): string {
    MANAGER_PREFIX + org + "-" + ws + MANAGER_SUFFIX
  }

  predicate HasPrefix(s: string, prefix: string) {
    prefix <= s
  }

  lemma {:induction false} SplitWhole(s: string, sep: char)
    requires sep !in s
    ensures Split(s, sep) == [s]
  {
    if |s| > 0 {
      SplitWhole(s[1..], sep);
      assert [s[0]] + s[1..] == s;
    }
  }

  lemma {:induction false} SplitFirst(a: string, rest: string, sep: char)
    requires sep !in a
    ensures Split(a + [sep] + rest, sep) == [a] + Split(rest, sep)
  {
    var s := a + [sep] + rest;
    if |a| == 0 {
      assert s[1..] == rest;
    } else {
      assert s[1..] == a[1..] + [sep] + rest;
      SplitFirst(a[1..], rest, sep);
      assert [a[0]] + a[1..] == a;
    }
  }

  /** No part contains the separator, and the parts put together again give the string. */
  function Joined(parts: seq<string>, sep: char): string
    requires |parts| > 0
  {
    if |parts| == 1 then parts[0] else parts[0] + [sep] + Joined(parts[1..], sep)
  }

  lemma {:induction false} SplitMeaning(s: string, sep: char)
    ensures Joined(Split(s, sep), sep) == s
    ensures forall i | 0 <= i < |Split(s, sep)| :: sep !in Split(s, sep)[i]
  {
    if |s| > 0 {
      SplitMeaning(s[1..], sep);
      var parts, rest := Split(s, sep), Split(s[1..], sep);
      if s[0] == sep {
        assert parts[1..] == rest;
      } else if |rest| > 1 {
        assert parts[1..] == rest[1..];
      }
      assert s == [s[0]] + s[1..];
    }
  }

  /** Splitting the rendered annotation gives back the two names exactly when neither holds a colon. */
  lemma AnnotationRoundTrip(org: string, ws: string)
    ensures WorkspaceId(org, ws) == org + ":" + ws
    ensures Split(WorkspaceId(org, ws), ':') == [org, ws] <==> ':' !in org && ':' !in ws
  {
    if SEPARATOR !in org && SEPARATOR !in ws {
      SplitFirst(org, ws, SEPARATOR);
      SplitWhole(ws, SEPARATOR);
    }
    SplitMeaning(WorkspaceId(org, ws), SEPARATOR);
    if Split(WorkspaceId(org, ws), SEPARATOR) == [org, ws] {
      assert Split(WorkspaceId(org, ws), SEPARATOR)[0] == org && Split(WorkspaceId(org, ws), SEPARATOR)[1] == ws;
    }
  }

  /** Two parts determine the annotation they were split from. */
  lemma SplitInTwo(id: string, org: string, ws: string)
    requires Split(id, SEPARATOR) == [org, ws]
    ensures id == WorkspaceId(org, ws) && SEPARATOR !in org && SEPARATOR !in ws
  {
    SplitMeaning(id, SEPARATOR);
    assert [org, ws][1..] == [ws];
    assert Split(id, SEPARATOR)[0] == org && Split(id, SEPARATOR)[1] == ws;
  }

  /** The first organization is the second one, a dash and more; that more is what the second workspace begins with. */
  predicate Overlaps(org1: string, ws1: string, org2: string, ws2: string) {
    && org2 + "-" <= org1
    && ws2 == org1[|org2| + 1..] + "-" + ws1
  }

  lemma NamesAsJoined(org1: string, ws1: string, org2: string, ws2: string)
    ensures ManagerName(org1, ws1) == ManagerName(org2, ws2) <==> org1 + "-" + ws1 == org2 + "-" + ws2
  {
    var m1, m2 := ManagerName(org1, ws1), ManagerName(org2, ws2);
    var p, q := |MANAGER_PREFIX|, |MANAGER_SUFFIX|;
    assert m1[p..|m1| - q] == org1 + "-" + ws1;
    assert m2[p..|m2| - q] == org2 + "-" + ws2;
    assert m1 == MANAGER_PREFIX + (org1 + "-" + ws1) + MANAGER_SUFFIX;
    assert m2 == MANAGER_PREFIX + (org2 + "-" + ws2) + MANAGER_SUFFIX;
  }

  lemma OverlapJoins(org1: string, ws1: string, org2: string, ws2: string)
    requires Overlaps(org1, ws1, org2, ws2)
    ensures org1 + "-" + ws1 == org2 + "-" + ws2
  {
    var more := org1[|org2| + 1..];
    assert org1 == org2 + "-" + more;
    assert (org2 + "-" + more) + "-" + ws1 == org2 + "-" + (more + "-" + ws1);
  }

  lemma LongerOverlaps(org1: string, ws1: string, org2: string, ws2: string)
    requires org1 + "-" + ws1 == org2 + "-" + ws2 && |org1| > |org2|
    ensures Overlaps(org1, ws1, org2, ws2)
  {
    var joined := org1 + "-" + ws1;
    assert joined[..|org2| + 1] == org2 + "-";
    assert joined[..|org2| + 1] == org1[..|org2| + 1];
    assert joined[|org2| + 1..] == ws2;
    assert joined[|org2| + 1..] == org1[|org2| + 1..] + "-" + ws1;
  }

  lemma SameLengthSamePair(org1: string, ws1: string, org2: string, ws2: string)
    requires org1 + "-" + ws1 == org2 + "-" + ws2 && |org1| == |org2|
    ensures org1 == org2 && ws1 == ws2
  {
    var joined := org1 + "-" + ws1;
    assert joined[..|org1|] == org1 && joined[..|org1|] == org2;
    assert joined[|org1| + 1..] == ws1 && joined[|org1| + 1..] == ws2;
  }

  /**
    Two different workspaces share a manager name exactly when one organization's name runs over into the
    other's workspace name at a dash, so never under dash-free organizations.
  */
  lemma ManagerNameClash(org1: string, ws1: string, org2: string, ws2: string)
    requires org1 != org2 || ws1 != ws2
    ensures ManagerName(org1, ws1) == ManagerName(org2, ws2)
      <==> Overlaps(org1, ws1, org2, ws2) || Overlaps(org2, ws2, org1, ws1)
    ensures '-' !in org1 && '-' !in org2 ==> ManagerName(org1, ws1) != ManagerName(org2, ws2)
  {
    NamesAsJoined(org1, ws1, org2, ws2);
    if ManagerName(org1, ws1) == ManagerName(org2, ws2) {
      if |org1| > |org2| {
        LongerOverlaps(org1, ws1, org2, ws2);
        assert (org2 + "-")[|org2|] == '-' == org1[|org2|];
      } else if |org1| < |org2| {
        LongerOverlaps(org2, ws2, org1, ws1);
        assert (org1 + "-")[|org1|] == '-' == org2[|org1|];
      } else {
        SameLengthSamePair(org1, ws1, org2, ws2);
      }
    } else {
      if Overlaps(org1, ws1, org2, ws2) {
        OverlapJoins(org1, ws1, org2, ws2);
      }
      if Overlaps(org2, ws2, org1, ws1) {
        OverlapJoins(org2, ws2, org1, ws1);
      }
    }
  }

  /** The clash is real: workspace c of organization a-b, and workspace b-c of organization a. */
  lemma ManagerNameClashWitness()
    ensures ManagerName("a-b", "c") == ManagerName("a", "b-c")
  {
    assert Overlaps("a-b", "c", "a", "b-c");
    ManagerNameClash("a-b", "c", "a", "b-c");
  }

  /** Every generated name passes the cluster manager controller's event filter, which asks for a name in "kcp-". */
  lemma ManagerNamePrefixed(org: string, ws: string)
    ensures ManagerName(org, ws) == "kcp-" + org + "-" + ws + "-cluster-manager"
    ensures HasPrefix(ManagerName(org, ws), MANAGER_PREFIX)
    ensures forall name :: HasPrefix(name, MANAGER_PREFIX) <==> |name| >= 4 && name[..4] == "kcp-"
  {
    assert ManagerName(org, ws)[..|MANAGER_PREFIX|] == MANAGER_PREFIX;
  }
}
