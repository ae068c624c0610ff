/** Access-control entries and their action lists. */
module AclActions {

  type Action = string

  /** A subject type of a request; anything but the four known names is Other. */
  datatype Kind = User | Group | OrgRole | PendingUser | Other(name: string)

  datatype Subject = Subject(kind: Kind, id: string)

  datatype Entry = Entry(subject: Subject, actions: seq<Action>)

  ghost predicate OnePerSubject(entries: seq<Entry>) {
    forall i, j :: 0 <= i < j < |entries| ==> entries[i].subject != entries[j].subject
  }

  // ---------------------------------------------------------------------------
  // Merging action lists
  // ---------------------------------------------------------------------------

  /** The first n actions, each kept where it is first seen. */
  function FirstSeen(s: seq<Action>, n: nat): (d: seq<Action>)
    requires n <= |s|
  {
    if n == 0 then []
    else
      var d := FirstSeen(s, n - 1);
      if s[n - 1] in d then d else d + [s[n - 1]]
  }

  function Dedup(s: seq<Action>): seq<Action> {
    FirstSeen(s, |s|)
  }

  /** Merging keeps every action once ... */
  lemma {:induction false} FirstSeenKeepsEachOnce(s: seq<Action>, n: nat)
    requires n <= |s|
    ensures forall x :: x in FirstSeen(s, n) <==> exists i :: 0 <= i < n && s[i] == x
    ensures forall i, j :: 0 <= i < j < |FirstSeen(s, n)| ==> FirstSeen(s, n)[i] != FirstSeen(s, n)[j]
  {
    if n > 0 {
      FirstSeenKeepsEachOnce(s, n - 1);
    }
  }

  /** ... in first-seen order: later actions only add to the end. */
  lemma {:induction false} FirstSeenGrows(s: seq<Action>, k: nat, n: nat)
    requires k <= n <= |s|
    ensures FirstSeen(s, k) <= FirstSeen(s, n)
  {
    if k < n {
      FirstSeenGrows(s, k, n - 1);
    }
  }

  lemma {:induction false} FirstSeenOfPrefix(s: seq<Action>, t: seq<Action>, n: nat)
    requires n <= |s| && n <= |t| && forall i :: 0 <= i < n ==> s[i] == t[i]
    ensures FirstSeen(s, n) == FirstSeen(t, n)
  {
    if n > 0 {
      FirstSeenOfPrefix(s, t, n - 1);
    }
  }

  lemma {:induction false} FirstSeenOfDistinct(s: seq<Action>, n: nat)
    requires n <= |s| && forall i, j :: 0 <= i < j < n ==> s[i] != s[j]
    ensures FirstSeen(s, n) == s[..n]
  {
    if n > 0 {
      FirstSeenOfDistinct(s, n - 1);
      assert s[..n] == s[..n - 1] + [s[n - 1]];
    }
  }

  lemma {:induction false} MergeStep(a: seq<Action>, b: seq<Action>, n: nat)
    requires n <= |b|
    ensures FirstSeen(Dedup(a) + b, |Dedup(a)| + n) == FirstSeen(a + b, |a| + n)
  {
    if n == 0 {
      FirstSeenKeepsEachOnce(a, |a|);
      FirstSeenOfDistinct(Dedup(a), |Dedup(a)|);
      FirstSeenOfPrefix(Dedup(a) + b, Dedup(a), |Dedup(a)|);
      FirstSeenOfPrefix(a + b, a, |a|);
    } else {
      MergeStep(a, b, n - 1);
    }
  }

  /** Merging list by list is merging all at once. */
  lemma MergeInSteps(a: seq<Action>, b: seq<Action>)
    ensures Dedup(Dedup(a) + b) == Dedup(a + b)
  {
    MergeStep(a, b, |b|);
  }

  /** The merged list, its members in first-seen order. */
  method UnionActions(a: seq<Action>, b: seq<Action>) returns (out: seq<Action>)
    ensures out == Dedup(a + b)
  {
    var lists := [a, b];
    var seen: set<Action> := {};
    out := [];
    ghost var done := 0;
    for i := 0 to 2
      invariant done == if i == 0 then 0 else if i == 1 then |a| else |a| + |b|
      invariant out == FirstSeen(a + b, done)
      invariant forall x :: x in seen <==> x in out
    {
      for j := 0 to |lists[i]|
        invariant done == if i == 0 then j else |a| + j
        invariant out == FirstSeen(a + b, done)
        invariant forall x :: x in seen <==> x in out
      {
        var action := lists[i][j];
        assert (a + b)[done] == action;
        if action !in seen {
          seen := seen + {action};
          out := out + [action];
        }
        done := done + 1;
      }
    }
  }

  /** Two lists are equal when they hold the same actions in the same order. */
  method SlicesEqual(a: seq<Action>, b: seq<Action>) returns (equal: bool)
    ensures equal <==> a == b
  {
    if |a| != |b| {
      return false;
    }
    for i := 0 to |a|
      invariant forall k :: 0 <= k < i ==> a[k] == b[k]
    {
      if a[i] != b[i] {
        return false;
      }
    }
    return true;
  }
}
