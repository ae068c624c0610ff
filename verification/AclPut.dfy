/** The whole replacement: old entries out, the request's entries in, one audit event per change. */
module AclPut {

  import opened Options
  import opened AclActions
  import opened AclReplace
  import opened AclAudit

  /** The entries a request leaves behind: real ones first, staged ones after them. */
  ghost function Outcome(es: seq<Entry>, d: Directory): seq<Entry> {
    Rows(es, d, |es|, false) + Rows(es, d, |es|, true)
  }

  /** Each subject has one entry, and only subjects that an accepted entry names have one. */
  lemma OutcomeHasOnePerSubject(es: seq<Entry>, d: Directory)
    ensures OnePerSubject(Outcome(es, d))
    ensures forall s :: Held(Outcome(es, d), s).Some? <==> exists i :: 0 <= i < |es| && Target(es[i], d) == Some(s)
  {
    RowsSubjects(es, d, |es|, false);
    RowsSubjects(es, d, |es|, true);
    assert OnePerSubject(Outcome(es, d)) by {
      hide Rows, Times;
    }
    forall s ensures Held(Outcome(es, d), s).Some? <==> exists i :: 0 <= i < |es| && Target(es[i], d) == Some(s) {
      hide Rows, Times, OnePerSubject, Lookup, Target;
      OutcomeHolds(es, d, s);
      TimesHolds(es, d, |es|, s);
    }
  }

  lemma OutcomeHolds(es: seq<Entry>, d: Directory, s: Subject)
    ensures Held(Outcome(es, d), s).Some? <==> Times(es, d, |es|, s) > 0
  {
    RowsSubjects(es, d, |es|, false);
    RowsSubjects(es, d, |es|, true);
    hide Rows, Times, OnePerSubject;
    var rows := Outcome(es, d);
    if Held(rows, s).Some? {
      var k := LookupSource(rows, s, 0);
    } else {
      AbsentFrom(rows, s, 0);
      forall i | 0 <= i < |Rows(es, d, |es|, false)| ensures Rows(es, d, |es|, false)[i].subject != s {
        assert rows[i].subject != s;
      }
      forall i | 0 <= i < |Rows(es, d, |es|, true)| ensures Rows(es, d, |es|, true)[i].subject != s {
        assert rows[|Rows(es, d, |es|, false)| + i].subject != s;
      }
    }
  }

  lemma {:induction false} AbsentFrom(entries: seq<Entry>, s: Subject, n: nat)
    requires n <= |entries| && Lookup(entries, s, n) == None
    ensures forall i :: n <= i < |entries| ==> entries[i].subject != s
    decreases |entries| - n
  {
    if n < |entries| {
      AbsentFrom(entries, s, n + 1);
    }
  }

  lemma OutcomeWanted(es: seq<Entry>, d: Directory, s: Subject, actions: seq<Action>)
    requires Held(Outcome(es, d), s) == Some(actions)
    ensures actions == Wanted(es, d, |es|, s)
  {
    hide Wanted;
    var rows := Outcome(es, d);
    var k := LookupSource(rows, s, 0);
  }

  /** A subject's entry grants the union of what the accepted entries naming it grant, and nothing else. */
  lemma OutcomeGrantsTheUnion(es: seq<Entry>, d: Directory, s: Subject, actions: seq<Action>, x: Action)
    requires Held(Outcome(es, d), s) == Some(actions)
    ensures x in actions <==> exists i :: 0 <= i < |es| && Target(es[i], d) == Some(s) && x in es[i].actions
  {
    hide Held, Outcome, Wanted;
    OutcomeWanted(es, d, s, actions);
    WantedHolds(es, d, |es|, s, x);
  }

  // ---------------------------------------------------------------------------
  // Who gets what
  // ---------------------------------------------------------------------------

  ghost predicate Grants(entries: seq<Entry>, s: Subject, x: Action) {
    Held(entries, s).Some? && x in Held(entries, s).value
  }

  lemma NamedSubjectIsGranted(es: seq<Entry>, d: Directory, i: nat, s: Subject, x: Action)
    requires i < |es| && Target(es[i], d) == Some(s) && x in es[i].actions
    ensures Grants(Outcome(es, d), s, x)
  {
    hide Outcome, Target, Held;
    OutcomeHasOnePerSubject(es, d);
    OutcomeGrantsTheUnion(es, d, s, Held(Outcome(es, d), s).value, x);
  }

  /** An entry for a user, a group or a role grants its actions to that very subject. */
  lemma RealEntryGrants(es: seq<Entry>, d: Directory, i: nat, x: Action)
    requires i < |es| && es[i].subject.id != "" && x in es[i].actions
    requires es[i].subject.kind == User || es[i].subject.kind == Group || es[i].subject.kind == OrgRole
    ensures Grants(Outcome(es, d), es[i].subject, x)
  {
    hide Outcome, Held, Grants;
    NamedSubjectIsGranted(es, d, i, es[i].subject, x);
  }

  /** A pending entry for a member's address grants to the member, and nothing is staged for the address. */
  lemma MembersEntryGrants(es: seq<Entry>, d: Directory, i: nat, email: string, userId: string, x: Action)
    requires i < |es| && es[i].subject.kind == PendingUser && es[i].subject.id != "" && x in es[i].actions
    requires d.normalize(es[i].subject.id) == Some(email) && d.member(email) == Some(userId)
    ensures Grants(Outcome(es, d), Subject(User, userId), x)
    ensures Held(Outcome(es, d), Subject(PendingUser, email)) == None
  {
    hide Outcome, Held, Grants;
    NamedSubjectIsGranted(es, d, i, Subject(User, userId), x);
    MembersAreNotStaged(es, d, email);
  }

  /** A pending entry for anybody else's address stages its actions under the normalised address. */
  lemma StrangersEntryStages(es: seq<Entry>, d: Directory, i: nat, email: string, x: Action)
    requires i < |es| && es[i].subject.kind == PendingUser && es[i].subject.id != "" && x in es[i].actions
    requires d.normalize(es[i].subject.id) == Some(email) && d.member(email) == None
    ensures Grants(Outcome(es, d), Subject(PendingUser, email), x)
  {
    hide Outcome, Held, Grants;
    NamedSubjectIsGranted(es, d, i, Subject(PendingUser, email), x);
  }

  /** Nothing is staged for an address that belongs to a member. */
  lemma MembersAreNotStaged(es: seq<Entry>, d: Directory, email: string)
    requires d.member(email).Some?
    ensures Held(Outcome(es, d), Subject(PendingUser, email)) == None
  {
    OutcomeHasOnePerSubject(es, d);
    hide Outcome, Held;
    var staged := Subject(PendingUser, email);
    assert Held(Outcome(es, d), staged).Some? <==> exists i :: 0 <= i < |es| && Target(es[i], d) == Some(staged);
  }

  /** Both entries name the same group or role. */
  predicate Clash(a: Entry, b: Entry) {
    && a.subject == b.subject && (a.subject.kind == Group || a.subject.kind == OrgRole)
    && a.subject.id != "" && a.actions != [] && b.actions != []
  }

  lemma {:induction false} NamedTwice(es: seq<Entry>, d: Directory, n: nat, s: Subject)
    requires n <= |es|
    ensures Times(es, d, n, s) > 1 <==>
            exists i, j :: 0 <= i < j < n && Target(es[i], d) == Some(s) && Target(es[j], d) == Some(s)
  {
    if n > 0 {
      hide Target;
      NamedTwice(es, d, n - 1, s);
      TimesHolds(es, d, n - 1, s);
    }
  }

  lemma ClashIsNamedTwice(es: seq<Entry>, d: Directory, s: Subject)
    requires s.kind == Group || s.kind == OrgRole
    ensures Times(es, d, |es|, s) > 1 <==>
            exists i, j :: 0 <= i < j < |es| && es[i].subject == s && Clash(es[i], es[j])
  {
    NamedTwice(es, d, |es|, s);
    forall i, j | 0 <= i < j < |es|
      ensures es[i].subject == s && Clash(es[i], es[j]) <==>
              Target(es[i], d) == Some(s) && Target(es[j], d) == Some(s)
    {
    }
    hide Target, Clash, Times;
  }

  /** A request is refused if and only if two of its entries with actions name the same group or role. */
  lemma RefusedIffClash(es: seq<Entry>, d: Directory)
    ensures !NoClash(es, d, |es|) <==> exists i, j :: 0 <= i < j < |es| && Clash(es[i], es[j])
  {
    hide Times;
    if !NoClash(es, d, |es|) {
      var s: Subject :| (s.kind == Group || s.kind == OrgRole) && Times(es, d, |es|, s) > 1;
      ClashIsNamedTwice(es, d, s);
    }
    if i, j :| 0 <= i < j < |es| && Clash(es[i], es[j]) {
      ClashIsNamedTwice(es, d, es[i].subject);
    }
  }

  /**
   Conversely, every action anybody holds comes from an entry of these kinds: entries without id
   or actions, of unknown kind or with an invalid address grant nothing.
   */
  lemma EveryGrantIsExplained(es: seq<Entry>, d: Directory, s: Subject, x: Action)
    requires Grants(Outcome(es, d), s, x)
    ensures exists i :: 0 <= i < |es| && Explains(es[i], d, s, x)
  {
    hide Outcome, Held;
    OutcomeGrantsTheUnion(es, d, s, Held(Outcome(es, d), s).value, x);
    var i :| 0 <= i < |es| && Target(es[i], d) == Some(s) && x in es[i].actions;
    assert Explains(es[i], d, s, x);
  }

  class AclStore {
    var entries: seq<Entry>

    constructor ()
      ensures entries == []
    {
      entries := [];
    }

    /** One PUT in a transaction: a refused row rolls everything back. */
    method Put(es: seq<Entry>, d: Directory) returns (ok: bool, auditEvents: seq<Event>)
      requires OnePerSubject(entries)
      modifies this
      ensures OnePerSubject(entries)
      ensures ok <==> NoClash(es, d, |es|)
      ensures ok <==> forall i, j :: 0 <= i < j < |es| ==> !Clash(es[i], es[j])
      ensures entries == if ok then Outcome(es, d) else old(entries)
      ensures auditEvents == if ok then Diff(old(entries), entries) else []
    {
      RefusedIffClash(es, d);
      hide Clash;
      auditEvents := [];
      var oldEntries := entries;
      var work := new Replacement();
      NothingYet(es, d);
      for n := 0 to |es|
        invariant entries == oldEntries && fresh(work) && work.Holds(es, d, n)
      {
        ok := work.Accept(es, d, n);
        if !ok {
          StillClashes(es, d, n + 1);
          return;
        }
      }
      OutcomeHasOnePerSubject(es, d);
      entries := work.inserted + work.pendingInserts;
      auditEvents := AuditDiff(oldEntries, entries);
      ok := true;
    }
  }

  lemma NothingYet(es: seq<Entry>, d: Directory)
    ensures Rows(es, d, 0, false) == [] && Rows(es, d, 0, true) == [] && NoClash(es, d, 0)
  {
  }

  lemma StillClashes(es: seq<Entry>, d: Directory, n: nat)
    requires n <= |es| && !NoClash(es, d, n)
    ensures !NoClash(es, d, |es|)
  {
    var s: Subject :| (s.kind == Group || s.kind == OrgRole) && Times(es, d, n, s) > 1;
    ClashLasts(es, d, n, |es|, s);
  }
}
