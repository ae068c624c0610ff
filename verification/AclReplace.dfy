/**
 Replacing the access-control entries of a resource by a request: which subject each entry
 names, how entries naming the same subject merge, and which duplicates abort the request.
 */
module AclReplace {

  import opened Options
  import opened AclActions

  /** Pending addresses normalised, and the org members they belong to. */
  datatype Directory = Directory(normalize: string -> Option<string>, member: string -> Option<string>)

  /** The subject an accepted entry names; None for an entry that is skipped. */
  function Target(e: Entry, d: Directory): Option<Subject> {
    if e.subject.id == "" || e.actions == [] || e.subject.kind.Other? then None
    else if e.subject.kind != PendingUser then Some(e.subject)
    else match d.normalize(e.subject.id)
      case None => None
      case Some(email) =>
        match d.member(email)
        case Some(userId) => Some(Subject(User, userId))
        case None => Some(Subject(PendingUser, email))
  }

  // ---------------------------------------------------------------------------
  // What the first n entries of a request ask for
  // ---------------------------------------------------------------------------

  /** Everything granted to a subject, entry after entry. */
  ghost function Asked(es: seq<Entry>, d: Directory, n: nat, s: Subject): seq<Action>
    requires n <= |es|
  {
    if n == 0 then []
    else Asked(es, d, n - 1, s) + if Target(es[n - 1], d) == Some(s) then es[n - 1].actions else []
  }

  ghost function Times(es: seq<Entry>, d: Directory, n: nat, s: Subject): nat
    requires n <= |es|
  {
    if n == 0 then 0 else Times(es, d, n - 1, s) + if Target(es[n - 1], d) == Some(s) then 1 else 0
  }

  /** A single real entry is stored as given; everything else is merged. */
  ghost function Wanted(es: seq<Entry>, d: Directory, n: nat, s: Subject): seq<Action>
    requires n <= |es|
  {
    if Times(es, d, n, s) == 1 && s.kind != PendingUser then Asked(es, d, n, s) else Dedup(Asked(es, d, n, s))
  }

  /** The staged or the real subjects, each where it is first named. */
  ghost function Named(es: seq<Entry>, d: Directory, n: nat, staged: bool): seq<Subject>
    requires n <= |es|
  {
    if n == 0 then []
    else
      var shorter := Named(es, d, n - 1, staged);
      match Target(es[n - 1], d)
      case None => shorter
      case Some(s) => if (s.kind == PendingUser) == staged && s !in shorter then shorter + [s] else shorter
  }

  /** The rows a request asks for. */
  ghost function Rows(es: seq<Entry>, d: Directory, n: nat, staged: bool): seq<Entry>
    requires n <= |es|
  {
    var subjects := Named(es, d, n, staged);
    seq(|subjects|, i requires 0 <= i < |subjects| => Entry(subjects[i], Wanted(es, d, n, subjects[i])))
  }

  /** No group and no role is named twice. */
  ghost predicate NoClash(es: seq<Entry>, d: Directory, n: nat)
    requires n <= |es|
  {
    forall s: Subject :: (s.kind == Group || s.kind == OrgRole) ==> Times(es, d, n, s) <= 1
  }

  // ---------------------------------------------------------------------------
  // Facts about the rows asked for
  // ---------------------------------------------------------------------------

  lemma {:induction false} NamedHolds(es: seq<Entry>, d: Directory, n: nat, staged: bool)
    requires n <= |es|
    ensures forall s :: s in Named(es, d, n, staged) <==> Times(es, d, n, s) > 0 && (s.kind == PendingUser) == staged
    ensures forall i, j :: 0 <= i < j < |Named(es, d, n, staged)| ==>
              Named(es, d, n, staged)[i] != Named(es, d, n, staged)[j]
  {
    if n > 0 {
      NamedHolds(es, d, n - 1, staged);
    }
  }

  lemma {:induction false} AskedHolds(es: seq<Entry>, d: Directory, n: nat, s: Subject, x: Action)
    requires n <= |es|
    ensures x in Asked(es, d, n, s) <==> exists i :: 0 <= i < n && Target(es[i], d) == Some(s) && x in es[i].actions
  {
    if n > 0 {
      AskedHolds(es, d, n - 1, s, x);
    }
  }

  lemma {:induction false} TimesHolds(es: seq<Entry>, d: Directory, n: nat, s: Subject)
    requires n <= |es|
    ensures Times(es, d, n, s) > 0 <==> exists i :: 0 <= i < n && Target(es[i], d) == Some(s)
    ensures Times(es, d, n, s) == 0 ==> Asked(es, d, n, s) == []
  {
    if n > 0 {
      TimesHolds(es, d, n - 1, s);
    }
  }

  /** The entry is what an action of the subject comes from. */
  predicate Explains(e: Entry, d: Directory, s: Subject, x: Action) {
    && x in e.actions && e.subject.id != ""
    && if e.subject.kind == PendingUser then
         var email := d.normalize(e.subject.id);
         email.Some? && match d.member(email.value) {
           case Some(userId) => s == Subject(User, userId)
           case None => s == Subject(PendingUser, email.value)
         }
       else s == e.subject && (s.kind == User || s.kind == Group || s.kind == OrgRole)
  }

  /** A subject is to hold an action exactly if one of the entries gives it to that very subject. */
  lemma WantedHolds(es: seq<Entry>, d: Directory, n: nat, s: Subject, x: Action)
    requires n <= |es|
    ensures x in Wanted(es, d, n, s) <==> exists i :: 0 <= i < n && Target(es[i], d) == Some(s) && x in es[i].actions
    ensures x in Wanted(es, d, n, s) <==> exists i :: 0 <= i < n && Explains(es[i], d, s, x)
  {
    AskedHolds(es, d, n, s, x);
    FirstSeenKeepsEachOnce(Asked(es, d, n, s), |Asked(es, d, n, s)|);
    forall i | 0 <= i < n ensures Explains(es[i], d, s, x) <==> Target(es[i], d) == Some(s) && x in es[i].actions {
    }
    hide Target, Explains, Asked;
  }

  // ---------------------------------------------------------------------------
  // One more entry
  // ---------------------------------------------------------------------------

  lemma OthersKeepWanted(es: seq<Entry>, d: Directory, n: nat, s: Subject)
    requires n < |es| && Target(es[n], d) != Some(s)
    ensures Wanted(es, d, n + 1, s) == Wanted(es, d, n, s)
  {
    assert Asked(es, d, n + 1, s) == Asked(es, d, n, s);
  }

  lemma FirstWanted(es: seq<Entry>, d: Directory, n: nat, s: Subject)
    requires n < |es| && Target(es[n], d) == Some(s) && Times(es, d, n, s) == 0
    ensures Wanted(es, d, n + 1, s) == if s.kind == PendingUser then Dedup([] + es[n].actions) else es[n].actions
  {
    TimesHolds(es, d, n, s);
    assert Asked(es, d, n + 1, s) == [] + es[n].actions;
    assert [] + es[n].actions == es[n].actions;
  }

  lemma NextWanted(es: seq<Entry>, d: Directory, n: nat, s: Subject)
    requires n < |es| && Target(es[n], d) == Some(s) && Times(es, d, n, s) > 0
    ensures Wanted(es, d, n + 1, s) == Dedup(Wanted(es, d, n, s) + es[n].actions)
  {
    MergeInSteps(Asked(es, d, n, s), es[n].actions);
  }

  /** A skipped entry, or one for the other table, changes nothing. */
  lemma RowsUnmoved(es: seq<Entry>, d: Directory, n: nat, staged: bool)
    requires n < |es|
    requires match Target(es[n], d) case None => true case Some(s) => (s.kind == PendingUser) != staged
    ensures Rows(es, d, n + 1, staged) == Rows(es, d, n, staged)
  {
    hide Wanted;
    NamedHolds(es, d, n, staged);
    forall s | s in Named(es, d, n, staged) ensures Wanted(es, d, n + 1, s) == Wanted(es, d, n, s) {
      OthersKeepWanted(es, d, n, s);
    }
  }

  /** A subject named for the first time comes last. */
  lemma NamedAppend(es: seq<Entry>, d: Directory, n: nat, s: Subject)
    requires n < |es| && Target(es[n], d) == Some(s) && Times(es, d, n, s) == 0
    ensures var staged := s.kind == PendingUser;
      s !in Named(es, d, n, staged) && Named(es, d, n + 1, staged) == Named(es, d, n, staged) + [s]
  {
    NamedHolds(es, d, n, s.kind == PendingUser);
  }

  lemma RowsAppend(es: seq<Entry>, d: Directory, n: nat, s: Subject)
    requires n < |es| && Target(es[n], d) == Some(s) && Times(es, d, n, s) == 0
    ensures var staged := s.kind == PendingUser;
      Rows(es, d, n + 1, staged) ==
      Rows(es, d, n, staged) + [Entry(s, if staged then Dedup([] + es[n].actions) else es[n].actions)]
  {
    var staged := s.kind == PendingUser;
    NamedAppend(es, d, n, s);
    FirstWanted(es, d, n, s);
    hide Wanted, Dedup, Named, Times, Target;
    forall o | o in Named(es, d, n, staged) ensures Wanted(es, d, n + 1, o) == Wanted(es, d, n, o) {
      OthersKeepWanted(es, d, n, o);
    }
  }

  lemma RowsMerge(es: seq<Entry>, d: Directory, n: nat, s: Subject, i: nat)
    requires n < |es| && Target(es[n], d) == Some(s)
    requires i < |Rows(es, d, n, s.kind == PendingUser)| && Rows(es, d, n, s.kind == PendingUser)[i].subject == s
    ensures var rows := Rows(es, d, n, s.kind == PendingUser);
      Rows(es, d, n + 1, s.kind == PendingUser) == rows[i := Entry(s, Dedup(rows[i].actions + es[n].actions))]
  {
    var staged := s.kind == PendingUser;
    NamedHolds(es, d, n, staged);
    assert Named(es, d, n, staged)[i] in Named(es, d, n, staged);
    NextWanted(es, d, n, s);
    hide Wanted, Dedup;
    forall o | o in Named(es, d, n, staged) && o != s ensures Wanted(es, d, n + 1, o) == Wanted(es, d, n, o) {
      OthersKeepWanted(es, d, n, o);
    }
  }

  lemma RowsSubjects(es: seq<Entry>, d: Directory, n: nat, staged: bool)
    requires n <= |es|
    ensures OnePerSubject(Rows(es, d, n, staged))
    ensures forall i :: 0 <= i < |Rows(es, d, n, staged)| ==>
              Times(es, d, n, Rows(es, d, n, staged)[i].subject) > 0 &&
              (Rows(es, d, n, staged)[i].subject.kind == PendingUser) == staged
    ensures forall s :: Times(es, d, n, s) > 0 && (s.kind == PendingUser) == staged ==>
              exists i :: 0 <= i < |Rows(es, d, n, staged)| && Rows(es, d, n, staged)[i].subject == s
  {
    hide Wanted, Times;
    NamedHolds(es, d, n, staged);
    var subjects := Named(es, d, n, staged);
    forall i | 0 <= i < |subjects| ensures subjects[i] in subjects {
    }
    forall s | Times(es, d, n, s) > 0 && (s.kind == PendingUser) == staged
      ensures exists i :: 0 <= i < |Rows(es, d, n, staged)| && Rows(es, d, n, staged)[i].subject == s
    {
      var i :| 0 <= i < |subjects| && subjects[i] == s;
      assert Rows(es, d, n, staged)[i].subject == s;
    }
  }

  lemma {:induction false} ClashLasts(es: seq<Entry>, d: Directory, n: nat, m: nat, s: Subject)
    requires n <= m <= |es|
    ensures Times(es, d, n, s) <= Times(es, d, m, s)
  {
    if n < m {
      ClashLasts(es, d, n, m - 1, s);
    }
  }

  // ---------------------------------------------------------------------------
  // The request loop
  // ---------------------------------------------------------------------------

  /** The index finds exactly the rows of one kind. */
  ghost predicate Indexed(index: map<string, nat>, rows: seq<Entry>, kind: Kind) {
    && (forall id :: id in index ==> index[id] < |rows| && rows[index[id]].subject == Subject(kind, id))
    && (forall i :: 0 <= i < |rows| && rows[i].subject.kind == kind ==> rows[i].subject.id in index)
  }

  /** The rows after one more entry for a subject. */
  ghost predicate Merged(rows: seq<Entry>, s: Subject, first: seq<Action>, more: seq<Action>, after: seq<Entry>) {
    if exists i :: 0 <= i < |rows| && rows[i].subject == s
    then exists i ::
      0 <= i < |rows| && rows[i].subject == s && after == rows[i := Entry(s, Dedup(rows[i].actions + more))]
    else after == rows + [Entry(s, first)]
  }

  lemma IndexedAppend(index: map<string, nat>, rows: seq<Entry>, kind: Kind, e: Entry)
    requires Indexed(index, rows, kind)
    ensures Indexed(if e.subject.kind == kind then index[e.subject.id := |rows|] else index, rows + [e], kind)
  {
  }

  lemma IndexedUpdate(index: map<string, nat>, rows: seq<Entry>, kind: Kind, i: nat, actions: seq<Action>)
    requires Indexed(index, rows, kind) && i < |rows|
    ensures Indexed(index, rows[i := Entry(rows[i].subject, actions)], kind)
  {
  }

  lemma MergedAt(rows: seq<Entry>, s: Subject, first: seq<Action>, more: seq<Action>, i: nat)
    requires i < |rows| && rows[i].subject == s
    ensures Merged(rows, s, first, more, rows[i := Entry(s, Dedup(rows[i].actions + more))])
  {
  }

  lemma MergedAppend(index: map<string, nat>, rows: seq<Entry>, s: Subject, first: seq<Action>, more: seq<Action>)
    requires Indexed(index, rows, s.kind) && s.id !in index
    ensures Merged(rows, s, first, more, rows + [Entry(s, first)])
  {
  }

  class Replacement {
    var inserted: seq<Entry>
    var pendingInserts: seq<Entry>
    var userIndex: map<string, nat>
    var pendingIndex: map<string, nat>

    constructor ()
      ensures inserted == [] && pendingInserts == [] && userIndex == map[] && pendingIndex == map[]
    {
      inserted, pendingInserts, userIndex, pendingIndex := [], [], map[], map[];
    }

    ghost predicate Valid()
      reads this
    {
      Indexed(userIndex, inserted, User) && Indexed(pendingIndex, pendingInserts, PendingUser)
    }

    /** A member's row: merged into an earlier row for the same member, or inserted as given. */
    method InsertUserEntry(userId: string, actions: seq<Action>)
      requires Valid()
      modifies this`inserted, this`userIndex
      ensures Valid()
      ensures Merged(old(inserted), Subject(User, userId), actions, actions, inserted)
    {
      var s := Subject(User, userId);
      if userId in userIndex {
        var idx := userIndex[userId];
        var merged := UnionActions(inserted[idx].actions, actions);
        MergedAt(inserted, s, actions, actions, idx);
        IndexedUpdate(userIndex, inserted, User, idx, merged);
        var equal := SlicesEqual(merged, inserted[idx].actions);
        assert inserted[idx := Entry(s, inserted[idx].actions)] == inserted;
        if !equal {
          inserted := inserted[idx := Entry(s, merged)];
        }
      } else {
        MergedAppend(userIndex, inserted, s, actions, actions);
        IndexedAppend(userIndex, inserted, User, Entry(s, actions));
        userIndex := userIndex[userId := |inserted|];
        inserted := inserted + [Entry(s, actions)];
      }
    }

    /** A staged address: merged into an earlier one, or added with its actions deduplicated. */
    method AddPending(email: string, actions: seq<Action>)
      requires Valid()
      modifies this`pendingInserts, this`pendingIndex
      ensures Valid()
      ensures Merged(old(pendingInserts), Subject(PendingUser, email), Dedup([] + actions), actions, pendingInserts)
    {
      var s := Subject(PendingUser, email);
      if email in pendingIndex {
        var idx := pendingIndex[email];
        var merged := UnionActions(pendingInserts[idx].actions, actions);
        MergedAt(pendingInserts, s, Dedup([] + actions), actions, idx);
        IndexedUpdate(pendingIndex, pendingInserts, PendingUser, idx, merged);
        pendingInserts := pendingInserts[idx := Entry(s, merged)];
      } else {
        var once := UnionActions([], actions);
        MergedAppend(pendingIndex, pendingInserts, s, once, actions);
        IndexedAppend(pendingIndex, pendingInserts, PendingUser, Entry(s, once));
        pendingIndex := pendingIndex[email := |pendingInserts|];
        pendingInserts := pendingInserts + [Entry(s, once)];
      }
    }

    /** A group's or a role's row; the table holds at most one row per subject. */
    method InsertRow(s: Subject, actions: seq<Action>) returns (ok: bool)
      requires Valid() && (s.kind == Group || s.kind == OrgRole)
      modifies this`inserted
      ensures Valid()
      ensures ok <==> forall i :: 0 <= i < |old(inserted)| ==> old(inserted)[i].subject != s
      ensures inserted == if ok then old(inserted) + [Entry(s, actions)] else old(inserted)
    {
      ok := forall i :: 0 <= i < |inserted| ==> inserted[i].subject != s;
      if ok {
        IndexedAppend(userIndex, inserted, User, Entry(s, actions));
        inserted := inserted + [Entry(s, actions)];
      }
    }

    /** The first n entries of a request have been worked in. */
    ghost predicate Holds(es: seq<Entry>, d: Directory, n: nat)
      requires n <= |es|
      reads this
    {
      && Valid() && NoClash(es, d, n)
      && inserted == Rows(es, d, n, false) && pendingInserts == Rows(es, d, n, true)
    }

    /** One entry of the request; false when the database refuses a second row for a group or role. */
    method Accept(es: seq<Entry>, d: Directory, n: nat) returns (ok: bool)
      requires n < |es| && Holds(es, d, n)
      modifies this
      ensures ok ==> Holds(es, d, n + 1)
      ensures !ok ==> !NoClash(es, d, n + 1)
    {
      var e := es[n];
      ok := true;
      if e.subject.kind.Other? || e.subject.id == "" || |e.actions| == 0 {
        SkippedHolds(es, d, n);
        return;
      }
      if e.subject.kind == PendingUser {
        var normal := d.normalize(e.subject.id);
        if normal.None? {
          SkippedHolds(es, d, n);
          return;
        }
        var email := normal.value;
        var memberId := d.member(email);
        if memberId.Some? {
          MergedIsNext(es, d, n, Subject(User, memberId.value));
          hide Rows, Indexed, Merged, NoClash, Dedup, Target;
          InsertUserEntry(memberId.value, e.actions);
          return;
        }
        MergedIsNext(es, d, n, Subject(PendingUser, email));
        hide Rows, Indexed, Merged, NoClash, Dedup, Target;
        AddPending(email, e.actions);
        return;
      }
      if e.subject.kind == User {
        MergedIsNext(es, d, n, e.subject);
        hide Rows, Indexed, Merged, NoClash, Dedup, Target;
        InsertUserEntry(e.subject.id, e.actions);
        return;
      }
      InsertedIsNext(es, d, n, e.subject);
      hide Rows, Indexed, Merged, NoClash, Dedup, Target;
      ok := InsertRow(e.subject, e.actions);
    }
  }

  lemma SkippedHolds(es: seq<Entry>, d: Directory, n: nat)
    requires n < |es| && Target(es[n], d) == None
    ensures forall staged :: Rows(es, d, n + 1, staged) == Rows(es, d, n, staged)
    ensures NoClash(es, d, n) ==> NoClash(es, d, n + 1)
  {
    forall staged ensures Rows(es, d, n + 1, staged) == Rows(es, d, n, staged) {
      RowsUnmoved(es, d, n, staged);
    }
  }

  lemma MergedIsRows(es: seq<Entry>, d: Directory, n: nat, s: Subject, after: seq<Entry>)
    requires n < |es| && Target(es[n], d) == Some(s)
    requires Merged(Rows(es, d, n, s.kind == PendingUser), s,
                    if s.kind == PendingUser then Dedup([] + es[n].actions) else es[n].actions, es[n].actions, after)
    ensures after == Rows(es, d, n + 1, s.kind == PendingUser)
  {
    var staged := s.kind == PendingUser;
    RowsSubjects(es, d, n, staged);
    hide Rows, Dedup;
    var rows := Rows(es, d, n, staged);
    if exists i :: 0 <= i < |rows| && rows[i].subject == s {
      var i :| 0 <= i < |rows| && rows[i].subject == s
            && after == rows[i := Entry(s, Dedup(rows[i].actions + es[n].actions))];
      RowsMerge(es, d, n, s, i);
    } else {
      RowsAppend(es, d, n, s);
    }
  }

  /** Working in an entry for a member or a staged address leaves the rows asked for. */
  lemma MergedIsNext(es: seq<Entry>, d: Directory, n: nat, s: Subject)
    requires n < |es| && Target(es[n], d) == Some(s) && (s.kind == User || s.kind == PendingUser)
    ensures var staged := s.kind == PendingUser;
      var first := if staged then Dedup([] + es[n].actions) else es[n].actions;
      && (forall after :: Merged(Rows(es, d, n, staged), s, first, es[n].actions, after) ==>
            after == Rows(es, d, n + 1, staged))
      && Rows(es, d, n + 1, !staged) == Rows(es, d, n, !staged)
    ensures NoClash(es, d, n) ==> NoClash(es, d, n + 1)
  {
    var staged := s.kind == PendingUser;
    var first := if staged then Dedup([] + es[n].actions) else es[n].actions;
    forall after | Merged(Rows(es, d, n, staged), s, first, es[n].actions, after)
      ensures after == Rows(es, d, n + 1, staged)
    {
      MergedIsRows(es, d, n, s, after);
    }
    RowsUnmoved(es, d, n, !staged);
  }

  /** A group or a role may appear once. */
  lemma InsertedIsNext(es: seq<Entry>, d: Directory, n: nat, s: Subject)
    requires n < |es| && Target(es[n], d) == Some(s) && (s.kind == Group || s.kind == OrgRole) && NoClash(es, d, n)
    ensures Rows(es, d, n + 1, true) == Rows(es, d, n, true)
    ensures var isNew := forall i :: 0 <= i < |Rows(es, d, n, false)| ==> Rows(es, d, n, false)[i].subject != s;
      && (NoClash(es, d, n + 1) <==> isNew)
      && (isNew ==> Rows(es, d, n + 1, false) == Rows(es, d, n, false) + [Entry(s, es[n].actions)])
  {
    RowsUnmoved(es, d, n, true);
    RowsSubjects(es, d, n, false);
    hide Rows;
    if Times(es, d, n, s) == 0 {
      RowsAppend(es, d, n, s);
    } else {
      assert Times(es, d, n + 1, s) > 1;
    }
  }
}
