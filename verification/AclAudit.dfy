/** The audit events that describe replacing one access-control list by another. */
module AclAudit {

  import opened Options
  import opened AclActions

  datatype Event =
    | Revoked(subject: Subject, actions: seq<Action>)
    | Updated(subject: Subject, before: seq<Action>, after: seq<Action>)
    | Granted(subject: Subject, actions: seq<Action>)

  /** The actions of the first entry for a subject. */
  function Lookup(entries: seq<Entry>, s: Subject, n: nat): (found: Option<seq<Action>>)
    requires n <= |entries|
    decreases |entries| - n
  {
    if n == |entries| then None
    else if entries[n].subject == s then Some(entries[n].actions)
    else Lookup(entries, s, n + 1)
  }

  function Held(entries: seq<Entry>, s: Subject): Option<seq<Action>> {
    Lookup(entries, s, 0)
  }

  // ---------------------------------------------------------------------------
  // The diff
  // ---------------------------------------------------------------------------

  function LossOf(entry: Entry, now: Option<seq<Action>>): seq<Event> {
    match now
    case None => [Revoked(entry.subject, entry.actions)]
    case Some(actions) => if entry.actions == actions then [] else [Updated(entry.subject, entry.actions, actions)]
  }

  function GainOf(entry: Entry, was: Option<seq<Action>>): seq<Event> {
    if was.None? then [Granted(entry.subject, entry.actions)] else []
  }

  function Losses(olds: seq<Entry>, news: seq<Entry>, n: nat): seq<Event>
    requires n <= |olds|
  {
    if n == 0 then [] else Losses(olds, news, n - 1) + LossOf(olds[n - 1], Held(news, olds[n - 1].subject))
  }

  function Gains(olds: seq<Entry>, news: seq<Entry>, n: nat): seq<Event>
    requires n <= |news|
  {
    if n == 0 then [] else Gains(olds, news, n - 1) + GainOf(news[n - 1], Held(olds, news[n - 1].subject))
  }

  function Diff(olds: seq<Entry>, news: seq<Entry>): seq<Event> {
    Losses(olds, news, |olds|) + Gains(olds, news, |news|)
  }

  /** Two nested loops over the entries, each inner one stopping at the first match. */
  method AuditDiff(oldEntries: seq<Entry>, newEntries: seq<Entry>) returns (auditEvents: seq<Event>)
    ensures auditEvents == Diff(oldEntries, newEntries)
  {
    auditEvents := [];
    for i := 0 to |oldEntries|
      invariant auditEvents == Losses(oldEntries, newEntries, i)
    {
      var loss := CompareOld(oldEntries[i], newEntries);
      auditEvents := auditEvents + loss;
    }
    ghost var losses := auditEvents;
    for i := 0 to |newEntries|
      invariant auditEvents == losses + Gains(oldEntries, newEntries, i)
    {
      var newEntry := newEntries[i];
      var found := false;
      var j := 0;
      while j < |oldEntries| && !found
        invariant j <= |oldEntries|
        invariant found ==> Held(oldEntries, newEntry.subject).Some?
        invariant !found ==> Held(oldEntries, newEntry.subject) == Lookup(oldEntries, newEntry.subject, j)
      {
        found := oldEntries[j].subject == newEntry.subject;
        j := j + 1;
      }
      ghost var before := auditEvents;
      if !found {
        auditEvents := auditEvents + [Granted(newEntry.subject, newEntry.actions)];
      }
      assert auditEvents == before + GainOf(newEntry, Held(oldEntries, newEntry.subject));
    }
  }

  method CompareOld(entry: Entry, newEntries: seq<Entry>) returns (events: seq<Event>)
    ensures events == LossOf(entry, Held(newEntries, entry.subject))
  {
    var j := 0;
    while j < |newEntries|
      invariant j <= |newEntries|
      invariant Held(newEntries, entry.subject) == Lookup(newEntries, entry.subject, j)
    {
      var newEntry := newEntries[j];
      if entry.subject == newEntry.subject {
        var equal := SlicesEqual(entry.actions, newEntry.actions);
        if !equal {
          return [Updated(newEntry.subject, entry.actions, newEntry.actions)];
        }
        return [];
      }
      j := j + 1;
    }
    return [Revoked(entry.subject, entry.actions)];
  }

  // ---------------------------------------------------------------------------
  // What the events say
  // ---------------------------------------------------------------------------

  /** The event tells how the subject's actions changed from one list to the other. */
  predicate Tells(e: Event, was: Option<seq<Action>>, now: Option<seq<Action>>) {
    match e
    case Revoked(_, actions) => was == Some(actions) && now == None
    case Updated(_, before, after) => was == Some(before) && now == Some(after) && before != after
    case Granted(_, actions) => was == None && now == Some(actions)
  }

  ghost predicate Truthful(e: Event, olds: seq<Entry>, news: seq<Entry>) {
    Tells(e, Held(olds, e.subject), Held(news, e.subject))
  }

  lemma {:induction false} LookupHit(entries: seq<Entry>, k: nat, n: nat)
    requires OnePerSubject(entries) && n <= k < |entries|
    ensures Lookup(entries, entries[k].subject, n) == Some(entries[k].actions)
    decreases k - n
  {
    if n < k {
      LookupHit(entries, k, n + 1);
    }
  }

  lemma {:induction false} LookupSource(entries: seq<Entry>, s: Subject, n: nat) returns (k: nat)
    requires n <= |entries| && Lookup(entries, s, n).Some?
    ensures k < |entries| && entries[k].subject == s && Lookup(entries, s, n) == Some(entries[k].actions)
    decreases |entries| - n
  {
    if entries[n].subject == s {
      k := n;
    } else {
      k := LookupSource(entries, s, n + 1);
    }
  }

  ghost predicate AllTruthful(events: seq<Event>, olds: seq<Entry>, news: seq<Entry>) {
    forall i :: 0 <= i < |events| ==> Truthful(events[i], olds, news)
  }

  ghost predicate OneEach(events: seq<Event>) {
    forall i, j :: 0 <= i < j < |events| ==> events[i].subject != events[j].subject
  }

  /** Every event is about one of the first n subjects. */
  ghost predicate About(events: seq<Event>, entries: seq<Entry>, n: nat) {
    && n <= |entries|
    && forall i :: 0 <= i < |events| ==> exists j :: 0 <= j < n && entries[j].subject == events[i].subject
  }

  lemma {:induction false} LossesAreTruthful(olds: seq<Entry>, news: seq<Entry>, n: nat)
    requires OnePerSubject(olds) && n <= |olds|
    ensures AllTruthful(Losses(olds, news, n), olds, news)
  {
    if n > 0 {
      LossesAreTruthful(olds, news, n - 1);
      LookupHit(olds, n - 1, 0);
    }
  }

  lemma {:induction false} GainsAreTruthful(olds: seq<Entry>, news: seq<Entry>, n: nat)
    requires OnePerSubject(news) && n <= |news|
    ensures AllTruthful(Gains(olds, news, n), olds, news)
  {
    if n > 0 {
      GainsAreTruthful(olds, news, n - 1);
      LookupHit(news, n - 1, 0);
    }
  }

  lemma {:induction false} LossesOnce(olds: seq<Entry>, news: seq<Entry>, n: nat)
    requires OnePerSubject(olds) && n <= |olds|
    ensures OneEach(Losses(olds, news, n)) && About(Losses(olds, news, n), olds, n)
    ensures forall i :: 0 <= i < |Losses(olds, news, n)| ==> !Losses(olds, news, n)[i].Granted?
  {
    if n > 0 {
      LossesOnce(olds, news, n - 1);
    }
  }

  lemma {:induction false} GainsOnce(olds: seq<Entry>, news: seq<Entry>, n: nat)
    requires OnePerSubject(news) && n <= |news|
    ensures OneEach(Gains(olds, news, n)) && About(Gains(olds, news, n), news, n)
    ensures forall i :: 0 <= i < |Gains(olds, news, n)| ==> Gains(olds, news, n)[i].Granted?
  {
    if n > 0 {
      GainsOnce(olds, news, n - 1);
    }
  }

  lemma KindsKeepApart(losses: seq<Event>, gains: seq<Event>, olds: seq<Entry>, news: seq<Entry>)
    requires OneEach(losses) && OneEach(gains)
    requires AllTruthful(losses, olds, news) && AllTruthful(gains, olds, news)
    requires forall i :: 0 <= i < |losses| ==> !losses[i].Granted?
    requires forall i :: 0 <= i < |gains| ==> gains[i].Granted?
    ensures OneEach(losses + gains) && AllTruthful(losses + gains, olds, news)
  {
    forall i, j | 0 <= i < |losses| && 0 <= j < |gains| ensures losses[i].subject != gains[j].subject {
      assert Truthful(losses[i], olds, news) && Truthful(gains[j], olds, news);
    }
  }

  /** Each event tells the truth about its subject, and no subject has two events. */
  lemma DiffIsTruthful(olds: seq<Entry>, news: seq<Entry>)
    requires OnePerSubject(olds) && OnePerSubject(news)
    ensures AllTruthful(Diff(olds, news), olds, news) && OneEach(Diff(olds, news))
  {
    LossesAreTruthful(olds, news, |olds|);
    GainsAreTruthful(olds, news, |news|);
    LossesOnce(olds, news, |olds|);
    GainsOnce(olds, news, |news|);
    hide OneEach, AllTruthful, About, Losses, Gains, OnePerSubject;
    KindsKeepApart(Losses(olds, news, |olds|), Gains(olds, news, |news|), olds, news);
  }

  ghost predicate Mentions(events: seq<Event>, s: Subject) {
    exists i :: 0 <= i < |events| && events[i].subject == s
  }

  lemma {:induction false} LossesMention(olds: seq<Entry>, news: seq<Entry>, k: nat, n: nat)
    requires k < n <= |olds| && Held(news, olds[k].subject) != Some(olds[k].actions)
    ensures Mentions(Losses(olds, news, n), olds[k].subject)
  {
    var shorter: seq<Event> := Losses(olds, news, n - 1);
    var last: seq<Event> := LossOf(olds[n - 1], Held(news, olds[n - 1].subject));
    if k == n - 1 {
      assert (shorter + last)[|shorter|].subject == olds[k].subject;
    } else {
      LossesMention(olds, news, k, n - 1);
      MentionsExtend(shorter, last, olds[k].subject);
    }
  }

  lemma {:induction false} GainsMention(olds: seq<Entry>, news: seq<Entry>, k: nat, n: nat)
    requires k < n <= |news| && Held(olds, news[k].subject) == None
    ensures Mentions(Gains(olds, news, n), news[k].subject)
  {
    var shorter: seq<Event> := Gains(olds, news, n - 1);
    var last: seq<Event> := GainOf(news[n - 1], Held(olds, news[n - 1].subject));
    if k == n - 1 {
      assert (shorter + last)[|shorter|].subject == news[k].subject;
    } else {
      GainsMention(olds, news, k, n - 1);
      MentionsExtend(shorter, last, news[k].subject);
    }
  }

  lemma MentionsExtend(front: seq<Event>, back: seq<Event>, s: Subject)
    ensures Mentions(front + back, s) <==> Mentions(front, s) || Mentions(back, s)
  {
    forall i | 0 <= i < |front| ensures (front + back)[i] == front[i] {
    }
    forall i | 0 <= i < |back| ensures (front + back)[|front| + i] == back[i] {
    }
  }

  /** A subject has an event if and only if its actions changed. */
  lemma MentionedIffChanged(olds: seq<Entry>, news: seq<Entry>, s: Subject)
    requires OnePerSubject(olds) && OnePerSubject(news)
    ensures Mentions(Diff(olds, news), s) <==> Held(olds, s) != Held(news, s)
  {
    DiffIsTruthful(olds, news);
    hide Losses, Gains, OnePerSubject, OneEach;
    if Mentions(Diff(olds, news), s) {
      var i :| 0 <= i < |Diff(olds, news)| && Diff(olds, news)[i].subject == s;
      assert Truthful(Diff(olds, news)[i], olds, news);
    } else {
      Unmentioned(olds, news, s);
    }
  }

  lemma Unmentioned(olds: seq<Entry>, news: seq<Entry>, s: Subject)
    requires !Mentions(Diff(olds, news), s)
    ensures Held(olds, s) == Held(news, s)
  {
    MentionsExtend(Losses(olds, news, |olds|), Gains(olds, news, |news|), s);
    hide Mentions, Losses, Gains, Diff;
    if Held(olds, s).Some? {
      var k := LookupSource(olds, s, 0);
      if Held(news, s) != Some(olds[k].actions) {
        LossesMention(olds, news, k, |olds|);
      }
    } else if Held(news, s).Some? {
      var k := LookupSource(news, s, 0);
      GainsMention(olds, news, k, |news|);
    }
  }

  // ---------------------------------------------------------------------------
  // Replaying the events
  // ---------------------------------------------------------------------------

  /** What a subject holds after the first n events are replayed on what it held before. */
  function Replayed(events: seq<Event>, n: nat, s: Subject, was: Option<seq<Action>>): Option<seq<Action>>
    requires n <= |events|
  {
    if n == 0 then was
    else if events[n - 1].subject != s then Replayed(events, n - 1, s, was)
    else match events[n - 1]
      case Revoked(_, _) => None
      case Updated(_, _, after) => Some(after)
      case Granted(_, actions) => Some(actions)
  }

  lemma {:induction false} ReplayReaches(events: seq<Event>, n: nat, olds: seq<Entry>, news: seq<Entry>, s: Subject)
    requires AllTruthful(events, olds, news) && n <= |events|
    ensures Replayed(events, n, s, Held(olds, s)) ==
            if exists i :: 0 <= i < n && events[i].subject == s then Held(news, s) else Held(olds, s)
  {
    if n > 0 {
      ReplayReaches(events, n - 1, olds, news, s);
      assert Truthful(events[n - 1], olds, news);
    }
  }

  /** Replaying the events on the old entries yields exactly the new ones. */
  lemma ReplayYieldsNewEntries(olds: seq<Entry>, news: seq<Entry>, s: Subject)
    requires OnePerSubject(olds) && OnePerSubject(news)
    ensures Replayed(Diff(olds, news), |Diff(olds, news)|, s, Held(olds, s)) == Held(news, s)
  {
    DiffIsTruthful(olds, news);
    ReplayReaches(Diff(olds, news), |Diff(olds, news)|, olds, news, s);
    MentionedIffChanged(olds, news, s);
  }
}
