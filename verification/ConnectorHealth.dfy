/**
 The health timestamps of a connector: failures are stamped at once, successes at most once in
 30 seconds unless they are the first after a failure. NULL is None.
 */
module ConnectorHealth {

  import opened Options

  /** Microseconds. */
  type Time = int

  const DEBOUNCE: Time := 30_000_000

  datatype Row = Row(lastSuccess: Option<Time>, lastFailure: Option<Time>)

  datatype Outcome = Success | Failure

  datatype Event = Event(at: Time, outcome: Outcome)

  /** Status as readers derive it: the failure is newer, or there never was a success. */
  predicate IsFailing(r: Row) {
    r.lastFailure.Some? && (r.lastSuccess.None? || r.lastFailure.value > r.lastSuccess.value)
  }

  /** The success is stored: none yet, the stored one is older than the debounce, or a failure is newer. */
  predicate Lands(r: Row, now: Time) {
    || r.lastSuccess.None?
    || r.lastSuccess.value < now - DEBOUNCE
    || IsFailing(r)
  }

  function After(r: Row, e: Event): Row {
    match e.outcome
    case Success => if Lands(r, e.at) then r.(lastSuccess := Some(e.at)) else r
    case Failure => r.(lastFailure := Some(e.at))
  }

  class Connector {
    var lastSuccessAt: Option<Time>
    var lastFailureAt: Option<Time>

    function State(): Row
      reads this
    {
      Row(lastSuccessAt, lastFailureAt)
    }

    constructor (r: Row)
      ensures State() == r
    {
      lastSuccessAt, lastFailureAt := r.lastSuccess, r.lastFailure;
    }

    /** A conditional UPDATE whose WHERE clause does the debouncing. */
    method RecordConnectorSuccess(now: Time) returns (wrote: bool)
      modifies this
      ensures State() == After(old(State()), Event(now, Success))
      ensures wrote <==> Lands(old(State()), now)
    {
      wrote := lastSuccessAt.None?;
      if lastSuccessAt.Some? && lastSuccessAt.value < now - DEBOUNCE {
        wrote := true;
      }
      if lastFailureAt.Some? && (lastSuccessAt.None? || lastFailureAt.value > lastSuccessAt.value) {
        wrote := true;
      }
      if wrote {
        lastSuccessAt := Some(now);
      }
    }

    method RecordConnectorFailure(now: Time)
      modifies this
      ensures State() == After(old(State()), Event(now, Failure))
    {
      lastFailureAt := Some(now);
    }

    /** The adapter of agents and tools: one callback, two outcomes. */
    method RecordConnectorActivity(now: Time, ok: bool)
      modifies this
      ensures State() == After(old(State()), Event(now, if ok then Success else Failure))
    {
      if ok {
        var _ := RecordConnectorSuccess(now);
      } else {
        RecordConnectorFailure(now);
      }
    }
  }

  // ---------------------------------------------------------------------------
  // Runs under a strictly increasing clock
  // ---------------------------------------------------------------------------

  ghost predicate InOrder(start: Row, events: seq<Event>) {
    && (forall i, j :: 0 <= i < j < |events| ==> events[i].at < events[j].at)
    && (forall i :: 0 <= i < |events| ==>
         && (start.lastSuccess.Some? ==> start.lastSuccess.value < events[i].at)
         && (start.lastFailure.Some? ==> start.lastFailure.value < events[i].at))
  }

  function Run(start: Row, events: seq<Event>, n: nat): Row
    requires n <= |events|
  {
    if n == 0 then start else After(Run(start, events, n - 1), events[n - 1])
  }

  function Writes(start: Row, events: seq<Event>, n: nat): nat
    requires n <= |events|
  {
    if n == 0 then 0
    else Writes(start, events, n - 1) +
         if events[n - 1].outcome.Success? && Lands(Run(start, events, n - 1), events[n - 1].at) then 1 else 0
  }

  function Failures(events: seq<Event>, n: nat): nat
    requires n <= |events|
  {
    if n == 0 then 0 else Failures(events, n - 1) + if events[n - 1].outcome.Failure? then 1 else 0
  }

  lemma {:induction false} TimesAreOld(start: Row, events: seq<Event>, n: nat)
    requires InOrder(start, events) && n <= |events|
    ensures var r := Run(start, events, n);
      forall i :: n <= i < |events| ==>
        && (r.lastSuccess.Some? ==> r.lastSuccess.value < events[i].at)
        && (r.lastFailure.Some? ==> r.lastFailure.value < events[i].at)
  {
    if n > 0 {
      TimesAreOld(start, events, n - 1);
    }
  }

  /** A connector reads as failing if and only if its latest event was a failure. */
  lemma FailingIffLatestFailed(start: Row, events: seq<Event>, n: nat)
    requires InOrder(start, events) && 0 < n <= |events|
    ensures IsFailing(Run(start, events, n)) <==> events[n - 1].outcome.Failure?
  {
    TimesAreOld(start, events, n - 1);
  }

  /** After a success the stored stamp is at most the debounce behind it. */
  lemma SuccessIsNeverFarBehind(start: Row, events: seq<Event>, n: nat)
    requires InOrder(start, events) && 0 < n <= |events| && events[n - 1].outcome.Success?
    ensures var stamp := Run(start, events, n).lastSuccess;
      stamp.Some? && events[n - 1].at - DEBOUNCE <= stamp.value <= events[n - 1].at
  {
    TimesAreOld(start, events, n - 1);
  }

  /** How the writes of the first n events are paid for: one free, one per failure, one per debounce elapsed. */
  ghost predicate PaidFor(start: Row, events: seq<Event>, n: nat)
    requires n <= |events|
  {
    var r, writes := Run(start, events, n), Writes(start, events, n);
    writes == 0 ||
    ( && r.lastSuccess.Some? && events[0].at <= r.lastSuccess.value
      && writes + (if IsFailing(r) then 1 else 0)
         <= 1 + Failures(events, n) + (r.lastSuccess.value - events[0].at) / DEBOUNCE)
  }

  lemma MoreDebounces(early: Time, late: Time, first: Time)
    requires first <= early < late - DEBOUNCE
    ensures (early - first) / DEBOUNCE + 1 <= (late - first) / DEBOUNCE
  {
  }

  lemma SameDebounces(early: Time, late: Time, first: Time)
    requires first <= early <= late
    ensures 0 <= (early - first) / DEBOUNCE <= (late - first) / DEBOUNCE
  {
  }

  lemma {:induction false} WritesArePaidFor(start: Row, events: seq<Event>, n: nat)
    requires InOrder(start, events) && n <= |events|
    ensures PaidFor(start, events, n)
  {
    if n > 0 {
      WritesArePaidFor(start, events, n - 1);
      TimesAreOld(start, events, n - 1);
      var before, e := Run(start, events, n - 1), events[n - 1];
      if Writes(start, events, n - 1) > 0 && e.outcome.Success? && Lands(before, e.at) {
        SameDebounces(before.lastSuccess.value, e.at, events[0].at);
        if !IsFailing(before) {
          MoreDebounces(before.lastSuccess.value, e.at, events[0].at);
        }
      }
    }
  }

  /** The events among the first n after which the success stamp is another one. */
  ghost function Stamps(start: Row, events: seq<Event>, n: nat): set<nat>
    requires n <= |events|
  {
    set k: nat | k < n && StampsAt(start, events, k)
  }

  ghost predicate StampsAt(start: Row, events: seq<Event>, k: nat)
    requires k < |events|
  {
    Run(start, events, k + 1).lastSuccess != Run(start, events, k).lastSuccess
  }

  ghost function FailureIndices(events: seq<Event>, n: nat): set<nat>
    requires n <= |events|
  {
    set k: nat | k < n && events[k].outcome.Failure?
  }

  lemma {:induction false} WritesAreStamps(start: Row, events: seq<Event>, n: nat)
    requires InOrder(start, events) && n <= |events|
    ensures |Stamps(start, events, n)| == Writes(start, events, n)
  {
    if n > 0 {
      WritesAreStamps(start, events, n - 1);
      TimesAreOld(start, events, n - 1);
      var before, after := Stamps(start, events, n - 1), Stamps(start, events, n);
      assert StampsAt(start, events, n - 1) <==>
          events[n - 1].outcome.Success? && Lands(Run(start, events, n - 1), events[n - 1].at);
      hide StampsAt;
      assert after == if StampsAt(start, events, n - 1) then before + {n - 1} else before;
    } else {
      assert Stamps(start, events, 0) == {};
    }
  }

  lemma {:induction false} FailuresAreIndices(events: seq<Event>, n: nat)
    requires n <= |events|
    ensures |FailureIndices(events, n)| == Failures(events, n)
  {
    if n > 0 {
      FailuresAreIndices(events, n - 1);
      var before, after := FailureIndices(events, n - 1), FailureIndices(events, n);
      assert after == if events[n - 1].outcome.Failure? then before + {n - 1} else before;
    } else {
      assert FailureIndices(events, 0) == {};
    }
  }

  /** The success stamp changes at most once, plus the failures, plus the debounces that fit in the run. */
  lemma WritesAreBounded(start: Row, events: seq<Event>, n: nat)
    requires InOrder(start, events) && 0 < n <= |events|
    ensures |Stamps(start, events, n)| <=
            1 + |FailureIndices(events, n)| + (events[n - 1].at - events[0].at) / DEBOUNCE
  {
    WritesAreStamps(start, events, n);
    FailuresAreIndices(events, n);
    WritesArePaidFor(start, events, n);
    StampIsPast(start, events, n);
    SameDebounces(events[0].at, events[n - 1].at, events[0].at);
    if Writes(start, events, n) > 0 {
      SameDebounces(Run(start, events, n).lastSuccess.value, events[n - 1].at, events[0].at);
    }
  }

  lemma {:induction false} StampIsPast(start: Row, events: seq<Event>, n: nat)
    requires InOrder(start, events) && 0 < n <= |events|
    ensures Run(start, events, n).lastSuccess.Some? ==> Run(start, events, n).lastSuccess.value <= events[n - 1].at
  {
    TimesAreOld(start, events, n - 1);
  }
}
