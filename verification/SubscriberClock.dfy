/**
 The delivery clock of one local viewer: how the pump turns source events (live
 deliveries and replays of the shared buffer) into the events it pushes, re-basing
 source seqs onto the client's clock when the shared counter moves backwards.
 */
module SubscriberClock {
  import opened StreamEvents

  /** One push of the pump: a source event on the client's clock, or a resync marker it made up. */
  datatype Push = Forward(num: nat, source: Event) | Marker(num: nat)

  /** What the client sees of a push. */
  function Wire(p: Push): Event {
    match p
    case Forward(num, source) => Event(num, source.msg)
    case Marker(num) => ResyncEvent(num)
  }

  function Wires(ps: seq<Push>): (events: seq<Event>)
    ensures |events| == |ps| && forall i :: 0 <= i < |ps| ==> events[i] == Wire(ps[i])
  {
    seq(|ps|, i requires 0 <= i < |ps| => Wire(ps[i]))
  }

  /** A subscriber's delivery state with the history of what the pump pushed to it. */
  datatype View = View(ready: bool, lastSeq: nat, offset: nat, pushes: seq<Push>)

  const FRESH := View(false, 0, 0, [])

  function PushMarker(v: View, num: nat): View {
    v.(lastSeq := num, pushes := v.pushes + [Marker(num)])
  }

  function PushSource(v: View, e: Event): View {
    v.(lastSeq := e.num + v.offset, pushes := v.pushes + [Forward(e.num + v.offset, e)])
  }

  /** One live source event. */
  function Deliver(v: View, e: Event): View {
    var num := e.num + v.offset;
    if !v.ready || num == v.lastSeq then
      v
    else if num < v.lastSeq then
      PushSource(PushMarker(v, v.lastSeq + 1).(offset := v.lastSeq + 2 - e.num), e)
    else if num > v.lastSeq + 1 then
      PushMarker(v, num)
    else
      PushSource(v, e)
  }

  /** One entry of the replay buffer; a subscriber that was already live also marks a gap. */
  function ReplayOne(v: View, e: Event, markGaps: bool): View {
    var num := e.num + v.offset;
    if num <= v.lastSeq then
      v
    else if markGaps && num > v.lastSeq + 1 then
      PushSource(PushMarker(v, v.lastSeq + 1), e)
    else
      PushSource(v, e)
  }

  function Replay(v: View, entries: seq<Event>, markGaps: bool): View {
    if entries == [] then v
    else ReplayOne(Replay(v, entries[..|entries| - 1], markGaps), entries[|entries| - 1], markGaps)
  }

  /** The highest seq in the buffer, 0 when it is empty. */
  function MaxSeq(entries: seq<Event>): (top: nat)
    ensures AtMost(entries, top)
    ensures if entries == [] then top == 0 else exists i :: 0 <= i < |entries| && entries[i].num == top
  {
    if entries == [] then 0
    else
      var before := MaxSeq(entries[..|entries| - 1]);
      var last := entries[|entries| - 1].num;
      if last > before || |entries| == 1 then last else before
  }

  /** One pass over the shared buffer. */
  function CatchUp(v: View, skipBuffer: bool, entries: seq<Event>): View {
    if !skipBuffer then
      Replay(v, entries, v.ready).(ready := true)
    else if v.ready then
      v
    else
      v.(ready := true, lastSeq := MaxSeq(entries) + v.offset)
  }

  /** What reaches a subscriber's pump: live events, buffer reads, and buffer reads that failed. */
  datatype Source = Live(event: Event) | Buffered(entries: seq<Event>) | ReadFailed

  function Step(v: View, skipBuffer: bool, s: Source): View {
    match s
    case Live(e) => Deliver(v, e)
    case Buffered(entries) => CatchUp(v, skipBuffer, entries)
    case ReadFailed => v.(ready := true)
  }

  /** A whole run of the pump for one subscriber. */
  function Run(v: View, skipBuffer: bool, script: seq<Source>): View {
    if script == [] then v
    else Step(Run(v, skipBuffer, script[..|script| - 1]), skipBuffer, script[|script| - 1])
  }

  lemma {:induction false} RunInTwo(v: View, skipBuffer: bool, first: seq<Source>, second: seq<Source>)
    ensures Run(v, skipBuffer, first + second) == Run(Run(v, skipBuffer, first), skipBuffer, second)
  {
    if second == [] {
      assert first + second == first;
    } else {
      RunInTwo(v, skipBuffer, first, second[..|second| - 1]);
      assert (first + second)[..|first + second| - 1] == first + second[..|second| - 1];
    }
  }

  // ---------------------------------------------------------------------------
  // The client-visible clock
  // ---------------------------------------------------------------------------

  ghost predicate IncreasingPushes(ps: seq<Push>) {
    forall i, j :: 0 <= i < j < |ps| ==> ps[i].num < ps[j].num
  }

  /** Two source events pushed back to back, with no marker between them, share one re-basing. */
  ghost predicate RebasedOnlyAtMarkers(ps: seq<Push>) {
    forall i :: 0 < i < |ps| && ps[i - 1].Forward? && ps[i].Forward? ==>
      ps[i].num - ps[i].source.num == ps[i - 1].num - ps[i - 1].source.num
  }

  /** The clock never runs behind what was pushed, and sits exactly on the last event it forwarded. */
  ghost predicate Coherent(v: View) {
    && IncreasingPushes(v.pushes)
    && (forall i :: 0 <= i < |v.pushes| ==> 0 < v.pushes[i].num <= v.lastSeq)
    && RebasedOnlyAtMarkers(v.pushes)
    && (forall i :: 0 <= i < |v.pushes| && v.pushes[i].Forward? ==>
         v.pushes[i].num <= v.pushes[i].source.num + v.offset)
    && (|v.pushes| > 0 && v.pushes[|v.pushes| - 1].Forward? ==>
          v.lastSeq == v.pushes[|v.pushes| - 1].num == v.pushes[|v.pushes| - 1].source.num + v.offset)
  }

  lemma IncreasingWhenCoherent(v: View)
    requires Coherent(v)
    ensures IncreasingPushes(v.pushes)
  {
  }

  lemma WiresIncrease(v: View)
    requires Coherent(v)
    ensures Increasing(Wires(v.pushes))
  {
    assert forall i :: 0 <= i < |v.pushes| ==> Wires(v.pushes)[i].num == v.pushes[i].num;
  }

  lemma WiresOfAppend(ps: seq<Push>, p: Push)
    requires IncreasingPushes(ps + [p])
    ensures Wires(ps + [p]) == Wires(ps) + [Wire(p)]
    ensures Increasing(Wires(ps) + [Wire(p)])
  {
    var all := ps + [p];
    assert forall i :: 0 <= i < |all| ==> Wires(all)[i].num == all[i].num;
    assert Wires(all) == Wires(ps) + [Wire(p)];
  }

  /** A subscriber the pump has not made ready has neither been pushed to nor re-based. */
  ghost predicate Unstarted(v: View) {
    !v.ready ==> v.lastSeq == v.offset == 0 && v.pushes == []
  }

  /** How a later view of the same subscriber relates to an earlier one. */
  ghost predicate Extends(v: View, later: View) {
    && v.lastSeq <= later.lastSeq
    && v.offset <= later.offset
    && v.pushes <= later.pushes
    && (forall i :: |v.pushes| <= i < |later.pushes| ==> v.lastSeq < later.pushes[i].num)
    && (v.ready ==> later.ready)
  }

  lemma MarkerKeepsCoherent(v: View, num: nat, offset: nat)
    requires Coherent(v) && v.lastSeq < num && v.offset <= offset
    ensures Coherent(PushMarker(v, num).(offset := offset))
    ensures Extends(v, PushMarker(v, num).(offset := offset))
  {
  }

  lemma SourceKeepsCoherent(v: View, e: Event)
    requires Coherent(v) && v.lastSeq < e.num + v.offset
    ensures Coherent(PushSource(v, e))
    ensures Extends(v, PushSource(v, e))
  {
  }

  lemma ExtendsIsTransitive(v: View, mid: View, later: View)
    requires Extends(v, mid) && Extends(mid, later)
    ensures Extends(v, later)
  {
  }

  lemma ExtendsIsReflexive(v: View)
    ensures Extends(v, v)
  {
  }

  lemma DeliverKeepsCoherent(v: View, e: Event)
    requires Coherent(v)
    ensures Coherent(Deliver(v, e)) && Extends(v, Deliver(v, e))
  {
    hide Coherent, Extends;
    ExtendsIsReflexive(v);
    var num := e.num + v.offset;
    if v.ready && num < v.lastSeq {
      var marked := PushMarker(v, v.lastSeq + 1).(offset := v.lastSeq + 2 - e.num);
      MarkerKeepsCoherent(v, v.lastSeq + 1, v.lastSeq + 2 - e.num);
      SourceKeepsCoherent(marked, e);
      ExtendsIsTransitive(v, marked, PushSource(marked, e));
    } else if v.ready && num > v.lastSeq + 1 {
      MarkerKeepsCoherent(v, num, v.offset);
    } else if v.ready && num == v.lastSeq + 1 {
      SourceKeepsCoherent(v, e);
    }
  }

  lemma ReplayOneKeepsCoherent(v: View, e: Event, markGaps: bool)
    requires Coherent(v)
    ensures Coherent(ReplayOne(v, e, markGaps)) && Extends(v, ReplayOne(v, e, markGaps))
  {
    hide Coherent, Extends;
    ExtendsIsReflexive(v);
    var num := e.num + v.offset;
    if num > v.lastSeq {
      if markGaps && num > v.lastSeq + 1 {
        var marked := PushMarker(v, v.lastSeq + 1);
        MarkerKeepsCoherent(v, v.lastSeq + 1, v.offset);
        SourceKeepsCoherent(marked, e);
        ExtendsIsTransitive(v, marked, PushSource(marked, e));
      } else {
        SourceKeepsCoherent(v, e);
      }
    }
  }

  lemma {:induction false} ReplayKeepsCoherent(v: View, entries: seq<Event>, markGaps: bool)
    requires Coherent(v)
    ensures Coherent(Replay(v, entries, markGaps)) && Extends(v, Replay(v, entries, markGaps))
    ensures Replay(v, entries, markGaps).ready == v.ready && Replay(v, entries, markGaps).offset == v.offset
  {
    if entries != [] {
      hide Coherent, Extends;
      var before := Replay(v, entries[..|entries| - 1], markGaps);
      ReplayKeepsCoherent(v, entries[..|entries| - 1], markGaps);
      ReplayOneKeepsCoherent(before, entries[|entries| - 1], markGaps);
      ExtendsIsTransitive(v, before, Replay(v, entries, markGaps));
    }
  }

  lemma StepKeepsCoherent(v: View, skipBuffer: bool, s: Source)
    requires Coherent(v) && Unstarted(v)
    ensures var later := Step(v, skipBuffer, s); Coherent(later) && Unstarted(later) && Extends(v, later)
  {
    match s
    case Live(e) => DeliverKeepsCoherent(v, e);
    case Buffered(entries) => ReplayKeepsCoherent(v, entries, v.ready);
    case ReadFailed =>
  }

  /**
   Over every run, counter resets included, the pushed seqs are strictly increasing,
   the clock and the re-basing offset only grow, and every re-base starts at a marker.
   */
  lemma {:induction false} ClientClockIsMonotone(v: View, skipBuffer: bool, script: seq<Source>)
    requires Coherent(v) && Unstarted(v)
    ensures var later := Run(v, skipBuffer, script); Coherent(later) && Unstarted(later) && Extends(v, later)
  {
    if script != [] {
      hide Coherent, Extends, Unstarted;
      var before := Run(v, skipBuffer, script[..|script| - 1]);
      ClientClockIsMonotone(v, skipBuffer, script[..|script| - 1]);
      StepKeepsCoherent(before, skipBuffer, script[|script| - 1]);
      ExtendsIsTransitive(v, before, Run(v, skipBuffer, script));
    }
  }

  // ---------------------------------------------------------------------------
  // What a catch-up replays
  // ---------------------------------------------------------------------------

  /** The buffered entries the subscriber has not seen yet on its own clock. */
  function Unseen(v: View, entries: seq<Event>): seq<Event> {
    if entries == [] then []
    else
      var last := entries[|entries| - 1];
      Unseen(v, entries[..|entries| - 1]) + if last.num + v.offset > v.lastSeq then [last] else []
  }

  /** The source events among the pushes, in push order. */
  function Sources(ps: seq<Push>): seq<Event> {
    if ps == [] then []
    else
      Sources(ps[..|ps| - 1]) + match ps[|ps| - 1] { case Forward(_, source) => [source] case Marker(_) => [] }
  }

  lemma {:induction false} ReplayReachesEveryEntry(v: View, entries: seq<Event>, markGaps: bool)
    ensures var later := Replay(v, entries, markGaps);
      && later.offset == v.offset && v.lastSeq <= later.lastSeq
      && forall i :: 0 <= i < |entries| ==> entries[i].num + v.offset <= later.lastSeq
  {
    if entries != [] {
      ReplayReachesEveryEntry(v, entries[..|entries| - 1], markGaps);
    }
  }

  lemma {:induction false} ReplayOfSeenPushesNothing(v: View, entries: seq<Event>, markGaps: bool)
    requires forall i :: 0 <= i < |entries| ==> entries[i].num + v.offset <= v.lastSeq
    ensures Replay(v, entries, markGaps) == v
  {
    if entries != [] {
      ReplayOfSeenPushesNothing(v, entries[..|entries| - 1], markGaps);
    }
  }

  /** A second catch-up over the same buffer changes nothing and pushes nothing. */
  lemma CatchUpIsIdempotent(v: View, skipBuffer: bool, entries: seq<Event>)
    ensures var once := CatchUp(v, skipBuffer, entries); CatchUp(once, skipBuffer, entries) == once
  {
    if !skipBuffer {
      ReplayReachesEveryEntry(v, entries, v.ready);
      ReplayOfSeenPushesNothing(CatchUp(v, skipBuffer, entries), entries, true);
    }
  }

  /** After part of an ordered buffer the clock stands where it was or at the last entry replayed. */
  lemma {:induction false} ReplayStops(v: View, entries: seq<Event>, markGaps: bool)
    requires Increasing(entries)
    ensures var later := Replay(v, entries, markGaps);
      later.offset == v.offset && (later.lastSeq == v.lastSeq
        || (entries != [] && later.lastSeq == entries[|entries| - 1].num + v.offset))
  {
    if entries != [] {
      ReplayStops(v, entries[..|entries| - 1], markGaps);
      ReplayReachesEveryEntry(v, entries[..|entries| - 1], markGaps);
    }
  }

  lemma SourcesOfSeen(v: View, e: Event, markGaps: bool)
    requires e.num + v.offset <= v.lastSeq
    ensures ReplayOne(v, e, markGaps) == v
  {
  }

  /** The last entry of a buffer is replayed exactly if it was unseen at the start. */
  lemma LastIsStillUnseen(v: View, entries: seq<Event>, markGaps: bool)
    requires Increasing(entries) && entries != []
    ensures var before := Replay(v, entries[..|entries| - 1], markGaps);
      && before.offset == v.offset
      && (entries[|entries| - 1].num + v.offset > v.lastSeq <==> entries[|entries| - 1].num + v.offset > before.lastSeq)
  {
    var init := entries[..|entries| - 1];
    ReplayStops(v, init, markGaps);
    ReplayReachesEveryEntry(v, init, markGaps);
    assert init != [] ==> init[|init| - 1].num < entries[|entries| - 1].num;
  }

  lemma {:induction false} ReplayPushesTheUnseen(v: View, entries: seq<Event>, markGaps: bool)
    requires Increasing(entries)
    ensures Sources(Replay(v, entries, markGaps).pushes) == Sources(v.pushes) + Unseen(v, entries)
  {
    if entries != [] {
      var init, last := entries[..|entries| - 1], entries[|entries| - 1];
      var before := Replay(v, init, markGaps);
      LastIsStillUnseen(v, entries, markGaps);
      ReplayPushesTheUnseen(v, init, markGaps);
      hide Sources, ReplayOne;
      if last.num + v.offset > v.lastSeq {
        SourcesOfOne(before, last, markGaps);
      } else {
        SourcesOfSeen(before, last, markGaps);
      }
    }
  }

  lemma SourcesOfOne(v: View, e: Event, markGaps: bool)
    requires e.num + v.offset > v.lastSeq
    ensures Sources(ReplayOne(v, e, markGaps).pushes) == Sources(v.pushes) + [e]
  {
    var marked := v.pushes + [Marker(v.lastSeq + 1)];
    assert marked[..|marked| - 1] == v.pushes;
    assert Sources(marked) == Sources(v.pushes);
    var num := e.num + v.offset;
    var direct, afterMarker := v.pushes + [Forward(num, e)], marked + [Forward(num, e)];
    assert direct[..|direct| - 1] == v.pushes && afterMarker[..|afterMarker| - 1] == marked;
  }

  /** From a buffer in seq order, a catch-up replays exactly the entries not seen yet, in order. */
  lemma CatchUpReplaysExactlyTheUnseen(v: View, entries: seq<Event>)
    requires Increasing(entries)
    ensures Sources(CatchUp(v, false, entries).pushes) == Sources(v.pushes) + Unseen(v, entries)
  {
    ReplayPushesTheUnseen(v, entries, v.ready);
  }

  // ---------------------------------------------------------------------------
  // Never ahead of the source
  // ---------------------------------------------------------------------------

  /** On the source's own clock the subscriber is not past the given seq. */
  ghost predicate Behind(v: View, top: nat) {
    v.lastSeq <= top + v.offset
  }

  lemma {:induction false} ReplayStaysBehind(v: View, entries: seq<Event>, markGaps: bool, top: nat)
    requires Behind(v, top) && AtMost(entries, top)
    ensures Behind(Replay(v, entries, markGaps), top)
  {
    if entries != [] {
      ReplayStaysBehind(v, entries[..|entries| - 1], markGaps, top);
    }
  }

  /** Events up to a seq never take the subscriber past it, re-basing included. */
  lemma StepStaysBehind(v: View, skipBuffer: bool, s: Source, top: nat)
    requires Behind(v, top)
    requires s.Live? ==> s.event.num <= top
    requires s.Buffered? ==> AtMost(s.entries, top)
    ensures Behind(Step(v, skipBuffer, s), top)
  {
    if s.Buffered? {
      ReplayStaysBehind(v, s.entries, v.ready, top);
    }
  }

  // ---------------------------------------------------------------------------
  // Duplicates that were already replayed
  // ---------------------------------------------------------------------------

  function Lives(events: seq<Event>): (script: seq<Source>)
    ensures |script| == |events| && forall i :: 0 <= i < |events| ==> script[i] == Live(events[i])
  {
    seq(|events|, i requires 0 <= i < |events| => Live(events[i]))
  }

  /**
   A re-sent event at its distance from the first one; where the counter jumped since its
   predecessor in the queue, a marker takes its place.
   */
  function ResentOne(events: seq<Event>, from: nat, i: nat): Push
    requires i < |events| && events[0].num <= events[i].num
  {
    var num := from + events[i].num - events[0].num;
    if i == 0 || events[i].num == events[i - 1].num + 1 then Forward(num, events[i]) else Marker(num)
  }

  lemma FirstIsLeast(events: seq<Event>, i: nat)
    requires Increasing(events) && i < |events|
    ensures events[0].num <= events[i].num && (i > 0 ==> events[i - 1].num < events[i].num)
  {
  }

  /** The first n events re-sent from a new clock position on. */
  function Resent(events: seq<Event>, from: nat, n: nat): seq<Push>
    requires Increasing(events) && n <= |events|
  {
    if n == 0 then []
    else
      FirstIsLeast(events, n - 1);
      Resent(events, from, n - 1) + [ResentOne(events, from, n - 1)]
  }

  /** The view after the first n queued duplicates were re-sent from the given view. */
  ghost predicate Resending(later: View, v: View, queued: seq<Event>, n: nat)
    requires Increasing(queued) && 1 <= n <= |queued|
  {
    && later.ready
    && later.lastSeq == v.lastSeq + 2 + queued[n - 1].num - queued[0].num
    && later.offset == v.lastSeq + 2 - queued[0].num
    && later.pushes == v.pushes + [Marker(v.lastSeq + 1)] + Resent(queued, v.lastSeq + 2, n)
  }

  /**
   Events already replayed that are still queued on the live channel: as soon as the first lies
   below the clock it looks like a counter reset, and the whole queue is delivered a second time
   behind a marker, with one more marker for each jump in it.
   */
  lemma QueuedDuplicatesAreResent(v: View, skipBuffer: bool, queued: seq<Event>)
    requires v.ready && Increasing(queued) && queued != []
    requires queued[0].num + v.offset < v.lastSeq
    ensures Resending(Run(v, skipBuffer, Lives(queued)), v, queued, |queued|)
  {
    hide Run, Lives, Resending;
    ResentFrom(v, skipBuffer, queued, |queued|);
    assert Lives(queued)[..|queued|] == Lives(queued);
  }

  lemma LiveStep(v: View, skipBuffer: bool, queued: seq<Event>, n: nat)
    requires 1 <= n <= |queued|
    ensures Run(v, skipBuffer, Lives(queued)[..n]) == Deliver(Run(v, skipBuffer, Lives(queued)[..n - 1]), queued[n - 1])
    ensures n == 1 ==> Run(v, skipBuffer, Lives(queued)[..n - 1]) == v
  {
    var script := Lives(queued)[..n];
    assert script[..n - 1] == Lives(queued)[..n - 1];
    assert Lives(queued)[..0] == [];
  }

  /** The first duplicate below the clock looks like a counter reset. */
  lemma ResendingBegins(v: View, queued: seq<Event>)
    requires v.ready && Increasing(queued) && queued != [] && queued[0].num + v.offset < v.lastSeq
    ensures Resending(Deliver(v, queued[0]), v, queued, 1)
  {
    assert Resent(queued, v.lastSeq + 2, 1) == [Forward(v.lastSeq + 2, queued[0])];
  }

  /** One more duplicate: never dropped again, forwarded or turned into a marker. */
  lemma ResendingGoesOn(later: View, v: View, queued: seq<Event>, n: nat)
    requires Increasing(queued) && 1 <= n < |queued| && Resending(later, v, queued, n)
    ensures Resending(Deliver(later, queued[n]), v, queued, n + 1)
  {
    FirstIsLeast(queued, n);
    hide Increasing;
    var after := Deliver(later, queued[n]);
    assert after.pushes == later.pushes + [ResentOne(queued, v.lastSeq + 2, n)];
  }

  lemma {:induction false} ResentFrom(v: View, skipBuffer: bool, queued: seq<Event>, n: nat)
    requires v.ready && 1 <= n <= |queued| && Increasing(queued)
    requires queued[0].num + v.offset < v.lastSeq
    ensures Resending(Run(v, skipBuffer, Lives(queued)[..n]), v, queued, n)
  {
    hide Run, Lives, Resending, Increasing, Deliver;
    LiveStep(v, skipBuffer, queued, n);
    if n == 1 {
      ResendingBegins(v, queued);
    } else {
      ResentFrom(v, skipBuffer, queued, n - 1);
      ResendingGoesOn(Run(v, skipBuffer, Lives(queued)[..n - 1]), v, queued, n - 1);
    }
  }

  /** Only an event exactly at the clock is dropped; every other one moves the clock. */
  lemma DropsOnlyAtClock(v: View, e: Event)
    requires v.ready
    ensures Deliver(v, e).ready && v.lastSeq <= Deliver(v, e).lastSeq
    ensures Deliver(v, e).lastSeq == v.lastSeq <==> e.num + v.offset == v.lastSeq
    ensures Deliver(v, e).lastSeq == v.lastSeq ==> Deliver(v, e) == v
  {
  }

  lemma {:induction false} ClockMovesForGood(v: View, skipBuffer: bool, queued: seq<Event>, n: nat)
    requires v.ready && 1 <= n <= |queued|
    ensures Run(v, skipBuffer, Lives(queued)[..n]).ready
    ensures Deliver(v, queued[0]).lastSeq <= Run(v, skipBuffer, Lives(queued)[..n]).lastSeq
  {
    hide Run, Lives, Deliver;
    LiveStep(v, skipBuffer, queued, n);
    if n == 1 {
      DropsOnlyAtClock(v, queued[0]);
    } else {
      ClockMovesForGood(v, skipBuffer, queued, n - 1);
      DropsOnlyAtClock(Run(v, skipBuffer, Lives(queued)[..n - 1]), queued[n - 1]);
    }
  }

  /** Behind a first event at the clock, the second one moves it. */
  lemma SecondMovesTheClock(v: View, skipBuffer: bool, queued: seq<Event>, n: nat)
    requires v.ready && Increasing(queued) && 2 <= n <= |queued| && queued[0].num + v.offset == v.lastSeq
    ensures Run(v, skipBuffer, Lives(queued)[..n]).ready && v.lastSeq < Run(v, skipBuffer, Lives(queued)[..n]).lastSeq
  {
    assert queued[0].num < queued[1].num;
    hide Run, Lives, Deliver, Increasing;
    LiveStep(v, skipBuffer, queued, 1);
    LiveStep(v, skipBuffer, queued, n);
    DropsOnlyAtClock(v, queued[0]);
    if n > 2 {
      SecondMovesTheClock(v, skipBuffer, queued, n - 1);
    }
    DropsOnlyAtClock(Run(v, skipBuffer, Lives(queued)[..n - 1]), queued[n - 1]);
  }

  /**
   A queue of live events in seq order is dropped as a whole, as the design promises for events
   already replayed, if and only if it is empty or a single event exactly at the clock.
   */
  lemma QueueIsDroppedIffOneAtClock(v: View, skipBuffer: bool, queued: seq<Event>)
    requires v.ready && Increasing(queued)
    ensures Run(v, skipBuffer, Lives(queued)) == v <==>
            queued == [] || (|queued| == 1 && queued[0].num + v.offset == v.lastSeq)
  {
    if queued != [] {
      assert Lives(queued)[..|queued|] == Lives(queued);
      hide Run, Lives, Deliver;
      DropsOnlyAtClock(v, queued[0]);
      if queued[0].num + v.offset != v.lastSeq {
        ClockMovesForGood(v, skipBuffer, queued, |queued|);
      } else if |queued| == 1 {
        LiveStep(v, skipBuffer, queued, 1);
      } else {
        SecondMovesTheClock(v, skipBuffer, queued, |queued|);
      }
    }
  }
}
