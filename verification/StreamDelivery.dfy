/**
 One counter epoch end to end: publishers append to the shared log while a pod's pump
 subscribes, loses messages, reconnects, reads the buffer and delivers to one viewer.
 */
module StreamDelivery {
  import opened StreamEvents
  import Clock = SubscriberClock
  import Log = SharedLog
  import Channel = SubscriberChannel

  /** The log, the pod's live queue, the buffer read it is holding, and the viewer's state. */
  datatype System = System(
    log: Log.Log, connected: bool, live: seq<Event>, snapshot: seq<Event>, skipBuffer: bool, view: Clock.View)

  function Start(skipBuffer: bool): System {
    System(Log.EMPTY, false, [], [], skipBuffer, Clock.FRESH)
  }

  datatype Action =
    | Shared(command: Log.Command)
    | Connect
    | Disconnect
    | LoseLive
    | DeliverLive
    | ReadBuffer
    | CatchUp
    | ReadFails

  function Act(s: System, a: Action): System {
    match a
    case Shared(command) =>
      var log := Log.Execute(s.log, command);
      s.(log := log, live := if s.connected then s.live + log.history[|s.log.history|..] else s.live)
    case Connect => s.(connected := true, live := [])
    case Disconnect => s.(connected := false, live := [])
    case LoseLive => if s.live == [] then s else s.(live := s.live[1..])
    case DeliverLive =>
      if s.live == [] then s
      else s.(live := s.live[1..], view := Clock.Step(s.view, s.skipBuffer, Clock.Live(s.live[0])))
    case ReadBuffer => s.(snapshot := s.log.buffer)
    case CatchUp => s.(view := Clock.Step(s.view, s.skipBuffer, Clock.Buffered(s.snapshot)))
    case ReadFails => s.(view := Clock.Step(s.view, s.skipBuffer, Clock.ReadFailed))
  }

  function Run(s: System, actions: seq<Action>): System {
    if actions == [] then s else Act(Run(s, actions[..|actions| - 1]), actions[|actions| - 1])
  }

  // ---------------------------------------------------------------------------
  // Adjacency
  // ---------------------------------------------------------------------------

  ghost predicate AdjacentAt(history: seq<Event>, e: Event, f: Event, k: nat) {
    k + 1 < |history| && history[k] == e && history[k + 1] == f
  }

  ghost predicate Adjacent(history: seq<Event>, e: Event, f: Event) {
    exists k: nat :: AdjacentAt(history, e, f, k)
  }

  /** Source events pushed back to back are neighbours in the log. */
  ghost predicate PushesAreAdjacent(ps: seq<Clock.Push>, history: seq<Event>) {
    forall i :: 0 < i < |ps| && ps[i - 1].Forward? && ps[i].Forward? ==>
      Adjacent(history, ps[i - 1].source, ps[i].source)
  }

  ghost predicate FromLog(events: seq<Event>, history: seq<Event>) {
    forall i :: 0 <= i < |events| ==> events[i] in history
  }

  /** A contiguous stretch of the log, as every read of the buffer is. */
  ghost predicate SliceAt(events: seq<Event>, history: seq<Event>, a: nat) {
    a + |events| <= |history| && events == history[a..a + |events|]
  }

  ghost predicate Slice(events: seq<Event>, history: seq<Event>) {
    exists a: nat :: SliceAt(events, history, a)
  }

  ghost predicate SourcesFromLog(ps: seq<Clock.Push>, history: seq<Event>) {
    forall i :: 0 <= i < |ps| && ps[i].Forward? ==> ps[i].source in history
  }

  /** The viewer only ever saw log entries, neighbours when nothing was pushed between them. */
  ghost predicate Attached(ps: seq<Clock.Push>, history: seq<Event>) {
    SourcesFromLog(ps, history) && PushesAreAdjacent(ps, history)
  }

  ghost predicate Sound(s: System) {
    && Log.WellFormed(s.log)
    && FromLog(s.live, s.log.history)
    && Slice(s.snapshot, s.log.history)
    && Clock.Coherent(s.view) && Clock.Unstarted(s.view)
    && Attached(s.view.pushes, s.log.history)
    && Clock.Behind(s.view, s.log.counter)
  }

  lemma {:induction false} SeqsOutrunIndices(history: seq<Event>, a: nat, b: nat)
    requires Increasing(history) && a <= b < |history|
    ensures history[a].num + (b - a) <= history[b].num
  {
    if a < b {
      SeqsOutrunIndices(history, a, b - 1);
    }
  }

  lemma SuccessorsAreAdjacent(history: seq<Event>, e: Event, f: Event)
    requires Increasing(history) && e in history && f in history && f.num == e.num + 1
    ensures Adjacent(history, e, f)
  {
    var a: nat :| a < |history| && history[a] == e;
    var b: nat :| b < |history| && history[b] == f;
    SeqsOutrunIndices(history, if a <= b then a else b, if a <= b then b else a);
    assert AdjacentAt(history, e, f, a);
  }

  lemma AttachedInLongerLog(ps: seq<Clock.Push>, history: seq<Event>, longer: seq<Event>)
    requires Attached(ps, history) && history <= longer
    ensures Attached(ps, longer)
  {
    forall i | 0 < i < |ps| && ps[i - 1].Forward? && ps[i].Forward?
      ensures Adjacent(longer, ps[i - 1].source, ps[i].source)
    {
      assert Adjacent(history, ps[i - 1].source, ps[i].source);
      var k: nat :| AdjacentAt(history, ps[i - 1].source, ps[i].source, k);
      assert AdjacentAt(longer, ps[i - 1].source, ps[i].source, k);
    }
  }

  lemma MarkerStaysAttached(ps: seq<Clock.Push>, history: seq<Event>, num: nat)
    requires Attached(ps, history)
    ensures Attached(ps + [Clock.Marker(num)], history)
  {
  }

  lemma ForwardStaysAttached(ps: seq<Clock.Push>, history: seq<Event>, p: Clock.Push)
    requires Attached(ps, history) && p.Forward? && p.source in history
    requires ps == [] || ps[|ps| - 1].Marker? || Adjacent(history, ps[|ps| - 1].source, p.source)
    ensures Attached(ps + [p], history)
  {
  }

  /** Forwarding the event one above the clock extends the last forwarded event by its successor. */
  lemma NextStaysAttached(v: Clock.View, history: seq<Event>, e: Event)
    requires Clock.Coherent(v) && Attached(v.pushes, history) && Increasing(history) && e in history
    requires e.num + v.offset == v.lastSeq + 1
    ensures Attached(Clock.PushSource(v, e).pushes, history)
  {
    if v.pushes != [] && v.pushes[|v.pushes| - 1].Forward? {
      var last := v.pushes[|v.pushes| - 1];
      assert last.source in history;
      SuccessorsAreAdjacent(history, last.source, e);
    }
    ForwardStaysAttached(v.pushes, history, Clock.Forward(e.num + v.offset, e));
  }

  lemma AfterMarkerStaysAttached(v: Clock.View, history: seq<Event>, e: Event, num: nat, offset: nat)
    requires Attached(v.pushes, history) && e in history
    ensures Attached(Clock.PushSource(Clock.PushMarker(v, num).(offset := offset), e).pushes, history)
  {
    MarkerStaysAttached(v.pushes, history, num);
    ForwardStaysAttached(v.pushes + [Clock.Marker(num)], history, Clock.Forward(e.num + offset, e));
  }

  lemma DeliverStaysAttached(v: Clock.View, history: seq<Event>, e: Event)
    requires Clock.Coherent(v) && Attached(v.pushes, history) && Increasing(history) && e in history
    ensures Attached(Clock.Deliver(v, e).pushes, history)
  {
    hide Clock.Coherent, Attached, Increasing;
    var num := e.num + v.offset;
    if v.ready && num < v.lastSeq {
      AfterMarkerStaysAttached(v, history, e, v.lastSeq + 1, v.lastSeq + 2 - e.num);
    } else if v.ready && num > v.lastSeq + 1 {
      MarkerStaysAttached(v.pushes, history, num);
    } else if v.ready && num == v.lastSeq + 1 {
      NextStaysAttached(v, history, e);
    }
  }

  lemma ReplayOneStaysAttached(v: Clock.View, history: seq<Event>, e: Event)
    requires Clock.Coherent(v) && Attached(v.pushes, history) && Increasing(history) && e in history
    ensures Attached(Clock.ReplayOne(v, e, true).pushes, history)
  {
    hide Clock.Coherent, Attached, Increasing;
    var num := e.num + v.offset;
    if num > v.lastSeq + 1 {
      AfterMarkerStaysAttached(v, history, e, v.lastSeq + 1, v.offset);
    } else if num == v.lastSeq + 1 {
      NextStaysAttached(v, history, e);
    }
  }

  lemma {:induction false} ReplayStaysAttached(v: Clock.View, history: seq<Event>, entries: seq<Event>)
    requires Clock.Coherent(v) && Attached(v.pushes, history) && Increasing(history) && FromLog(entries, history)
    ensures Attached(Clock.Replay(v, entries, true).pushes, history)
  {
    if entries != [] {
      hide Clock.Coherent, Attached, Increasing, Clock.ReplayOne;
      var init := entries[..|entries| - 1];
      ReplayStaysAttached(v, history, init);
      Clock.ReplayKeepsCoherent(v, init, true);
      ReplayOneStaysAttached(Clock.Replay(v, init, true), history, entries[|entries| - 1]);
    }
  }

  /** The first replay of a buffer to a new viewer pushes every entry as it stands. */
  lemma {:induction false} FirstReplayPushesAll(v: Clock.View, entries: seq<Event>)
    requires v.lastSeq == v.offset == 0 && v.pushes == [] && Increasing(entries) && Above(entries, 0)
    ensures var later := Clock.Replay(v, entries, false);
      && later.offset == 0 && |later.pushes| == |entries|
      && later.lastSeq == (if entries == [] then 0 else entries[|entries| - 1].num)
      && forall i :: 0 <= i < |entries| ==> later.pushes[i] == Clock.Forward(entries[i].num, entries[i])
  {
    if entries != [] {
      FirstReplayPushesAll(v, entries[..|entries| - 1]);
    }
  }

  lemma SliceIsFromLog(entries: seq<Event>, history: seq<Event>)
    requires Slice(entries, history)
    ensures FromLog(entries, history)
    ensures Increasing(history) ==> Increasing(entries)
    ensures Above(history, 0) ==> Above(entries, 0)
    ensures forall i :: 0 < i < |entries| ==> Adjacent(history, entries[i - 1], entries[i])
  {
    var a: nat :| SliceAt(entries, history, a);
    forall i | 0 < i < |entries| ensures Adjacent(history, entries[i - 1], entries[i]) {
      assert AdjacentAt(history, entries[i - 1], entries[i], a + i - 1);
    }
    forall i | 0 <= i < |entries| ensures entries[i] in history {
      assert entries[i] == history[a + i];
    }
  }

  lemma CatchUpStaysAttached(v: Clock.View, skipBuffer: bool, history: seq<Event>, entries: seq<Event>)
    requires Clock.Coherent(v) && Clock.Unstarted(v) && Attached(v.pushes, history)
    requires Increasing(history) && Above(history, 0) && Slice(entries, history)
    ensures Attached(Clock.CatchUp(v, skipBuffer, entries).pushes, history)
  {
    SliceIsFromLog(entries, history);
    if !skipBuffer && v.ready {
      ReplayStaysAttached(v, history, entries);
    } else if !skipBuffer {
      FirstReplayPushesAll(v, entries);
    }
  }

  lemma SliceInLongerLog(entries: seq<Event>, history: seq<Event>, longer: seq<Event>)
    requires Slice(entries, history) && history <= longer
    ensures Slice(entries, longer)
  {
    var a: nat :| SliceAt(entries, history, a);
    assert SliceAt(entries, longer, a);
  }

  lemma BufferIsSlice(l: Log.Log)
    requires Log.WellFormed(l)
    ensures Slice(l.buffer, l.history)
  {
    assert SliceAt(l.buffer, l.history, |l.history| - |l.buffer|);
  }

  lemma SharedKeepsSound(s: System, c: Log.Command)
    requires Sound(s)
    ensures Sound(Act(s, Shared(c)))
  {
    hide Log.WellFormed, Slice, Attached, Clock.Coherent, Clock.Unstarted, Log.Execute;
    var after := Log.Execute(s.log, c);
    Log.ExecuteKeepsWellFormed(s.log, c);
    SliceInLongerLog(s.snapshot, s.log.history, after.history);
    AttachedInLongerLog(s.view.pushes, s.log.history, after.history);
  }

  /** Whatever the pump gets from the log lies at or below the counter. */
  lemma LogStaysBelow(l: Log.Log, source: Clock.Source)
    requires Log.WellFormed(l)
    requires source.Live? ==> source.event in l.history
    requires source.Buffered? ==> Slice(source.entries, l.history)
    ensures source.Live? ==> source.event.num <= l.counter
    ensures source.Buffered? ==> AtMost(source.entries, l.counter)
  {
    Log.HistoryEndsAtCounter(l);
    hide Log.WellFormed;
    if source.Buffered? {
      SliceIsFromLog(source.entries, l.history);
    }
  }

  lemma PumpKeepsSound(s: System, source: Clock.Source)
    requires Sound(s)
    requires source.Live? ==> source.event in s.log.history
    requires source.Buffered? ==> Slice(source.entries, s.log.history)
    ensures Sound(s.(view := Clock.Step(s.view, s.skipBuffer, source)))
  {
    hide Attached, Clock.Coherent, Clock.Unstarted, Slice, FromLog;
    Clock.StepKeepsCoherent(s.view, s.skipBuffer, source);
    LogStaysBelow(s.log, source);
    Clock.StepStaysBehind(s.view, s.skipBuffer, source, s.log.counter);
    match source
    case Live(e) => DeliverStaysAttached(s.view, s.log.history, e);
    case Buffered(entries) => CatchUpStaysAttached(s.view, s.skipBuffer, s.log.history, entries);
    case ReadFailed =>
  }

  lemma ActKeepsSound(s: System, a: Action)
    requires Sound(s)
    ensures Sound(Act(s, a)) && Act(s, a).skipBuffer == s.skipBuffer
  {
    hide Log.WellFormed, Slice, Attached, Clock.Coherent, Clock.Unstarted, Clock.Step;
    match a
    case Shared(c) => SharedKeepsSound(s, c);
    case DeliverLive =>
      if s.live != [] {
        PumpKeepsSound(s, Clock.Live(s.live[0]));
      }
    case ReadBuffer => BufferIsSlice(s.log);
    case CatchUp => PumpKeepsSound(s, Clock.Buffered(s.snapshot));
    case ReadFails => PumpKeepsSound(s, Clock.ReadFailed);
    case Connect =>
    case Disconnect =>
    case LoseLive =>
  }

  lemma StartIsSound(skipBuffer: bool)
    ensures Sound(Start(skipBuffer))
  {
    assert SliceAt([], [], 0);
  }

  lemma {:induction false} RunStaysSound(skipBuffer: bool, actions: seq<Action>)
    ensures Sound(Run(Start(skipBuffer), actions)) && Run(Start(skipBuffer), actions).skipBuffer == skipBuffer
  {
    if actions == [] {
      StartIsSound(skipBuffer);
    } else {
      hide Sound, Act;
      RunStaysSound(skipBuffer, actions[..|actions| - 1]);
      ActKeepsSound(Run(Start(skipBuffer), actions[..|actions| - 1]), actions[|actions| - 1]);
    }
  }

  /**
   In one counter epoch, over every interleaving of publishers, trims, expiries, reconnects,
   catch-ups and lost or delivered live messages: two source events pushed with no marker
   between them are neighbours in the log, and when the second is an ordinary event its
   client seq is the successor of the first. A missing event is never passed over silently.
   */
  lemma NoSilentGap(skipBuffer: bool, actions: seq<Action>, i: nat)
    requires var ps := Run(Start(skipBuffer), actions).view.pushes;
      0 < i < |ps| && ps[i - 1].Forward? && ps[i].Forward?
    ensures var end := Run(Start(skipBuffer), actions);
      var ps := end.view.pushes;
      && Adjacent(end.log.history, ps[i - 1].source, ps[i].source)
      && ps[i - 1].num < ps[i].num
      && (ps[i].source.msg.Ordinary? ==> ps[i].num == ps[i - 1].num + 1)
  {
    RunStaysSound(skipBuffer, actions);
    var end := Run(Start(skipBuffer), actions);
    var ps := end.view.pushes;
    assert Adjacent(end.log.history, ps[i - 1].source, ps[i].source);
    var k: nat :| AdjacentAt(end.log.history, ps[i - 1].source, ps[i].source, k);
  }

  /** After a catch-up from the current buffer the viewer stands exactly at the shared counter. */
  lemma CatchUpReachesCounter(s: System)
    requires Sound(s) && !s.skipBuffer && s.log.buffer != []
    ensures var after := Act(Act(s, ReadBuffer), CatchUp);
      after.view.ready && after.view.lastSeq == after.log.counter + after.view.offset
  {
    BufferIsSlice(s.log);
    LogStaysBelow(s.log, Clock.Buffered(s.log.buffer));
    Log.BufferEndsAtCounter(s.log);
    hide Log.WellFormed, Slice, Attached, FromLog, AtMost, Clock.Coherent, Clock.Unstarted, Clock.Step, Clock.CatchUp;
    CatchUpMeets(s.view, s.log.buffer, s.log.counter);
    CatchUpActs(s);
  }

  lemma CatchUpActs(s: System)
    requires !s.skipBuffer
    ensures Act(Act(s, ReadBuffer), CatchUp) ==
            s.(snapshot := s.log.buffer, view := Clock.CatchUp(s.view, false, s.log.buffer))
  {
    hide Clock.CatchUp;
  }

  lemma CatchUpMeets(v: Clock.View, entries: seq<Event>, top: nat)
    requires Clock.Behind(v, top) && AtMost(entries, top) && entries != [] && entries[|entries| - 1].num == top
    ensures var after := Clock.CatchUp(v, false, entries); after.ready && after.lastSeq == top + after.offset
  {
    Clock.ReplayReachesEveryEntry(v, entries, v.ready);
    Clock.ReplayStaysBehind(v, entries, v.ready, top);
    hide Clock.Replay, AtMost;
  }

  /**
   What the client has and will get of the pushes: in strictly increasing order and fully covered,
   all of them as they are if no push overflowed, and all but a bounded number otherwise.
   */
  ghost predicate ReachesClient(pushed: seq<Event>, end: Channel.Channel, overflows: nat) {
    && Increasing(Channel.Delivered(end))
    && Channel.CoversAll(Channel.Delivered(end), pushed)
    && Channel.AllAccounted(Channel.Delivered(end), pushed)
    && Channel.EndsAt(Channel.Delivered(end), pushed)
    && Channel.LossesBounded(Channel.Delivered(end), pushed, overflows)
  }

  lemma CoherentReachesClient(v: Clock.View, cap: nat, script: seq<Channel.Action>)
    requires 0 < cap && Clock.Coherent(v) && Channel.Pushed(script) == Clock.Wires(v.pushes)
    ensures var c := Channel.Channel(cap, [], []);
      ReachesClient(Clock.Wires(v.pushes), Channel.Run(c, script), Channel.Overflows(c, script))
  {
    Clock.WiresIncrease(v);
    Channel.NoSilentDrop(cap, script);
    hide Channel.LossesBounded;
  }

  /**
   The whole path to the client: for every sequence of source events, counter resets included,
   what the client received and has queued is strictly increasing, and whatever the pump pushed
   is among it or covered by a marker, however the client and the selects of the pushes interleave.
   */
  lemma ClientSeesPushesInOrder(skipBuffer: bool, sources: seq<Clock.Source>, cap: nat, script: seq<Channel.Action>)
    requires 0 < cap
    requires Channel.Pushed(script) == Clock.Wires(Clock.Run(Clock.FRESH, skipBuffer, sources).pushes)
    ensures var c := Channel.Channel(cap, [], []);
      ReachesClient(Clock.Wires(Clock.Run(Clock.FRESH, skipBuffer, sources).pushes),
                    Channel.Run(c, script), Channel.Overflows(c, script))
  {
    Clock.ClientClockIsMonotone(Clock.FRESH, skipBuffer, sources);
    hide Clock.Coherent, Clock.Run;
    CoherentReachesClient(Clock.Run(Clock.FRESH, skipBuffer, sources), cap, script);
  }

  /** The same for everything pushed in one epoch of the shared log. */
  lemma EpochReachesClient(skipBuffer: bool, actions: seq<Action>, cap: nat, script: seq<Channel.Action>)
    requires 0 < cap
    requires Channel.Pushed(script) == Clock.Wires(Run(Start(skipBuffer), actions).view.pushes)
    ensures var c := Channel.Channel(cap, [], []);
      ReachesClient(Clock.Wires(Run(Start(skipBuffer), actions).view.pushes),
                    Channel.Run(c, script), Channel.Overflows(c, script))
  {
    RunStaysSound(skipBuffer, actions);
    hide Clock.Coherent, Run;
    CoherentReachesClient(Run(Start(skipBuffer), actions).view, cap, script);
  }

  // ---------------------------------------------------------------------------
  // Event for event
  // ---------------------------------------------------------------------------

  /**
   Without overflow every push reaches the client in its place: a forwarded event with its
   source's message, a marker as a resync message.
   */
  lemma SourcesReachClient(skipBuffer: bool, sources: seq<Clock.Source>, cap: nat, script: seq<Channel.Action>, i: nat)
    requires 0 < cap && Channel.Overflows(Channel.Channel(cap, [], []), script) == 0
    requires Channel.Pushed(script) == Clock.Wires(Clock.Run(Clock.FRESH, skipBuffer, sources).pushes)
    requires i < |Clock.Run(Clock.FRESH, skipBuffer, sources).pushes|
    ensures var ps := Clock.Run(Clock.FRESH, skipBuffer, sources).pushes;
      var end := Channel.Run(Channel.Channel(cap, [], []), script);
      var delivered := end.received + end.queue;
      && |delivered| == |ps| && delivered[i].num == ps[i].num
      && delivered[i].msg == if ps[i].Forward? then ps[i].source.msg else Resync
  {
    ClientSeesPushesInOrder(skipBuffer, sources, cap, script);
    hide Clock.Run, Channel.Run;
  }

  /** Events one above the other, the first one above the given seq. */
  ghost predicate Follow(events: seq<Event>, from: nat) {
    forall i :: 0 <= i < |events| ==> events[i].num == from + 1 + i
  }

  /** Live events that follow the clock are pushed as they are. */
  lemma {:induction false} FollowingEventsArePushed(v: Clock.View, skipBuffer: bool, events: seq<Event>)
    requires v.ready && v.offset == 0 && Follow(events, v.lastSeq)
    ensures var later := Clock.Run(v, skipBuffer, Clock.Lives(events));
      && later.ready && later.offset == 0 && later.lastSeq == v.lastSeq + |events|
      && Clock.Wires(later.pushes) == Clock.Wires(v.pushes) + events
  {
    if events == [] {
      assert Clock.Lives(events) == [];
    } else {
      var init, last := events[..|events| - 1], events[|events| - 1];
      FollowingEventsArePushed(v, skipBuffer, init);
      assert Clock.Lives(events)[..|events| - 1] == Clock.Lives(init);
      assert Clock.Lives(events)[|events| - 1] == Clock.Live(last);
      hide Clock.Run, Clock.Lives;
      NextIsPushed(Clock.Run(v, skipBuffer, Clock.Lives(init)), last);
      assert init + [last] == events;
    }
  }

  lemma NextIsPushed(v: Clock.View, e: Event)
    requires v.ready && v.offset == 0 && e.num == v.lastSeq + 1
    ensures var later := Clock.Deliver(v, e);
      later.ready && later.offset == 0 && later.lastSeq == e.num
      && Clock.Wires(later.pushes) == Clock.Wires(v.pushes) + [e]
  {
  }

  /** The first pass over a buffer: all of it for an ordinary viewer, only the baseline for the other kind. */
  lemma FirstPass(skipBuffer: bool, entries: seq<Event>)
    requires Increasing(entries) && Above(entries, 0)
    ensures var v := Clock.Run(Clock.FRESH, skipBuffer, [Clock.Buffered(entries)]);
      && v.ready && v.offset == 0 && v.lastSeq == (if entries == [] then 0 else entries[|entries| - 1].num)
      && Clock.Wires(v.pushes) == if skipBuffer then [] else entries
  {
    var script := [Clock.Buffered(entries)];
    assert script[..0] == [];
    assert Clock.Run(Clock.FRESH, skipBuffer, []) == Clock.FRESH;
    FirstReplayPushesAll(Clock.FRESH, entries);
    var top := Clock.MaxSeq(entries);
    if entries != [] {
      assert entries[|entries| - 1].num <= top;
    }
  }

  /**
   When the buffer cannot be read, live events flow all the same: the first one is forwarded if it is
   the session's first event and announced by a marker at its seq otherwise.
   */
  lemma FailedReadLetsLiveFlow(skipBuffer: bool, first: Event, events: seq<Event>)
    requires first.num > 0 && Follow(events, first.num)
    ensures var sources := [Clock.ReadFailed, Clock.Live(first)] + Clock.Lives(events);
      Clock.Wires(Clock.Run(Clock.FRESH, skipBuffer, sources).pushes) ==
      [if first.num == 1 then first else ResyncEvent(first.num)] + events
  {
    var opening := [Clock.ReadFailed, Clock.Live(first)];
    assert opening[..1] == [Clock.ReadFailed] && [Clock.ReadFailed][..0] == [];
    assert Clock.Run(Clock.FRESH, skipBuffer, []) == Clock.FRESH;
    assert Clock.Run(Clock.FRESH, skipBuffer, [Clock.ReadFailed]) == Clock.FRESH.(ready := true);
    var v := Clock.Run(Clock.FRESH, skipBuffer, opening);
    assert v == Clock.Deliver(Clock.FRESH.(ready := true), first);
    assert Clock.Wires(v.pushes) == [if first.num == 1 then first else ResyncEvent(first.num)];
    hide Clock.Run, Clock.Lives, Clock.Deliver;
    Clock.RunInTwo(Clock.FRESH, skipBuffer, opening, Clock.Lives(events));
    FollowingEventsArePushed(v, skipBuffer, events);
  }

  /**
   A viewer that joins gets the buffer and then the live events that follow it, event for event;
   a viewer that skips the buffer gets only those live events. Nothing is added or changed.
   */
  lemma JoiningViewerGetsLogAsItIs(skipBuffer: bool, entries: seq<Event>, events: seq<Event>,
                                   cap: nat, script: seq<Channel.Action>)
    requires Increasing(entries) && Above(entries, 0)
    requires Follow(events, if entries == [] then 0 else entries[|entries| - 1].num)
    requires 0 < cap && Channel.Overflows(Channel.Channel(cap, [], []), script) == 0
    requires var sources := [Clock.Buffered(entries)] + Clock.Lives(events);
      Channel.Pushed(script) == Clock.Wires(Clock.Run(Clock.FRESH, skipBuffer, sources).pushes)
    ensures var end := Channel.Run(Channel.Channel(cap, [], []), script);
      end.received + end.queue == (if skipBuffer then [] else entries) + events
  {
    FirstPass(skipBuffer, entries);
    hide Clock.Run, Channel.Run, Channel.Overflows, Channel.Pushed, Clock.Lives, Clock.Wires;
    Clock.RunInTwo(Clock.FRESH, skipBuffer, [Clock.Buffered(entries)], Clock.Lives(events));
    FollowingEventsArePushed(Clock.Run(Clock.FRESH, skipBuffer, [Clock.Buffered(entries)]), skipBuffer, events);
    ClientSeesPushesInOrder(skipBuffer, [Clock.Buffered(entries)] + Clock.Lives(events), cap, script);
  }

  // ---------------------------------------------------------------------------
  // A connected viewer
  // ---------------------------------------------------------------------------

  /** The events on the clock of a viewer with the given offset. */
  function Rebased(events: seq<Event>, offset: nat): (r: seq<Event>)
    ensures |r| == |events|
    ensures forall i :: 0 <= i < |r| ==> r[i] == Event(events[i].num + offset, events[i].msg)
  {
    seq(|events|, i requires 0 <= i < |events| => Event(events[i].num + offset, events[i].msg))
  }

  predicate ComesAfter(e: Event, num: nat) {
    num < e.num && (e.num == num + 1 || e.msg.Resync?)
  }

  ghost predicate LinkedAt(events: seq<Event>, from: nat, i: nat)
    requires i < |events|
  {
    ComesAfter(events[i], if i == 0 then from else events[i - 1].num)
  }

  /** Rising seqs from one to another that jump only at resync events. */
  ghost predicate Chain(events: seq<Event>, from: nat, to: nat) {
    && (forall i :: 0 <= i < |events| ==> LinkedAt(events, from, i))
    && to == if events == [] then from else events[|events| - 1].num
  }

  /** What the viewer was sent since s, and what waits for it, is what was logged since s. */
  ghost predicate Tracks(s: System, now: System) {
    && now.connected && now.view.ready && now.view.offset == s.view.offset <= now.view.lastSeq
    && Chain(now.live, now.view.lastSeq - now.view.offset, now.log.counter)
    && s.log.history <= now.log.history
    && Clock.Wires(now.view.pushes) + Rebased(now.live, s.view.offset)
         == Clock.Wires(s.view.pushes) + Rebased(now.log.history[|s.log.history|..], s.view.offset)
  }

  /** The actions of an undisturbed connection: the scripts and the pump's deliveries. */
  predicate Undisturbed(a: Action) {
    a.Shared? || a.DeliverLive?
  }

  /** A script logs at most one entry, right above the counter or a resync. */
  lemma ScriptLogs(l: Log.Log, c: Log.Command)
    ensures l.history <= Log.Execute(l, c).history
    ensures var after := Log.Execute(l, c);
      Chain(after.history[|l.history|..], l.counter, after.counter)
  {
    hide Log.Trim;
  }

  lemma ChainJoins(a: seq<Event>, b: seq<Event>, from: nat, mid: nat, to: nat)
    requires Chain(a, from, mid) && Chain(b, mid, to)
    ensures Chain(a + b, from, to)
  {
    forall i | 0 <= i < |a + b| ensures LinkedAt(a + b, from, i) {
      if i < |a| {
        assert LinkedAt(a, from, i);
      } else {
        assert LinkedAt(b, mid, i - |a|);
      }
    }
  }

  lemma AppendBoth(a: seq<Event>, b: seq<Event>, c: seq<Event>, d: seq<Event>, more: seq<Event>)
    requires a + b == c + d
    ensures a + (b + more) == c + (d + more)
  {
    assert a + (b + more) == (a + b) + more;
    assert c + (d + more) == (c + d) + more;
  }

  lemma ScriptKeepsTracking(s: System, now: System, c: Log.Command)
    requires Tracks(s, now)
    ensures Tracks(s, Act(now, Shared(c)))
  {
    var after := Log.Execute(now.log, c);
    ScriptLogs(now.log, c);
    hide Log.Execute, Chain, Clock.Wires, Rebased;
    var before, added := now.log.history[|s.log.history|..], after.history[|now.log.history|..];
    ChainJoins(now.live, added, now.view.lastSeq - now.view.offset, now.log.counter, after.counter);
    assert after.history[|s.log.history|..] == before + added;
    var off := s.view.offset;
    RebasedJoin(now.live, added, off);
    RebasedJoin(before, added, off);
    AppendBoth(Clock.Wires(now.view.pushes), Rebased(now.live, off), Clock.Wires(s.view.pushes), Rebased(before, off),
               Rebased(added, off));
  }

  lemma RebasedJoin(a: seq<Event>, b: seq<Event>, offset: nat)
    ensures Rebased(a + b, offset) == Rebased(a, offset) + Rebased(b, offset)
  {
  }

  /** The next event of a chain reaches the wire as it is: forwarded, or as the marker it was. */
  lemma ChainHeadIsPushed(v: Clock.View, live: seq<Event>, to: nat)
    requires v.ready && v.offset <= v.lastSeq && live != [] && Chain(live, v.lastSeq - v.offset, to)
    ensures var later := Clock.Deliver(v, live[0]);
      && later.ready && later.offset == v.offset && later.lastSeq == live[0].num + v.offset
      && Clock.Wires(later.pushes) == Clock.Wires(v.pushes) + [Event(live[0].num + v.offset, live[0].msg)]
      && Chain(live[1..], live[0].num, to)
  {
    assert LinkedAt(live, v.lastSeq - v.offset, 0);
    ChainTail(live, v.lastSeq - v.offset, to);
    hide Chain;
    assert Clock.Wires(Clock.Deliver(v, live[0]).pushes)
        == Clock.Wires(v.pushes) + [Event(live[0].num + v.offset, live[0].msg)];
  }

  lemma ChainTail(events: seq<Event>, from: nat, to: nat)
    requires events != [] && Chain(events, from, to)
    ensures Chain(events[1..], events[0].num, to)
  {
    forall i | 0 <= i < |events| - 1 ensures LinkedAt(events[1..], events[0].num, i) {
      assert LinkedAt(events, from, i + 1);
    }
  }

  lemma HeadMoves(sent: seq<Event>, waiting: seq<Event>, offset: nat)
    requires waiting != []
    ensures sent + Rebased(waiting, offset) ==
            (sent + [Event(waiting[0].num + offset, waiting[0].msg)]) + Rebased(waiting[1..], offset)
  {
  }

  lemma DeliveryKeepsTracking(s: System, now: System)
    requires Tracks(s, now)
    ensures Tracks(s, Act(now, DeliverLive))
  {
    if now.live != [] {
      ChainHeadIsPushed(now.view, now.live, now.log.counter);
      HeadMoves(Clock.Wires(now.view.pushes), now.live, s.view.offset);
      hide Chain, Clock.Deliver, Clock.Wires, Rebased;
    }
  }

  /**
   From a viewer that stands at the counter, over every interleaving of the scripts and the pump:
   what was sent and what still waits is exactly what was logged, event for event, in order.
   */
  lemma {:induction false} ConnectedViewerGetsTheLog(s: System, actions: seq<Action>)
    requires s.connected && s.view.ready && s.live == [] && s.view.lastSeq == s.log.counter + s.view.offset
    requires forall i :: 0 <= i < |actions| ==> Undisturbed(actions[i])
    ensures Tracks(s, Run(s, actions))
  {
    if actions == [] {
      assert s.log.history[|s.log.history|..] == [];
    } else {
      hide Tracks, Act;
      var init, last := actions[..|actions| - 1], actions[|actions| - 1];
      ConnectedViewerGetsTheLog(s, init);
      if last.Shared? {
        ScriptKeepsTracking(s, Run(s, init), last.command);
      } else {
        DeliveryKeepsTracking(s, Run(s, init));
      }
    }
  }
}
