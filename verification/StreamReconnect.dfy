/**
 What a viewer of the shared log gets over whole stretches of its life: while its pod is connected,
 over a disconnection, and when the pod's connection loses a message.
 */
module StreamReconnect {
  import opened StreamEvents
  import opened StreamDelivery
  import Clock = SubscriberClock
  import Log = SharedLog

  /** The pod is connected with nothing waiting, and the viewer stands at the shared counter. */
  ghost predicate Stands(s: System) {
    s.connected && s.live == [] && s.view.ready && s.view.lastSeq == s.log.counter + s.view.offset
  }

  function Publishes(jsons: seq<string>): (actions: seq<Action>)
    ensures |actions| == |jsons|
    ensures forall i :: 0 <= i < |jsons| ==> actions[i] == Shared(Log.Publish(jsons[i]))
  {
    seq(|jsons|, i requires 0 <= i < |jsons| => Shared(Log.Publish(jsons[i])))
  }

  function Deliveries(n: nat): (actions: seq<Action>)
    ensures |actions| == n && forall i :: 0 <= i < n ==> actions[i] == DeliverLive
  {
    seq(n, i => DeliverLive)
  }

  /** The given messages under the seqs that follow. */
  function Numbered(jsons: seq<string>, from: nat): (events: seq<Event>)
    ensures |events| == |jsons|
    ensures forall i :: 0 <= i < |jsons| ==> events[i] == Event(from + 1 + i, Ordinary(jsons[i]))
  {
    seq(|jsons|, i requires 0 <= i < |jsons| => Event(from + 1 + i, Ordinary(jsons[i])))
  }

  lemma {:induction false} RunInTwo(s: System, first: seq<Action>, second: seq<Action>)
    ensures Run(s, first + second) == Run(Run(s, first), second)
  {
    if second == [] {
      assert first + second == first;
    } else {
      hide Act;
      RunInTwo(s, first, second[..|second| - 1]);
      assert (first + second)[..|first + second| - 1] == first + second[..|second| - 1];
    }
  }

  lemma RunOne(s: System, a: Action)
    ensures Run(s, [a]) == Act(s, a)
  {
    hide Act;
    assert [a][..0] == [];
    assert Run(s, []) == s;
  }

  // ---------------------------------------------------------------------------
  // Publishing
  // ---------------------------------------------------------------------------

  /** What publishing does to the log, and to the queue of a connected pod. */
  ghost predicate Logged(s: System, after: System, jsons: seq<string>) {
    var added := Numbered(jsons, s.log.counter);
    && after == s.(log := after.log, live := if s.connected then s.live + added else s.live)
    && after.log.counter == s.log.counter + |jsons| && after.log.history == s.log.history + added
    && Log.KeepsNewest(after.log.buffer, s.log.buffer + added)
  }

  lemma PublishLogs(s: System, json: string)
    ensures var e := Event(s.log.counter + 1, Ordinary(json));
      var after := Act(s, Shared(Log.Publish(json)));
      && after == s.(log := after.log, live := if s.connected then s.live + [e] else s.live)
      && after.log.counter == s.log.counter + 1 && after.log.history == s.log.history + [e]
      && Log.KeepsNewest(after.log.buffer, s.log.buffer + [e])
  {
    hide Log.KeepsNewest;
    Log.AppendKeepsNewest(s.log, s.log.counter + 1, Ordinary(json));
    var e := Event(s.log.counter + 1, Ordinary(json));
    assert (s.log.history + [e])[|s.log.history|..] == [e];
  }

  lemma LoggedOneMore(s: System, mid: System, after: System, init: seq<string>, json: string)
    requires Logged(s, mid, init) && after == Act(mid, Shared(Log.Publish(json)))
    ensures Logged(s, after, init + [json])
  {
    PublishLogs(mid, json);
    var e := Event(mid.log.counter + 1, Ordinary(json));
    var added, more := Numbered(init, s.log.counter), Numbered(init + [json], s.log.counter);
    assert more == added + [e];
    hide Log.KeepsNewest, Act, Numbered;
    Log.NewestOfMore(mid.log.buffer, s.log.buffer + added, e, after.log.buffer);
    assert s.log.buffer + added + [e] == s.log.buffer + more;
    assert s.log.history + added + [e] == s.log.history + more;
    assert s.live + added + [e] == s.live + more;
  }

  lemma NothingLogged(s: System)
    requires |s.log.buffer| <= Log.BUFFER_MAX
    ensures Logged(s, s, [])
  {
    assert s.live + [] == s.live && s.log.history + [] == s.log.history && s.log.buffer + [] == s.log.buffer;
  }

  lemma {:induction false} PublishesLog(s: System, jsons: seq<string>)
    requires |s.log.buffer| <= Log.BUFFER_MAX
    ensures Logged(s, Run(s, Publishes(jsons)), jsons)
  {
    hide Logged, Act;
    if jsons == [] {
      assert Publishes(jsons) == [];
      NothingLogged(s);
    } else {
      var init, json := jsons[..|jsons| - 1], jsons[|jsons| - 1];
      PublishesLog(s, init);
      assert Publishes(jsons)[..|jsons| - 1] == Publishes(init);
      LoggedOneMore(s, Run(s, Publishes(init)), Run(s, Publishes(jsons)), init, json);
      assert init + [json] == jsons;
    }
  }

  // ---------------------------------------------------------------------------
  // A connected viewer
  // ---------------------------------------------------------------------------

  lemma {:induction false} DeliveriesDrain(s: System, n: nat)
    requires n <= |s.live|
    ensures var after := Run(s, Deliveries(n));
      after == s.(live := s.live[n..], view := after.view)
  {
    if n == 0 {
      assert Deliveries(0) == [];
    } else {
      DeliveriesDrain(s, n - 1);
      assert Deliveries(n)[..n - 1] == Deliveries(n - 1);
      hide Clock.Step;
    }
  }

  lemma RebasedNumbers(jsons: seq<string>, from: nat, offset: nat)
    ensures Rebased(Numbered(jsons, from), offset) == Numbered(jsons, from + offset)
  {
  }

  lemma TracksAll(s: System, after: System, added: seq<Event>)
    requires Tracks(s, after) && after.live == [] && after.log.history == s.log.history + added
    ensures Stands(after) && after.view.offset == s.view.offset
    ensures Clock.Wires(after.view.pushes) == Clock.Wires(s.view.pushes) + Rebased(added, s.view.offset)
  {
    hide Clock.Wires;
    assert after.log.history[|s.log.history|..] == added;
    assert Rebased([], s.view.offset) == [];
    assert Clock.Wires(after.view.pushes) + [] == Clock.Wires(after.view.pushes);
  }

  lemma PublishedAndDelivered(s: System, jsons: seq<string>)
    requires s.connected && s.live == [] && |s.log.buffer| <= Log.BUFFER_MAX
    ensures var after := Run(s, Publishes(jsons) + Deliveries(|jsons|));
      && after.live == [] && after.log.history == s.log.history + Numbered(jsons, s.log.counter)
      && after.log.counter == s.log.counter + |jsons|
  {
    hide Run, Log.KeepsNewest, Publishes, Deliveries, Numbered;
    RunInTwo(s, Publishes(jsons), Deliveries(|jsons|));
    PublishesLog(s, jsons);
    assert [] + Numbered(jsons, s.log.counter) == Numbered(jsons, s.log.counter);
    DeliveriesDrain(Run(s, Publishes(jsons)), |jsons|);
  }

  /** Whatever is published reaches a viewer at the counter as it is, in order and under the next seqs. */
  lemma PublishedReachesViewer(s: System, jsons: seq<string>)
    requires Stands(s) && |s.log.buffer| <= Log.BUFFER_MAX
    ensures var after := Run(s, Publishes(jsons) + Deliveries(|jsons|));
      && Stands(after) && after.view.offset == s.view.offset && after.log.counter == s.log.counter + |jsons|
      && Clock.Wires(after.view.pushes) == Clock.Wires(s.view.pushes) + Numbered(jsons, s.view.lastSeq)
  {
    var actions := Publishes(jsons) + Deliveries(|jsons|);
    assert forall i :: 0 <= i < |actions| ==> Undisturbed(actions[i]);
    hide Run, Numbered, Clock.Wires, Tracks, Rebased, Publishes, Deliveries;
    PublishedAndDelivered(s, jsons);
    ConnectedViewerGetsTheLog(s, actions);
    TracksAll(s, Run(s, actions), Numbered(jsons, s.log.counter));
    RebasedNumbers(jsons, s.log.counter, s.view.offset);
  }

  /** A pod that just started stands, whether it reads the empty buffer or fails to. */
  lemma StartStands(skipBuffer: bool)
    ensures var joined := Run(Start(skipBuffer), [Connect, ReadBuffer, CatchUp]);
      && Stands(joined) && joined.log == Log.EMPTY && joined.view.lastSeq == 0 && Clock.Wires(joined.view.pushes) == []
      && Run(Start(skipBuffer), [Connect, ReadFails]) == joined
  {
    var s := Start(skipBuffer);
    RunThree(s, Connect, ReadBuffer, CatchUp);
    assert [Connect, ReadFails] == [Connect] + [ReadFails];
    RunInTwo(s, [Connect], [ReadFails]);
    RunOne(s, Connect);
    RunOne(Act(s, Connect), ReadFails);
    assert Clock.CatchUp(Clock.FRESH, skipBuffer, []) == Clock.FRESH.(ready := true);
    hide Run;
  }

  lemma RunThree(s: System, a: Action, b: Action, c: Action)
    ensures Run(s, [a, b, c]) == Act(Act(Act(s, a), b), c)
  {
    hide Run, Act;
    assert [a, b, c] == [a] + ([b] + [c]);
    RunInTwo(s, [a], [b] + [c]);
    RunOne(s, a);
    RunInTwo(Act(s, a), [b], [c]);
    RunOne(Act(s, a), b);
    RunOne(Act(Act(s, a), b), c);
  }

  /** From the start of a session on: a viewer gets exactly what is published. */
  lemma ViewerGetsWhatIsPublished(skipBuffer: bool, jsons: seq<string>)
    ensures var joined := Run(Start(skipBuffer), [Connect, ReadBuffer, CatchUp]);
      Clock.Wires(Run(joined, Publishes(jsons) + Deliveries(|jsons|)).view.pushes) == Numbered(jsons, 0)
  {
    hide Run, Act, Numbered, Clock.Wires, Stands, Publishes, Deliveries;
    StartStands(skipBuffer);
    PublishedReachesViewer(Run(Start(skipBuffer), [Connect, ReadBuffer, CatchUp]), jsons);
  }

  // ---------------------------------------------------------------------------
  // Over a disconnection
  // ---------------------------------------------------------------------------

  lemma {:induction false} ReplayInTwo(v: Clock.View, a: seq<Event>, b: seq<Event>, markGaps: bool)
    ensures Clock.Replay(v, a + b, markGaps) == Clock.Replay(Clock.Replay(v, a, markGaps), b, markGaps)
  {
    if b == [] {
      assert a + b == a;
    } else {
      hide Clock.ReplayOne;
      ReplayInTwo(v, a, b[..|b| - 1], markGaps);
      assert (a + b)[..|a + b| - 1] == a + b[..|b| - 1];
    }
  }

  /** Entries that follow the clock are replayed as they are. */
  lemma {:induction false} FollowingAreReplayed(v: Clock.View, jsons: seq<string>, from: nat)
    requires v.lastSeq == from + v.offset
    ensures var later := Clock.Replay(v, Numbered(jsons, from), true);
      && later.ready == v.ready && later.offset == v.offset && later.lastSeq == v.lastSeq + |jsons|
      && Clock.Wires(later.pushes) == Clock.Wires(v.pushes) + Numbered(jsons, v.lastSeq)
  {
    var all := Numbered(jsons, from);
    if jsons == [] {
      assert all == [] && Numbered(jsons, v.lastSeq) == [];
    } else {
      var init, json := jsons[..|jsons| - 1], jsons[|jsons| - 1];
      FollowingAreReplayed(v, init, from);
      assert all[..|jsons| - 1] == Numbered(init, from);
      var before := Clock.Replay(v, Numbered(init, from), true);
      var e := all[|jsons| - 1];
      assert Clock.ReplayOne(before, e, true) == Clock.PushSource(before, e);
      assert Numbered(jsons, v.lastSeq) == Numbered(init, v.lastSeq) + [Event(e.num + v.offset, e.msg)];
      assert Clock.Wires(Clock.PushSource(before, e).pushes) ==
          Clock.Wires(before.pushes) + [Event(e.num + v.offset, e.msg)];
    }
  }

  /** The buffer still holds all that was missed: it is replayed, and nothing else. */
  lemma ReplaysWhatWasMissed(v: Clock.View, seen: seq<Event>, jsons: seq<string>, from: nat)
    requires v.lastSeq == from + v.offset && AtMost(seen, from)
    ensures var later := Clock.Replay(v, seen + Numbered(jsons, from), true);
      && later.ready == v.ready && later.offset == v.offset && later.lastSeq == v.lastSeq + |jsons|
      && Clock.Wires(later.pushes) == Clock.Wires(v.pushes) + Numbered(jsons, v.lastSeq)
  {
    ReplayInTwo(v, seen, Numbered(jsons, from), true);
    Clock.ReplayOfSeenPushesNothing(v, seen, true);
    FollowingAreReplayed(v, jsons, from);
  }

  lemma FirstBehindMarker(v: Clock.View, e: Event)
    requires v.lastSeq + 1 < e.num + v.offset
    ensures var later := Clock.Replay(v, [e], true);
      && later.ready == v.ready && later.offset == v.offset && later.lastSeq == e.num + v.offset
      && Clock.Wires(later.pushes) ==
           Clock.Wires(v.pushes) + [ResyncEvent(v.lastSeq + 1)] + [Event(e.num + v.offset, e.msg)]
  {
    assert [e][..0] == [] && Clock.Replay(v, [], true) == v;
    assert Clock.Replay(v, [e], true) == Clock.PushSource(Clock.PushMarker(v, v.lastSeq + 1), e);
  }

  lemma Regroup(a: seq<Event>, b: seq<Event>, c: seq<Event>)
    ensures a + b + c == a + (b + c)
  {
  }

  lemma NumberedFirst(jsons: seq<string>, from: nat)
    requires jsons != []
    ensures Numbered(jsons, from) == [Event(from + 1, Ordinary(jsons[0]))] + Numbered(jsons[1..], from + 1)
  {
  }

  /** The buffer starts past the clock: a marker right above the clock, then everything in the buffer. */
  lemma ReplaysBehindMarker(v: Clock.View, jsons: seq<string>, from: nat)
    requires v.lastSeq < from + v.offset && jsons != []
    ensures var later := Clock.Replay(v, Numbered(jsons, from), true);
      && later.ready == v.ready && later.offset == v.offset && later.lastSeq == from + v.offset + |jsons|
      && Clock.Wires(later.pushes) ==
           Clock.Wires(v.pushes) + [ResyncEvent(v.lastSeq + 1)] + Numbered(jsons, from + v.offset)
  {
    hide Clock.Replay, Clock.Wires, Numbered;
    var e := Event(from + 1, Ordinary(jsons[0]));
    NumberedFirst(jsons, from);
    NumberedFirst(jsons, from + v.offset);
    ReplayInTwo(v, [e], Numbered(jsons[1..], from + 1), true);
    FirstBehindMarker(v, e);
    FollowingAreReplayed(Clock.Replay(v, [e], true), jsons[1..], from + 1);
    Regroup(Clock.Wires(v.pushes) + [ResyncEvent(v.lastSeq + 1)], [Event(e.num + v.offset, e.msg)],
            Numbered(jsons[1..], e.num + v.offset));
  }

  /** The events a viewer gets of those it missed, behind the given clock. */
  function Missed(jsons: seq<string>, from: nat): seq<Event> {
    if |jsons| <= Log.BUFFER_MAX then Numbered(jsons, from)
    else [ResyncEvent(from + 1)] + Numbered(jsons, from)[|jsons| - Log.BUFFER_MAX..]
  }

  lemma NumberedTail(jsons: seq<string>, from: nat, k: nat)
    requires k <= |jsons|
    ensures Numbered(jsons, from)[k..] == Numbered(jsons[k..], from + k)
  {
  }

  /** The newest 500 of a longer list end with all of a short addition, or are part of a long one. */
  lemma NewestSplit(buffer: seq<Event>, before: seq<Event>, added: seq<Event>)
    requires Log.KeepsNewest(buffer, before + added)
    ensures |added| <= Log.BUFFER_MAX ==>
              exists k :: 0 <= k <= |before| && buffer == before[k..] + added
    ensures |added| > Log.BUFFER_MAX ==> buffer == added[|added| - Log.BUFFER_MAX..]
  {
    var k := |before + added| - |buffer|;
    if |added| <= Log.BUFFER_MAX {
      assert buffer == before[k..] + added;
    }
  }

  lemma CaughtUpOn(v: Clock.View, before: seq<Event>, buffer: seq<Event>, jsons: seq<string>, from: nat)
    requires v.lastSeq == from + v.offset && AtMost(before, from)
    requires Log.KeepsNewest(buffer, before + Numbered(jsons, from))
    ensures var later := Clock.Replay(v, buffer, true);
      && later.ready == v.ready && later.offset == v.offset && later.lastSeq == v.lastSeq + |jsons|
      && Clock.Wires(later.pushes) == Clock.Wires(v.pushes) + Missed(jsons, v.lastSeq)
  {
    hide Clock.Replay, Clock.Wires, Numbered, Log.KeepsNewest;
    NewestSplit(buffer, before, Numbered(jsons, from));
    if |jsons| <= Log.BUFFER_MAX {
      var k :| 0 <= k <= |before| && buffer == before[k..] + Numbered(jsons, from);
      ReplaysWhatWasMissed(v, before[k..], jsons, from);
    } else {
      var k := |jsons| - Log.BUFFER_MAX;
      NumberedTail(jsons, from, k);
      NumberedTail(jsons, v.lastSeq, k);
      ReplaysBehindMarker(v, jsons[k..], from + k);
      Regroup(Clock.Wires(v.pushes), [ResyncEvent(v.lastSeq + 1)], Numbered(jsons[k..], v.lastSeq + k));
    }
  }

  lemma ReconnectActs(s: System)
    requires !s.skipBuffer && s.view.ready
    ensures Run(s, [Connect, ReadBuffer, CatchUp]) ==
            s.(connected := true, live := [], snapshot := s.log.buffer,
               view := Clock.Replay(s.view, s.log.buffer, true).(ready := true))
  {
    RunThree(s, Connect, ReadBuffer, CatchUp);
    hide Run, Clock.Replay;
  }

  /**
   A viewer whose pod loses its connection gets, once the pod is back, everything published meanwhile
   that the buffer still holds, event for event; what it no longer holds is announced by one marker.
   */
  lemma ReconnectCatchesUp(s: System, jsons: seq<string>)
    requires Log.WellFormed(s.log) && Stands(s) && !s.skipBuffer
    ensures var away := Run(Act(s, Disconnect), Publishes(jsons));
      var after := Run(away, [Connect, ReadBuffer, CatchUp]);
      && away.view == s.view && Stands(after)
      && Clock.Wires(after.view.pushes) == Clock.Wires(s.view.pushes) + Missed(jsons, s.view.lastSeq)
  {
    var off := Act(s, Disconnect);
    var away := Run(off, Publishes(jsons));
    SuffixAtMost(s.log);
    assert |s.log.buffer| <= Log.BUFFER_MAX;
    hide Run, Log.KeepsNewest, Log.WellFormed, AtMost, Clock.Wires, Missed, Numbered, Publishes, Clock.Replay;
    PublishesLog(off, jsons);
    ReconnectActs(away);
    CaughtUpOn(s.view, s.log.buffer, away.log.buffer, jsons, s.log.counter);
  }

  lemma SuffixAtMost(l: Log.Log)
    requires Log.WellFormed(l)
    ensures AtMost(l.buffer, l.counter)
  {
    Log.HistoryEndsAtCounter(l);
    forall i | 0 <= i < |l.buffer| ensures l.buffer[i].num <= l.counter {
      assert l.buffer[i] == l.history[|l.history| - |l.buffer| + i];
    }
  }

  // ---------------------------------------------------------------------------
  // A lost message
  // ---------------------------------------------------------------------------

  /** If the connection loses a message, the next one becomes a marker at its own seq. */
  lemma LostMessageIsMarked(s: System, lost: string, next: string)
    requires Stands(s) && |s.log.buffer| <= Log.BUFFER_MAX
    ensures var published := Run(s, Publishes([lost, next]));
      var after := Act(Act(published, LoseLive), DeliverLive);
      && Stands(after)
      && Clock.Wires(after.view.pushes) == Clock.Wires(s.view.pushes) + [ResyncEvent(s.view.lastSeq + 2)]
  {
    hide Run, Publishes, Numbered, Clock.Deliver, Clock.Wires;
    PublishedWaits(s, [lost, next]);
    LiveIsTwo(s, lost, next);
    GapIsMarked(s.view, Event(s.log.counter + 2, Ordinary(next)));
    hide Log.KeepsNewest;
  }

  lemma PublishedWaits(s: System, jsons: seq<string>)
    requires s.connected && |s.log.buffer| <= Log.BUFFER_MAX
    ensures var after := Run(s, Publishes(jsons));
      && after == s.(log := after.log, live := s.live + Numbered(jsons, s.log.counter))
      && after.log.counter == s.log.counter + |jsons|
  {
    PublishesLog(s, jsons);
    hide Run, Publishes, Numbered, Log.KeepsNewest;
  }

  lemma LiveIsTwo(s: System, lost: string, next: string)
    requires s.live == []
    ensures var live := s.live + Numbered([lost, next], s.log.counter);
      |live| == 2 && live[1..] == [Event(s.log.counter + 2, Ordinary(next))]
  {
  }

  lemma GapIsMarked(v: Clock.View, e: Event)
    requires v.ready && e.num + v.offset > v.lastSeq + 1
    ensures var later := Clock.Deliver(v, e);
      && later.ready && later.offset == v.offset && later.lastSeq == e.num + v.offset
      && Clock.Wires(later.pushes) == Clock.Wires(v.pushes) + [ResyncEvent(e.num + v.offset)]
  {
    assert Clock.Deliver(v, e) == Clock.PushMarker(v, e.num + v.offset);
  }
}
