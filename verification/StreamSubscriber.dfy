/**
 The pump's in-place updates: push, live delivery and catch-up on a stream's local
 subscribers, proved against the clock and channel specifications.
 */
module StreamSubscriber {
  import opened StreamEvents
  import Clock = SubscriberClock
  import Chan = SubscriberChannel

  class Subscriber {
    const skipBuffer: bool
    const cap: nat
    var ready: bool
    var lastSeq: nat
    var offset: nat
    var ch: seq<Event>
    var dropped: nat
    ghost var received: seq<Event>
    ghost var pushes: seq<Clock.Push>

    ghost function View(): Clock.View
      reads this
    {
      Clock.View(ready, lastSeq, offset, pushes)
    }

    ghost function Channel(): Chan.Channel
      reads this`ch, this`received
    {
      Chan.Channel(cap, ch, received)
    }

    /** The channel agrees with everything pushed so far, and what it lost is bounded by dropped. */
    ghost predicate Carries()
      reads this`ch, this`received, this`pushes, this`dropped
    {
      && 0 < cap && |ch| <= cap && Chan.Faithful(Channel(), Clock.Wires(pushes))
      && Chan.LossesBounded(received + ch, Clock.Wires(pushes), dropped)
    }

    /** The clock and the channel agree with everything pushed so far. */
    ghost predicate Consistent()
      reads this
    {
      Clock.Coherent(View()) && Carries()
    }

    /** Consistent, and untouched as long as the pump has not made it ready. */
    ghost predicate Valid()
      reads this
    {
      Consistent() && Clock.Unstarted(View())
    }

    constructor (cap: nat, skipBuffer: bool)
      requires 0 < cap
      ensures Valid() && View() == Clock.FRESH && Channel() == Chan.Channel(cap, [], [])
      ensures this.skipBuffer == skipBuffer
    {
      this.cap, this.skipBuffer := cap, skipBuffer;
      ready, lastSeq, offset, ch, dropped := false, 0, 0, [], 0;
      received, pushes := [], [];
      new;
      Chan.NothingIsLost();
      assert received + ch == [] + [] && Clock.Wires(pushes) == [];
    }

    /** The client takes any number of queued events at a moment of its choosing. */
    method ClientReceives() returns (ghost n: nat)
      modifies this`ch, this`received
      ensures n <= |old(ch)| && Channel() == Chan.Receive(old(Channel()), n)
    {
      var k :| 0 <= k <= |ch|;
      n := k;
      received := received + ch[..k];
      ch := ch[k..];
    }

    /** Non-blocking delivery: three selects, the client running freely between them. */
    method Push(evt: Event, ghost p: Clock.Push) returns (ghost n1: nat, ghost n2: nat)
      requires evt == Clock.Wire(p)
      requires Carries() && Clock.IncreasingPushes(pushes + [p])
      modifies this`ch, this`received, this`pushes, this`dropped
      ensures pushes == old(pushes) + [p]
      ensures Channel() == Chan.Push(old(Channel()), evt, n1, n2)
      ensures dropped == old(dropped) + if old(|ch|) < cap then 0 else 1
      ensures Carries()
      ensures old(|ch|) < cap ==> received == old(received) && ch == old(ch) + [evt]
      ensures old(|ch|) >= cap ==> Chan.LosesOne(old(received), old(ch), evt.num, received + ch)
      ensures old(received) <= received
    {
      hide Chan.Faithful, Chan.LossesBounded, Chan.LosesOne;
      ghost var before := Channel();
      Clock.WiresOfAppend(pushes, p);
      n1, n2 := 0, 0;
      if |ch| < cap {
        ch := ch + [evt];
      } else {
        dropped := dropped + 1;
        n1 := ClientReceives();
        ghost var received1 := Channel();
        if ch != [] {
          ch := ch[1..];
        }
        assert Channel() == Chan.EvictOldest(received1);
        n2 := ClientReceives();
        if |ch| < cap {
          ch := ch + [ResyncEvent(evt.num)];
        }
      }
      Chan.PushKeepsFaithful(before, Clock.Wires(pushes), evt, n1, n2);
      Chan.PushKeepsBounded(before, Clock.Wires(pushes), old(dropped), evt, n1, n2);
      Chan.OverflowLosesOne(before, evt, n1, n2);
      pushes := pushes + [p];
    }

    /** One live source event. */
    method DeliverLocked(evt: Event)
      requires Valid()
      modifies this
      ensures Valid() && View() == Clock.Deliver(old(View()), evt)
      ensures old(received) <= received
    {
      hide Clock.Coherent, Clock.IncreasingPushes, Carries, Chan.Push, Chan.LosesOne;
      ghost var before := View();
      Clock.DeliverKeepsCoherent(before, evt);
      Clock.IncreasingWhenCoherent(Clock.Deliver(before, evt));
      if !ready {
        return;
      }
      var num := evt.num + offset;
      if num == lastSeq {
        return;
      }
      if num < lastSeq {
        Clock.MarkerKeepsCoherent(before, lastSeq + 1, lastSeq + 2 - evt.num);
        Clock.IncreasingWhenCoherent(Clock.PushMarker(before, lastSeq + 1).(offset := lastSeq + 2 - evt.num));
        var _, _ := Push(ResyncEvent(lastSeq + 1), Clock.Marker(lastSeq + 1));
        lastSeq := lastSeq + 1;
        offset := lastSeq + 1 - evt.num;
        num := lastSeq + 1;
      }
      if num > lastSeq + 1 {
        var _, _ := Push(ResyncEvent(num), Clock.Marker(num));
        lastSeq := num;
        return;
      }
      var _, _ := Push(Event(num, evt.msg), Clock.Forward(num, evt));
      lastSeq := num;
    }

    /** One buffered entry of a catch-up. */
    method ReplayEntry(entry: Event, markGaps: bool)
      requires Consistent()
      modifies this`lastSeq, this`ch, this`received, this`pushes, this`dropped
      ensures Consistent() && View() == Clock.ReplayOne(old(View()), entry, markGaps)
      ensures old(received) <= received
    {
      hide Clock.Coherent, Clock.IncreasingPushes, Carries, Chan.Push, Chan.LosesOne;
      ghost var before := View();
      Clock.ReplayOneKeepsCoherent(before, entry, markGaps);
      Clock.IncreasingWhenCoherent(Clock.ReplayOne(before, entry, markGaps));
      var num := entry.num + offset;
      if num <= lastSeq {
        return;
      }
      if markGaps && num > lastSeq + 1 {
        Clock.MarkerKeepsCoherent(before, lastSeq + 1, offset);
        Clock.IncreasingWhenCoherent(Clock.PushMarker(before, lastSeq + 1));
        var _, _ := Push(ResyncEvent(lastSeq + 1), Clock.Marker(lastSeq + 1));
        lastSeq := lastSeq + 1;
      }
      var _, _ := Push(Event(num, entry.msg), Clock.Forward(num, entry));
      lastSeq := num;
    }

    /** A successful read of the shared buffer: entries in order and their highest seq. */
    method CatchUp(entries: seq<Event>, maxSeq: nat)
      requires Valid() && maxSeq == Clock.MaxSeq(entries)
      modifies this
      ensures Valid() && View() == Clock.CatchUp(old(View()), skipBuffer, entries)
      ensures old(received) <= received
    {
      hide Clock.Coherent, Carries, Clock.ReplayOne;
      ghost var before := View();
      Clock.StepKeepsCoherent(before, skipBuffer, Clock.Buffered(entries));
      if skipBuffer {
        if !ready {
          ready := true;
          lastSeq := maxSeq + offset;
        }
        return;
      }
      var markGaps := ready;
      for i := 0 to |entries|
        invariant Consistent() && ready == markGaps
        invariant View() == Clock.Replay(before, entries[..i], markGaps)
        invariant old(received) <= received
      {
        assert entries[..i + 1][..i] == entries[..i];
        ReplayEntry(entries[i], markGaps);
      }
      assert entries[..|entries|] == entries;
      ready := true;
    }

    /** A failed read of the shared buffer lets live events flow. */
    method FailOpen()
      requires Valid()
      modifies this`ready
      ensures Valid() && View() == old(View()).(ready := true)
    {
      ready := true;
    }
  }

  /** The highest seq in a decoded buffer. */
  method ReadMaxSeq(entries: seq<Event>) returns (maxSeq: nat)
    ensures maxSeq == Clock.MaxSeq(entries)
    ensures AtMost(entries, maxSeq)
  {
    maxSeq := 0;
    for i := 0 to |entries|
      invariant maxSeq == Clock.MaxSeq(entries[..i])
    {
      assert entries[..i + 1][..i] == entries[..i];
      if entries[i].num > maxSeq {
        maxSeq := entries[i].num;
      }
    }
    assert entries[..|entries|] == entries;
  }

  ghost predicate Distinct(subs: seq<Subscriber>) {
    forall i, j :: 0 <= i < j < |subs| ==> subs[i] != subs[j]
  }

  ghost predicate AllValid(subs: seq<Subscriber>)
    reads subs
  {
    forall i :: 0 <= i < |subs| ==> subs[i].Valid()
  }

  /** Fans one live event out to every subscriber of the stream. */
  method DeliverToAll(subs: seq<Subscriber>, evt: Event)
    requires Distinct(subs) && AllValid(subs)
    modifies subs
    ensures AllValid(subs)
    ensures forall i :: 0 <= i < |subs| ==> subs[i].View() == Clock.Deliver(old(subs[i].View()), evt)
  {
    hide Clock.Coherent, Clock.Unstarted, Subscriber.Carries, Clock.Deliver, Clock.CatchUp, Clock.MaxSeq;
    for k := 0 to |subs|
      invariant AllValid(subs)
      invariant forall i :: 0 <= i < k ==> subs[i].View() == Clock.Deliver(old(subs[i].View()), evt)
      invariant forall i :: k <= i < |subs| ==> subs[i].View() == old(subs[i].View())
    {
      subs[k].DeliverLocked(evt);
    }
  }

  /** One catch-up pass over the whole stream. */
  method CatchUpAll(subs: seq<Subscriber>, entries: seq<Event>)
    requires Distinct(subs) && AllValid(subs)
    modifies subs
    ensures AllValid(subs)
    ensures forall i :: 0 <= i < |subs| ==>
      subs[i].View() == Clock.CatchUp(old(subs[i].View()), subs[i].skipBuffer, entries)
  {
    var maxSeq := ReadMaxSeq(entries);
    hide Clock.Coherent, Clock.Unstarted, Subscriber.Carries, Clock.Deliver, Clock.CatchUp, Clock.MaxSeq;
    for k := 0 to |subs|
      invariant AllValid(subs)
      invariant forall i :: 0 <= i < k ==>
        subs[i].View() == Clock.CatchUp(old(subs[i].View()), subs[i].skipBuffer, entries)
      invariant forall i :: k <= i < |subs| ==> subs[i].View() == old(subs[i].View())
    {
      subs[k].CatchUp(entries, maxSeq);
    }
  }
}
