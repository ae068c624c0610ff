/**
 The bounded channel between the pump and one client. A push is three separate
 non-blocking selects, and the client may receive between any two of them.
 */
module SubscriberChannel {
  import opened Sequences
  import opened StreamEvents

  datatype Channel = Channel(cap: nat, queue: seq<Event>, received: seq<Event>)

  /** Everything that has reached the client or still will, in order. */
  function Delivered(c: Channel): seq<Event> {
    c.received + c.queue
  }

  /** The client receives up to n queued events. */
  function Receive(c: Channel, n: nat): Channel {
    var k := if n <= |c.queue| then n else |c.queue|;
    c.(queue := c.queue[k..], received := c.received + c.queue[..k])
  }

  /** A select with a send case and a default. */
  function TrySend(c: Channel, e: Event): Channel {
    if |c.queue| < c.cap then c.(queue := c.queue + [e]) else c
  }

  /** A select with a receive case, whose value the pump drops, and a default. */
  function EvictOldest(c: Channel): Channel {
    if c.queue == [] then c else c.(queue := c.queue[1..])
  }

  /** One push: the client receives n1 events after the first select and n2 after the second. */
  function Push(c: Channel, e: Event, n1: nat, n2: nat): Channel {
    if |c.queue| < c.cap then
      TrySend(c, e)
    else
      TrySend(Receive(EvictOldest(Receive(c, n1)), n2), ResyncEvent(e.num))
  }

  datatype Action = Pump(event: Event, n1: nat, n2: nat) | Client(n: nat)

  function Act(c: Channel, a: Action): Channel {
    match a
    case Pump(e, n1, n2) => Push(c, e, n1, n2)
    case Client(n) => Receive(c, n)
  }

  function Run(c: Channel, script: seq<Action>): Channel {
    if script == [] then c else Act(Run(c, script[..|script| - 1]), script[|script| - 1])
  }

  /** The events a script pushes, in order. */
  function Pushed(script: seq<Action>): seq<Event> {
    if script == [] then []
    else Pushed(script[..|script| - 1]) + match script[|script| - 1] { case Pump(e, _, _) => [e] case Client(_) => [] }
  }

  // ---------------------------------------------------------------------------
  // Order and cover
  // ---------------------------------------------------------------------------

  /** The event reaches the client, or a resync marker at its seq or above does. */
  ghost predicate Covered(delivered: seq<Event>, e: Event) {
    e in delivered || exists m :: m in delivered && m.msg.Resync? && e.num <= m.num
  }

  /** A delivered event is one that was pushed, or a marker at the seq of one. */
  ghost predicate Accounted(x: Event, pushed: seq<Event>) {
    x in pushed || (x.msg.Resync? && exists e :: e in pushed && e.num == x.num)
  }

  ghost predicate CoversAll(delivered: seq<Event>, pushed: seq<Event>) {
    forall e :: e in pushed ==> Covered(delivered, e)
  }

  ghost predicate AllAccounted(delivered: seq<Event>, pushed: seq<Event>) {
    forall x :: x in delivered ==> Accounted(x, pushed)
  }

  /** What the client gets ends at the last push: an overflow is never left unannounced. */
  ghost predicate EndsAt(delivered: seq<Event>, pushed: seq<Event>) {
    if pushed == [] then delivered == []
    else delivered != [] && delivered[|delivered| - 1].num == pushed[|pushed| - 1].num
  }

  /** The channel state after pushing the given events in order. */
  ghost predicate Faithful(c: Channel, pushed: seq<Event>) {
    && |c.queue| <= c.cap
    && Increasing(Delivered(c))
    && CoversAll(Delivered(c), pushed)
    && AllAccounted(Delivered(c), pushed)
    && EndsAt(Delivered(c), pushed)
  }

  lemma ReceiveKeepsDelivered(c: Channel, n: nat)
    ensures Delivered(Receive(c, n)) == Delivered(c)
    ensures |Receive(c, n).queue| <= |c.queue|
    ensures c.received <= Receive(c, n).received
  {
    var k := if n <= |c.queue| then n else |c.queue|;
    assert c.queue[..k] + c.queue[k..] == c.queue;
  }

  /** Room for one more event: the client gets exactly that event, behind everything before it. */
  lemma RoomKeepsEvent(c: Channel, e: Event, n1: nat, n2: nat)
    requires |c.queue| < c.cap
    ensures var after := Push(c, e, n1, n2);
      after.cap == c.cap && after.received == c.received && after.queue == c.queue + [e]
  {
  }

  /** The list without its i-th element, if it has one. */
  function Without(events: seq<Event>, i: nat): seq<Event> {
    if i < |events| then Remove(events, i) else events
  }

  lemma EvictionLosesOne(c: Channel) returns (lost: nat)
    ensures lost == |c.received|
    ensures Delivered(EvictOldest(c)) == Without(Delivered(c), lost)
  {
    lost := |c.received|;
  }

  lemma SendsBehind(c: Channel, e: Event)
    requires |c.queue| < c.cap
    ensures Delivered(TrySend(c, e)) == Delivered(c) + [e] && |TrySend(c, e).queue| <= c.cap
  {
  }

  lemma ReceiveTakesOnly(c: Channel, n: nat)
    ensures Receive(c, n).cap == c.cap && |Receive(c, n).queue| <= |c.queue|
  {
  }

  lemma EvictionMakesRoom(c: Channel)
    requires 0 < c.cap && |c.queue| <= c.cap
    ensures EvictOldest(c).cap == c.cap && |EvictOldest(c).queue| < c.cap
  {
  }

  /** A push into a full channel: at most one undelivered event is lost, and a marker closes the list. */
  lemma OverflowEffect(c: Channel, e: Event, n1: nat, n2: nat) returns (lost: nat)
    requires c.cap > 0 && |c.queue| == c.cap
    ensures var after := Push(c, e, n1, n2);
      && |after.queue| <= c.cap && after.cap == c.cap
      && |c.received| <= lost
      && Delivered(after) == Without(Delivered(c), lost) + [ResyncEvent(e.num)]
  {
    var c1 := Receive(c, n1);
    var c2 := EvictOldest(c1);
    var c3 := Receive(c2, n2);
    ReceiveKeepsDelivered(c, n1);
    ReceiveTakesOnly(c, n1);
    ReceiveTakesOnly(c2, n2);
    EvictionMakesRoom(c1);
    lost := EvictionLosesOne(c1);
    ReceiveKeepsDelivered(c2, n2);
    SendsBehind(c3, ResyncEvent(e.num));
    assert Push(c, e, n1, n2) == TrySend(c3, ResyncEvent(e.num));
    SendKeepsCap(c3, ResyncEvent(e.num));
    hide Receive, EvictOldest, TrySend, Without, Delivered, Push;
  }

  lemma SendKeepsCap(c: Channel, e: Event)
    ensures TrySend(c, e).cap == c.cap
  {
  }

  /** At most one event that was not received yet is gone, and a marker at the given seq closes the list. */
  ghost predicate LosesOne(received: seq<Event>, queue: seq<Event>, num: nat, after: seq<Event>) {
    exists lost :: |received| <= lost && after == Without(received + queue, lost) + [ResyncEvent(num)]
  }

  lemma OverflowLosesOne(c: Channel, e: Event, n1: nat, n2: nat)
    requires 0 < c.cap && |c.queue| <= c.cap
    ensures |c.queue| == c.cap ==>
              LosesOne(c.received, c.queue, e.num, Push(c, e, n1, n2).received + Push(c, e, n1, n2).queue)
  {
    if |c.queue| == c.cap {
      var lost := OverflowEffect(c, e, n1, n2);
    }
  }

  lemma TopAfterPush(pushed: seq<Event>, e: Event)
    requires Increasing(pushed + [e])
    ensures forall p :: p in pushed ==> p.num < e.num
  {
    forall p | p in pushed ensures p.num < e.num {
      var i :| 0 <= i < |pushed| && pushed[i] == p;
      assert (pushed + [e])[i].num < (pushed + [e])[|pushed|].num;
    }
  }

  lemma AccountedBelow(delivered: seq<Event>, pushed: seq<Event>, e: Event)
    requires AllAccounted(delivered, pushed)
    requires forall p :: p in pushed ==> p.num < e.num
    ensures forall x :: x in delivered ==> x.num < e.num
    ensures AllAccounted(delivered, pushed + [e])
  {
    forall x | x in delivered ensures x.num < e.num && Accounted(x, pushed + [e]) {
      assert Accounted(x, pushed);
      if x !in pushed {
        var p :| p in pushed && p.num == x.num;
        assert p in pushed + [e];
      }
    }
  }

  lemma AppendKeepsFaithful(c: Channel, pushed: seq<Event>, e: Event)
    requires |c.queue| < c.cap && Faithful(c, pushed) && Increasing(pushed + [e])
    ensures Faithful(TrySend(c, e), pushed + [e])
  {
    var d := Delivered(c);
    TopAfterPush(pushed, e);
    AccountedBelow(d, pushed, e);
    assert Delivered(TrySend(c, e)) == d + [e];
    forall p | p in pushed + [e] ensures Covered(d + [e], p) {
      assert p != e ==> Covered(d, p);
    }
    assert Accounted(e, pushed + [e]);
  }

  lemma OverflowKeepsFaithful(d: seq<Event>, lost: nat, pushed: seq<Event>, e: Event)
    requires Increasing(d) && AllAccounted(d, pushed) && Increasing(pushed + [e])
    ensures var after := Without(d, lost) + [ResyncEvent(e.num)];
      && Increasing(after) && CoversAll(after, pushed + [e])
      && AllAccounted(after, pushed + [e]) && EndsAt(after, pushed + [e])
  {
    var m := ResyncEvent(e.num);
    var after := Without(d, lost) + [m];
    TopAfterPush(pushed, e);
    AccountedBelow(d, pushed, e);
    assert m == after[|Without(d, lost)|];
    forall p | p in pushed + [e] ensures Covered(after, p) {
      assert m in after && m.msg.Resync? && p.num <= m.num;
    }
    forall x | x in after ensures Accounted(x, pushed + [e]) {
      assert x == m || x in d;
      assert e in pushed + [e] && e.num == m.num;
    }
  }

  lemma PushKeepsFaithful(c: Channel, pushed: seq<Event>, e: Event, n1: nat, n2: nat)
    requires c.cap > 0 && Faithful(c, pushed) && Increasing(pushed + [e])
    ensures Faithful(Push(c, e, n1, n2), pushed + [e])
  {
    if |c.queue| < c.cap {
      AppendKeepsFaithful(c, pushed, e);
    } else {
      var lost := OverflowEffect(c, e, n1, n2);
      OverflowKeepsFaithful(Delivered(c), lost, pushed, e);
    }
  }

  // ---------------------------------------------------------------------------
  // What is lost
  // ---------------------------------------------------------------------------

  /** The pushes of a script that found the channel full. */
  function Overflows(c: Channel, script: seq<Action>): nat {
    if script == [] then 0
    else
      var init, last := script[..|script| - 1], script[|script| - 1];
      Overflows(c, init) + if last.Pump? && |Run(c, init).queue| >= c.cap then 1 else 0
  }

  ghost function Elements(events: seq<Event>): set<Event> {
    set e | e in events
  }

  /**
   Without overflows the client gets exactly what was pushed. Each overflow makes up at most one
   marker and costs at most two events: its own and the one evicted for the marker.
   */
  ghost predicate LossesBounded(delivered: seq<Event>, pushed: seq<Event>, overflows: nat) {
    && (overflows == 0 ==> delivered == pushed)
    && |Elements(delivered) - Elements(pushed)| <= overflows
    && |Elements(pushed) - Elements(delivered)| <= 2 * overflows
  }

  lemma NoMoreThan(a: set<Event>, b: set<Event>)
    requires a <= b
    ensures |a| <= |b|
  {
    assert b == a + (b - a);
  }

  lemma OneMore(a: set<Event>, x: Event)
    ensures |a + {x}| <= |a| + 1
  {
    if x in a {
      assert a + {x} == a;
    }
  }

  lemma AtMostTwoMore(a: set<Event>, b: set<Event>, x: Event, y: Event)
    requires a <= b + {x, y}
    ensures |a| <= |b| + 2
  {
    NoMoreThan(a, b + {x} + {y});
    OneMore(b, x);
    OneMore(b + {x}, y);
  }

  lemma RoomKeepsBounded(d: seq<Event>, pushed: seq<Event>, overflows: nat, e: Event)
    requires LossesBounded(d, pushed, overflows)
    ensures LossesBounded(d + [e], pushed + [e], overflows)
  {
    NoMoreThan(Elements(d + [e]) - Elements(pushed + [e]), Elements(d) - Elements(pushed));
    NoMoreThan(Elements(pushed + [e]) - Elements(d + [e]), Elements(pushed) - Elements(d));
  }

  lemma OverflowKeepsBounded(d: seq<Event>, lost: nat, pushed: seq<Event>, overflows: nat, e: Event)
    requires LossesBounded(d, pushed, overflows)
    ensures LossesBounded(Without(d, lost) + [ResyncEvent(e.num)], pushed + [e], overflows + 1)
  {
    var m := ResyncEvent(e.num);
    var after := Without(d, lost) + [m];
    var gone := if lost < |d| then d[lost] else e;
    assert forall x :: x in d ==> x in after || x == gone;
    assert forall x :: x in after ==> x in d || x == m;
    AtMostTwoMore(Elements(pushed + [e]) - Elements(after), Elements(pushed) - Elements(d), gone, e);
    NoMoreThan(Elements(after) - Elements(pushed + [e]), (Elements(d) - Elements(pushed)) + {m});
    OneMore(Elements(d) - Elements(pushed), m);
  }

  lemma PushKeepsBounded(c: Channel, pushed: seq<Event>, overflows: nat, e: Event, n1: nat, n2: nat)
    requires 0 < c.cap && |c.queue| <= c.cap && LossesBounded(c.received + c.queue, pushed, overflows)
    ensures var after := Push(c, e, n1, n2);
      LossesBounded(after.received + after.queue, pushed + [e], overflows + if |c.queue| < c.cap then 0 else 1)
  {
    hide LossesBounded;
    if |c.queue| < c.cap {
      RoomKeepsEvent(c, e, n1, n2);
      RoomKeepsBounded(c.received + c.queue, pushed, overflows, e);
      assert c.received + (c.queue + [e]) == c.received + c.queue + [e];
    } else {
      var lost := OverflowEffect(c, e, n1, n2);
      OverflowKeepsBounded(c.received + c.queue, lost, pushed, overflows, e);
    }
  }

  lemma ActKeepsBounded(c: Channel, pushed: seq<Event>, overflows: nat, a: Action)
    requires 0 < c.cap && |c.queue| <= c.cap && LossesBounded(c.received + c.queue, pushed, overflows)
    ensures var after := Act(c, a);
      && |after.queue| <= after.cap == c.cap
      && LossesBounded(after.received + after.queue,
                       pushed + match a { case Pump(e, _, _) => [e] case Client(_) => [] },
                       overflows + if a.Pump? && |c.queue| >= c.cap then 1 else 0)
  {
    hide LossesBounded, Push, Receive;
    match a
    case Pump(e, n1, n2) =>
      PushKeepsBounded(c, pushed, overflows, e, n1, n2);
      PushFits(c, e, n1, n2);
    case Client(n) =>
      ReceiveKeepsDelivered(c, n);
      assert Delivered(Receive(c, n)) == Delivered(c);
      assert pushed + [] == pushed;
      ReceiveKeepsCap(c, n);
  }

  lemma ReceiveKeepsCap(c: Channel, n: nat)
    ensures Receive(c, n).cap == c.cap
  {
  }

  /** Over every run: without overflow nothing is changed, and every overflow costs a bounded amount. */
  lemma {:induction false} LossesAreBounded(cap: nat, script: seq<Action>)
    requires cap > 0
    ensures var end := Run(Channel(cap, [], []), script);
      && |end.queue| <= end.cap == cap
      && LossesBounded(end.received + end.queue, Pushed(script), Overflows(Channel(cap, [], []), script))
  {
    if script == [] {
      NothingIsLost();
    } else {
      hide LossesBounded, Act;
      var init, last := script[..|script| - 1], script[|script| - 1];
      var c := Channel(cap, [], []);
      LossesAreBounded(cap, init);
      ActKeepsBounded(Run(c, init), Pushed(init), Overflows(c, init), last);
    }
  }

  lemma NothingIsLost()
    ensures LossesBounded([] + [], [], 0)
  {
    assert Elements([]) - Elements([]) == {};
  }

  lemma PushFits(c: Channel, e: Event, n1: nat, n2: nat)
    requires |c.queue| <= c.cap
    ensures |Push(c, e, n1, n2).queue| <= Push(c, e, n1, n2).cap == c.cap
  {
  }

  lemma ActKeepsFaithful(c: Channel, pushed: seq<Event>, a: Action)
    requires c.cap > 0 && Faithful(c, pushed)
    requires Increasing(pushed + match a { case Pump(e, _, _) => [e] case Client(_) => [] })
    ensures Faithful(Act(c, a), pushed + match a { case Pump(e, _, _) => [e] case Client(_) => [] })
  {
    match a
    case Pump(e, n1, n2) =>
      hide Faithful;
      PushKeepsFaithful(c, pushed, e, n1, n2);
    case Client(n) =>
      ReceiveKeepsDelivered(c, n);
      assert pushed + [] == pushed;
      hide Delivered, Receive, Increasing, CoversAll, AllAccounted, EndsAt;
      ReceiveTakesOnly(c, n);
  }

  lemma {:induction false} RunStaysFaithful(cap: nat, script: seq<Action>)
    requires cap > 0
    requires Increasing(Pushed(script))
    ensures Faithful(Run(Channel(cap, [], []), script), Pushed(script))
  {
    if script != [] {
      var init, last := script[..|script| - 1], script[|script| - 1];
      assert forall i :: 0 <= i < |Pushed(init)| ==> Pushed(init)[i] == Pushed(script)[i];
      RunStaysFaithful(cap, init);
      CapIsFixed(Channel(cap, [], []), init);
      hide Faithful, Increasing, Act;
      ActKeepsFaithful(Run(Channel(cap, [], []), init), Pushed(init), last);
    }
  }

  /**
   For every interleaving of the client with the selects of the pushes, the client gets
   strictly increasing seqs, and whatever it will not get is covered by a marker of equal
   or higher seq that it got or will get; evicted markers are covered in turn. Without
   overflow it gets exactly what was pushed, and each overflow costs a bounded amount.
   */
  lemma NoSilentDrop(cap: nat, script: seq<Action>)
    requires cap > 0
    requires Increasing(Pushed(script))
    ensures var c := Channel(cap, [], []);
      && Faithful(Run(c, script), Pushed(script))
      && LossesBounded(Delivered(Run(c, script)), Pushed(script), Overflows(c, script))
  {
    RunStaysFaithful(cap, script);
    LossesAreBounded(cap, script);
    hide Faithful, LossesBounded, Increasing, Run;
  }

  lemma {:induction false} CapIsFixed(c: Channel, script: seq<Action>)
    ensures Run(c, script).cap == c.cap
  {
    if script != [] {
      CapIsFixed(c, script[..|script| - 1]);
    }
  }

  /** Nothing the client has received is ever taken back. */
  lemma {:induction false} ReceivedOnlyGrows(c: Channel, script: seq<Action>)
    ensures c.received <= Run(c, script).received
  {
    if script != [] {
      ReceivedOnlyGrows(c, script[..|script| - 1]);
    }
  }

  /** Capacity is what the guarantee rests on: it holds of every run if and only if there is any. */
  lemma NoSilentDropIffBuffered(cap: nat)
    ensures (forall script :: Increasing(Pushed(script)) ==>
               forall e :: e in Pushed(script) ==> Covered(Delivered(Run(Channel(cap, [], []), script)), e))
            <==> cap > 0
  {
    if cap > 0 {
      forall script | Increasing(Pushed(script))
        ensures forall e :: e in Pushed(script) ==> Covered(Delivered(Run(Channel(cap, [], []), script)), e)
      {
        NoSilentDrop(cap, script);
      }
    } else {
      var e := Event(1, Resync);
      var script := [Pump(e, 0, 0)];
      assert script[..0] == [];
      assert Pushed(script) == [e];
      assert Delivered(Run(Channel(cap, [], []), script)) == [];
      assert !Covered([], e);
      assert e in Pushed(script);
    }
  }
}
