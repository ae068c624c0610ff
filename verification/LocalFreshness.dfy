/**
 Whether a fallback's seq is new to a viewer on the same pod. A local fan-out pushes the stream's
 own seq without the viewer's offset, and a client drops every event that is not above its clock.
 */
module LocalFreshness {

  import opened StreamEvents
  import opened LocalCounter
  import Clock = SubscriberClock

  /** The seq the next fallback fans out. */
  function NextLocal(steps: seq<Step>): nat {
    var s := Run(steps + [Hand]);
    if s.handed == [] then 0 else s.handed[|s.handed| - 1]
  }

  /** Above the viewer's clock and everything fallbacks have pushed to it. */
  ghost predicate Fresh(num: nat, v: Clock.View, handed: seq<nat>) {
    v.lastSeq < num && forall i :: 0 <= i < |handed| ==> handed[i] < num
  }

  /**
   The next local seq is new to a viewer, as the counter is seeded for, if and only if something
   seeded or handed out has reached the viewer's clock.
   */
  lemma LocalSeqIsFreshIff(steps: seq<Step>, v: Clock.View)
    ensures Fresh(NextLocal(steps), v, Run(steps).handed) <==> v.lastSeq == 0 || Reached(Run(steps), v.lastSeq)
  {
    assert (steps + [Hand])[..|steps|] == steps;
    LocalSeqIsAboveSeeded(steps);
    hide Run;
    if v.lastSeq > 0 {
      CounterReachesIff(steps, v.lastSeq);
    }
  }

  // ---------------------------------------------------------------------------
  // In terms of what the pump delivered
  // ---------------------------------------------------------------------------

  /** The highest shared seq that reached the pump, 0 if there was none. */
  function Top(script: seq<Clock.Source>): nat {
    if script == [] then 0
    else
      var before := Top(script[..|script| - 1]);
      var num :=
        match script[|script| - 1]
        case Live(e) => e.num
        case Buffered(entries) => Clock.MaxSeq(entries)
        case ReadFailed => 0;
      if before < num then num else before
  }

  lemma BehindRises(v: Clock.View, low: nat, high: nat)
    requires Clock.Behind(v, low) && low <= high
    ensures Clock.Behind(v, high)
  {
  }

  /** On the source's clock a viewer is never past the highest shared seq its pump has seen. */
  lemma {:induction false} RunStaysBehindTop(skipBuffer: bool, script: seq<Clock.Source>)
    ensures Clock.Behind(Clock.Run(Clock.FRESH, skipBuffer, script), Top(script))
  {
    if script != [] {
      hide Clock.Behind, Clock.Step;
      var init, last := script[..|script| - 1], script[|script| - 1];
      RunStaysBehindTop(skipBuffer, init);
      BehindRises(Clock.Run(Clock.FRESH, skipBuffer, init), Top(init), Top(script));
      Clock.StepStaysBehind(Clock.Run(Clock.FRESH, skipBuffer, init), skipBuffer, last, Top(script));
    } else {
      assert Clock.Behind(Clock.FRESH, 0);
    }
  }

  /**
   A seq that reaches the highest delivered one, plus the viewer's offset, always makes the next
   local seq new, and is needed for a viewer that stands at the highest delivered one.
   */
  lemma FreshOnceTopIsReached(steps: seq<Step>, skipBuffer: bool, script: seq<Clock.Source>)
    ensures var v := Clock.Run(Clock.FRESH, skipBuffer, script);
      var isNew := Fresh(NextLocal(steps), v, Run(steps).handed);
      var reached := Reached(Run(steps), Top(script) + v.offset);
      && (reached ==> isNew)
      && (0 < v.lastSeq == Top(script) + v.offset ==> (isNew <==> reached))
  {
    var v := Clock.Run(Clock.FRESH, skipBuffer, script);
    RunStaysBehindTop(skipBuffer, script);
    LocalSeqIsFreshIff(steps, v);
    hide Run, NextLocal, Fresh, Clock.Run, Top;
  }

  /**
   The case the seeding is meant for: a viewer that was never re-based sees a new seq once the
   highest shared seq delivered to it has been seeded.
   */
  lemma SeededViewersSeeNewSeqs(steps: seq<Step>, skipBuffer: bool, script: seq<Clock.Source>)
    requires Clock.Run(Clock.FRESH, skipBuffer, script).offset == 0
    requires Top(script) == 0 || Top(script) in Run(steps).seeded
    ensures Fresh(NextLocal(steps), Clock.Run(Clock.FRESH, skipBuffer, script), Run(steps).handed)
  {
    RunStaysBehindTop(skipBuffer, script);
    LocalSeqIsFreshIff(steps, Clock.Run(Clock.FRESH, skipBuffer, script));
    hide Run, NextLocal, Fresh, Clock.Run, Top;
  }

  // ---------------------------------------------------------------------------
  // Where the promise fails
  // ---------------------------------------------------------------------------

  /** A viewer that caught up from the buffer stands at its last entry. */
  lemma CaughtUp(entries: seq<Event>)
    requires Increasing(entries) && entries != [] && entries[0].num > 0
    ensures var v := Clock.Run(Clock.FRESH, false, [Clock.Buffered(entries)]);
      v.ready && v.offset == 0 && v.lastSeq == entries[|entries| - 1].num
  {
    var script := [Clock.Buffered(entries)];
    assert script[..0] == [];
    assert Clock.Run(Clock.FRESH, false, []) == Clock.FRESH;
    Clock.ReplayStops(Clock.FRESH, entries, false);
    Clock.ReplayReachesEveryEntry(Clock.FRESH, entries, false);
    assert entries[0].num <= entries[|entries| - 1].num;
    Clock.ReplayKeepsCoherent(Clock.FRESH, entries, false);
  }

  /** An event nobody seeded here, as another pod or an earlier stream published it, hides the next local seq. */
  lemma UnseededSeqHidesFallback(steps: seq<Step>, e: Event)
    requires e.num > 0 && !Reached(Run(steps), e.num)
    ensures !Fresh(NextLocal(steps), Clock.Run(Clock.FRESH, false, [Clock.Buffered([e])]), Run(steps).handed)
  {
    CaughtUp([e]);
    LocalSeqIsFreshIff(steps, Clock.Run(Clock.FRESH, false, [Clock.Buffered([e])]));
    hide *;
  }

  /**
   Even when this pod seeded everything it delivered: two or more queued duplicates re-base the
   viewer past every shared seq, and the next local seq is below its clock.
   */
  lemma RebasingHidesFallback(steps: seq<Step>, queued: seq<Event>)
    requires Increasing(queued) && 2 <= |queued| && queued[0].num > 0
    requires !Reached(Run(steps), queued[|queued| - 1].num + 1)
    ensures var v := Clock.Run(Clock.FRESH, false, [Clock.Buffered(queued)] + Clock.Lives(queued));
      && v.offset > 0 && NextLocal(steps) < v.lastSeq
      && !Fresh(NextLocal(steps), v, Run(steps).handed)
  {
    var caughtUp := Clock.Run(Clock.FRESH, false, [Clock.Buffered(queued)]);
    var v := Clock.Run(Clock.FRESH, false, [Clock.Buffered(queued)] + Clock.Lives(queued));
    CaughtUp(queued);
    assert queued[0].num < queued[|queued| - 1].num;
    Clock.RunInTwo(Clock.FRESH, false, [Clock.Buffered(queued)], Clock.Lives(queued));
    Clock.QueuedDuplicatesAreResent(caughtUp, false, queued);
    assert (steps + [Hand])[..|steps|] == steps;
    CounterReachesIff(steps, queued[|queued| - 1].num + 1);
    hide Clock.Run, Clock.Lives, Increasing;
  }

  /** A publisher on goroutine 1 seeds one seq. */
  function Seed(num: nat): seq<Step> {
    [Enter(1, num), Load(1), Swap(1)]
  }

  lemma RunOneMore(steps: seq<Step>, step: Step)
    ensures Run(steps + [step]) == Next(Run(steps), step)
  {
    assert (steps + [step])[..|steps|] == steps;
  }

  lemma SeedAlone(steps: seq<Step>, num: nat)
    requires Run(steps).seeders == map[] && Run(steps).counter < num
    ensures Run(steps + Seed(num)) == Run(steps).(counter := num, seeded := Run(steps).seeded + {num})
  {
    hide Run;
    RunOneMore(steps, Enter(1, num));
    RunOneMore(steps + [Enter(1, num)], Load(1));
    RunOneMore(steps + [Enter(1, num)] + [Load(1)], Swap(1));
    assert steps + [Enter(1, num)] + [Load(1)] + [Swap(1)] == steps + Seed(num);
    assert Run(steps + Seed(num)).seeders == map[];
  }

  lemma SeedsOneAndTwo()
    ensures var s := Run(Seed(1) + Seed(2)); s.seeded == {1, 2} && s.handed == []
  {
    assert Run([]) == START;
    assert [] + Seed(1) == Seed(1);
    hide Run, Seed;
    SeedAlone([], 1);
    SeedAlone(Seed(1), 2);
  }

  /** One pod publishes, seeds and delivers seqs 1 and 2; its next fallback is dropped by the client. */
  lemma SeededEventsHideFallback(first: Message, second: Message)
    ensures var queued := [Event(1, first), Event(2, second)];
      var v := Clock.Run(Clock.FRESH, false, [Clock.Buffered(queued)] + Clock.Lives(queued));
      && Run(Seed(1) + Seed(2)).seeded == {1, 2}
      && !Fresh(NextLocal(Seed(1) + Seed(2)), v, [])
  {
    SeedsOneAndTwo();
    RebasingHidesFallback(Seed(1) + Seed(2), [Event(1, first), Event(2, second)]);
  }
}
