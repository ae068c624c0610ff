/**
 When recovery does not come in time: the exact step at which a recorded fallback is let go
 although nothing committed since its fan-out announces it, and two families of runs that get there.
 */
module FallbackMisses {

  import opened Options
  import opened FallbackRecovery
  import Timing = FallbackTiming

  // ---------------------------------------------------------------------------
  // The exact condition
  // ---------------------------------------------------------------------------

  /**
   The confirmation that removes the pending marker while the loss is within its watermark and in
   nobody's hands, and no entry from index `from` on is above it.
   */
  ghost predicate LetsGo(s: State, step: Step, l: Loss, from: nat) {
    && step.Confirm? && step.id in s.retriers && s.retriers[step.id].Sent?
    && s.current == Some(step.id) && step.id in s.watermarks
    && s.watermarks[step.id] == s.retriers[step.id].watermark
    && l.num <= s.watermarks[step.id]
    && !l.dropped && !Held(s, l.num) && !Announced(s.committed, from, l.num)
  }

  lemma HandsStay(s: State, after: State, num: nat)
    requires after.publishers == s.publishers
    ensures Held(after, num) <==> Held(s, num)
  {
    if Held(s, num) {
      var t :| t in s.publishers && Holds(s.publishers[t], num);
      assert t in after.publishers && Holds(after.publishers[t], num);
    }
    if Held(after, num) {
      var t :| t in after.publishers && Holds(after.publishers[t], num);
      assert t in s.publishers && Holds(s.publishers[t], num);
    }
  }

  /** The confirmation removes the marker and leaves hands and entries as they were. */
  lemma LettingGoUncovers(s: State, step: Step, l: Loss, from: nat)
    requires LetsGo(s, step, l, from)
    ensures !LossCovered(Next(s, step), l, from)
  {
    var after := Next(s, step);
    assert after.publishers == s.publishers && after.committed == s.committed && after.current == None;
    hide Next;
    HandsStay(s, after, l.num);
  }

  /** A confirmation that does not let go keeps the loss covered, wherever the entry sent stands. */
  lemma OtherConfirmsKeepCovered(s: State, step: Step, l: Loss, from: nat)
    requires Known(s) && step.Confirm? && LossCovered(s, l, from) && !LetsGo(s, step, l, from)
    ensures LossCovered(Next(s, step), l, from)
  {
    if !l.dropped {
      var after := Next(s, step);
      if after.current == s.current {
        RestKeepsCovered(s, after, l.num, from);
      } else if Pending(s, l.num) {
        assert Held(s, l.num) || Announced(s.committed, from, l.num);
        HandsStay(s, after, l.num);
      } else {
        RemovalKeepsCovered(s, after, l.num, from);
      }
    }
  }

  /** In every state, a step leaves a covered loss neither covered nor dropped exactly if it lets go of it. */
  lemma LossIsLeftIffLetGo(s: State, step: Step, i: nat, from: nat)
    requires Known(s) && SendsAnnounced(s) && i < |s.losses|
    requires LossCovered(s, s.losses[i], from) && from <= |s.committed|
    ensures i < |Next(s, step).losses|
    ensures !LossCovered(Next(s, step), Next(s, step).losses[i], from) <==> LetsGo(s, step, s.losses[i], from)
  {
    OnlyRemovalDrops(s, step);
    hide Known, SendsAnnounced, LossCovered, Next;
    if step.Confirm? {
      OthersKeepLedger(s, step);
      if LetsGo(s, step, s.losses[i], from) {
        LettingGoUncovers(s, step, s.losses[i], from);
      } else {
        OtherConfirmsKeepCovered(s, step, s.losses[i], from);
      }
    } else {
      NextKeepsLossCovered(s, step, i, from);
    }
  }

  // ---------------------------------------------------------------------------
  // Over whole runs
  // ---------------------------------------------------------------------------

  /** Every loss is dropped, pending, held, or announced since its own fan-out. */
  ghost predicate EachInTime(s: State) {
    forall i :: 0 <= i < |s.losses| ==> LossCovered(s, s.losses[i], s.losses[i].born)
  }

  /** The step lets go of no loss that still waits for an entry. */
  ghost predicate KeepsAll(s: State, step: Step) {
    forall i :: 0 <= i < |s.losses| ==> !LetsGo(s, step, s.losses[i], s.losses[i].born)
  }

  ghost predicate AlwaysInTime(steps: seq<Step>) {
    forall k :: 0 <= k <= |steps| ==> EachInTime(Run(START, steps[..k]))
  }

  ghost predicate NeverLetsGo(steps: seq<Step>) {
    forall k :: 0 <= k < |steps| ==> KeepsAll(Run(START, steps[..k]), steps[k])
  }

  /** Fan-outs, and the losses they lead to, know entries already committed. */
  ghost predicate BornRight(s: State) {
    && (forall i :: 0 <= i < |s.losses| ==> s.losses[i].born <= |s.committed|)
    && (forall t :: t in s.publishers && s.publishers[t].ToMark? ==> s.publishers[t].born <= |s.committed|)
  }

  lemma FanOutKeepsBornRight(s: State, t: nat, delivered: bool, minSeq: nat)
    requires BornRight(s)
    ensures BornRight(FanOut(s, t, delivered, minSeq))
  {
  }

  lemma MarkKeepsBornRight(s: State, t: nat, newId: nat)
    requires BornRight(s)
    ensures BornRight(Next(s, Mark(t, newId)))
  {
  }

  lemma FrameKeepsBornRight(s: State, after: State)
    requires BornRight(s) && Timing.OrderFramed(s, after)
    ensures BornRight(after)
  {
  }

  lemma NextKeepsBornRight(s: State, step: Step)
    requires BornRight(s)
    ensures BornRight(Next(s, step))
  {
    hide BornRight;
    match step
    case LocalFanOut(t, delivered) =>
      if At(s, t).RedisFailed? { FanOutKeepsBornRight(s, t, delivered, 0); }
    case LocalResync(t, delivered) =>
      if At(s, t).RecoveryFailed? { FanOutKeepsBornRight(s, t, delivered, At(s, t).minSeq); }
    case Mark(t, newId) => MarkKeepsBornRight(s, t, newId);
    case SendSucceeds(id) => SendKeepsBornRight(s, id);
    case _ =>
      hide Next;
      Timing.OthersFrameOrder(s, step);
      FrameKeepsBornRight(s, Next(s, step));
  }

  lemma SendKeepsBornRight(s: State, id: nat)
    requires BornRight(s)
    ensures BornRight(Next(s, SendSucceeds(id)))
  {
  }

  /** From a state in time, a step stays in time exactly if it lets go of nothing. */
  lemma StaysInTimeIff(s: State, step: Step)
    requires Safe(s) && FloorsRight(s) && BornRight(s) && EachInTime(s)
    ensures EachInTime(Next(s, step)) <==> KeepsAll(s, step)
  {
    var after := Next(s, step);
    OnlyRemovalDrops(s, step);
    assert step.Mark? && At(s, step.t).ToMark? ==> At(s, step.t).num <= At(s, step.t).floor;
    hide Known, SendsAnnounced, FloorsRight, LossCovered, LetsGo, Next;
    forall i | 0 <= i < |after.losses|
      ensures !LossCovered(after, after.losses[i], after.losses[i].born) <==>
              i < |s.losses| && LetsGo(s, step, s.losses[i], s.losses[i].born)
    {
      if i < |s.losses| {
        LossIsLeftIffLetGo(s, step, i, s.losses[i].born);
      } else {
        NewLossCovered(s, step, i, after.losses[i].born);
      }
    }
  }

  lemma {:induction false} RunStaysBornRight(steps: seq<Step>)
    ensures BornRight(Run(START, steps))
  {
    if steps != [] {
      hide BornRight, Next;
      RunStaysBornRight(steps[..|steps| - 1]);
      NextKeepsBornRight(Run(START, steps[..|steps| - 1]), steps[|steps| - 1]);
    }
  }

  lemma InTimeUpTo(steps: seq<Step>)
    requires steps != []
    ensures AlwaysInTime(steps) <==> AlwaysInTime(steps[..|steps| - 1]) && EachInTime(Run(START, steps))
  {
    hide EachInTime, Run;
    var init := steps[..|steps| - 1];
    assert forall k :: 0 <= k < |steps| ==> init[..k] == steps[..k];
    assert steps[..|steps|] == steps;
  }

  lemma NeverLetGoUpTo(steps: seq<Step>)
    requires steps != []
    ensures NeverLetsGo(steps) <==>
            NeverLetsGo(steps[..|steps| - 1]) && KeepsAll(Run(START, steps[..|steps| - 1]), steps[|steps| - 1])
  {
    hide KeepsAll, Run;
    var init := steps[..|steps| - 1];
    assert forall k :: 0 <= k < |steps| ==> init[..k] == steps[..k];
    assert forall k :: 0 <= k < |init| ==> init[k] == steps[k];
  }

  /**
   Over every run, retirements and seq 0 included: all recorded fallbacks are at all times
   announced since their own fan-out, under way or dropped with their marker, if and only if no
   confirmation lets go of one.
   */
  lemma {:induction false} AlwaysInTimeIffNeverLetGo(steps: seq<Step>)
    ensures AlwaysInTime(steps) <==> NeverLetsGo(steps)
  {
    if steps == [] {
      assert EachInTime(Run(START, steps[..0]));
    } else {
      var init := steps[..|steps| - 1];
      hide AlwaysInTime, NeverLetsGo, EachInTime, KeepsAll, Safe, FloorsRight, BornRight, Next;
      AlwaysInTimeIffNeverLetGo(init);
      InTimeUpTo(steps);
      NeverLetGoUpTo(steps);
      FallbacksStayCovered(init);
      RunStaysBornRight(init);
      if AlwaysInTime(init) {
        InTimeNow(init);
        StaysInTimeIff(Run(START, init), steps[|steps| - 1]);
      }
    }
  }

  lemma InTimeNow(steps: seq<Step>)
    requires AlwaysInTime(steps)
    ensures EachInTime(Run(START, steps))
  {
    assert steps[..|steps|] == steps;
  }

  /** While the stream lives, only losses that nobody here received are let go. */
  lemma OnlyZeroSeqsAreLetGo(steps: seq<Step>, step: Step, i: nat)
    requires Retire !in steps && step != Retire && i < |Run(START, steps).losses|
    requires var l := Run(START, steps).losses[i]; LetsGo(Run(START, steps), step, l, l.born)
    ensures Run(START, steps).losses[i].num == 0
  {
    var s := Run(START, steps);
    var l := s.losses[i];
    assert (steps + [step])[..|steps|] == steps;
    Timing.FallbacksAreAnnouncedInTime(steps + [step]);
    OthersKeepLedger(s, step);
    LettingGoUncovers(s, step, l, l.born);
    assert Timing.Timely(Next(s, step));
    hide Run, Next, LetsGo, LossCovered, Safe, FloorsRight, Timing.Bounded, Timing.InOrder;
    assert Next(s, step).losses[i] == l;
  }

  // ---------------------------------------------------------------------------
  // Runs that let go
  // ---------------------------------------------------------------------------

  /** The last loss, with the given seq, is not dropped, pending, held, or announced since its fan-out. */
  ghost predicate LastIsMissed(s: State, num: nat) {
    && s.losses != []
    && var l := s.losses[|s.losses| - 1];
      l.num == num && !LossCovered(s, l, l.born)
  }

  ghost predicate AllIdle(s: State) {
    forall t :: t in s.publishers ==> s.publishers[t].Idle?
  }

  /** What a fallback at t does while everybody else is idle and the session's marker is pending. */
  function FellBack(s: State, t: nat, delivered: bool, newId: nat): State {
    Next(Next(Next(s, PublishFails(t)), LocalFanOut(t, delivered)), Mark(t, newId))
  }

  lemma FallbackEffect(s: State, t: nat, delivered: bool, newId: nat, id: nat)
    requires AllIdle(s) && s.current == Some(id) && id in s.watermarks && newId !in s.watermarks
    ensures var num := if delivered then s.local + 1 else 0;
      var after := FellBack(s, t, delivered, newId);
      && AllIdle(after) && after.current == s.current && after.retriers == s.retriers && after.committed == s.committed
      && after.losses == s.losses + [Loss(num, |s.committed|, false)]
      && after.watermarks == s.watermarks[id := Max(s.watermarks[id], num)]
  {
    var one := Next(s, PublishFails(t));
    var two := Next(one, LocalFanOut(t, delivered));
    assert At(s, t).Idle? && At(one, t) == RedisFailed;
    assert At(two, t).ToMark?;
  }

  /**
   A fallback fanned out between a send and its confirmation is missed if its seq is not above
   the watermark sent: the marker goes, and no entry follows.
   */
  lemma FallbackAtConfirmIsMissed(s: State, t: nat, delivered: bool, newId: nat, id: nat)
    requires AllIdle(s) && s.current == Some(id) && id in s.watermarks && newId !in s.watermarks
    requires id in s.retriers && s.retriers[id].Sent? && s.retriers[id].watermark == s.watermarks[id]
    requires (if delivered then s.local + 1 else 0) <= s.watermarks[id]
    ensures LastIsMissed(Next(FellBack(s, t, delivered, newId), Confirm(id)), if delivered then s.local + 1 else 0)
  {
    FallbackEffect(s, t, delivered, newId, id);
    hide FellBack;
    var after := FellBack(s, t, delivered, newId);
    assert after.watermarks[id] == s.watermarks[id];
  }

  lemma RunOneMore(steps: seq<Step>, step: Step)
    ensures Run(START, steps + [step]) == Next(Run(START, steps), step)
  {
    assert (steps + [step])[..|steps|] == steps;
  }

  lemma RunThreeMore(steps: seq<Step>, a: Step, b: Step, c: Step)
    ensures Run(START, steps + [a, b, c]) == Next(Next(Next(Run(START, steps), a), b), c)
  {
    hide Run, Next;
    RunOneMore(steps, a);
    RunOneMore(steps + [a], b);
    RunOneMore(steps + [a] + [b], c);
    assert steps + [a] + [b] + [c] == steps + [a, b, c];
  }

  /** A publisher's fallback up to its mark. */
  function Fallback(t: nat, delivered: bool, id: nat): seq<Step> {
    [PublishFails(t), LocalFanOut(t, delivered), Mark(t, id)]
  }

  lemma RunFallback(steps: seq<Step>, t: nat, delivered: bool, id: nat)
    ensures Run(START, steps + Fallback(t, delivered, id)) ==
            Next(Next(Next(Run(START, steps), PublishFails(t)), LocalFanOut(t, delivered)), Mark(t, id))
  {
    RunThreeMore(steps, PublishFails(t), LocalFanOut(t, delivered), Mark(t, id));
  }

  /** The first fallback of a session, its marker sent by the retrier. */
  function Sent1(s: State, t: nat, id: nat): State {
    Next(Next(Next(s, StartRetrier(t)), Look(id, false)), SendSucceeds(id))
  }

  lemma SentEffect(s: State, t: nat, id: nat)
    requires t in s.publishers && s.publishers[t] == ToStart(id)
    requires forall u :: u in s.publishers && u != t ==> s.publishers[u].Idle?
    requires s.current == Some(id) && id in s.watermarks
    ensures var after := Sent1(s, t, id);
      && AllIdle(after) && after.current == s.current && after.watermarks == s.watermarks && after.local == s.local
      && id in after.retriers && after.retriers[id] == Sent(s.watermarks[id], |s.committed|)
  {
    var one := Next(s, StartRetrier(t));
    var two := Next(one, Look(id, false));
    assert one.retriers[id] == Looping && two.retriers[id] == Sending(s.watermarks[id]);
  }

  lemma RunSent(steps: seq<Step>, t: nat, id: nat)
    ensures Run(START, steps + [StartRetrier(t), Look(id, false), SendSucceeds(id)]) == Sent1(Run(START, steps), t, id)
  {
    hide Next, Run;
    RunThreeMore(steps, StartRetrier(t), Look(id, false), SendSucceeds(id));
  }

  /** The session's first marker waits for its retrier to be started; all others are idle. */
  ghost predicate MarkerWaits(s: State, t: nat, id: nat) {
    && t in s.publishers && s.publishers[t] == ToStart(id) && s.current == Some(id) && s.watermarks.Keys == {id}
    && forall u :: u in s.publishers && u != t ==> s.publishers[u].Idle?
  }

  /** The marker of t is sent, a second fallback comes at u, and the retrier confirms. */
  function SentTooEarly(steps: seq<Step>, t: nat, id: nat, u: nat, delivered: bool, newId: nat): seq<Step> {
    steps + [StartRetrier(t), Look(id, false), SendSucceeds(id)] + Fallback(u, delivered, newId) + [Confirm(id)]
  }

  lemma MissedAfterSend(s: State, t: nat, id: nat, u: nat, delivered: bool, newId: nat)
    requires MarkerWaits(s, t, id) && newId != id && (if delivered then s.local + 1 else 0) <= s.watermarks[id]
    ensures LastIsMissed(Next(FellBack(Sent1(s, t, id), u, delivered, newId), Confirm(id)),
              if delivered then s.local + 1 else 0)
  {
    SentEffect(s, t, id);
    hide Sent1, FellBack, AllIdle, LastIsMissed;
    FallbackAtConfirmIsMissed(Sent1(s, t, id), u, delivered, newId, id);
  }

  lemma RunTooEarly(steps: seq<Step>, t: nat, id: nat, u: nat, delivered: bool, newId: nat)
    ensures Run(START, SentTooEarly(steps, t, id, u, delivered, newId)) ==
            Next(FellBack(Sent1(Run(START, steps), t, id), u, delivered, newId), Confirm(id))
  {
    hide Run, Next, Fallback, Sent1;
    var sent := steps + [StartRetrier(t), Look(id, false), SendSucceeds(id)];
    RunSent(steps, t, id);
    RunFallback(sent, u, delivered, newId);
    RunOneMore(sent + Fallback(u, delivered, newId), Confirm(id));
  }

  lemma SecondFallbackIsMissed(steps: seq<Step>, t: nat, id: nat, u: nat, delivered: bool, newId: nat)
    requires var s := Run(START, steps);
      MarkerWaits(s, t, id) && newId != id && (if delivered then s.local + 1 else 0) <= s.watermarks[id]
    ensures LastIsMissed(Run(START, SentTooEarly(steps, t, id, u, delivered, newId)),
              if delivered then Run(START, steps).local + 1 else 0)
  {
    hide *;
    RunTooEarly(steps, t, id, u, delivered, newId);
    MissedAfterSend(Run(START, steps), t, id, u, delivered, newId);
  }

  lemma FirstFallback(s: State, t: nat, delivered: bool, id: nat)
    requires s.publishers == map[] && s.current == None && s.watermarks == map[]
    ensures var after := FellBack(s, t, delivered, id);
      && MarkerWaits(after, t, id) && after.local == (if delivered then s.local + 1 else s.local)
      && after.watermarks[id] == if delivered then s.local + 1 else 0
  {
    var one := Next(s, PublishFails(t));
    var two := Next(one, LocalFanOut(t, delivered));
    assert At(one, t) == RedisFailed && At(two, t).ToMark?;
  }

  /** Nobody receives either event: the second loss, of seq 0, is confirmed away with the first. */
  lemma ZeroSeqIsMissed(t: nat, id: nat, u: nat, newId: nat)
    requires newId != id
    ensures LastIsMissed(Run(START, SentTooEarly(Fallback(t, false, id), t, id, u, false, newId)), 0)
  {
    hide Run, SentTooEarly, LastIsMissed, Fallback, Next;
    RunNothing();
    RunFallback([], t, false, id);
    FirstFallback(START, t, false, id);
    assert [] + Fallback(t, false, id) == Fallback(t, false, id);
    SecondFallbackIsMissed(Fallback(t, false, id), t, id, u, false, newId);
  }

  lemma RunNothing()
    ensures Run(START, []) == START
  {
  }

  /** A fallback at t with seq num + 1, marked only after the retirement of its stream; the next one counts from 0. */
  function Retired(num: nat, t: nat, id: nat): seq<Step> {
    [SeedLocal(num), PublishFails(t), LocalFanOut(t, true)] + [Retire, Forget, Mark(t, id)]
  }

  lemma FailsAfterSeed(num: nat, t: nat)
    ensures var s := Next(Next(Next(START, SeedLocal(num)), PublishFails(t)), LocalFanOut(t, true));
      s == START.(local := num + 1, publishers := s.publishers) && s.publishers == map[t := ToMark(num + 1, num + 1, 0)]
  {
    var one := Next(START, SeedLocal(num));
    var two := Next(one, PublishFails(t));
    assert one == START.(local := num) && two.publishers == map[t := RedisFailed];
    assert At(two, t) == RedisFailed;
  }

  lemma MarkAfterRetirement(s: State, num: nat, t: nat, id: nat)
    requires s.publishers == map[t := ToMark(num + 1, num + 1, 0)] && s.current == None && s.watermarks == map[]
    ensures var after := Next(Next(Next(s, Retire), Forget), Mark(t, id));
      MarkerWaits(after, t, id) && after.watermarks[id] == num + 1 && after.local == 0
  {
    var five := Next(Next(s, Retire), Forget);
    assert five == s.(local := 0);
    assert At(five, t) == ToMark(num + 1, num + 1, 0);
  }

  lemma RunRetired(num: nat, t: nat, id: nat)
    ensures var s := Run(START, Retired(num, t, id));
      MarkerWaits(s, t, id) && s.watermarks[id] == num + 1 && s.local == 0
  {
    hide Run, Next, MarkerWaits;
    RunNothing();
    RunThreeMore([], SeedLocal(num), PublishFails(t), LocalFanOut(t, true));
    assert [] + [SeedLocal(num), PublishFails(t), LocalFanOut(t, true)]
        == [SeedLocal(num), PublishFails(t), LocalFanOut(t, true)];
    RunThreeMore([SeedLocal(num), PublishFails(t), LocalFanOut(t, true)], Retire, Forget, Mark(t, id));
    FailsAfterSeed(num, t);
    MarkAfterRetirement(Next(Next(Next(START, SeedLocal(num)), PublishFails(t)), LocalFanOut(t, true)), num, t, id);
  }

  /** A mark from before the retirement outweighs the next stream's first seq, 1, which is missed. */
  lemma RetirementMisses(num: nat, t: nat, id: nat, u: nat, newId: nat)
    requires newId != id
    ensures Run(START, Retired(num, t, id)).local == 0
    ensures LastIsMissed(Run(START, SentTooEarly(Retired(num, t, id), t, id, u, true, newId)), 1)
  {
    RunRetired(num, t, id);
    hide *;
    assert Run(START, Retired(num, t, id)).local + 1 == 1;
    SecondFallbackIsMissed(Retired(num, t, id), t, id, u, true, newId);
  }
}
