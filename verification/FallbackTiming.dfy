/**
 Whether recovery comes in time: while the stream lives, a fallback that somebody received is
 announced by an entry committed after its own fan-out.
 */
module FallbackTiming {

  import opened FallbackRecovery

  /** Everything marked or carried came from the stream's own counter. */
  ghost predicate Bounded(s: State) {
    && (forall id :: id in s.watermarks ==> s.watermarks[id] <= s.local)
    && (forall t :: t in s.publishers ==> Carries(s.publishers[t]) <= s.local)
    && (forall id :: id in s.retriers ==> Sends(s.retriers[id]) <= s.local)
  }

  function Carries(p: Publisher): nat {
    match p
    case ToMark(_, floor, _) => floor
    case Recovering(minSeq) => minSeq
    case RecoveryFailed(minSeq) => minSeq
    case _ => 0
  }

  function Sends(r: Retrier): nat {
    match r
    case Sending(watermark) => watermark
    case Sent(watermark, _) => watermark
    case _ => 0
  }

  /** A seq that was fanned out after an entry was sent is above the watermark sent. */
  ghost predicate After(num: nat, born: nat, r: Retrier) {
    num > 0 && r.Sent? && r.at < born ==> r.watermark < num
  }

  ghost predicate InOrder(s: State) {
    && (forall i :: 0 <= i < |s.losses| ==> s.losses[i].born <= |s.committed|)
    && (forall t :: t in s.publishers && s.publishers[t].ToMark? ==> s.publishers[t].born <= |s.committed|)
    && (forall i, id :: 0 <= i < |s.losses| && id in s.retriers ==>
         After(s.losses[i].num, s.losses[i].born, s.retriers[id]))
    && (forall t, id :: t in s.publishers && s.publishers[t].ToMark? && id in s.retriers ==>
         After(s.publishers[t].num, s.publishers[t].born, s.retriers[id]))
  }

  lemma FanOutKeepsBounded(s: State, t: nat, delivered: bool, minSeq: nat)
    requires Bounded(s) && minSeq <= s.local
    ensures Bounded(FanOut(s, t, delivered, minSeq)) && s.local <= FanOut(s, t, delivered, minSeq).local
  {
  }

  lemma MarkKeepsBounded(s: State, t: nat, newId: nat)
    requires Bounded(s)
    ensures Bounded(Next(s, Mark(t, newId))) && s.local <= Next(s, Mark(t, newId)).local
  {
    assert t in s.publishers ==> Carries(s.publishers[t]) <= s.local;
  }

  lemma PublisherKeepsBounded(s: State, step: Step)
    requires Bounded(s) && ByPublisher(step)
    ensures Bounded(Next(s, step)) && s.local <= Next(s, step).local
  {
    match step
    case LocalFanOut(t, delivered) => FanOutKeepsBounded(s, t, delivered, 0);
    case LocalResync(t, delivered) =>
      if At(s, t).RecoveryFailed? {
        assert Carries(s.publishers[t]) <= s.local;
        FanOutKeepsBounded(s, t, delivered, At(s, t).minSeq);
      }
    case Mark(t, newId) => MarkKeepsBounded(s, t, newId);
    case _ =>
  }

  lemma RetrierKeepsBounded(s: State, step: Step)
    requires Bounded(s) && !ByPublisher(step) && !step.Retire?
    ensures Bounded(Next(s, step)) && s.local <= Next(s, step).local
  {
  }

  lemma FanOutKeepsInOrder(s: State, t: nat, delivered: bool, minSeq: nat)
    requires InOrder(s) && Bounded(s)
    ensures InOrder(FanOut(s, t, delivered, minSeq))
  {
    assert forall id :: id in s.retriers ==> Sends(s.retriers[id]) <= s.local;
  }

  lemma MarkKeepsInOrder(s: State, t: nat, newId: nat)
    requires InOrder(s)
    ensures InOrder(Next(s, Mark(t, newId)))
  {
    assert At(s, t).ToMark? ==> t in s.publishers;
  }

  lemma SendKeepsInOrder(s: State, id: nat)
    requires InOrder(s)
    ensures InOrder(Next(s, SendSucceeds(id)))
  {
  }

  /** Losses, marks under way and sends stay what they were, or go. */
  ghost predicate OrderFramed(s: State, after: State) {
    && |after.losses| == |s.losses| && |s.committed| <= |after.committed|
    && (forall i :: 0 <= i < |s.losses| ==>
         after.losses[i].num == s.losses[i].num && after.losses[i].born == s.losses[i].born)
    && (forall t :: t in after.publishers && after.publishers[t].ToMark? ==>
         t in s.publishers && s.publishers[t] == after.publishers[t])
    && (forall id :: id in after.retriers && after.retriers[id].Sent? ==>
         id in s.retriers && s.retriers[id] == after.retriers[id])
  }

  lemma FrameKeepsInOrder(s: State, after: State)
    requires InOrder(s) && OrderFramed(s, after)
    ensures InOrder(after)
  {
  }

  lemma OtherMarksStay(s: State, step: Step)
    requires !step.LocalFanOut? && !step.LocalResync?
    ensures var after := Next(s, step);
      forall t :: t in after.publishers && after.publishers[t].ToMark? ==>
        t in s.publishers && s.publishers[t] == after.publishers[t]
  {
  }

  lemma OthersFrameOrder(s: State, step: Step)
    requires !step.LocalFanOut? && !step.LocalResync? && !step.Mark? && !step.SendSucceeds?
    ensures OrderFramed(s, Next(s, step))
  {
    hide Next;
    OtherMarksStay(s, step);
    OtherSendsStay(s, step);
    EntriesOnlyAdded(s, step);
    OnlyRemovalDrops(s, step);
  }

  lemma NextKeepsInOrder(s: State, step: Step)
    requires InOrder(s) && Bounded(s)
    ensures InOrder(Next(s, step))
  {
    match step
    case LocalFanOut(t, delivered) => FanOutKeepsInOrder(s, t, delivered, 0);
    case LocalResync(t, delivered) =>
      if At(s, t).RecoveryFailed? { FanOutKeepsInOrder(s, t, delivered, At(s, t).minSeq); }
    case Mark(t, newId) => MarkKeepsInOrder(s, t, newId);
    case SendSucceeds(id) => SendKeepsInOrder(s, id);
    case _ =>
      hide InOrder, Next;
      OthersFrameOrder(s, step);
      FrameKeepsInOrder(s, Next(s, step));
  }

  /** Every loss that somebody received is covered by entries committed since its fan-out. */
  ghost predicate Timely(s: State) {
    forall i :: 0 <= i < |s.losses| && s.losses[i].num > 0 ==> LossCovered(s, s.losses[i], s.losses[i].born)
  }

  lemma ConfirmIsInTime(s: State, step: Step, i: nat)
    requires InOrder(s) && i < |s.losses| && s.losses[i].num > 0
    ensures s.losses[i].born <= |s.committed|
    ensures step.Confirm? && step.id in s.retriers && s.retriers[step.id].Sent? ==>
              s.losses[i].born <= s.retriers[step.id].at || s.retriers[step.id].watermark < s.losses[i].num
  {
    if step.Confirm? && step.id in s.retriers {
      assert After(s.losses[i].num, s.losses[i].born, s.retriers[step.id]);
    }
  }

  lemma NextKeepsTimely(s: State, step: Step)
    requires Safe(s) && FloorsRight(s) && InOrder(s) && Timely(s)
    ensures Timely(Next(s, step))
  {
    OnlyRemovalDrops(s, step);
    assert step.Mark? && At(s, step.t).ToMark? ==> At(s, step.t).num <= At(s, step.t).floor;
    hide Known, SendsAnnounced, FloorsRight, LossCovered, InOrder, Next, Pending;
    var after := Next(s, step);
    forall i | 0 <= i < |after.losses| && after.losses[i].num > 0
      ensures LossCovered(after, after.losses[i], after.losses[i].born)
    {
      if i < |s.losses| {
        ConfirmIsInTime(s, step, i);
        NextKeepsLossCovered(s, step, i, s.losses[i].born);
      } else {
        NewLossCovered(s, step, i, after.losses[i].born);
      }
    }
  }

  ghost predicate AllInTime(s: State) {
    Safe(s) && FloorsRight(s) && Bounded(s) && InOrder(s) && Timely(s)
  }

  lemma NextKeepsAllInTime(s: State, step: Step)
    requires AllInTime(s) && !step.Retire?
    ensures AllInTime(Next(s, step))
  {
    hide Safe, FloorsRight, Bounded, InOrder, Timely, Next;
    NextKeepsSafe(s, step);
    NextKeepsTimely(s, step);
    NextKeepsInOrder(s, step);
    if ByPublisher(step) {
      PublisherKeepsBounded(s, step);
    } else {
      RetrierKeepsBounded(s, step);
    }
  }

  /**
   As long as the stream lives, a fallback that somebody received is announced by an entry
   committed after its fan-out, unless it is still under way or given up.
   */
  lemma {:induction false} FallbacksAreAnnouncedInTime(steps: seq<Step>)
    requires Retire !in steps
    ensures AllInTime(Run(START, steps))
  {
    if steps != [] {
      hide AllInTime, Next;
      FallbacksAreAnnouncedInTime(steps[..|steps| - 1]);
      NextKeepsAllInTime(Run(START, steps[..|steps| - 1]), steps[|steps| - 1]);
    }
  }

  lemma QuietMeansAnnouncedInTime(steps: seq<Step>, i: nat)
    requires Retire !in steps && i < |Run(START, steps).losses| && IsQuiet(Run(START, steps))
    ensures var end := Run(START, steps);
      var l := end.losses[i];
      l.num > 0 ==> l.dropped || Announced(end.committed, l.born, l.num)
  {
    FallbacksAreAnnouncedInTime(steps);
    assert Run(START, steps).losses[i].num > 0 ==>
        LossCovered(Run(START, steps), Run(START, steps).losses[i], Run(START, steps).losses[i].born);
  }
}
