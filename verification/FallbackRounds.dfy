/**
 What recovery does when nobody gets in between: the publish that finds a marker, the rounds of the
 retrier, and a whole outage from the first failure to the announcement.
 */
module FallbackRounds {

  import opened Options
  import opened FallbackRecovery

  lemma Two(s: State, a: Step, b: Step)
    ensures Run(s, [a, b]) == Next(Next(s, a), b)
  {
    hide Next;
    assert [a, b][..1] == [a] && [a][..0] == [];
    assert Run(s, []) == s;
    assert Run(s, [a]) == Next(s, a);
  }

  lemma Three(s: State, a: Step, b: Step, c: Step)
    ensures Run(s, [a, b, c]) == Next(Next(Next(s, a), b), c)
  {
    hide Next;
    assert [a, b, c][..2] == [a, b];
    Two(s, a, b);
  }

  /** One more entry: right above the shared counter and the watermark, and the counter follows it. */
  ghost predicate Announces(s: State, after: State, watermark: nat) {
    && after.committed == s.committed + [after.counter]
    && s.counter < after.counter && watermark < after.counter
    && (after.counter == s.counter + 1 || after.counter == watermark + 1)
  }

  // ---------------------------------------------------------------------------
  // The publish path
  // ---------------------------------------------------------------------------

  /** A publish that succeeds takes a seq; one that finds a marker announces its watermark. */
  lemma PublishRecovers(s: State, t: nat, watermark: nat)
    requires At(s, t).Idle? && Slot(s) == Some(watermark)
    ensures var published := Next(s, PublishSucceeds(t));
      var after := Run(published, [Take(t), RecoverySucceeds(t)]);
      && published.counter == s.counter + 1 && Slot(published) == Slot(s)
      && Announces(published, after, watermark)
      && Slot(after) == None && At(after, t).Idle? && after.losses == s.losses
  {
    var published := Next(s, PublishSucceeds(t));
    Two(published, Take(t), RecoverySucceeds(t));
  }

  /** If announcing fails, a local resync takes the next local seq and the watermark is marked again. */
  lemma FailedRecoveryMarksAgain(s: State, t: nat, watermark: nat, delivered: bool, newId: nat)
    requires At(s, t) == Recovering(watermark) && newId !in s.watermarks
    ensures var failed := Run(s, [RecoveryFails(t), LocalResync(t, delivered)]);
      var after := Next(failed, Mark(t, newId));
      && after.local == (if delivered then s.local + 1 else s.local)
      && after.losses == s.losses + [Loss(if delivered then s.local + 1 else 0, |s.committed|, false)]
      && Slot(after).Some? && watermark <= Slot(after).value
      && (delivered ==> s.local + 1 <= Slot(after).value)
      && after.committed == s.committed && after.counter == s.counter
  {
    Two(s, RecoveryFails(t), LocalResync(t, delivered));
    var one := Next(s, RecoveryFails(t));
    assert At(one, t) == RecoveryFailed(watermark);
    var two := Next(one, LocalResync(t, delivered));
    assert At(two, t).ToMark?;
  }

  // ---------------------------------------------------------------------------
  // The retrier
  // ---------------------------------------------------------------------------

  ghost predicate Retrying(s: State, id: nat) {
    id in s.retriers && s.retriers[id].Looping?
  }

  ghost predicate IsDone(s: State, id: nat) {
    id in s.retriers && s.retriers[id].Done?
  }

  ghost predicate IsPending(s: State, id: nat, watermark: nat) {
    s.current == Some(id) && id in s.watermarks && s.watermarks[id] == watermark
  }

  /** An undisturbed round announces the watermark, removes the marker and ends the goroutine. */
  lemma RoundAnnounces(s: State, id: nat, watermark: nat)
    requires Retrying(s, id) && IsPending(s, id, watermark)
    ensures var after := Run(s, [Look(id, false), SendSucceeds(id), Confirm(id)]);
      && Announces(s, after, watermark) && Slot(after) == None && IsDone(after, id)
      && after.losses == s.losses && after.publishers == s.publishers
  {
    Three(s, Look(id, false), SendSucceeds(id), Confirm(id));
    var one := Next(s, Look(id, false));
    assert one.retriers[id] == Sending(watermark);
    var two := Next(one, SendSucceeds(id));
    assert two.retriers[id] == Sent(watermark, |s.committed|);
  }

  /** A failed send changes nothing and leaves the goroutine to its next round. */
  lemma FailedSendTriesAgain(s: State, id: nat, watermark: nat)
    requires Retrying(s, id) && IsPending(s, id, watermark)
    ensures Run(s, [Look(id, false), SendFails(id)]) == s
  {
    Two(s, Look(id, false), SendFails(id));
    var one := Next(s, Look(id, false));
    assert one.retriers[id] == Sending(watermark);
    assert Next(one, SendFails(id)).retriers == s.retriers;
  }

  /** A watermark raised while the entry was in flight calls for another round. */
  lemma RaisedWatermarkTriesAgain(s: State, id: nat, watermark: nat)
    requires id in s.retriers && s.retriers[id].Sent? && IsPending(s, id, watermark)
    requires s.retriers[id].watermark != watermark
    ensures var after := Next(s, Confirm(id));
      Retrying(after, id) && IsPending(after, id, watermark) && after.committed == s.committed
  {
  }

  /** When the deadline has passed, marker and goroutine go, and the losses within the watermark are dropped. */
  lemma ExpiryGivesUp(s: State, id: nat, watermark: nat)
    requires Retrying(s, id) && IsPending(s, id, watermark)
    ensures var after := Run(s, [Look(id, true), GiveUp(id)]);
      && Slot(after) == None && IsDone(after, id) && after.committed == s.committed
      && |after.losses| == |s.losses|
      && forall i :: 0 <= i < |s.losses| ==>
           after.losses[i] == s.losses[i].(dropped := s.losses[i].dropped || s.losses[i].num <= watermark)
  {
    Two(s, Look(id, true), GiveUp(id));
    var one := Next(s, Look(id, true));
    assert one.retriers[id] == GivingUp;
  }

  /** A goroutine whose marker was taken or forgotten ends, whether it looks or confirms. */
  lemma OrphanEnds(s: State, id: nat, expired: bool)
    requires id in s.retriers && s.current != Some(id)
    ensures Retrying(s, id) ==> Next(s, Look(id, expired)) == s.(retriers := s.retriers[id := Done])
    ensures s.retriers[id].Sent? ==> Next(s, Confirm(id)) == s.(retriers := s.retriers[id := Done])
    ensures s.retriers[id].GivingUp? ==> Next(s, GiveUp(id)) == s.(retriers := s.retriers[id := Done])
  {
  }

  // ---------------------------------------------------------------------------
  // A whole outage
  // ---------------------------------------------------------------------------

  /** A failed publish with no marker pending: the event goes to local viewers and is recorded, once. */
  lemma FirstFailureMarks(s: State, t: nat, delivered: bool, newId: nat)
    requires At(s, t).Idle? && s.current == None && newId !in s.watermarks
    ensures var num := if delivered then s.local + 1 else 0;
      var after := Run(s, [PublishFails(t), LocalFanOut(t, delivered), Mark(t, newId)]);
      && IsPending(after, newId, num) && At(after, t) == ToStart(newId)
      && after.losses == s.losses + [Loss(num, |s.committed|, false)]
      && after.local == (if delivered then num else s.local)
      && after.committed == s.committed && after.counter == s.counter && after.retriers == s.retriers
      && after.starts == s.starts
  {
    Three(s, PublishFails(t), LocalFanOut(t, delivered), Mark(t, newId));
    var one := Next(s, PublishFails(t));
    assert At(one, t) == RedisFailed;
    var two := Next(one, LocalFanOut(t, delivered));
    assert At(two, t).ToMark?;
  }

  lemma StartRetries(s: State, t: nat, id: nat, watermark: nat)
    requires At(s, t) == ToStart(id) && IsPending(s, id, watermark)
    ensures var after := Next(s, StartRetrier(t));
      && Retrying(after, id) && IsPending(after, id, watermark) && At(after, t).Idle?
      && after.starts == s.starts + multiset{id}
      && after.committed == s.committed && after.counter == s.counter && after.losses == s.losses
  {
  }

  /**
   An outage on an otherwise idle session: the publish fails, the event goes to the local viewers,
   and the first round after Redis is back announces it with one entry above the event's seq.
   */
  lemma OutageIsAnnounced(s: State, t: nat, delivered: bool, id: nat)
    requires At(s, t).Idle? && s.current == None && id !in s.watermarks
    ensures var num := if delivered then s.local + 1 else 0;
      var failed := Run(s, [PublishFails(t), LocalFanOut(t, delivered), Mark(t, id)]);
      var after := Run(Next(failed, StartRetrier(t)), [Look(id, false), SendSucceeds(id), Confirm(id)]);
      && failed.losses == s.losses + [Loss(num, |s.committed|, false)]
      && Announces(s, after, num) && after.losses == failed.losses
      && Slot(after) == None && At(after, t).Idle? && IsDone(after, id)
  {
    var num := if delivered then s.local + 1 else 0;
    FirstFailureMarks(s, t, delivered, id);
    var failed := Run(s, [PublishFails(t), LocalFanOut(t, delivered), Mark(t, id)]);
    hide Run, Next;
    StartRetries(failed, t, id, num);
    RoundAnnounces(Next(failed, StartRetrier(t)), id, num);
  }

  /** Commits whose answer was lost, and changes of the counter by others, do what they say. */
  lemma OutsideMoves(s: State, floor: nat, counter: nat)
    ensures Announces(s, Next(s, LateCommit(floor)), floor)
    ensures Next(s, RedisMoves(counter)) == s.(counter := counter)
    ensures Next(s, SeedLocal(counter)).local >= counter && Next(s, SeedLocal(counter)).local >= s.local
  {
  }
}
