/** The goroutine that retries a session's pending marker: at most one for each marker, and always one. */
module FallbackRetrier {

  import opened Options
  import opened FallbackRecovery

  ghost predicate Starting(s: State, t: nat, id: nat) {
    t in s.publishers && s.publishers[t] == ToStart(id)
  }

  /** A live goroutine retries the marker, or one is about to be started. */
  ghost predicate Tended(s: State, id: nat) {
    (id in s.retriers && !s.retriers[id].Done?) || exists t :: Starting(s, t, id)
  }

  /** Starts are single, and only known markers are ever started or retried. */
  ghost predicate StartsAreSingle(s: State) {
    && (forall t, u, id :: Starting(s, t, id) && Starting(s, u, id) ==> t == u)
    && (forall t, id :: Starting(s, t, id) ==> id in s.watermarks && id !in s.retriers)
    && (forall id :: id in s.retriers ==> id in s.watermarks)
    && (forall id :: s.starts[id] <= 1 && (id in s.starts <==> id in s.retriers))
  }

  ghost predicate Owned(s: State) {
    && (s.current.Some? ==> s.current.value in s.watermarks && Tended(s, s.current.value))
    && StartsAreSingle(s)
  }

  lemma MarkKeepsStarts(s: State, t: nat, newId: nat)
    requires StartsAreSingle(s)
    ensures StartsAreSingle(Next(s, Mark(t, newId)))
  {
    var after := Next(s, Mark(t, newId));
    assert newId !in s.watermarks ==> newId !in s.retriers;
    assert forall u, id :: Starting(after, u, id) ==>
        Starting(s, u, id) || (u == t && id == newId && newId !in s.watermarks);
  }

  lemma StartKeepsStarts(s: State, t: nat)
    requires StartsAreSingle(s)
    ensures StartsAreSingle(Next(s, StartRetrier(t)))
  {
    var after := Next(s, StartRetrier(t));
    if At(s, t).ToStart? {
      var id := At(s, t).id;
      assert Starting(s, t, id);
      assert id !in s.starts;
      assert forall u, k :: Starting(after, u, k) ==> Starting(s, u, k) && u != t;
    }
  }

  lemma FrameKeepsStarts(s: State, after: State)
    requires StartsAreSingle(s) && StartsFramed(s, after)
    ensures StartsAreSingle(after)
  {
  }

  /** Everything a step that neither marks nor starts leaves alone. */
  ghost predicate StartsFramed(s: State, after: State) {
    && (forall t, id :: Starting(after, t, id) ==> Starting(s, t, id))
    && after.retriers.Keys == s.retriers.Keys && after.watermarks == s.watermarks && after.starts == s.starts
  }

  lemma PublisherFramesStarts(s: State, step: Step)
    requires ByPublisher(step) && !step.Mark? && !step.StartRetrier?
    ensures StartsFramed(s, Next(s, step))
  {
    var after := Next(s, step);
    assert s.publishers == after.publishers || after.publishers == s.publishers[step.t := At(after, step.t)];
  }

  lemma RetrierFramesStarts(s: State, step: Step)
    requires !ByPublisher(step)
    ensures StartsFramed(s, Next(s, step))
  {
    assert s.publishers == Next(s, step).publishers;
  }

  lemma NextKeepsStarts(s: State, step: Step)
    requires StartsAreSingle(s)
    ensures StartsAreSingle(Next(s, step))
  {
    hide StartsAreSingle, Next;
    match step
    case Mark(t, newId) => MarkKeepsStarts(s, t, newId);
    case StartRetrier(t) => StartKeepsStarts(s, t);
    case _ =>
      if ByPublisher(step) {
        PublisherFramesStarts(s, step);
      } else {
        RetrierFramesStarts(s, step);
      }
      FrameKeepsStarts(s, Next(s, step));
  }

  lemma RetrierStays(s: State, step: Step, id: nat)
    requires id in s.retriers && !s.retriers[id].Done? && id in s.watermarks
    requires s.current == Next(s, step).current == Some(id)
    ensures id in Next(s, step).retriers && !Next(s, step).retriers[id].Done?
  {
  }

  lemma StarterStays(s: State, step: Step, t: nat, id: nat)
    requires Starting(s, t, id) && step != StartRetrier(t)
    ensures Starting(Next(s, step), t, id)
  {
  }

  lemma NextKeepsTended(s: State, step: Step, id: nat)
    requires Tended(s, id) && s.current == Next(s, step).current == Some(id) && id in s.watermarks
    ensures Tended(Next(s, step), id)
  {
    if id in s.retriers && !s.retriers[id].Done? {
      RetrierStays(s, step, id);
    } else {
      var t :| Starting(s, t, id);
      if step != StartRetrier(t) {
        hide Next;
        StarterStays(s, step, t, id);
      }
    }
  }

  lemma NewMarkerIsTended(s: State, step: Step)
    requires Next(s, step).current.Some? && Next(s, step).current != s.current
    ensures Tended(Next(s, step), Next(s, step).current.value)
  {
    assert Starting(Next(s, step), step.t, Next(s, step).current.value);
  }

  lemma NextKeepsOwned(s: State, step: Step)
    requires Owned(s)
    ensures Owned(Next(s, step))
  {
    hide StartsAreSingle, Tended;
    var after := Next(s, step);
    NextKeepsStarts(s, step);
    NextKeepsKnown(s, step);
    if after.current.Some? {
      if after.current == s.current {
        NextKeepsTended(s, step, after.current.value);
      } else {
        NewMarkerIsTended(s, step);
      }
    }
  }

  /**
   Each marker is retried by at most one goroutine, and the pending marker always has its
   goroutine running or about to start: a retrier never exits while its marker is pending.
   */
  lemma {:induction false} PendingMarkerHasItsRetrier(steps: seq<Step>)
    ensures Owned(Run(START, steps))
  {
    if steps != [] {
      hide Owned, Next;
      PendingMarkerHasItsRetrier(steps[..|steps| - 1]);
      NextKeepsOwned(Run(START, steps[..|steps| - 1]), steps[|steps| - 1]);
    }
  }
}
