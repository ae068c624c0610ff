/**
 Recovery from Redis outages for one session: publishers whose Redis call failed mark the
 session, and the next successful publish or a background retrier announces the marked
 seqs with a resync entry. Each step is one critical section, one atomic access or one Redis call.
 */
module FallbackRecovery {

  import opened Options

  /**
   Where a publishing goroutine stands. ToMark carries the seq the local fan-out assigned (0 if
   nobody received it), the seq to mark, and how many resync entries were committed before the fan-out.
   */
  datatype Publisher =
    | Idle
    | RedisFailed
    | ToMark(num: nat, floor: nat, born: nat)
    | ToStart(id: nat)
    | Published
    | Recovering(minSeq: nat)
    | RecoveryFailed(minSeq: nat)

  /** Where the goroutine retrying one marker stands; a sent watermark knows which entry announced it. */
  datatype Retrier = Looping | GivingUp | Sending(watermark: nat) | Sent(watermark: nat, at: nat) | Done

  /** One fallback that was recorded; dropped once its pending marker was removed unannounced. */
  datatype Loss = Loss(num: nat, born: nat, dropped: bool)

  /**
   current is the session's entry in the fallback map, watermarks the fields of every marker
   object ever allocated. local is the stream's own seq counter, committed the seqs of the
   resync entries Redis accepted, in order, losses the fallbacks recorded, in order.
   */
  datatype State = State(
    current: Option<nat>,
    watermarks: map<nat, nat>,
    retriers: map<nat, Retrier>,
    starts: multiset<nat>,
    publishers: map<nat, Publisher>,
    counter: nat,
    local: nat,
    committed: seq<nat>,
    losses: seq<Loss>)

  const START := State(None, map[], map[], multiset{}, map[], 0, 0, [], [])

  /** Retire removes the session's stream with its counter, Forget its marker; they are separate sections. */
  datatype Step =
    | PublishFails(t: nat)
    | LocalFanOut(t: nat, delivered: bool)
    | Mark(t: nat, newId: nat)
    | StartRetrier(t: nat)
    | PublishSucceeds(t: nat)
    | Take(t: nat)
    | RecoverySucceeds(t: nat)
    | RecoveryFails(t: nat)
    | LocalResync(t: nat, delivered: bool)
    | Look(id: nat, expired: bool)
    | GiveUp(id: nat)
    | SendSucceeds(id: nat)
    | SendFails(id: nat)
    | Confirm(id: nat)
    | Retire
    | Forget
    | SeedLocal(num: nat)
    | RedisMoves(counter: nat)
    | LateCommit(floor: nat)

  function Max(a: nat, b: nat): nat {
    if a < b then b else a
  }

  function At(s: State, t: nat): Publisher {
    if t in s.publishers then s.publishers[t] else Idle
  }

  function Goto(s: State, t: nat, p: Publisher): State {
    s.(publishers := s.publishers[t := p])
  }

  // ---------------------------------------------------------------------------
  // The session's slot in the fallback map
  // ---------------------------------------------------------------------------

  /** The pending watermark. */
  function Slot(s: State): Option<nat> {
    if s.current.Some? && s.current.value in s.watermarks then Some(s.watermarks[s.current.value]) else None
  }

  function MarkedSlot(slot: Option<nat>, floor: nat): Option<nat> {
    Some(if slot.Some? then Max(slot.value, floor) else floor)
  }

  function ConfirmedSlot(slot: Option<nat>, sent: nat): Option<nat> {
    if slot == Some(sent) then None else slot
  }

  // ---------------------------------------------------------------------------
  // Steps
  // ---------------------------------------------------------------------------

  /** Local fan-out: the next local seq if the session has a stream, 0 otherwise; then to the mark. */
  function FanOut(s: State, t: nat, delivered: bool, minSeq: nat): State {
    var num := if delivered then s.local + 1 else 0;
    Goto(s.(local := if delivered then num else s.local), t, ToMark(num, Max(minSeq, num), |s.committed|))
  }

  /** The resync script: the entry's seq is above the floor. */
  function Commit(s: State, floor: nat): State {
    var num := Max(s.counter, floor) + 1;
    s.(counter := num, committed := s.committed + [num])
  }

  function Dropped(losses: seq<Loss>, watermark: nat): (r: seq<Loss>)
    ensures |r| == |losses|
    ensures forall i :: 0 <= i < |r| ==>
              r[i] == if losses[i].num <= watermark then losses[i].(dropped := true) else losses[i]
  {
    seq(|losses|, i requires 0 <= i < |losses| =>
      if losses[i].num <= watermark then losses[i].(dropped := true) else losses[i])
  }

  /** Removes the session's marker for good: what it stood for is dropped. */
  function Abandon(s: State): State {
    if s.current.Some? && s.current.value in s.watermarks then
      s.(current := None, losses := Dropped(s.losses, s.watermarks[s.current.value]))
    else
      s.(current := None)
  }

  function MarkFellBack(s: State, t: nat, p: Publisher, newId: nat): State
    requires p.ToMark?
  {
    var noted := s.(losses := s.losses + [Loss(p.num, p.born, false)]);
    if s.current.Some? && s.current.value in s.watermarks then
      var id := s.current.value;
      Goto(noted.(watermarks := s.watermarks[id := Max(s.watermarks[id], p.floor)]), t, Idle)
    else
      Goto(noted.(current := Some(newId), watermarks := s.watermarks[newId := p.floor]), t, ToStart(newId))
  }

  function Next(s: State, step: Step): State {
    match step
    case PublishFails(t) => if At(s, t).Idle? then Goto(s, t, RedisFailed) else s
    case LocalFanOut(t, delivered) => if At(s, t).RedisFailed? then FanOut(s, t, delivered, 0) else s
    case Mark(t, newId) =>
      if At(s, t).ToMark? && newId !in s.watermarks then MarkFellBack(s, t, At(s, t), newId) else s
    case StartRetrier(t) =>
      if At(s, t).ToStart? then
        var id := At(s, t).id;
        Goto(s.(retriers := s.retriers[id := Looping], starts := s.starts + multiset{id}), t, Idle)
      else s
    case PublishSucceeds(t) => if At(s, t).Idle? then Goto(s.(counter := s.counter + 1), t, Published) else s
    case Take(t) =>
      if !At(s, t).Published? then s
      else if s.current.Some? && s.current.value in s.watermarks then
        Goto(s.(current := None), t, Recovering(s.watermarks[s.current.value]))
      else Goto(s, t, Idle)
    case RecoverySucceeds(t) =>
      if At(s, t).Recovering? then Goto(Commit(s, At(s, t).minSeq), t, Idle) else s
    case RecoveryFails(t) =>
      if At(s, t).Recovering? then Goto(s, t, RecoveryFailed(At(s, t).minSeq)) else s
    case LocalResync(t, delivered) =>
      if At(s, t).RecoveryFailed? then FanOut(s, t, delivered, At(s, t).minSeq) else s
    case Look(id, expired) =>
      if id !in s.retriers || !s.retriers[id].Looping? then s
      else if s.current != Some(id) || id !in s.watermarks then s.(retriers := s.retriers[id := Done])
      else s.(retriers := s.retriers[id := if expired then GivingUp else Sending(s.watermarks[id])])
    case GiveUp(id) =>
      if id !in s.retriers || !s.retriers[id].GivingUp? then s
      else
        var left := s.(retriers := s.retriers[id := Done]);
        if s.current == Some(id) then Abandon(left) else left
    case SendSucceeds(id) =>
      if id in s.retriers && s.retriers[id].Sending? then
        var watermark := s.retriers[id].watermark;
        Commit(s, watermark).(retriers := s.retriers[id := Sent(watermark, |s.committed|)])
      else s
    case SendFails(id) =>
      if id in s.retriers && s.retriers[id].Sending? then s.(retriers := s.retriers[id := Looping]) else s
    case Confirm(id) =>
      if id !in s.retriers || !s.retriers[id].Sent? then s
      else if s.current != Some(id) || id !in s.watermarks then s.(retriers := s.retriers[id := Done])
      else if s.watermarks[id] == s.retriers[id].watermark then
        s.(current := None, retriers := s.retriers[id := Done])
      else s.(retriers := s.retriers[id := Looping])
    case Retire => s.(local := 0)
    case Forget => Abandon(s)
    case SeedLocal(num) => s.(local := Max(s.local, num))
    case RedisMoves(counter) => s.(counter := counter)
    case LateCommit(floor) => Commit(s, floor)
  }

  function Run(s: State, steps: seq<Step>): State {
    if steps == [] then s else Next(Run(s, steps[..|steps| - 1]), steps[|steps| - 1])
  }

  /** How each step that touches the map changes the session's slot. */
  lemma StepsOnTheSlot(s: State, step: Step)
    ensures match step
      case Mark(t, newId) =>
        At(s, t).ToMark? && newId !in s.watermarks ==>
          && Slot(Next(s, step)) == MarkedSlot(Slot(s), At(s, t).floor)
          && (At(Next(s, step), t).ToStart? <==> Slot(s).None?)
      case Take(t) =>
        At(s, t).Published? ==>
          && Slot(Next(s, step)) == None
          && At(Next(s, step), t) == if Slot(s).Some? then Recovering(Slot(s).value) else Idle
      case Confirm(id) =>
        id in s.retriers && s.retriers[id].Sent? && id in s.watermarks ==>
          && Slot(Next(s, step)) ==
             (if s.current == Some(id) then ConfirmedSlot(Slot(s), s.retriers[id].watermark) else Slot(s))
          && (Next(s, step).retriers[id].Looping? <==> s.current == Some(id) && Slot(Next(s, step)).Some?)
      case GiveUp(id) =>
        id in s.retriers && s.retriers[id].GivingUp? ==>
          Slot(Next(s, step)) == if s.current == Some(id) then None else Slot(s)
      case Forget => Slot(Next(s, step)) == None
      case _ => Slot(Next(s, step)) == Slot(s)
  {
  }

  // ---------------------------------------------------------------------------
  // Coverage
  // ---------------------------------------------------------------------------

  /** A seq is held while a goroutine carries it towards a mark or a resync. */
  ghost predicate Holds(p: Publisher, w: nat) {
    match p
    case ToMark(_, floor, _) => w <= floor
    case Recovering(minSeq) => w <= minSeq
    case RecoveryFailed(minSeq) => w <= minSeq
    case _ => false
  }

  ghost predicate Pending(s: State, w: nat) {
    s.current.Some? && s.current.value in s.watermarks && w <= s.watermarks[s.current.value]
  }

  ghost predicate Held(s: State, w: nat) {
    exists t :: t in s.publishers && Holds(s.publishers[t], w)
  }

  /** Some entry from index `from` on lies above the seq. */
  ghost predicate Announced(committed: seq<nat>, from: nat, w: nat) {
    exists i :: from <= i < |committed| && w < committed[i]
  }

  ghost predicate Covered(s: State, w: nat, from: nat) {
    Pending(s, w) || Held(s, w) || Announced(s.committed, from, w)
  }

  ghost predicate Known(s: State) {
    s.current.Some? ==> s.current.value in s.watermarks
  }

  /** A sent watermark was announced by the entry it remembers. */
  ghost predicate SendsAnnounced(s: State) {
    forall id :: id in s.retriers && s.retriers[id].Sent? ==>
      s.retriers[id].at < |s.committed| && s.retriers[id].watermark < s.committed[s.retriers[id].at]
  }

  /** Moving one goroutine keeps everything covered if it lets go of nothing it held. */
  lemma GotoKeepsCovered(s: State, t: nat, p: Publisher, w: nat, from: nat)
    requires Covered(s, w, from) && (Holds(At(s, t), w) ==> Holds(p, w))
    ensures Covered(Goto(s, t, p), w, from)
  {
    if Held(s, w) {
      var u :| u in s.publishers && Holds(s.publishers[u], w);
      assert u in Goto(s, t, p).publishers && Holds(Goto(s, t, p).publishers[u], w);
    }
  }

  lemma CommitAnnounces(s: State, floor: nat, w: nat, from: nat)
    requires w <= floor && from <= |s.committed|
    ensures Announced(Commit(s, floor).committed, from, w)
  {
    assert w < Commit(s, floor).committed[|s.committed|];
  }

  /** Updates that leave the map and the publishers alone and only add entries. */
  lemma RestKeepsCovered(s: State, after: State, w: nat, from: nat)
    requires Covered(s, w, from)
    requires after.current == s.current && after.watermarks == s.watermarks && after.publishers == s.publishers
    requires s.committed <= after.committed
    ensures Covered(after, w, from)
  {
    if Held(s, w) {
      var u :| u in s.publishers && Holds(s.publishers[u], w);
      assert u in after.publishers && Holds(after.publishers[u], w);
    } else if Announced(s.committed, from, w) {
      var i :| from <= i < |s.committed| && w < s.committed[i];
      assert w < after.committed[i];
    }
  }

  /** A removed marker leaves covered what it did not stand for. */
  lemma RemovalKeepsCovered(s: State, after: State, w: nat, from: nat)
    requires Covered(s, w, from) && !Pending(s, w)
    requires after.publishers == s.publishers && after.committed == s.committed
    ensures Covered(after, w, from)
  {
    if Held(s, w) {
      var u :| u in s.publishers && Holds(s.publishers[u], w);
      assert u in after.publishers && Holds(after.publishers[u], w);
    }
  }

  /** Marking covers the new loss and everything the previous watermark or the goroutine covered. */
  lemma MarkKeepsCovered(s: State, t: nat, newId: nat, w: nat, from: nat)
    requires At(s, t).ToMark? && newId !in s.watermarks && Known(s)
    requires Covered(s, w, from) || w <= At(s, t).floor
    ensures Covered(Next(s, Mark(t, newId)), w, from)
  {
    var after := Next(s, Mark(t, newId));
    if w <= At(s, t).floor || Pending(s, w) {
      assert Pending(after, w);
    } else if Held(s, w) {
      var u :| u in s.publishers && Holds(s.publishers[u], w);
      assert u in after.publishers && Holds(after.publishers[u], w);
    }
  }

  /** Consuming the marker hands its watermark to the publisher. */
  lemma TakeKeepsCovered(s: State, t: nat, w: nat, from: nat)
    requires Covered(s, w, from) && At(s, t).Published? && Known(s)
    ensures Covered(Next(s, Take(t)), w, from)
  {
    var after := Next(s, Take(t));
    if Pending(s, w) {
      assert t in after.publishers && Holds(after.publishers[t], w);
    } else if Held(s, w) {
      var u :| u in s.publishers && Holds(s.publishers[u], w);
      assert u in after.publishers && Holds(after.publishers[u], w);
    }
  }

  /** A committed recovery announces what its publisher held. */
  lemma RecoveryKeepsCovered(s: State, t: nat, w: nat, from: nat)
    requires Covered(s, w, from) && At(s, t).Recovering? && from <= |s.committed|
    ensures Covered(Next(s, RecoverySucceeds(t)), w, from)
  {
    var floor := At(s, t).minSeq;
    if w <= floor {
      CommitAnnounces(s, floor, w, from);
    } else {
      RestKeepsCovered(s, Commit(s, floor), w, from);
      GotoKeepsCovered(Commit(s, floor), t, Idle, w, from);
    }
  }

  /**
   A confirmed marker is dropped only when nothing newer was recorded: its watermark is announced
   by the entry sent, which counts unless the loss came after that entry and below the watermark.
   */
  lemma ConfirmKeepsCovered(s: State, id: nat, w: nat, from: nat)
    requires Covered(s, w, from) && SendsAnnounced(s) && id in s.retriers && s.retriers[id].Sent?
    requires from <= s.retriers[id].at || s.retriers[id].watermark < w
    ensures Covered(Next(s, Confirm(id)), w, from)
  {
    var after := Next(s, Confirm(id));
    if after.current == s.current {
      RestKeepsCovered(s, after, w, from);
    } else if Pending(s, w) {
      assert w < after.committed[s.retriers[id].at];
    } else {
      RemovalKeepsCovered(s, after, w, from);
    }
  }

  lemma FanOutKeepsCovered(s: State, t: nat, delivered: bool, minSeq: nat, w: nat, from: nat)
    requires Covered(s, w, from) && (Holds(At(s, t), w) ==> w <= minSeq)
    ensures Covered(FanOut(s, t, delivered, minSeq), w, from)
  {
    var num := if delivered then s.local + 1 else 0;
    var p := ToMark(num, Max(minSeq, num), |s.committed|);
    GotoKeepsCovered(s, t, p, w, from);
    RestKeepsCovered(Goto(s, t, p), FanOut(s, t, delivered, minSeq), w, from);
  }

  predicate ByPublisher(step: Step) {
    match step
    case PublishFails(_) => true
    case LocalFanOut(_, _) => true
    case Mark(_, _) => true
    case StartRetrier(_) => true
    case PublishSucceeds(_) => true
    case Take(_) => true
    case RecoverySucceeds(_) => true
    case RecoveryFails(_) => true
    case LocalResync(_, _) => true
    case _ => false
  }

  lemma PublisherKeepsCovered(s: State, step: Step, w: nat, from: nat)
    requires ByPublisher(step) && Known(s) && Covered(s, w, from) && from <= |s.committed|
    ensures Covered(Next(s, step), w, from)
  {
    hide Covered, FanOut;
    match step
    case PublishFails(t) => if At(s, t).Idle? { GotoKeepsCovered(s, t, RedisFailed, w, from); }
    case LocalFanOut(t, delivered) => if At(s, t).RedisFailed? { FanOutKeepsCovered(s, t, delivered, 0, w, from); }
    case Mark(t, newId) => if At(s, t).ToMark? && newId !in s.watermarks { MarkKeepsCovered(s, t, newId, w, from); }
    case StartRetrier(t) =>
      if At(s, t).ToStart? {
        GotoKeepsCovered(s, t, Idle, w, from);
        RestKeepsCovered(Goto(s, t, Idle), Next(s, step), w, from);
      }
    case PublishSucceeds(t) =>
      if At(s, t).Idle? {
        GotoKeepsCovered(s, t, Published, w, from);
        RestKeepsCovered(Goto(s, t, Published), Next(s, step), w, from);
      }
    case Take(t) => if At(s, t).Published? { TakeKeepsCovered(s, t, w, from); }
    case RecoverySucceeds(t) => if At(s, t).Recovering? { RecoveryKeepsCovered(s, t, w, from); }
    case RecoveryFails(t) =>
      if At(s, t).Recovering? { GotoKeepsCovered(s, t, RecoveryFailed(At(s, t).minSeq), w, from); }
    case LocalResync(t, delivered) =>
      if At(s, t).RecoveryFailed? { FanOutKeepsCovered(s, t, delivered, At(s, t).minSeq, w, from); }
    case _ =>
  }

  /** A step that removes the pending marker without handing it to anybody or announcing it. */
  predicate Removes(s: State, step: Step) {
    || step.Forget?
    || (step.GiveUp? && step.id in s.retriers && s.retriers[step.id].GivingUp? && s.current == Some(step.id))
  }

  lemma RetrierKeepsCovered(s: State, step: Step, w: nat, from: nat)
    requires !ByPublisher(step) && !Removes(s, step) && SendsAnnounced(s) && Covered(s, w, from)
    requires step.Confirm? && step.id in s.retriers && s.retriers[step.id].Sent? ==>
               from <= s.retriers[step.id].at || s.retriers[step.id].watermark < w
    ensures Covered(Next(s, step), w, from)
  {
    hide Covered, SendsAnnounced;
    if step.Confirm? && step.id in s.retriers && s.retriers[step.id].Sent? {
      ConfirmKeepsCovered(s, step.id, w, from);
    } else {
      RestKeepsCovered(s, Next(s, step), w, from);
    }
  }

  // ---------------------------------------------------------------------------
  // The ledger
  // ---------------------------------------------------------------------------

  /** Losses are only appended; a recorded one changes only by being dropped. */
  ghost predicate Keeps(losses: seq<Loss>, after: seq<Loss>) {
    && |losses| <= |after|
    && forall i :: 0 <= i < |losses| ==> after[i] == losses[i] || after[i] == losses[i].(dropped := true)
  }

  lemma RemovalKeepsLedger(s: State)
    ensures |Abandon(s).losses| == |s.losses| && Abandon(s).current == None
    ensures forall i :: 0 <= i < |s.losses| ==>
              Abandon(s).losses[i] == if Pending(s, s.losses[i].num) then s.losses[i].(dropped := true) else s.losses[i]
  {
  }

  lemma OthersKeepLedger(s: State, step: Step)
    requires !Removes(s, step) && !step.Mark?
    ensures Next(s, step).losses == s.losses
  {
  }

  lemma MarkAddsLoss(s: State, t: nat, newId: nat)
    ensures Next(s, Mark(t, newId)).losses ==
            if At(s, t).ToMark? && newId !in s.watermarks
            then s.losses + [Loss(At(s, t).num, At(s, t).born, false)] else s.losses
  {
  }

  /** Only forgetting or giving up a marker drops losses, and only those the removed marker stood for. */
  lemma OnlyRemovalDrops(s: State, step: Step)
    ensures Keeps(s.losses, Next(s, step).losses)
    ensures forall i :: 0 <= i < |s.losses| && !s.losses[i].dropped && Next(s, step).losses[i].dropped ==>
              Removes(s, step) && Pending(s, s.losses[i].num) && Next(s, step).current == None
    ensures !step.Mark? ==> |Next(s, step).losses| == |s.losses|
    ensures forall i :: |s.losses| <= i < |Next(s, step).losses| ==>
              && step.Mark? && At(s, step.t).ToMark?
              && Next(s, step).losses[i] == Loss(At(s, step.t).num, At(s, step.t).born, false)
  {
    if Removes(s, step) {
      var left := if step.GiveUp? then s.(retriers := s.retriers[step.id := Done]) else s;
      RemovalKeepsLedger(left);
    } else if step.Mark? {
      hide Next;
      MarkAddsLoss(s, step.t, step.newId);
    } else {
      hide Next;
      OthersKeepLedger(s, step);
    }
  }

  /** A removal drops everything the marker stood for. */
  lemma RemovalDrops(s: State, step: Step, i: nat)
    requires Removes(s, step) && i < |s.losses| && Pending(s, s.losses[i].num)
    ensures Next(s, step).losses[i].dropped
  {
  }

  /** Each recorded loss was itself dropped, or is pending, held, or announced from a given entry on. */
  ghost predicate LossCovered(s: State, l: Loss, from: nat) {
    l.dropped || Covered(s, l.num, from)
  }

  ghost predicate Safe(s: State) {
    && Known(s) && SendsAnnounced(s)
    && forall i :: 0 <= i < |s.losses| ==> LossCovered(s, s.losses[i], 0)
  }

  lemma NextKeepsSendsAnnounced(s: State, step: Step)
    requires SendsAnnounced(s)
    ensures SendsAnnounced(Next(s, step))
  {
    hide SendsAnnounced;
    if step.SendSucceeds? {
      SendIsAnnounced(s, step.id);
    } else {
      EntriesOnlyAdded(s, step);
      OtherSendsStay(s, step);
      hide Next;
      SendsStayAnnounced(s, Next(s, step));
    }
  }

  lemma EntriesOnlyAdded(s: State, step: Step)
    ensures s.committed <= Next(s, step).committed
  {
  }

  lemma OtherSendsStay(s: State, step: Step)
    requires !step.SendSucceeds?
    ensures forall id :: id in Next(s, step).retriers && Next(s, step).retriers[id].Sent? ==>
              id in s.retriers && s.retriers[id] == Next(s, step).retriers[id]
  {
  }

  lemma SendIsAnnounced(s: State, id: nat)
    requires SendsAnnounced(s)
    ensures SendsAnnounced(Next(s, SendSucceeds(id)))
  {
  }

  lemma SendsStayAnnounced(s: State, after: State)
    requires SendsAnnounced(s) && s.committed <= after.committed
    requires forall id :: id in after.retriers && after.retriers[id].Sent? ==>
               id in s.retriers && s.retriers[id] == after.retriers[id]
    ensures SendsAnnounced(after)
  {
  }

  lemma NextKeepsKnown(s: State, step: Step)
    requires Known(s)
    ensures Known(Next(s, step))
  {
  }

  /** An old loss stays covered, or is dropped by the step. */
  lemma NextKeepsLossCovered(s: State, step: Step, i: nat, from: nat)
    requires Known(s) && SendsAnnounced(s) && i < |s.losses| && LossCovered(s, s.losses[i], from)
    requires from <= |s.committed|
    requires step.Confirm? && step.id in s.retriers && s.retriers[step.id].Sent? ==>
               from <= s.retriers[step.id].at || s.retriers[step.id].watermark < s.losses[i].num
    ensures i < |Next(s, step).losses| && LossCovered(Next(s, step), Next(s, step).losses[i], from)
  {
    OnlyRemovalDrops(s, step);
    var l := s.losses[i];
    if !l.dropped {
      if ByPublisher(step) {
        PublisherKeepsCovered(s, step, l.num, from);
      } else if !Removes(s, step) {
        RetrierKeepsCovered(s, step, l.num, from);
      } else if Pending(s, l.num) {
        RemovalDrops(s, step, i);
      } else {
        hide Covered;
        RemovalKeepsCovered(s, Next(s, step), l.num, from);
      }
    }
  }

  /** A new loss is covered by the watermark. */
  lemma NewLossCovered(s: State, step: Step, i: nat, from: nat)
    requires Known(s) && |s.losses| <= i < |Next(s, step).losses|
    requires step.Mark? && At(s, step.t).ToMark? ==> At(s, step.t).num <= At(s, step.t).floor
    ensures LossCovered(Next(s, step), Next(s, step).losses[i], from)
  {
    OnlyRemovalDrops(s, step);
    hide Covered;
    if step.newId !in s.watermarks {
      MarkKeepsCovered(s, step.t, step.newId, At(s, step.t).num, from);
    }
  }

  /** What a publisher is about to mark is at least the seq it fanned out. */
  ghost predicate FloorsRight(s: State) {
    forall t :: t in s.publishers && s.publishers[t].ToMark? ==> s.publishers[t].num <= s.publishers[t].floor
  }

  lemma NextKeepsFloorsRight(s: State, step: Step)
    requires FloorsRight(s)
    ensures FloorsRight(Next(s, step))
  {
  }

  lemma NextKeepsSafe(s: State, step: Step)
    requires Safe(s) && FloorsRight(s)
    ensures Safe(Next(s, step)) && FloorsRight(Next(s, step))
  {
    NextKeepsKnown(s, step);
    NextKeepsSendsAnnounced(s, step);
    NextKeepsFloorsRight(s, step);
    assert step.Mark? && At(s, step.t).ToMark? ==> At(s, step.t).num <= At(s, step.t).floor;
    hide Known, SendsAnnounced, FloorsRight, LossCovered, Next;
    forall i | 0 <= i < |Next(s, step).losses| ensures LossCovered(Next(s, step), Next(s, step).losses[i], 0) {
      if i < |s.losses| {
        NextKeepsLossCovered(s, step, i, 0);
      } else {
        NewLossCovered(s, step, i, 0);
      }
    }
  }

  /**
   Over every interleaving of publishers, retriers, retirements and Redis failures, each recorded
   fallback stays within the pending marker or a goroutine's hands until a resync entry above it
   is committed, or the very marker that stood for it is given up or retired.
   */
  lemma {:induction false} FallbacksStayCovered(steps: seq<Step>)
    ensures Safe(Run(START, steps)) && FloorsRight(Run(START, steps))
  {
    if steps != [] {
      hide Safe, FloorsRight, Next;
      FallbacksStayCovered(steps[..|steps| - 1]);
      NextKeepsSafe(Run(START, steps[..|steps| - 1]), steps[|steps| - 1]);
    }
  }

  /** Nothing is pending and nobody is busy. */
  ghost predicate IsQuiet(s: State) {
    s.current.None? && forall t :: t in s.publishers ==> s.publishers[t].Idle?
  }

  /** Once nothing is pending, every recorded fallback was announced or itself dropped. */
  lemma QuietMeansAnnouncedOrDropped(steps: seq<Step>, i: nat)
    requires i < |Run(START, steps).losses| && IsQuiet(Run(START, steps))
    ensures var end := Run(START, steps);
      end.losses[i].dropped || Announced(end.committed, 0, end.losses[i].num)
  {
    FallbacksStayCovered(steps);
    assert LossCovered(Run(START, steps), Run(START, steps).losses[i], 0);
  }
}
