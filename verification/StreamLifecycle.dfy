/**
 Creation and retirement of one session's streams: subscribers joining and leaving, grace
 timers that may fire late, and the retirement they trigger. Each step is one critical
 section of the manager's or the stream's lock.
 */
module StreamLifecycle {

  import opened Options

  /** pumps counts the pump goroutines ever started; pumpSet is pumpCancel != nil. */
  datatype Stream = Stream(subs: set<nat>, cleanup: Option<nat>, pumpSet: bool, dead: bool, pumps: nat)

  const NEW_STREAM := Stream({}, None, false, false, 0)

  datatype Phase = Armed | Fired | Spent

  datatype Timer = Timer(stream: nat, phase: Phase)

  /** A Subscribe call between its two critical sections, or the subscriber it registered. */
  datatype Subscriber = Looked(stream: nat) | Joined(stream: nat)

  /** An unsubscribe call that emptied its stream, before and after its second section. */
  datatype Leaver = Arming(stream: nat) | Finished

  /**
   mapped is the session's entry in the manager's map. closings counts the closes of each
   subscriber's channel; late collects subscribers pushed to after their channel closed.
   */
  datatype State = State(
    mapped: Option<nat>,
    streams: map<nat, Stream>,
    timers: map<nat, Timer>,
    subscribers: map<nat, Subscriber>,
    leavers: map<nat, Leaver>,
    closings: multiset<nat>,
    late: set<nat>)

  const START := State(None, map[], map[], map[], map[], multiset{}, {})

  datatype Step =
    | Lookup(x: nat, newStream: nat)
    | Attach(x: nat)
    | Leave(call: nat, x: nat)
    | Arm(call: nat, newTimer: nat)
    | Fire(timer: nat)
    | Cleanup(timer: nat)
    | Fanout(stream: nat)

  /** A live stream with one more subscriber, and a pump if there is Redis and no pump yet. */
  function WithSubscriber(stream: Stream, redis: bool, x: nat): Stream {
    var starts := redis && !stream.pumpSet;
    stream.(subs := stream.subs + {x},
            pumpSet := stream.pumpSet || starts,
            pumps := stream.pumps + if starts then 1 else 0)
  }

  function WithoutSubscriber(stream: Stream, x: nat): Stream {
    stream.(subs := stream.subs - {x})
  }

  /** A stream after its grace timer's callback: kept if it has subscribers again, else retired. */
  function AfterGrace(stream: Stream): Stream {
    if stream.subs != {} || stream.dead then stream.(cleanup := None) else stream.(dead := true, pumpSet := false)
  }

  function LookupNext(s: State, x: nat, newStream: nat): State {
    if s.mapped.None? || s.mapped.value !in s.streams || s.streams[s.mapped.value].dead then
      s.(mapped := Some(newStream),
         streams := s.streams[newStream := NEW_STREAM],
         subscribers := s.subscribers[x := Looked(newStream)])
    else
      var st := s.mapped.value;
      var cleanup := s.streams[st].cleanup;
      var joining := s.(streams := s.streams[st := s.streams[st].(cleanup := None)],
                        subscribers := s.subscribers[x := Looked(st)]);
      if cleanup.Some? && cleanup.value in s.timers && s.timers[cleanup.value].phase.Armed? then
        joining.(timers := s.timers[cleanup.value := s.timers[cleanup.value].(phase := Spent)])
      else
        joining
  }

  function AttachNext(s: State, redis: bool, x: nat, st: nat): State
    requires st in s.streams
  {
    if s.streams[st].dead then
      s.(subscribers := s.subscribers - {x})
    else
      s.(streams := s.streams[st := WithSubscriber(s.streams[st], redis, x)],
         subscribers := s.subscribers[x := Joined(st)])
  }

  function LeaveNext(s: State, call: nat, x: nat, st: nat): State
    requires st in s.streams
  {
    var stream := s.streams[st];
    var left := WithoutSubscriber(stream, x);
    s.(streams := s.streams[st := left],
       closings := if x in stream.subs then s.closings + multiset{x} else s.closings,
       leavers := s.leavers[call := if left.subs == {} && !left.dead then Arming(st) else Finished])
  }

  function ArmNext(s: State, call: nat, newTimer: nat, st: nat): State
    requires st in s.streams
  {
    var armed := s.(leavers := s.leavers[call := Finished]);
    if s.streams[st].cleanup.Some? then armed
    else armed.(streams := s.streams[st := s.streams[st].(cleanup := Some(newTimer))],
                timers := s.timers[newTimer := Timer(st, Armed)])
  }

  function CleanupNext(s: State, timer: nat, st: nat): State
    requires timer in s.timers && st in s.streams
  {
    var stream := s.streams[st];
    var ran := s.(timers := s.timers[timer := s.timers[timer].(phase := Spent)],
                  streams := s.streams[st := AfterGrace(stream)]);
    if stream.subs != {} || stream.dead || s.mapped != Some(st) then ran else ran.(mapped := None)
  }

  function Next(s: State, redis: bool, step: Step): State {
    match step
    case Lookup(x, newStream) =>
      if x in s.subscribers || x in s.closings || newStream in s.streams then s else LookupNext(s, x, newStream)
    case Attach(x) =>
      if x in s.subscribers && s.subscribers[x].Looked? && s.subscribers[x].stream in s.streams then
        AttachNext(s, redis, x, s.subscribers[x].stream)
      else s
    case Leave(call, x) =>
      if call !in s.leavers && x in s.subscribers && s.subscribers[x].Joined?
         && s.subscribers[x].stream in s.streams then
        LeaveNext(s, call, x, s.subscribers[x].stream)
      else s
    case Arm(call, newTimer) =>
      if call in s.leavers && s.leavers[call].Arming? && s.leavers[call].stream in s.streams
         && newTimer !in s.timers then
        ArmNext(s, call, newTimer, s.leavers[call].stream)
      else s
    case Fire(timer) =>
      if timer in s.timers && s.timers[timer].phase.Armed? then
        s.(timers := s.timers[timer := s.timers[timer].(phase := Fired)])
      else s
    case Cleanup(timer) =>
      if timer in s.timers && s.timers[timer].phase.Fired? && s.timers[timer].stream in s.streams then
        CleanupNext(s, timer, s.timers[timer].stream)
      else s
    case Fanout(st) =>
      if st in s.streams then s.(late := s.late + set x | x in s.streams[st].subs && x in s.closings) else s
  }

  function Run(redis: bool, steps: seq<Step>): State {
    if steps == [] then START else Next(Run(redis, steps[..|steps| - 1]), redis, steps[|steps| - 1])
  }

  // ---------------------------------------------------------------------------
  // Invariants
  // ---------------------------------------------------------------------------

  /** The mapped stream is the only live one. */
  ghost predicate OneLive(s: State) {
    && (s.mapped.Some? ==> s.mapped.value in s.streams && !s.streams[s.mapped.value].dead)
    && (forall st :: st in s.streams && !s.streams[st].dead ==> s.mapped == Some(st))
  }

  /** A dead stream is empty, no stream starts two pumps, and subscribers always have one. */
  ghost predicate PumpRight(stream: Stream, redis: bool) {
    && (stream.dead ==> stream.subs == {})
    && stream.pumps <= 1
    && (!stream.dead ==> (stream.pumps == 1 <==> stream.pumpSet))
    && (redis && stream.subs != {} ==> stream.pumpSet)
  }

  ghost predicate PumpsRight(s: State, redis: bool) {
    forall st :: st in s.streams ==> PumpRight(s.streams[st], redis)
  }

  ghost predicate RegisteredAt(s: State, st: nat, x: nat) {
    x in s.subscribers && s.subscribers[x] == Joined(st) && x !in s.closings
  }

  /** A stream's subscribers registered with it and have open channels. */
  ghost predicate Registered(s: State, st: nat)
    requires st in s.streams
  {
    forall x :: x in s.streams[st].subs ==> RegisteredAt(s, st, x)
  }

  ghost predicate AllRegistered(s: State) {
    forall st :: st in s.streams ==> Registered(s, st)
  }

  /** No channel is closed twice or pushed to after its close. */
  ghost predicate ChannelsRight(s: State) {
    && (forall x :: s.closings[x] <= 1)
    && (forall x :: x in s.closings ==> x in s.subscribers && s.subscribers[x].Joined?)
    && s.late == {}
  }

  ghost predicate PendingTimer(s: State, timer: nat, st: nat) {
    timer in s.timers && s.timers[timer].stream == st && !s.timers[timer].phase.Spent?
  }

  ghost predicate AboutToArm(s: State, call: nat, st: nat) {
    call in s.leavers && s.leavers[call] == Arming(st)
  }

  ghost predicate AboutToJoin(s: State, x: nat, st: nat) {
    x in s.subscribers && s.subscribers[x] == Looked(st)
  }

  /** Something is going to retire or fill the stream. */
  ghost predicate Attended(s: State, st: nat) {
    || (exists timer :: PendingTimer(s, timer, st))
    || (exists call :: AboutToArm(s, call, st))
    || (exists x :: AboutToJoin(s, x, st))
  }

  /** The recorded timer of a live stream is still pending, and an empty live stream is attended to. */
  ghost predicate TimerRight(s: State, st: nat)
    requires st in s.streams
  {
    && (s.streams[st].cleanup.Some? ==> PendingTimer(s, s.streams[st].cleanup.value, st))
    && (s.streams[st].subs == {} ==> Attended(s, st))
  }

  ghost predicate TimersRight(s: State) {
    forall st :: st in s.streams && !s.streams[st].dead ==> TimerRight(s, st)
  }

  ghost predicate LifecycleSound(s: State, redis: bool) {
    OneLive(s) && PumpsRight(s, redis) && AllRegistered(s) && ChannelsRight(s) && TimersRight(s)
  }

  lemma LookupKeepsOneLive(s: State, x: nat, newStream: nat)
    requires OneLive(s) && newStream !in s.streams
    ensures OneLive(LookupNext(s, x, newStream))
  {
  }

  lemma CleanupKeepsOneLive(s: State, timer: nat, st: nat)
    requires OneLive(s) && timer in s.timers && st in s.streams
    ensures OneLive(CleanupNext(s, timer, st))
  {
  }

  lemma SameStreamsKeepOneLive(s: State, after: State)
    requires OneLive(s) && after.mapped == s.mapped && after.streams.Keys == s.streams.Keys
    requires forall st :: st in s.streams ==> after.streams[st].dead == s.streams[st].dead
    ensures OneLive(after)
  {
  }

  lemma NextKeepsOneLive(s: State, redis: bool, step: Step)
    requires OneLive(s)
    ensures OneLive(Next(s, redis, step))
  {
    hide OneLive, LookupNext, CleanupNext;
    match step
    case Lookup(x, newStream) =>
      if !(x in s.subscribers || x in s.closings || newStream in s.streams) { LookupKeepsOneLive(s, x, newStream); }
    case Cleanup(timer) =>
      if timer in s.timers && s.timers[timer].phase.Fired? && s.timers[timer].stream in s.streams {
        CleanupKeepsOneLive(s, timer, s.timers[timer].stream);
      }
    case _ => SameStreamsKeepOneLive(s, Next(s, redis, step));
  }

  /** What one step may have done to a stream. */
  ghost predicate Became(s: State, redis: bool, step: Step, st: nat, stream: Stream) {
    || stream == NEW_STREAM
    || ( && st in s.streams
         && var was := s.streams[st];
           || stream == was.(cleanup := stream.cleanup)
           || (step.Attach? && !was.dead && stream == WithSubscriber(was, redis, step.x))
           || (step.Leave? && stream == WithoutSubscriber(was, step.x))
           || stream == AfterGrace(was))
  }

  lemma EachStreamSteps(s: State, redis: bool, step: Step)
    ensures var after := Next(s, redis, step);
      forall st :: st in after.streams ==> Became(s, redis, step, st, after.streams[st])
  {
    hide WithSubscriber, WithoutSubscriber, AfterGrace;
  }

  lemma BecomingKeepsPumpRight(s: State, redis: bool, step: Step, st: nat, stream: Stream)
    requires Became(s, redis, step, st, stream) && (st in s.streams ==> PumpRight(s.streams[st], redis))
    ensures PumpRight(stream, redis)
  {
  }

  lemma NextKeepsPumpsRight(s: State, redis: bool, step: Step)
    requires PumpsRight(s, redis)
    ensures PumpsRight(Next(s, redis, step), redis)
  {
    hide Next, PumpRight, Became;
    EachStreamSteps(s, redis, step);
    var after := Next(s, redis, step);
    forall st | st in after.streams ensures PumpRight(after.streams[st], redis) {
      BecomingKeepsPumpRight(s, redis, step, st, after.streams[st]);
    }
  }

  /** Attaching registers the caller, whose channel is still open, and nobody else. */
  lemma AttachRegisters(s: State, redis: bool, x: nat, st: nat, other: nat, y: nat)
    requires st in s.streams && x in s.subscribers && s.subscribers[x] == Looked(st) && x !in s.closings
    requires other in s.streams && y in AttachNext(s, redis, x, st).streams[other].subs
    requires y in s.streams[other].subs ==> RegisteredAt(s, other, y)
    ensures RegisteredAt(AttachNext(s, redis, x, st), other, y)
  {
  }

  /** Leaving takes the subscriber off the stream it registered with as its channel closes. */
  lemma LeaveUnregisters(s: State, call: nat, x: nat, st: nat, other: nat, y: nat)
    requires st in s.streams && x in s.subscribers && s.subscribers[x] == Joined(st)
    requires other in s.streams && y in LeaveNext(s, call, x, st).streams[other].subs
    requires y in s.streams[other].subs ==> RegisteredAt(s, other, y)
    ensures RegisteredAt(LeaveNext(s, call, x, st), other, y)
  {
    var after := LeaveNext(s, call, x, st);
    assert after.streams[other].subs <= s.streams[other].subs;
    assert y != x;
    assert y in after.closings ==> y in s.closings;
  }

  lemma LookupKeepsRegisteredAt(s: State, x: nat, newStream: nat, st: nat, y: nat)
    requires x !in s.subscribers && newStream !in s.streams
    requires st in LookupNext(s, x, newStream).streams && y in LookupNext(s, x, newStream).streams[st].subs
    requires st in s.streams && y in s.streams[st].subs ==> RegisteredAt(s, st, y)
    ensures RegisteredAt(LookupNext(s, x, newStream), st, y)
  {
  }

  lemma TimersKeepRegisteredAt(s: State, redis: bool, step: Step, st: nat, y: nat)
    requires step.Arm? || step.Fire? || step.Cleanup? || step.Fanout?
    requires st in Next(s, redis, step).streams && y in Next(s, redis, step).streams[st].subs
    requires st in s.streams && y in s.streams[st].subs ==> RegisteredAt(s, st, y)
    ensures RegisteredAt(Next(s, redis, step), st, y)
  {
  }

  lemma NextKeepsRegisteredAt(s: State, redis: bool, step: Step, st: nat, y: nat)
    requires st in Next(s, redis, step).streams && y in Next(s, redis, step).streams[st].subs
    requires st in s.streams && y in s.streams[st].subs ==> RegisteredAt(s, st, y)
    requires forall x :: x in s.closings ==> x in s.subscribers && s.subscribers[x].Joined?
    ensures RegisteredAt(Next(s, redis, step), st, y)
  {
    hide AttachNext, LeaveNext, LookupNext, CleanupNext, ArmNext, RegisteredAt;
    match step
    case Lookup(x, newStream) =>
      if !(x in s.subscribers || x in s.closings || newStream in s.streams) {
        LookupKeepsRegisteredAt(s, x, newStream, st, y);
      }
    case Attach(x) =>
      if x in s.subscribers && s.subscribers[x].Looked? && s.subscribers[x].stream in s.streams {
        AttachKeepsStreams(s, redis, x, s.subscribers[x].stream);
        AttachRegisters(s, redis, x, s.subscribers[x].stream, st, y);
      }
    case Leave(call, x) =>
      if call !in s.leavers && x in s.subscribers && s.subscribers[x].Joined? && s.subscribers[x].stream in s.streams {
        LeaveKeepsStreams(s, call, x, s.subscribers[x].stream);
        LeaveUnregisters(s, call, x, s.subscribers[x].stream, st, y);
      }
    case _ => TimersKeepRegisteredAt(s, redis, step, st, y);
  }

  lemma AttachKeepsStreams(s: State, redis: bool, x: nat, st: nat)
    requires st in s.streams
    ensures AttachNext(s, redis, x, st).streams.Keys == s.streams.Keys
  {
  }

  lemma LeaveKeepsStreams(s: State, call: nat, x: nat, st: nat)
    requires st in s.streams
    ensures LeaveNext(s, call, x, st).streams.Keys == s.streams.Keys
  {
  }

  lemma NextKeepsRegistered(s: State, redis: bool, step: Step, st: nat)
    requires AllRegistered(s) && ChannelsRight(s) && st in Next(s, redis, step).streams
    ensures Registered(Next(s, redis, step), st)
  {
    assert st in s.streams ==> Registered(s, st);
    hide AllRegistered, Next;
    forall y | y in Next(s, redis, step).streams[st].subs ensures RegisteredAt(Next(s, redis, step), st, y) {
      NextKeepsRegisteredAt(s, redis, step, st, y);
    }
  }

  lemma FanoutReachesOpenChannels(s: State, st: nat)
    requires AllRegistered(s) && st in s.streams
    ensures (set x | x in s.streams[st].subs && x in s.closings) == {}
  {
    assert Registered(s, st);
  }

  lemma LeaveClosesOnce(s: State, call: nat, x: nat, st: nat)
    requires ChannelsRight(s) && st in s.streams && x in s.subscribers && s.subscribers[x].Joined?
    requires x in s.streams[st].subs ==> x !in s.closings
    ensures ChannelsRight(LeaveNext(s, call, x, st))
  {
  }

  lemma AttachKeepsChannelsRight(s: State, redis: bool, x: nat, st: nat)
    requires ChannelsRight(s) && st in s.streams && x in s.subscribers && s.subscribers[x].Looked?
    ensures ChannelsRight(AttachNext(s, redis, x, st))
  {
    assert x !in s.closings;
  }

  lemma LookupKeepsChannelsRight(s: State, x: nat, newStream: nat)
    requires ChannelsRight(s) && x !in s.subscribers
    ensures ChannelsRight(LookupNext(s, x, newStream))
  {
  }

  lemma NextKeepsChannelsRight(s: State, redis: bool, step: Step)
    requires AllRegistered(s) && ChannelsRight(s)
    ensures ChannelsRight(Next(s, redis, step))
  {
    hide AttachNext, LeaveNext, LookupNext;
    match step
    case Lookup(x, newStream) =>
      if !(x in s.subscribers || x in s.closings || newStream in s.streams) {
        LookupKeepsChannelsRight(s, x, newStream);
      }
    case Attach(x) =>
      if x in s.subscribers && s.subscribers[x].Looked? && s.subscribers[x].stream in s.streams {
        AttachKeepsChannelsRight(s, redis, x, s.subscribers[x].stream);
      }
    case Leave(call, x) =>
      if call !in s.leavers && x in s.subscribers && s.subscribers[x].Joined? && s.subscribers[x].stream in s.streams {
        assert Registered(s, s.subscribers[x].stream);
        LeaveClosesOnce(s, call, x, s.subscribers[x].stream);
      }
    case Fanout(st) =>
      if st in s.streams {
        FanoutReachesOpenChannels(s, st);
      }
    case _ =>
  }

  lemma AttendedSurvives(s: State, after: State, st: nat)
    requires Attended(s, st)
    requires forall timer :: PendingTimer(s, timer, st) ==> PendingTimer(after, timer, st)
    requires forall call :: AboutToArm(s, call, st) ==> AboutToArm(after, call, st)
    requires forall x :: AboutToJoin(s, x, st) ==> AboutToJoin(after, x, st)
    ensures Attended(after, st)
  {
    if timer :| PendingTimer(s, timer, st) {
      assert PendingTimer(after, timer, st);
    } else if call :| AboutToArm(s, call, st) {
      assert AboutToArm(after, call, st);
    } else {
      var x :| AboutToJoin(s, x, st);
      assert AboutToJoin(after, x, st);
    }
  }

  lemma LookupKeepsTimersRight(s: State, x: nat, newStream: nat)
    requires TimersRight(s) && OneLive(s) && x !in s.subscribers && newStream !in s.streams
    ensures TimersRight(LookupNext(s, x, newStream))
  {
    var after := LookupNext(s, x, newStream);
    var st := after.mapped.value;
    assert AboutToJoin(after, x, st);
    assert forall other :: other in after.streams && !after.streams[other].dead ==> other == st;
  }

  lemma AttachKeepsTimersRight(s: State, redis: bool, x: nat, st: nat)
    requires TimersRight(s) && OneLive(s) && st in s.streams && x in s.subscribers && s.subscribers[x] == Looked(st)
    ensures TimersRight(AttachNext(s, redis, x, st))
  {
    var after := AttachNext(s, redis, x, st);
    forall live | live in after.streams && !after.streams[live].dead ensures TimerRight(after, live) {
      assert TimerRight(s, live);
      if after.streams[live].subs == {} {
        AttendedSurvives(s, after, live);
      }
    }
  }

  lemma LeaveKeepsTimersRight(s: State, call: nat, x: nat, st: nat)
    requires TimersRight(s) && OneLive(s) && st in s.streams && call !in s.leavers
    ensures TimersRight(LeaveNext(s, call, x, st))
  {
    var after := LeaveNext(s, call, x, st);
    forall live | live in after.streams && !after.streams[live].dead ensures TimerRight(after, live) {
      assert TimerRight(s, live);
      if live == st && after.streams[st].subs == {} {
        assert AboutToArm(after, call, st);
      } else if after.streams[live].subs == {} {
        AttendedSurvives(s, after, live);
      }
    }
  }

  lemma ArmKeepsTimersRight(s: State, call: nat, newTimer: nat, st: nat)
    requires TimersRight(s) && OneLive(s) && st in s.streams && newTimer !in s.timers
    requires call in s.leavers && s.leavers[call] == Arming(st)
    ensures TimersRight(ArmNext(s, call, newTimer, st))
  {
    var after := ArmNext(s, call, newTimer, st);
    forall live | live in after.streams && !after.streams[live].dead ensures TimerRight(after, live) {
      assert TimerRight(s, live);
      if live == st {
        assert PendingTimer(after, after.streams[st].cleanup.value, st);
      } else if after.streams[live].subs == {} {
        AttendedSurvives(s, after, live);
      }
    }
  }

  lemma FireKeepsTimersRight(s: State, redis: bool, timer: nat)
    requires TimersRight(s)
    ensures TimersRight(Next(s, redis, Fire(timer)))
  {
    var after := Next(s, redis, Fire(timer));
    forall live | live in after.streams && !after.streams[live].dead ensures TimerRight(after, live) {
      assert TimerRight(s, live);
      if after.streams[live].subs == {} {
        AttendedSurvives(s, after, live);
      }
    }
  }

  lemma FanoutKeepsTimersRight(s: State, redis: bool, st: nat)
    requires TimersRight(s)
    ensures TimersRight(Next(s, redis, Fanout(st)))
  {
    var after := Next(s, redis, Fanout(st));
    forall live | live in after.streams && !after.streams[live].dead ensures TimerRight(after, live) {
      assert TimerRight(s, live);
      if after.streams[live].subs == {} {
        AttendedSurvives(s, after, live);
      }
    }
  }

  lemma CleanupKeepsTimersRight(s: State, timer: nat, st: nat)
    requires TimersRight(s) && OneLive(s) && timer in s.timers && s.timers[timer].stream == st && st in s.streams
    ensures TimersRight(CleanupNext(s, timer, st))
  {
    var after := CleanupNext(s, timer, st);
    forall live | live in after.streams && !after.streams[live].dead ensures TimerRight(after, live) {
      assert TimerRight(s, live);
      if live != st && after.streams[live].subs == {} {
        AttendedSurvives(s, after, live);
      }
    }
  }

  lemma NextKeepsTimersRight(s: State, redis: bool, step: Step)
    requires TimersRight(s) && OneLive(s)
    ensures TimersRight(Next(s, redis, step))
  {
    hide TimersRight, OneLive, AttachNext, LeaveNext, LookupNext, ArmNext, CleanupNext;
    match step
    case Lookup(x, newStream) =>
      if !(x in s.subscribers || x in s.closings || newStream in s.streams) { LookupKeepsTimersRight(s, x, newStream); }
    case Attach(x) =>
      if x in s.subscribers && s.subscribers[x].Looked? && s.subscribers[x].stream in s.streams {
        AttachKeepsTimersRight(s, redis, x, s.subscribers[x].stream);
      }
    case Leave(call, x) =>
      if call !in s.leavers && x in s.subscribers && s.subscribers[x].Joined? && s.subscribers[x].stream in s.streams {
        LeaveKeepsTimersRight(s, call, x, s.subscribers[x].stream);
      }
    case Arm(call, newTimer) =>
      if call in s.leavers && s.leavers[call].Arming? && s.leavers[call].stream in s.streams && newTimer !in s.timers {
        ArmKeepsTimersRight(s, call, newTimer, s.leavers[call].stream);
      }
    case Fire(timer) => FireKeepsTimersRight(s, redis, timer);
    case Cleanup(timer) =>
      if timer in s.timers && s.timers[timer].phase.Fired? && s.timers[timer].stream in s.streams {
        CleanupKeepsTimersRight(s, timer, s.timers[timer].stream);
      }
    case Fanout(st) => FanoutKeepsTimersRight(s, redis, st);
  }

  lemma {:induction false} LifecycleStaysSound(redis: bool, steps: seq<Step>)
    ensures LifecycleSound(Run(redis, steps), redis)
  {
    if steps != [] {
      var before := Run(redis, steps[..|steps| - 1]);
      LifecycleStaysSound(redis, steps[..|steps| - 1]);
      NextKeepsInv(before, redis, steps[|steps| - 1]);
    }
  }

  lemma NextKeepsInv(s: State, redis: bool, step: Step)
    requires LifecycleSound(s, redis)
    ensures LifecycleSound(Next(s, redis, step), redis)
  {
    hide OneLive, PumpsRight, Registered, ChannelsRight, TimersRight, Next;
    NextKeepsOneLive(s, redis, step);
    NextKeepsPumpsRight(s, redis, step);
    forall st | st in Next(s, redis, step).streams ensures Registered(Next(s, redis, step), st) {
      NextKeepsRegistered(s, redis, step, st);
    }
    NextKeepsChannelsRight(s, redis, step);
    NextKeepsTimersRight(s, redis, step);
  }
}
