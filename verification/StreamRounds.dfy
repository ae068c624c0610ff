/**
 What subscribing, unsubscribing and the grace period do to a session's streams when nobody gets in
 between, and what a timer that fires late finds.
 */
module StreamRounds {

  import opened Options
  import opened StreamLifecycle

  /** The stream a new subscriber of the session gets. */
  function StreamFor(s: State, newStream: nat): nat {
    if s.mapped.Some? then s.mapped.value else newStream
  }

  ghost predicate IsNew(s: State, x: nat) {
    x !in s.subscribers && x !in s.closings
  }

  /** The mapped stream, live, with exactly the given subscribers and a pump whenever there is Redis. */
  ghost predicate Serves(s: State, redis: bool, st: nat, subs: set<nat>) {
    && s.mapped == Some(st) && st in s.streams && !s.streams[st].dead
    && s.streams[st].subs == subs && (redis ==> s.streams[st].pumpSet)
  }

  /** Undisturbed, a subscriber joins the session's live stream, or a new one, and no timer threatens it. */
  lemma SubscribeJoins(s: State, redis: bool, x: nat, newStream: nat)
    requires OneLive(s) && IsNew(s, x) && newStream !in s.streams
    ensures var after := Next(Next(s, redis, Lookup(x, newStream)), redis, Attach(x));
      var st := StreamFor(s, newStream);
      && Serves(after, redis, st, (if s.mapped.Some? then s.streams[st].subs else {}) + {x})
      && after.subscribers == s.subscribers[x := Joined(st)]
      && after.streams[st].cleanup == None && after.closings == s.closings
      && forall other :: other in s.streams && other != st ==>
           other in after.streams && after.streams[other] == s.streams[other]
  {
    var st := StreamFor(s, newStream);
    var looked := Next(s, redis, Lookup(x, newStream));
    LookupFinds(s, redis, x, newStream);
    hide OneLive, IsNew, LookupNext, StreamFor;
    AttachJoins(looked, redis, x, st);
    hide Next;
    assert s.subscribers[x := Looked(st)][x := Joined(st)] == s.subscribers[x := Joined(st)];
  }

  lemma LookupFinds(s: State, redis: bool, x: nat, newStream: nat)
    requires OneLive(s) && IsNew(s, x) && newStream !in s.streams
    ensures var looked := Next(s, redis, Lookup(x, newStream));
      var st := StreamFor(s, newStream);
      && looked.mapped == Some(st) && looked.subscribers == s.subscribers[x := Looked(st)]
      && looked.closings == s.closings && st in looked.streams && !looked.streams[st].dead
      && looked.streams[st].cleanup == None
      && looked.streams[st].subs == (if s.mapped.Some? then s.streams[st].subs else {})
      && forall other :: other in s.streams && other != st ==>
           other in looked.streams && looked.streams[other] == s.streams[other]
  {
  }

  lemma AttachJoins(s: State, redis: bool, x: nat, st: nat)
    requires x in s.subscribers && s.subscribers[x] == Looked(st) && s.mapped == Some(st)
    requires st in s.streams && !s.streams[st].dead
    ensures var after := Next(s, redis, Attach(x));
      && Serves(after, redis, st, s.streams[st].subs + {x})
      && after.subscribers == s.subscribers[x := Joined(st)] && after.closings == s.closings
      && after.streams[st].cleanup == s.streams[st].cleanup
      && after.streams == s.streams[st := after.streams[st]]
  {
  }

  /** A subscriber whose stream died in between is refused, and nothing else changes. */
  lemma DeadStreamRefuses(s: State, redis: bool, x: nat, st: nat)
    requires x in s.subscribers && s.subscribers[x] == Looked(st) && st in s.streams && s.streams[st].dead
    ensures Next(s, redis, Attach(x)) == s.(subscribers := s.subscribers - {x})
  {
  }

  /** A lookup stops the timer of a live stream: firing it later does nothing. */
  lemma LookupStopsTimer(s: State, redis: bool, x: nat, newStream: nat, st: nat, timer: nat)
    requires IsNew(s, x) && newStream !in s.streams && s.mapped == Some(st) && st in s.streams && !s.streams[st].dead
    requires s.streams[st].cleanup == Some(timer) && timer in s.timers && s.timers[timer].phase.Armed?
    ensures var after := Next(s, redis, Lookup(x, newStream));
      && after.streams[st].cleanup == None
      && Next(after, redis, Fire(timer)) == after && Next(after, redis, Cleanup(timer)) == after
  {
  }

  /** Leaving takes the subscriber off its stream and closes its channel once; a second call does nothing. */
  lemma LeaveCloses(s: State, redis: bool, call: nat, again: nat, x: nat, st: nat)
    requires call !in s.leavers && again !in s.leavers && call != again
    requires st in s.streams && RegisteredAt(s, st, x) && x in s.streams[st].subs
    ensures var after := Next(s, redis, Leave(call, x));
      var twice := Next(after, redis, Leave(again, x));
      && after.streams == s.streams[st := s.streams[st].(subs := s.streams[st].subs - {x})]
      && after.closings == s.closings + multiset{x} && after.closings[x] == 1
      && (after.leavers[call] == Arming(st) <==> s.streams[st].subs == {x} && !s.streams[st].dead)
      && twice.closings == after.closings && twice.streams == after.streams
  {
    assert s.streams[st].subs - {x} == {} <==> s.streams[st].subs == {x};
    var after := Next(s, redis, Leave(call, x));
    var twice := Next(after, redis, Leave(again, x));
    assert after.streams[st].subs - {x} == after.streams[st].subs;
    assert twice.streams == after.streams;
  }

  /** After the last subscriber left, the grace period ends the stream, frees the session and stops the pump. */
  lemma LastLeaveRetires(s: State, redis: bool, call: nat, timer: nat, x: nat, st: nat)
    requires call !in s.leavers && timer !in s.timers && s.mapped == Some(st) && RegisteredAt(s, st, x)
    requires st in s.streams && !s.streams[st].dead && s.streams[st].subs == {x} && s.streams[st].cleanup == None
    ensures var armed := Next(Next(s, redis, Leave(call, x)), redis, Arm(call, timer));
      var after := Next(Next(armed, redis, Fire(timer)), redis, Cleanup(timer));
      && armed.streams[st].cleanup == Some(timer) && armed.mapped == Some(st)
      && after.mapped == None && after.streams.Keys == s.streams.Keys
      && after.streams[st].dead && !after.streams[st].pumpSet && after.streams[st].subs == {}
  {
    var one := Next(s, redis, Leave(call, x));
    assert s.streams[st].subs - {x} == {};
    assert one.leavers[call] == Arming(st);
    var two := Next(one, redis, Arm(call, timer));
    assert two.timers[timer] == Timer(st, Armed);
    var three := Next(two, redis, Fire(timer));
    assert three.timers[timer] == Timer(st, Fired);
  }

  lemma RunOneMore(redis: bool, steps: seq<Step>, step: Step)
    ensures Run(redis, steps + [step]) == Next(Run(redis, steps), redis, step)
  {
    assert (steps + [step])[..|steps|] == steps;
  }

  lemma RunTwoMore(redis: bool, steps: seq<Step>, a: Step, b: Step)
    ensures Run(redis, steps + [a, b]) == Next(Next(Run(redis, steps), redis, a), redis, b)
  {
    hide Run, Next;
    RunOneMore(redis, steps, a);
    RunOneMore(redis, steps + [a], b);
    assert steps + [a] + [b] == steps + [a, b];
  }

  lemma Joins(redis: bool, x: nat, st: nat)
    ensures var joined := Run(redis, [Lookup(x, st), Attach(x)]);
      && Serves(joined, redis, st, {x}) && joined.streams[st].cleanup == None && RegisteredAt(joined, st, x)
      && joined.leavers == map[] && joined.timers == map[] && joined.late == {} && joined.streams.Keys == {st}
      && joined.closings == multiset{}
  {
    RunTwoMore(redis, [], Lookup(x, st), Attach(x));
    assert [] + [Lookup(x, st), Attach(x)] == [Lookup(x, st), Attach(x)];
    assert Run(redis, []) == START;
    hide Run;
    SubscribeJoins(START, redis, x, st);
  }

  lemma OthersCloseNothing(s: State, redis: bool, step: Step)
    requires !step.Leave? && !step.Fanout?
    ensures Next(s, redis, step).closings == s.closings && Next(s, redis, step).late == s.late
  {
  }

  /** Over a whole run: the first subscriber gets a stream, and its leaving ends the stream again. */
  lemma FirstSubscriberComesAndGoes(redis: bool, x: nat, st: nat, call: nat, timer: nat)
    ensures var join := [Lookup(x, st), Attach(x)];
      var left := Run(redis, join + [Leave(call, x), Arm(call, timer)] + [Fire(timer), Cleanup(timer)]);
      && Serves(Run(redis, join), redis, st, {x})
      && left.mapped == None && left.streams.Keys == {st} && left.streams[st].dead && !left.streams[st].pumpSet
      && left.closings == multiset{x} && left.late == {}
  {
    var join := [Lookup(x, st), Attach(x)];
    var s := Run(redis, join);
    Joins(redis, x, st);
    RunTwoMore(redis, join, Leave(call, x), Arm(call, timer));
    RunTwoMore(redis, join + [Leave(call, x), Arm(call, timer)], Fire(timer), Cleanup(timer));
    hide Run;
    LastLeaveRetires(s, redis, call, timer, x, st);
    LeaveCloses(s, redis, call, call + 1, x, st);
    LeavePushesNothing(s, redis, call, x);
    hide Next;
    var one := Next(s, redis, Leave(call, x));
    OthersCloseNothing(one, redis, Arm(call, timer));
    OthersCloseNothing(Next(one, redis, Arm(call, timer)), redis, Fire(timer));
    OthersCloseNothing(Next(Next(one, redis, Arm(call, timer)), redis, Fire(timer)), redis, Cleanup(timer));
  }

  lemma LeavePushesNothing(s: State, redis: bool, call: nat, x: nat)
    ensures Next(s, redis, Leave(call, x)).late == s.late
  {
  }

  /** A push to a closed channel would show: the fan-out reaches every subscriber of the stream. */
  lemma FanoutWouldShow(s: State, redis: bool, st: nat, x: nat)
    requires st in s.streams && x in s.streams[st].subs && x in s.closings
    ensures x in Next(s, redis, Fanout(st)).late
  {
  }

  /** A timer that fires after somebody joined again only goes away. */
  lemma LateTimerSpares(s: State, redis: bool, timer: nat, st: nat)
    requires timer in s.timers && s.timers[timer] == Timer(st, Fired) && st in s.streams
    requires s.streams[st].subs != {} && !s.streams[st].dead
    ensures var after := Next(s, redis, Cleanup(timer));
      && after.mapped == s.mapped && after.streams == s.streams[st := s.streams[st].(cleanup := None)]
      && after.timers[timer].phase.Spent?
  {
  }

  /** A second thread that finds a timer recorded arms none. */
  lemma ArmsOnce(s: State, redis: bool, call: nat, newTimer: nat, st: nat)
    requires call in s.leavers && s.leavers[call] == Arming(st) && st in s.streams && newTimer !in s.timers
    ensures var after := Next(s, redis, Arm(call, newTimer));
      && after.leavers[call].Finished?
      && if s.streams[st].cleanup.Some? then after.streams == s.streams && after.timers == s.timers
         else after.streams[st].cleanup == Some(newTimer) && after.timers == s.timers[newTimer := Timer(st, Armed)]
  {
  }
}
