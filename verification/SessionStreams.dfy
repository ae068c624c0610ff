/**
 The objects behind the lifecycle: a session's stream with its subscriber list, and the manager
 that maps sessions to streams. Each method is one critical section.
 */
module SessionStreams {

  import opened Options
  import opened Sequences
  import opened StreamLifecycle

  lemma {:induction false} RemovedElements(s: seq<nat>, i: nat)
    requires i < |s| && forall j, k :: 0 <= j < k < |s| ==> s[j] != s[k]
    ensures forall x :: x in Remove(s, i) <==> x in s && x != s[i]
    ensures var rest := Remove(s, i); forall j, k :: 0 <= j < k < |rest| ==> rest[j] != rest[k]
  {
    var rest := Remove(s, i);
    forall x | x in s && x != s[i] ensures x in rest {
      var j :| 0 <= j < |s| && s[j] == x;
      assert rest[if j < i then j else j - 1] == x;
    }
  }

  function Elements(s: seq<nat>): set<nat> {
    set x | x in s
  }

  lemma NoElements(s: seq<nat>)
    ensures Elements(s) == {} <==> |s| == 0
  {
    assert |s| > 0 ==> s[0] in Elements(s);
  }

  class SessionStream {
    var subscribers: seq<nat>
    var cleanup: Option<nat>
    var pumpSet: bool
    var dead: bool
    ghost var pumps: nat

    ghost predicate Valid()
      reads this
    {
      forall i, j :: 0 <= i < j < |subscribers| ==> subscribers[i] != subscribers[j]
    }

    ghost function Value(): Stream
      reads this
    {
      Stream(Elements(subscribers), cleanup, pumpSet, dead, pumps)
    }

    constructor ()
      ensures Valid() && Value() == NEW_STREAM
    {
      subscribers, cleanup, pumpSet, dead, pumps := [], None, false, false, 0;
    }

    /** Joins a live stream at the end of its list; the first joiner with Redis starts the pump. */
    method Join(redis: bool, x: nat) returns (joined: bool, startPump: bool)
      requires Valid() && x !in subscribers
      modifies this
      ensures Valid() && joined == !old(dead) && startPump == (joined && redis && !old(pumpSet))
      ensures Value() == if joined then WithSubscriber(old(Value()), redis, x) else old(Value())
      ensures subscribers == if joined then old(subscribers) + [x] else old(subscribers)
    {
      if dead {
        return false, false;
      }
      subscribers := subscribers + [x];
      startPump := redis && !pumpSet;
      if startPump {
        pumpSet := true;
        pumps := pumps + 1;
      }
      joined := true;
    }

    /** Removes the subscriber and closes its channel, which only the first call finds. */
    method Unsubscribe(x: nat) returns (closed: bool, empty: bool)
      requires Valid()
      modifies this
      ensures Valid() && Value() == WithoutSubscriber(old(Value()), x)
      ensures closed <==> x in old(subscribers)
      ensures empty <==> subscribers == [] && !dead
    {
      closed := false;
      var i := 0;
      while i < |subscribers| && subscribers[i] != x
        invariant i <= |subscribers| && x !in subscribers[..i]
        invariant unchanged(this)
      {
        i := i + 1;
      }
      if i < |subscribers| {
        RemovedElements(subscribers, i);
        subscribers := Remove(subscribers, i);
        closed := true;
      } else {
        assert subscribers[..i] == subscribers;
      }
      empty := |subscribers| == 0 && !dead;
    }

    /** Arms the grace timer unless one is recorded. */
    method ArmCleanup(timer: nat) returns (armed: bool)
      modifies this`cleanup
      ensures armed == old(cleanup).None?
      ensures Value() == if armed then old(Value()).(cleanup := Some(timer)) else old(Value())
    {
      armed := cleanup.None?;
      if armed {
        cleanup := Some(timer);
      }
    }

    /** The grace timer's callback; a retired stream gives up its pump. */
    method GraceExpired() returns (retired: bool, cancelPump: bool)
      requires Valid()
      modifies this
      ensures Valid() && Value() == AfterGrace(old(Value()))
      ensures retired == (old(subscribers) == [] && !old(dead)) && cancelPump == (retired && old(pumpSet))
    {
      NoElements(subscribers);
      if |subscribers| > 0 || dead {
        cleanup := None;
        return false, false;
      }
      dead := true;
      cancelPump := pumpSet;
      pumpSet := false;
      retired := true;
    }
  }

  class StreamManager {
    var streams: map<string, SessionStream>

    constructor ()
      ensures streams == map[]
    {
      streams := map[];
    }

    /**
     The stream a subscriber will try to join: the mapped one without its timer, or a new one in
     place of a dead one.
     */
    method Lookup(sessionId: string) returns (stream: SessionStream)
      modifies this, if sessionId in streams then {streams[sessionId]} else {}
      ensures streams == old(streams)[sessionId := stream]
      ensures if sessionId in old(streams) && !old(streams[sessionId].dead)
              then stream == old(streams)[sessionId]
                   && stream.Value() == old(streams[sessionId].Value()).(cleanup := None)
                   && stream.subscribers == old(streams[sessionId].subscribers)
              else fresh(stream) && stream.Value() == NEW_STREAM && stream.Valid()
      ensures sessionId in old(streams) && old(streams[sessionId].dead) ==>
                old(streams)[sessionId].Value() == old(streams[sessionId].Value())
    {
      if sessionId !in streams || streams[sessionId].dead {
        stream := new SessionStream();
        streams := streams[sessionId := stream];
      } else {
        stream := streams[sessionId];
        if stream.cleanup.Some? {
          stream.cleanup := None;
        }
      }
    }

    /** The callback with both locks held: a retired stream leaves the map if it is still the mapped one. */
    method CleanupSessionStream(sessionId: string, stream: SessionStream) returns (cancelPump: bool)
      requires stream.Valid()
      modifies this, stream
      ensures stream.Valid() && stream.Value() == AfterGrace(old(stream.Value()))
      ensures var retired := old(stream.subscribers) == [] && !old(stream.dead);
        && cancelPump == (retired && old(stream.pumpSet))
        && streams == if retired && sessionId in old(streams) && old(streams)[sessionId] == stream
                      then old(streams) - {sessionId} else old(streams)
    {
      var retired;
      retired, cancelPump := stream.GraceExpired();
      if retired && sessionId in streams && streams[sessionId] == stream {
        streams := streams - {sessionId};
      }
    }
  }
}
