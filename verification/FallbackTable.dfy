/** The per-session fallback map of a stream manager: each method is one critical section. */
module FallbackTable {
  import opened Options
  import opened FallbackRecovery

  class FallbackMarker {
    var watermark: nat
    var retrying: bool

    constructor ()
      ensures watermark == 0 && !retrying
    {
      watermark, retrying := 0, false;
    }
  }

  class Table {
    var fellBack: map<string, FallbackMarker>

    /** No marker serves two sessions, and every recorded marker has its retrier. */
    ghost predicate Valid()
      reads this, fellBack.Values
    {
      && (forall s, u :: s in fellBack && u in fellBack && fellBack[s] == fellBack[u] ==> s == u)
      && (forall s :: s in fellBack ==> fellBack[s].retrying)
    }

    ghost function Watermarks(): map<string, nat>
      reads this, fellBack.Values
    {
      map s | s in fellBack :: fellBack[s].watermark
    }

    /** The session's slot, as the interleavings of FallbackRecovery see it. */
    ghost function PendingOf(session: string): Option<nat>
      reads this, fellBack.Values
    {
      if session in fellBack then Some(fellBack[session].watermark) else None
    }

    constructor ()
      ensures Valid() && Watermarks() == map[]
    {
      fellBack := map[];
    }

    /** Records a fallback up to num; start tells the caller to start the marker's retrier. */
    method MarkFellBack(session: string, num: nat) returns (start: bool, marker: FallbackMarker)
      requires Valid()
      modifies this, fellBack.Values
      ensures Valid()
      ensures PendingOf(session) == MarkedSlot(old(PendingOf(session)), num)
      ensures PendingOf(session).Some? && Watermarks() == old(Watermarks())[session := PendingOf(session).value]
      ensures session in fellBack && marker == fellBack[session] && start == old(PendingOf(session)).None?
      ensures if start then fresh(marker) else marker == old(fellBack[session])
    {
      if session in fellBack {
        marker := fellBack[session];
      } else {
        marker := new FallbackMarker();
        fellBack := fellBack[session := marker];
      }
      if num > marker.watermark {
        marker.watermark := num;
      }
      start := !marker.retrying;
      if start {
        marker.retrying := true;
      }
    }

    /** Consumes the session's watermark, if any. */
    method TakeFellBack(session: string) returns (watermark: Option<nat>)
      requires Valid()
      modifies this
      ensures Valid() && Watermarks() == old(Watermarks()) - {session}
      ensures watermark == old(PendingOf(session)) && PendingOf(session) == None
    {
      if session !in fellBack {
        return None;
      }
      watermark := Some(fellBack[session].watermark);
      fellBack := fellBack - {session};
    }

    /** Drops the session's marker only while it is still the given one. */
    method ClearFallback(session: string, marker: FallbackMarker)
      requires Valid()
      modifies this
      ensures Valid()
      ensures var current := session in old(fellBack) && old(fellBack[session]) == marker;
        && PendingOf(session) == (if current then None else old(PendingOf(session)))
        && Watermarks() == if current then old(Watermarks()) - {session} else old(Watermarks())
    {
      if session in fellBack && fellBack[session] == marker {
        fellBack := fellBack - {session};
      }
    }

    method ForgetFallback(session: string)
      requires Valid()
      modifies this
      ensures Valid() && PendingOf(session) == None && Watermarks() == old(Watermarks()) - {session}
    {
      fellBack := fellBack - {session};
    }

    /**
     The retrier's section after its resync committed at the watermark it had read: the marker
     goes only if it is current and nothing newer was recorded; again asks for another round.
     */
    method ConfirmSent(session: string, marker: FallbackMarker, sent: nat) returns (again: bool)
      requires Valid()
      modifies this
      ensures Valid()
      ensures var current := session in old(fellBack) && old(fellBack[session]) == marker;
        var was := old(PendingOf(session));
        && PendingOf(session) == (if current then ConfirmedSlot(was, sent) else was)
        && again == (current && PendingOf(session).Some?)
        && Watermarks() ==
           if current && PendingOf(session).None? then old(Watermarks()) - {session} else old(Watermarks())
    {
      if session in fellBack && fellBack[session] == marker && marker.watermark == sent {
        fellBack := fellBack - {session};
        return false;
      }
      again := session in fellBack && fellBack[session] == marker;
    }
  }
}
