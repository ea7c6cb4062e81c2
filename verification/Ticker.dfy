/**
 The timer behind the consensus state: it holds one timeout at a time, replaces it only by a later one,
 and relays it when the time is up.
 */
module Ticker {
  import opened Consensus

  predicate Earlier(a: TimeoutInfo, b: TimeoutInfo)
  {
    CompareHRS(a.height, a.round, a.step, b.height, b.round, b.step) < 0
  }

  /** Whether a requested timeout replaces the one held; a step of zero is that of no timeout yet. */
  predicate Replaces(t: TimeoutInfo, held: TimeoutInfo)
  {
    if t.height < held.height then false
    else if t.height > held.height then true
    else if t.round < held.round then false
    else if t.round > held.round then true
    else !(held.step > 0 && t.step <= held.step)
  }

  class TimeoutTicker {
    var ti: TimeoutInfo
    var armed: bool
    var tocks: seq<TimeoutInfo>
    ghost var ticks: set<TimeoutInfo>

    /**
     The timeout held is the latest requested so far; those relayed come in strictly increasing order, so
     none is relayed twice and none after a later one.
     */
    ghost predicate Valid()
      reads this
    {
      && (if ticks == {} then ti == TimeoutInfo(0, 0, 0) && !armed && tocks == [] else ti in ticks && ti.step > 0)
      && (forall t :: t in ticks ==> t == ti || Earlier(t, ti))
      && (forall i :: 0 <= i < |tocks| ==> tocks[i] in ticks)
      && (forall i, j :: 0 <= i < j < |tocks| ==> Earlier(tocks[i], tocks[j]))
      && (armed ==> forall i :: 0 <= i < |tocks| ==> Earlier(tocks[i], ti))
    }

    constructor ()
      ensures Valid() && ticks == {} && tocks == []
    {
      ti, armed, tocks, ticks := TimeoutInfo(0, 0, 0), false, [], {};
    }

    method Schedule(t: TimeoutInfo)
      requires Valid() && t.height >= 0 && t.round >= 0 && t.step > 0
      modifies this
      ensures Valid() && ticks == old(ticks) + {t} && tocks == old(tocks)
      ensures var later := old(ticks) == {} || Earlier(old(ti), t);
              ti == (if later then t else old(ti)) && armed == (later || old(armed))
    {
      if Replaces(t, ti) {
        ti, armed := t, true;
      }
      ticks := ticks + {t};
    }

    /** The time is up. */
    method Expire()
      requires Valid()
      modifies this
      ensures Valid() && ticks == old(ticks) && ti == old(ti) && !armed
      ensures tocks == if old(armed) then old(tocks) + [ti] else old(tocks)
    {
      if armed {
        tocks := tocks + [ti];
        armed := false;
      }
    }
  }
}
