/** The tracker of in-flight runs, by agent. */
module Tracker {

  /** Agent key to start time. */
  type InFlight = map<string, int>

  /** What CleanStale leaves. */
  function Fresh(inflight: InFlight, now: int, maxAge: int): InFlight {
    map key | key in inflight && now - inflight[key] <= maxAge :: inflight[key]
  }

  class RunTracker {
    var inflight: InFlight

    constructor ()
      ensures inflight == map[]
    {
      inflight := map[];
    }

    method TryStart(agentKey: string, now: int) returns (started: bool)
      modifies this
      ensures started == (agentKey !in old(inflight))
      ensures inflight == if started then old(inflight)[agentKey := now] else old(inflight)
    {
      if agentKey in inflight {
        return false;
      }
      inflight := inflight[agentKey := now];
      return true;
    }

    method Complete(agentKey: string)
      modifies this
      ensures inflight == old(inflight) - {agentKey}
    {
      inflight := inflight - {agentKey};
    }

    /** Deletes while iterating over the map; `cleaned` counts the removals. */
    method CleanStale(maxAge: int, now: int) returns (cleaned: nat)
      modifies this
      ensures inflight == Fresh(old(inflight), now, maxAge)
      ensures forall key :: key in inflight <==> key in old(inflight) && now - old(inflight)[key] <= maxAge
      ensures forall key :: key in inflight ==> inflight[key] == old(inflight)[key]
      ensures cleaned == |old(inflight)| - |inflight|
    {
      cleaned := 0;
      var keys := inflight.Keys;
      while keys != {}
        invariant inflight.Keys <= old(inflight).Keys && keys <= inflight.Keys
        invariant forall k :: k in inflight ==> inflight[k] == old(inflight)[k]
        invariant forall k :: k in old(inflight) && k !in keys ==>
                    (k in inflight <==> now - old(inflight)[k] <= maxAge)
        invariant cleaned == |old(inflight)| - |inflight|
      {
        var key :| key in keys;
        keys := keys - {key};
        if now - inflight[key] > maxAge {
          assert (inflight - {key}).Keys == inflight.Keys - {key};
          assert |inflight - {key}| == |(inflight - {key}).Keys| == |inflight.Keys| - 1;
          inflight := inflight - {key};
          cleaned := cleaned + 1;
        }
      }
    }
  }
}
