/** The agent's perception: per-direction queues, mean waits and emergency detection. */
module Perceive {
  import opened Types
  import opened Vehicles

  /** What `perceive_environment` returns. `emergencyDir` is `Some(d)` exactly when the
      engine's `emergency` flag is set, `d` being its `emergency_dir`. */
  datatype Perception = Perception(
    queues: PerDirection<nat>,
    waitTimes: PerDirection<real>,
    emergencyDir: Option<Direction>)

  /** The vehicles that have not crossed, in list order. */
  function Active(vs: seq<Vehicle>): seq<Vehicle>
  {
    if vs == [] then []
    else
      var last := vs[|vs| - 1];
      Active(vs[..|vs| - 1]) + if last.crossed then [] else [last]
  }

  /** The queue of direction `d`: the vehicles heading `d` that have not crossed, in list order. */
  function Queue(vs: seq<Vehicle>, d: Direction): seq<Vehicle>
  {
    if vs == [] then []
    else
      var last := vs[|vs| - 1];
      Queue(vs[..|vs| - 1], d) + if !last.crossed && last.direction == d then [last] else []
  }

  /** The queue of `d` holds exactly the non-crossed vehicles of the list heading `d`. */
  lemma {:induction false} QueueMembers(vs: seq<Vehicle>, d: Direction)
    ensures forall v :: v in Queue(vs, d) <==> v in vs && !v.crossed && v.direction == d
  {
    if vs != [] {
      var init := vs[..|vs| - 1];
      QueueMembers(init, d);
      assert vs == init + [vs[|vs| - 1]];
    }
  }

  /** The active list holds exactly the non-crossed vehicles of the list. */
  lemma {:induction false} ActiveMembers(vs: seq<Vehicle>)
    ensures forall v :: v in Active(vs) <==> v in vs && !v.crossed
  {
    if vs != [] {
      var init := vs[..|vs| - 1];
      ActiveMembers(init);
      assert vs == init + [vs[|vs| - 1]];
    }
  }

  /** Grouping the active list by direction gives the same queues as grouping the whole list. */
  lemma {:induction false} QueueOfActive(vs: seq<Vehicle>, d: Direction)
    ensures Queue(Active(vs), d) == Queue(vs, d)
  {
    if vs != [] {
      var init, last := vs[..|vs| - 1], vs[|vs| - 1];
      QueueOfActive(init, d);
      if !last.crossed {
        assert (Active(init) + [last])[..|Active(init)|] == Active(init);
      } else {
        assert Active(vs) == Active(init);
      }
    }
  }

  /** How many vehicles have crossed. */
  function CrossedCount(vs: seq<Vehicle>): nat
  {
    if vs == [] then 0
    else CrossedCount(vs[..|vs| - 1]) + if vs[|vs| - 1].crossed then 1 else 0
  }

  function TotalWait(s: seq<Vehicle>): real
  {
    if s == [] then 0.0 else TotalWait(s[..|s| - 1]) + s[|s| - 1].waitTime
  }

  /** The mean of `count` values summing to `total`, 0 when there are none. */
  function Mean(total: real, count: nat): real
  {
    if count == 0 then 0.0 else total / count as real
  }

  /** Average waiting time of a group, 0 for an empty group. */
  function MeanWait(s: seq<Vehicle>): real
  {
    Mean(TotalWait(s), |s|)
  }

  predicate WaitingEmergency(v: Vehicle)
  {
    !v.crossed && v.kind == Emergency && v.waiting
  }

  /** The heading of the last waiting emergency vehicle in list order, if any. */
  function LastWaitingEmergency(vs: seq<Vehicle>): (r: Option<Direction>)
    ensures r.Some? ==> exists v :: v in vs && WaitingEmergency(v) && v.direction == r.value
    ensures r.None? ==> forall v :: v in vs ==> !WaitingEmergency(v)
  {
    if vs == [] then None
    else if WaitingEmergency(vs[|vs| - 1]) then Some(vs[|vs| - 1].direction)
    else LastWaitingEmergency(vs[..|vs| - 1])
  }

  /** The perception of a vehicle list: an empty direction reports a mean wait of 0. */
  function PerceptionOf(vs: seq<Vehicle>): (p: Perception)
    ensures forall d :: p.queues.Get(d) == 0 ==> p.waitTimes.Get(d) == 0.0
  {
    Perception(
      PerDirection(|Queue(vs, North)|, |Queue(vs, South)|, |Queue(vs, East)|, |Queue(vs, West)|),
      PerDirection(MeanWait(Queue(vs, North)), MeanWait(Queue(vs, South)),
                   MeanWait(Queue(vs, East)), MeanWait(Queue(vs, West))),
      LastWaitingEmergency(vs))
  }

  /** The four queues split the active vehicles: their lengths add up to the active count. */
  lemma {:induction false} QueueLengthsPartitionActive(vs: seq<Vehicle>)
    ensures |Queue(vs, North)| + |Queue(vs, South)| + |Queue(vs, East)| + |Queue(vs, West)| == |Active(vs)|
  {
    if vs != [] {
      QueueLengthsPartitionActive(vs[..|vs| - 1]);
    }
  }

  /** The queues' waiting times add up to the active vehicles' total waiting time. */
  lemma {:induction false} QueueWaitsPartitionActive(vs: seq<Vehicle>)
    ensures TotalWait(Queue(vs, North)) + TotalWait(Queue(vs, South))
            + TotalWait(Queue(vs, East)) + TotalWait(Queue(vs, West)) == TotalWait(Active(vs))
  {
    if vs != [] {
      var init, last := vs[..|vs| - 1], vs[|vs| - 1];
      QueueWaitsPartitionActive(init);
      forall d | true
        ensures TotalWait(Queue(vs, d)) ==
                TotalWait(Queue(init, d)) + if !last.crossed && last.direction == d then last.waitTime else 0.0
      {
        TotalWaitAppend(Queue(init, d), if !last.crossed && last.direction == d then [last] else []);
      }
      TotalWaitAppend(Active(init), if last.crossed then [] else [last]);
    }
  }

  lemma {:induction false} TotalWaitAppend(s: seq<Vehicle>, t: seq<Vehicle>)
    requires |t| <= 1
    ensures TotalWait(s + t) == TotalWait(s) + TotalWait(t)
  {
    if t != [] {
      assert (s + t)[..|s + t| - 1] == s;
      assert (s + t)[|s + t| - 1] == t[0];
      assert t[..0] == [] && TotalWait(t[..0]) == 0.0;
      assert TotalWait(t) == t[0].waitTime;
      assert TotalWait(s + t) == TotalWait(s) + t[0].waitTime;
    } else {
      assert s + t == s;
    }
  }

  /** Every vehicle is either active or counted as crossed. */
  lemma {:induction false} ActivePlusCrossed(vs: seq<Vehicle>)
    ensures |Active(vs)| + CrossedCount(vs) == |vs|
  {
    if vs != [] {
      ActivePlusCrossed(vs[..|vs| - 1]);
    }
  }

  /** The mean of a nonempty group times its size is its total; an empty group's mean is 0. */
  lemma MeanTimesCount(s: seq<Vehicle>)
    ensures MeanWait(s) * |s| as real == TotalWait(s)
  {
    if s == [] {
      assert TotalWait(s) == 0.0;
    }
  }

  /** The emergency flag is set exactly when some non-crossed emergency vehicle is waiting. */
  lemma {:induction false} EmergencyDetected(vs: seq<Vehicle>)
    ensures LastWaitingEmergency(vs).Some? <==> exists i :: 0 <= i < |vs| && WaitingEmergency(vs[i])
  {
    if vs != [] {
      var init := vs[..|vs| - 1];
      EmergencyDetected(init);
      if exists i :: 0 <= i < |init| && WaitingEmergency(init[i]) {
        var i :| 0 <= i < |init| && WaitingEmergency(init[i]);
        assert vs[i] == init[i];
      }
      if exists i :: 0 <= i < |vs| && WaitingEmergency(vs[i]) {
        var i :| 0 <= i < |vs| && WaitingEmergency(vs[i]);
        if i < |init| {
          assert init[i] == vs[i];
        }
      }
    }
  }

  /** The reported direction is that of the LAST waiting emergency vehicle in list order. */
  lemma {:induction false} EmergencyDirIsLast(vs: seq<Vehicle>)
    requires LastWaitingEmergency(vs).Some?
    ensures exists i :: 0 <= i < |vs| && WaitingEmergency(vs[i])
                        && vs[i].direction == LastWaitingEmergency(vs).value
                        && forall j :: i < j < |vs| ==> !WaitingEmergency(vs[j])
  {
    var n := |vs|;
    if WaitingEmergency(vs[n - 1]) {
      assert WaitingEmergency(vs[n - 1]) && vs[n - 1].direction == LastWaitingEmergency(vs).value;
    } else {
      var init := vs[..n - 1];
      EmergencyDirIsLast(init);
      var i :| 0 <= i < |init| && WaitingEmergency(init[i])
               && init[i].direction == LastWaitingEmergency(init).value
               && forall j :: i < j < |init| ==> !WaitingEmergency(init[j]);
      assert vs[i] == init[i];
      forall j | i < j < n ensures !WaitingEmergency(vs[j]) {
        if j < n - 1 {
          assert vs[j] == init[j];
        }
      }
    }
  }
}
