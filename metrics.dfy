/** The per-tick metrics record `log_metrics` appends to both of its sinks. */
module Metrics {
  import opened Types
  import opened Vehicles
  import opened Perceive
  import TrafficLight

  datatype Metrics = Metrics(
    timestamp: real,
    activeVehicles: nat,
    totalProcessed: int,
    crossed: int,
    queueNorth: nat,
    queueSouth: nat,
    queueEast: nat,
    queueWest: nat,
    avgWaitTime: real,
    lightNs: Color,
    lightEw: Color,
    emergencyActive: bool)

  /** The record for time `now`, vehicle counter `count`, vehicle list `vs` and light `l`. */
  function MetricsOf(now: real, count: int, vs: seq<Vehicle>, l: TrafficLight.LightState): (m: Metrics)
    ensures m.timestamp == now && m.totalProcessed == count
    ensures m.queueNorth + m.queueSouth + m.queueEast + m.queueWest == m.activeVehicles <= |vs|
    ensures m.crossed == count - m.activeVehicles
    ensures m.lightNs == l.northSouth && m.lightEw == l.eastWest && m.emergencyActive == l.emergencyMode
  {
    QueueLengthsPartitionActive(vs);
    ActivePlusCrossed(vs);
    var active := Active(vs);
    Metrics(now, |active|, count, count - |active|,
            |Queue(vs, North)|, |Queue(vs, South)|, |Queue(vs, East)|, |Queue(vs, West)|,
            MeanWait(active), l.northSouth, l.eastWest, l.emergencyMode)
  }

  /** Count identities of one record: the four queue fields add up to the active count, and,
      when every spawned vehicle is still in the list (the engine never removes one), the
      `crossed` field is the number of vehicles that have crossed. */
  lemma MetricsCounts(now: real, vs: seq<Vehicle>, l: TrafficLight.LightState)
    ensures var m := MetricsOf(now, |vs|, vs, l);
            && m.queueNorth + m.queueSouth + m.queueEast + m.queueWest == m.activeVehicles
            && m.crossed == CrossedCount(vs)
            && m.activeVehicles + m.crossed == m.totalProcessed
  {
    QueueLengthsPartitionActive(vs);
    ActivePlusCrossed(vs);
  }

  /** The metrics agree with the agent's perception of the same list: the same queue lengths. */
  lemma MetricsAgreeWithPerception(now: real, count: int, vs: seq<Vehicle>, l: TrafficLight.LightState)
    ensures var m := MetricsOf(now, count, vs, l);
            var p := PerceptionOf(vs);
            forall d :: QueueField(m, d) == p.queues.Get(d)
  {
  }

  /** The `queue_<direction>` field of a record. */
  function QueueField(m: Metrics, d: Direction): nat
  {
    match d
    case North => m.queueNorth
    case South => m.queueSouth
    case East => m.queueEast
    case West => m.queueWest
  }

  /** The metrics' single mean is the pooled mean of the four queues the perception reports:
      their summed waiting time over their summed length. */
  lemma OverallMeanWait(vs: seq<Vehicle>)
    ensures MeanWait(Active(vs))
            == Mean(TotalWait(Queue(vs, North)) + TotalWait(Queue(vs, South))
                    + TotalWait(Queue(vs, East)) + TotalWait(Queue(vs, West)),
                    |Queue(vs, North)| + |Queue(vs, South)| + |Queue(vs, East)| + |Queue(vs, West)|)
  {
    QueueWaitsPartitionActive(vs);
    QueueLengthsPartitionActive(vs);
  }
}
