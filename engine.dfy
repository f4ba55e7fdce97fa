/** The simulation engine: the state the REST endpoints and the tick loop change. */
module Engine {
  import opened Types
  import opened History
  import TrafficLight
  import opened Vehicles
  import opened Perceive
  import opened Agent
  import Metrics

  /** `SimulationConfig`. It is stored as given; nothing validates it. */
  datatype Config = Config(
    spawnRate: real,
    maxVehicles: int,
    greenTime: int,
    queueThreshold: int,
    waitThreshold: int)

  const DefaultConfig: Config := Config(2.0, 80, 30, 10, 60)

  /** The `maxlen` of the two deques. */
  const DecisionCapacity: nat := 100
  const MetricsCapacity: nat := 1000

  /** Vehicle `i` of the list carries id `i + 1`: ids are handed out by a counter that only
      grows, and vehicles are never removed. */
  predicate Numbered(vs: seq<Vehicle>)
  {
    forall i :: 0 <= i < |vs| ==> vs[i].id == i + 1
  }

  /** Ids increase strictly along the list, so no two vehicles share one. */
  lemma NumberedIdsIncrease(vs: seq<Vehicle>)
    requires Numbered(vs)
    ensures forall i, j :: 0 <= i < j < |vs| ==> vs[i].id < vs[j].id
  {
  }

  /** The `sum(v['wait_time'] for v in s)` loop. */
  method SumWaits(s: seq<Vehicle>) returns (t: real)
    ensures t == TotalWait(s)
  {
    t := 0.0;
    var i := 0;
    while i < |s|
      invariant 0 <= i <= |s|
      invariant t == TotalWait(s[..i])
    {
      assert s[..i + 1][..i] == s[..i];
      t := t + s[i].waitTime;
      i := i + 1;
    }
    assert s[..i] == s;
  }

  /** The first loop of `perceive_environment`: the non-crossed vehicles grouped by heading,
      and the heading of the last waiting emergency vehicle. */
  method GroupByDirection(vs: seq<Vehicle>) returns (queues: PerDirection<seq<Vehicle>>, emergencyDir: Option<Direction>)
    ensures forall e :: queues.Get(e) == Queue(vs, e)
    ensures emergencyDir == LastWaitingEmergency(vs)
  {
    queues := PerDirection([], [], [], []);
    emergencyDir := None;
    var i := 0;
    while i < |vs|
      invariant 0 <= i <= |vs|
      invariant forall e :: queues.Get(e) == Queue(vs[..i], e)
      invariant emergencyDir == LastWaitingEmergency(vs[..i])
    {
      assert vs[..i + 1][..i] == vs[..i];
      var v := vs[i];
      if !v.crossed {
        queues := queues.Set(v.direction, queues.Get(v.direction) + [v]);
        if v.kind == Emergency && v.waiting {
          emergencyDir := Some(v.direction);
        }
      }
      i := i + 1;
    }
    assert vs[..i] == vs;
  }

  /** The `[v for v in vehicles if not v['crossed']]` comprehension. */
  method ActiveVehicles(vs: seq<Vehicle>) returns (active: seq<Vehicle>)
    ensures active == Active(vs)
  {
    active := [];
    var i := 0;
    while i < |vs|
      invariant 0 <= i <= |vs|
      invariant active == Active(vs[..i])
    {
      assert vs[..i + 1][..i] == vs[..i];
      if !vs[i].crossed {
        active := active + [vs[i]];
      }
      i := i + 1;
    }
    assert vs[..i] == vs;
  }

  /** The counting loop of `log_metrics`, run over the active vehicles of `vs`. */
  method CountByDirection(vs: seq<Vehicle>, active: seq<Vehicle>) returns (queues: PerDirection<nat>)
    requires active == Active(vs)
    ensures forall e :: queues.Get(e) == |Queue(vs, e)|
  {
    ActiveMembers(vs);
    queues := PerDirection(0, 0, 0, 0);
    var j := 0;
    while j < |active|
      invariant 0 <= j <= |active|
      invariant forall e :: queues.Get(e) == |Queue(active[..j], e)|
    {
      assert active[..j + 1][..j] == active[..j];
      assert active[j] in active;
      var d := active[j].direction;
      queues := queues.Set(d, queues.Get(d) + 1);
      j := j + 1;
    }
    assert active[..j] == active;
    forall e | true
      ensures queues.Get(e) == |Queue(vs, e)|
    {
      QueueOfActive(vs, e);
    }
  }

  /** The vehicle list after the spawning step of `update`: one new vehicle, numbered after
      the last, when the draw says spawn and the list is below capacity. */
  function Spawned(vs: seq<Vehicle>, maxVehicles: int, spawn: bool, kindDraw: real, d: Direction, now: real): (r: seq<Vehicle>)
    ensures Numbered(vs) ==> Numbered(r)
    ensures |r| == if spawn && |vs| < maxVehicles then |vs| + 1 else |vs|
    ensures r[..|vs|] == vs
    ensures |r| == |vs| + 1 ==>
              var v := r[|vs|];
              && v.id == |vs| + 1 && v.kind == KindOfDraw(kindDraw) && v.direction == d
              && (v.x, v.y) == SpawnPosition(d) && v.spawnTime == now
              && !v.crossed && !v.waiting && v.waitTime == 0.0
  {
    if spawn && |vs| < maxVehicles then vs + [NewVehicle(|vs| + 1, KindOfDraw(kindDraw), d, now)] else vs
  }

  /** What `get_state` reports. */
  datatype Snapshot = Snapshot(
    simTime: real,
    vehicles: seq<Vehicle>,
    northSouth: Color,
    eastWest: Color,
    timeRemaining: real,
    emergencyMode: bool,
    metrics: Option<Metrics.Metrics>)

  class SimulationEngine {
    var vehicles: seq<Vehicle>
    var vehicleCount: int
    var simTime: real
    var running: bool
    var paused: bool
    var config: Config

    // The five entries of `light_state`.
    var northSouth: Color
    var eastWest: Color
    var timer: real
    var phaseDuration: real
    var emergencyMode: bool

    var decisionHistory: seq<Decision>
    var dataLog: seq<Metrics.Metrics>
    var metricsHistory: seq<Metrics.Metrics>

    /** Every decision ever recorded; `decisionHistory` holds the latest 100 of them. */
    ghost var decisions: seq<Decision>

    /** The light fields as one value. */
    function Light(): TrafficLight.LightState
      reads this`northSouth, this`eastWest, this`timer, this`phaseDuration, this`emergencyMode
    {
      TrafficLight.LightState(northSouth, eastWest, timer, phaseDuration, emergencyMode)
    }

    /** What holds between any two calls. */
    ghost predicate Valid()
      reads this
    {
      LightValid() && PopulationValid() && DecisionsValid() && MetricsValid()
    }

    ghost predicate LightValid()
      reads this`northSouth, this`eastWest, this`timer, this`phaseDuration, this`emergencyMode
    {
      TrafficLight.Valid(Light())
    }

    /** The counter equals the list length, ids follow list order, every record is well formed. */
    ghost predicate PopulationValid()
      reads this`vehicles, this`vehicleCount
    {
      && vehicleCount == |vehicles|
      && Numbered(vehicles)
      && (forall i :: 0 <= i < |vehicles| ==> WellFormed(vehicles[i]))
    }

    /** The deque holds the latest 100 of all decisions ever made. */
    ghost predicate DecisionsValid()
      reads this`decisionHistory, this`decisions
    {
      decisionHistory == Latest(decisions, DecisionCapacity)
    }

    /** The deque holds the latest 1000 records of the append-only log. */
    ghost predicate MetricsValid()
      reads this`metricsHistory, this`dataLog
    {
      metricsHistory == Latest(dataLog, MetricsCapacity)
    }

    /** The state `__init__` builds. */
    ghost predicate IsInitial()
      reads this
    {
      && vehicles == [] && vehicleCount == 0 && simTime == 0.0
      && !running && !paused && config == DefaultConfig
      && Light() == TrafficLight.Initial()
      && decisions == [] && decisionHistory == [] && dataLog == [] && metricsHistory == []
    }

    /** `__init__`. The reset endpoint also ends here: it replaces the engine by a new one,
        so vehicle ids start over. */
    constructor ()
      ensures Valid() && IsInitial()
    {
      vehicles, vehicleCount, simTime := [], 0, 0.0;
      running, paused := false, false;
      config := DefaultConfig;
      northSouth, eastWest, timer, phaseDuration, emergencyMode := Green, Red, 0.0, 30.0, false;
      decisions, decisionHistory := [], [];
      dataLog, metricsHistory := [], [];
    }

    /** `spawn_vehicle`, with the kind draw and the direction passed in. The capacity test
        counts every stored vehicle, crossed ones included. */
    method SpawnVehicle(kindDraw: real, d: Direction)
      requires PopulationValid()
      modifies this`vehicles, this`vehicleCount
      ensures PopulationValid()
      ensures old(|vehicles|) >= config.maxVehicles ==>
                vehicles == old(vehicles) && vehicleCount == old(vehicleCount)
      ensures old(|vehicles|) < config.maxVehicles ==>
                && vehicleCount == old(vehicleCount) + 1
                && vehicles == old(vehicles) + [NewVehicle(vehicleCount, KindOfDraw(kindDraw), d, simTime)]
    {
      if |vehicles| >= config.maxVehicles {
        return;
      }
      vehicleCount := vehicleCount + 1;
      var kind := KindOfDraw(kindDraw);
      vehicles := vehicles + [NewVehicle(vehicleCount, kind, d, simTime)];
    }

    /** The body of the `spawn_emergency` endpoint: an emergency vehicle is added whatever
        the capacity, and its id is returned. */
    method SpawnEmergency(d: Direction) returns (id: int)
      requires PopulationValid()
      modifies this`vehicles, this`vehicleCount
      ensures PopulationValid()
      ensures id == vehicleCount == old(vehicleCount) + 1
      ensures vehicles == old(vehicles) + [NewVehicle(id, Emergency, d, simTime)]
    {
      vehicleCount := vehicleCount + 1;
      var v := NewVehicle(vehicleCount, Emergency, d, simTime);
      vehicles := vehicles + [v];
      id := v.id;
    }

    /** `perceive_environment`: one pass over the vehicles, then the per-direction means. */
    method PerceiveEnvironment() returns (p: Perception)
      ensures p == PerceptionOf(vehicles)
    {
      var queues, emergencyDir := GroupByDirection(vehicles);
      var waits: PerDirection<real> := PerDirection(0.0, 0.0, 0.0, 0.0);
      var k := 0;
      while k < |Directions|
        invariant 0 <= k <= |Directions|
        invariant forall j :: 0 <= j < k ==> waits.Get(Directions[j]) == MeanWait(queues.Get(Directions[j]))
      {
        var d := Directions[k];
        var q := queues.Get(d);
        if |q| > 0 {
          var total := SumWaits(q);
          waits := waits.Set(d, total / |q| as real);
        } else {
          waits := waits.Set(d, 0.0);
        }
        k := k + 1;
      }
      assert waits.Get(Directions[0]) == waits.north && waits.Get(Directions[1]) == waits.south;
      assert waits.Get(Directions[2]) == waits.east && waits.Get(Directions[3]) == waits.west;
      p := Perception(
        PerDirection(|queues.north|, |queues.south|, |queues.east|, |queues.west|),
        waits,
        emergencyDir);
      assert queues.north == queues.Get(North) && queues.south == queues.Get(South);
      assert queues.east == queues.Get(East) && queues.west == queues.Get(West);
    }

    /** Appends one record to the decision history, evicting the oldest when it is full. */
    method Record(entry: Decision)
      requires DecisionsValid()
      modifies this`decisionHistory, this`decisions
      ensures decisions == old(decisions) + [entry]
      ensures decisionHistory == BoundedAppend(old(decisionHistory), entry, DecisionCapacity)
      ensures DecisionsValid()
    {
      BoundedAppendKeepsLatest(decisions, entry, DecisionCapacity);
      decisionHistory := BoundedAppend(decisionHistory, entry, DecisionCapacity);
      decisions := decisions + [entry];
    }

    /** `agent_decide`: the light changes as `Decide` says, and exactly one record, stamped
        with the current time, is appended to the history. */
    method AgentDecide(p: Perception)
      requires LightValid() && DecisionsValid()
      modifies this`northSouth, this`eastWest, this`timer, this`phaseDuration, this`emergencyMode
      modifies this`decisionHistory, this`decisions
      ensures LightValid() && DecisionsValid()
      ensures var r := Decide(old(Light()), p, config.queueThreshold, config.waitThreshold);
              && Light() == r.light
              && decisions == old(decisions) + [Decision(simTime, r.rule, r.direction)]
    {
      if p.emergencyDir.Some? {
        ActivateEmergency(p.emergencyDir.value);
        Record(Decision(simTime, EmergencyOverride, p.emergencyDir));
        return;
      }
      if emergencyMode {
        DeactivateEmergency();
      }
      var entry := ApplyRules(p);
      Record(entry);
    }

    /** The queue and wait loops of `agent_decide` and its standard fallback; the record to
        append is returned. */
    method ApplyRules(p: Perception) returns (entry: Decision)
      requires LightValid()
      modifies this`phaseDuration
      ensures LightValid()
      ensures var r := RuleDecision(old(Light()), p, config.queueThreshold, config.waitThreshold);
              Light() == r.light && entry == Decision(simTime, r.rule, r.direction)
    {
      var qi := FirstPressingIndex(QueueExtend, p, config.queueThreshold);
      if qi < |Directions| {
        TrafficLight.ExtendGreenKeepsValid(Light(), Directions[qi], 10.0);
        phaseDuration := phaseDuration + 10.0;
        return Decision(simTime, QueueExtend, Some(Directions[qi]));
      }
      var wi := FirstPressingIndex(WaitExtend, p, config.waitThreshold);
      if wi < |Directions| {
        TrafficLight.ExtendGreenKeepsValid(Light(), Directions[wi], 5.0);
        phaseDuration := phaseDuration + 5.0;
        return Decision(simTime, WaitExtend, Some(Directions[wi]));
      }
      entry := Decision(simTime, Standard, None);
    }

    /** One rule loop of `agent_decide`: directions in dictionary order, the first whose value
        is over the threshold and whose light is green; `|Directions|` when there is none. */
    method FirstPressingIndex(rule: Rule, p: Perception, threshold: int) returns (i: nat)
      ensures i == FirstPressing(rule, p, threshold, Light(), Directions)
    {
      i := 0;
      while i < |Directions|
        invariant 0 <= i <= |Directions|
        invariant forall j :: 0 <= j < i ==> !Pressing(rule, p, threshold, Light(), Directions[j])
      {
        var d := Directions[i];
        var over := match rule
                    case QueueExtend => p.queues.Get(d) > threshold
                    case WaitExtend => p.waitTimes.Get(d) > threshold as real
                    case _ => false;
        if over && TrafficLight.CanGo(Light(), d) {
          return;
        }
        i := i + 1;
      }
    }

    /** `activate_emergency`. */
    method ActivateEmergency(d: Direction)
      modifies this`northSouth, this`eastWest, this`emergencyMode
      ensures Light() == TrafficLight.Activate(old(Light()), d)
    {
      emergencyMode := true;
      if d == North || d == South {
        northSouth := Green;
        eastWest := Red;
      } else {
        eastWest := Green;
        northSouth := Red;
      }
    }

    /** `deactivate_emergency`. */
    method DeactivateEmergency()
      modifies this`emergencyMode, this`timer
      ensures Light() == TrafficLight.Deactivate(old(Light()))
    {
      emergencyMode := false;
      timer := 0.0;
    }

    /** `update_light`. */
    method UpdateLight(dt: real)
      modifies this`northSouth, this`eastWest, this`timer, this`phaseDuration
      ensures Light() == TrafficLight.Tick(old(Light()), dt)
    {
      if emergencyMode {
        return;
      }
      timer := timer + dt;
      if timer >= phaseDuration {
        timer := 0.0;
        TransitionLight();
      }
    }

    /** `transition_light`. */
    method TransitionLight()
      modifies this`northSouth, this`eastWest, this`phaseDuration
      ensures Light() == TrafficLight.NextPhase(old(Light()))
    {
      if northSouth == Green {
        northSouth := Yellow;
        phaseDuration := 5.0;
      } else if northSouth == Yellow {
        northSouth := Red;
        eastWest := Green;
        phaseDuration := 30.0;
      } else if eastWest == Green {
        eastWest := Yellow;
        phaseDuration := 5.0;
      } else if eastWest == Yellow {
        eastWest := Red;
        northSouth := Green;
        phaseDuration := 30.0;
      }
    }

    /** The movement loop of `update`: each vehicle record is updated in place. */
    method AdvanceVehicles(dt: real)
      requires PopulationValid()
      modifies this`vehicles
      ensures PopulationValid()
      ensures vehicles == AdvanceAll(old(vehicles), Light(), dt)
    {
      var i := 0;
      while i < |vehicles|
        invariant 0 <= i <= |vehicles| == |old(vehicles)|
        invariant forall j :: 0 <= j < i ==>
                    vehicles[j] == Advance(old(vehicles)[j], TrafficLight.CanGo(Light(), old(vehicles)[j].direction), dt)
        invariant forall j :: i <= j < |vehicles| ==> vehicles[j] == old(vehicles)[j]
      {
        var v := vehicles[i];
        if !v.crossed {
          if !TrafficLight.CanGo(Light(), v.direction) {
            v := v.(waiting := true, waitTime := v.waitTime + dt);
          } else {
            v := v.(waiting := false);
            match v.direction {
              case North => v := v.(y := v.y - Travel(dt));
              case South => v := v.(y := v.y + Travel(dt));
              case East => v := v.(x := v.x + Travel(dt));
              case West => v := v.(x := v.x - Travel(dt));
            }
            if OutOfBounds(v.x, v.y) {
              v := v.(crossed := true);
            }
          }
          vehicles := vehicles[i := v];
        }
        i := i + 1;
      }
    }

    /** `log_metrics`: the record is appended to the log and to the bounded history. */
    method LogMetrics()
      requires MetricsValid()
      modifies this`dataLog, this`metricsHistory
      ensures MetricsValid()
      ensures dataLog == old(dataLog) + [Metrics.MetricsOf(simTime, vehicleCount, vehicles, Light())]
      ensures metricsHistory
              == BoundedAppend(old(metricsHistory), Metrics.MetricsOf(simTime, vehicleCount, vehicles, Light()), MetricsCapacity)
    {
      var active := ActiveVehicles(vehicles);
      var queues := CountByDirection(vehicles, active);
      var totalWait := SumWaits(active);
      var avgWait := if |active| > 0 then totalWait / |active| as real else 0.0;

      var m := Metrics.Metrics(
        simTime, |active|, vehicleCount, vehicleCount - |active|,
        queues.north, queues.south, queues.east, queues.west,
        avgWait, northSouth, eastWest, emergencyMode);
      assert queues.north == queues.Get(North) && queues.south == queues.Get(South);
      assert queues.east == queues.Get(East) && queues.west == queues.Get(West);
      assert m == Metrics.MetricsOf(simTime, vehicleCount, vehicles, Light());

      BoundedAppendKeepsLatest(dataLog, m, MetricsCapacity);
      metricsHistory := BoundedAppend(metricsHistory, m, MetricsCapacity);
      dataLog := dataLog + [m];
    }

    /** `update(dt)`, with the random draws passed in: `spawnDraw` is compared with
        `dt / spawn_rate`, and `kindDraw` and `d` are used when a vehicle is spawned. A zero
        spawn rate makes the division fail after the clock has advanced; `ok` is then false.
        A paused engine changes nothing. */
    method Update(dt: real, spawnDraw: real, kindDraw: real, d: Direction)
      returns (ok: bool, ghost vs: seq<Vehicle>, ghost r: Decided)
      requires Valid()
      modifies this`simTime, this`vehicles, this`vehicleCount
      modifies this`northSouth, this`eastWest, this`timer, this`phaseDuration, this`emergencyMode
      modifies this`decisionHistory, this`decisions, this`dataLog, this`metricsHistory
      ensures Valid()
      ensures old(paused) ==> ok && unchanged(this)
      ensures !old(paused) ==> simTime == old(simTime) + dt
      ensures !old(paused) && config.spawnRate == 0.0 ==>
                && !ok
                && unchanged(this`vehicles, this`vehicleCount, this`decisions, this`dataLog)
                && Light() == old(Light())
      ensures !old(paused) && config.spawnRate != 0.0 ==>
                && ok
                && vs == Spawned(old(vehicles), config.maxVehicles, spawnDraw < dt / config.spawnRate, kindDraw, d, simTime)
                && vehicleCount == |vs|
                && r == Decide(old(Light()), PerceptionOf(vs), config.queueThreshold, config.waitThreshold)
                && Light() == TrafficLight.Tick(r.light, dt)
                && vehicles == AdvanceAll(vs, Light(), dt)
                && decisions == old(decisions) + [Decision(simTime, r.rule, r.direction)]
                && dataLog == old(dataLog) + [Metrics.MetricsOf(simTime, vehicleCount, vehicles, Light())]
    {
      ok, vs, r := true, vehicles, Decide(Light(), PerceptionOf(vehicles), config.queueThreshold, config.waitThreshold);
      if paused {
        return;
      }
      simTime := simTime + dt;
      if config.spawnRate == 0.0 {
        ok := false;
        return;
      }
      vs, r := Step(spawnDraw < dt / config.spawnRate, kindDraw, d, dt);
    }

    /** `update` after the spawn-rate division. `vs` is the list after the spawning step and
        `r` the agent's decision on it; both are returned for the contract. */
    method Step(spawn: bool, kindDraw: real, d: Direction, dt: real) returns (ghost vs: seq<Vehicle>, ghost r: Decided)
      requires Valid()
      modifies this`vehicles, this`vehicleCount
      modifies this`northSouth, this`eastWest, this`timer, this`phaseDuration, this`emergencyMode
      modifies this`decisionHistory, this`decisions, this`dataLog, this`metricsHistory
      ensures Valid()
      ensures vs == Spawned(old(vehicles), config.maxVehicles, spawn, kindDraw, d, simTime)
      ensures vehicleCount == |vs|
      ensures r == Decide(old(Light()), PerceptionOf(vs), config.queueThreshold, config.waitThreshold)
      ensures Light() == TrafficLight.Tick(r.light, dt)
      ensures vehicles == AdvanceAll(vs, Light(), dt)
      ensures decisions == old(decisions) + [Decision(simTime, r.rule, r.direction)]
      ensures dataLog == old(dataLog) + [Metrics.MetricsOf(simTime, vehicleCount, vehicles, Light())]
    {
      if spawn {
        SpawnVehicle(kindDraw, d);
      }
      vs := vehicles;
      r := Control(dt);
      Act(dt);
    }

    /** The agent step of `update`: perception, the agent's decision and the light update.
        The decision taken is returned for the contract. */
    method Control(dt: real) returns (ghost r: Decided)
      requires Valid()
      modifies this`northSouth, this`eastWest, this`timer, this`phaseDuration, this`emergencyMode
      modifies this`decisionHistory, this`decisions
      ensures Valid()
      ensures r == Decide(old(Light()), PerceptionOf(vehicles), config.queueThreshold, config.waitThreshold)
      ensures Light() == TrafficLight.Tick(r.light, dt)
      ensures decisions == old(decisions) + [Decision(simTime, r.rule, r.direction)]
    {
      var perception := PerceiveEnvironment();
      r := Decide(Light(), perception, config.queueThreshold, config.waitThreshold);
      AgentDecide(perception);
      UpdateLight(dt);
    }

    /** The last part of `update`: the vehicles move under the updated light and one
        metrics record is logged. */
    method Act(dt: real)
      requires Valid()
      modifies this`vehicles, this`dataLog, this`metricsHistory
      ensures Valid()
      ensures vehicles == AdvanceAll(old(vehicles), Light(), dt)
      ensures dataLog == old(dataLog) + [Metrics.MetricsOf(simTime, vehicleCount, vehicles, Light())]
    {
      AdvanceVehicles(dt);
      LogMetrics();
    }

    /** The start endpoint: refused while already running. */
    method Start() returns (ok: bool)
      modifies this`running
      ensures ok <==> !old(running)
      ensures running
    {
      if running {
        return false;
      }
      running := true;
      ok := true;
    }

    /** The pause endpoint. */
    method Pause()
      modifies this`paused
      ensures paused
    {
      paused := true;
    }

    /** The resume endpoint. */
    method Resume()
      modifies this`paused
      ensures !paused
    {
      paused := false;
    }

    /** The stop endpoint: the loop ends; the totals it reports are returned. */
    method Stop() returns (totalVehicles: int, time: real)
      modifies this`running
      ensures !running
      ensures totalVehicles == vehicleCount && time == simTime
    {
      running := false;
      totalVehicles, time := vehicleCount, simTime;
    }

    /** The config endpoint: the new configuration replaces the old one unchecked. */
    method UpdateConfig(c: Config)
      modifies this`config
      ensures config == c
    {
      config := c;
    }

    /** `get_state`: the clock, the vehicles still on the field, the lights with the time left
        in the phase, and the newest metrics record if there is one. */
    function State(): (s: Snapshot)
      reads this
      ensures forall v :: v in s.vehicles <==> v in vehicles && !v.crossed
      ensures LightValid() ==> s.timeRemaining > 0.0
      ensures MetricsValid() ==> (s.metrics.Some? <==> dataLog != [])
      ensures MetricsValid() && dataLog != [] ==> s.metrics == Some(dataLog[|dataLog| - 1])
    {
      ActiveMembers(vehicles);
      Snapshot(
        simTime, Active(vehicles), northSouth, eastWest, phaseDuration - timer, emergencyMode,
        if metricsHistory == [] then None else Some(metricsHistory[|metricsHistory| - 1]))
    }
  }
}
