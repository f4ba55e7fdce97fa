# Smart traffic light controller: the simulation engine

This project models the `SimulationEngine` of the smart traffic light backend (`main.py`)
and proves properties of the model. The engine simulates one four-way intersection. It
spawns vehicles on the four approaches and runs the signal through a fixed four-phase cycle.
Each tick it perceives the queues and lets a rule-priority agent extend the green phase or
hand an emergency vehicle an immediate green. It moves the vehicles and logs one metrics
record.

The model has seven modules:

- `Types` (types.dfy): directions, axes, colours, vehicle kinds and per-direction records.
- `History` (history.dfy): the bounded FIFO histories, i.e. the `deque(maxlen = …)` buffers.
- `TrafficLight` (lights.dfy): the light state machine as values. This covers the cycle, the
  timer, the emergency override and the "exactly one axis non-red" invariant.
- `Vehicles` (vehicles.dfy): vehicle records, the kind draw, spawn positions, the per-tick
  movement rule and the crossing test.
- `Perceive` (perceive.dfy): the perception of a vehicle list. This covers the queues, the
  mean waits and the waiting emergency vehicle.
- `Agent` (agent.dfy): the rule-priority decision as a function of the light and the
  perception.
- `Metrics` (metrics.dfy): the per-tick metrics record and its count identities.
- `Engine` (engine.dfy): the `SimulationEngine` class.
    - Its fields are the engine's fields. The light-state dictionary is the five fields
      `northSouth`, `eastWest`, `timer`, `phaseDuration` and `emergencyMode`.
    - Its methods change them in place, with the same loops as the source.
    - Each method's contract ties the new state to the value-level functions above.
    - The class invariant `Valid()` is preserved by every operation.

Time, wait times and positions are Dafny `real`s. Random draws are parameters:
- the spawn draw compared with `dt / spawn_rate`;
- the kind draw;
- the direction chosen by `random.choice`.

The agent's human-readable `agent_decision`/`reason` strings are reduced to a rule enum
plus the direction that triggered the rule.

The model follows `main.py` as written. These facts about the code are easy to miss:
- **Spawn capacity.** The capacity test counts every vehicle in the list, crossed vehicles
  included, and no vehicle is ever removed. So once `max_vehicles` vehicles exist,
  `spawn_vehicle` adds no more; only `spawn_emergency` still adds vehicles.
- **Emergency direction.** The perceived direction is that of the LAST waiting emergency
  vehicle in list order (main.py:151-153).
- **Phase durations.** Phase durations are the literals 30 and 5 (main.py:264-279).
  `config.green_time` is never read.
- **Movement.** Every vehicle moves `2 * dt * 60` per tick whatever its kind (main.py:313-320),
  although the dashboard's table (app.py:609-614) gives per-kind speeds 2.0, 1.2, 1.0 and 3.5.
  Vehicles move along the single line through their spawn point.
- **Configuration.** `update_config` stores the values it is given without checking them. A
  spawn rate of 0 makes `update` fail on the division after the clock has already advanced
  (`Update` returns `ok == false`).
- **Reset.** The reset endpoint replaces the engine by a new one, so vehicle ids start again
  at 1 and `running` is false afterwards.
- **Override during yellow.** An override that starts during a yellow phase keeps that
  phase's duration of 5. After deactivation the green it left behind therefore lasts 5
  seconds plus any extensions. `Activate` and `Deactivate` state that the duration is kept.

## Model

| member | source | states |
|---|---|---|
| Types.Rank | main.py:144 | the position of each direction in the dictionary order north, south, east, west that the rule loops follow |
| History.Latest | main.py:92-96 | the latest `cap` entries of a log: exactly `min(len, cap)` of them, and they are the log's last entries in order |
| History.BoundedAppend | main.py:92-96 | appending to a bounded deque that is not over capacity gives the latest `cap` entries of the deque plus the new entry (oldest evicted first) |
| History.BoundedAppendKeepsLatest | main.py:92-96 | if the deque holds the latest `cap` entries of the full log, it still does after one more append to both, and it never exceeds `cap` |
| History.BoundedHistoryIsSuffix | main.py:92-96 | after any sequence of appends to an empty deque it holds exactly the latest `cap` entries |
| TrafficLight.Initial | main.py:82-88 | the initial light (NS green, EW red, timer 0, duration 30, no override) satisfies the invariant and is in the NS-green phase |
| TrafficLight.CanGo | main.py:246-251 | a direction may go iff its axis shows green (yellow is stop); on a valid light the crossing axis is then red |
| TrafficLight.NextPhase | main.py:264-279 | one transition moves to the successor phase of the fixed cycle and sets that phase's duration (30 or 5); timer and override flag untouched |
| TrafficLight.Tick | main.py:253-262 | `update_light` keeps the light invariant, changes nothing under override, and never changes the override flag |
| TrafficLight.Activate | main.py:231-239 | override on; exactly the directions on the axis of `d` may go, the crossing axis is red; timer and duration untouched; invariant kept |
| TrafficLight.Deactivate | main.py:241-244 | override off, timer 0, both colours (and so `can_go` of every direction) and the duration retained; invariant kept |
| TrafficLight.ExtendGreenKeepsValid | main.py:196-200 | extending a phase in which some direction has green keeps the invariant and the phase |
| TrafficLight.Extend | main.py:199 | `phase_duration += amount` (here and at main.py:213) changes only the duration; lengthening a phase that is not yellow keeps the invariant |
| TrafficLight.NoConflictingGreens | main.py:246-251 | two directions on crossing axes never may both go |
| TrafficLight.CycleOfFour | main.py:264-279 | four transitions restore the colours and the phase, and the four durations they assign add up to 70 s |
| TrafficLight.ElapsedIsProduct | main.py:258 | `n` equal timer increments of `dt` add up to `n * dt` |
| TrafficLight.TicksWithinPhase | main.py:258-260 | while the timer stays below the duration, ticks only advance the timer |
| TrafficLight.PhaseEndsAfterElapsed | main.py:253-262 | with the elapsed time summed step by step: the phase holds for `n` ticks and changes on tick `n + 1` |
| TrafficLight.PhaseEndsOnTime | main.py:253-262 | a phase with `n * dt < remaining <= (n + 1) * dt` holds for `n` ticks and on tick `n + 1` moves to the next phase with timer 0 and the next phase's duration |
| TrafficLight.GreenLastsThreeHundredTicks | main.py:570 | with the loop's 0.1 s step the initial 30 s green lasts 299 ticks and is yellow after the 300th |
| Vehicles.PriorityOf | main.py:107-114 | emergency vehicles alone get priority 10; every other kind gets 1 or 2 |
| Vehicles.KindOfDraw | main.py:106-115 | a draw in [0, 1) lands in the band of the kind it picks: the bands of width 0.05, 0.15, 0.15, 0.65 laid out from 0 |
| Vehicles.KindBands | main.py:106-115 | each draw in [0, 1) picks the kind whose band contains it; bands are 5%, 15%, 15%, 65% wide and cover [0, 1) |
| Vehicles.SpawnPosition | main.py:132-140 | the spawn point lies on the edge of the 1400 x 900 field, on the centre line of its axis (x = 700 or y = 450), and is not out of bounds |
| Vehicles.OutOfBounds | main.py:323-324 | crossed iff more than 50 beyond some edge of the field; no point of the field itself counts as crossed |
| Vehicles.CrossingIsProgress | main.py:322-325 | on its lane a vehicle is out of the field iff it has gone past its exit distance forward or 50 backward |
| Vehicles.NewVehicle | main.py:117-127 | a new record has the given id, kind and heading, sits at the spawn point of its edge (`_get_spawn_position`, main.py:132-140), is not waiting, has waited 0 and has not crossed |
| Vehicles.Advance | main.py:300-325 | crossed vehicles are skipped; at red a vehicle waits, gains `dt` of wait and stays put; at green it stops waiting and advances `2*dt*60`; `crossed` never reverts; identity fields and well-formedness are kept |
| Vehicles.AdvanceAll | main.py:300-325 | the loop advances every vehicle under `can_go` of its own heading, list length unchanged |
| Vehicles.WaitingAtRed | main.py:307-309 | a vehicle held at red for `n` ticks neither moves nor crosses and has waited exactly the elapsed time more |
| Perceive.PerceptionOf | main.py:155-162 | an empty direction reports queue 0 and mean wait 0 |
| Perceive.QueueMembers | main.py:148-150 | the queue of `d` holds exactly the non-crossed vehicles heading `d` |
| Perceive.ActiveMembers | main.py:332 | the active list holds exactly the non-crossed vehicles |
| Perceive.QueueOfActive | main.py:332-336 | grouping the active list by heading gives the same queues as grouping the whole list |
| Perceive.QueueLengthsPartitionActive | main.py:148-155 | the four queue lengths sum to the number of non-crossed vehicles |
| Perceive.QueueWaitsPartitionActive | main.py:157-160 | the four queues' wait totals sum to the total wait of the non-crossed vehicles |
| Perceive.ActivePlusCrossed | main.py:332 | every vehicle is either active or crossed |
| Perceive.MeanTimesCount | main.py:157-162 | a group's mean wait times its size is its total wait (0 for the empty group) |
| Perceive.LastWaitingEmergency | main.py:151-153 | a reported heading belongs to some waiting, non-crossed emergency vehicle of the list; nothing is reported when there is none |
| Perceive.EmergencyDetected | main.py:148-153 | `emergency` is set iff some non-crossed emergency vehicle is waiting |
| Perceive.EmergencyDirIsLast | main.py:151-153 | `emergency_dir` is the heading of a waiting emergency vehicle with no waiting emergency vehicle after it in the list |
| Agent.Pressing | main.py:197-212 | a direction presses only for the queue or wait rule, and only when it has green |
| Agent.FirstPressing | main.py:196-198 | the index of the first direction over the threshold AND green, or 4: every earlier direction is not pressing |
| Agent.Decide | main.py:171-229 | emergency iff the perception has one (then exactly `activate_emergency`); otherwise override cleared first, both colours kept (so `can_go` of every direction), duration grows by exactly 10, 5 or 0 per the rule; `standard` iff no direction; invariant kept |
| Agent.RuleDecision | main.py:195-229 | the queue, wait and standard rules: duration grows by the rule's extension; both colours, `can_go`, timer and override flag kept, invariant kept |
| Agent.DecideFirstMatch | main.py:195-229 | first match in north/south/east/west order: the queue rule names the first green direction over the queue threshold; the wait rule fires only when none is, for the first green direction over the wait threshold; standard only when neither |
| Agent.RulePriority | main.py:179-229 | a pressing queue forces the queue rule; a pressing wait forces the queue or the wait rule |
| Agent.ExtensionGating | main.py:196-221 | with no green direction the decision is standard and the duration is unchanged, whatever the queues and waits |
| Metrics.MetricsOf | main.py:341-354 | the record carries the clock and the counter; its four queue fields add up to `active_vehicles`, which is at most the list length; `crossed` is the counter minus the active count; the colours and the override flag are the light's |
| Metrics.MetricsCounts | main.py:332-354 | the four queue fields sum to `active_vehicles`; with every spawned vehicle stored, `crossed` is the number of crossed vehicles and `active + crossed == total_processed` |
| Metrics.MetricsAgreeWithPerception | main.py:334-336 | the metrics' queue fields equal the perception's queue lengths for the same list |
| Metrics.OverallMeanWait | main.py:338-339 | the metrics' mean wait is the pooled mean of the four queues: their total wait over their total length |
| Engine.NumberedIdsIncrease | main.py:103 | ids increase strictly along the vehicle list |
| Engine.Spawned | main.py:98-130 | the spawning step keeps the old list as a prefix and adds one vehicle only below capacity: id one past the list, the drawn kind and heading, at the spawn point, stamped with the clock, not waiting, not crossed, wait 0; the id numbering is kept |
| Engine.SumWaits | main.py:159 | the summing loop returns the group's total wait |
| Engine.GroupByDirection | main.py:144-153 | the grouping loop builds exactly each direction's queue and the last waiting emergency heading |
| Engine.ActiveVehicles | main.py:332 | the comprehension returns the active list |
| Engine.CountByDirection | main.py:334-336 | the counting loop over the active vehicles returns each direction's queue length |
| Engine.SimulationEngine.constructor | main.py:72-96 | the fresh engine: no vehicles, clock 0, not running or paused, default config (main.py:57-62), initial light, empty histories; invariant holds. The reset endpoint (main.py:428-433) builds one. |
| Engine.SimulationEngine.SpawnVehicle | main.py:98-130 | no-op when the list holds `max_vehicles` or more; otherwise the counter grows by one and one fresh vehicle with `id == vehicle_count` and the drawn kind is appended |
| Engine.SimulationEngine.SpawnEmergency | main.py:451-475 | whatever the capacity, the counter grows by one and one fresh emergency vehicle with that id is appended; the id is returned |
| Engine.SimulationEngine.PerceiveEnvironment | main.py:142-169 | the loops return exactly the perception of the current vehicle list |
| Engine.SimulationEngine.Record | main.py:189 | one decision is added to the full log and to the 100-entry deque, which keeps holding the latest 100 |
| Engine.SimulationEngine.AgentDecide | main.py:171-229 | the light becomes `Decide` of the old light; exactly one record stamped with the clock is appended; invariants kept |
| Engine.SimulationEngine.ApplyRules | main.py:195-229 | the rule loops change the duration as `RuleDecision` says and return its record |
| Engine.SimulationEngine.FirstPressingIndex | main.py:196-198 | the loop stops at the first direction over the threshold with green, or after all four |
| Engine.SimulationEngine.ActivateEmergency | main.py:231-239 | the light fields become `Activate` of the old ones |
| Engine.SimulationEngine.DeactivateEmergency | main.py:241-244 | the light fields become `Deactivate` of the old ones |
| Engine.SimulationEngine.UpdateLight | main.py:253-262 | the light fields become `Tick` of the old ones |
| Engine.SimulationEngine.TransitionLight | main.py:264-279 | the light fields become `NextPhase` of the old ones |
| Engine.SimulationEngine.AdvanceVehicles | main.py:300-325 | the in-place loop leaves exactly `AdvanceAll` of the old list under the current light; population invariant kept |
| Engine.SimulationEngine.LogMetrics | main.py:330-357 | one record, `MetricsOf` the current state, is appended to the log and to the 1000-entry deque |
| Engine.SimulationEngine.Update | main.py:281-328 | paused: nothing changes. Otherwise the clock advances by `dt`. With a zero spawn rate the tick stops there. Else: spawn, perceive, decide on the old light, tick the light, move under the ticked light, log one record; exactly one decision per tick; invariants kept |
| Engine.SimulationEngine.Step | main.py:289-328 | the tick after the spawn-rate division, stated as the same chain |
| Engine.SimulationEngine.Control | main.py:293-297 | perception, decision and light update: the light becomes `Tick` of `Decide` of the old light on the perceived list |
| Engine.SimulationEngine.Act | main.py:300-328 | the vehicles move under the current light, then one metrics record of the moved list is logged |
| Engine.SimulationEngine.Start | main.py:390-404 | refused iff already running; running afterwards |
| Engine.SimulationEngine.Pause | main.py:406-410 | sets `paused` |
| Engine.SimulationEngine.Resume | main.py:412-416 | clears `paused` |
| Engine.SimulationEngine.Stop | main.py:418-426 | clears `running` and reports the vehicle counter and the clock |
| Engine.SimulationEngine.UpdateConfig | main.py:445-449 | the configuration is replaced as given |
| Engine.SimulationEngine.State | main.py:359-371 | `get_state` lists exactly the non-crossed vehicles; on a valid light the time remaining is positive; the metrics entry is present iff anything was logged, and then it is the newest record |

## Left out

- FastAPI routing, pydantic models, HTTP errors, the WebSocket loop and the asyncio
  background task (main.py:381-584) are transport and concurrency. Only the state changes
  the endpoints make are modelled, as methods. The loop's fixed step of 0.1 s is used in
  `GreenLastsThreeHundredTicks`.
- Randomness (`random.random`, `random.choice`) is replaced by parameters. The model does not
  state probabilities, only the widths of the bands that the thresholds 0.05, 0.20 and 0.35
  produce.
- Python floats are modelled as exact reals. Rounding in sums, means and positions is not
  captured.
- TrafficLight.PhaseEndsOnTime: the tick counts it gives are for exact reals. In binary
  doubles fifty additions of 0.1 sum to 4.999999999999998, which is below 5, so the program's
  yellow phase lasts 51 ticks of 0.1 s where the model gives 50. The 30 s green lasts 300
  ticks in both.
- The `agent_decision` and `reason` strings (f-strings with float formatting) are left out.
  A decision record keeps its timestamp, rule and triggering direction.
- `Engine.SimulationEngine.Start` does not model the `sim_time` field of its reply or the
  scheduling of the background task.
- The pandas analytics endpoints (`get_analytics_summary`, `get_timeseries`,
  main.py:479-518) and `get_vehicle_stats` are left out: they are library-dependent float
  aggregations over the log, or counts outside the engine.
- `get_state` is modelled as `State` without the pydantic conversion, and the verbatim
  `agent_decision` text is omitted.
- A* path planning: no file of the program implements it (app.py:588-603 only describes it),
  so there is nothing to model.
- The Streamlit dashboards (app.py, app_visual.py) are user interface and are not part of
  this model.
