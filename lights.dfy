/** The traffic-light finite-state machine of the engine, as values. */
module TrafficLight {
  import opened Types

  /** Durations `transition_light` assigns (the configured green time is never read). */
  const GreenDuration: real := 30.0
  const YellowDuration: real := 5.0

  /** The engine's `light_state` record. */
  datatype LightState = LightState(
    northSouth: Color,
    eastWest: Color,
    timer: real,
    phaseDuration: real,
    emergencyMode: bool)

  function ColorOf(l: LightState, a: Axis): Color
  {
    if a == NorthSouth then l.northSouth else l.eastWest
  }

  /** Exactly one axis shows green or yellow; the other shows red. */
  predicate OneAxisNonRed(l: LightState)
  {
    (l.northSouth == Red) != (l.eastWest == Red)
  }

  predicate HasYellow(l: LightState)
  {
    l.northSouth == Yellow || l.eastWest == Yellow
  }

  /** The invariant every reachable light state keeps. */
  predicate Valid(l: LightState)
  {
    && OneAxisNonRed(l)
    && YellowDuration <= l.phaseDuration
    && l.timer < l.phaseDuration
    && (HasYellow(l) ==> l.phaseDuration == YellowDuration)
    && (l.emergencyMode ==> !HasYellow(l))
  }

  /** The four phases of the fixed cycle. */
  datatype Phase = NsGreen | NsYellow | EwGreen | EwYellow

  function PhaseOf(l: LightState): Phase
    requires OneAxisNonRed(l)
  {
    if l.northSouth == Green then NsGreen
    else if l.northSouth == Yellow then NsYellow
    else if l.eastWest == Green then EwGreen
    else EwYellow
  }

  /** The reference cycle: NS green, NS yellow, EW green, EW yellow, and around again. */
  function Succ(p: Phase): Phase
  {
    match p
    case NsGreen => NsYellow
    case NsYellow => EwGreen
    case EwGreen => EwYellow
    case EwYellow => NsGreen
  }

  /** How long each phase lasts when entered by a transition. */
  function Length(p: Phase): real
  {
    match p
    case NsGreen => GreenDuration
    case NsYellow => YellowDuration
    case EwGreen => GreenDuration
    case EwYellow => YellowDuration
  }

  /** The state a fresh engine starts in. */
  function Initial(): (l: LightState)
    ensures Valid(l) && PhaseOf(l) == NsGreen && l.phaseDuration == Length(NsGreen)
    ensures l.timer == 0.0 && !l.emergencyMode
  {
    LightState(Green, Red, 0.0, 30.0, false)
  }

  /** `can_go`: traffic heading `d` may proceed only on green; yellow counts as stop. */
  function CanGo(l: LightState, d: Direction): (r: bool)
    ensures r <==> ColorOf(l, AxisOf(d)) == Green
    ensures r && OneAxisNonRed(l) ==> ColorOf(l, Cross(AxisOf(d))) == Red
  {
    if d == North || d == South then l.northSouth == Green else l.eastWest == Green
  }

  /** `transition_light`: one step of the fixed four-phase cycle. */
  function NextPhase(l: LightState): (r: LightState)
    ensures OneAxisNonRed(l) ==>
              && OneAxisNonRed(r)
              && PhaseOf(r) == Succ(PhaseOf(l))
              && r.phaseDuration == Length(PhaseOf(r))
    ensures r.timer == l.timer && r.emergencyMode == l.emergencyMode
  {
    if l.northSouth == Green then
      l.(northSouth := Yellow, phaseDuration := YellowDuration)
    else if l.northSouth == Yellow then
      l.(northSouth := Red, eastWest := Green, phaseDuration := GreenDuration)
    else if l.eastWest == Green then
      l.(eastWest := Yellow, phaseDuration := YellowDuration)
    else if l.eastWest == Yellow then
      l.(eastWest := Red, northSouth := Green, phaseDuration := GreenDuration)
    else
      l
  }

  /** `update_light`: frozen under emergency override; otherwise the timer advances and, once
      it reaches the phase duration, restarts at zero with exactly one transition. */
  function Tick(l: LightState, dt: real): (r: LightState)
    ensures Valid(l) ==> Valid(r)
    ensures l.emergencyMode ==> r == l
    ensures r.emergencyMode == l.emergencyMode
  {
    if l.emergencyMode then l
    else if l.timer + dt >= l.phaseDuration then NextPhase(l.(timer := 0.0))
    else l.(timer := l.timer + dt)
  }

  /** `activate_emergency`: the axis of `d` is forced green and the crossing axis red, at once;
      the timer and the phase duration stay as they were. */
  function Activate(l: LightState, d: Direction): (r: LightState)
    ensures Valid(l) ==> Valid(r)
    ensures r.emergencyMode
    ensures forall e :: CanGo(r, e) <==> AxisOf(e) == AxisOf(d)
    ensures ColorOf(r, Cross(AxisOf(d))) == Red
    ensures r.timer == l.timer && r.phaseDuration == l.phaseDuration
  {
    if d == North || d == South then
      l.(emergencyMode := true, northSouth := Green, eastWest := Red)
    else
      l.(emergencyMode := true, eastWest := Green, northSouth := Red)
  }

  /** `deactivate_emergency`: leaves override mode and restarts the phase timer; the colours and
      the phase duration are retained. */
  function Deactivate(l: LightState): (r: LightState)
    ensures Valid(l) ==> Valid(r)
    ensures !r.emergencyMode && r.timer == 0.0
    ensures r.northSouth == l.northSouth && r.eastWest == l.eastWest
    ensures forall e :: CanGo(r, e) == CanGo(l, e)
    ensures r.phaseDuration == l.phaseDuration
  {
    l.(emergencyMode := false, timer := 0.0)
  }

  /** `phase_duration += amount`: nothing else changes, and lengthening a phase that is not
      yellow keeps the invariant. */
  function Extend(l: LightState, amount: real): (r: LightState)
    ensures r.phaseDuration == l.phaseDuration + amount
    ensures r.northSouth == l.northSouth && r.eastWest == l.eastWest
    ensures r.timer == l.timer && r.emergencyMode == l.emergencyMode
    ensures Valid(l) && !HasYellow(l) && 0.0 <= amount ==> Valid(r)
  {
    l.(phaseDuration := l.phaseDuration + amount)
  }

  /** Extending a phase in which some direction has green keeps the invariant: a green phase
      is never a yellow one, so "yellow lasts exactly 5" is not disturbed. */
  lemma ExtendGreenKeepsValid(l: LightState, d: Direction, amount: real)
    requires Valid(l) && CanGo(l, d) && 0.0 <= amount
    ensures Valid(Extend(l, amount)) && PhaseOf(Extend(l, amount)) == PhaseOf(l)
  {
  }

  /** No two crossing directions can go at the same time. */
  lemma NoConflictingGreens(l: LightState, d: Direction, e: Direction)
    requires OneAxisNonRed(l) && AxisOf(d) != AxisOf(e)
    ensures !(CanGo(l, d) && CanGo(l, e))
  {
  }

  /** Four transitions bring the colours back, and the durations they assign add up to one
      70-second cycle. */
  lemma {:induction false} CycleOfFour(l: LightState)
    requires OneAxisNonRed(l)
    ensures var r := NextPhase(NextPhase(NextPhase(NextPhase(l))));
            r.northSouth == l.northSouth && r.eastWest == l.eastWest && PhaseOf(r) == PhaseOf(l)
    ensures var l1 := NextPhase(l);
            var l2 := NextPhase(l1);
            var l3 := NextPhase(l2);
            l1.phaseDuration + l2.phaseDuration + l3.phaseDuration + NextPhase(l3).phaseDuration == 70.0
  {
    var l1 := NextPhase(l);
    var l2 := NextPhase(l1);
    var l3 := NextPhase(l2);
    var l4 := NextPhase(l3);
    assert PhaseOf(l4) == Succ(Succ(Succ(Succ(PhaseOf(l)))));
  }

  /** `update_light` applied `n` times with the same step. */
  function TickN(l: LightState, dt: real, n: nat): LightState
  {
    if n == 0 then l else Tick(TickN(l, dt, n - 1), dt)
  }

  /** `n` steps of length `dt`, summed one at a time as the timer sums them. */
  function Elapsed(n: nat, dt: real): real
  {
    if n == 0 then 0.0 else Elapsed(n - 1, dt) + dt
  }

  lemma {:induction false} ElapsedIsProduct(n: nat, dt: real)
    ensures Elapsed(n, dt) == n as real * dt
  {
    if n > 0 {
      ElapsedIsProduct(n - 1, dt);
      assert (n - 1) as real * dt + dt == n as real * dt;
    }
  }

  /** While the timer stays below the phase duration, ticks only advance the timer. */
  lemma {:induction false} TicksWithinPhase(l: LightState, dt: real, n: nat)
    requires !l.emergencyMode && 0.0 < dt
    requires l.timer + Elapsed(n, dt) < l.phaseDuration
    ensures TickN(l, dt, n) == l.(timer := l.timer + Elapsed(n, dt))
  {
    if n > 0 {
      TicksWithinPhase(l, dt, n - 1);
    }
  }

  /** Exact phase arithmetic: a phase with `n` whole steps left before its duration is reached
      keeps its colours for `n` ticks and changes to the next phase on tick `n + 1`, with the
      timer back at zero and the next phase's duration. */
  lemma PhaseEndsOnTime(l: LightState, dt: real, n: nat)
    requires Valid(l) && !l.emergencyMode && 0.0 < dt
    requires l.timer + n as real * dt < l.phaseDuration <= l.timer + (n + 1) as real * dt
    ensures OneAxisNonRed(TickN(l, dt, n)) && PhaseOf(TickN(l, dt, n)) == PhaseOf(l)
    ensures var r := TickN(l, dt, n + 1);
            OneAxisNonRed(r) && r.timer == 0.0 && PhaseOf(r) == Succ(PhaseOf(l))
            && r.phaseDuration == Length(PhaseOf(r))
  {
    ElapsedIsProduct(n, dt);
    ElapsedIsProduct(n + 1, dt);
    PhaseEndsAfterElapsed(l, dt, n);
  }

  /** `PhaseEndsOnTime` with the elapsed time summed step by step. */
  lemma PhaseEndsAfterElapsed(l: LightState, dt: real, n: nat)
    requires Valid(l) && !l.emergencyMode && 0.0 < dt
    requires l.timer + Elapsed(n, dt) < l.phaseDuration <= l.timer + Elapsed(n + 1, dt)
    ensures OneAxisNonRed(TickN(l, dt, n)) && PhaseOf(TickN(l, dt, n)) == PhaseOf(l)
    ensures var r := TickN(l, dt, n + 1);
            OneAxisNonRed(r) && r.timer == 0.0 && PhaseOf(r) == Succ(PhaseOf(l))
            && r.phaseDuration == Length(PhaseOf(r))
  {
    TicksWithinPhase(l, dt, n);
  }

  /** With the engine's 0.1 s loop step, a 30 s green phase ends on exactly its 300th tick. */
  lemma GreenLastsThreeHundredTicks()
    ensures OneAxisNonRed(TickN(Initial(), 0.1, 299)) && PhaseOf(TickN(Initial(), 0.1, 299)) == NsGreen
    ensures OneAxisNonRed(TickN(Initial(), 0.1, 300)) && PhaseOf(TickN(Initial(), 0.1, 300)) == NsYellow
  {
    PhaseEndsOnTime(Initial(), 0.1, 299);
  }
}
