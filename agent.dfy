/** The rule-priority agent: emergency override, queue extension, wait extension, standard. */
module Agent {
  import opened Types
  import opened TrafficLight
  import opened Perceive

  /** The decision types, in priority order. */
  datatype Rule = EmergencyOverride | QueueExtend | WaitExtend | Standard

  /** One entry of the decision history; `direction` is the emergency or triggering direction. */
  datatype Decision = Decision(timestamp: real, rule: Rule, direction: Option<Direction>)

  /** The light state after a decision, with the rule that fired and its direction. */
  datatype Decided = Decided(light: LightState, rule: Rule, direction: Option<Direction>)

  /** Amount each rule adds to the current phase. */
  function Extension(rule: Rule): real
  {
    match rule
    case QueueExtend => 10.0
    case WaitExtend => 5.0
    case _ => 0.0
  }

  /** Direction `d` calls for the extension of `rule`: its pressure exceeds the threshold and
      its light is green. Only the queue and wait rules have a pressure. */
  function Pressing(rule: Rule, p: Perception, threshold: int, l: LightState, d: Direction): (b: bool)
    ensures b ==> CanGo(l, d) && (rule == QueueExtend || rule == WaitExtend)
  {
    && CanGo(l, d)
    && match rule
       case QueueExtend => p.queues.Get(d) > threshold
       case WaitExtend => p.waitTimes.Get(d) > threshold as real
       case _ => false
  }

  /** Index of the first direction of `ds` that is pressing; `|ds|` when there is none. */
  function FirstPressing(rule: Rule, p: Perception, threshold: int, l: LightState, ds: seq<Direction>): (i: nat)
    ensures i <= |ds|
    ensures i < |ds| ==> Pressing(rule, p, threshold, l, ds[i])
    ensures forall j :: 0 <= j < i ==> !Pressing(rule, p, threshold, l, ds[j])
  {
    if ds == [] then 0
    else if Pressing(rule, p, threshold, l, ds[0]) then 0
    else 1 + FirstPressing(rule, p, threshold, l, ds[1..])
  }

  /** `agent_decide` on the light state: the first rule that matches wins. */
  function Decide(l: LightState, p: Perception, queueThreshold: int, waitThreshold: int): (r: Decided)
    ensures Valid(l) ==> Valid(r.light)
    ensures r.rule == EmergencyOverride <==> p.emergencyDir.Some?
    ensures r.light.emergencyMode <==> p.emergencyDir.Some?
    ensures r.light.phaseDuration == l.phaseDuration + Extension(r.rule)
    ensures r.rule == Standard <==> r.direction.None?
    ensures p.emergencyDir.Some? ==>
              r.direction == p.emergencyDir && r.light == Activate(l, p.emergencyDir.value)
    ensures p.emergencyDir.None? ==>
              r.light.northSouth == l.northSouth && r.light.eastWest == l.eastWest
    ensures p.emergencyDir.None? ==> forall d :: CanGo(r.light, d) == CanGo(l, d)
    ensures p.emergencyDir.None? ==> r.light.timer == if l.emergencyMode then 0.0 else l.timer
  {
    match p.emergencyDir
    case Some(d) => Decided(Activate(l, d), EmergencyOverride, Some(d))
    case None => RuleDecision(if l.emergencyMode then Deactivate(l) else l, p, queueThreshold, waitThreshold)
  }

  /** The queue, wait and standard rules, tried in that order on a light out of override. */
  function RuleDecision(l: LightState, p: Perception, queueThreshold: int, waitThreshold: int): (r: Decided)
    ensures Valid(l) ==> Valid(r.light)
    ensures r.rule != EmergencyOverride
    ensures r.light.emergencyMode == l.emergencyMode
    ensures r.light.phaseDuration == l.phaseDuration + Extension(r.rule)
    ensures r.rule == Standard <==> r.direction.None?
    ensures r.light.northSouth == l.northSouth && r.light.eastWest == l.eastWest
    ensures forall d :: CanGo(r.light, d) == CanGo(l, d)
    ensures r.light.timer == l.timer
  {
    var qi := FirstPressing(QueueExtend, p, queueThreshold, l, Directions);
    if qi < |Directions| then
      assert CanGo(l, Directions[qi]);
      ExtendGreenKeepsValidIf(l, Directions[qi], Extension(QueueExtend));
      Decided(Extend(l, Extension(QueueExtend)), QueueExtend, Some(Directions[qi]))
    else
      var wi := FirstPressing(WaitExtend, p, waitThreshold, l, Directions);
      if wi < |Directions| then
        assert CanGo(l, Directions[wi]);
        ExtendGreenKeepsValidIf(l, Directions[wi], Extension(WaitExtend));
        Decided(Extend(l, Extension(WaitExtend)), WaitExtend, Some(Directions[wi]))
      else
        Decided(l, Standard, None)
  }

  lemma ExtendGreenKeepsValidIf(l: LightState, d: Direction, amount: real)
    requires CanGo(l, d) && 0.0 <= amount
    ensures Valid(l) ==> Valid(Extend(l, amount))
  {
    if Valid(l) {
      ExtendGreenKeepsValid(l, d, amount);
    }
  }

  /** First match in the fixed order north, south, east, west: the queue rule fires for the
      first direction whose queue is over the threshold AND whose light is green (a direction
      over the threshold on red or yellow is skipped); only when no direction qualifies does
      the wait rule get its turn, under the same gating; only when neither fires is the decision
      standard. An emergency in the perception pre-empts all of them. */
  lemma DecideFirstMatch(l: LightState, p: Perception, queueThreshold: int, waitThreshold: int)
    requires p.emergencyDir.None?
    ensures var r := Decide(l, p, queueThreshold, waitThreshold);
            && (r.rule == QueueExtend ==>
                  && Pressing(QueueExtend, p, queueThreshold, l, r.direction.value)
                  && forall e :: Rank(e) < Rank(r.direction.value) ==> !Pressing(QueueExtend, p, queueThreshold, l, e))
            && (r.rule == WaitExtend ==>
                  && (forall e :: !Pressing(QueueExtend, p, queueThreshold, l, e))
                  && Pressing(WaitExtend, p, waitThreshold, l, r.direction.value)
                  && forall e :: Rank(e) < Rank(r.direction.value) ==> !Pressing(WaitExtend, p, waitThreshold, l, e))
            && (r.rule == Standard ==>
                  forall e :: !Pressing(QueueExtend, p, queueThreshold, l, e)
                              && !Pressing(WaitExtend, p, waitThreshold, l, e))
  {
    var l1 := if l.emergencyMode then Deactivate(l) else l;
    assert forall rule, th, e :: Pressing(rule, p, th, l1, e) == Pressing(rule, p, th, l, e);
    var r := Decide(l, p, queueThreshold, waitThreshold);
    var qi := FirstPressing(QueueExtend, p, queueThreshold, l1, Directions);
    var wi := FirstPressing(WaitExtend, p, waitThreshold, l1, Directions);
    forall e | Rank(e) < qi ensures !Pressing(QueueExtend, p, queueThreshold, l, e) {
      assert Directions[Rank(e)] == e;
    }
    forall e | Rank(e) < wi ensures !Pressing(WaitExtend, p, waitThreshold, l, e) {
      assert Directions[Rank(e)] == e;
    }
  }

  /** The rule that fires is the highest-priority one whose condition holds. */
  lemma RulePriority(l: LightState, p: Perception, queueThreshold: int, waitThreshold: int, d: Direction)
    ensures var r := Decide(l, p, queueThreshold, waitThreshold);
            && (p.emergencyDir.None? && Pressing(QueueExtend, p, queueThreshold, l, d) ==> r.rule == QueueExtend)
            && (p.emergencyDir.None? && Pressing(WaitExtend, p, waitThreshold, l, d) ==>
                  r.rule == QueueExtend || r.rule == WaitExtend)
  {
    if p.emergencyDir.None? {
      DecideFirstMatch(l, p, queueThreshold, waitThreshold);
    }
  }

  /** Extensions go only to a direction that has green: a direction on red or yellow never
      changes the phase duration, whatever its queue or wait. */
  lemma ExtensionGating(l: LightState, p: Perception, queueThreshold: int, waitThreshold: int)
    requires p.emergencyDir.None?
    requires forall d :: !CanGo(l, d)
    ensures Decide(l, p, queueThreshold, waitThreshold).rule == Standard
    ensures Decide(l, p, queueThreshold, waitThreshold).light.phaseDuration == l.phaseDuration
  {
    DecideFirstMatch(l, p, queueThreshold, waitThreshold);
  }
}
