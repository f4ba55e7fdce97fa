/** Vehicle records: creation, the per-tick movement rule and the crossing test. */
module Vehicles {
  import opened Types
  import TrafficLight

  /** A vehicle as the engine stores it. Its priority is a function of its kind. */
  datatype Vehicle = Vehicle(
    id: int,
    kind: Kind,
    direction: Direction,
    x: real,
    y: real,
    waiting: bool,
    waitTime: real,
    crossed: bool,
    spawnTime: real)
  {
    function Priority(): int { PriorityOf(kind) }
  }

  /** Emergency vehicles alone have priority 10; every other kind has 1 or 2. */
  function PriorityOf(k: Kind): (p: int)
    ensures p == 10 <==> k == Emergency
    ensures k != Emergency ==> 1 <= p <= 2
  {
    match k
    case Emergency => 10
    case Bus => 2
    case Truck => 1
    case Car => 1
  }

  /** The kind chosen by a uniform draw `r`. */
  function KindOfDraw(r: real): (k: Kind)
    ensures 0.0 <= r < 1.0 ==> BandStart(k) <= r < BandStart(k) + Share(k)
  {
    if r < 0.05 then Emergency
    else if r < 0.20 then Bus
    else if r < 0.35 then Truck
    else Car
  }

  /** The width of the band of `k` that the draw thresholds 0.05, 0.20 and 0.35 produce. */
  function Share(k: Kind): real
  {
    match k
    case Emergency => 0.05
    case Bus => 0.15
    case Truck => 0.15
    case Car => 0.65
  }

  /** Kinds in the order their bands are laid out on [0, 1). */
  function BandOrder(k: Kind): nat
  {
    match k
    case Emergency => 0
    case Bus => 1
    case Truck => 2
    case Car => 3
  }

  /** Where the band of `k` begins: the shares of the kinds laid out before it. */
  function BandStart(k: Kind): real
  {
    (if BandOrder(k) > 0 then Share(Emergency) else 0.0)
    + (if BandOrder(k) > 1 then Share(Bus) else 0.0)
    + (if BandOrder(k) > 2 then Share(Truck) else 0.0)
  }

  /** Every draw in [0, 1) picks exactly one kind, and the kind's band is as wide as its share,
      so a uniform draw picks each kind with the probability of its share. */
  lemma KindBands(r: real, k: Kind)
    requires 0.0 <= r < 1.0
    ensures KindOfDraw(r) == k <==> BandStart(k) <= r < BandStart(k) + Share(k)
    ensures Share(Emergency) + Share(Bus) + Share(Truck) + Share(Car) == 1.0
  {
  }

  /** `_get_spawn_position`: the entry point on the edge the vehicle starts from. */
  function SpawnPosition(d: Direction): (p: (real, real))
    ensures p.0 == 0.0 || p.0 == 1400.0 || p.1 == 0.0 || p.1 == 900.0
    ensures if AxisOf(d) == NorthSouth then p.0 == 700.0 else p.1 == 450.0
    ensures Within(p.0, p.1, 0.0) && !OutOfBounds(p.0, p.1)
  {
    match d
    case North => (700.0, 900.0)
    case South => (700.0, 0.0)
    case East => (0.0, 450.0)
    case West => (1400.0, 450.0)
  }

  /** The point lies on the 1400 x 900 field or within `margin` of it. */
  predicate Within(x: real, y: real, margin: real)
  {
    -margin <= x <= 1400.0 + margin && -margin <= y <= 900.0 + margin
  }

  /** The crossing test: beyond any edge of the field by more than 50; no point of the field
      itself counts as crossed. */
  function OutOfBounds(x: real, y: real): (b: bool)
    ensures b <==> !Within(x, y, 50.0)
    ensures Within(x, y, 0.0) ==> !b
  {
    y < -50.0 || y > 950.0 || x < -50.0 || x > 1450.0
  }

  /** Distance travelled from the spawn point along the vehicle's own heading. */
  function Progress(v: Vehicle): real
  {
    match v.direction
    case North => 900.0 - v.y
    case South => v.y
    case East => v.x
    case West => 1400.0 - v.x
  }

  /** Travel needed to pass the far boundary: the field's extent along the axis plus the margin. */
  function ExitDistance(d: Direction): real
  {
    if AxisOf(d) == NorthSouth then 950.0 else 1450.0
  }

  /** A vehicle stays on the line through its spawn point. */
  predicate OnLane(v: Vehicle)
  {
    var (sx, sy) := SpawnPosition(v.direction);
    if AxisOf(v.direction) == NorthSouth then v.x == sx else v.y == sy
  }

  /** What every stored vehicle satisfies. */
  predicate WellFormed(v: Vehicle)
  {
    && OnLane(v)
    && (v.crossed <==> OutOfBounds(v.x, v.y))
    && (v.crossed ==> !v.waiting)
  }

  /** On its lane, a vehicle is out of the field exactly when it has gone more than its exit
      distance forward, or more than 50 backward. */
  lemma CrossingIsProgress(v: Vehicle)
    requires OnLane(v)
    ensures OutOfBounds(v.x, v.y) <==> Progress(v) > ExitDistance(v.direction) || Progress(v) < -50.0
  {
  }

  /** The record `spawn_vehicle` and `spawn_emergency` append. */
  function NewVehicle(id: int, kind: Kind, d: Direction, now: real): (v: Vehicle)
    ensures WellFormed(v) && !v.crossed && !v.waiting && Progress(v) == 0.0
    ensures v.id == id && v.kind == kind && v.direction == d && v.waitTime == 0.0
  {
    var (x, y) := SpawnPosition(d);
    Vehicle(id, kind, d, x, y, false, 0.0, false, now)
  }

  /** Distance a moving vehicle covers in one step of `dt` seconds. */
  function Travel(dt: real): real
  {
    2.0 * dt * 60.0
  }

  /** One step of the movement loop for one vehicle, `go` being `can_go` of its heading. */
  function Advance(v: Vehicle, go: bool, dt: real): (r: Vehicle)
    ensures v.crossed ==> r == v
    ensures v.crossed ==> r.crossed
    ensures r.id == v.id && r.kind == v.kind && r.direction == v.direction && r.spawnTime == v.spawnTime
    ensures WellFormed(v) ==> WellFormed(r)
    ensures !v.crossed && !go ==>
              r.waiting && r.waitTime == v.waitTime + dt && r.x == v.x && r.y == v.y && !r.crossed
    ensures !v.crossed && go ==>
              !r.waiting && r.waitTime == v.waitTime && Progress(r) == Progress(v) + Travel(dt)
    ensures 0.0 <= dt ==> v.waitTime <= r.waitTime
  {
    if v.crossed then v
    else if !go then v.(waiting := true, waitTime := v.waitTime + dt)
    else
      var m := v.(waiting := false);
      var m' := match m.direction
                case North => m.(y := m.y - Travel(dt))
                case South => m.(y := m.y + Travel(dt))
                case East => m.(x := m.x + Travel(dt))
                case West => m.(x := m.x - Travel(dt));
      if OutOfBounds(m'.x, m'.y) then m'.(crossed := true) else m'
  }

  /** The whole movement loop: every vehicle advanced under the light state `l`. */
  function AdvanceAll(vs: seq<Vehicle>, l: TrafficLight.LightState, dt: real): (r: seq<Vehicle>)
    ensures |r| == |vs|
    ensures forall i :: 0 <= i < |vs| ==> r[i] == Advance(vs[i], TrafficLight.CanGo(l, vs[i].direction), dt)
  {
    seq(|vs|, i requires 0 <= i < |vs| => Advance(vs[i], TrafficLight.CanGo(l, vs[i].direction), dt))
  }

  /** A vehicle that has stayed at a red light only waits longer: ahead of the light it neither
      moves nor crosses, and its waiting time grows by exactly the time spent. */
  lemma {:induction false} WaitingAtRed(v: Vehicle, l: TrafficLight.LightState, dt: real, n: nat)
    requires !v.crossed && !TrafficLight.CanGo(l, v.direction)
    ensures var r := Repeat(v, l, dt, n);
            !r.crossed && r.x == v.x && r.y == v.y && r.waitTime == v.waitTime + TrafficLight.Elapsed(n, dt)
            && (n > 0 ==> r.waiting)
  {
    if n > 0 {
      WaitingAtRed(v, l, dt, n - 1);
    }
  }

  /** `n` movement steps of one vehicle under an unchanging light. */
  function Repeat(v: Vehicle, l: TrafficLight.LightState, dt: real, n: nat): Vehicle
  {
    if n == 0 then v else Advance(Repeat(v, l, dt, n - 1), TrafficLight.CanGo(l, v.direction), dt)
  }
}
