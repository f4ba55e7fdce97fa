/** Vocabulary shared by every part of the intersection model. */
module Types {

  datatype Option<T> = None | Some(value: T)

  /** The heading of a vehicle. */
  datatype Direction = North | South | East | West

  /** The order in which the engine's per-direction dictionaries are iterated. */
  const Directions: seq<Direction> := [North, South, East, West]

  /** Position of a direction in `Directions`. */
  function Rank(d: Direction): (i: nat)
    ensures i < |Directions| && Directions[i] == d
  {
    match d
    case North => 0
    case South => 1
    case East => 2
    case West => 3
  }

  /** The two perpendicular signal groups. */
  datatype Axis = NorthSouth | EastWest

  /** North and south share the north-south signal; every other heading uses east-west. */
  function AxisOf(d: Direction): Axis
  {
    if d == North || d == South then NorthSouth else EastWest
  }

  function Cross(a: Axis): Axis
  {
    if a == NorthSouth then EastWest else NorthSouth
  }

  datatype Color = Green | Yellow | Red

  datatype Kind = Car | Bus | Truck | Emergency

  /** One value per direction: the engine's dictionaries keyed by north/south/east/west. */
  datatype PerDirection<T> = PerDirection(north: T, south: T, east: T, west: T)
  {
    function Get(d: Direction): T
    {
      match d
      case North => north
      case South => south
      case East => east
      case West => west
    }

    function Set(d: Direction, x: T): (r: PerDirection<T>)
      ensures r.Get(d) == x
      ensures forall e :: e != d ==> r.Get(e) == Get(e)
    {
      match d
      case North => this.(north := x)
      case South => this.(south := x)
      case East => this.(east := x)
      case West => this.(west := x)
    }
  }
}
