/**
 * Requests, directions and announcements of the elevator controller, and the
 * two comparators that give its queues their order and identity.
 */
module Requests {
  import opened Wrappers

  /** Direction of travel. The controller encodes it as UP = 1 and DOWN = -1. */
  datatype Direction = Up | Down

  /** The other direction. */
  function Opposite(d: Direction): (e: Direction)
    ensures e != d
  {
    if d == Up then Down else Up
  }

  /** Where a request came from: a button inside the car or a call button on a floor. */
  datatype Source = CarButton | FloorButton

  /**
   * A request for the car. A floor call carries the direction the caller
   * wants to travel in (`requestDirection` and `travelDirection` in the
   * controller, which always agree); a car call carries only its destination.
   * Destinations are indices into the floor-label sequence.
   */
  datatype Request = CarCall(destination: nat) | FloorCall(destination: nat, travel: Direction)
  {
    function Source(): Source
    {
      if CarCall? then CarButton else FloorButton
    }

    /** The `requestDirection` echoed in announcements; absent for car calls. */
    function RequestDirection(): Option<Direction>
    {
      if CarCall? then None else Some(travel)
    }
  }

  /**
   * What the controller hands to its button callback: the source, a floor
   * index, and a direction or `null`.
   */
  datatype Announcement = Announcement(source: Source, destination: nat, direction: Option<Direction>)

  /** The announcement made when the car stops at `floor` while heading `heading`. */
  function Arrival(floor: nat, heading: Direction): Announcement
  {
    Announcement(CarButton, floor, Some(heading))
  }

  /** Queue order: negative when `a` sorts before `b`. */
  function CompareRequests(a: Request, b: Request): int
  {
    a.destination - b.destination
  }

  /** Queue identity: two requests are the same entry when they share a destination. */
  predicate EqualRequests(a: Request, b: Request)
  {
    a.destination == b.destination
  }

  /**
   * The order and the identity agree: the comparator ties exactly on equal
   * entries, and swapping its arguments flips its sign.
   */
  lemma ComparatorConsistent(a: Request, b: Request)
    ensures CompareRequests(a, b) == 0 <==> EqualRequests(a, b)
    ensures CompareRequests(a, b) < 0 <==> CompareRequests(b, a) > 0
  {
  }
}
