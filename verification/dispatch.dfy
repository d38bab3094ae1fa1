/**
 * The service loop as a sequence of untimed steps: each call of `Advance`
 * runs the loop from one wait to the next. `Drain` runs it until the car is
 * idle, which it always becomes when no further request arrives.
 */
module Dispatch {
  import opened Requests
  import opened SortedSet
  import opened Controller

  /** Destinations the controller still owes a visit: the three sets and the stop in flight. */
  function Pending(s: State): set<nat>
  {
    Queued(s) + (if s.phase.EnRoute? then {s.phase.stop.destination} else {})
  }

  /** The floors the given announcements name. */
  function Announced(out: seq<Announcement>): set<nat>
  {
    set a | a in out :: a.destination
  }

  lemma AnnouncedConcat(a: seq<Announcement>, b: seq<Announcement>)
    ensures Announced(a + b) == Announced(a) + Announced(b)
  {
    assert forall x :: x in a + b <==> x in a || x in b;
  }

  /** How far through a stop the loop is: travelling, dwelling, or not running. */
  function Rank(s: State): nat
  {
    match s.phase
    case EnRoute(_) => 2
    case Dwelling => 1
    case Stopped => 0
  }

  /** Floors left to travel to the stop in flight. */
  function Remaining(s: State): nat
  {
    match s.phase
    case EnRoute(stop) => Distance(s.car.location, stop.destination)
    case _ => 0
  }

  /** `t` is strictly nearer the end of all work than `s`: fewer entries, or a later phase, or fewer floors to go. */
  predicate Nearer(t: State, s: State)
  {
    || Size(t) < Size(s)
    || (Size(t) == Size(s) && Rank(t) < Rank(s))
    || (Size(t) == Size(s) && Rank(t) == Rank(s) && Remaining(t) < Remaining(s))
  }

  /**
   * One step of the loop, from one wait to the next: a floor of travel
   * (`moveCar`), which when it reaches the stop runs on into the arrival
   * there, since nothing is awaited in between; or the end of the dwell (the
   * rest of `tick`). A state travelling to the floor it already stands at is
   * never produced by a step; from one, the step is the arrival alone.
   */
  function Advance(s: State): (r: Step)
    requires Valid(s)
    ensures Valid(r.state) && r.state.floors == s.floors
    ensures Settled(r.state)
    ensures s.phase.Stopped? ==> r == Step(s, [])
    ensures !s.phase.Stopped? ==> Nearer(r.state, s)
    ensures Pending(r.state) <= Pending(s)
    ensures Pending(s) <= Pending(r.state) + Announced(r.out)
    ensures Announced(r.out) <= Pending(s)
  {
    match s.phase
    case Stopped => Step(s, [])
    case EnRoute(stop) =>
      if stop.destination != s.car.location then TravelStep(s) else Arrive(s)
    case Dwelling =>
      Resume(s)
  }

  /** A floor of travel, running on into the arrival when it reaches the stop. */
  function TravelStep(s: State): (r: Step)
    requires Valid(s) && s.phase.EnRoute? && s.phase.stop.destination != s.car.location
    ensures Valid(r.state) && r.state.floors == s.floors && Settled(r.state)
    ensures Nearer(r.state, s)
    ensures Pending(r.state) <= Pending(s)
    ensures Pending(s) <= Pending(r.state) + Announced(r.out)
    ensures Announced(r.out) <= Pending(s)
  {
    CurrentWithinQueued(s);
    var m := MoveStep(s);
    if m.state.car.location == s.phase.stop.destination then
      var a := Arrive(m.state);
      MoveThenArrive(s, m, a);
      Step(a.state, m.out + a.out)
    else
      m
  }

  /**
   * A step of travel ends dwelling exactly when it has brought the car to its
   * stop, and then its last announcement is the arrival there, carrying the
   * committed direction whichever way the car moved to get there.
   */
  lemma ArrivalAtStop(s: State)
    requires Valid(s) && s.phase.EnRoute?
    ensures
      var stop := s.phase.stop.destination;
      var r := Advance(s);
      && (r.state.phase == Dwelling <==> r.state.car.location == stop)
      && r.state.car.direction == s.car.direction
      && (r.state.phase == Dwelling ==> |r.out| > 0 && r.out[|r.out| - 1] == Arrival(stop, s.car.direction))
      && (r.state.phase.EnRoute? ==> r.state.phase.stop == s.phase.stop && |r.out| <= 1)
  {
    var r := Advance(s);
    if r.state.phase == Dwelling && s.phase.stop.destination != s.car.location {
      assert r == TravelStep(s);
      var m := MoveStep(s);
      assert r.out == m.out + [Arrival(s.phase.stop.destination, s.car.direction)];
    }
  }

  /** The last floor of travel followed by the arrival at the stop: what was owed is announced or still owed. */
  lemma MoveThenArrive(s: State, m: Step, a: Step)
    requires Valid(s) && s.phase.EnRoute?
    requires m.state.phase == s.phase && m.state.car.location == s.phase.stop.destination
    requires Size(m.state) <= Size(s)
    requires Queued(m.state) <= Queued(s) && Queued(s) <= Queued(m.state) + {m.state.car.location}
    requires Announced(m.out) <= Queued(s)
    requires a.state == m.state.(phase := Dwelling)
    requires a.out == [Arrival(s.phase.stop.destination, m.state.car.direction)]
    ensures Nearer(a.state, s)
    ensures Pending(a.state) <= Pending(s)
    ensures Pending(s) <= Pending(a.state) + Announced(m.out + a.out)
    ensures Announced(m.out + a.out) <= Pending(s)
  {
    AnnouncedConcat(m.out, a.out);
    assert Announced(a.out) == {s.phase.stop.destination};
  }

  /**
   * Runs the loop until the car is idle. It always gets there, having
   * announced an arrival at every floor it owed a visit and at no other.
   */
  function Drain(s: State): (r: Step)
    requires Valid(s)
    ensures Valid(r.state) && r.state.floors == s.floors
    ensures r.state.phase.Stopped? && !r.state.car.busy && Queued(r.state) == {}
    ensures Announced(r.out) == Pending(s)
    decreases Size(s), Rank(s), Remaining(s)
  {
    if s.phase.Stopped? then
      Step(s, [])
    else
      var a := Advance(s);
      var b := Drain(a.state);
      OwedThenDrained(Pending(s), Pending(a.state), a.out, b.out);
      Step(b.state, a.out + b.out)
  }

  /**
   * One step announced part of what was owed and left the rest owed; the
   * remainder then announced exactly what was left: together they announced
   * exactly what was owed.
   */
  lemma OwedThenDrained(owed: set<nat>, left: set<nat>, first: seq<Announcement>, rest: seq<Announcement>)
    requires left <= owed && owed <= left + Announced(first) && Announced(first) <= owed
    requires Announced(rest) == left
    ensures Announced(first + rest) == owed
  {
    AnnouncedConcat(first, rest);
  }

  /** One step of `Drain`, spelled out. */
  lemma DrainUnfold(s: State)
    requires Valid(s) && !s.phase.Stopped?
    ensures Drain(s) == Step(Drain(Advance(s).state).state, Advance(s).out + Drain(Advance(s).state).out)
  {
  }
}
