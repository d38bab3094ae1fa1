/**
 * `handleRequest`: the car travels floor by floor to the stop in flight,
 * servicing on the way every entry of `current` at a floor it reaches, and
 * announces its arrival at the stop.
 */
module Travel {
  import opened Requests
  import opened SortedSet
  import opened Controller

  /** The floors reached when walking from `start` to `f`: every floor after `start`, up to and including `f`. */
  function Walked(start: nat, f: nat): (w: set<nat>)
    ensures forall k :: k in w <==> (start < k <= f) || (f <= k < start)
    decreases Distance(start, f)
  {
    if f == start then {}
    else
      var before := if start < f then f - 1 else f + 1;
      Walked(start, before) + {f}
  }

  /**
   * Reference definition of the arrivals announced on the way from `start`
   * to `f`: one per floor reached whose destination is in `targets`, in the
   * order the floors are reached.
   */
  function Passes(start: nat, f: nat, targets: set<nat>, heading: Direction): seq<Announcement>
    decreases Distance(start, f)
  {
    if f == start then []
    else
      var before := if start < f then f - 1 else f + 1;
      Passes(start, before, targets, heading) + (if f in targets then [Arrival(f, heading)] else [])
  }

  /** The loop invariant of `handleRequest`, for a walk from `s` that has reached `t`. */
  predicate OnTheWay(s: State, t: State, out: seq<Announcement>)
    requires s.phase.EnRoute?
  {
    var start := s.car.location;
    var dest := s.phase.stop.destination;
    && Valid(t) && t.phase == s.phase && t.role == s.role && t.floors == s.floors
    && t.car == s.car.(location := t.car.location)
    && (if start <= dest then start <= t.car.location <= dest else dest <= t.car.location <= start)
    && Dests(Current(t)) == Dests(Current(s)) - Walked(start, t.car.location)
    && (forall y :: y != s.role ==> Queue(t, y) == Queue(s, y))
    && out == Passes(start, t.car.location, Dests(Current(s)), s.car.direction)
  }

  /** Walking one floor further reaches `f` and may announce it. */
  lemma OneFloorFurther(start: nat, f: nat, targets: set<nat>, heading: Direction)
    requires f != start
    ensures
      var before := if start < f then f - 1 else f + 1;
      && Walked(start, f) == Walked(start, before) + {f}
      && Passes(start, f, targets, heading)
         == Passes(start, before, targets, heading) + (if f in targets then [Arrival(f, heading)] else [])
  {
  }

  /** One `moveCar` keeps the walk on its way and brings the car one floor nearer the stop. */
  lemma {:induction false} MoveStepOnTheWay(s: State, t: State, out: seq<Announcement>)
    requires s.phase.EnRoute? && OnTheWay(s, t, out)
    requires t.car.location != s.phase.stop.destination
    ensures OnTheWay(s, MoveStep(t).state, out + MoveStep(t).out)
    ensures Distance(MoveStep(t).state.car.location, s.phase.stop.destination)
          < Distance(t.car.location, s.phase.stop.destination)
  {
    var m := MoveStep(t);
    var start := s.car.location;
    var here := t.car.location;
    var f := m.state.car.location;
    assert f != start && (if start < f then f - 1 else f + 1) == here;
    assert f !in Walked(start, here);
    OneFloorFurther(start, f, Dests(Current(s)), s.car.direction);
    var w, w' := Walked(start, here), Walked(start, f);
    assert Dests(Current(m.state)) == Dests(Current(t)) - {f};
    assert Dests(Current(t)) == Dests(Current(s)) - w;
    assert Dests(Current(m.state)) == Dests(Current(s)) - w';
    assert f in Dests(Current(t)) <==> f in Dests(Current(s));
    assert forall y :: y != s.role ==> Queue(m.state, y) == Queue(s, y);
  }

  /**
   * The travel loop of `handleRequest` run to completion with no request
   * arriving meanwhile, followed by the arrival announcement at the stop.
   */
  method HandleRequest(s: State) returns (r: Step)
    requires Valid(s) && s.phase.EnRoute?
    ensures Valid(r.state) && r.state.phase == Dwelling
    ensures r.state.car == s.car.(location := s.phase.stop.destination)
    ensures r.state.role == s.role && r.state.floors == s.floors
    ensures Dests(Current(r.state)) == Dests(Current(s)) - Walked(s.car.location, s.phase.stop.destination)
    ensures forall y :: y != s.role ==> Queue(r.state, y) == Queue(s, y)
    ensures r.out == Passes(s.car.location, s.phase.stop.destination, Dests(Current(s)), s.car.direction)
                     + [Arrival(s.phase.stop.destination, s.car.direction)]
  {
    var dest := s.phase.stop.destination;
    var t := s;
    var out := [];
    while t.car.location != dest
      invariant OnTheWay(s, t, out)
      decreases Distance(t.car.location, dest)
    {
      MoveStepOnTheWay(s, t, out);
      var m := MoveStep(t);
      t, out := m.state, out + m.out;
    }
    var a := Arrive(t);
    r := Step(a.state, out + a.out);
  }
}
