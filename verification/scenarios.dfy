/** Concrete runs of the controller on six floors labelled "1" to "6". */
module Scenarios {
  import opened Wrappers
  import opened Requests
  import opened SortedSet
  import opened Controller
  import opened Dispatch
  import opened Entry

  const Floors: seq<string> := ["1", "2", "3", "4", "5", "6"]

  lemma FloorLabel(i: nat)
    requires i < |Floors|
    ensures IndexOf(Floors, Floors[i]) == Some(i)
  {
    IndexOfDistinct(Floors, i);
  }

  /** "up" or "down" with the label at `i` is a floor call at index `i`. */
  lemma CallAt(i: nat, d: Direction)
    requires i < |Floors|
    ensures Parse(Floors, if d == Up then "up" else "down", Some(Floors[i])) == Success(FloorCall(i, d))
  {
    FloorLabel(i);
  }

  /** The label at `i` alone is a car call to index `i`. */
  lemma SendTo(i: nat)
    requires i < |Floors|
    ensures Parse(Floors, Floors[i], None) == Success(CarCall(i))
  {
    FloorLabel(i);
  }

  /** The car on `Floors` at `location`, heading `heading`, busy, with nothing but `own` queued. */
  function Busy(location: nat, heading: Direction, own: seq<Request>, phase: Phase): State
  {
    State(Floors, Car(location, heading, true), own, [], [], Own, phase)
  }

  /** The car on `Floors` idle at `location`. */
  function Idle(location: nat, heading: Direction): State
  {
    State(Floors, Car(location, heading, false), [], [], [], Own, Stopped)
  }

  /** A press the busy car files as `t`. */
  lemma BusyPress(s: State, destination: string, currentFloor: Option<string>, req: Request, t: State)
    requires Valid(s) && s.car.busy
    requires Parse(s.floors, destination, currentFloor) == Success(req)
    requires Route(s, req) == t
    ensures RequestElevator(s, destination, currentFloor) == Success(Step(t, [Echo(req)]))
  {
  }

  /** A press the idle car routes as `routed` and then starts the loop on. */
  lemma IdlePress(s: State, destination: string, currentFloor: Option<string>, req: Request, routed: State, l: Step)
    requires Valid(s) && !s.car.busy
    requires Parse(s.floors, destination, currentFloor) == Success(req)
    requires Route(s, req) == routed && routed.phase == Stopped && Current(routed) == [req]
    requires Launch(routed) == l
    ensures RequestElevator(s, destination, currentFloor) == Success(Step(l.state, l.out + [Echo(req)]))
  {
  }

  lemma FirstPress()
    ensures RequestElevator(Init(Floors), "up", Some("2"))
         == Success(Step(Busy(0, Up, [], EnRoute(FloorCall(1, Up))), [Announcement(FloorButton, 1, Some(Up))]))
  {
    CallAt(1, Up);
    RouteFirstPress();
    LaunchFirstPress();
    IdlePress(Init(Floors), "up", Some("2"), FloorCall(1, Up), Busy(0, Up, [FloorCall(1, Up)], Stopped),
              Step(Busy(0, Up, [], EnRoute(FloorCall(1, Up))), []));
  }

  lemma RouteFirstPress()
    ensures Route(Init(Floors), FloorCall(1, Up)) == Busy(0, Up, [FloorCall(1, Up)], Stopped)
  {
  }

  lemma LaunchFirstPress()
    ensures Launch(Busy(0, Up, [FloorCall(1, Up)], Stopped)) == Step(Busy(0, Up, [], EnRoute(FloorCall(1, Up))), [])
  {
    assert Begin(Busy(0, Up, [FloorCall(1, Up)], Stopped)) == Busy(0, Up, [], EnRoute(FloorCall(1, Up)));
  }

  lemma SecondPress()
    ensures RequestElevator(Busy(0, Up, [], EnRoute(FloorCall(1, Up))), "5", None)
         == Success(Step(Busy(0, Up, [CarCall(4)], EnRoute(FloorCall(1, Up))), [Announcement(CarButton, 4, None)]))
  {
    SendTo(4);
    BusyPress(Busy(0, Up, [], EnRoute(FloorCall(1, Up))), "5", None, CarCall(4),
              Busy(0, Up, [CarCall(4)], EnRoute(FloorCall(1, Up))));
  }

  lemma UpOneFloor(location: nat, own: seq<Request>, stop: Request)
    requires location + 1 < stop.destination < |Floors| && Ordered(own)
    requires forall x :: x in own ==> x.destination != location + 1 && x.destination < |Floors|
    ensures Advance(Busy(location, Up, own, EnRoute(stop))) == Step(Busy(location + 1, Up, own, EnRoute(stop)), [])
  {
    assert location + 1 !in Dests(own);
  }

  /** `Drain` from `s` is one step to `a` followed by the drain `b` from there. */
  lemma DrainVia(s: State, a: Step, b: Step)
    requires Valid(s) && !s.phase.Stopped?
    requires Advance(s) == a && Drain(a.state) == b
    ensures Drain(s) == Step(b.state, a.out + b.out)
  {
    DrainUnfold(s);
  }

  lemma ArriveAtSecondStop()
    ensures Drain(Busy(3, Up, [], EnRoute(CarCall(4)))) == Step(Idle(4, Up), [Arrival(4, Up)])
  {
    ArriveAtIndex4();
    IdleAtIndex4();
    DrainVia(Busy(3, Up, [], EnRoute(CarCall(4))), Step(Busy(4, Up, [], Dwelling), [Arrival(4, Up)]), Step(Idle(4, Up), []));
  }

  lemma ArriveAtIndex4()
    ensures Advance(Busy(3, Up, [], EnRoute(CarCall(4)))) == Step(Busy(4, Up, [], Dwelling), [Arrival(4, Up)])
  {
    assert 4 !in Dests([]);
  }

  lemma IdleAtIndex4()
    ensures Drain(Busy(4, Up, [], Dwelling)) == Step(Idle(4, Up), [])
  {
    assert Advance(Busy(4, Up, [], Dwelling)) == Step(Idle(4, Up), []);
  }

  lemma FromIndex2()
    ensures Drain(Busy(2, Up, [], EnRoute(CarCall(4)))) == Step(Idle(4, Up), [Arrival(4, Up)])
  {
    ArriveAtSecondStop();
    UpOneFloor(2, [], CarCall(4));
    DrainVia(Busy(2, Up, [], EnRoute(CarCall(4))), Step(Busy(3, Up, [], EnRoute(CarCall(4))), []),
             Step(Idle(4, Up), [Arrival(4, Up)]));
  }

  lemma ThroughSecondLeg()
    ensures Drain(Busy(1, Up, [], EnRoute(CarCall(4)))) == Step(Idle(4, Up), [Arrival(4, Up)])
  {
    var done := Step(Idle(4, Up), [Arrival(4, Up)]);
    FromIndex2();
    UpOneFloor(1, [], CarCall(4));
    DrainVia(Busy(1, Up, [], EnRoute(CarCall(4))), Step(Busy(2, Up, [], EnRoute(CarCall(4))), []), done);
  }

  lemma AfterFirstStop()
    ensures Advance(Busy(1, Up, [CarCall(4)], Dwelling)) == Step(Busy(1, Up, [], EnRoute(CarCall(4))), [])
  {
    assert Launch(Busy(1, Up, [CarCall(4)], Stopped)) == Step(Busy(1, Up, [], EnRoute(CarCall(4))), []);
  }

  lemma FromFirstStop()
    ensures Drain(Busy(1, Up, [CarCall(4)], Dwelling)) == Step(Idle(4, Up), [Arrival(4, Up)])
  {
    AfterFirstStop();
    ThroughSecondLeg();
    DrainVia(Busy(1, Up, [CarCall(4)], Dwelling), Step(Busy(1, Up, [], EnRoute(CarCall(4))), []),
             Step(Idle(4, Up), [Arrival(4, Up)]));
  }

  lemma ArriveAtFirstStop()
    ensures Advance(Busy(0, Up, [CarCall(4)], EnRoute(FloorCall(1, Up))))
         == Step(Busy(1, Up, [CarCall(4)], Dwelling), [Arrival(1, Up)])
  {
    assert 1 !in Dests([CarCall(4)]);
  }

  lemma ThroughFirstLeg()
    ensures Drain(Busy(0, Up, [CarCall(4)], EnRoute(FloorCall(1, Up))))
         == Step(Idle(4, Up), [Arrival(1, Up), Arrival(4, Up)])
  {
    var both := [Arrival(1, Up), Arrival(4, Up)];
    assert [Arrival(1, Up)] + [Arrival(4, Up)] == both;
    FromFirstStop();
    ArriveAtFirstStop();
    DrainVia(Busy(0, Up, [CarCall(4)], EnRoute(FloorCall(1, Up))), Step(Busy(1, Up, [CarCall(4)], Dwelling), [Arrival(1, Up)]),
             Step(Idle(4, Up), [Arrival(4, Up)]));
  }

  /**
   * An up call at "2" and then a car call to "5", both while the car idles
   * at "1": the presses are echoed, the car stops at index 1 and then at
   * index 4, announcing each arrival heading up, and goes idle at index 4.
   */
  lemma TwoStops()
    ensures
      var first := RequestElevator(Init(Floors), "up", Some("2"));
      && first.Success?
      && first.value.out == [Announcement(FloorButton, 1, Some(Up))]
      && var second := RequestElevator(first.value.state, "5", None);
      && second.Success?
      && second.value.out == [Announcement(CarButton, 4, None)]
      && Drain(second.value.state) == Step(Idle(4, Up), [Arrival(1, Up), Arrival(4, Up)])
  {
    FirstPress();
    SecondPress();
    ThroughFirstLeg();
  }

  /**
   * A car call to "1" while the car idles at "1": the arrival there,
   * announced heading down, comes before the echo of the press, and the
   * loop then goes idle without moving.
   */
  lemma OwnFloor()
    ensures RequestElevator(Init(Floors), "1", None)
         == Success(Step(Busy(0, Down, [], Dwelling), [Arrival(0, Down), Announcement(CarButton, 0, None)]))
    ensures Drain(Busy(0, Down, [], Dwelling)) == Step(Idle(0, Down), [])
  {
    SendTo(0);
    RouteToOwnFloor();
    LaunchAtOwnFloor();
    IdlePress(Init(Floors), "1", None, CarCall(0), Busy(0, Down, [CarCall(0)], Stopped),
              Step(Busy(0, Down, [], Dwelling), [Arrival(0, Down)]));
    IdleAfterOwnFloor();
  }

  lemma IdleAfterOwnFloor()
    ensures Drain(Busy(0, Down, [], Dwelling)) == Step(Idle(0, Down), [])
  {
    assert Advance(Busy(0, Down, [], Dwelling)) == Step(Idle(0, Down), []);
  }

  lemma RouteToOwnFloor()
    ensures Route(Init(Floors), CarCall(0)) == Busy(0, Down, [CarCall(0)], Stopped)
  {
  }

  lemma LaunchAtOwnFloor()
    ensures Launch(Busy(0, Down, [CarCall(0)], Stopped)) == Step(Busy(0, Down, [], Dwelling), [Arrival(0, Down)])
  {
    assert Begin(Busy(0, Down, [CarCall(0)], Stopped)) == Busy(0, Down, [], EnRoute(CarCall(0)));
  }

  /** The car on `Floors` with `up` empty and the given other sets. */
  function Cab(location: nat, heading: Direction, own: seq<Request>, down: seq<Request>, role: Role, phase: Phase): State
  {
    State(Floors, Car(location, heading, true), own, [], down, role, phase)
  }

  lemma SendToIndex3()
    ensures RequestElevator(Init(Floors), "4", None)
         == Success(Step(Cab(0, Up, [], [], Own, EnRoute(CarCall(3))), [Announcement(CarButton, 3, None)]))
  {
    SendTo(3);
    RouteToIndex3();
    LaunchToIndex3();
    IdlePress(Init(Floors), "4", None, CarCall(3), Cab(0, Up, [CarCall(3)], [], Own, Stopped),
              Step(Cab(0, Up, [], [], Own, EnRoute(CarCall(3))), []));
  }

  lemma RouteToIndex3()
    ensures Route(Init(Floors), CarCall(3)) == Cab(0, Up, [CarCall(3)], [], Own, Stopped)
  {
  }

  lemma LaunchToIndex3()
    ensures Launch(Cab(0, Up, [CarCall(3)], [], Own, Stopped)) == Step(Cab(0, Up, [], [], Own, EnRoute(CarCall(3))), [])
  {
    assert Begin(Cab(0, Up, [CarCall(3)], [], Own, Stopped)) == Cab(0, Up, [], [], Own, EnRoute(CarCall(3)));
  }

  lemma DownCallAtIndex2()
    ensures RequestElevator(Cab(0, Up, [], [], Own, EnRoute(CarCall(3))), "down", Some("3"))
         == Success(Step(Cab(0, Up, [], [FloorCall(2, Down)], Own, EnRoute(CarCall(3))),
                         [Announcement(FloorButton, 2, Some(Down))]))
  {
    CallAt(2, Down);
    RouteDownCallAtIndex2();
    BusyPress(Cab(0, Up, [], [], Own, EnRoute(CarCall(3))), "down", Some("3"), FloorCall(2, Down),
              Cab(0, Up, [], [FloorCall(2, Down)], Own, EnRoute(CarCall(3))));
  }

  lemma RouteDownCallAtIndex2()
    ensures Route(Cab(0, Up, [], [], Own, EnRoute(CarCall(3))), FloorCall(2, Down))
         == Cab(0, Up, [], [FloorCall(2, Down)], Own, EnRoute(CarCall(3)))
  {
  }

  lemma DownCallAtIndex0()
    ensures RequestElevator(Cab(0, Up, [], [FloorCall(2, Down)], Own, EnRoute(CarCall(3))), "down", Some("1"))
         == Success(Step(Cab(0, Up, [], [FloorCall(0, Down), FloorCall(2, Down)], Own, EnRoute(CarCall(3))),
                         [Announcement(FloorButton, 0, Some(Down))]))
  {
    CallAt(0, Down);
    RouteDownCallAtIndex0();
    BusyPress(Cab(0, Up, [], [FloorCall(2, Down)], Own, EnRoute(CarCall(3))), "down", Some("1"), FloorCall(0, Down),
              Cab(0, Up, [], [FloorCall(0, Down), FloorCall(2, Down)], Own, EnRoute(CarCall(3))));
  }

  lemma RouteDownCallAtIndex0()
    ensures Route(Cab(0, Up, [], [FloorCall(2, Down)], Own, EnRoute(CarCall(3))), FloorCall(0, Down))
         == Cab(0, Up, [], [FloorCall(0, Down), FloorCall(2, Down)], Own, EnRoute(CarCall(3)))
  {
    assert Add([FloorCall(2, Down)], FloorCall(0, Down)) == [FloorCall(0, Down), FloorCall(2, Down)];
  }

  lemma RiseOneFloor(location: nat, down: seq<Request>, stop: Request)
    requires location + 1 < stop.destination < |Floors| && Ordered(down)
    requires forall x :: x in down ==> x.destination < |Floors|
    ensures Advance(Cab(location, Up, [], down, Own, EnRoute(stop)))
         == Step(Cab(location + 1, Up, [], down, Own, EnRoute(stop)), [])
  {
  }

  lemma StopAtIndex3()
    ensures Advance(Cab(2, Up, [], [FloorCall(0, Down), FloorCall(2, Down)], Own, EnRoute(CarCall(3))))
         == Step(Cab(3, Up, [], [FloorCall(0, Down), FloorCall(2, Down)], Own, Dwelling), [Arrival(3, Up)])
  {
  }

  lemma TurnDownAtIndex3()
    ensures Advance(Cab(3, Up, [], [FloorCall(0, Down), FloorCall(2, Down)], Own, Dwelling))
         == Step(Cab(3, Down, [], [FloorCall(0, Down)], PendingDown, EnRoute(FloorCall(2, Down))), [])
  {
    var s := Cab(3, Up, [], [FloorCall(0, Down), FloorCall(2, Down)], Own, Stopped);
    var t := Cab(3, Down, [], [FloorCall(0, Down), FloorCall(2, Down)], PendingDown, Stopped);
    assert Switch(s) == t;
    assert Pop([FloorCall(0, Down), FloorCall(2, Down)]) == Taken(FloorCall(2, Down), [FloorCall(0, Down)]);
    assert Begin(t) == Cab(3, Down, [], [FloorCall(0, Down)], PendingDown, EnRoute(FloorCall(2, Down)));
  }

  lemma DownCallAtIndex5()
    ensures RequestElevator(Cab(3, Down, [], [FloorCall(0, Down)], PendingDown, EnRoute(FloorCall(2, Down))), "down", Some("6"))
         == Success(Step(Cab(3, Down, [], [FloorCall(0, Down), FloorCall(5, Down)], PendingDown, EnRoute(FloorCall(2, Down))),
                         [Announcement(FloorButton, 5, Some(Down))]))
  {
    CallAt(5, Down);
    RouteDownCallAtIndex5();
    BusyPress(Cab(3, Down, [], [FloorCall(0, Down)], PendingDown, EnRoute(FloorCall(2, Down))), "down", Some("6"),
              FloorCall(5, Down), Cab(3, Down, [], [FloorCall(0, Down), FloorCall(5, Down)], PendingDown, EnRoute(FloorCall(2, Down))));
  }

  lemma RouteDownCallAtIndex5()
    ensures Route(Cab(3, Down, [], [FloorCall(0, Down)], PendingDown, EnRoute(FloorCall(2, Down))), FloorCall(5, Down))
         == Cab(3, Down, [], [FloorCall(0, Down), FloorCall(5, Down)], PendingDown, EnRoute(FloorCall(2, Down)))
  {
    assert Add([FloorCall(0, Down)], FloorCall(5, Down)) == [FloorCall(0, Down), FloorCall(5, Down)];
  }

  lemma DescendToIndex2()
    ensures Advance(Cab(3, Down, [], [FloorCall(0, Down), FloorCall(5, Down)], PendingDown, EnRoute(FloorCall(2, Down))))
         == Step(Cab(2, Down, [], [FloorCall(0, Down), FloorCall(5, Down)], PendingDown, Dwelling), [Arrival(2, Down)])
  {
    assert 2 !in Dests([FloorCall(0, Down), FloorCall(5, Down)]);
  }

  lemma ClimbFromIndex2()
    ensures Advance(Cab(2, Down, [], [FloorCall(0, Down), FloorCall(5, Down)], PendingDown, Dwelling))
         == Step(Cab(2, Down, [], [FloorCall(0, Down)], PendingDown, EnRoute(FloorCall(5, Down))), [])
  {
    var q := [FloorCall(0, Down), FloorCall(5, Down)];
    assert Pop(q) == Taken(FloorCall(5, Down), [FloorCall(0, Down)]);
    assert Launch(Cab(2, Down, [], q, PendingDown, Stopped))
        == Step(Cab(2, Down, [], [FloorCall(0, Down)], PendingDown, EnRoute(FloorCall(5, Down))), []);
  }

  lemma ThreePresses()
    ensures
      && RequestElevator(Init(Floors), "4", None).Success?
      && var a := RequestElevator(Init(Floors), "4", None).value.state;
      && RequestElevator(a, "down", Some("3")).Success?
      && var b := RequestElevator(a, "down", Some("3")).value.state;
      && RequestElevator(b, "down", Some("1")).Success?
      && RequestElevator(b, "down", Some("1")).value.state
         == Cab(0, Up, [], [FloorCall(0, Down), FloorCall(2, Down)], Own, EnRoute(CarCall(3)))
  {
    SendToIndex3();
    DownCallAtIndex2();
    DownCallAtIndex0();
  }

  lemma RiseAndTurn()
    ensures
      var s := Cab(0, Up, [], [FloorCall(0, Down), FloorCall(2, Down)], Own, EnRoute(CarCall(3)));
      Advance(Advance(Advance(Advance(s).state).state).state).state
        == Cab(3, Down, [], [FloorCall(0, Down)], PendingDown, EnRoute(FloorCall(2, Down)))
  {
    var down := [FloorCall(0, Down), FloorCall(2, Down)];
    RiseOneFloor(0, down, CarCall(3));
    RiseOneFloor(1, down, CarCall(3));
    StopAtIndex3();
    TurnDownAtIndex3();
  }

  /**
   * The car is sent to "4" and gets down calls at "3" and "1" on its way
   * up; both are filed as pending-down. At "4" it announces its arrival
   * heading up, turns down, and `current` becomes the pending-down set.
   */
  lemma TurnAfterDownCalls()
    ensures
      var s := Cab(0, Up, [], [FloorCall(0, Down), FloorCall(2, Down)], Own, EnRoute(CarCall(3)));
      && RequestElevator(Init(Floors), "4", None).Success?
      && var a := RequestElevator(Init(Floors), "4", None).value.state;
      && RequestElevator(a, "down", Some("3")).Success?
      && var b := RequestElevator(a, "down", Some("3")).value.state;
      && RequestElevator(b, "down", Some("1")).Success?
      && RequestElevator(b, "down", Some("1")).value.state == s
      && Advance(Advance(Advance(Advance(s).state).state).state).state
         == Cab(3, Down, [], [FloorCall(0, Down)], PendingDown, EnRoute(FloorCall(2, Down)))
  {
    ThreePresses();
    RiseAndTurn();
  }

  /**
   * Continuing from the turn: a down call at "6" arrives while the car
   * stands at "4" heading down. The car has passed it, so it is filed as
   * pending-down, which is now `current`. After stopping at "3" the car,
   * still heading down, next sets off up to "6", while the call at "1",
   * placed before the turn, waits.
   */
  lemma DownCallAboveJoinsSweep()
    ensures
      var c := Cab(3, Down, [], [FloorCall(0, Down)], PendingDown, EnRoute(FloorCall(2, Down)));
      var d := Cab(3, Down, [], [FloorCall(0, Down), FloorCall(5, Down)], PendingDown, EnRoute(FloorCall(2, Down)));
      && RequestElevator(c, "down", Some("6")) == Success(Step(d, [Announcement(FloorButton, 5, Some(Down))]))
      && Advance(Advance(d).state).state
         == Cab(2, Down, [], [FloorCall(0, Down)], PendingDown, EnRoute(FloorCall(5, Down)))
  {
    DownCallAtIndex5();
    SweepFromIndex3();
  }

  lemma SweepFromIndex3()
    ensures
      var d := Cab(3, Down, [], [FloorCall(0, Down), FloorCall(5, Down)], PendingDown, EnRoute(FloorCall(2, Down)));
      Advance(Advance(d).state).state
        == Cab(2, Down, [], [FloorCall(0, Down)], PendingDown, EnRoute(FloorCall(5, Down)))
  {
    DescendToIndex2();
    ClimbFromIndex2();
  }

  /** One floor up towards "6" while the car heads down, past floors nobody asked for. */
  lemma ClimbOneFloor(location: nat)
    requires 2 <= location < 4
    ensures Advance(Cab(location, Down, [], [FloorCall(0, Down)], PendingDown, EnRoute(FloorCall(5, Down))))
         == Step(Cab(location + 1, Down, [], [FloorCall(0, Down)], PendingDown, EnRoute(FloorCall(5, Down))), [])
  {
    assert location + 1 !in Dests([FloorCall(0, Down)]);
  }

  /**
   * Continuing: the car climbs from "3" to "6" with its direction still
   * DOWN, and the arrival at "6" is announced heading down, the committed
   * direction, not the way the car moved.
   */
  lemma ClimbHeadingDown()
    ensures
      var e := Cab(2, Down, [], [FloorCall(0, Down)], PendingDown, EnRoute(FloorCall(5, Down)));
      && Advance(e) == Step(Cab(3, Down, [], [FloorCall(0, Down)], PendingDown, EnRoute(FloorCall(5, Down))), [])
      && Advance(Advance(e).state) == Step(Cab(4, Down, [], [FloorCall(0, Down)], PendingDown, EnRoute(FloorCall(5, Down))), [])
      && Advance(Advance(Advance(e).state).state)
         == Step(Cab(5, Down, [], [FloorCall(0, Down)], PendingDown, Dwelling), [Arrival(5, Down)])
  {
    ClimbOneFloor(2);
    ClimbOneFloor(3);
    ArriveAtIndex5();
  }

  lemma ArriveAtIndex5()
    ensures Advance(Cab(4, Down, [], [FloorCall(0, Down)], PendingDown, EnRoute(FloorCall(5, Down))))
         == Step(Cab(5, Down, [], [FloorCall(0, Down)], PendingDown, Dwelling), [Arrival(5, Down)])
  {
    assert 5 !in Dests([FloorCall(0, Down)]);
  }
}
