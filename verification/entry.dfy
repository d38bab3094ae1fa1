/**
 * `requestElevator`, the controller's public entry point: it turns a button
 * press into a request, registers it, starts the service loop when the car
 * was idle, and echoes the request to the button callback.
 */
module Entry {
  import opened Wrappers
  import opened Requests
  import opened SortedSet
  import opened Controller

  /** A label the floor sequence does not contain, where the controller would compute index -1. */
  datatype RequestError = UnknownFloor(name: string)

  /** `indexOf`: the first position of `name` in `floors`, or nothing when it is absent. */
  function IndexOf(floors: seq<string>, name: string): (i: Option<nat>)
    ensures i.None? <==> name !in floors
    ensures i.Some? ==> i.value < |floors| && floors[i.value] == name && name !in floors[..i.value]
  {
    if |floors| == 0 then None
    else if floors[0] == name then Some(0)
    else
      match IndexOf(floors[1..], name)
      case None => None
      case Some(j) =>
        assert floors[..j + 1] == [floors[0]] + floors[1..][..j];
        Some(j + 1)
  }

  /** With distinct labels, each label's index is its position. */
  lemma IndexOfDistinct(floors: seq<string>, i: nat)
    requires i < |floors|
    requires forall j, k :: 0 <= j < k < |floors| ==> floors[j] != floors[k]
    ensures IndexOf(floors, floors[i]) == Some(i)
  {
  }

  /**
   * Builds the request for a press. With a floor label given and a first
   * argument of "up" or "down" it is a floor call at that label; otherwise
   * the first argument is the label of a car call.
   */
  function Parse(floors: seq<string>, destination: string, currentFloor: Option<string>): (r: Result<Request, RequestError>)
    ensures currentFloor.Some? && (destination == "up" || destination == "down") ==>
      match IndexOf(floors, currentFloor.value)
      case None => r == Failure(UnknownFloor(currentFloor.value))
      case Some(i) => r == Success(FloorCall(i, if destination == "up" then Up else Down))
    ensures !(currentFloor.Some? && (destination == "up" || destination == "down")) ==>
      match IndexOf(floors, destination)
      case None => r == Failure(UnknownFloor(destination))
      case Some(i) => r == Success(CarCall(i))
    ensures r.Success? ==> r.value.destination < |floors|
  {
    if currentFloor.Some? && (destination == "up" || destination == "down") then
      var travel := if destination == "up" then Up else Down;
      match IndexOf(floors, currentFloor.value)
      case None => Failure(UnknownFloor(currentFloor.value))
      case Some(i) => Success(FloorCall(i, travel))
    else
      match IndexOf(floors, destination)
      case None => Failure(UnknownFloor(destination))
      case Some(i) => Success(CarCall(i))
  }

  /** The announcement of a received request: its source, floor index and requested direction (none for car calls). */
  function Echo(r: Request): Announcement
  {
    Announcement(r.Source(), r.destination, r.RequestDirection())
  }

  /**
   * `requestElevator`: parse, register, start the loop if the car was idle,
   * then echo. When the car was idle and already at the requested floor,
   * the loop announces the arrival before the echo, since `tick` runs up to
   * its first wait inside the registration.
   */
  function RequestElevator(s: State, destination: string, currentFloor: Option<string>): (r: Result<Step, RequestError>)
    requires Valid(s)
    ensures Parse(s.floors, destination, currentFloor).Failure? ==>
      r == Failure(Parse(s.floors, destination, currentFloor).error)
    ensures Parse(s.floors, destination, currentFloor).Success? ==>
      var req := Parse(s.floors, destination, currentFloor).value;
      && r.Success?
      && Valid(r.value.state) && r.value.state.floors == s.floors && r.value.state.car.busy
      && (s.car.busy ==> r.value == Step(Route(s, req), [Echo(req)]))
      && (!s.car.busy ==>
            && r.value.state.car.location == s.car.location
            && r.value.state.car.direction == TravelDirection(s.car, req.destination)
            && Queued(r.value.state) == {}
            && (if req.destination == s.car.location
                then r.value.state.phase == Dwelling
                     && r.value.out == [Arrival(req.destination, Down), Echo(req)]
                else r.value.state.phase == EnRoute(req) && r.value.out == [Echo(req)]))
  {
    match Parse(s.floors, destination, currentFloor)
    case Failure(e) => Failure(e)
    case Success(req) =>
      if s.car.busy then
        Success(Step(Route(s, req), [Echo(req)]))
      else
        var started := Start(s, req);
        Success(Step(started.state, started.out + [Echo(req)]))
  }

  /**
   * A request reaching an idle car: register it, then run `tick` up to its
   * first wait. The car commits to the request's direction and sets off
   * for it, or, already standing there, announces its arrival heading down.
   */
  function Start(s: State, req: Request): (r: Step)
    requires Valid(s) && !s.car.busy && IsFloor(s, req.destination)
    ensures Valid(r.state) && r.state.floors == s.floors
    ensures r.state.car == Car(s.car.location, TravelDirection(s.car, req.destination), true)
    ensures Queued(r.state) == {}
    ensures if req.destination == s.car.location
            then r.state.phase == Dwelling && r.out == [Arrival(req.destination, Down)]
            else r.state.phase == EnRoute(req) && r.out == []
  {
    var routed := Route(s, req);
    assert Current(routed) == [req];
    SizeSplit(s, routed, s.role);
    LaunchAlone(routed, req);
    Launch(routed)
  }

  /** Starting the loop with a single request queued sets off for it, or arrives at once when the car is there. */
  lemma LaunchAlone(t: State, req: Request)
    requires QueuesOk(t) && t.phase == Stopped && t.car.busy
    requires Current(t) == [req] && Size(t) == 1
    ensures
      var l := Launch(t);
      && Valid(l.state) && l.state.floors == t.floors && l.state.car == t.car
      && Queued(l.state) == {}
      && if req.destination == t.car.location
         then l.state.phase == Dwelling && l.out == [Arrival(req.destination, t.car.direction)]
         else l.state.phase == EnRoute(req) && l.out == []
  {
    var l := Launch(t);
    assert Begin(t).phase.stop == req;
    assert l.state.own == [] && l.state.up == [] && l.state.down == [];
  }

  /**
   * A press never leaves the car travelling to the floor it stands at: a
   * busy car keeps its place and its stop, and an idle car at the requested
   * floor announces its arrival at once.
   */
  lemma PressKeepsSettled(s: State, destination: string, currentFloor: Option<string>)
    requires Valid(s) && Settled(s)
    ensures Settled(Init(s.floors))
    ensures RequestElevator(s, destination, currentFloor).Success? ==>
      Settled(RequestElevator(s, destination, currentFloor).value.state)
  {
  }

  /**
   * The last announcement of a press echoes it: a floor call exactly when a
   * floor label came with "up" or "down", heading up exactly for "up", no
   * direction for a car call, and the index of the label pressed.
   */
  lemma PressIsEchoed(s: State, destination: string, currentFloor: Option<string>)
    requires Valid(s)
    requires RequestElevator(s, destination, currentFloor).Success?
    ensures
      var out := RequestElevator(s, destination, currentFloor).value.out;
      var floorCall := currentFloor.Some? && (destination == "up" || destination == "down");
      && |out| > 0
      && var a := out[|out| - 1];
      && (a.source == FloorButton <==> floorCall)
      && (a.direction == Some(Up) <==> floorCall && destination == "up")
      && (a.direction == None <==> !floorCall)
      && a.destination < |s.floors|
      && s.floors[a.destination] == (if floorCall then currentFloor.value else destination)
  {
    var req := Parse(s.floors, destination, currentFloor).value;
    var out := RequestElevator(s, destination, currentFloor).value.out;
    assert out[|out| - 1] == Echo(req);
  }
}
