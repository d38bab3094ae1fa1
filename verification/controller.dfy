/**
 * The single-car dispatch controller as an untimed state machine.
 *
 * The controller owns three sorted sets: the one created as `current`, and
 * `pendingUp` and `pendingDown`. When the service loop runs out of work it
 * re-points `current` at one of the pending sets instead of copying it, so
 * from then on the two names denote one set. `State.role` records which
 * physical set `current` denotes; every read or write of `current` goes
 * through it, so the aliasing behaves as it does in the controller.
 *
 * `State.phase` is the position of the asynchronous service loop: not
 * running, travelling towards a stop it has taken off `current`, or dwelling
 * at a stop it has just announced. Timers only pace these phases; each wait
 * is a point where another request may be registered.
 */
module Controller {
  import opened Wrappers
  import opened Requests
  import opened SortedSet

  /** The car record: floor index, committed direction, and whether the loop runs. */
  datatype Car = Car(location: nat, direction: Direction, busy: bool)

  /** The physical set `current` refers to. */
  datatype Role = Own | PendingUp | PendingDown

  /** Where the asynchronous service loop is suspended. */
  datatype Phase = Stopped | EnRoute(stop: Request) | Dwelling

  datatype State = State(
    floors: seq<string>,
    car: Car,
    own: seq<Request>,
    up: seq<Request>,
    down: seq<Request>,
    role: Role,
    phase: Phase)

  /** A transition's new state and the announcements it hands to the button callback, in order. */
  datatype Step = Step(state: State, out: seq<Announcement>)

  /** The physical set playing role `x`. */
  function Queue(s: State, x: Role): seq<Request>
  {
    match x
    case Own => s.own
    case PendingUp => s.up
    case PendingDown => s.down
  }

  /** The set the name `current` refers to. */
  function Current(s: State): seq<Request>
  {
    Queue(s, s.role)
  }

  /** The pending set for requests travelling in direction `d`. */
  function PendingFor(d: Direction): Role
  {
    if d == Up then PendingUp else PendingDown
  }

  /** Replaces the physical set playing role `x`. */
  function Put(s: State, x: Role, q: seq<Request>): (t: State)
    ensures Queue(t, x) == q
    ensures forall y :: y != x ==> Queue(t, y) == Queue(s, y)
    ensures t.floors == s.floors && t.car == s.car && t.role == s.role && t.phase == s.phase
  {
    match x
    case Own => s.(own := q)
    case PendingUp => s.(up := q)
    case PendingDown => s.(down := q)
  }

  /** How many entries the three sets hold together. */
  function Size(s: State): nat
  {
    |s.own| + |s.up| + |s.down|
  }

  lemma SizeSplit(s: State, t: State, x: Role)
    requires forall y :: y != x ==> Queue(t, y) == Queue(s, y)
    ensures Size(t) - |Queue(t, x)| == Size(s) - |Queue(s, x)|
  {
    match x
    case Own =>
      assert Queue(t, PendingUp) == Queue(s, PendingUp) && Queue(t, PendingDown) == Queue(s, PendingDown);
    case PendingUp =>
      assert Queue(t, Own) == Queue(s, Own) && Queue(t, PendingDown) == Queue(s, PendingDown);
    case PendingDown =>
      assert Queue(t, Own) == Queue(s, Own) && Queue(t, PendingUp) == Queue(s, PendingUp);
  }

  /** Every destination held in any of the three sets. */
  function Queued(s: State): set<nat>
  {
    Dests(s.own) + Dests(s.up) + Dests(s.down)
  }

  /** The destinations held by the two sets other than the one playing role `x`. */
  function Others(s: State, x: Role): set<nat>
  {
    match x
    case Own => Dests(s.up) + Dests(s.down)
    case PendingUp => Dests(s.own) + Dests(s.down)
    case PendingDown => Dests(s.own) + Dests(s.up)
  }

  lemma QueuedSplit(s: State, t: State, x: Role)
    requires forall y :: y != x ==> Queue(t, y) == Queue(s, y)
    ensures Queued(s) == Dests(Queue(s, x)) + Others(s, x)
    ensures Queued(t) == Dests(Queue(t, x)) + Others(s, x)
  {
    match x
    case Own =>
      assert Queue(t, PendingUp) == Queue(s, PendingUp) && Queue(t, PendingDown) == Queue(s, PendingDown);
    case PendingUp =>
      assert Queue(t, Own) == Queue(s, Own) && Queue(t, PendingDown) == Queue(s, PendingDown);
    case PendingDown =>
      assert Queue(t, Own) == Queue(s, Own) && Queue(t, PendingUp) == Queue(s, PendingUp);
  }

  lemma CurrentWithinQueued(s: State)
    ensures Dests(Current(s)) <= Queued(s)
  {
    QueuedSplit(s, s, s.role);
  }

  /** A floor index the label sequence has. */
  predicate IsFloor(s: State, f: nat)
  {
    f < |s.floors|
  }

  /** Every destination in `ds` is a floor index below `n`. */
  predicate AllBelow(ds: set<nat>, n: nat)
  {
    forall d :: d in ds ==> d < n
  }

  /**
   * The sets are sorted and unique, hold only real floors, and the set
   * created as `current` is left empty once `current` points elsewhere.
   */
  predicate QueuesOk(s: State)
  {
    && Ordered(s.own) && Ordered(s.up) && Ordered(s.down)
    && (s.role != Own ==> s.own == [])
    && AllBelow(Queued(s), |s.floors|)
    && (s.car.location == 0 || IsFloor(s, s.car.location))
  }

  /** The invariant every reachable state keeps. */
  predicate Valid(s: State)
  {
    && QueuesOk(s)
    && (s.car.busy <==> !s.phase.Stopped?)
    && (!s.car.busy ==> s.own == [] && s.up == [] && s.down == [])
    && (s.phase.EnRoute? ==> IsFloor(s, s.phase.stop.destination))
  }

  /**
   * A car on its way to a stop is not yet there. `handleRequest` announces
   * the arrival in the same synchronous run that brings the car to the stop,
   * so no press can be registered while the car stands at an unannounced stop.
   */
  predicate Settled(s: State)
  {
    s.phase.EnRoute? ==> s.phase.stop.destination != s.car.location
  }

  /** The controller as constructed: at floor index 0, heading up, idle, all sets empty. */
  function Init(floors: seq<string>): (s: State)
    ensures Valid(s)
    ensures !s.car.busy && Queued(s) == {} && s.car.location == 0
  {
    State(floors, Car(0, Up, false), [], [], [], Own, Stopped)
  }

  /** `getTravelDirection`: UP exactly when the target lies above the car; DOWN otherwise, including at the car's floor. */
  function TravelDirection(car: Car, target: nat): (d: Direction)
    ensures d == Up <==> target > car.location
  {
    if target > car.location then Up else Down
  }

  /** The car, heading `car.direction`, has already gone past floor `d`. */
  predicate Passed(car: Car, d: nat)
  {
    || (car.direction == Up && d < car.location)
    || (car.direction == Down && d > car.location)
  }

  /** `t` is `s` with `r` added to the set playing role `x` and no other set touched. */
  predicate Joined(s: State, t: State, x: Role, r: Request)
    requires Ordered(Queue(s, x))
  {
    && Queue(t, x) == Add(Queue(s, x), r)
    && forall y :: y != x ==> Queue(t, y) == Queue(s, y)
  }

  function Enqueue(s: State, x: Role, r: Request): (t: State)
    requires QueuesOk(s) && IsFloor(s, r.destination)
    requires x == Own ==> s.role == Own
    ensures QueuesOk(t) && Joined(s, t, x, r)
    ensures Queued(t) == Queued(s) + {r.destination}
    ensures t.floors == s.floors && t.car == s.car && t.role == s.role && t.phase == s.phase
  {
    var q := Add(Queue(s, x), r);
    AddTo(s, x, r, q);
    Put(s, x, q)
  }

  /** Replacing the set playing role `x` by `q`, that set with `r` added, keeps the sets sound. */
  lemma AddTo(s: State, x: Role, r: Request, q: seq<Request>)
    requires QueuesOk(s) && IsFloor(s, r.destination)
    requires x == Own ==> s.role == Own
    requires Ordered(q) && Dests(q) == Dests(Queue(s, x)) + {r.destination}
    ensures QueuesOk(Put(s, x, q))
    ensures Queued(Put(s, x, q)) == Queued(s) + {r.destination}
  {
    var t := Put(s, x, q);
    QueuedSplit(s, t, x);
    assert Ordered(t.own) && Ordered(t.up) && Ordered(t.down) by {
      match x
      case Own =>
      case PendingUp =>
      case PendingDown =>
    }
    assert AllBelow(Queued(t), |t.floors|) by {
      assert Queued(t) == Queued(s) + {r.destination};
    }
  }

  /**
   * `registerElevatorRequest`, up to the point where it starts the service
   * loop. An idle car commits to the request's direction and takes it into
   * `current`; a busy car keeps its record and files the request by where it
   * lies relative to the car.
   */
  function Route(s: State, r: Request): (t: State)
    requires QueuesOk(s) && IsFloor(s, r.destination)
    ensures QueuesOk(t)
    ensures t.floors == s.floors && t.role == s.role && t.phase == s.phase
    ensures Queued(t) == Queued(s) + {r.destination}
    // idle: start moving towards the request
    ensures !s.car.busy ==>
      && t.car == Car(s.car.location, TravelDirection(s.car, r.destination), true)
      && Joined(s, t, s.role, r)
    // busy: the car record is never touched
    ensures s.car.busy ==> t.car == s.car
    ensures s.car.busy && r.FloorCall? && r.travel == s.car.direction ==>
      if Passed(s.car, r.destination) then Joined(s, t, PendingFor(r.travel), r)
      else Joined(s, t, s.role, r)
    ensures s.car.busy && r.FloorCall? && r.travel != s.car.direction ==>
      Joined(s, t, PendingFor(r.travel), r)
    ensures s.car.busy && r.CarCall? ==>
      if Passed(s.car, r.destination) then Joined(s, t, PendingFor(Opposite(s.car.direction)), r)
      else Joined(s, t, s.role, r)
  {
    if !s.car.busy then
      var started := s.(car := Car(s.car.location, TravelDirection(s.car, r.destination), true));
      assert Queue(started, s.role) == Queue(s, s.role);
      Enqueue(started, started.role, r)
    else
      Enqueue(s, FiledUnder(s, r), r)
  }

  /** The set a busy car files request `r` in: `current`, or one of the pending sets. */
  function FiledUnder(s: State, r: Request): (x: Role)
    requires s.car.busy
    ensures x == Own ==> s.role == Own
    ensures r.FloorCall? && r.travel == s.car.direction ==>
      x == if Passed(s.car, r.destination) then PendingFor(r.travel) else s.role
    ensures r.FloorCall? && r.travel != s.car.direction ==> x == PendingFor(r.travel)
    ensures r.CarCall? ==>
      x == if Passed(s.car, r.destination) then PendingFor(Opposite(s.car.direction)) else s.role
  {
    var loc := s.car.location;
    match r
    case FloorCall(d, travel) =>
      if travel == s.car.direction then
        if s.car.direction == Up && d < loc then PendingUp
        else if s.car.direction == Down && d > loc then PendingDown
        else s.role
      else if travel == Up then PendingUp
      else PendingDown
    case CarCall(d) =>
      if s.car.direction == Up && d < loc then PendingDown
      else if s.car.direction == Down && d > loc then PendingUp
      else s.role
  }

  /**
   * Once `current` has been re-pointed at the pending set of the car's own
   * direction, a call in that direction the car has already passed, which
   * the routing files as pending, lands in `current` all the same.
   */
  lemma PassedCallJoinsAliasedCurrent(s: State, r: Request)
    requires QueuesOk(s) && IsFloor(s, r.destination)
    requires s.car.busy && r.FloorCall? && r.travel == s.car.direction && Passed(s.car, r.destination)
    requires s.role == PendingFor(s.car.direction)
    ensures r.destination in Dests(Current(Route(s, r)))
    ensures Current(Route(s, r)) == Add(Current(s), r)
  {
  }

  /**
   * The head of `tick`: with `current` non-empty, take off the entry with the
   * smallest destination when heading up (`shift`) or the largest when
   * heading down (`pop`), and set off towards it.
   */
  function Begin(s: State): (t: State)
    requires QueuesOk(s)
    ensures QueuesOk(t)
    ensures t.floors == s.floors && t.car == s.car && t.role == s.role
    ensures |Current(s)| == 0 ==> t == s
    ensures |Current(s)| > 0 ==>
      && t.phase.EnRoute?
      && t.phase.stop in Current(s)
      && (s.car.direction == Up ==> forall x :: x in Current(s) ==> t.phase.stop.destination <= x.destination)
      && (s.car.direction == Down ==> forall x :: x in Current(s) ==> x.destination <= t.phase.stop.destination)
      && Dests(Current(t)) == Dests(Current(s)) - {t.phase.stop.destination}
      && |Current(t)| == |Current(s)| - 1
      && (forall y :: y != s.role ==> Queue(t, y) == Queue(s, y))
      && Queued(s) == Queued(t) + {t.phase.stop.destination}
      && (t.phase.stop.destination in Queued(t) <==> t.phase.stop.destination in Others(t, t.role))
      && Size(t) == Size(s) - 1
  {
    if |Current(s)| == 0 then s
    else
      var taken := Take(Current(s), s.car.direction);
      TakeStop(s, taken);
      Put(s, s.role, taken.rest).(phase := EnRoute(taken.entry))
  }

  /** `shift` when heading up, `pop` when heading down: the smallest or the largest entry, wherever the car stands. */
  function Take(q: seq<Request>, d: Direction): (t: Taken)
    requires Ordered(q) && |q| > 0
    ensures t.entry in q
    ensures d == Up ==> forall x :: x in q ==> t.entry.destination <= x.destination
    ensures d == Down ==> forall x :: x in q ==> x.destination <= t.entry.destination
    ensures Ordered(t.rest) && |t.rest| == |q| - 1
    ensures Dests(t.rest) == Dests(q) - {t.entry.destination}
  {
    if d == Up then Shift(q) else Pop(q)
  }

  /** Replacing `current` by what is left after taking `taken.entry` off it keeps the sets sound. */
  lemma TakeStop(s: State, taken: Taken)
    requires QueuesOk(s) && taken.entry in Current(s)
    requires Ordered(taken.rest) && |taken.rest| == |Current(s)| - 1
    requires Dests(taken.rest) == Dests(Current(s)) - {taken.entry.destination}
    ensures
      var t := Put(s, s.role, taken.rest).(phase := EnRoute(taken.entry));
      && QueuesOk(t)
      && Queued(s) == Queued(t) + {taken.entry.destination}
      && (taken.entry.destination in Queued(t) <==> taken.entry.destination in Others(t, t.role))
      && Size(t) == Size(s) - 1
  {
    var t := Put(s, s.role, taken.rest).(phase := EnRoute(taken.entry));
    QueuedSplit(s, t, s.role);
    SizeSplit(s, t, s.role);
    assert taken.entry.destination in Dests(Current(s));
    assert Queued(t) <= Queued(s);
  }

  /** The announcement `handleRequest` makes on stopping: the car's floor and committed direction. */
  function Arrive(s: State): (r: Step)
    requires s.phase.EnRoute? && s.phase.stop.destination == s.car.location
    ensures r.state == s.(phase := Dwelling)
    ensures r.out == [Arrival(s.phase.stop.destination, s.car.direction)]
  {
    Step(s.(phase := Dwelling), [Arrival(s.car.location, s.car.direction)])
  }

  /**
   * `tick` from its entry up to its first wait: take the next stop, and when
   * the car already stands there, announce the arrival at once, since
   * `handleRequest` reaches its announcement without waiting.
   */
  function Launch(s: State): (r: Step)
    requires QueuesOk(s) && s.phase == Stopped && s.car.busy == (|Current(s)| > 0)
    requires !s.car.busy ==> s.own == [] && s.up == [] && s.down == []
    ensures Valid(r.state)
    ensures r.state.floors == s.floors && r.state.car == s.car && r.state.role == s.role
    ensures |Current(s)| == 0 ==> r == Step(s, [])
    ensures |Current(s)| > 0 ==>
      var stop := Begin(s).phase.stop;
      && (forall y :: y != s.role ==> Queue(r.state, y) == Queue(s, y))
      && Current(r.state) == Current(Begin(s))
      && (if stop.destination == s.car.location
          then r.state.phase == Dwelling && r.out == [Arrival(stop.destination, s.car.direction)]
          else r.state.phase == EnRoute(stop) && r.out == [])
      && Size(r.state) == Size(s) - 1
      && Queued(s) == Queued(r.state) + {stop.destination}
    ensures r.state.phase.EnRoute? ==> r == Step(Begin(s), [])
  {
    var t := Begin(s);
    if |Current(s)| == 0 then
      Step(t, [])
    else if t.phase.stop.destination == t.car.location then
      Arrive(t)
    else
      Step(t, [])
  }

  /**
   * The choice `tick` makes after a stop when `current` has run dry: turn
   * round onto the opposite pending set if it holds anything, else carry on
   * with the same-direction pending set, else go idle.
   */
  function Switch(s: State): (t: State)
    requires QueuesOk(s) && s.car.busy && |Current(s)| == 0
    ensures QueuesOk(t)
    ensures t.floors == s.floors && t.own == s.own && t.up == s.up && t.down == s.down
    ensures t.car.location == s.car.location && t.phase == s.phase
    ensures s.car.direction == Up ==>
      if |s.down| > 0 then t.role == PendingDown && t.car.direction == Down && t.car.busy == s.car.busy
      else if |s.up| > 0 then t.role == PendingUp && t.car.direction == Up && t.car.busy == s.car.busy
      else t.role == s.role && t.car.direction == Up && !t.car.busy
    ensures s.car.direction == Down ==>
      if |s.up| > 0 then t.role == PendingUp && t.car.direction == Up && t.car.busy == s.car.busy
      else if |s.down| > 0 then t.role == PendingDown && t.car.direction == Down && t.car.busy == s.car.busy
      else t.role == s.role && t.car.direction == Down && !t.car.busy
    ensures !t.car.busy ==> t.own == [] && t.up == [] && t.down == []
    ensures t.car.busy == s.car.busy || |Current(t)| == 0
    ensures t.car.busy ==> |Current(t)| > 0
  {
    match s.car.direction
    case Up =>
      if |s.down| > 0 then s.(role := PendingDown, car := s.car.(direction := Down))
      else if |s.up| > 0 then s.(role := PendingUp)
      else s.(car := s.car.(busy := false))
    case Down =>
      if |s.up| > 0 then s.(role := PendingUp, car := s.car.(direction := Up))
      else if |s.down| > 0 then s.(role := PendingDown)
      else s.(car := s.car.(busy := false))
  }

  /**
   * The tail of `tick`, after the dwell at a stop: if `current` is empty,
   * pick the next set (or go idle), then re-enter `tick`.
   */
  function Resume(s: State): (r: Step)
    requires Valid(s) && s.phase == Dwelling
    ensures Valid(r.state)
    ensures r.state.floors == s.floors && r.state.car.location == s.car.location
    ensures |Current(s)| > 0 ==> r.state.car == s.car && r.state.role == s.role
    ensures |Current(s)| > 0 ==> r.state.car.busy
    ensures Queued(r.state) <= Queued(s)
    ensures !r.state.car.busy ==> Queued(s) == {} && r.out == []
    ensures r.state.phase.EnRoute? ==>
      var stop := r.state.phase.stop.destination;
      && Queued(s) == Queued(r.state) + {stop} && r.out == []
      && (stop in Queued(r.state) <==> stop in Others(r.state, r.state.role))
      && stop != r.state.car.location
    ensures r.state.phase.Stopped? ==> Size(s) == 0 && Size(r.state) == 0
    ensures !r.state.phase.Stopped? ==> Size(r.state) < Size(s)
    ensures r.state.phase == Dwelling ==>
      exists f :: Queued(s) == Queued(r.state) + {f} && r.out == [Arrival(f, r.state.car.direction)]
  {
    var s1 := s.(phase := Stopped);
    var s2 := if |Current(s1)| > 0 then s1 else Switch(s1);
    var r := Launch(s2);
    if r.state.phase == Dwelling then
      var f := Begin(s2).phase.stop.destination;
      assert Queued(s) == Queued(r.state) + {f} && r.out == [Arrival(f, r.state.car.direction)];
      r
    else
      r
  }

  /** How far `f` lies from `g`. */
  function Distance(f: nat, g: nat): nat
  {
    if f <= g then g - f else f - g
  }

  /** The floor one step from the car towards `dest`: `location++` when heading up, `location--` otherwise. */
  function NextFloor(car: Car, dest: nat): (f: nat)
    requires dest != car.location
    ensures if dest > car.location then f == car.location + 1 else f == car.location - 1
    ensures if dest > car.location then car.location < f <= dest else dest <= f < car.location
  {
    if TravelDirection(car, dest) == Up then car.location + 1 else car.location - 1
  }

  /**
   * The check `moveCar` makes on reaching a floor: if an entry of `current`
   * targets it, announce the arrival there and remove the entry.
   */
  function Service(s: State): (r: Step)
    requires QueuesOk(s)
    ensures QueuesOk(r.state)
    ensures r.state.floors == s.floors && r.state.car == s.car
    ensures r.state.role == s.role && r.state.phase == s.phase
    ensures Dests(Current(r.state)) == Dests(Current(s)) - {s.car.location}
    ensures |Current(r.state)| <= |Current(s)|
    ensures forall y :: y != s.role ==> Queue(r.state, y) == Queue(s, y)
    ensures r.out == if s.car.location in Dests(Current(s))
                     then [Arrival(s.car.location, s.car.direction)] else []
    ensures Queued(r.state) <= Queued(s)
    ensures Queued(s) <= Queued(r.state) + {s.car.location}
    ensures Size(r.state) <= Size(s)
  {
    var loc := s.car.location;
    HasIsMembership(Current(s), loc);
    if Has(Current(s), loc) then
      var q := Delete(Current(s), loc);
      DeleteFrom(s, loc, q);
      Step(Put(s, s.role, q), [Arrival(loc, s.car.direction)])
    else
      Step(s, [])
  }

  /** Replacing `current` by `q`, that set without floor `d`, keeps the sets sound and loses only `d`. */
  lemma DeleteFrom(s: State, d: nat, q: seq<Request>)
    requires QueuesOk(s) && Ordered(q)
    requires Dests(q) == Dests(Current(s)) - {d} && |q| <= |Current(s)|
    ensures QueuesOk(Put(s, s.role, q))
    ensures Queued(Put(s, s.role, q)) <= Queued(s)
    ensures Queued(s) <= Queued(Put(s, s.role, q)) + {d}
    ensures Size(Put(s, s.role, q)) <= Size(s)
  {
    var t := Put(s, s.role, q);
    QueuedSplit(s, t, s.role);
    SizeSplit(s, t, s.role);
    assert Ordered(t.own) && Ordered(t.up) && Ordered(t.down) by {
      match s.role
      case Own =>
      case PendingUp =>
      case PendingDown =>
    }
    assert Queued(t) <= Queued(s);
  }

  /**
   * `moveCar`: advance one floor towards the stop in flight, then service any
   * entry of `current` at the floor reached. The controller removes that
   * entry only after the dwell that follows; here the two happen together.
   */
  function MoveStep(s: State): (r: Step)
    requires Valid(s) && s.phase.EnRoute? && s.phase.stop.destination != s.car.location
    ensures Valid(r.state)
    ensures r.state.floors == s.floors && r.state.role == s.role && r.state.phase == s.phase
    ensures
      var dest := s.phase.stop.destination;
      var loc := s.car.location;
      var loc' := r.state.car.location;
      && (if dest > loc then loc' == loc + 1 else loc' == loc - 1)
      && (if dest > loc then loc < loc' <= dest else dest <= loc' < loc)
    ensures r.state.car.direction == s.car.direction && r.state.car.busy == s.car.busy
    ensures Dests(Current(r.state)) == Dests(Current(s)) - {r.state.car.location}
    ensures |Current(r.state)| <= |Current(s)|
    ensures forall y :: y != s.role ==> Queue(r.state, y) == Queue(s, y)
    ensures r.out == if r.state.car.location in Dests(Current(s))
                     then [Arrival(r.state.car.location, s.car.direction)] else []
    ensures Queued(r.state) <= Queued(s)
    ensures Queued(s) <= Queued(r.state) + {r.state.car.location}
    ensures Size(r.state) <= Size(s)
  {
    var moved := s.(car := s.car.(location := NextFloor(s.car, s.phase.stop.destination)));
    Service(moved)
  }
}
