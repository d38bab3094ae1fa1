# Single-car elevator controller, modelled in Dafny

This project models `ElevatorControl`, the dispatch controller of a
single-car elevator application (`src/ElevatorControl.js`), and proves
properties of the model. The model is an untimed state machine. Its state
holds the following:

- the floor labels;
- the car record (`location`, `direction`, `busy`);
- the three sorted sets the controller creates: `current`, `pendingUp` and `pendingDown`;
- a role field that says which of the three physical sets the name
  `current` refers to. Once the loop has run out of work and re-pointed
  `current` at a pending set, the two names refer to the same set;
- a phase: the loop is not running, travelling towards a stop it took off
  `current`, or dwelling at a stop it has just announced.

Button presses and the announcements the controller hands to its callback
are data. The timers only separate the steps: each wait is a point where
another press may be registered.

Modules, one per part of the controller:

- `Wrappers`: `Option` and `Result`.
- `Requests`: directions, requests, announcements, and the two comparators `compareRequests` and `equalRequests`.
- `SortedSet`: the sorted array set with `add`, `has`, `delete`, `shift` and `pop`, as a strictly ascending sequence.
- `Controller`: the state, routing (`registerElevatorRequest`, `getTravelDirection`), the steps of `tick`, and `moveCar`.
- `Travel`: `handleRequest` as a loop, with its invariant and a reference definition of the announcements it makes.
- `Dispatch`: one step of the service loop; running the loop to idle, with termination and completeness.
- `Entry`: `requestElevator`, covering label lookup, the request shape, registration and the echo.
- `Scenarios`: concrete runs on six floors, including the aliasing behaviour after a reversal.

## Model

| member | source | states |
|---|---|---|
| `Requests.ComparatorConsistent` | src/ElevatorControl.js:281-293 | The comparator ties exactly when the equality test calls two requests the same entry, and swapping its arguments flips its sign. |
| `SortedSet.HasIsMembership` | src/ElevatorControl.js:267-268 | `has` with a probe carrying only a destination holds exactly when some entry has that destination. |
| `SortedSet.Add` | src/ElevatorControl.js:51-53 | Adding keeps the set ordered and unique, and its destinations gain exactly the new one. If the destination is already present, the set is returned unchanged and the old entry is kept. Otherwise the length grows by one and the entries are the old ones plus the new one. |
| `SortedSet.Delete` | src/ElevatorControl.js:270 | Deleting floor `d` keeps the order and removes exactly the entries for `d`. The length drops by one when `d` was present; otherwise the set is unchanged. |
| `SortedSet.Shift` | src/ElevatorControl.js:217 | `shift` takes an entry with the smallest destination. The rest stays ordered, is one shorter, and has lost exactly that entry. |
| `SortedSet.Pop` | src/ElevatorControl.js:234 | `pop` takes an entry with the largest destination. The rest stays ordered, is one shorter, and has lost exactly that entry. |
| `Controller.Init` | src/ElevatorControl.js:49-58 | A new controller satisfies the state invariant: at floor index 0, idle, with nothing queued. |
| `Controller.TravelDirection` | src/ElevatorControl.js:205-207 | The direction is UP exactly when the target lies above the car, so DOWN when the target is the car's own floor. |
| `Controller.FiledUnder` | src/ElevatorControl.js:133-177 | Where a busy car files a request. A floor call in the car's direction goes to `current` unless the car has passed it; then it goes to that direction's pending set. A floor call in the other direction goes to the pending set of its own direction. A car call goes to `current` unless it is behind the car; then it goes to the pending set of the opposite direction. |
| `Controller.Route` | src/ElevatorControl.js:125-179 | Registration with an idle car: it becomes busy, commits to UP exactly when the request lies above it, and the request joins `current` with no other set touched. A busy car keeps its record, and the request joins the set given by the routing table. Either way the queued floors gain exactly the request's, and the sets stay sorted and in range. |
| `Controller.PassedCallJoinsAliasedCurrent` | src/ElevatorControl.js:136-147 | Once `current` refers to the pending set of the car's direction, a same-direction floor call the car has passed lands in `current`. |
| `Controller.Take` | src/ElevatorControl.js:216-234 | Heading up, the next stop has the smallest destination in `current`. Heading down, it has the largest. It is removed, and the rest stays ordered. |
| `Controller.Begin` | src/ElevatorControl.js:213-234 | With `current` non-empty, the loop sets off for the entry with the smallest destination in `current` when heading up, and the largest when heading down, wherever the car stands. That entry leaves `current` and the other sets are untouched. No floor other than the stop's leaves the queued floors, and the stop's floor stays queued exactly when another set holds it. |
| `Controller.Launch` | src/ElevatorControl.js:186-234 | Entering `tick` takes the next stop. If the car already stands there, the arrival is announced at once, because `handleRequest` reaches its announcement before any wait. |
| `Controller.Switch` | src/ElevatorControl.js:219-249 | When `current` runs dry: heading up, it turns down onto `pendingDown` if that is non-empty, else continues with `pendingUp`, else goes idle. Heading down is the mirror image. The sets themselves are never copied or changed. |
| `Controller.Resume` | src/ElevatorControl.js:219-251 | After a dwell the loop keeps the invariant and never gains queued floors. It goes idle only when nothing was queued. If it sets off again, it is not already at the next stop, no floor other than that stop's leaves the queued floors, the stop's floor stays queued exactly when another set holds it, and the entry count falls. |
| `Controller.Arrive` | src/ElevatorControl.js:191-197 | The announcement on stopping names the stop and carries the car's committed direction, not the direction it moved in; the car then dwells with nothing else changed. The code's own documentation of the announcement (src/ElevatorControl.js:77-78) describes it as the direction the car was travelling before the arrival; the model follows the code at :195, which sends `car.direction`. |
| `Controller.NextFloor` | src/ElevatorControl.js:260-265 | A move changes the location by exactly one towards the stop, without overshooting it. |
| `Controller.Service` | src/ElevatorControl.js:266-271 | At the floor reached, an entry of `current` for that floor is announced and removed. Nothing else changes, and no announcement is made when there is no such entry. |
| `Controller.MoveStep` | src/ElevatorControl.js:260-272 | One `moveCar`: one floor towards the stop, direction unchanged, then any `current` entry for the new floor is served and removed. The invariant is kept. |
| `Travel.MoveStepOnTheWay` | src/ElevatorControl.js:187-190 | One iteration of the travel loop keeps the loop invariant and brings the car strictly nearer the stop. |
| `Travel.HandleRequest` | src/ElevatorControl.js:186-198 | The loop ends with the car at the stop, its direction unchanged. `current` has lost exactly the floors walked through. The other sets are untouched. The announcements are one arrival per walked floor that `current` targeted, in walking order, then the arrival at the stop. |
| `Dispatch.Advance` | src/ElevatorControl.js:186-272 | One step of the service loop keeps the invariant and moves strictly nearer the end of all work. It never leaves the car travelling to the floor it already stands at. It announces only floors that were owed, and every owed floor it drops is announced. |
| `Dispatch.TravelStep` | src/ElevatorControl.js:186-196 | One `moveCar` of the travel loop, running straight on into the arrival when it reaches the stop. It keeps the invariant, never leaves the car travelling to the floor it stands at, moves strictly nearer the end of all work, and announces only owed floors while every owed floor it drops is announced. |
| `Dispatch.ArrivalAtStop` | src/ElevatorControl.js:186-197 | A step of travel ends in the dwell exactly when the car has reached its stop, with no wait between the last move and the arrival. Its last announcement is then the arrival at the stop with the committed direction. Otherwise it keeps the stop and announces at most one floor passed. |
| `Dispatch.Drain` | src/ElevatorControl.js:213-253 | Without new presses, the loop always ends idle with all three sets empty. Over the run it has announced exactly the floors that were owed. |
| `Entry.IndexOf` | src/ElevatorControl.js:98 | The label lookup gives the first position of the label, and nothing exactly when the label is absent. |
| `Entry.Parse` | src/ElevatorControl.js:88-111 | A floor label with "up" or "down" makes a floor call at that label's index, heading up exactly for "up". Otherwise the first argument is looked up as a car call's label. An unknown label is an error. |
| `Entry.Start` | src/ElevatorControl.js:125-131 | A request reaching an idle car leaves it busy, committed to TravelDirection, with nothing queued. It either sets off for the request, or, already at that floor, dwells there having announced its arrival heading down. |
| `Entry.RequestElevator` | src/ElevatorControl.js:88-118 | An unknown label is reported. Otherwise a busy car registers the request and echoes it. An idle car starts at once, and at its own floor announces its arrival before the echo. |
| `Entry.PressKeepsSettled` | src/ElevatorControl.js:112-131 | A new controller, and any press, leaves no car travelling to the floor it already stands at; so no press is registered between reaching a stop and announcing it. |
| `Entry.PressIsEchoed` | src/ElevatorControl.js:113-117 | The last announcement of a press echoes it: FloorButton exactly for a floor call, direction UP exactly for "up", none for a car call, and the index of the label pressed. |
| `Scenarios.TwoStops` | src/ElevatorControl.js:125-253 | An up call at "2" and then a car call to "5", from idle at "1": both presses are echoed, the car stops at indices 1 and 4 heading up, and it goes idle at 4. |
| `Scenarios.OwnFloor` | src/ElevatorControl.js:127-131 | A car call to the floor where the car idles announces the arrival heading down before the echo, then goes idle without moving. |
| `Scenarios.TurnAfterDownCalls` | src/ElevatorControl.js:219-224 | Down calls registered on the way up wait in `pendingDown`. After the top stop the car turns down, and `current` refers to `pendingDown`. |
| `Scenarios.DownCallAboveJoinsSweep` | src/ElevatorControl.js:142-147 | After that turn, a down call above the car joins `current` through the alias. After its next stop the car, still heading down, sets off upwards for it, while an older call below waits. |
| `Scenarios.ClimbHeadingDown` | src/ElevatorControl.js:186-197 | Continuing, the car climbs two floors without announcing anything and then arrives at the call, announcing it heading down although it moved up. |

## Left out

- Timing: `sleep`, `travelInterval` and `floorInterval` only pace the steps. Each wait becomes a step boundary, where `Dispatch.Advance` lets presses interleave. Code that runs without a wait in between, such as the last move to a stop and the arrival announced there, stays within one step.
- `console.log` output and the React user interface.
- The test file's constructor and callback shape do not match the code. The model follows the code.
- Index -1 for an unknown label: `requestElevator` would register a request for index -1. The model reports `UnknownFloor` instead and registers nothing.
- `Controller.MoveStep`: service at every floor reached, including the stop, is atomic. In the code, `moveCar` is not awaited, and it deletes the entry only after the nested dwell. At an intermediate floor that window runs while the car travels on. At the stop, when the stop's floor was pressed again after `shift`/`pop` took it, the nested delete lands during the outer dwell. A press for that floor made inside either window is merged into the entry that is about to be deleted, and is lost. In the model the entry is already gone, so such a press is queued and served. The model does not capture this window.
- `Travel.HandleRequest`: it models one uninterrupted trip with no press arriving meanwhile. Interleaved presses are covered step by step by `Dispatch.Advance`.
- `Dispatch.Drain`: it proves that every owed floor is announced and that only owed floors are. It does not prove that each floor is announced exactly once. A floor pressed again after being taken as the next stop can be announced twice, as in the code.
- `get` on the sorted set: only the destination of the returned entry is used, so the model reads it from the car's floor.
- `Entry.IndexOf`: JavaScript string equality is modelled as equality of character sequences.
- Preemption, abort and several cars: the code has none of them, and the model has none either. At its own floor an idle car takes DOWN from `getTravelDirection` (src/ElevatorControl.js:129, :206) without reading the request's direction, and the model does the same.
- Registering with an idle car leaves the pending sets unchanged only while `current` still refers to its own set. After `current` has been re-pointed at a pending set, the request is added to that pending set, as in the code (`Controller.Route`, via `Joined` on the current role).
