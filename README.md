# Penalty shoot-out: session state machine and score ledger

This project models the discrete core of a browser penalty shoot-out game
(`main.js`). The player aims a cursor along the goal with the arrow keys
and shoots with Space. A kick animation plays, and a 700 ms timer launches
the ball. The render loop integrates the ball and resolves the shot when
the ball passes the goal line: it is a goal unless it passes within 1 of
the goalkeeper. The scoreboard then marks the shot, and a 1500 ms timer
puts the ball back and returns to aiming. Two teams take turns in blocks
of five attempts.

The model has four modules:

- `Ledger` models `updateUI`, the scoreboard, as a pure function `Record`
  on a `Tally`. A `Tally` holds both scores, the team to shoot, the attempt
  count and the set of dot marks the page has accumulated. `Replay` runs
  `Record` over a history of outcomes. Replay is proved equal to
  independent reference definitions:
  - `TeamOf`: blocks of five, alternating;
  - `Goals`;
  - `MarksOf`: attempt k marks dot k % 5 of team `TeamOf(k)`.
- `Aiming` models the arrow-key step. `cursorX` is kept as an integer
  count of half-units in [-6, 6], so cursorX = half / 2. The step is
  proved equal to the source's real-valued step.
- `Flight` models the launch velocity, the per-frame integration, the
  goal-line test and the save test, over exact reals.
- `Session` models the module-level state (`state`, `cursorX`,
  `cursor.visible`, the score, `currentTeam`, `attempts`, whether the ball
  is moving) as the class `GameSession`. Each event the browser can
  deliver becomes a method:
  - a key press;
  - the launch timer;
  - a frame in which the ball stops;
  - a frame that finds the ball beyond the line;
  - the reset timer;
  - the two asset-loaded callbacks that matter.

  Timers appear as counts of scheduled callbacks that have not fired yet.
  As in the source, neither the launch callback nor the resolution looks
  at `state`. The resolution also leaves the ball moving, so it can run
  again on the next frame and record the same shot twice.

  A kick made before the kick animation has loaded schedules no launch.
  The session then stays in `'shooting'` with nothing pending, a state
  that no event leaves (`Stuck`).

## Model

| member | source | states |
|---|---|---|
| Ledger.Team.Other | main.js:75 | The other team is never the current one. |
| Ledger.Record | main.js:68-78 | One call counts exactly one more attempt. On success it adds exactly one goal to the team whose turn it was, and otherwise no goal. It never changes the other team's score. The turn passes iff (attempts+1) % 5 == 0. The dot marks grow by exactly the mark (team, attempts % 5, outcome), added to the ones already there. |
| Ledger.ReplaySnoc | main.js:68-78 | Replaying one more outcome is one more call of updateUI on the replayed board. |
| Ledger.RecordConsistent | main.js:73-77 | updateUI keeps the board equal to the replay of the history it extends, and keeps score1 + score2 <= attempts. |
| Ledger.TeamStep | main.js:74-76 | The alternating-blocks-of-five team assignment flips at k+1 exactly when (k+1) % 5 == 0, the rule updateUI applies. |
| Ledger.ReplayMatches | main.js:68-78 | From the initial board, after any history of outcomes: attempts is the history's length, the team to shoot is TeamOf(attempts), each score is that team's goals in the history, and the marks are exactly MarksOf(history). |
| Ledger.GoalsWithinTurns | main.js:73 | A team never has more goals than attempts it has taken. |
| Ledger.TurnsSplit | main.js:74-77 | Every attempt belongs to exactly one of the two teams. |
| Ledger.ScoresWithinAttempts | main.js:73-77 | After any history, each team's score is at most its number of turns, and score1 + score2 <= attempts. |
| Ledger.TeamInRound | main.js:74-76 | In every round of ten attempts, attempts 0-4 go to team1 and 5-9 to team2. |
| Ledger.TurnsInRound | main.js:74-77 | Within a round of ten, the turns taken so far by each team follow the five-and-five pattern. |
| Ledger.TurnsBalanced | main.js:74-77 | After 10*m attempts each team has taken exactly 5*m. |
| Ledger.FirstRoundCovered | main.js:68-78 | Every mark made by the first ten attempts lies in team1's row (attempts 1-5) or team2's row (attempts 6-10). |
| Ledger.FirstRoundMarked | main.js:68-78 | Every one of the ten outcomes of the first round is marked on its team's dot. |
| Ledger.FirstRound | main.js:68-78 | After the first ten attempts, the turn is back with team1. The marks are exactly team1's five outcomes on dots 0-4 of its row and team2's five on dots 0-4 of its row. |
| Aiming.Steer | main.js:159-160 | The half-unit step equals the source's step on cursorX: -0.5 clamped at -3 for ArrowLeft, +0.5 clamped at 3 for ArrowRight, unchanged for any other key. It never leaves [-3, 3]. |
| Aiming.SteerAllInRange | main.js:157-163 | The cursor stays within [-3, 3] after any sequence of keys. |
| Aiming.StepOrSaturate | main.js:159-160 | An arrow press moves the cursor by exactly half a unit unless the cursor is at that bound, where it stays. Other keys leave it alone. |
| Aiming.PressRightSaturates | main.js:160 | n presses of ArrowRight move the cursor to min(3, cursorX + n/2). |
| Aiming.PressLeftSaturates | main.js:159 | n presses of ArrowLeft move the cursor to max(-3, cursorX - n/2). |
| Flight.LaunchVelocity | main.js:195-197 | Whatever the aim, the launch is fast enough for the frame loop to integrate it (lengthSq > 0.0001), heads toward the goal (vz < 0) and rises (vy > 0). |
| Flight.Blocked | main.js:238 | The shot is saved iff it passes strictly within 1 of the keeper's x. |
| Flight.SaveDependsOnlyOnHit | main.js:237-238 | With the keeper loaded at x = 0 or not loaded (x defaults to 0), the shot is saved iff -1 < hitX < 1. The dive plays no part. |
| Flight.ShortOfLineStays | main.js:232-234 | With damping 0.98, a ball that is not moving backwards and has z + 50*vz >= -15 keeps both properties on every later frame. |
| Flight.NeverReachesGoalLine | main.js:232-235 | With the source's damping 0.98, a ball launched from the spawn point with any aim stays at z >= -15 on every frame. No frame ever takes the goal-line branch. |
| Flight.ClosedForm | main.js:233-234 | While every frame so far was integrated, after n frames the ball is at pos0 + (1 + d + ... + d^(n-1))*v0 with velocity d^n*v0. |
| Flight.TravelSum | main.js:234 | (1 - d)(1 + d + ... + d^(n-1)) = 1 - d^n. |
| Flight.CorrectedPowBounds | main.js:234 | 0.99^k >= 0.3 for k <= 100, and 0.99^100 < 0.3875. |
| Flight.DampedLaunchMoving | main.js:232 | A launch velocity damped to at least 0.3 of itself is still above the speed threshold. |
| Flight.CorrectedFlightMoving | main.js:232-234 | With damping 0.99, a launch is still integrated on each of its first hundred frames. |
| Flight.CorrectedDepth | main.js:233-234 | With damping 0.99, the forward travel after n frames is 100*(1 - 0.99^n) launch velocities. |
| Flight.CorrectedShotReachesLine | main.js:232-235 | With damping 0.99, every launch, whatever the aim, is still moving on frame 99 and takes the goal-line branch in that frame. |
| Session.GameSession.constructor | main.js:5-10 | The page starts aiming, with the cursor at 0 and shown, scores 0-0, team1 to shoot, no attempts and no marks. The ball is still, no timer is pending and no asset has loaded. |
| Session.GameSession.KickLoaded | main.js:129-138 | The kick animation's loader only makes the kick available; nothing else changes. |
| Session.GameSession.KeeperLoaded | main.js:140-147 | The keeper's loader only places the keeper; nothing else changes. |
| Session.GameSession.KeyDown | main.js:157-163 | Outside 'aim' a key changes nothing. In 'aim', an arrow key steers the cursor as Steer says and nothing else changes. Space starts the shot (see PlayKick) and leaves cursor, scores, attempts and team unchanged. Space before the kick animation has loaded leaves the session Stuck, and a Stuck session stays Stuck on any key. |
| Session.GameSession.PlayKick | main.js:172-193 | Outside 'aim' it returns with no effect. Otherwise the state becomes 'shooting' and the cursor is hidden. One launch timer is scheduled iff the kick animation has loaded, and the drawn dive is taken. Nothing else changes. |
| Session.GameSession.FireLaunch | main.js:182-184 | The launch timer sets the ball moving, in whatever state the session is; only that timer and the ball change. |
| Session.GameSession.Settle | main.js:232 | A frame that finds the ball at or below the speed threshold stops integrating it; nothing else changes. |
| Session.GameSession.UpdateUI | main.js:68-78 | The session's scoreboard becomes Record of the old one; nothing else changes. The invariant holds: cursor in range, visibility agreeing with the state, score1 + score2 <= attempts, and the team to shoot equal to TeamOf(attempts). |
| Session.GameSession.ScheduleReset | main.js:211-224 | reset(success) records the shot at once and schedules exactly one reset timer; nothing else changes. |
| Session.GameSession.Resolve | main.js:235-241 | A frame that finds the moving ball beyond the line records a goal iff hitX <= -1 or hitX >= 1, schedules one reset and sets the state to 'reset' (not 'aim'). The ball keeps moving, so the next frame may resolve the shot again. |
| Session.GameSession.FireReset | main.js:213-223 | Whatever the state, the reset timer stops the ball (put back at rest at the spawn point, which the session does not track), centres and shows the cursor and returns to 'aim'. It leaves the scoreboard alone. |

## Left out

- Rendering: the Three.js scene, camera, lights, meshes, renderer, the resize handler and the cursor mesh's position (main.js:80-125, main.js:165-169, main.js:244-245). They draw the state and do not change it.
- Animation clips and mixers (main.js:149-155, main.js:199-209, main.js:219-222, main.js:229-230). The asset loaders are kept only as the two flags that change behaviour: the kick animation gates the launch, and the keeper model's position feeds the save test.
- The DOM scoreboard (main.js:25-66, main.js:69-71). It is modelled as the set of (team, dot, scored/missed) marks that `classList.add` accumulates. Each row has 5 dots, and `attempts % 5` is always one of them, so the guard at main.js:70 always holds.
- Math.random (main.js:187). The dive is an argument of KeyDown and PlayKick; it does not affect any outcome.
- The TypeError that main.js:190 throws when the keeper's model has not loaded and the dive is 'center'. It happens after every state change playKick makes, so the session's state is the same as modelled.
- setTimeout wall-clock timing. The two timers are events the environment may fire once scheduled, in any order relative to other events.
- Session.GameSession.Resolve: the session does not carry the ball's position or velocity, only whether the frame loop is integrating it. Resolve takes the crossing point hitX as an argument, and Settle stands for the frame that finds the ball too slow. The flight itself is modelled in the Flight module over exact reals, not IEEE doubles.
- Flight: floating-point rounding of the integration (main.js:233-234) is not modelled; positions and velocities are exact reals.

## Findings

| source | as written | input that shows it | evidently intended | confidence | as-written member | corrected member |
|---|---|---|---|---|---|---|
| main.js:234 | The velocity is damped by 0.98 per frame. A launch moves forward 0.4 per frame (main.js:196), so its total forward travel is below 0.4 / 0.02 = 20. From z = 5 (main.js:214) the ball therefore never gets below z = -15, and the goal-line branch at main.js:235 (z < -19.5) never runs. No shot is ever scored or saved, and the session stays in 'shooting' after the first kick. | Any aim, then Space once the kick animation has loaded. | The ball reaches the goal line, e.g. with a damping of 0.99, where every launch crosses z = -19.5 on frame 100. | high for exact arithmetic; float rounding is far too small to close a gap of 4.5 units; not executed | Flight.NeverReachesGoalLine | Flight.CorrectedShotReachesLine |

The session model keeps the resolution as its own event (`Resolve`), which
the corrected flight produces. The ledger and the reset behaviour are
therefore modelled as the code intends them.
