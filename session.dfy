/**
 * The penalty session: the module-level state of main.js (state, cursorX,
 * cursor.visible, score, currentTeam, attempts, the ball's velocity) and
 * the handlers that change it.
 *
 * The browser drives the session through events: key presses, the two
 * setTimeout callbacks (700 ms launch, 1500 ms reset), the frames of the
 * render loop and the asset-loader callbacks. Each becomes a method; a
 * timer callback can only fire after it has been scheduled, so the
 * session counts the scheduled callbacks that have not fired yet.
 *
 * The render loop's frames appear as the three things a frame can do to
 * the session: nothing (the ball is still, or flies on without reaching
 * the goal line), `Settle` (the ball slows below the speed threshold and
 * stops being integrated) and `Resolve` (the ball is beyond the goal line).
 * Like the source, neither the launch callback nor the resolution looks
 * at `state`.
 */
module Session {
  import opened Ledger
  import opened Aiming
  import Flight

  /** The values of `state`: 'aim', 'shooting', 'reset'. */
  datatype Phase = Aim | Shooting | Reset

  /** The keeper's dive drawn at each kick (main.js:187). */
  datatype Dive = DiveLeft | DiveCenter | DiveRight

  /** Every field of the session, for stating what a handler leaves unchanged. */
  datatype View = View(
    state: Phase,
    cursorHalf: int,
    cursorVisible: bool,
    board: Tally,
    moving: bool,
    pendingLaunches: nat,
    pendingResets: nat,
    kickLoaded: bool,
    keeperLoaded: bool,
    dive: Dive)

  class GameSession {
    var state: Phase
    /** cursorX in half-units. */
    var cursorHalf: int
    var cursorVisible: bool
    var score1: nat
    var score2: nat
    var currentTeam: Team
    var attempts: nat
    /** The classes added to the scoreboard's dots. */
    var marks: set<DotMark>
    /** `ballVelocity.lengthSq() > 0.0001`: the frame loop integrates the ball. */
    var moving: bool
    /** Launch timers scheduled by playKick that have not fired. */
    var pendingLaunches: nat
    /** Reset timers scheduled by reset() that have not fired. */
    var pendingResets: nat
    /** The kick animation has loaded (playerKickAnim and playerMixer are set). */
    var kickLoaded: bool
    /** The goalkeeper model has loaded (goalieModel is set). */
    var keeperLoaded: bool
    /** The last dive drawn for the keeper. */
    var dive: Dive

    function Board(): Tally
      reads this
    {
      Tally(score1, score2, currentTeam, attempts, marks)
    }

    function Snapshot(): View
      reads this
    {
      View(state, cursorHalf, cursorVisible, Board(), moving, pendingLaunches, pendingResets,
           kickLoaded, keeperLoaded, dive)
    }

    ghost predicate Valid()
      reads this
    {
      -MaxHalf <= cursorHalf <= MaxHalf &&
      (state == Aim ==> cursorVisible) &&
      (state == Shooting ==> !cursorVisible) &&
      score1 + score2 <= attempts &&
      currentTeam == TeamOf(attempts) &&
      (!kickLoaded ==> pendingLaunches == 0 && !moving && pendingResets == 0)
    }

    /**
     * A kick whose launch was never scheduled: the session is shooting, the
     * ball is still and no timer is pending. No event leads out of it.
     */
    predicate Stuck()
      reads this
    {
      state == Shooting && !moving && pendingLaunches == 0 && pendingResets == 0
    }

    /** The page at load time (main.js:5-10); no asset has loaded yet. */
    constructor ()
      ensures Valid()
      ensures state == Aim && cursorHalf == 0 && cursorVisible
      ensures Board() == Initial
      ensures !moving && pendingLaunches == 0 && pendingResets == 0
      ensures !kickLoaded && !keeperLoaded
    {
      state := Aim;
      cursorHalf := 0;
      cursorVisible := true;
      score1, score2, currentTeam, attempts, marks := 0, 0, Team1, 0, {};
      moving := false;
      pendingLaunches, pendingResets := 0, 0;
      kickLoaded, keeperLoaded := false, false;
      dive := DiveCenter;
    }

    /** The kick animation's loader callback (main.js:129-138). */
    method KickLoaded()
      requires Valid()
      modifies this
      ensures Valid()
      ensures Snapshot() == old(Snapshot()).(kickLoaded := true)
    {
      kickLoaded := true;
    }

    /** The goalkeeper model's loader callback (main.js:140-147). */
    method KeeperLoaded()
      requires Valid()
      modifies this
      ensures Valid()
      ensures Snapshot() == old(Snapshot()).(keeperLoaded := true)
    {
      keeperLoaded := true;
    }

    /**
     * The keydown handler (main.js:157-163). `drawn` is the keeper's dive
     * that playKick draws if this key starts a kick.
     */
    method KeyDown(key: Key, drawn: Dive)
      requires Valid()
      modifies this
      ensures Valid()
      ensures old(state) != Aim ==> Snapshot() == old(Snapshot())
      ensures old(state) == Aim && key != Space ==>
                Snapshot() == old(Snapshot()).(cursorHalf := Steer(old(cursorHalf), key))
      ensures old(state) == Aim && key == Space ==>
                Snapshot() == old(Snapshot()).(state := Shooting, cursorVisible := false,
                                               pendingLaunches := old(pendingLaunches) + (if kickLoaded then 1 else 0),
                                               dive := drawn)
      ensures old(state) == Aim && key == Space && !kickLoaded ==> Stuck()
      ensures old(Stuck()) ==> Stuck()
    {
      if state == Aim {
        if key == ArrowLeft {
          cursorHalf := Max(-MaxHalf, cursorHalf - 1);
        }
        if key == ArrowRight {
          cursorHalf := Min(MaxHalf, cursorHalf + 1);
        }
        if key == Space {
          PlayKick(drawn);
        }
      }
    }

    /**
     * playKick (main.js:172-193): start the shot, hide the cursor, schedule
     * the launch if the kick animation has loaded, and take the keeper's dive.
     */
    method PlayKick(drawn: Dive)
      requires Valid()
      modifies this
      ensures Valid()
      ensures old(state) != Aim ==> Snapshot() == old(Snapshot())
      ensures old(state) == Aim ==>
                Snapshot() == old(Snapshot()).(state := Shooting, cursorVisible := false,
                                               pendingLaunches := old(pendingLaunches) + (if kickLoaded then 1 else 0),
                                               dive := drawn)
    {
      if state != Aim {
        return;
      }
      state := Shooting;
      cursorVisible := false;
      if kickLoaded {
        pendingLaunches := pendingLaunches + 1;
      }
      dive := drawn;
    }

    /** The 700 ms timer fires launchBall (main.js:182-184, main.js:195-197): the ball starts moving, in any state. */
    method FireLaunch()
      requires Valid() && pendingLaunches > 0
      modifies this
      ensures Valid()
      ensures Snapshot() == old(Snapshot()).(pendingLaunches := old(pendingLaunches) - 1, moving := true)
    {
      pendingLaunches := pendingLaunches - 1;
      moving := true;
    }

    /** A frame finds the ball's squared speed at or below 0.0001 and stops integrating it (main.js:232). */
    method Settle()
      requires Valid() && moving
      modifies this
      ensures Valid()
      ensures Snapshot() == old(Snapshot()).(moving := false)
    {
      moving := false;
    }

    /**
     * updateUI(success) (main.js:68-78): mark the current team's dot
     * `attempts % 5`, score a goal on success, pass the turn after every
     * fifth attempt and count the attempt.
     */
    method UpdateUI(success: bool)
      requires Valid()
      modifies this`score1, this`score2, this`currentTeam, this`attempts, this`marks
      ensures Valid()
      ensures Snapshot() == old(Snapshot()).(board := Record(old(Board()), success))
    {
      ghost var expected := Record(Board(), success);
      marks := marks + {DotMark(currentTeam, attempts % 5, success)};
      score1 := if success && currentTeam == Team1 then score1 + 1 else score1;
      score2 := if success && currentTeam == Team2 then score2 + 1 else score2;
      currentTeam := if (attempts + 1) % 5 == 0 then currentTeam.Other() else currentTeam;
      attempts := attempts + 1;
      assert Board() == expected;
      assert currentTeam == TeamOf(attempts) by {
        TeamStep(old(attempts));
      }
    }

    /** reset(success) up to the timer (main.js:211-213, main.js:223): record the shot and schedule the reset. */
    method ScheduleReset(success: bool)
      requires Valid() && moving
      modifies this
      ensures Valid()
      ensures Snapshot() == old(Snapshot()).(board := Record(old(Board()), success),
                                             pendingResets := old(pendingResets) + 1)
    {
      UpdateUI(success);
      pendingResets := pendingResets + 1;
    }

    /**
     * A frame that leaves the moving ball beyond the goal line at lateral
     * position hitX (main.js:235-240). The keeper stands where its model was
     * placed, or at 0 before it loads, so the shot scores exactly when it
     * passes at least 1 away from the centre; the dive plays no part. The
     * ball keeps moving, so the next frame can resolve the shot again.
     */
    method Resolve(hitX: real)
      requires Valid() && moving
      modifies this
      ensures Valid()
      ensures var success := hitX <= -1.0 || hitX >= 1.0;
              Snapshot() == old(Snapshot()).(board := Record(old(Board()), success),
                                             pendingResets := old(pendingResets) + 1,
                                             state := Reset)
    {
      var keeper := if keeperLoaded then Flight.Loaded(Flight.KeeperSpawnX) else Flight.NotLoaded;
      var blocked := Flight.Blocked(hitX, Flight.KeeperX(keeper));
      Flight.SaveDependsOnlyOnHit(hitX, keeperLoaded);
      ScheduleReset(!blocked);
      state := Reset;
    }

    /**
     * The 1500 ms timer body (main.js:213-223): the ball back at its spawn
     * point and still, the cursor centred and shown, and aiming again,
     * whatever the state was.
     */
    method FireReset()
      requires Valid() && pendingResets > 0
      modifies this
      ensures Valid()
      ensures Snapshot() == old(Snapshot()).(pendingResets := old(pendingResets) - 1, moving := false,
                                             cursorHalf := 0, cursorVisible := true, state := Aim)
    {
      pendingResets := pendingResets - 1;
      moving := false;
      cursorHalf := 0;
      cursorVisible := true;
      state := Aim;
    }
  }
}
