/**
 * The ball's flight and the goal-line outcome (launchBall, main.js:195-197;
 * the integration and crossing check in animate, main.js:232-241), in exact
 * real arithmetic.
 *
 * Each frame in which the squared speed exceeds 0.0001 adds the velocity to
 * the position and multiplies the velocity by the damping factor; the shot
 * is resolved in a frame that leaves the ball beyond z = -19.5.
 *
 * With the source's damping of 0.98 the ball can never get there: the
 * forward travel of a launch at 0.4 per frame is bounded by 0.4 / 0.02 = 20,
 * so from z = 5 the ball never passes z = -15 (NeverReachesGoalLine). With a
 * damping of 0.99 it crosses the line on frame 100 (CorrectedShotReachesLine).
 */
module Flight {

  datatype Vec3 = Vec3(x: real, y: real, z: real) {
    function Plus(v: Vec3): Vec3 { Vec3(x + v.x, y + v.y, z + v.z) }
    function Times(k: real): Vec3 { Vec3(k * x, k * y, k * z) }
    function LengthSq(): real { x * x + y * y + z * z }
  }

  datatype Ball = Ball(pos: Vec3, vel: Vec3)

  /** Where the ball is placed at start-up and by every reset (main.js:115, main.js:214). */
  const Spawn: Vec3 := Vec3(0.0, 0.2, 5.0)
  /** Zero velocity (main.js:6, main.js:215). */
  const Still: Vec3 := Vec3(0.0, 0.0, 0.0)
  /** The ball is integrated only while its squared speed exceeds this (main.js:232). */
  const MinSpeedSq: real := 0.0001
  /** A frame that leaves the ball beyond this plane resolves the shot (main.js:235). */
  const GoalLineZ: real := -19.5
  /** Per-frame velocity damping as written (main.js:234). */
  const Damping: real := 0.98
  /** A damping with which a launched ball does reach the goal line. */
  const CorrectedDamping: real := 0.99
  /** Half the width of the keeper's reach (main.js:238). */
  const KeeperReach: real := 1.0
  /** The keeper's lateral position once its model has loaded (main.js:142). */
  const KeeperSpawnX: real := 0.0

  /**
   * The velocity launchBall gives the ball (main.js:196): toward the aim,
   * slightly up and forward. Whatever the aim, it is fast enough for the
   * frame loop to integrate it and it heads toward the goal.
   */
  function LaunchVelocity(cursorX: real, ballX: real): (v: Vec3)
    ensures v.LengthSq() > MinSpeedSq
    ensures v.z < 0.0 && v.y > 0.0
  {
    var dx := (cursorX - ballX) * 0.1;
    assert dx * dx >= 0.0;
    Vec3(dx, 0.1, -0.4)
  }

  /** The ball resting at the spawn point, as the reset timer leaves it. */
  const AtRest: Ball := Ball(Spawn, Still)

  /** The ball just after launchBall, fired while it rests at the spawn point. */
  function Kicked(cursorX: real): Ball {
    Ball(Spawn, LaunchVelocity(cursorX, Spawn.x))
  }

  predicate Moving(b: Ball) {
    b.vel.LengthSq() > MinSpeedSq
  }

  /** One frame of animate's integration (main.js:232-234). */
  function Frame(b: Ball, damping: real): Ball {
    if Moving(b) then Ball(b.pos.Plus(b.vel), b.vel.Times(damping)) else b
  }

  /** The frame starting from `b` runs the resolution branch (main.js:232, main.js:235). */
  predicate CrossesLine(b: Ball, damping: real) {
    Moving(b) && Frame(b, damping).pos.z < GoalLineZ
  }

  /** The ball after n frames. */
  function After(b: Ball, damping: real, n: nat): Ball {
    if n == 0 then b else Frame(After(b, damping, n - 1), damping)
  }

  /** `goalieModel?.position?.x || 0` (main.js:237): the keeper's x, or 0 before its model loads. */
  function KeeperX(keeper: KeeperModel): real {
    match keeper
    case Loaded(x) => if x != 0.0 then x else 0.0
    case NotLoaded => 0.0
  }

  /** Whether the goalkeeper model has loaded, and where it was placed. */
  datatype KeeperModel = NotLoaded | Loaded(x: real)

  /** The save test (main.js:238): the ball is blocked when it passes within 1 of the keeper. */
  function Blocked(hitX: real, keeperX: real): (b: bool)
    ensures b <==> keeperX - KeeperReach < hitX < keeperX + KeeperReach
  {
    (if hitX - keeperX < 0.0 then keeperX - hitX else hitX - keeperX) < KeeperReach
  }

  /**
   * Nothing moves the keeper after its model is placed, so whether or not it
   * has loaded (and whichever way it dives) a shot is saved exactly when it
   * crosses within 1 of the centre.
   */
  lemma SaveDependsOnlyOnHit(hitX: real, loaded: bool)
    ensures var keeper := if loaded then Loaded(KeeperSpawnX) else NotLoaded;
            Blocked(hitX, KeeperX(keeper)) <==> -1.0 < hitX < 1.0
  {
  }

  // ---------------------------------------------------------------------
  // As written: the ball stops short of the goal line
  // ---------------------------------------------------------------------

  /** With damping 0.98, z + 50 * vz never decreases, and the ball never moves backwards. */
  ghost predicate ShortOfLine(b: Ball) {
    b.vel.z <= 0.0 && b.pos.z + 50.0 * b.vel.z >= -15.0
  }

  lemma {:induction false} ShortOfLineStays(b: Ball, n: nat)
    requires ShortOfLine(b)
    ensures ShortOfLine(After(b, Damping, n))
  {
    if n > 0 {
      ShortOfLineStays(b, n - 1);
    }
  }

  /**
   * Whatever the aim, a ball launched from the spawn point with the
   * source's damping stays at z >= -15 on every frame, so the resolution
   * branch of animate never runs.
   */
  lemma NeverReachesGoalLine(cursorX: real, n: nat)
    ensures After(Kicked(cursorX), Damping, n).pos.z >= -15.0
    ensures !CrossesLine(After(Kicked(cursorX), Damping, n), Damping)
  {
    ShortOfLineStays(Kicked(cursorX), n);
    ShortOfLineStays(Kicked(cursorX), n + 1);
  }

  // ---------------------------------------------------------------------
  // Corrected: with damping 0.99 the ball reaches the goal line
  // ---------------------------------------------------------------------

  function Pow(d: real, n: nat): real {
    if n == 0 then 1.0 else d * Pow(d, n - 1)
  }

  /** 1 + d + ... + d^(n-1): how many launch velocities the ball has travelled after n frames. */
  function Travel(d: real, n: nat): real {
    if n == 0 then 0.0 else Travel(d, n - 1) + Pow(d, n - 1)
  }

  /** Travelling t and then p times a velocity is travelling t + p times it. */
  lemma MoveAlong(pos: Vec3, v: Vec3, t: real, p: real)
    ensures pos.Plus(v.Times(t)).Plus(v.Times(p)) == pos.Plus(v.Times(t + p))
  {
    assert (t + p) * v.x == t * v.x + p * v.x;
    assert (t + p) * v.y == t * v.y + p * v.y;
    assert (t + p) * v.z == t * v.z + p * v.z;
  }

  /** Damping a scaled velocity scales it by the product. */
  lemma DampScaled(v: Vec3, p: real, d: real)
    ensures v.Times(p).Times(d) == v.Times(d * p)
  {
    assert d * (p * v.x) == (d * p) * v.x;
    assert d * (p * v.y) == (d * p) * v.y;
    assert d * (p * v.z) == (d * p) * v.z;
  }

  /** While every frame so far was integrated, the flight has the closed form pos0 + T*v0, d^n * v0. */
  lemma {:induction false} ClosedForm(b: Ball, d: real, n: nat)
    requires forall k :: 0 <= k < n ==> b.vel.Times(Pow(d, k)).LengthSq() > MinSpeedSq
    ensures After(b, d, n) == Ball(b.pos.Plus(b.vel.Times(Travel(d, n))), b.vel.Times(Pow(d, n)))
  {
    if n > 0 {
      ClosedForm(b, d, n - 1);
      var t, p := Travel(d, n - 1), Pow(d, n - 1);
      assert b.vel.Times(p).LengthSq() > MinSpeedSq;
      MoveAlong(b.pos, b.vel, t, p);
      DampScaled(b.vel, p, d);
      var prev := After(b, d, n - 1);
      assert Moving(prev);
      assert After(b, d, n) == Ball(prev.pos.Plus(prev.vel), prev.vel.Times(d));
      assert Travel(d, n) == t + p && Pow(d, n) == d * p;
    }
  }

  lemma {:induction false} TravelSum(d: real, n: nat)
    ensures (1.0 - d) * Travel(d, n) == 1.0 - Pow(d, n)
  {
    if n > 0 {
      TravelSum(d, n - 1);
    }
  }

  lemma {:induction false} PowAdd(d: real, a: nat, b: nat)
    ensures Pow(d, a + b) == Pow(d, a) * Pow(d, b)
    decreases b
  {
    if b > 0 {
      PowAdd(d, a, b - 1);
      assert Pow(d, a + b) == d * Pow(d, a + b - 1);
    }
  }

  lemma {:induction false} PowTens(d: real, j: nat)
    ensures Pow(d, 10 * j) == Pow(Pow(d, 10), j)
  {
    if j > 0 {
      PowTens(d, j - 1);
      PowAdd(d, 10 * (j - 1), 10);
      assert 10 * (j - 1) + 10 == 10 * j;
    }
  }

  /** Multiplying by a non-negative factor keeps an order. */
  lemma ScaleOrder(a: real, b: real, c: real)
    requires a <= b && 0.0 <= c
    ensures a * c <= b * c
  {
    assert b * c - a * c == (b - a) * c;
  }

  lemma {:induction false} PowNonneg(d: real, n: nat)
    requires 0.0 <= d
    ensures 0.0 <= Pow(d, n)
  {
    if n > 0 {
      PowNonneg(d, n - 1);
      ScaleOrder(0.0, d, Pow(d, n - 1));
    }
  }

  lemma {:induction false} PowMono(x: real, y: real, n: nat)
    requires 0.0 <= x <= y
    ensures Pow(x, n) <= Pow(y, n)
  {
    if n > 0 {
      PowMono(x, y, n - 1);
      PowNonneg(x, n - 1);
      PowNonneg(y, n - 1);
      var a, b := Pow(x, n - 1), Pow(y, n - 1);
      ScaleOrder(x, y, a);
      ScaleOrder(a, b, y);
    }
  }

  lemma {:induction false} PowShrinks(d: real, j: nat, k: nat)
    requires 0.0 <= d <= 1.0 && j <= k
    ensures Pow(d, k) <= Pow(d, j)
    decreases k
  {
    if j < k {
      PowShrinks(d, j, k - 1);
      PowNonneg(d, k - 1);
      ScaleOrder(d, 1.0, Pow(d, k - 1));
    }
  }

  /** 0.3 <= 0.99^k <= 0.3875 from frame 100 on, and 0.99^k >= 0.3 up to it. */
  lemma CorrectedPowBounds(k: nat)
    requires k <= 100
    ensures 0.3 <= Pow(CorrectedDamping, k)
    ensures k == 100 ==> Pow(CorrectedDamping, k) < 0.3875
  {
    var d := CorrectedDamping;
    var ten := Pow(d, 10);
    assert 0.9 <= ten <= 0.905;
    PowTens(d, 10);
    PowMono(0.9, ten, 10);
    PowMono(ten, 0.905, 10);
    assert Pow(0.9, 10) >= 0.3;
    assert Pow(0.905, 10) < 0.3875;
    PowShrinks(d, k, 100);
  }

  /** A launch velocity scaled by a factor of at least 0.3 is still above the speed threshold. */
  lemma DampedLaunchMoving(cursorX: real, p: real)
    requires p >= 0.3
    ensures LaunchVelocity(cursorX, Spawn.x).Times(p).LengthSq() > MinSpeedSq
  {
    var v := LaunchVelocity(cursorX, Spawn.x);
    var w := v.Times(p);
    assert w.x * w.x >= 0.0;
    assert w.y * w.y == 0.01 * (p * p);
    assert w.z * w.z == 0.16 * (p * p);
    assert p * p >= 0.09;
  }

  /** With damping 0.99 a launch is still integrated on each of its first hundred frames. */
  lemma CorrectedFlightMoving(cursorX: real, k: nat)
    requires k < 100
    ensures Kicked(cursorX).vel.Times(Pow(CorrectedDamping, k)).LengthSq() > MinSpeedSq
  {
    CorrectedPowBounds(k);
    DampedLaunchMoving(cursorX, Pow(CorrectedDamping, k));
  }

  /** Where the closed form puts the ball, forward, after n integrated frames with damping 0.99. */
  lemma CorrectedDepth(b: Ball, n: nat)
    ensures b.pos.z + Travel(CorrectedDamping, n) * b.vel.z
            == b.pos.z + 100.0 * (1.0 - Pow(CorrectedDamping, n)) * b.vel.z
  {
    TravelSum(CorrectedDamping, n);
  }

  /**
   * With damping 0.99 every launch, whatever the aim, is still moving on
   * frame 99 and crosses the goal line in that frame.
   */
  lemma CorrectedShotReachesLine(cursorX: real)
    ensures CrossesLine(After(Kicked(cursorX), CorrectedDamping, 99), CorrectedDamping)
  {
    var b, d := Kicked(cursorX), CorrectedDamping;
    forall k | 0 <= k < 100
      ensures b.vel.Times(Pow(d, k)).LengthSq() > MinSpeedSq
    {
      CorrectedFlightMoving(cursorX, k);
    }
    ClosedForm(b, d, 99);
    ClosedForm(b, d, 100);
    CorrectedPowBounds(100);
    CorrectedDepth(b, 100);
    var last := After(b, d, 99);
    assert Moving(last);
    assert Frame(last, d) == After(b, d, 100);
    assert After(b, d, 100).pos.z == 5.0 + 100.0 * (1.0 - Pow(d, 100)) * -0.4;
  }
}
