/**
 * Aiming the shot: the arrow keys move the aim cursor along the goal
 * (keydown handler, main.js:157-163). The source keeps cursorX as a float
 * that moves in steps of 0.5 inside [-3, 3]; here it is an integer count
 * of half-units inside [-6, 6], so cursorX == half / 2.
 */
module Aiming {

  /** The `e.code` values the handler distinguishes; every other code is OtherKey. */
  datatype Key = ArrowLeft | ArrowRight | Space | OtherKey

  /** The aim bound, 3 units, in half-units. */
  const MaxHalf: int := 6

  function Max(a: int, b: int): int { if a < b then b else a }
  function Min(a: int, b: int): int { if a < b then a else b }
  function RealMax(a: real, b: real): real { if a < b then b else a }
  function RealMin(a: real, b: real): real { if a < b then a else b }

  /** The value of cursorX that `half` half-units stand for. */
  function CursorX(half: int): real {
    half as real / 2.0
  }

  /** One key's effect on cursorX in the source's own units (main.js:159-160). */
  function SourceStep(x: real, key: Key): real {
    match key
    case ArrowLeft => RealMax(-3.0, x - 0.5)
    case ArrowRight => RealMin(3.0, x + 0.5)
    case _ => x
  }

  /**
   * One key's effect on the cursor, in half-units. It agrees exactly with
   * the source's step on cursorX, and it never leaves the aim range.
   */
  function Steer(half: int, key: Key): (r: int)
    ensures CursorX(r) == SourceStep(CursorX(half), key)
    ensures -MaxHalf <= half <= MaxHalf ==> -MaxHalf <= r <= MaxHalf
  {
    match key
    case ArrowLeft => Max(-MaxHalf, half - 1)
    case ArrowRight => Min(MaxHalf, half + 1)
    case _ => half
  }

  /** The cursor after the handler has seen `keys` in order, all while aiming. */
  function SteerAll(half: int, keys: seq<Key>): int
    decreases |keys|
  {
    if keys == [] then half else SteerAll(Steer(half, keys[0]), keys[1..])
  }

  /** The cursor stays within [-3, 3] after any sequence of keys. */
  lemma {:induction false} SteerAllInRange(half: int, keys: seq<Key>)
    requires -MaxHalf <= half <= MaxHalf
    ensures -MaxHalf <= SteerAll(half, keys) <= MaxHalf
    decreases |keys|
  {
    if keys != [] {
      SteerAllInRange(Steer(half, keys[0]), keys[1..]);
    }
  }

  /** Each arrow press moves the cursor by exactly half a unit unless it is already at the bound, where it stays. */
  lemma StepOrSaturate(half: int, key: Key)
    requires -MaxHalf <= half <= MaxHalf
    ensures key == ArrowLeft ==> (if half > -MaxHalf then Steer(half, key) == half - 1 else Steer(half, key) == half)
    ensures key == ArrowRight ==> (if half < MaxHalf then Steer(half, key) == half + 1 else Steer(half, key) == half)
    ensures key != ArrowLeft && key != ArrowRight ==> Steer(half, key) == half
  {
  }

  /** `n` presses of the same arrow key. */
  function Presses(key: Key, n: nat): (keys: seq<Key>)
    ensures |keys| == n
  {
    if n == 0 then [] else [key] + Presses(key, n - 1)
  }

  /** Holding ArrowRight n times moves the cursor n half-units right, saturating at +3. */
  lemma {:induction false} PressRightSaturates(half: int, n: nat)
    requires -MaxHalf <= half <= MaxHalf
    ensures SteerAll(half, Presses(ArrowRight, n)) == Min(MaxHalf, half + n)
    decreases n
  {
    if n > 0 {
      assert Presses(ArrowRight, n)[1..] == Presses(ArrowRight, n - 1);
      PressRightSaturates(Steer(half, ArrowRight), n - 1);
    }
  }

  /** Holding ArrowLeft n times moves the cursor n half-units left, saturating at -3. */
  lemma {:induction false} PressLeftSaturates(half: int, n: nat)
    requires -MaxHalf <= half <= MaxHalf
    ensures SteerAll(half, Presses(ArrowLeft, n)) == Max(-MaxHalf, half - n)
    decreases n
  {
    if n > 0 {
      assert Presses(ArrowLeft, n)[1..] == Presses(ArrowLeft, n - 1);
      PressLeftSaturates(Steer(half, ArrowLeft), n - 1);
    }
  }
}
