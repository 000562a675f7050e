/**
 * The cursor motion pipeline of the controller: two One Euro filters, a baseline, a deadzone gate, gain,
 * exponential velocity smoothing, a speed limit, integration and clamping to the screen margins.
 */
module Control {
  import opened Common
  import opened OneEuro

  /** Movement settings and the screen size in pixels. */
  datatype MotionConfig = MotionConfig(
    gain: real,
    deadzone: real,
    maxSpeed: real,
    velocitySmoothing: real,
    margin: int,
    screenWidth: int,
    screenHeight: int)

  /** The speed limit is a length, so it is not negative (the scale it divides by is then positive). */
  predicate ConfigOk(c: MotionConfig) {
    c.maxSpeed >= 0.0
  }

  /** The controller's motion fields as a value. */
  datatype Motion = Motion(
    cursorX: real,
    cursorY: real,
    prevFx: Option<real>,
    prevFy: Option<real>,
    smoothVx: real,
    smoothVy: real)

  /** A function that returns square roots of the non-negative reals. */
  ghost predicate IsSqrt(sqrt: real -> real) {
    forall x :: 0.0 <= x ==> 0.0 <= sqrt(x) && sqrt(x) * sqrt(x) == x
  }

  /** The cursor at the screen centre (integer halves), no velocity and no baseline yet. */
  function Initial(c: MotionConfig): (m: Motion)
    ensures m.prevFx.None? && m.prevFy.None?
    ensures m.smoothVx == 0.0 && m.smoothVy == 0.0
    ensures 2 * m.cursorX.Floor <= c.screenWidth < 2 * m.cursorX.Floor + 2 && m.cursorX == m.cursorX.Floor as real
    ensures 2 * m.cursorY.Floor <= c.screenHeight < 2 * m.cursorY.Floor + 2 && m.cursorY == m.cursorY.Floor as real
  {
    Motion((c.screenWidth / 2) as real, (c.screenHeight / 2) as real, None, None, 0.0, 0.0)
  }

  /** A normalized displacement converted to pixels on an axis of `dim` pixels. */
  function Gained(d: real, gain: real, dim: int): real {
    d * gain * dim as real
  }

  /**
   * Exponential smoothing with weight `s` on the prior velocity and `1 - s` on the input, written as a
   * step of fraction `s` from the input back toward the prior velocity: the filter's own `Smooth` step.
   */
  function Blend(s: real, prior: real, input: real): real {
    Smooth(s, prior, input)
  }

  /** The step form is the weighted sum `s * prior + (1 - s) * input`. */
  lemma BlendIsWeightedSum(s: real, prior: real, input: real)
    ensures Blend(s, prior, input) == s * prior + (1.0 - s) * input
  {
  }

  /** With a weight in [0, 1] the blend lies between the prior and the input velocity. */
  lemma BlendBetween(s: real, prior: real, input: real)
    requires 0.0 <= s <= 1.0
    ensures Between(Blend(s, prior, input), input, prior)
    ensures s == 0.0 ==> Blend(s, prior, input) == input
    ensures s == 1.0 ==> Blend(s, prior, input) == prior
  {
    SmoothBounds(s, prior, input);
    if s == 0.0 {
      assert s * (prior - input) == 0.0;
    } else if s == 1.0 {
      assert s * (prior - input) == prior - input;
    }
  }

  function Scale(v: real, k: real): real {
    v * k
  }

  /** The velocity after the speed limit, given the speed, its length. */
  function LimitSpeed(vx: real, vy: real, maxSpeed: real, speed: real): (real, real)
    requires maxSpeed >= 0.0 && speed >= 0.0
  {
    if speed > maxSpeed then
      var scale := maxSpeed / speed;
      (Scale(vx, scale), Scale(vy, scale))
    else
      (vx, vy)
  }

  /**
   * The limited velocity is within the maximum speed, is the velocity itself when that is already slow
   * enough and has exactly the maximum speed otherwise, and keeps the direction (collinear, not reversed).
   */
  lemma LimitSpeedBounds(vx: real, vy: real, maxSpeed: real, speed: real)
    requires maxSpeed >= 0.0 && speed >= 0.0 && speed * speed == SqNorm(vx, vy)
    ensures var r := LimitSpeed(vx, vy, maxSpeed, speed);
      && SqNorm(r.0, r.1) <= maxSpeed * maxSpeed
      && (speed <= maxSpeed ==> r == (vx, vy))
      && (speed > maxSpeed ==> SqNorm(r.0, r.1) == maxSpeed * maxSpeed)
      && r.0 * vy == r.1 * vx
      && r.0 * vx + r.1 * vy >= 0.0
      && SqNorm(r.0, r.1) <= SqNorm(vx, vy)
  {
    if speed > maxSpeed {
      ScaleToLimit(vx, vy, maxSpeed, speed);
    } else {
      SquareMonotone(speed, maxSpeed);
      assert vx * vy == vy * vx;
      assert vx * vx + vy * vy >= 0.0 by {
        SquareNonnegative(vx);
        SquareNonnegative(vy);
      }
    }
  }

  /** Scaling by `maxSpeed / speed` brings the length down to `maxSpeed` along the same direction. */
  lemma ScaleToLimit(vx: real, vy: real, maxSpeed: real, speed: real)
    requires 0.0 <= maxSpeed < speed && speed * speed == SqNorm(vx, vy)
    ensures var k := maxSpeed / speed;
      && SqNorm(Scale(vx, k), Scale(vy, k)) == maxSpeed * maxSpeed
      && Scale(vx, k) * vy == Scale(vy, k) * vx
      && Scale(vx, k) * vx + Scale(vy, k) * vy >= 0.0
      && maxSpeed * maxSpeed < SqNorm(vx, vy)
  {
    var k := maxSpeed / speed;
    assert k * speed == maxSpeed;
    assert 0.0 <= k;
    var n := SqNorm(vx, vy);
    assert SqNorm(Scale(vx, k), Scale(vy, k)) == (k * k) * n by {
      assert Scale(vx, k) * Scale(vx, k) == (k * k) * (vx * vx);
      assert Scale(vy, k) * Scale(vy, k) == (k * k) * (vy * vy);
    }
    assert (k * k) * n == (k * speed) * (k * speed);
    assert Scale(vx, k) * vy == k * (vx * vy);
    assert Scale(vy, k) * vx == k * (vx * vy);
    assert Scale(vx, k) * vx + Scale(vy, k) * vy == k * n;
    assert n >= 0.0;
    assert k * n >= 0.0;
    SquareMonotone(maxSpeed, speed);
  }

  /** Clamping into `[lo, hi]`, as `max(lo, min(hi, v))`. */
  function Clamp(v: real, lo: real, hi: real): (r: real)
    ensures lo <= r
    ensures lo <= hi ==> r <= hi
    ensures lo <= v <= hi ==> r == v
    ensures v < lo ==> r == lo
    ensures lo <= hi < v ==> r == hi
  {
    var m := if hi < v then hi else v;
    if lo < m then m else lo
  }

  /** The velocity before the speed limit: the blend of the old smoothed velocity and the gained displacement. */
  function Smoothed(c: MotionConfig, m: Motion, fx: real, fy: real): (real, real)
    requires m.prevFx.Some? && m.prevFy.Some?
  {
    (Blend(c.velocitySmoothing, m.smoothVx, Gained(fx - m.prevFx.value, c.gain, c.screenWidth)),
     Blend(c.velocitySmoothing, m.smoothVy, Gained(fy - m.prevFy.value, c.gain, c.screenHeight)))
  }

  /** Whether the filtered position moved less than the deadzone on both axes since the baseline. */
  predicate InDeadzone(c: MotionConfig, m: Motion, fx: real, fy: real)
    requires m.prevFx.Some? && m.prevFy.Some?
  {
    Abs(fx - m.prevFx.value) < c.deadzone && Abs(fy - m.prevFy.value) < c.deadzone
  }

  /** The smoothed velocity after the speed limit. */
  function Limited(c: MotionConfig, m: Motion, fx: real, fy: real, sqrt: real -> real): (real, real)
    requires ConfigOk(c) && IsSqrt(sqrt)
    requires m.prevFx.Some? && m.prevFy.Some?
  {
    var (svx, svy) := Smoothed(c, m, fx, fy);
    LimitSpeed(svx, svy, c.maxSpeed, sqrt(SqNorm(svx, svy)))
  }

  /** A frame outside the deadzone: the limited velocity, integrated and clamped, and the new baseline. */
  function Advanced(c: MotionConfig, m: Motion, fx: real, fy: real, sqrt: real -> real): Motion
    requires ConfigOk(c) && IsSqrt(sqrt)
    requires m.prevFx.Some? && m.prevFy.Some?
  {
    var (vx, vy) := Limited(c, m, fx, fy, sqrt);
    Motion(
      Clamp(m.cursorX + vx, c.margin as real, (c.screenWidth - c.margin) as real),
      Clamp(m.cursorY + vy, c.margin as real, (c.screenHeight - c.margin) as real),
      Some(fx), Some(fy), vx, vy)
  }

  /**
   * One frame of cursor motion from the filtered finger position `(fx, fy)`: bootstrap the baseline,
   * or ignore a change inside the deadzone, or smooth, limit and integrate the velocity.
   */
  function Move(c: MotionConfig, m: Motion, fx: real, fy: real, sqrt: real -> real): (r: Motion)
    requires ConfigOk(c) && IsSqrt(sqrt)
    requires m.prevFx.Some? ==> m.prevFy.Some?
    ensures r.prevFx.Some? && r.prevFy.Some?
  {
    if m.prevFx.None? then m.(prevFx := Some(fx), prevFy := Some(fy))
    else if InDeadzone(c, m, fx, fy) then m
    else Advanced(c, m, fx, fy, sqrt)
  }

  /** The first frame only records the baseline; the cursor and the velocity stay put. */
  lemma MoveBootstraps(c: MotionConfig, m: Motion, fx: real, fy: real, sqrt: real -> real)
    requires ConfigOk(c) && IsSqrt(sqrt) && m.prevFx.None?
    ensures Move(c, m, fx, fy, sqrt) == m.(prevFx := Some(fx), prevFy := Some(fy))
  {
  }

  /** A change inside the deadzone changes nothing: neither the cursor, nor the velocity, nor the baseline. */
  lemma DeadzoneChangesNothing(c: MotionConfig, m: Motion, fx: real, fy: real, sqrt: real -> real)
    requires ConfigOk(c) && IsSqrt(sqrt) && m.prevFx.Some? && m.prevFy.Some?
    requires InDeadzone(c, m, fx, fy)
    ensures Move(c, m, fx, fy, sqrt) == m
  {
  }

  /** The speed limit with the speed taken as the square root of the squared length, stated on squares. */
  lemma LimitBySquares(vx: real, vy: real, maxSpeed: real, sqrt: real -> real)
    requires maxSpeed >= 0.0 && IsSqrt(sqrt)
    ensures SqNorm(vx, vy) >= 0.0
    ensures var (rx, ry) := LimitSpeed(vx, vy, maxSpeed, sqrt(SqNorm(vx, vy)));
      && SqNorm(rx, ry) <= maxSpeed * maxSpeed
      && (SqNorm(vx, vy) <= maxSpeed * maxSpeed ==> rx == vx && ry == vy)
      && (SqNorm(vx, vy) > maxSpeed * maxSpeed ==> SqNorm(rx, ry) == maxSpeed * maxSpeed)
      && rx * vy == ry * vx
      && rx * vx + ry * vy >= 0.0
  {
    SquareNonnegative(vx);
    SquareNonnegative(vy);
    var speed := sqrt(SqNorm(vx, vy));
    LimitSpeedBounds(vx, vy, maxSpeed, speed);
    CompareBySquare(SqNorm(vx, vy), speed, maxSpeed);
  }

  /**
   * Outside the deadzone the baseline moves to the new position, the velocity becomes the limited
   * velocity, and the cursor moves by that velocity unless a margin stops it, staying within the margins.
   */
  lemma MoveOutsideDeadzone(c: MotionConfig, m: Motion, fx: real, fy: real, sqrt: real -> real)
    requires ConfigOk(c) && IsSqrt(sqrt) && m.prevFx.Some? && m.prevFy.Some?
    requires !InDeadzone(c, m, fx, fy)
    ensures var r := Move(c, m, fx, fy, sqrt);
      var (vx, vy) := Limited(c, m, fx, fy, sqrt);
      && r.prevFx == Some(fx) && r.prevFy == Some(fy)
      && r.smoothVx == vx && r.smoothVy == vy
      && (c.margin as real <= m.cursorX + vx <= (c.screenWidth - c.margin) as real ==> r.cursorX == m.cursorX + vx)
      && (c.margin as real <= m.cursorY + vy <= (c.screenHeight - c.margin) as real ==> r.cursorY == m.cursorY + vy)
      && (2 * c.margin <= c.screenWidth ==> c.margin as real <= r.cursorX <= (c.screenWidth - c.margin) as real)
      && (2 * c.margin <= c.screenHeight ==> c.margin as real <= r.cursorY <= (c.screenHeight - c.margin) as real)
  {
  }

  /**
   * The invariant every frame keeps: the baseline is set on both axes or on neither, and the cursor is
   * within the margins of every axis wide enough to have them.
   */
  predicate Inv(c: MotionConfig, m: Motion) {
    && (m.prevFx.Some? <==> m.prevFy.Some?)
    && (2 * c.margin <= c.screenWidth ==>
          c.margin as real <= m.cursorX <= (c.screenWidth - c.margin) as real)
    && (2 * c.margin <= c.screenHeight ==>
          c.margin as real <= m.cursorY <= (c.screenHeight - c.margin) as real)
  }

  /** The stored velocity respects the speed limit. */
  predicate WithinSpeed(c: MotionConfig, vx: real, vy: real) {
    SqNorm(vx, vy) <= c.maxSpeed * c.maxSpeed
  }

  /** The initial motion state satisfies the invariant. */
  lemma InitialInv(c: MotionConfig)
    ensures Inv(c, Initial(c))
  {
  }

  /** Every frame preserves the invariant; in particular the cursor never leaves the screen margins. */
  lemma MoveKeepsInv(c: MotionConfig, m: Motion, fx: real, fy: real, sqrt: real -> real)
    requires ConfigOk(c) && IsSqrt(sqrt) && Inv(c, m)
    ensures Inv(c, Move(c, m, fx, fy, sqrt))
  {
    if m.prevFx.Some? && !InDeadzone(c, m, fx, fy) {
      MoveOutsideDeadzone(c, m, fx, fy, sqrt);
    }
  }

  /** Losing the hand stops the cursor: zero velocity, with the cursor and the baseline kept. */
  function HandLost(m: Motion): (r: Motion)
    ensures r.smoothVx == 0.0 && r.smoothVy == 0.0
    ensures r.cursorX == m.cursorX && r.cursorY == m.cursorY
    ensures r.prevFx == m.prevFx && r.prevFy == m.prevFy
  {
    m.(smoothVx := 0.0, smoothVy := 0.0)
  }

  /** Losing the hand keeps the invariant. */
  lemma HandLostKeepsInv(c: MotionConfig, m: Motion)
    requires Inv(c, m)
    ensures Inv(c, HandLost(m))
  {
  }

  /** Blending into a zero velocity keeps the `1 - s` share of the input. */
  lemma BlendFromRest(s: real, input: real)
    ensures Blend(s, 0.0, input) == (1.0 - s) * input
  {
    assert s * 0.0 == 0.0;
  }

  /** After losing the hand, the next frame outside the deadzone starts from rest: only the `1 - s` share of the step counts. */
  lemma RestartFromRest(c: MotionConfig, m: Motion, fx: real, fy: real)
    requires m.prevFx.Some? && m.prevFy.Some?
    ensures Smoothed(c, HandLost(m), fx, fy).0
      == (1.0 - c.velocitySmoothing) * Gained(fx - m.prevFx.value, c.gain, c.screenWidth)
    ensures Smoothed(c, HandLost(m), fx, fy).1
      == (1.0 - c.velocitySmoothing) * Gained(fy - m.prevFy.value, c.gain, c.screenHeight)
  {
    var h := HandLost(m);
    BlendFromRest(c.velocitySmoothing, Gained(fx - m.prevFx.value, c.gain, c.screenWidth));
    BlendFromRest(c.velocitySmoothing, Gained(fy - m.prevFy.value, c.gain, c.screenHeight));
    assert Smoothed(c, h, fx, fy).0 == Blend(c.velocitySmoothing, 0.0, Gained(fx - m.prevFx.value, c.gain, c.screenWidth));
    assert Smoothed(c, h, fx, fy).1 == Blend(c.velocitySmoothing, 0.0, Gained(fy - m.prevFy.value, c.gain, c.screenHeight));
  }

  /** The cursor controller: two independent axis filters and the motion state, updated once per frame. */
  class Controller {
    const config: MotionConfig
    const sqrt: real -> real
    const filterX: OneEuroFilter
    const filterY: OneEuroFilter

    var cursorX: real
    var cursorY: real
    var prevFx: Option<real>
    var prevFy: Option<real>
    var smoothVx: real
    var smoothVy: real

    ghost function State(): Motion
      reads this
    {
      Motion(cursorX, cursorY, prevFx, prevFy, smoothVx, smoothVy)
    }

    ghost predicate Valid()
      reads this, filterX, filterY
    {
      && filterX != filterY
      && filterX.Valid() && filterY.Valid()
      && ConfigOk(config) && IsSqrt(sqrt)
      && Inv(config, State())
      && WithinSpeed(config, smoothVx, smoothVy)
    }

    constructor (config: MotionConfig, filterParams: FilterParams, freq: real, sqrt: real -> real)
      requires ConfigOk(config) && IsSqrt(sqrt)
      requires ParamsOk(filterParams) && freq > 0.0
      ensures Valid()
      ensures fresh(filterX) && fresh(filterY)
      ensures this.config == config && this.sqrt == sqrt
      ensures State() == Initial(config)
      ensures filterX.Params() == filterParams && filterY.Params() == filterParams
      ensures filterX.State() == FilterState(freq, None, 0.0, None)
      ensures filterY.State() == FilterState(freq, None, 0.0, None)
    {
      this.config := config;
      this.sqrt := sqrt;
      filterX := new OneEuroFilter(freq, filterParams.minCutoff, filterParams.beta, filterParams.dCutoff);
      filterY := new OneEuroFilter(freq, filterParams.minCutoff, filterParams.beta, filterParams.dCutoff);
      var m := Initial(config);
      cursorX, cursorY := m.cursorX, m.cursorY;
      prevFx, prevFy := m.prevFx, m.prevFy;
      smoothVx, smoothVy := m.smoothVx, m.smoothVy;
      InitialInv(config);
    }

    /**
     * One tracked frame: filter the raw finger position on each axis at time `now`, then move the cursor;
     * returns the cursor position.
     */
    method UpdateCursorFromFinger(rawX: real, rawY: real, now: real) returns (x: real, y: real)
      requires Valid()
      modifies this, filterX, filterY
      ensures Valid()
      ensures filterX.State() == Step(filterX.Params(), old(filterX.State()), rawX, Some(now)).0
      ensures filterY.State() == Step(filterY.Params(), old(filterY.State()), rawY, Some(now)).0
      ensures State() == Move(config, old(State()),
                              Step(filterX.Params(), old(filterX.State()), rawX, Some(now)).1,
                              Step(filterY.Params(), old(filterY.State()), rawY, Some(now)).1, sqrt)
      ensures x == cursorX && y == cursorY
    {
      var fx := filterX.Filter(rawX, Some(now));
      var fy := filterY.Filter(rawY, Some(now));
      ghost var m0 := State();
      x, y := MoveCursor(fx, fy);
      MoveKeepsInv(config, m0, fx, fy, sqrt);
    }

    /** The motion stages after filtering, applied to the filtered position `(fx, fy)`. */
    method MoveCursor(fx: real, fy: real) returns (x: real, y: real)
      requires ConfigOk(config) && IsSqrt(sqrt)
      requires prevFx.Some? ==> prevFy.Some?
      requires WithinSpeed(config, smoothVx, smoothVy)
      modifies this
      ensures State() == Move(config, old(State()), fx, fy, sqrt)
      ensures WithinSpeed(config, smoothVx, smoothVy)
      ensures x == cursorX && y == cursorY
    {
      ghost var m0 := State();

      if prevFx.None? {
        prevFx := Some(fx);
        prevFy := Some(fy);
        MoveBootstraps(config, m0, fx, fy, sqrt);
        return cursorX, cursorY;
      }

      var dx := fx - prevFx.value;
      var dy := fy - prevFy.value;

      if Abs(dx) < config.deadzone && Abs(dy) < config.deadzone {
        DeadzoneChangesNothing(config, m0, fx, fy, sqrt);
        return cursorX, cursorY;
      }

      x, y := Advance(fx, fy);
    }

    /** Stages two to five outside the deadzone: gain, velocity smoothing, speed limit, integration and clamping. */
    method Advance(fx: real, fy: real) returns (x: real, y: real)
      requires ConfigOk(config) && IsSqrt(sqrt)
      requires prevFx.Some? && prevFy.Some?
      modifies this
      ensures State() == Advanced(config, old(State()), fx, fy, sqrt)
      ensures WithinSpeed(config, smoothVx, smoothVy)
      ensures x == cursorX && y == cursorY
    {
      ghost var m0 := State();
      var vx := Gained(fx - prevFx.value, config.gain, config.screenWidth);
      var vy := Gained(fy - prevFy.value, config.gain, config.screenHeight);

      smoothVx := Blend(config.velocitySmoothing, smoothVx, vx);
      smoothVy := Blend(config.velocitySmoothing, smoothVy, vy);
      assert (smoothVx, smoothVy) == Smoothed(config, m0, fx, fy);

      LimitVelocity();
      assert (smoothVx, smoothVy) == Limited(config, m0, fx, fy, sqrt);

      cursorX := cursorX + smoothVx;
      cursorY := cursorY + smoothVy;

      var margin := config.margin;
      cursorX := Clamp(cursorX, margin as real, (config.screenWidth - margin) as real);
      cursorY := Clamp(cursorY, margin as real, (config.screenHeight - margin) as real);

      prevFx := Some(fx);
      prevFy := Some(fy);
      return cursorX, cursorY;
    }

    /** The speed limit, scaling the smoothed velocity in place. */
    method LimitVelocity()
      requires ConfigOk(config) && IsSqrt(sqrt)
      modifies this
      ensures (smoothVx, smoothVy)
        == LimitSpeed(old(smoothVx), old(smoothVy), config.maxSpeed, sqrt(SqNorm(old(smoothVx), old(smoothVy))))
      ensures WithinSpeed(config, smoothVx, smoothVy)
      ensures cursorX == old(cursorX) && cursorY == old(cursorY)
      ensures prevFx == old(prevFx) && prevFy == old(prevFy)
    {
      LimitBySquares(smoothVx, smoothVy, config.maxSpeed, sqrt);
      var speed := sqrt(SqNorm(smoothVx, smoothVy));
      if speed > config.maxSpeed {
        var scale := config.maxSpeed / speed;
        smoothVx := Scale(smoothVx, scale);
        smoothVy := Scale(smoothVy, scale);
      }
    }

    /** The hand left the frame: stop the cursor; the filters and the gesture state are not touched here. */
    method OnHandLost()
      requires Valid()
      modifies this
      ensures Valid()
      ensures State() == HandLost(old(State()))
    {
      smoothVx := 0.0;
      smoothVy := 0.0;
      SquareNonnegative(config.maxSpeed);
      HandLostKeepsInv(config, old(State()));
    }
  }
}
