/**
 * The swing's motion: a driven, damped pendulum stepped at a fixed rate
 * (Pendulum) and the phase rules that decide what drives it (Swing).
 *
 * Both classes are proved against value-level step functions (Step and
 * Advance); the lemmas further down state what the phases promise over many
 * steps. Sine and cosine are not modelled: they are the two functions of a
 * `Trig` value handed to the constructors.
 */
module Animation {

  /** The host's sine and cosine, left uninterpreted. */
  datatype Trig = Trig(sin: real -> real, cos: real -> real)

  // ---------------------------------------------------------------------
  // Numerics
  // ---------------------------------------------------------------------

  /** The value of the platform's pi constant, as a decimal. */
  const Pi: real := 3.141592653589793

  function ToRadians(degrees: real): real
  {
    degrees * Pi / 180.0
  }

  function Abs(x: real): real
  {
    if x < 0.0 then -x else x
  }

  /** The integer nearest to q; when two are equally near, the even one. */
  function NearestInteger(q: real): (n: int)
    ensures -0.5 <= q - n as real <= 0.5
    ensures (q - n as real == 0.5 || q - n as real == -0.5) ==> n % 2 == 0
  {
    var f := q.Floor;
    var fraction := q - f as real;
    if fraction < 0.5 then f
    else if fraction > 0.5 then f + 1
    else if f % 2 == 0 then f
    else f + 1
  }

  /**
   * The IEEE 754 remainder of x with respect to m: x - m * n for the
   * integer n nearest to x / m (ties to even). Unlike a modulo, the result
   * is signed and lies within half a modulus of zero.
   */
  function IeeeRemainder(x: real, m: real): (r: real)
    requires m > 0.0
    ensures -m / 2.0 <= r <= m / 2.0
  {
    var n := NearestInteger(x / m);
    RemainderBound(x, m, n);
    x - m * n as real
  }

  /** Subtracting from x the multiple of m nearest to it leaves at most half of m. */
  lemma RemainderBound(x: real, m: real, n: int)
    requires m > 0.0
    requires -0.5 <= x / m - n as real <= 0.5
    ensures -m / 2.0 <= x - m * n as real <= m / 2.0
  {
    var d := x / m - n as real;
    var r := x - m * n as real;
    RemainderAsScaled(x, m, n);
    assert r == m * d;
    ScaleBetween(m, d, -0.5, 0.5);
    calc {
      r;
      m * d;
    <= m * 0.5;
      m / 2.0;
    }
    calc {
      r;
      m * d;
    >= m * -0.5;
      -m / 2.0;
    }
  }

  /** x - m * n is m times the distance from x / m to n. */
  lemma RemainderAsScaled(x: real, m: real, n: int)
    requires m > 0.0
    ensures x - m * n as real == m * (x / m - n as real)
  {
    assert m * (x / m) == x;
    Distribute(m, x / m, n as real);
  }

  lemma Distribute(m: real, a: real, b: real)
    ensures m * (a - b) == m * a - m * b
  {
  }

  /** Multiplying by a positive factor keeps a value between its bounds. */
  lemma ScaleBetween(m: real, d: real, lo: real, hi: real)
    requires m > 0.0 && lo <= d <= hi
    ensures m * lo <= m * d <= m * hi
  {
    Distribute(m, d, lo);
    Distribute(m, hi, d);
    assert m * (d - lo) >= 0.0;
    assert m * (hi - d) >= 0.0;
  }

  /** Multiplying by a positive factor keeps a strict order. */
  lemma ScaleStrict(m: real, a: real, b: real)
    requires m > 0.0 && a < b
    ensures m * a < m * b
  {
    Distribute(m, b, a);
    assert m * (b - a) > 0.0;
  }

  /** A value already within half a modulus of zero is its own remainder. */
  lemma RemainderOfHalfRange(x: real, m: real)
    requires m > 0.0
    requires -m / 2.0 <= x <= m / 2.0
    ensures IeeeRemainder(x, m) == x
  {
    var q := x / m;
    assert m * q == x;
    if q > 0.5 {
      ScaleStrict(m, 0.5, q);
    }
    if q < -0.5 {
      ScaleStrict(m, q, -0.5);
    }
    var n := NearestInteger(q);
    assert n == 0;
  }

  /** Taking the remainder twice is the same as taking it once. */
  lemma RemainderIdempotent(x: real, m: real)
    requires m > 0.0
    ensures IeeeRemainder(IeeeRemainder(x, m), m) == IeeeRemainder(x, m)
  {
    RemainderOfHalfRange(IeeeRemainder(x, m), m);
  }

  /**
   * The remainder is the unique representative of x modulo m that lies
   * strictly inside half a modulus of zero.
   */
  lemma RemainderCharacterization(x: real, m: real, k: int)
    requires m > 0.0
    requires -m / 2.0 < x - m * k as real < m / 2.0
    ensures IeeeRemainder(x, m) == x - m * k as real
  {
    var q := x / m;
    RemainderAsScaled(x, m, k);
    var d := q - k as real;
    if d >= 0.5 {
      ScaleBetween(m, 0.5, 0.5, d);
    } else if d <= -0.5 {
      ScaleBetween(m, -0.5, d, -0.5);
    }
    assert -0.5 < d < 0.5;
    var n := NearestInteger(q);
    assert n == k;
  }

  // ---------------------------------------------------------------------
  // Pendulum
  // ---------------------------------------------------------------------

  const Gravity: real := 9.81
  const Length: real := 1.0
  const Mass: real := 1.0
  const DriveFrequency: real := 3.20
  /** The fixed simulation step, in seconds. */
  const TimeStep: real := 0.05
  /** The angle is wrapped by a remainder against 270 degrees. */
  const WrapModulus: real := ToRadians(270.0)
  /** Half the wrap modulus: 135 degrees. */
  const MaxAngle: real := ToRadians(135.0)

  datatype PendulumState = PendulumState(
    angle: real,
    angularVelocity: real,
    amplitude: real,
    damping: real,
    time: real)

  /** The state a new pendulum starts in: everything zero. */
  const InitialPendulum: PendulumState := PendulumState(ToRadians(0.0), 0.0, 0.0, 0.0, 0.0)

  /**
   * Gravity, drag and the periodic driving force, at the state's time. With
   * unit mass and length, drag alone gives -damping * velocity and gravity
   * alone gives -g * sin(angle).
   */
  function AngularAcceleration(s: PendulumState, trig: Trig): (r: real)
    ensures s.amplitude == 0.0 && trig.sin(s.angle) == 0.0 ==> r == -s.damping * s.angularVelocity
    ensures s.amplitude == 0.0 && s.damping == 0.0 ==> r == -Gravity * trig.sin(s.angle)
  {
    -(Gravity / Length) * trig.sin(s.angle)
    - (s.damping / (Mass * Length * Length)) * s.angularVelocity
    + (s.amplitude / (Mass * Length * Length)) * trig.cos(DriveFrequency * s.time)
  }

  /**
   * Without drive or gravity pull, positive damping always acts against the
   * motion: it decelerates whichever way the pendulum moves.
   */
  lemma DampingOpposesMotion(s: PendulumState, trig: Trig)
    requires s.amplitude == 0.0 && trig.sin(s.angle) == 0.0 && s.damping > 0.0
    ensures s.angularVelocity > 0.0 ==> AngularAcceleration(s, trig) < 0.0
    ensures s.angularVelocity < 0.0 ==> AngularAcceleration(s, trig) > 0.0
    ensures s.angularVelocity == 0.0 ==> AngularAcceleration(s, trig) == 0.0
  {
    var a := AngularAcceleration(s, trig);
    assert a == -(s.damping * s.angularVelocity);
    if s.angularVelocity > 0.0 {
      assert s.damping * s.angularVelocity > 0.0;
    } else if s.angularVelocity < 0.0 {
      assert s.damping * -s.angularVelocity > 0.0;
    }
  }

  /** The angle after wrapping; it never exceeds 135 degrees either way. */
  function Wrap(angle: real): (r: real)
    ensures -MaxAngle <= r <= MaxAngle
  {
    IeeeRemainder(angle, WrapModulus)
  }

  /**
   * The wrapped range is closed: both 135 degrees and -135 degrees are kept
   * as they are, because a tie in the remainder goes to the even multiple 0.
   */
  lemma WrapKeepsBothEnds()
    ensures Wrap(MaxAngle) == MaxAngle && Wrap(-MaxAngle) == -MaxAngle
  {
    RemainderOfHalfRange(MaxAngle, WrapModulus);
    RemainderOfHalfRange(-MaxAngle, WrapModulus);
  }

  /**
   * One simulation step. The clock advances first; the acceleration is taken
   * from the old angle and velocity at the new time; the angle moves by the
   * old velocity; only then does the velocity take up the acceleration.
   */
  function Step(s: PendulumState, trig: Trig): (r: PendulumState)
    ensures r.time == s.time + TimeStep
    ensures -MaxAngle <= r.angle <= MaxAngle
    ensures r.amplitude == s.amplitude && r.damping == s.damping
  {
    var advanced := s.(time := s.time + TimeStep);
    var acceleration := AngularAcceleration(advanced, trig);
    advanced.(angle := Wrap(s.angle + s.angularVelocity * TimeStep),
              angularVelocity := s.angularVelocity + acceleration * TimeStep)
  }

  /** n steps in a row. */
  function Steps(s: PendulumState, trig: Trig, n: nat): PendulumState
  {
    if n == 0 then s else Step(Steps(s, trig, n - 1), trig)
  }

  /**
   * The new angle depends only on the old angle and velocity: the driving
   * force and the drag reach the angle one step late.
   */
  lemma AngleIgnoresForcing(s: PendulumState, t: PendulumState, trig: Trig)
    requires s.angle == t.angle && s.angularVelocity == t.angularVelocity
    ensures Step(s, trig).angle == Step(t, trig).angle
  {
  }

  /** Every step adds exactly one time step to the clock. */
  lemma {:induction false} StepsTime(s: PendulumState, trig: Trig, n: nat)
    ensures Steps(s, trig, n).time == s.time + TimeStep * (n as real)
    ensures Steps(s, trig, n).amplitude == s.amplitude
    ensures Steps(s, trig, n).damping == s.damping
  {
    if n > 0 {
      StepsTime(s, trig, n - 1);
    }
  }

  /** Without a driving force, hanging straight down and at rest is a fixed point. */
  lemma RestIsFixedPoint(s: PendulumState, trig: Trig)
    requires trig.sin(0.0) == 0.0
    requires s.angle == 0.0 && s.angularVelocity == 0.0 && s.amplitude == 0.0
    ensures Step(s, trig).angle == 0.0 && Step(s, trig).angularVelocity == 0.0
  {
    RemainderOfHalfRange(0.0, WrapModulus);
  }

  lemma {:induction false} RestStaysAtRest(s: PendulumState, trig: Trig, n: nat)
    requires trig.sin(0.0) == 0.0
    requires s.angle == 0.0 && s.angularVelocity == 0.0 && s.amplitude == 0.0
    ensures Steps(s, trig, n).angle == 0.0 && Steps(s, trig, n).angularVelocity == 0.0
  {
    if n > 0 {
      RestStaysAtRest(s, trig, n - 1);
      StepsTime(s, trig, n - 1);
      RestIsFixedPoint(Steps(s, trig, n - 1), trig);
    }
  }

  class Pendulum {
    const trig: Trig
    var angle: real
    var angularVelocity: real
    var amplitude: real
    var damping: real
    var time: real

    function State(): PendulumState
      reads this
    {
      PendulumState(angle, angularVelocity, amplitude, damping, time)
    }

    constructor (trig: Trig)
      ensures this.trig == trig
      ensures State() == InitialPendulum
    {
      this.trig := trig;
      angle := ToRadians(0.0);
      angularVelocity := 0.0;
      amplitude := 0.0;
      damping := 0.0;
      time := 0.0;
    }

    method Update()
      modifies this
      ensures State() == Step(old(State()), trig)
    {
      time := time + TimeStep;
      var angularAcceleration := AngularAcceleration(State(), trig);
      UpdateAngle();
      UpdateVelocity(angularAcceleration);
    }

    method UpdateAngle()
      modifies this`angle
      ensures angle == Wrap(old(angle) + angularVelocity * TimeStep)
    {
      angle := angle + angularVelocity * TimeStep;
      angle := IeeeRemainder(angle, ToRadians(270.0));
    }

    method UpdateVelocity(angularAcceleration: real)
      modifies this`angularVelocity
      ensures angularVelocity == old(angularVelocity) + angularAcceleration * TimeStep
    {
      angularVelocity := angularVelocity + angularAcceleration * TimeStep;
    }

    method GetAngle() returns (a: real)
      ensures a == angle
    {
      a := angle;
    }

    method GetAngularVelocity() returns (v: real)
      ensures v == angularVelocity
    {
      v := angularVelocity;
    }

    method SetDamping(damping: real)
      modifies this`damping
      ensures State() == old(State()).(damping := damping)
    {
      this.damping := damping;
    }

    method SetAmplitude(amplitude: real)
      modifies this`amplitude
      ensures State() == old(State()).(amplitude := amplitude)
    {
      this.amplitude := amplitude;
    }
  }

  // ---------------------------------------------------------------------
  // Swing phases
  // ---------------------------------------------------------------------

  /** Updates before the drive is switched off (counted by the update clock). */
  const AccelerationTime: nat := 30
  const NormalDamping: real := 0.5
  const DecelerationDamping: real := 1.2
  const AccelerationAmplitude: real := 2.0
  const StillThreshold: real := 0.5
  const AngleThreshold: real := 0.01

  datatype SwingState = SwingState(time: nat, slowing: bool, pendulum: PendulumState)

  const FreshSwing: SwingState := SwingState(0, false, InitialPendulum)

  /**
   * One update: the clock ticks first; a slowing swing only steps its
   * pendulum; otherwise the drive is on while the clock is below 30 and is
   * replaced by normal damping from then on.
   */
  function Advance(s: SwingState, trig: Trig): (r: SwingState)
    ensures r.time == s.time + 1 && r.slowing == s.slowing
    ensures r.pendulum.time == s.pendulum.time + TimeStep
    ensures s.slowing ==>
      r.pendulum.amplitude == s.pendulum.amplitude && r.pendulum.damping == s.pendulum.damping
    ensures !s.slowing && r.time < AccelerationTime ==>
      r.pendulum.amplitude == AccelerationAmplitude && r.pendulum.damping == s.pendulum.damping
    ensures !s.slowing && r.time >= AccelerationTime ==>
      r.pendulum.amplitude == 0.0 && r.pendulum.damping == NormalDamping
  {
    var time := s.time + 1;
    if s.slowing then
      SwingState(time, true, Step(s.pendulum, trig))
    else if time >= AccelerationTime then
      SwingState(time, false, Step(s.pendulum.(amplitude := 0.0, damping := NormalDamping), trig))
    else
      SwingState(time, false, Step(s.pendulum.(amplitude := AccelerationAmplitude), trig))
  }

  /** Switch off the drive, brake harder and remember that the swing is slowing. */
  function SlowedDown(s: SwingState): SwingState
  {
    s.(slowing := true,
       pendulum := s.pendulum.(amplitude := 0.0, damping := DecelerationDamping))
  }

  predicate Still(s: SwingState)
  {
    Abs(s.pendulum.angularVelocity) < StillThreshold
    && Abs(s.pendulum.angle) < AngleThreshold
    && s.time >= AccelerationTime
  }

  /** n updates with no other call in between. */
  function Run(s: SwingState, trig: Trig, n: nat): SwingState
  {
    if n == 0 then s else Advance(Run(s, trig, n - 1), trig)
  }

  /**
   * From a fresh swing, updates 1 to 29 drive it with amplitude 2 and leave
   * the damping at 0; from update 30 on the drive is off and the damping is
   * the normal 0.5. The pendulum's clock reads 0.05 per update.
   */
  lemma {:induction false} AccelerationRamp(trig: Trig, n: nat)
    ensures Run(FreshSwing, trig, n).time == n
    ensures !Run(FreshSwing, trig, n).slowing
    ensures Run(FreshSwing, trig, n).pendulum.time == TimeStep * (n as real)
    ensures 1 <= n < AccelerationTime ==>
      Run(FreshSwing, trig, n).pendulum.amplitude == AccelerationAmplitude
      && Run(FreshSwing, trig, n).pendulum.damping == 0.0
    ensures n >= AccelerationTime ==>
      Run(FreshSwing, trig, n).pendulum.amplitude == 0.0
      && Run(FreshSwing, trig, n).pendulum.damping == NormalDamping
  {
    if n > 0 {
      AccelerationRamp(trig, n - 1);
    }
  }

  /** Once slowing, no number of updates touches the drive or the damping. */
  lemma {:induction false} SlowingIsPermanent(s: SwingState, trig: Trig, n: nat)
    requires s.slowing
    ensures Run(s, trig, n).slowing
    ensures Run(s, trig, n).time == s.time + n
    ensures Run(s, trig, n).pendulum == Steps(s.pendulum, trig, n)
    ensures Run(s, trig, n).pendulum.amplitude == s.pendulum.amplitude
    ensures Run(s, trig, n).pendulum.damping == s.pendulum.damping
  {
    if n > 0 {
      SlowingIsPermanent(s, trig, n - 1);
    }
    StepsTime(s.pendulum, trig, n);
  }

  /** Slowing down twice is slowing down once. */
  lemma SlowdownIdempotent(s: SwingState)
    ensures SlowedDown(SlowedDown(s)) == SlowedDown(s)
    ensures SlowedDown(s).slowing
    ensures SlowedDown(s).pendulum.amplitude == 0.0
    ensures SlowedDown(s).pendulum.damping == DecelerationDamping
  {
  }

  /** Slowing down moves nothing: time, angle and velocity are kept. */
  lemma SlowdownKeepsMotion(s: SwingState)
    ensures SlowedDown(s).time == s.time
    ensures SlowedDown(s).pendulum.angle == s.pendulum.angle
    ensures SlowedDown(s).pendulum.angularVelocity == s.pendulum.angularVelocity
    ensures Still(SlowedDown(s)) <==> Still(s)
  {
  }

  /** No swing counts as still before its 30th update, however it moves. */
  lemma NotStillWhileAccelerating(s: SwingState)
    requires s.time < AccelerationTime
    ensures !Still(s)
  {
  }

  /** From a fresh swing, no run of fewer than 30 updates ends still. */
  lemma FreshSwingNotStillEarly(trig: Trig, n: nat)
    requires n < AccelerationTime
    ensures !Still(Run(FreshSwing, trig, n))
  {
    AccelerationRamp(trig, n);
  }

  /**
   * A slowing swing that hangs at rest with no drive, past the acceleration
   * window, stays still for every later update.
   */
  lemma RestingSwingStaysStill(s: SwingState, trig: Trig, n: nat)
    requires trig.sin(0.0) == 0.0
    requires s.slowing && s.pendulum.amplitude == 0.0
    requires s.pendulum.angle == 0.0 && s.pendulum.angularVelocity == 0.0
    requires s.time >= AccelerationTime
    ensures Still(Run(s, trig, n))
  {
    SlowingIsPermanent(s, trig, n);
    RestStaysAtRest(s.pendulum, trig, n);
  }

  /**
   * Being still is not stable: a swing can be still and stop being still
   * one update later, because a velocity just under the threshold moves the
   * angle past its threshold. The tick therefore relies on cancelling its
   * task at the first still update.
   */
  lemma StillIsNotStable(trig: Trig)
    ensures var s := SwingState(AccelerationTime, true, PendulumState(0.0, 0.4, 0.0, DecelerationDamping, 1.5));
      Still(s) && !Still(Advance(s, trig))
  {
    RemainderOfHalfRange(0.02, WrapModulus);
  }

  class Swing {
    const pendulum: Pendulum
    var slowing: bool
    var time: nat

    function State(): SwingState
      reads this, pendulum
    {
      SwingState(time, slowing, pendulum.State())
    }

    constructor (trig: Trig)
      ensures fresh(pendulum) && pendulum.trig == trig
      ensures State() == FreshSwing
    {
      time := 0;
      slowing := false;
      pendulum := new Pendulum(trig);
    }

    method Update()
      modifies this, pendulum
      ensures State() == Advance(old(State()), pendulum.trig)
    {
      time := time + 1;

      if slowing {
        pendulum.Update();
        return;
      }
      if time >= AccelerationTime {
        pendulum.SetAmplitude(0.0);
        pendulum.SetDamping(NormalDamping);
      } else {
        pendulum.SetAmplitude(AccelerationAmplitude);
      }

      pendulum.Update();
    }

    method Slowdown()
      modifies this, pendulum
      ensures State() == SlowedDown(old(State()))
    {
      pendulum.SetAmplitude(0.0);
      pendulum.SetDamping(DecelerationDamping);
      slowing := true;
    }

    method IsStill() returns (still: bool)
      ensures still == Still(State())
    {
      var velocity := pendulum.GetAngularVelocity();
      var angle := pendulum.GetAngle();
      still := Abs(velocity) < StillThreshold && Abs(angle) < AngleThreshold && time >= AccelerationTime;
    }

    method GetAngle() returns (angle: real)
      ensures angle == pendulum.angle
    {
      angle := pendulum.GetAngle();
    }
  }
}
