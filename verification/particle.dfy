/**
 * The particle: a point mass with a position, a velocity, a constant acceleration,
 * a damping factor and an inverse mass, advanced in time by one Newton-Euler step.
 * `ParticleState` and `Integrated` are the value-level description of one step;
 * the class `Particle` updates its vectors in place and is proved to follow it.
 */
module Particles {
  import opened Precision
  import opened Core

  /** The five quantities a particle holds. */
  datatype ParticleState = ParticleState(
    position: Vec3,
    velocity: Vec3,
    acceleration: Vec3,
    damping: real,
    inverseMass: real)

  /** Every duration in `durations` is positive. */
  predicate AllPositive(durations: seq<real>)
  {
    forall i :: 0 <= i < |durations| ==> durations[i] > 0.0
  }

  /**
   * One integration step over `duration`. A particle with inverse mass 0 or less
   * (infinite mass) is left exactly as it is. Otherwise the position moves by the
   * old velocity times the duration, the velocity gains the acceleration times the
   * duration and is then multiplied by pow(damping, duration); acceleration,
   * damping and inverse mass are never changed.
   */
  function Integrated(s: ParticleState, duration: real, ops: RealOps): (r: ParticleState)
    requires s.inverseMass <= 0.0 || duration > 0.0
    ensures r.acceleration == s.acceleration && r.damping == s.damping && r.inverseMass == s.inverseMass
    ensures s.inverseMass <= 0.0 ==> r == s
    ensures s.inverseMass > 0.0 ==> r.position.Sub(s.position) == s.velocity.Scale(duration)
  {
    if s.inverseMass <= 0.0 then s
    else
      s.(position := s.position.Add(s.velocity.Scale(duration)),
         velocity := s.velocity.Add(s.acceleration.Scale(duration)).Scale(ops.pow(s.damping, duration)))
  }

  /** Successive integration steps, one per entry of `durations`, in order. */
  function IntegratedOver(s: ParticleState, durations: seq<real>, ops: RealOps): (r: ParticleState)
    requires s.inverseMass <= 0.0 || AllPositive(durations)
    ensures r.acceleration == s.acceleration && r.damping == s.damping && r.inverseMass == s.inverseMass
    decreases |durations|
  {
    if durations == [] then s
    else IntegratedOver(Integrated(s, durations[0], ops), durations[1..], ops)
  }

  /** A particle of infinite mass never moves, however many steps it is integrated. */
  lemma {:induction false} InfiniteMassNeverMoves(s: ParticleState, durations: seq<real>, ops: RealOps)
    requires s.inverseMass <= 0.0
    ensures IntegratedOver(s, durations, ops) == s
    decreases |durations|
  {
    if durations != [] {
      InfiniteMassNeverMoves(Integrated(s, durations[0], ops), durations[1..], ops);
    }
  }

  /**
   * The worked example: a particle at rest at the origin, under acceleration
   * (0,-10,0) with damping 1, integrated for one second, stays at the origin and
   * reaches velocity (0,-10,0).
   */
  lemma IntegrateExample(ops: RealOps)
    requires PowLaws(ops)
    ensures
      var s := ParticleState(ZERO, ZERO, Vec3(0.0, -10.0, 0.0), 1.0, 1.0);
      var r := Integrated(s, 1.0, ops);
      r.position == ZERO && r.velocity == Vec3(0.0, -10.0, 0.0)
  {
    assert ops.pow(1.0, 1.0) == 1.0;
  }

  /** Without acceleration, one step multiplies the velocity by pow(damping, duration). */
  lemma ZeroAccelerationDamps(s: ParticleState, duration: real, ops: RealOps)
    requires s.inverseMass > 0.0 && duration > 0.0
    requires s.acceleration == ZERO
    ensures Integrated(s, duration, ops).velocity == s.velocity.Scale(ops.pow(s.damping, duration))
  {
    assert s.acceleration.Scale(duration) == ZERO;
    assert s.velocity.Add(ZERO) == s.velocity;
  }

  /**
   * Without acceleration and with damping in [0, 1], one step does not increase the
   * squared speed.
   */
  lemma DampingNeverSpeedsUp(s: ParticleState, duration: real, ops: RealOps)
    requires PowLaws(ops)
    requires s.acceleration == ZERO && 0.0 <= s.damping <= 1.0
    requires s.inverseMass <= 0.0 || duration > 0.0
    ensures Integrated(s, duration, ops).velocity.SquareMagnitude() <= s.velocity.SquareMagnitude()
  {
    if s.inverseMass > 0.0 {
      var p := ops.pow(s.damping, duration);
      assert 0.0 <= p <= 1.0;
      ZeroAccelerationDamps(s, duration, ops);
      ScaleByFractionShrinks(s.velocity, p);
    }
  }

  /**
   * Without acceleration and with damping in [0, 1), one step of a moving particle of
   * finite mass strictly decreases its squared speed.
   */
  lemma DampingSlowsDown(s: ParticleState, duration: real, ops: RealOps)
    requires PowLaws(ops)
    requires s.acceleration == ZERO && 0.0 <= s.damping < 1.0
    requires s.inverseMass > 0.0 && duration > 0.0 && s.velocity != ZERO
    ensures Integrated(s, duration, ops).velocity.SquareMagnitude() < s.velocity.SquareMagnitude()
  {
    var p := ops.pow(s.damping, duration);
    assert 0.0 <= p < 1.0;
    ZeroAccelerationDamps(s, duration, ops);
    ScaleByProperFractionShrinks(s.velocity, p);
  }

  /**
   * Without acceleration and with damping in [0, 1], no number of steps increases
   * the squared speed.
   */
  lemma {:induction false} SpeedNeverIncreases(s: ParticleState, durations: seq<real>, ops: RealOps)
    requires PowLaws(ops)
    requires s.acceleration == ZERO && 0.0 <= s.damping <= 1.0
    requires s.inverseMass <= 0.0 || AllPositive(durations)
    ensures IntegratedOver(s, durations, ops).velocity.SquareMagnitude() <= s.velocity.SquareMagnitude()
    decreases |durations|
  {
    if durations != [] {
      var next := Integrated(s, durations[0], ops);
      assert next.inverseMass <= 0.0 || AllPositive(durations[1..]);
      SpeedNeverIncreases(next, durations[1..], ops);
      DampingNeverSpeedsUp(s, durations[0], ops);
    }
  }

  /**
   * A particle whose vectors are updated in place. `clearCount` counts the calls of
   * `ClearAccumulator`, the only thing that operation is known to do here.
   */
  class Particle {
    const position: Vector3
    const velocity: Vector3
    const acceleration: Vector3
    var damping: real
    var inverseMass: real
    ghost var clearCount: nat

    /** The three vectors are separate objects. */
    ghost predicate Valid()
      reads this
    {
      position != velocity && velocity != acceleration && position != acceleration
    }

    /** The particle's current quantities as a value. */
    function State(): ParticleState
      reads this, position, velocity, acceleration
    {
      ParticleState(position.Value(), velocity.Value(), acceleration.Value(), damping, inverseMass)
    }

    /** A particle holding the given quantities, with no accumulator clears yet. */
    constructor (s: ParticleState)
      ensures Valid() && fresh(position) && fresh(velocity) && fresh(acceleration)
      ensures State() == s && clearCount == 0
    {
      position := new Vector3.Init(s.position.x, s.position.y, s.position.z);
      velocity := new Vector3.Init(s.velocity.x, s.velocity.y, s.velocity.z);
      acceleration := new Vector3.Init(s.acceleration.x, s.acceleration.y, s.acceleration.z);
      damping := s.damping;
      inverseMass := s.inverseMass;
      clearCount := 0;
    }

    /** `clearAccumulator`: changes none of the particle's quantities. */
    method ClearAccumulator()
      modifies this`clearCount
      ensures Valid() == old(Valid())
      ensures State() == old(State())
      ensures clearCount == old(clearCount) + 1
    {
      clearCount := clearCount + 1;
    }

    /**
     * `integrate`: follows `Integrated` exactly, changes only the position and the
     * velocity, and clears the accumulator once on the finite-mass path and never
     * on the infinite-mass path.
     */
    method Integrate(duration: real, ops: RealOps)
      requires Valid()
      requires inverseMass <= 0.0 || duration > 0.0
      modifies this`clearCount, position, velocity
      ensures Valid()
      ensures State() == Integrated(old(State()), duration, ops)
      ensures clearCount == old(clearCount) + (if old(inverseMass) > 0.0 then 1 else 0)
    {
      if inverseMass <= 0.0 {
        return;
      }
      position.AddScaledVector(velocity, duration);
      var resultingAcc := new Vector3.Init(acceleration.x, acceleration.y, acceleration.z);
      velocity.AddScaledVector(resultingAcc, duration);
      velocity.ScaleInPlace(ops.pow(damping, duration));
      ClearAccumulator();
    }
  }
}
