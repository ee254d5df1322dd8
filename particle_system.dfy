/** `ParticleSystem` of crates/frontend/src/particle_system.rs: point
    particles that push each other along the line joining them, advanced by
    one explicit Euler step per `update`.

    The force model (`ParticleSystemParameters`) is a pair of functions
    supplied by the caller.  Positions, velocities and forces are
    two-dimensional vectors (`Vec2`) over reals; the square root behind
    `normalized` is the parameter `sqrt`. */
module ParticleDynamics {
  import opened FixedVector

  datatype Particle<Props> = Particle(props: Props, mass: real, position: Vec2, velocity: Vec2)

  /** `ParticleSystemParameters`: the force acting on one particle, and the
      signed magnitude of the interaction of a target particle with another. */
  datatype Parameters<!Props> = Parameters(
    externalForce: (Particle<Props>, real) -> Vec2,
    internalForce: (Particle<Props>, Particle<Props>, real) -> real)

  /** What `calculate_delta_velocity` needs of its two particles: it divides
      by both masses and by the distance between them. */
  predicate CanInteract<Props>(p0: Particle<Props>, p1: Particle<Props>)
  {
    0.0 < p0.mass && 0.0 < p1.mass && p0.position != p1.position
  }

  /** Every pair that `update` hands to `calculate_delta_velocity`: particle
      `i` with each particle `j` before it. */
  predicate Separated<Props>(ps: seq<Particle<Props>>)
  {
    forall i, j :: 0 <= j < i < |ps| ==> CanInteract(ps[i], ps[j])
  }

  // ---------------------------------------------------------------------
  // Geometry of one pair.

  /** `(p1.position - p0.position).normalized()`: the unit vector from `p0`
      towards `p1`. */
  function UnitNormal<Props>(sqrt: real -> real, p0: Particle<Props>, p1: Particle<Props>): (n: Vec2)
    requires IsSqrt(sqrt) && p0.position != p1.position
    ensures SquareLength(n) == 1.0
    ensures Length(Sub(p1.position, p0.position), sqrt) > 0.0
    ensures Scale(n, Length(Sub(p1.position, p0.position), sqrt)) == Sub(p1.position, p0.position)
  {
    var delta := Sub(p1.position, p0.position);
    SquareLengthOfDifference(p1.position, p0.position);
    SquareLengthZeroIff(delta);
    NormalizedIsUnit(delta, sqrt);
    Normalized(delta, sqrt)
  }

  /** `v!(-normal[1], normal[0])`: the normal turned a quarter turn
      counter-clockwise, so perpendicular to it and just as long. */
  function Tangent(n: Vec2): (t: Vec2)
    ensures Dot(n, t) == 0.0
    ensures SquareLength(t) == SquareLength(n)
  {
    var t: Vec2 := [-n[1], n[0]];
    SquareLengthIsDot(n);
    SquareLengthIsDot(t);
    t
  }

  /** `dv_t`: the tangential velocity change, from `p0`'s own external force only. */
  function TangentialDeltaV<Props>(params: Parameters<Props>, p0: Particle<Props>, tangent: Vec2, dt: real): (r: real)
    requires 0.0 < p0.mass
    ensures p0.mass * r == Dot(params.externalForce(p0, dt), tangent) * dt
  {
    var f0 := Dot(params.externalForce(p0, dt), tangent);
    f0 / p0.mass * dt
  }

  /** `dv_n`: the normal velocity change.  The velocities `v0` and `v1` that
      the source computes beside it are never used. */
  function NormalDeltaV<Props>(params: Parameters<Props>, p0: Particle<Props>, p1: Particle<Props>, normal: Vec2, dt: real): (r: real)
    requires 0.0 < p0.mass && 0.0 < p1.mass
    ensures dt == 0.0 ==> r == 0.0
    ensures Dot(params.externalForce(p0, dt), normal) == 0.0 && Dot(params.externalForce(p1, dt), normal) == 0.0 ==>
              r == params.internalForce(p0, p1, dt) * (1.0 / p0.mass + 1.0 / p1.mass) * dt / 2.0
  {
    var f10 := params.internalForce(p0, p1, dt);
    var f0 := Dot(params.externalForce(p0, dt), normal);
    var f1 := Dot(params.externalForce(p1, dt), normal);
    var im0 := 1.0 / p0.mass;
    var im1 := 1.0 / p1.mass;
    var dvc := (f0 + f1) / (p0.mass + p1.mass);
    (dvc - f1 * im1 + f0 * im0 + f10 * (im0 + im1)) * dt / 2.0
  }

  /** `calculate_delta_velocity(p0, p1, dt)`: the velocity change of `p0`
      caused by `p1`.  Its component along the unit normal is `dv_n` and
      its component along the tangent is `dv_t`; these two numbers fix the
      vector, since normal and tangent are orthonormal. */
  function CalculateDeltaVelocity<Props>(params: Parameters<Props>, sqrt: real -> real,
                                         p0: Particle<Props>, p1: Particle<Props>, dt: real): (r: Vec2)
    requires IsSqrt(sqrt) && CanInteract(p0, p1)
    ensures Dot(r, UnitNormal(sqrt, p0, p1))
            == NormalDeltaV(params, p0, p1, UnitNormal(sqrt, p0, p1), dt)
    ensures Dot(r, Tangent(UnitNormal(sqrt, p0, p1)))
            == TangentialDeltaV(params, p0, Tangent(UnitNormal(sqrt, p0, p1)), dt)
  {
    var normal := UnitNormal(sqrt, p0, p1);
    var tangent := Tangent(normal);
    var dvT := TangentialDeltaV(params, p0, tangent, dt);
    var dvN := NormalDeltaV(params, p0, p1, normal, dt);
    OrthonormalDecomposition(normal, dvN, dvT);
    Add(Scale(normal, dvN), Scale(tangent, dvT))
  }

  /** The coefficients of `normal * a + tangent * b` are recovered by
      projecting onto a unit normal and its tangent. */
  lemma OrthonormalDecomposition(n: Vec2, a: real, b: real)
    requires SquareLength(n) == 1.0
    ensures Dot(Add(Scale(n, a), Scale(Tangent(n), b)), n) == a
    ensures Dot(Add(Scale(n, a), Scale(Tangent(n), b)), Tangent(n)) == b
  {
    var t := Tangent(n);
    SquareLengthIsDot(n);
    SquareLengthIsDot(t);
    DotSymmetric(t, n);
    DotAddLeft(Scale(n, a), Scale(t, b), n);
    DotScaleLeft(n, a, n);
    DotScaleLeft(t, b, n);
    DotAddLeft(Scale(n, a), Scale(t, b), t);
    DotScaleLeft(n, a, t);
    DotScaleLeft(t, b, t);
  }

  /** The velocities of the pair enter the result only through the force
      model: particles that differ in velocity alone, and on which the
      force model agrees, get the same velocity change. */
  lemma DeltaVelocityIgnoresVelocities<Props>(params: Parameters<Props>, sqrt: real -> real,
                                              p0: Particle<Props>, p1: Particle<Props>,
                                              w0: Vec2, w1: Vec2, dt: real)
    requires IsSqrt(sqrt) && CanInteract(p0, p1)
    requires params.externalForce(p0.(velocity := w0), dt) == params.externalForce(p0, dt)
    requires params.externalForce(p1.(velocity := w1), dt) == params.externalForce(p1, dt)
    requires params.internalForce(p0.(velocity := w0), p1.(velocity := w1), dt) == params.internalForce(p0, p1, dt)
    ensures CalculateDeltaVelocity(params, sqrt, p0.(velocity := w0), p1.(velocity := w1), dt)
            == CalculateDeltaVelocity(params, sqrt, p0, p1, dt)
  {
    var q0, q1 := p0.(velocity := w0), p1.(velocity := w1);
    var normal := UnitNormal(sqrt, p0, p1);
    assert UnitNormal(sqrt, q0, q1) == normal;
    assert NormalDeltaV(params, q0, q1, normal, dt) == NormalDeltaV(params, p0, p1, normal, dt);
    assert TangentialDeltaV(params, q0, Tangent(normal), dt) == TangentialDeltaV(params, p0, Tangent(normal), dt);
  }

  /** Over a zero time step a pair changes no velocity. */
  lemma DeltaVelocityOfPairZeroTime<Props>(params: Parameters<Props>, sqrt: real -> real,
                                           p0: Particle<Props>, p1: Particle<Props>)
    requires IsSqrt(sqrt) && CanInteract(p0, p1)
    ensures CalculateDeltaVelocity(params, sqrt, p0, p1, 0.0) == [0.0, 0.0]
  {
    var normal := UnitNormal(sqrt, p0, p1);
    var tangent := Tangent(normal);
    var dvN := NormalDeltaV(params, p0, p1, normal, 0.0);
    var dvT := TangentialDeltaV(params, p0, tangent, 0.0);
    assert dvN == 0.0;
    assert dvT == 0.0;
    ZeroIsAdditiveIdentity(normal);
    ZeroIsAdditiveIdentity(tangent);
    ZeroIsAdditiveIdentity(Zero(2));
    assert Zero(2) == [0.0, 0.0];
  }

  // ---------------------------------------------------------------------
  // One step of the whole system, as a function of the particles.

  /** The sum of a sequence of velocity changes, added left to right onto
      `v!(0.0, 0.0)` as the inner loop of `update` adds them onto `dv`. */
  function VecSum(vs: seq<Vec2>): Vec2
    decreases |vs|
  {
    if vs == [] then [0.0, 0.0] else Add(VecSum(vs[..|vs| - 1]), vs[|vs| - 1])
  }

  /** A sum of zero vectors is the zero vector. */
  lemma {:induction false} VecSumOfZeros(vs: seq<Vec2>)
    requires forall j :: 0 <= j < |vs| ==> vs[j] == [0.0, 0.0]
    ensures VecSum(vs) == [0.0, 0.0]
    decreases |vs|
  {
    if vs != [] {
      VecSumOfZeros(vs[..|vs| - 1]);
      AddZeros();
    }
  }

  lemma AddZeros()
    ensures Add([0.0, 0.0], [0.0, 0.0]) == [0.0, 0.0]
  {
    ZeroIsAdditiveIdentity([0.0, 0.0]);
    assert Zero(2) == [0.0, 0.0];
  }

  /** The inner loop of `update` visits the particles `j` in index order
      and stops (`break`) on reaching `j == i`: particle `i` receives one
      contribution from each particle before it, and none from itself or
      from the particles after it. */
  function Contributions<Props>(params: Parameters<Props>, sqrt: real -> real,
                                ps: seq<Particle<Props>>, i: nat, dt: real): (cs: seq<Vec2>)
    requires IsSqrt(sqrt) && Separated(ps) && i < |ps|
    ensures |cs| == i
  {
    seq(i, j requires 0 <= j < i => CalculateDeltaVelocity(params, sqrt, ps[i], ps[j], dt))
  }

  /** The `dv` with which `update` accelerates particle `i`. */
  function DeltaVelocity<Props>(params: Parameters<Props>, sqrt: real -> real,
                                ps: seq<Particle<Props>>, i: nat, dt: real): Vec2
    requires IsSqrt(sqrt) && Separated(ps) && i < |ps|
  {
    VecSum(Contributions(params, sqrt, ps, i, dt))
  }

  /** One more turn of the inner loop of `update` adds the contribution of
      particle `j` to the partial sum. */
  lemma NextContribution<Props>(params: Parameters<Props>, sqrt: real -> real,
                                ps: seq<Particle<Props>>, i: nat, j: nat, dt: real)
    requires IsSqrt(sqrt) && Separated(ps) && j < i < |ps|
    ensures VecSum(Contributions(params, sqrt, ps, i, dt)[..j + 1])
            == Add(VecSum(Contributions(params, sqrt, ps, i, dt)[..j]),
                   CalculateDeltaVelocity(params, sqrt, ps[i], ps[j], dt))
  {
    var cs := Contributions(params, sqrt, ps, i, dt);
    assert cs[..j + 1][..j] == cs[..j];
  }

  /** `clone.velocity += dv` */
  function Accelerated<Props>(p: Particle<Props>, dv: Vec2): (q: Particle<Props>)
    ensures q.props == p.props && q.mass == p.mass && q.position == p.position
    ensures Sub(q.velocity, p.velocity) == dv
  {
    var q := p.(velocity := Add(p.velocity, dv));
    assert forall k :: 0 <= k < 2 ==> Sub(q.velocity, p.velocity)[k] == dv[k];
    q
  }

  /** `p.position += p.velocity * delta_time` */
  function Moved<Props>(p: Particle<Props>, dt: real): (q: Particle<Props>)
    ensures q.props == p.props && q.mass == p.mass && q.velocity == p.velocity
    ensures Sub(q.position, p.position) == Scale(p.velocity, dt)
  {
    var q := p.(position := Add(p.position, Scale(p.velocity, dt)));
    assert forall k :: 0 <= k < 2 ==> Sub(q.position, p.position)[k] == Scale(p.velocity, dt)[k];
    q
  }

  /** What the first loop of `update` pushes into the second buffer. */
  function Accelerate<Props>(params: Parameters<Props>, sqrt: real -> real,
                             ps: seq<Particle<Props>>, dt: real): (r: seq<Particle<Props>>)
    requires IsSqrt(sqrt) && Separated(ps)
    ensures |r| == |ps|
  {
    seq(|ps|, i requires 0 <= i < |ps| => Accelerated(ps[i], DeltaVelocity(params, sqrt, ps, i, dt)))
  }

  /** The prefixes of `Accelerate` grow one particle at a time. */
  lemma AcceleratePrefix<Props>(params: Parameters<Props>, sqrt: real -> real,
                                ps: seq<Particle<Props>>, i: nat, dt: real)
    requires IsSqrt(sqrt) && Separated(ps) && i < |ps|
    ensures Accelerate(params, sqrt, ps, dt)[..i + 1]
            == Accelerate(params, sqrt, ps, dt)[..i] + [Accelerated(ps[i], DeltaVelocity(params, sqrt, ps, i, dt))]
  {
    var r := Accelerate(params, sqrt, ps, dt);
    assert r[i] == Accelerated(ps[i], DeltaVelocity(params, sqrt, ps, i, dt));
    TakeOneMore(r, i);
  }

  /** Pushing the next element of `full` onto a buffer that holds `base`
      followed by a prefix of `full` extends that prefix by one. */
  lemma Push<T>(buffer: seq<T>, base: seq<T>, full: seq<T>, i: nat, x: T)
    requires i < |full| && buffer == base + full[..i] && full[..i + 1] == full[..i] + [x]
    ensures buffer + [x] == base + full[..i + 1]
  {
    assert buffer + [x] == base + (full[..i] + [x]);
  }

  lemma TakeAll<T>(s: seq<T>)
    ensures s[..|s|] == s
  {
  }

  lemma TakeOneMore<T>(s: seq<T>, i: nat)
    requires i < |s|
    ensures s[..i + 1] == s[..i] + [s[i]]
  {
  }

  /** What the second loop of `update` makes of a buffer. */
  function MoveAll<Props>(ps: seq<Particle<Props>>, dt: real): (r: seq<Particle<Props>>)
    ensures |r| == |ps|
  {
    seq(|ps|, i requires 0 <= i < |ps| => Moved(ps[i], dt))
  }

  /** The particles after one `update` that started with an empty second buffer. */
  function Step<Props>(params: Parameters<Props>, sqrt: real -> real,
                       ps: seq<Particle<Props>>, dt: real): seq<Particle<Props>>
    requires IsSqrt(sqrt) && Separated(ps)
  {
    MoveAll(Accelerate(params, sqrt, ps, dt), dt)
  }

  /** A step keeps the number and order of the particles and their `props`
      and `mass`; particle `i` gains the velocity change from the particles
      before it and then moves with its new velocity. */
  lemma StepParticle<Props>(params: Parameters<Props>, sqrt: real -> real,
                            ps: seq<Particle<Props>>, dt: real, i: nat)
    requires IsSqrt(sqrt) && Separated(ps) && i < |ps|
    ensures |Step(params, sqrt, ps, dt)| == |ps|
    ensures Step(params, sqrt, ps, dt)[i].props == ps[i].props
    ensures Step(params, sqrt, ps, dt)[i].mass == ps[i].mass
    ensures Step(params, sqrt, ps, dt)[i].velocity
            == Add(ps[i].velocity, DeltaVelocity(params, sqrt, ps, i, dt))
    ensures Step(params, sqrt, ps, dt)[i].position
            == Add(ps[i].position, Scale(Step(params, sqrt, ps, dt)[i].velocity, dt))
  {
  }

  /** The first particle has no particle before it, so its velocity never changes. */
  lemma FirstParticleKeepsVelocity<Props>(params: Parameters<Props>, sqrt: real -> real,
                                          ps: seq<Particle<Props>>, dt: real)
    requires IsSqrt(sqrt) && Separated(ps) && 0 < |ps|
    ensures Step(params, sqrt, ps, dt)[0].velocity == ps[0].velocity
  {
    StepParticle(params, sqrt, ps, dt, 0);
    assert Contributions(params, sqrt, ps, 0, dt) == [];
    ZeroIsAdditiveIdentity(ps[0].velocity);
    assert Zero(2) == [0.0, 0.0];
  }

  /** The change of particle `i` depends only on particles `0 .. i`: the
      particles after it never contribute. */
  lemma DeltaVelocityFromLowerIndices<Props>(params: Parameters<Props>, sqrt: real -> real,
                                             ps: seq<Particle<Props>>, qs: seq<Particle<Props>>,
                                             i: nat, dt: real)
    requires IsSqrt(sqrt) && Separated(ps) && Separated(qs)
    requires i < |ps| && i < |qs| && ps[..i + 1] == qs[..i + 1]
    ensures DeltaVelocity(params, sqrt, ps, i, dt) == DeltaVelocity(params, sqrt, qs, i, dt)
  {
    var cp, cq := Contributions(params, sqrt, ps, i, dt), Contributions(params, sqrt, qs, i, dt);
    forall j | 0 <= j < i ensures cp[j] == cq[j] {
      assert ps[i] == ps[..i + 1][i] == qs[i];
      assert ps[j] == ps[..i + 1][j] == qs[j];
    }
    assert cp == cq;
  }

  /** With a zero time step every accumulated change is zero. */
  lemma DeltaVelocityZeroTime<Props>(params: Parameters<Props>, sqrt: real -> real,
                                     ps: seq<Particle<Props>>, i: nat)
    requires IsSqrt(sqrt) && Separated(ps) && i < |ps|
    ensures DeltaVelocity(params, sqrt, ps, i, 0.0) == [0.0, 0.0]
  {
    var cs := Contributions(params, sqrt, ps, i, 0.0);
    forall j | 0 <= j < i ensures cs[j] == [0.0, 0.0] {
      DeltaVelocityOfPairZeroTime(params, sqrt, ps[i], ps[j]);
    }
    VecSumOfZeros(cs);
  }

  /** A step of zero duration changes nothing. */
  lemma ZeroTimeStepChangesNothing<Props>(params: Parameters<Props>, sqrt: real -> real,
                                          ps: seq<Particle<Props>>)
    requires IsSqrt(sqrt) && Separated(ps)
    ensures Step(params, sqrt, ps, 0.0) == ps
  {
    var r := Step(params, sqrt, ps, 0.0);
    forall i | 0 <= i < |ps| ensures r[i] == ps[i] {
      StepParticle(params, sqrt, ps, 0.0, i);
      DeltaVelocityZeroTime(params, sqrt, ps, i);
      ZeroIsAdditiveIdentity(ps[i].velocity);
      ZeroIsAdditiveIdentity(ps[i].position);
      assert Zero(2) == [0.0, 0.0];
    }
  }

  // ---------------------------------------------------------------------
  // The double-buffered system.

  class ParticleSystem<Props> {
    /** The current particles. */
    var particles0: seq<Particle<Props>>
    /** Scratch space that one `update` fills and then swaps in. */
    var particles1: seq<Particle<Props>>
    const params: Parameters<Props>
    /** The square root of the scalar type, used by `normalized`. */
    const sqrt: real -> real

    /** `ParticleSystem::new` */
    constructor (params: Parameters<Props>, sqrt: real -> real, particles: seq<Particle<Props>>)
      ensures particles0 == particles && particles1 == []
      ensures this.params == params && this.sqrt == sqrt
    {
      this.params := params;
      this.sqrt := sqrt;
      particles0 := particles;
      particles1 := [];
    }

    /** The inner loop of `update`: sums the velocity changes that the
        particles before `source[i]` cause in it, stopping at `j == i`. */
    method AccumulateDeltaVelocity(source: seq<Particle<Props>>, i: nat, dt: real) returns (dv: Vec2)
      requires IsSqrt(sqrt) && Separated(source) && i < |source|
      ensures dv == DeltaVelocity(params, sqrt, source, i, dt)
    {
      var p0 := source[i];
      dv := [0.0, 0.0];
      var j := 0;
      while j < |source|
        invariant 0 <= j <= i
        invariant dv == VecSum(Contributions(params, sqrt, source, i, dt)[..j])
      {
        if i == j {
          break;
        }
        NextContribution(params, sqrt, source, i, j, dt);
        dv := Add(dv, CalculateDeltaVelocity(params, sqrt, p0, source[j], dt));
        j := j + 1;
      }
      assert Contributions(params, sqrt, source, i, dt)[..j] == Contributions(params, sqrt, source, i, dt);
    }

    /** The second loop of `update`: moves every particle of the second
        buffer along its velocity. */
    method MoveBuffer(dt: real)
      modifies this
      ensures particles0 == old(particles0)
      ensures particles1 == MoveAll(old(particles1), dt)
    {
      ghost var target := particles1;
      var k := 0;
      while k < |particles1|
        invariant 0 <= k <= |particles1| == |target|
        invariant particles0 == old(particles0)
        invariant particles1 == MoveAll(target[..k], dt) + target[k..]
      {
        particles1 := particles1[k := Moved(particles1[k], dt)];
        k := k + 1;
      }
      assert target[..k] == target;
    }

    /** The first loop of `update`: pushes onto the second buffer a copy of
        every current particle with its velocity changed by `dv`. */
    method PushAccelerated(dt: real)
      requires IsSqrt(sqrt) && Separated(particles0)
      modifies this
      ensures particles0 == old(particles0)
      ensures particles1 == old(particles1) + Accelerate(params, sqrt, particles0, dt)
    {
      var source := particles0;
      ghost var accelerated := Accelerate(params, sqrt, source, dt);
      var i := 0;
      while i < |source|
        invariant 0 <= i <= |source|
        invariant particles0 == source
        invariant particles1 == old(particles1) + accelerated[..i]
      {
        var p0 := source[i];
        var dv := AccumulateDeltaVelocity(source, i, dt);
        var clone := p0.(velocity := Add(p0.velocity, dv));
        AcceleratePrefix(params, sqrt, source, i, dt);
        Push(particles1, old(particles1), accelerated, i, clone);
        particles1 := particles1 + [clone];
        i := i + 1;
      }
      TakeAll(accelerated);
    }

    /** `update(delta_time)`: computes every particle's new velocity into the
        second buffer, moves everything in that buffer, then empties the
        first buffer and swaps the two. */
    method Update(dt: real)
      requires IsSqrt(sqrt) && Separated(particles0)
      modifies this
      ensures particles1 == []
      ensures particles0 == MoveAll(old(particles1) + Accelerate(params, sqrt, old(particles0), dt), dt)
      ensures old(particles1) == [] ==> particles0 == Step(params, sqrt, old(particles0), dt)
      ensures |particles0| == |old(particles1)| + |old(particles0)|
    {
      PushAccelerated(dt);
      MoveBuffer(dt);
      particles0 := [];
      particles0, particles1 := particles1, particles0;
    }
  }
}
