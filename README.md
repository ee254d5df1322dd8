# particle_shooting — a Dafny model of the particle simulation core

This project models the simulation core of `particle_shooting`, a browser
toy in which coloured point particles push and pull each other.

- **`FixedVector`** (`fixed_vector.dfy`) models the crate `fixed_vector`.
  - A `Vector<T, N>` value is a `seq<real>` whose length is `N`.
  - The by-value operators `+`, `-`, scalar `*` and unary `-` are element-wise maps over one vector or over two zipped vectors, as in the crate.
  - `dot`, `square_length`, `length` and `normalized` are functions.
  - The in-place operators `+=`, `-=` and `*=`, `index_mut`, and the constructors `new`, `default` and `unsafe_from_iter` belong to the class `Vector`, which wraps an `array<real>` of length `N`.
  - The square root is a parameter `sqrt`. `IsSqrt(sqrt)` states that it returns the non-negative root.
- **`ParticleDynamics`** (`particle_system.dfy`) models `ParticleSystem`.
  - The force model `ParticleSystemParameters` is a pair of caller-supplied functions.
  - `calculate_delta_velocity` is specified by its components along the unit normal and the tangent of the pair.
  - `update` is a method on the two particle buffers. It is proved to equal `Step`, a functional description of one explicit Euler step. Properties of that step are proved as lemmas.
- **`Particles`** (`particles.dfy`) models the helpers of the `Particles` component:
  - the sorted vector map `FrozenSortedMap`, whose `from_iter` sorts an array in place and whose `get` is a binary search;
  - the table of kind pairs that the component builds;
  - the piecewise-linear `internal_force` law of `ParticleParam`;
  - the lazily initialised cell `TryLazy`.
- **`Wrappers`** holds `Option` and `Result`. `Result.Panic` stands for a Rust panic, such as an `unwrap` of `None` or an index out of bounds.

Three properties of the code shape the model:

- **Only earlier particles contribute.** The inner loop of `update` ends with `break` when it reaches `j == i`. So particle `i` receives contributions only from the particles before it, and none from itself or from later ones. `Contributions`, `FirstParticleKeepsVelocity` and `DeltaVelocityFromLowerIndices` state this.
- **Nothing guards against coincident particles.** `normalized` divides by the length, and `calculate_delta_velocity` divides by both masses.
  - The model therefore requires positive masses and distinct positions for every pair that `update` visits (`CanInteract`, `Separated`).
- **Unused velocities.** `calculate_delta_velocity` computes the velocities `v0` and `v1` and never uses them (`DeltaVelocityIgnoresVelocities`).

## Model

| member | source | states |
|---|---|---|
| FixedVector.Add | crates/fixed_vector/src/fixed_vector.rs:30-32 | `a + b` keeps the length `N`, and component `i` is `a[i] + b[i]` |
| FixedVector.Sub | crates/fixed_vector/src/fixed_vector.rs:49-51 | `a - b` keeps the length, and component `i` is `a[i] - b[i]` |
| FixedVector.Scale | crates/fixed_vector/src/fixed_vector.rs:65-67 | `v * s` keeps the length, and component `i` is `v[i] * s` |
| FixedVector.Neg | crates/fixed_vector/src/fixed_vector.rs:80-82 | `-v` keeps the length, and component `i` is `-v[i]` |
| FixedVector.AddSubRoundTrip | crates/fixed_vector/src/fixed_vector.rs:30-51 | subtraction undoes addition: `(a + b) - b == a` |
| FixedVector.NegIsScaleByMinusOne | crates/fixed_vector/src/fixed_vector.rs:65-82 | negation is scaling by `-1` |
| FixedVector.ZeroIsAdditiveIdentity | crates/fixed_vector/src/fixed_vector.rs:122-126 | the default vector is the identity of `+`, and scaling by zero gives it |
| FixedVector.DotSymmetric | crates/fixed_vector/src/fixed_vector.rs:159-161 | `a.dot(b) == b.dot(a)` |
| FixedVector.DotAddLeft | crates/fixed_vector/src/fixed_vector.rs:159-161 | `dot` distributes over `+` in its first argument |
| FixedVector.DotScaleLeft | crates/fixed_vector/src/fixed_vector.rs:159-161 | a scalar factor moves out of `dot` |
| FixedVector.Dot | crates/fixed_vector/src/fixed_vector.rs:159-161 | for two components, `dot` is `a[0] * b[0] + a[1] * b[1]`; `DotSymmetric`, `DotAddLeft`, `DotScaleLeft` and `SquareLengthIsDot` give its algebra for any `N` |
| FixedVector.SumNonNegative | crates/fixed_vector/src/fixed_vector.rs:163-165 | a sum of non-negative terms is non-negative |
| FixedVector.SumZeroIff | crates/fixed_vector/src/fixed_vector.rs:163-165 | a sum of non-negative terms is zero exactly when every term is zero |
| FixedVector.SumPointwiseAdd | crates/fixed_vector/src/fixed_vector.rs:159-161 | the sum of element-wise sums is the sum of the two sums |
| FixedVector.SumPointwiseScale | crates/fixed_vector/src/fixed_vector.rs:159-161 | the sum of a scaled sequence is the scaled sum |
| FixedVector.SquareLength | crates/fixed_vector/src/fixed_vector.rs:163-165 | `square_length` is never negative |
| FixedVector.SquareLengthIsDot | crates/fixed_vector/src/fixed_vector.rs:159-165 | `v.square_length() == v.dot(v)` |
| FixedVector.SquareLengthZeroIff | crates/fixed_vector/src/fixed_vector.rs:163-165 | `square_length` is zero exactly for the zero vector |
| FixedVector.SquareLengthOfDifference | crates/fixed_vector/src/fixed_vector.rs:163-165 | the squared distance `(a - b).square_length()` is zero exactly when `a == b` |
| FixedVector.SquareLengthSubSymmetric | crates/fixed_vector/src/fixed_vector.rs:163-165 | the squared distance is symmetric in its two points |
| FixedVector.Length | crates/fixed_vector/src/fixed_vector.rs:172-174 | with a true square root, `length` is non-negative and squares to `square_length` |
| FixedVector.LengthNonZero | crates/fixed_vector/src/fixed_vector.rs:172-174 | a non-zero vector has positive length |
| FixedVector.Normalized | crates/fixed_vector/src/fixed_vector.rs:177-181 | `normalized` keeps the length `N`; component `i` is `v[i]` divided by `v.length()`; scaling the result by `v.length()` gives `v` back |
| FixedVector.NormalizedIsUnit | crates/fixed_vector/src/fixed_vector.rs:177-181 | a normalized non-zero vector has squared length 1 |
| FixedVector.Vector.New | crates/fixed_vector/src/fixed_vector.rs:133-135 | `new` stores the given components unchanged |
| FixedVector.Vector.Default | crates/fixed_vector/src/fixed_vector.rs:122-126 | `default` has `N` zero components |
| FixedVector.Vector.FromIter | crates/fixed_vector/src/fixed_vector.rs:145-152 | `unsafe_from_iter` over exactly `N` items holds those items in order |
| FixedVector.Vector.Size | crates/fixed_vector/src/fixed_vector.rs:129-131 | `size()` is the number of components |
| FixedVector.Vector.Index | crates/fixed_vector/src/fixed_vector.rs:11-16 | `v[i]` succeeds exactly when `i < N` and then returns component `i`; otherwise it panics |
| FixedVector.Vector.IndexMut | crates/fixed_vector/src/fixed_vector.rs:18-22 | writing `v[i]` changes component `i` only; out of bounds it panics and changes nothing |
| FixedVector.Vector.AddAssign | crates/fixed_vector/src/fixed_vector.rs:35-41 | `+=` leaves the value `Add(old value, rhs)` in place |
| FixedVector.Vector.SubAssign | crates/fixed_vector/src/fixed_vector.rs:54-60 | `-=` leaves the value `Sub(old value, rhs)` in place |
| FixedVector.Vector.MulAssign | crates/fixed_vector/src/fixed_vector.rs:69-75 | `*=` leaves the value `Scale(old value, s)` in place |
| ParticleDynamics.UnitNormal | crates/frontend/src/particle_system.rs:48 | the normal has length 1 and points from `p0` towards `p1`: the distance is positive, and the normal times the distance is `p1.position - p0.position` |
| ParticleDynamics.Tangent | crates/frontend/src/particle_system.rs:49 | the tangent is perpendicular to the normal and just as long |
| ParticleDynamics.TangentialDeltaV | crates/frontend/src/particle_system.rs:55-60 | `dv_t` is an impulse: mass times `dv_t` is the external force along the tangent times `dt` |
| ParticleDynamics.NormalDeltaV | crates/frontend/src/particle_system.rs:61-72 | `dv_n` is zero over a zero time step; with no external force along the normal it is `f10 * (1/m0 + 1/m1) * dt / 2` |
| ParticleDynamics.CalculateDeltaVelocity | crates/frontend/src/particle_system.rs:42-75 | the change of velocity has component `dv_n` along the unit normal and `dv_t` along the tangent |
| ParticleDynamics.OrthonormalDecomposition | crates/frontend/src/particle_system.rs:74 | `normal * a + tangent * b` projects back onto `a` and `b`, so the result is determined by `dv_n` and `dv_t` |
| ParticleDynamics.DeltaVelocityIgnoresVelocities | crates/frontend/src/particle_system.rs:42-75 | the velocities of the pair matter only through the force model; the computed `v0` and `v1` play no part |
| ParticleDynamics.DeltaVelocityOfPairZeroTime | crates/frontend/src/particle_system.rs:55-74 | over a zero time step a pair causes no change of velocity |
| ParticleDynamics.VecSumOfZeros | crates/frontend/src/particle_system.rs:83-89 | accumulating zero changes onto `v!(0.0, 0.0)` leaves the zero vector |
| ParticleDynamics.Contributions | crates/frontend/src/particle_system.rs:84-89 | particle `i` receives exactly `i` contributions, one from each particle before it |
| ParticleDynamics.NextContribution | crates/frontend/src/particle_system.rs:84-89 | one turn of the inner loop adds the contribution of particle `j` to the partial sum |
| ParticleDynamics.Accelerated | crates/frontend/src/particle_system.rs:91-93 | the clone keeps `props`, `mass` and position, and its velocity grows by exactly `dv` |
| ParticleDynamics.Moved | crates/frontend/src/particle_system.rs:96-98 | moving keeps `props`, `mass` and velocity, and the position grows by exactly `velocity * dt` |
| ParticleDynamics.Accelerate | crates/frontend/src/particle_system.rs:82-94 | the first loop produces one particle for each current particle |
| ParticleDynamics.AcceleratePrefix | crates/frontend/src/particle_system.rs:91-93 | the second buffer grows by the accelerated clone of particle `i` and nothing else |
| ParticleDynamics.MoveAll | crates/frontend/src/particle_system.rs:96-98 | the second loop keeps the number of particles |
| ParticleDynamics.StepParticle | crates/frontend/src/particle_system.rs:77-102 | a step keeps the number, order, `props` and `mass` of the particles; velocity `i` gains the accumulated `dv`, and position `i` then moves by the new velocity times `dt` |
| ParticleDynamics.FirstParticleKeepsVelocity | crates/frontend/src/particle_system.rs:84-89 | the first particle breaks out of the inner loop at once, so its velocity never changes |
| ParticleDynamics.DeltaVelocityFromLowerIndices | crates/frontend/src/particle_system.rs:84-89 | the change of particle `i` depends only on particles `0..=i`: later particles never contribute |
| ParticleDynamics.DeltaVelocityZeroTime | crates/frontend/src/particle_system.rs:83-89 | with `dt == 0` every accumulated `dv` is zero |
| ParticleDynamics.ZeroTimeStepChangesNothing | crates/frontend/src/particle_system.rs:77-102 | an update of zero duration leaves every particle as it was |
| ParticleDynamics.ParticleSystem.constructor | crates/frontend/src/particle_system.rs:31-40 | `new` stores the parameters and the particles, with an empty second buffer |
| ParticleDynamics.ParticleSystem.AccumulateDeltaVelocity | crates/frontend/src/particle_system.rs:83-89 | the inner loop, stopped by `break` at `j == i`, sums exactly the contributions of the particles before `i` |
| ParticleDynamics.ParticleSystem.PushAccelerated | crates/frontend/src/particle_system.rs:82-94 | the first loop appends the accelerated clones of all current particles, in order, to the second buffer |
| ParticleDynamics.ParticleSystem.MoveBuffer | crates/frontend/src/particle_system.rs:96-98 | the second loop moves every particle of the second buffer and touches nothing else |
| ParticleDynamics.ParticleSystem.Update | crates/frontend/src/particle_system.rs:77-102 | after `update` the current buffer holds the moved, accelerated particles after whatever the second buffer held, and the second buffer is empty; from an empty second buffer the result is exactly `Step` |
| Particles.FromIter | crates/frontend/src/particles.rs:190-196 | `from_iter` yields entries sorted by key that are a permutation of the input |
| Particles.InsertLast | crates/frontend/src/particles.rs:193 | one insertion round makes `a[..i + 1]` sorted and a permutation of its old contents, and leaves `a[i + 1..]` unchanged |
| Particles.PrefixPermutation | crates/frontend/src/particles.rs:193 | two permutations of each other that agree from `n` on are permutations of each other before `n` |
| Particles.SwapKeepsInserting | crates/frontend/src/particles.rs:193 | swapping the moving entry past a strictly greater key keeps both parts sorted |
| Particles.InsertingDone | crates/frontend/src/particles.rs:193 | once the moving entry meets a key no greater than its own, the prefix is sorted |
| Particles.Search | crates/frontend/src/particles.rs:201 | a found index lies in range and holds the key; on sorted entries, not found means no entry in range has the key |
| Particles.Get | crates/frontend/src/particles.rs:199-203 | a value returned is stored under the key; on a sorted map, `get` finds a value exactly when the key is present |
| Particles.PermutationKeepsKeys | crates/frontend/src/particles.rs:190-196 | sorting does not add or lose keys |
| Particles.Row | crates/frontend/src/particles.rs:131 | the inner `map` yields the keys `(k0, k1)`, `(k0, k1 + 1)`, … below `KINDS`, each with its drawn value |
| Particles.RowsKeys | crates/frontend/src/particles.rs:130-132 | the `flat_map` yields exactly the oriented kind pairs `k0 <= k1 < KINDS` |
| Particles.RowsStrictlySorted | crates/frontend/src/particles.rs:130-132 | the `flat_map` yields its keys in strictly increasing order |
| Particles.KindTable | crates/frontend/src/particles.rs:130-132 | the table has every pair of kinds `a <= b < KINDS`, only such pairs, and no key twice |
| Particles.TableHoldsEveryPair | crates/frontend/src/particles.rs:130-132 | after sorting, every pair of kinds below `KINDS` is present in one orientation |
| Particles.Coefficients | crates/frontend/src/particles.rs:52-57 | the coefficients come from the pair as given or swapped; on a sorted table the pair as given wins whenever it is present (`or_else`), and the lookup fails exactly when neither orientation is present |
| Particles.InternalForce | crates/frontend/src/particles.rs:46-69 | on a sorted table, `internal_force` panics exactly when neither orientation of the kind pair is present. Otherwise it applies the force law, for coefficients stored under the pair, to the distance between the particles, using `(target, other)` whenever that key is present |
| Particles.InternalForceDefined | crates/frontend/src/particles.rs:52-57 | with the table that the component builds, `internal_force` never panics for kinds below `KINDS` |
| Particles.InternalForceSymmetric | crates/frontend/src/particles.rs:52-59 | with one orientation per kind pair, swapping target and other gives the same force |
| Particles.PiecewiseForce | crates/frontend/src/particles.rs:60-68 | the force law is zero at `D_0` and at and beyond `D_MAX`; with non-negative coefficients it is repulsive (at most zero) below `D_0` and attractive (at least zero) from `D_0` on |
| Particles.RepulsionPiece | crates/frontend/src/particles.rs:60-61 | below `D_0` the force changes with slope `params.x` |
| Particles.RisingPiece | crates/frontend/src/particles.rs:62-63 | between `D_0` and `D_1` the force changes with slope `params.y` |
| Particles.FallingPiece | crates/frontend/src/particles.rs:64-65 | between `D_1` and `D_MAX` the force changes with slope `-params.y / 2` |
| Particles.ForceLipschitz | crates/frontend/src/particles.rs:60-68 | the force law has no jumps: it is Lipschitz continuous in the distance with constant `|params.x| + |params.y|` |
| Particles.TryLazy.constructor | crates/frontend/src/particles.rs:228-232 | `new` stores the initializer, which has not run |
| Particles.TryLazy.Get | crates/frontend/src/particles.rs:215-226 | `get` on an initialised cell returns the stored value without running the initializer. On an uninitialised cell it runs the initializer once: it stores and returns a value, or panics with nothing stored |

## Left out

- Floating point: scalars are `real`, so rounding, NaN and infinities are not modelled. `Normalized`, `CalculateDeltaVelocity` and `Update` instead require what keeps the code away from division by zero: a non-zero vector, positive masses and distinct positions.
- The square root (`crates/fixed_vector/src/sqrt.rs` and the `Sqrt` traits) is a parameter `sqrt`. `IsSqrt` states what is assumed of it.
- `external_force` of `ParticleParam` draws random numbers (`rnd_vec`). Like the whole force model of `ParticleSystem`, it is a function parameter.
- The random draw of each coefficient pair in the kind table is a function `draw` of the key. The random starting particles built in the same component are not modelled.
- The `IntoIterator` impls, `iter`, `iter_mut`, `Copy`/`Clone`, the `vector!` macro and the code generator of `crates/fixed_vector/generator` are not part of this model. Only what the operators compute is modelled.
- Drawing (`drawing.rs`), the web glue (`glue.rs`, `closures.rs`), the animation-frame loop, the canvas and the `html!` component are not part of this model: they are I/O. `particles()`, called by the component, is not part of this model either.
- `ParticleParam` is not assembled into a `Parameters` value. Its `internal_force` can panic (`InternalForce` returns a `Result`), while the force model of `ParticleDynamics` is a total function. `InternalForceDefined` shows that with the table the component builds, that panic cannot happen.
- FrozenSortedMap: the keys are fixed to the type `(usize, usize)` that the component uses, not any `Ord` type.
- Particles.FromIter: `sort_by` is modelled as an in-place insertion sort. The stability of Rust's sort is not stated.
- Particles.Get: the index `binary_search_by_key` returns among duplicate keys is not pinned down. The model only states that the found entry has the key.
- Particles.TryLazy.Get: the initializer is a pure function. The state an `FnMut` closure keeps between calls, and the `UnsafeCell` aliasing, are not modelled. The ghost counter `calls` records how often the initializer runs.
- FixedVector.Vector.FromIter: requires exactly `N` items. The crate leaves components uninitialised when the iterator is short and indexes out of bounds when it is long.
- FixedVector.Sum: a right fold. Rust's `sum` is a left fold, but the two agree over reals.
