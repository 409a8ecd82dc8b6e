# Cyclone particle core in Dafny

This project models the core of the Cyclone physics engine. It covers two pieces:

- The 3-D vector `cyclone::Vector3`, with its in-place and value-returning arithmetic, the scalar, vector and component products, magnitudes, normalization and `makeOrthonormalBasis`.
- The point-mass `cyclone::Particle`, with its Newton-Euler `integrate` step and `clearAccumulator`.

The project has three modules:

- `Precision` (`precision.dfy`) stands in for the engine's precision header. The square-root and power helpers are the value `RealOps`. The laws the proofs rely on are the predicates `SqrtLaws` and `PowLaws`. `Square` and a few facts about squares serve the magnitude proofs.
- `Core` (`core.dfy`) has two parts.
  - The value type `Vec3` carries the pure operations, and the lemmas about them sit beside it.
  - The class `Vector3` holds mutable `x`, `y`, `z` fields. Each in-place operator is a method whose postcondition ties the new value to the matching `Vec3` function of the old values. This includes the case where the argument is the very vector being updated.
  - `makeOrthonormalBasis` is a static method over three possibly aliased `Vector3` objects. Its postcondition gives the final value of each of them for every aliasing pattern.
- `Particles` (`particle.dfy`) also has two parts.
  - `ParticleState` and `Integrated` describe one integration step on values, and `IntegratedOver` describes a sequence of steps.
  - The class `Particle` owns three separate `Vector3` objects. Its `Integrate` method updates them in place and is proved to follow `Integrated`.

All arithmetic is exact arithmetic over `real`.

Two routines do not do what their own comments promise. `invert` assigns `x` twice and never touches `z`. `normalize` scales by `l/l`, which is 1. Both are modelled as written, and a corrected member sits beside each. See "## Findings".

## Model

| member | source | states |
|---|---|---|
| Core.Vec3.Scale | include/cyclone/core.h:67-70 | scaling by 1 gives the same vector back |
| Core.ScaleSquareMagnitude | include/cyclone/core.h:67-70 | scaling by k multiplies the squared magnitude by k squared |
| Core.ScaleByFractionShrinks | include/cyclone/core.h:67-70 | scaling by a factor in [0, 1] never increases the squared magnitude |
| Core.ScaleByProperFractionShrinks | include/cyclone/core.h:67-70 | scaling a non-zero vector by a factor in [0, 1) strictly decreases the squared magnitude |
| Core.ScaleScalarProduct | include/cyclone/core.h:67-70 | scaling one operand scales the scalar product by the same factor |
| Core.Vec3.Add | include/cyclone/core.h:80-83 | the sum minus either operand is the other operand |
| Core.AddCommutes | include/cyclone/core.h:80-83 | addition is commutative |
| Core.SubIsAddOfNegation | include/cyclone/core.h:94-99 | a - b equals a + (-b) |
| Core.Vec3.ComponentProduct | include/cyclone/core.h:115-120 | the components of the element-wise product sum to the scalar product |
| Core.ComponentProductCommutes | include/cyclone/core.h:115-120 | the element-wise product is commutative |
| Core.ScalarProductCommutes | include/cyclone/core.h:144-146 | the scalar product is commutative |
| Core.ScalarProductWithItself | include/cyclone/core.h:153-156 | v . v is the squared magnitude and is never negative |
| Core.ScalarProductExample | include/cyclone/core.h:144-146 | (1,2,3) . (4,5,6) = 32 |
| Core.Vec3.VectorProduct | include/cyclone/core.h:171-176 | the vector product is orthogonal to both operands |
| Core.VectorProductAntiCommutes | include/cyclone/core.h:189-193 | a x b is the negation of b x a |
| Core.VectorProductWithItself | include/cyclone/core.h:171-176 | v x v is the zero vector |
| Core.VectorProductWithZero | include/cyclone/core.h:171-176 | 0 x v is the zero vector |
| Core.VectorProductExample | include/cyclone/core.h:171-176 | (1,2,3) x (4,5,6) = (-3,6,-3) |
| Core.VectorProductOfParallel | include/cyclone/core.h:171-176 | the vector product of v with any multiple of v is the zero vector |
| Core.TripleProductExpansion | include/cyclone/core.h:171-176 | a x (c x a) = c (a . a) - a (a . c) |
| Core.LagrangeIdentity | include/cyclone/core.h:171-176 | the squared magnitude of v x w is the product of the two squared magnitudes minus the square of v . w |
| Core.Vec3.SquareMagnitude | include/cyclone/core.h:42-45 | the squared magnitude is never negative, and it is positive exactly when the vector is not zero |
| Core.MagnitudeLaws | include/cyclone/core.h:37-39 | with a lawful square root, the magnitude is non-negative, its square is the squared magnitude, and it is positive exactly when the vector is not zero |
| Core.Vec3.Negated | include/cyclone/core.h:28-34 | the intended result of `invert` is the additive inverse: it adds to the vector to give zero |
| Core.NegatedLaws | include/cyclone/core.h:28-34 | negation is scaling by -1, and negating twice gives the vector back |
| Core.InvertAsWrittenNegatesOnlyWhen | include/cyclone/core.h:29-34 | `invert` as written agrees with negation exactly when x and z are both 0 |
| Core.InvertAsWrittenCounterexample | include/cyclone/core.h:29-34 | `invert` as written turns (1,-2,3) into (-3,2,3); the negation is (-1,2,-3) |
| Core.NormalizeAsWrittenMissesUnitLength | include/cyclone/core.h:49-57 | (2,0,0), which `normalize` as written leaves as it is, has magnitude 2, not 1 |
| Core.NormalizedIsUnit | include/cyclone/core.h:47-57 | corrected normalization: the zero vector stays zero, and every other vector gets magnitude 1 |
| Core.BasisAsWrittenOrthogonal | include/cyclone/core.h:207-214 | in the basis `makeOrthonormalBasis` builds, c = a x b and b' = c x a, the pairs (c,a), (b',a) and (b',c) are orthogonal |
| Core.BasisFixedOrthonormal | include/cyclone/core.h:207-214 | with corrected normalization and a x b not zero, the three resulting vectors have magnitude 1, are pairwise orthogonal and form a right-handed triple (a x b = c) |
| Core.Vector3.constructor | include/cyclone/core.h:22 | the default constructor gives the zero vector |
| Core.Vector3.Init | include/cyclone/core.h:26 | the explicit constructor stores exactly the given components |
| Core.Vector3.Assign | include/cyclone/core.h:182 | assigning a vector value makes the vector hold exactly that value |
| Core.Vector3.Invert | include/cyclone/core.h:29-34 | `invert` as written: the new value is (-z, -y, z) of the old value |
| Core.Vector3.InvertFixed | include/cyclone/core.h:28-34 | corrected `invert`: the new value is the negation of the old value |
| Core.Vector3.Normalize | include/cyclone/core.h:49-57 | `normalize` as written: the vector is unchanged |
| Core.Vector3.NormalizeFixed | include/cyclone/core.h:47-57 | corrected `normalize`: the new value is the normalized old value |
| Core.Vector3.ScaleInPlace | include/cyclone/core.h:60-65 | `*=` gives the same value as the value-returning `*` |
| Core.Vector3.AddInPlace | include/cyclone/core.h:73-78 | `+=` gives the same value as `+`, also when the argument is the vector itself; a separate argument is unchanged |
| Core.Vector3.SubtractInPlace | include/cyclone/core.h:87-92 | `-=` gives the same value as `-`, also when aliased; a separate argument is unchanged |
| Core.Vector3.AddScaledVector | include/cyclone/core.h:102-107 | `addScaledVector(v, s)` gives the same value as `this + v * s`; a separate argument is unchanged |
| Core.Vector3.ComponentProductUpdate | include/cyclone/core.h:126-131 | `componentProductUpdate` gives the same value as `componentProduct`; a separate argument is unchanged |
| Core.Vector3.VectorProductUpdate | include/cyclone/core.h:180-183 | `%=` gives the same value as `%`, computed from the old value, so `v %= v` gives zero |
| Core.Vector3.MakeOrthonormalBasis | include/cyclone/core.h:207-214 | the final value of a, b and c for every aliasing pattern. For three distinct vectors, a is unchanged and c = a x b. If c is zero, b is unchanged; otherwise b = c x a |
| Core.Vector3.MakeOrthonormalBasisFixed | include/cyclone/core.h:207-214 | the same construction with corrected normalization, for every aliasing pattern. For three distinct vectors, a is normalized; if a x b is zero then c is zero and b is unchanged; otherwise c = normalized(a x b) and b = c x a |
| Particles.Integrated | src/particle.cpp:6-30 | one step never changes acceleration, damping or inverse mass; with inverse mass <= 0 it changes nothing; otherwise the position moves by exactly the old velocity times the duration |
| Particles.IntegratedOver | src/particle.cpp:6-30 | any number of steps keeps acceleration, damping and inverse mass unchanged |
| Particles.InfiniteMassNeverMoves | src/particle.cpp:10 | a particle with inverse mass <= 0 stays exactly as it is through any sequence of steps |
| Particles.IntegrateExample | src/particle.cpp:15-26 | at rest at the origin, under acceleration (0,-10,0) with damping 1, one second gives position 0 and velocity (0,-10,0) |
| Particles.ZeroAccelerationDamps | src/particle.cpp:22-26 | with zero acceleration the new velocity is the old velocity times pow(damping, duration) |
| Particles.DampingNeverSpeedsUp | src/particle.cpp:26 | with zero acceleration and damping in [0, 1], one step never increases the squared speed |
| Particles.DampingSlowsDown | src/particle.cpp:26 | with zero acceleration and damping in [0, 1), one step strictly decreases the squared speed of a moving finite-mass particle |
| Particles.SpeedNeverIncreases | src/particle.cpp:6-30 | with zero acceleration and damping in [0, 1], no sequence of steps increases the squared speed |
| Particles.Particle.constructor | include/cyclone/particle.h:29-65 | a new particle holds exactly the given position, velocity, acceleration, damping and inverse mass in three separate vectors |
| Particles.Particle.ClearAccumulator | include/cyclone/particle.h:74-80 | clearing the accumulator changes none of the particle's quantities and keeps the three vectors separate |
| Particles.Particle.Integrate | src/particle.cpp:6-30 | the in-place step matches `Integrated` and keeps the three vectors separate. Only position and velocity change. The accumulator is cleared once on the finite-mass path and never on the infinite-mass path |

## Left out

- Floating point: all arithmetic is exact over `real`. Rounding, overflow, infinities and NaN are not modelled, and neither is the choice between single and double precision.
- `real_sqrt` and `real_pow`: `precision.h` is not part of this model. The two helpers are the parameter `RealOps`. The model assumes only what `SqrtLaws` and `PowLaws` state: sqrt is the non-negative square root; pow(1, d) = 1; a base in [0, 1] raised to a positive exponent stays in [0, 1]; and a base in [0, 1) raised to a positive exponent stays below 1.
- The private `pad` field of `Vector3` (core.h:18) only affects memory layout, so it has no counterpart.
- `clearAccumulator`: its body is not among the repository's files. The model treats it as changing none of the particle's quantities and counts its calls in the ghost field `clearCount`.
- Operator syntax: `scalarProduct` and `operator*(const Vector3&)` have identical bodies, so both are `ScalarProduct`. Likewise `vectorProduct` and `operator%` are both `VectorProduct`. `operator*(real)` is `Scale`, `operator+` is `Add` and `operator-` is `Sub`.
- `makeOrthonormalBasis` is a non-static member function that never reads `this`, so it is a static method here. Its three pointers become object references, so null pointers are not modelled.
- A caller might expect a duration of 0 or less to be reported as an error. The code only has `assert(duration > 0.0)` after the infinite-mass return. The model follows the code and makes the assertion a precondition of `Integrate` that applies only to finite-mass particles. Builds with assertions disabled are not modelled.
- A caller might likewise expect parallel inputs to `makeOrthonormalBasis` to be reported as an error. The code returns silently after writing c = a x b, and the model follows the code.
- Particles.Particle.constructor: the C++ class declares no constructor. The model's constructor takes every initial value, because the accessors that would set them are not in the repository.
- Particles.SpeedNeverIncreases: proves that the speed never increases over many steps, and DampingSlowsDown proves a strict decrease for each step. Convergence of the speed to zero is not proved, because `PowLaws` gives no rate of decay.
- Core.Vec3.ScalarProduct: models `scalarProduct` and `operator*(const Vector3&)` (core.h:144-146, 153-156) and has no contract of its own. Its laws are stated by `Core.ScalarProductCommutes`, `Core.ScalarProductWithItself`, `Core.ScaleScalarProduct` and `Core.ScalarProductExample`.
- Core.Vec3.Magnitude: models `magnitude` (core.h:37-39) and has no contract of its own, because its laws hold only for a lawful square root. They are stated by `Core.MagnitudeLaws` under `SqrtLaws`.
- Core.Vec3.InvertedAsWritten: the value `invert` computes as written (core.h:29-34). It has no contract of its own; `Core.Vector3.Invert`, `Core.InvertAsWrittenNegatesOnlyWhen` and `Core.InvertAsWrittenCounterexample` state what it is.
- Core.Vec3.Normalized: the value `normalize` is meant to compute (core.h:47-57). It has no contract of its own, because unit length holds only for a lawful square root. `Core.NormalizedIsUnit` states it under `SqrtLaws`.
- Core.Vec3.Sub: has no contract of its own. Its meaning is stated by `Core.Vec3.Add` and `Core.SubIsAddOfNegation`.

## Findings

| source | as written | input that shows it | evidently intended | confidence | as-written member | corrected member |
|---|---|---|---|---|---|---|
| include/cyclone/core.h:33 | `invert` assigns `x = -z` as its third statement, so x is written twice and z is never negated | (1,-2,3) becomes (-3,2,3) | every component flipped: (-1,2,-3) | not executed | Core.Vector3.Invert, Core.InvertAsWrittenCounterexample | Core.Vector3.InvertFixed, Core.NegatedLaws |
| include/cyclone/core.h:55 | `normalize` multiplies by `l/l`, which is 1, so the vector never changes and `makeOrthonormalBasis` does not produce unit vectors | (2,0,0) keeps magnitude 2 | multiply by `1/l`, giving magnitude 1 | not executed | Core.Vector3.Normalize, Core.NormalizeAsWrittenMissesUnitLength | Core.Vector3.NormalizeFixed, Core.NormalizedIsUnit |
