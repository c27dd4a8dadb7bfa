# ElementRigidBody, modelled in Dafny

Rayon's `ElementRigidBody` is the rigid body that a physics element (an
entity) owns inside Rayon's physics space. On top of the solver's rigid body it
adds four things:

- a *dirty flag*: every property setter sets it, and the replication layer
  reads it and clears it;
- an *environment load distance*, `(int) |extent| + 1`, recomputed whenever
  the collision shape changes;
- a *tag serialiser* that writes seven entries to a `CompoundTag` and reads
  them back, ignoring any record whose mass reads as 0;
- a *per-step drag decision*: it samples the block at the bounding box's
  maximum corner, picks that medium's density, computes a quadratic drag force
  and applies either a stopping impulse, that force, or nothing.

The body is the class `RigidBody.ElementRigidBody`. Its fields are the
source's own fields plus the solver state the source reads and writes: mass,
friction, restitution, orientation, location, both velocities, the bounding
box's half extent, and a log of the central impulses and forces applied. Every
method states the body's whole new state through `State()`. The lemmas about
the specification functions `LoadDistance`, `Written`/`Restored` and
`Decide` state what those promise.

Floats are modelled as reals, so lengths need square roots, which Dafny's reals
lack. Every comparison with a length is therefore made on squared lengths, and
the lemmas restate it for any `s >= 0` with `s * s` equal to the squared
length (`Geometry.IsLengthOf`).

Modules:

- `Numerics`: 32-bit wrap-around, the saturating `(int)` cast, the finite float range.
- `Geometry`: vectors, quaternions, squared length, integer square root.
- `Nbt`: the tag.
- `Space`: blocks, the world and the medium density.
- `Drag`: the drag decision as a pure function.
- `RigidBody`: the body.

Where the code and prose descriptions of it disagree, the model follows the code:

- The load distance truncates the extent's length and adds one; it does not
  take the ceiling. `LoadDistanceTruncates` shows an extent of length 1.5
  giving 2. It is at least 1 only while the length is below 2^31 - 1. From
  there on the cast saturates and the `+ 1` wraps to -2^31.
- The drag "area" is the squared extent length squared again, so `k` grows
  with the fourth power of the extent's length.
- The stopping test compares the *signed* vertical drag component with minus
  the weight: `force.y > -(mass * |g|)`, not the force's magnitude. A body at
  rest in water therefore receives the (zero) impulse (`RestingBodyInDenseMedium`).
- A freshly constructed body is dirty, because the constructor goes through the
  property setters.

## Model

| member | source | states |
|---|---|---|
| `RigidBody.ElementRigidBody.constructor` | src/main/java/dev/lazurite/rayon/impl/bullet/body/ElementRigidBody.java:59-68 | the body holds the given mass, drag coefficient, friction, restitution and fluid flag, sits at rest at the origin with identity orientation, has the load distance of its extent, no priority player, no frame, no applied actions, and is dirty |
| `RigidBody.ElementRigidBody.WithDefaults` | src/main/java/dev/lazurite/rayon/impl/bullet/body/ElementRigidBody.java:70-72 | the same with mass 1.0, drag coefficient 0.05, friction 1.0, restitution 0.5 and fluid resistance on |
| `Numerics.SaturatingCast` | src/main/java/dev/lazurite/rayon/impl/bullet/body/ElementRigidBody.java:89 | Java's `(int)` of a non-negative float is its integer part, capped at 2^31 - 1 |
| `Numerics.Wrap32` | src/main/java/dev/lazurite/rayon/impl/bullet/body/ElementRigidBody.java:89 | the `+ 1` in `int` arithmetic: the result is in the 32-bit range, congruent to the exact sum modulo 2^32, and equal to it when it is in range |
| `Geometry.ISqrt` | src/main/java/dev/lazurite/rayon/impl/bullet/body/ElementRigidBody.java:89 | the integer square root: `r*r <= n < (r+1)*(r+1)` |
| `Geometry.FloorLength` | src/main/java/dev/lazurite/rayon/impl/bullet/body/ElementRigidBody.java:89 | the truncated length of a vector: `n*n <= |v|^2 < (n+1)*(n+1)` |
| `Geometry.FloorLengthUnique` | src/main/java/dev/lazurite/rayon/impl/bullet/body/ElementRigidBody.java:89 | any natural with that property is the truncated length |
| `RigidBody.LoadDistance` | src/main/java/dev/lazurite/rayon/impl/bullet/body/ElementRigidBody.java:88-90 | below a length of 2^31 - 1 the load distance `d` is at least 1 and `(d-1)^2 <= |extent|^2 < d^2`, i.e. truncated length plus one; from there on it is -2^31 |
| `RigidBody.LoadDistanceTruncates` | src/main/java/dev/lazurite/rayon/impl/bullet/body/ElementRigidBody.java:89 | an extent of length 1.5 gets load distance 2, not the 3 a ceiling would give |
| `RigidBody.ElementRigidBody.FromTag` | src/main/java/dev/lazurite/rayon/impl/bullet/body/ElementRigidBody.java:92-105 | the new state is `Restored(old state, tag)`: unchanged when the stored mass is 0, otherwise the seven stored values replace the body's and the body is dirty |
| `RigidBody.AbsentMassIsIgnored` | src/main/java/dev/lazurite/rayon/impl/bullet/body/ElementRigidBody.java:93 | a record whose mass reads as 0 changes nothing, the dirty flag included |
| `RigidBody.ElementRigidBody.ToTag` | src/main/java/dev/lazurite/rayon/impl/bullet/body/ElementRigidBody.java:107-118 | the tag afterwards is its old entries overridden by the seven written ones, and the body is untouched |
| `RigidBody.WrittenKeys` | src/main/java/dev/lazurite/rayon/impl/bullet/body/ElementRigidBody.java:107-118 | the written record has exactly the seven keys |
| `RigidBody.RoundTrip` | src/main/java/dev/lazurite/rayon/impl/bullet/body/ElementRigidBody.java:92-118 | for a source of non-zero mass, reading back what was written copies orientation, both velocities, drag coefficient, mass, friction and restitution, marks the target dirty, and leaves every other field of the target as it was |
| `RigidBody.Transfer` | src/main/java/dev/lazurite/rayon/impl/bullet/body/ElementRigidBody.java:92-118 | the round trip carried out on two bodies and a tag through `ToTag` and `FromTag` |
| `Nbt.CompoundTag.Put` | src/main/java/dev/lazurite/rayon/impl/bullet/body/ElementRigidBody.java:109-117 | a put adds the entry, replacing any earlier one under that key |
| `RigidBody.ElementRigidBody.SetCollisionShape` | src/main/java/dev/lazurite/rayon/impl/bullet/body/ElementRigidBody.java:120-124 | the new extent is stored, the load distance is recomputed from it, the body is dirty, and nothing else changes |
| `RigidBody.ElementRigidBody.SetFrame` | src/main/java/dev/lazurite/rayon/impl/bullet/body/ElementRigidBody.java:126-128 | stores the frame and leaves everything else, the dirty flag included, unchanged |
| `RigidBody.ElementRigidBody.SetPropertiesDirty` | src/main/java/dev/lazurite/rayon/impl/bullet/body/ElementRigidBody.java:146-148 | sets the flag to the argument and changes nothing else |
| `RigidBody.ElementRigidBody.ArePropertiesDirty` | src/main/java/dev/lazurite/rayon/impl/bullet/body/ElementRigidBody.java:150-152 | returns the flag and changes nothing |
| `RigidBody.ClearThenRead` | src/main/java/dev/lazurite/rayon/impl/bullet/body/ElementRigidBody.java:146-152 | clearing the flag and then reading it, with no setter between, reads false; only the flag changes |
| `Space.MediumDensity` | src/main/java/dev/lazurite/rayon/impl/bullet/body/ElementRigidBody.java:173-186 | lava gives lava density, water gives water density, any other block or an unloaded chunk gives air density |
| `Drag.AboveNegProductMeans` | src/main/java/dev/lazurite/rayon/impl/bullet/body/ElementRigidBody.java:189-198 | the square-root-free test is exactly `force.y > -(mass * |g|)` |
| `Drag.ImpulseRule` | src/main/java/dev/lazurite/rayon/impl/bullet/body/ElementRigidBody.java:198-200 | the impulse is chosen if and only if the density differs from air and `force.y > -(mass * |g|)`, and it is `-v * mass` |
| `Drag.ForceRule` | src/main/java/dev/lazurite/rayon/impl/bullet/body/ElementRigidBody.java:198-203 | otherwise the force is applied if and only if it is finite and longer than 0.1, and it is `v * (-|v|^2) * k`; nothing is applied exactly when neither test passes |
| `Drag.DragForceLength` | src/main/java/dev/lazurite/rayon/impl/bullet/body/ElementRigidBody.java:190-196 | with `k >= 0` the candidate force is `k * |v|^3` long |
| `Drag.DragForceOpposesMotion` | src/main/java/dev/lazurite/rayon/impl/bullet/body/ElementRigidBody.java:193-196 | a non-zero candidate force with `k >= 0` points against the velocity |
| `Drag.DragOpposesMotion` | src/main/java/dev/lazurite/rayon/impl/bullet/body/ElementRigidBody.java:188-202 | an applied drag force points against the velocity when density and drag coefficient are non-negative |
| `Drag.ImpulseStopsBody` | src/main/java/dev/lazurite/rayon/impl/bullet/body/ElementRigidBody.java:198-200 | the stopping impulse brings the linear velocity to zero: `v + impulse / mass == 0` |
| `Drag.RestingBodyInDenseMedium` | src/main/java/dev/lazurite/rayon/impl/bullet/body/ElementRigidBody.java:193-200 | a body at rest in a medium other than air, with positive mass and non-zero gravity, gets the zero impulse |
| `Drag.DescendingBodyInDenseMedium` | src/main/java/dev/lazurite/rayon/impl/bullet/body/ElementRigidBody.java:190-200 | a body of non-negative mass moving down into a medium other than air, with `k > 0`, is stopped by the impulse |
| `RigidBody.StepInDenseMedium` | src/main/java/dev/lazurite/rayon/impl/bullet/body/ElementRigidBody.java:164-200 | the same for a body, through the block sampled at its maximum corner being water or lava |
| `RigidBody.ElementRigidBody.ApplyDrag` | src/main/java/dev/lazurite/rayon/impl/bullet/body/ElementRigidBody.java:164-205 | the only change is to the applied log, which grows by the action `Decide` picks for the sampled medium and the body's state, or by nothing when fluid resistance is off |
| `RigidBody.ElementRigidBody.SetMass` | src/main/java/dev/lazurite/rayon/impl/bullet/body/ElementRigidBody.java:209-213 | stores the mass, marks dirty, changes nothing else |
| `RigidBody.ElementRigidBody.SetDragCoefficient` | src/main/java/dev/lazurite/rayon/impl/bullet/body/ElementRigidBody.java:215-218 | stores the drag coefficient, marks dirty, changes nothing else |
| `RigidBody.ElementRigidBody.SetFriction` | src/main/java/dev/lazurite/rayon/impl/bullet/body/ElementRigidBody.java:220-224 | stores the friction, marks dirty, changes nothing else |
| `RigidBody.ElementRigidBody.SetRestitution` | src/main/java/dev/lazurite/rayon/impl/bullet/body/ElementRigidBody.java:226-230 | stores the restitution, marks dirty, changes nothing else |
| `RigidBody.ElementRigidBody.SetEnvironmentLoadDistance` | src/main/java/dev/lazurite/rayon/impl/bullet/body/ElementRigidBody.java:232-235 | stores the load distance, marks dirty, changes nothing else |
| `RigidBody.ElementRigidBody.SetDoFluidResistance` | src/main/java/dev/lazurite/rayon/impl/bullet/body/ElementRigidBody.java:237-240 | stores the fluid flag, marks dirty, changes nothing else |
| `RigidBody.ElementRigidBody.Prioritize` | src/main/java/dev/lazurite/rayon/impl/bullet/body/ElementRigidBody.java:242-245 | stores the priority player (or none), marks dirty, changes nothing else |
| `RigidBody.ElementRigidBody.GetMass` | src/main/java/dev/lazurite/rayon/impl/bullet/body/ElementRigidBody.java:247-252 | returns the mass and changes nothing |
| `RigidBody.ElementRigidBody.GetFriction` | src/main/java/dev/lazurite/rayon/impl/bullet/body/ElementRigidBody.java:247-252 | returns the friction and changes nothing |
| `RigidBody.ElementRigidBody.GetRestitution` | src/main/java/dev/lazurite/rayon/impl/bullet/body/ElementRigidBody.java:247-252 | returns the restitution and changes nothing |
| `RigidBody.ElementRigidBody.GetPriorityPlayer` | src/main/java/dev/lazurite/rayon/impl/bullet/body/ElementRigidBody.java:254-256 | returns the priority player and changes nothing |
| `RigidBody.ElementRigidBody.GetDragCoefficient` | src/main/java/dev/lazurite/rayon/impl/bullet/body/ElementRigidBody.java:258-260 | returns the drag coefficient and changes nothing |
| `RigidBody.ElementRigidBody.GetEnvironmentLoadDistance` | src/main/java/dev/lazurite/rayon/impl/bullet/body/ElementRigidBody.java:262-264 | returns the load distance and changes nothing |
| `RigidBody.ElementRigidBody.ShouldDoFluidResistance` | src/main/java/dev/lazurite/rayon/impl/bullet/body/ElementRigidBody.java:266-268 | returns the fluid flag and changes nothing |

## Left out

- Float arithmetic: rounding, NaN and infinities, and float `==` are not modelled. Values are exact reals.
  - `Float.isFinite(force.length())` is read as "the squared length does not exceed `Float.MAX_VALUE`". That is where a float `lengthSquared` overflows.
  - The constants 0.05f and 0.1f are taken as the exact decimals.
- The round trip is exact on reals. Bit-exactness of the stored floats is a property of the float encoding, which is not modelled.
- The jME/Bullet solver is represented by its state: `setMass`, `setFriction` and `setRestitution` store their value, and `applyCentralImpulse` and `applyCentralForce` append to a log.
  - Its dynamics are not modelled.
  - Minie's rejection of invalid masses (an exception) is not modelled.
  - Its default friction and restitution before the constructor's setters run are taken as 0.5 and 0.
- The field `extent` stands for the half extent of the body's current axis-aligned bounding box, centred on `location`. How the solver derives that box from the collision shape and the orientation is not modelled.
- `RigidBody.ElementRigidBody.SetCollisionShape` takes the new shape's extent rather than a shape, for that reason.
- World access is a function `World` from a point to the block there, or `None` when the chunk is not loaded. Flooring the point to a `BlockPos` and the chunk lookup happen inside it.
- `QuaternionHelper` and `VectorHelper` are not part of this model. Nested quaternion and vector compounds are opaque values. A missing one reads as all zeros, as reading an empty compound would.
- The `Entity` constructor is left out: it looks up the space in a registry and builds a shape from the entity's bounding box. `WithDefaults` covers what it then does.
- The accessors `getFrame`, `getElement`, `getSpace` and `isInNoClip`, and the constant debug colour and layer, are left out: they carry no logic.
- The physics element itself is left out: the body only stores it.
- Players and frames are identifiers; their contents are not part of this model.
- `Disassembler.java` (client-side render capture) is not part of this model.
- `Rayon.java` (a lookup in an external component registry) is not part of this model.
- Concurrency is not modelled; the body is used by one simulation thread.
