/**
 * `ElementRigidBody`: a physics rigid body that tracks when its synced
 * properties change, derives how far around it blocks must stay loaded,
 * writes and reads its state to and from a tag, and applies fluid drag from
 * the block it sits in.
 *
 * The solver base class (`PhysicsRigidBody`) is represented by its state:
 * mass, friction, restitution, orientation, location, velocities, the half
 * extent of the bounding box, and the log of central forces and impulses
 * applied to it.
 */
module RigidBody {
  import opened Wrappers
  import opened Geometry
  import opened Numerics
  import opened Nbt
  import opened Space
  import opened Drag

  /** Identifies a player entity; the body only refers to it. */
  type PlayerId = nat

  /** Identifies an interpolation frame; the body stores it without looking inside. */
  type FrameId = nat

  const DefaultMass: real := 1.0
  const DefaultDragCoefficient: real := 0.05
  const DefaultFriction: real := 1.0
  const DefaultRestitution: real := 0.5

  const OrientationKey: string := "orientation"
  const LinearVelocityKey: string := "linear_velocity"
  const AngularVelocityKey: string := "angular_velocity"
  const DragCoefficientKey: string := "drag_coefficient"
  const MassKey: string := "mass"
  const FrictionKey: string := "friction"
  const RestitutionKey: string := "restitution"

  /** Everything a body holds, as one value. */
  datatype BodyState = BodyState(
    mass: real,
    friction: real,
    restitution: real,
    dragCoefficient: real,
    rotation: Quat,
    location: Vec3,
    linearVelocity: Vec3,
    angularVelocity: Vec3,
    extent: Vec3,
    envLoadDistance: int,
    doFluidResistance: bool,
    priorityPlayer: Option<PlayerId>,
    frame: Option<FrameId>,
    propertiesDirty: bool,
    applied: seq<DragAction>)

  /**
   * `calculateLoadDistance`: `(int) |extent| + 1` in 32-bit arithmetic. The
   * cast truncates, so the result exceeds the extent's length by at most one
   * and is not its ceiling plus one. Below a length of 2^31 - 1 the result is
   * at least 1; from there on the cast saturates and the addition wraps to
   * the most negative `int`.
   */
  function LoadDistance(extent: Vec3): (d: int)
    ensures LengthSquared(extent) < (IntMax * IntMax) as real ==>
      d >= 1 && ((d - 1) * (d - 1)) as real <= LengthSquared(extent) < (d * d) as real
    ensures LengthSquared(extent) >= (IntMax * IntMax) as real ==> d == IntMin
  {
    var n := FloorLength(extent);
    if n < IntMax then
      assert LengthSquared(extent) < (IntMax * IntMax) as real by {
        NatSquareMonotone(IntMax, n);
        assert n + 1 <= IntMax;
        NatSquareMonotone(IntMax, n + 1);
      }
      Wrap32(SaturatingCast(n) + 1)
    else
      assert LengthSquared(extent) >= (IntMax * IntMax) as real by {
        NatSquareMonotone(n, IntMax);
      }
      Wrap32(SaturatingCast(n) + 1)
  }

  /** A half extent of length 1.5 gives a load distance of 2, where rounding up would give 3. */
  lemma LoadDistanceTruncates()
    ensures LoadDistance(Vec3(1.5, 0.0, 0.0)) == 2
  {
    FloorLengthUnique(Vec3(1.5, 0.0, 0.0), 1);
  }

  /** The seven entries `toTag` writes. */
  function Written(s: BodyState): Compound {
    map[
      OrientationKey := QuaternionTag(s.rotation),
      LinearVelocityKey := VectorTag(s.linearVelocity),
      AngularVelocityKey := VectorTag(s.angularVelocity),
      DragCoefficientKey := FloatTag(s.dragCoefficient),
      MassKey := FloatTag(s.mass),
      FrictionKey := FloatTag(s.friction),
      RestitutionKey := FloatTag(s.restitution)]
  }

  /**
   * The state `fromTag` leaves: nothing changes when the stored mass is 0;
   * otherwise the seven stored values replace the body's, and the property
   * setters among them mark the body dirty.
   */
  function Restored(s: BodyState, t: Compound): BodyState {
    if GetFloat(t, MassKey) == 0.0 then s
    else s.(
      rotation := GetQuaternion(t, OrientationKey),
      linearVelocity := GetVector(t, LinearVelocityKey),
      angularVelocity := GetVector(t, AngularVelocityKey),
      dragCoefficient := GetFloat(t, DragCoefficientKey),
      mass := GetFloat(t, MassKey),
      friction := GetFloat(t, FrictionKey),
      restitution := GetFloat(t, RestitutionKey),
      propertiesDirty := true)
  }

  /** Merging the written entries into a tag is the same as putting them one by one. */
  lemma WrittenByPuts(m: Compound, s: BodyState)
    ensures m + Written(s) ==
      m[OrientationKey := QuaternionTag(s.rotation)]
       [LinearVelocityKey := VectorTag(s.linearVelocity)]
       [AngularVelocityKey := VectorTag(s.angularVelocity)]
       [DragCoefficientKey := FloatTag(s.dragCoefficient)]
       [MassKey := FloatTag(s.mass)]
       [FrictionKey := FloatTag(s.friction)]
       [RestitutionKey := FloatTag(s.restitution)]
  {
  }

  /** The tag written from a body holds exactly the seven keys. */
  lemma WrittenKeys(s: BodyState)
    ensures Written(s).Keys ==
      {OrientationKey, LinearVelocityKey, AngularVelocityKey, DragCoefficientKey, MassKey, FrictionKey, RestitutionKey}
  {
  }

  /** A record whose mass reads as 0 is ignored entirely, the dirty flag included. */
  lemma AbsentMassIsIgnored(s: BodyState, t: Compound)
    requires GetFloat(t, MassKey) == 0.0
    ensures Restored(s, t) == s
  {
  }

  /**
   * Writing a body of non-zero mass into any tag and reading that tag into
   * another body copies orientation, both velocities, drag coefficient, mass,
   * friction and restitution, marks the target dirty, and leaves the rest of
   * the target as it was.
   */
  lemma RoundTrip(src: BodyState, dst: BodyState, prior: Compound)
    requires src.mass != 0.0
    ensures Restored(dst, prior + Written(src)) == dst.(
      rotation := src.rotation,
      linearVelocity := src.linearVelocity,
      angularVelocity := src.angularVelocity,
      dragCoefficient := src.dragCoefficient,
      mass := src.mass,
      friction := src.friction,
      restitution := src.restitution,
      propertiesDirty := true)
  {
  }

  /** What the drag step reads from the body, the space and the world. */
  function DragInputOf(s: BodyState, cfg: Config, world: World): DragInput {
    var density := MediumDensity(world(MaxCorner(s.location, s.extent)), cfg);
    DragInput(density, cfg.airDensity, s.dragCoefficient, s.mass, cfg.gravity, s.extent, s.linearVelocity)
  }

  /** The action of one drag step: none at all when fluid resistance is off. */
  function StepAction(s: BodyState, cfg: Config, world: World): DragAction {
    if s.doFluidResistance then Decide(DragInputOf(s, cfg, world)) else NoAction
  }

  /** The solver calls an action amounts to. */
  function Recorded(a: DragAction): seq<DragAction> {
    if a.NoAction? then [] else [a]
  }

  /**
   * In a loaded chunk of lava or water the step stops a descending body of
   * non-negative mass whenever `k` is positive; with fluid resistance off it
   * never acts.
   */
  lemma StepInDenseMedium(s: BodyState, cfg: Config, world: World)
    requires s.doFluidResistance
    requires world(MaxCorner(s.location, s.extent)) in {Some(Water), Some(Lava)}
    requires cfg.waterDensity != cfg.airDensity && cfg.lavaDensity != cfg.airDensity
    requires s.mass >= 0.0 && DragConstant(DragInputOf(s, cfg, world)) > 0.0 && s.linearVelocity.y < 0.0
    ensures StepAction(s, cfg, world) == Impulse(Scale(s.linearVelocity, -s.mass))
  {
    DescendingBodyInDenseMedium(DragInputOf(s, cfg, world));
  }

  class ElementRigidBody {
    /** The physics space the body lives in: its densities and gravity. */
    const space: Config

    var mass: real
    var friction: real
    var restitution: real
    var rotation: Quat
    var location: Vec3
    var linearVelocity: Vec3
    var angularVelocity: Vec3
    var extent: Vec3
    var applied: seq<DragAction>

    var propertiesDirty: bool
    var envLoadDistance: int
    var dragCoefficient: real
    var doFluidResistance: bool
    var priorityPlayer: Option<PlayerId>
    var frame: Option<FrameId>

    function State(): BodyState
      reads this
    {
      BodyState(mass, friction, restitution, dragCoefficient, rotation, location, linearVelocity,
        angularVelocity, extent, envLoadDistance, doFluidResistance, priorityPlayer, frame,
        propertiesDirty, applied)
    }

    /**
     * A body of the given shape and properties, at rest at the origin. The
     * setters the constructor goes through leave it dirty.
     */
    constructor (space: Config, extent: Vec3, mass: real, dragCoefficient: real, friction: real,
                 restitution: real, doFluidResistance: bool)
      ensures this.space == space
      ensures State() == BodyState(mass, friction, restitution, dragCoefficient, Identity, Zero, Zero,
        Zero, extent, LoadDistance(extent), doFluidResistance, None, None, true, [])
    {
      this.space := space;
      this.extent := extent;
      this.mass := mass;
      this.friction := 0.5;
      this.restitution := 0.0;
      rotation := Identity;
      location := Zero;
      linearVelocity := Zero;
      angularVelocity := Zero;
      applied := [];
      propertiesDirty := false;
      envLoadDistance := 0;
      this.dragCoefficient := 0.0;
      this.doFluidResistance := false;
      priorityPlayer := None;
      frame := None;
      new;
      SetDragCoefficient(dragCoefficient);
      SetFriction(friction);
      SetRestitution(restitution);
      SetEnvironmentLoadDistance(LoadDistance(this.extent));
      SetDoFluidResistance(doFluidResistance);
    }

    /** A body with mass 1.0, drag coefficient 0.05, friction 1.0, restitution 0.5 and fluid resistance on. */
    static method WithDefaults(space: Config, extent: Vec3) returns (b: ElementRigidBody)
      ensures fresh(b) && b.space == space
      ensures b.State() == BodyState(DefaultMass, DefaultFriction, DefaultRestitution,
        DefaultDragCoefficient, Identity, Zero, Zero, Zero, extent, LoadDistance(extent), true, None,
        None, true, [])
    {
      b := new ElementRigidBody(space, extent, DefaultMass, DefaultDragCoefficient, DefaultFriction,
        DefaultRestitution, true);
    }

    method SetPropertiesDirty(propertiesDirty: bool)
      modifies this
      ensures State() == old(State()).(propertiesDirty := propertiesDirty)
    {
      this.propertiesDirty := propertiesDirty;
    }

    method ArePropertiesDirty() returns (dirty: bool)
      ensures dirty == propertiesDirty
    {
      dirty := propertiesDirty;
    }

    method SetMass(mass: real)
      modifies this
      ensures State() == old(State()).(mass := mass, propertiesDirty := true)
    {
      this.mass := mass;
      SetPropertiesDirty(true);
    }

    method SetDragCoefficient(dragCoefficient: real)
      modifies this
      ensures State() == old(State()).(dragCoefficient := dragCoefficient, propertiesDirty := true)
    {
      this.dragCoefficient := dragCoefficient;
      SetPropertiesDirty(true);
    }

    method SetFriction(friction: real)
      modifies this
      ensures State() == old(State()).(friction := friction, propertiesDirty := true)
    {
      this.friction := friction;
      SetPropertiesDirty(true);
    }

    method SetRestitution(restitution: real)
      modifies this
      ensures State() == old(State()).(restitution := restitution, propertiesDirty := true)
    {
      this.restitution := restitution;
      SetPropertiesDirty(true);
    }

    method SetEnvironmentLoadDistance(envLoadDistance: int)
      modifies this
      ensures State() == old(State()).(envLoadDistance := envLoadDistance, propertiesDirty := true)
    {
      this.envLoadDistance := envLoadDistance;
      SetPropertiesDirty(true);
    }

    method SetDoFluidResistance(doFluidResistance: bool)
      modifies this
      ensures State() == old(State()).(doFluidResistance := doFluidResistance, propertiesDirty := true)
    {
      this.doFluidResistance := doFluidResistance;
      SetPropertiesDirty(true);
    }

    method Prioritize(player: Option<PlayerId>)
      modifies this
      ensures State() == old(State()).(priorityPlayer := player, propertiesDirty := true)
    {
      priorityPlayer := player;
      SetPropertiesDirty(true);
    }

    /** The frame is not a synced property: setting it leaves the dirty flag alone. */
    method SetFrame(frame: Option<FrameId>)
      modifies this
      ensures State() == old(State()).(frame := frame)
    {
      this.frame := frame;
    }

    /** Replacing the shape recomputes the load distance from the new extent and marks the body dirty. */
    method SetCollisionShape(extent: Vec3)
      modifies this
      ensures State() == old(State()).(extent := extent, envLoadDistance := LoadDistance(extent),
        propertiesDirty := true)
    {
      this.extent := extent;
      SetEnvironmentLoadDistance(LoadDistance(this.extent));
    }

    method GetMass() returns (r: real)
      ensures r == mass
    {
      r := mass;
    }

    method GetFriction() returns (r: real)
      ensures r == friction
    {
      r := friction;
    }

    method GetRestitution() returns (r: real)
      ensures r == restitution
    {
      r := restitution;
    }

    method GetDragCoefficient() returns (r: real)
      ensures r == dragCoefficient
    {
      r := dragCoefficient;
    }

    method GetEnvironmentLoadDistance() returns (r: int)
      ensures r == envLoadDistance
    {
      r := envLoadDistance;
    }

    method ShouldDoFluidResistance() returns (r: bool)
      ensures r == doFluidResistance
    {
      r := doFluidResistance;
    }

    method GetPriorityPlayer() returns (r: Option<PlayerId>)
      ensures r == priorityPlayer
    {
      r := priorityPlayer;
    }

    /** The solver's own setters: they do not touch the dirty flag. */
    method SetPhysicsRotation(rotation: Quat)
      modifies this
      ensures State() == old(State()).(rotation := rotation)
    {
      this.rotation := rotation;
    }

    method SetLinearVelocity(velocity: Vec3)
      modifies this
      ensures State() == old(State()).(linearVelocity := velocity)
    {
      linearVelocity := velocity;
    }

    method SetAngularVelocity(velocity: Vec3)
      modifies this
      ensures State() == old(State()).(angularVelocity := velocity)
    {
      angularVelocity := velocity;
    }

    method ApplyCentralImpulse(impulse: Vec3)
      modifies this
      ensures State() == old(State()).(applied := old(applied) + [Impulse(impulse)])
    {
      applied := applied + [Impulse(impulse)];
    }

    method ApplyCentralForce(force: Vec3)
      modifies this
      ensures State() == old(State()).(applied := old(applied) + [Force(force)])
    {
      applied := applied + [Force(force)];
    }

    /** Reads a tag written by `ToTag`; a stored mass of 0 leaves the body untouched. */
    method FromTag(tag: CompoundTag)
      modifies this
      ensures State() == Restored(old(State()), tag.entries)
    {
      var t := tag.entries;
      if GetFloat(t, MassKey) == 0.0 {
        return;
      }
      SetPhysicsRotation(GetQuaternion(t, OrientationKey));
      SetLinearVelocity(GetVector(t, LinearVelocityKey));
      SetAngularVelocity(GetVector(t, AngularVelocityKey));
      SetDragCoefficient(GetFloat(t, DragCoefficientKey));
      SetMass(GetFloat(t, MassKey));
      SetFriction(GetFloat(t, FrictionKey));
      SetRestitution(GetFloat(t, RestitutionKey));
    }

    /** Writes the seven entries into `tag`, keeping any others it holds. */
    method ToTag(tag: CompoundTag)
      modifies tag
      ensures tag.entries == old(tag.entries) + Written(State())
    {
      WrittenByPuts(tag.entries, State());
      tag.Put(OrientationKey, QuaternionTag(rotation));
      tag.Put(LinearVelocityKey, VectorTag(linearVelocity));
      tag.Put(AngularVelocityKey, VectorTag(angularVelocity));
      tag.Put(DragCoefficientKey, FloatTag(dragCoefficient));
      tag.Put(MassKey, FloatTag(mass));
      tag.Put(FrictionKey, FloatTag(friction));
      tag.Put(RestitutionKey, FloatTag(restitution));
    }

    /**
     * One drag step: probe the block at the bounding box's maximum corner,
     * pick the medium's density and apply at most one central impulse or
     * force; nothing else about the body changes.
     */
    method ApplyDrag(world: World)
      modifies this
      ensures State() == old(State()).(applied := old(applied) + Recorded(StepAction(old(State()), space, world)))
      ensures !old(doFluidResistance) ==> applied == old(applied)
    {
      if doFluidResistance {
        var block := world(MaxCorner(location, extent));
        var drag := MediumDensity(block, space);
        var input := DragInput(drag, space.airDensity, dragCoefficient, mass, space.gravity, extent, linearVelocity);
        var k := DragConstant(input);
        var force := DragForce(linearVelocity, k);
        if drag != space.airDensity && AboveNegProduct(force.y, mass, LengthSquared(space.gravity)) {
          ApplyCentralImpulse(Scale(linearVelocity, -mass));
        } else if IsFiniteFloat(LengthSquared(force)) && LengthSquared(force) > Sq(ForceThreshold) {
          ApplyCentralForce(force);
        }
      }
    }
  }

  /**
   * The replication pass: clearing the flag and reading it back, with no
   * setter in between, reads false.
   */
  method ClearThenRead(b: ElementRigidBody) returns (dirty: bool)
    modifies b
    ensures !dirty
    ensures b.State() == old(b.State()).(propertiesDirty := false)
  {
    b.SetPropertiesDirty(false);
    dirty := b.ArePropertiesDirty();
  }

  /**
   * Sending a body's state through a tag: `toTag` on the source, then
   * `fromTag` on the target.
   */
  method Transfer(src: ElementRigidBody, dst: ElementRigidBody, tag: CompoundTag)
    requires src.mass != 0.0
    modifies dst, tag
    ensures dst.State() == old(dst.State()).(
      rotation := old(src.rotation),
      linearVelocity := old(src.linearVelocity),
      angularVelocity := old(src.angularVelocity),
      dragCoefficient := old(src.dragCoefficient),
      mass := old(src.mass),
      friction := old(src.friction),
      restitution := old(src.restitution),
      propertiesDirty := true)
  {
    src.ToTag(tag);
    RoundTrip(src.State(), dst.State(), old(tag.entries));
    dst.FromTag(tag);
  }
}
