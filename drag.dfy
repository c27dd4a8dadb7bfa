/**
 * The per-step fluid-drag decision of the rigid body, as a pure function of
 * what the step reads: the sampled medium density, the space's air density
 * and gravity, and the body's drag coefficient, mass, bounding-box extent and
 * linear velocity. The step issues at most one of a central impulse and a
 * central force.
 */
module Drag {
  import opened Geometry
  import opened Numerics

  datatype DragAction = NoAction | Impulse(impulse: Vec3) | Force(force: Vec3)

  /** Forces whose length does not exceed this are dropped. */
  const ForceThreshold: real := 0.1

  datatype DragInput = DragInput(
    density: real,
    airDensity: real,
    dragCoefficient: real,
    mass: real,
    gravity: Vec3,
    extent: Vec3,
    velocity: Vec3)

  /** What the step calls the area: the squared extent length, squared again. */
  function Area(extent: Vec3): real {
    LengthSquared(extent) * LengthSquared(extent)
  }

  /** `k = density * dragCoefficient * area / 2`. */
  function DragConstant(s: DragInput): real {
    s.density * s.dragCoefficient * Area(s.extent) / 2.0
  }

  /** The quadratic drag force `v * (-|v|^2) * k`. */
  function DragForce(v: Vec3, k: real): Vec3 {
    Scale(Scale(v, -LengthSquared(v)), k)
  }

  /** The drag force the step computes before deciding what to apply. */
  function CandidateForce(s: DragInput): Vec3 {
    DragForce(s.velocity, DragConstant(s))
  }

  /** `y > -(m * |g|)` where `g2` is `|g|^2`, decided without a square root. */
  predicate AboveNegProduct(y: real, m: real, g2: real) {
    if m >= 0.0 then y > 0.0 || Sq(m) * g2 > Sq(y)
    else y > 0.0 && Sq(y) > Sq(m) * g2
  }

  /** The dense-medium test: not air, and `force.y > -gravitationalForce`. */
  predicate StopsInMedium(s: DragInput) {
    s.density != s.airDensity && AboveNegProduct(CandidateForce(s).y, s.mass, LengthSquared(s.gravity))
  }

  /** `Float.isFinite(force.length()) && force.length() > 0.1`, on the squared length. */
  predicate ForceApplies(s: DragInput) {
    var l2 := LengthSquared(CandidateForce(s));
    IsFiniteFloat(l2) && l2 > Sq(ForceThreshold)
  }

  /** The one action the drag step takes, in the order the step tests them. */
  function Decide(s: DragInput): DragAction {
    if StopsInMedium(s) then Impulse(Scale(s.velocity, -s.mass))
    else if ForceApplies(s) then Force(CandidateForce(s))
    else NoAction
  }

  /** The square-free test means what it stands for, for the true length `g` of gravity. */
  lemma {:induction false} AboveNegProductMeans(y: real, m: real, g2: real, g: real)
    requires g >= 0.0 && Sq(g) == g2
    ensures AboveNegProduct(y, m, g2) <==> y > -(m * g)
  {
    var p := m * g;
    SquareOfProduct(m, g);
    SquareOfNegation(y);
    SquareOfNegation(p);
    if m >= 0.0 {
      MulNonNegative(m, g);
      if y <= 0.0 {
        SquareMonotone(p, -y);
      }
    } else {
      MulNonPositive(m, g);
      if y > 0.0 {
        SquareMonotone(y, -p);
      }
    }
  }

  /**
   * The impulse is chosen exactly when the medium is denser than air and the
   * drag force's vertical component exceeds minus the body's weight; it is
   * minus the momentum.
   */
  lemma ImpulseRule(s: DragInput, g: real)
    requires IsLengthOf(g, s.gravity)
    ensures Decide(s).Impulse? <==> s.density != s.airDensity && CandidateForce(s).y > -(s.mass * g)
    ensures Decide(s).Impulse? ==> Decide(s).impulse == Scale(s.velocity, -s.mass)
  {
    AboveNegProductMeans(CandidateForce(s).y, s.mass, LengthSquared(s.gravity), g);
  }

  /**
   * Otherwise the drag force itself is applied exactly when its squared length
   * is a finite float and its length `f` exceeds the threshold; in every
   * other case nothing is applied.
   */
  lemma ForceRule(s: DragInput, g: real, f: real)
    requires IsLengthOf(g, s.gravity)
    requires IsLengthOf(f, CandidateForce(s))
    ensures Decide(s).Force? <==>
      !(s.density != s.airDensity && CandidateForce(s).y > -(s.mass * g))
      && IsFiniteFloat(LengthSquared(CandidateForce(s))) && f > ForceThreshold
    ensures Decide(s).Force? ==> Decide(s).force == CandidateForce(s)
    ensures Decide(s).NoAction? <==>
      !(s.density != s.airDensity && CandidateForce(s).y > -(s.mass * g))
      && !(IsFiniteFloat(LengthSquared(CandidateForce(s))) && f > ForceThreshold)
  {
    AboveNegProductMeans(CandidateForce(s).y, s.mass, LengthSquared(s.gravity), g);
    SquareMonotone(f, ForceThreshold);
  }

  /** The quadratic drag law: with `k >= 0`, the force is `k * |v|^2 * |v|` long. */
  lemma {:induction false} DragForceLength(v: Vec3, k: real, speed: real)
    requires k >= 0.0
    requires IsLengthOf(speed, v)
    ensures IsLengthOf(k * Sq(speed) * speed, DragForce(v, k))
  {
    var l := LengthSquared(v);
    var c := -(l * k);
    assert DragForce(v, k) == Scale(v, c);
    LengthSquaredOfScale(v, c);
    SquareOfNegation(l * k);
    assert l * k == k * l;
    SquareOfProduct(k * l, speed);
    MulNonNegative(k, l);
    MulNonNegative(k * l, speed);
  }

  /** A non-zero drag force with `k >= 0` points against the velocity. */
  lemma DragForceOpposesMotion(v: Vec3, k: real)
    requires k >= 0.0
    requires DragForce(v, k) != Zero
    ensures Dot(DragForce(v, k), v) < 0.0
  {
    var l := LengthSquared(v);
    var c := -(l * k);
    assert DragForce(v, k) == Scale(v, c);
    DotOfScale(v, c);
    if k == 0.0 || l == 0.0 {
      assert false;
    }
    MulPositive(l, k);
    MulNegative(c, l);
  }

  /** A body at rest feels no drag. */
  lemma DragForceAtRest(k: real)
    ensures DragForce(Zero, k) == Zero
  {
  }

  /** An applied drag force points against the velocity, given non-negative density and drag coefficient. */
  lemma DragOpposesMotion(s: DragInput)
    requires s.density >= 0.0 && s.dragCoefficient >= 0.0
    requires Decide(s).Force?
    ensures Dot(Decide(s).force, s.velocity) < 0.0
  {
    MulNonNegative(s.density, s.dragCoefficient);
    MulNonNegative(s.density * s.dragCoefficient, Area(s.extent));
    assert LengthSquared(CandidateForce(s)) > 0.0;
    DragForceOpposesMotion(s.velocity, DragConstant(s));
  }

  /** The impulse `-v * m` brings the linear velocity to zero in one step. */
  lemma ImpulseStopsBody(s: DragInput)
    requires s.mass != 0.0
    requires Decide(s).Impulse?
    ensures Add(s.velocity, Scale(Decide(s).impulse, 1.0 / s.mass)) == Zero
  {
  }

  /**
   * A body at rest in water or lava, with positive mass under non-zero gravity,
   * gets the (zero) stopping impulse rather than no action: the test is on the
   * signed vertical component, not on its magnitude.
   */
  lemma RestingBodyInDenseMedium(s: DragInput)
    requires s.density != s.airDensity
    requires s.velocity == Zero && s.mass > 0.0 && s.gravity != Zero
    ensures Decide(s) == Impulse(Zero)
  {
    DragForceAtRest(DragConstant(s));
    var g2 := LengthSquared(s.gravity);
    assert AboveNegProduct(0.0, s.mass, g2) by {
      LengthSquaredPositive(s.gravity);
      SquarePositive(s.mass);
      MulPositive(Sq(s.mass), g2);
      assert Sq(0.0) == 0.0;
    }
  }

  /**
   * A body of non-negative mass moving downwards into a medium other than air
   * is stopped by the impulse whenever the drag constant is positive: the
   * drag force then points upwards, which always exceeds minus the weight.
   */
  lemma DescendingBodyInDenseMedium(s: DragInput)
    requires s.density != s.airDensity
    requires s.mass >= 0.0 && DragConstant(s) > 0.0 && s.velocity.y < 0.0
    ensures Decide(s) == Impulse(Scale(s.velocity, -s.mass))
  {
    var v, l, k := s.velocity, LengthSquared(s.velocity), DragConstant(s);
    LengthSquaredPositive(v);
    MulPositive(-v.y, l);
    assert v.y * -l == (-v.y) * l;
    MulPositive(v.y * -l, k);
    assert CandidateForce(s).y == (v.y * -l) * k;
  }
}
