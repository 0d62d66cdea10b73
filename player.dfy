/**
 * The first-person player of `src/game/Player.ts`: one `update` per frame
 * (gravity, ground probe and snap, jump, key direction, smoothed horizontal
 * velocity, all-or-nothing horizontal block, vertical move, collider rebuild)
 * and the mouse-look handler.
 *
 * `Tick` is the frame as a function of the previous state; the class `Player`
 * runs the same frame in place, with the two obstacle loops, and is proved to
 * agree with `Tick`.  The properties of a frame are lemmas about `Tick`.
 */
module PlayerControl {
  import opened Geometry

  const MoveSpeed: real := 10.0
  const JumpForce: real := 15.0
  const Gravity: real := 30.0
  const PlayerHeight: real := 2.0
  const PlayerWidth: real := 0.5
  const MouseSensitivity: real := 0.002
  /** `Math.PI / 2` as a double. */
  const HalfPi: real := 1.5707963267948966
  /** `camera.position.set(0, playerHeight, 5)` in the constructor. */
  const SpawnPosition: Vec3 := Vec3(0.0, 2.0, 5.0)

  /** The movement keys held this frame: 'w', 's', 'a', 'd' and space. */
  datatype Keys = Keys(forward: bool, back: bool, left: bool, right: bool, jump: bool)

  /**
   * Everything a frame reads besides the player and the obstacles.
   * `forwardDir` and `rightDir` are the camera's forward and right vectors
   * with y removed and normalised; `dirScale` and `moveScale` are what the
   * two `normalize` calls multiply by, the reciprocal lengths of the key
   * direction and of the move vector; `groundLerp` and `airLerp` stand for
   * `1 - Math.pow(1 - friction, delta * 60)` (friction 0.8) and `1 - Math.pow(0.98, delta * 60)`.
   */
  datatype Frame = Frame(
    delta: real,
    keys: Keys,
    forwardDir: Vec3,
    rightDir: Vec3,
    dirScale: real,
    moveScale: real,
    groundLerp: real,
    airLerp: real)

  /**
   * The bounds the numeric inputs of a frame satisfy: the camera vectors lie
   * in the horizontal plane, each scale is positive and turns a non-zero vector into a unit
   * vector, and both lerp factors are in [0, 1].
   */
  predicate FrameOk(f: Frame) {
    && f.forwardDir.y == 0.0 && f.rightDir.y == 0.0
    && (NetInput(f.keys) ==>
          f.dirScale > 0.0 && f.dirScale * f.dirScale * LengthSq(RawDirection(f.keys)) == 1.0)
    && (UnscaledMove(f) != Zero ==> f.moveScale > 0.0 && f.moveScale * f.moveScale * LengthSq(UnscaledMove(f)) == 1.0)
    && 0.0 <= f.groundLerp <= 1.0
    && 0.0 <= f.airLerp <= 1.0
  }

  /** The state `update` reads and writes. */
  datatype Body = Body(
    position: Vec3,
    velocity: Vec3,
    horizontalVelocity: Vec2,
    canJump: bool,
    moveDirection: Vec3,
    collider: Box)

  /**
   * `updateCollider`: a box of the player's width, centred half a height
   * below the eye, 0.2 taller than the player.
   */
  function ColliderAt(p: Vec3): (b: Box)
    ensures b.min == Vec3(p.x - PlayerWidth / 2.0, p.y - PlayerHeight - 0.1, p.z - PlayerWidth / 2.0)
    ensures b.max == Vec3(p.x + PlayerWidth / 2.0, p.y + 0.1, p.z + PlayerWidth / 2.0)
    ensures WellFormed(b) && Contains(b, p)
  {
    FromCenterAndSize(
      Vec3(p.x, p.y - PlayerHeight / 2.0, p.z),
      Vec3(PlayerWidth, PlayerHeight + 0.2, PlayerWidth))
  }

  /** The state the constructor leaves. */
  function Spawn(): Body {
    Body(SpawnPosition, Vec3(0.0, 0.0, 0.0), Vec2(0.0, 0.0), true, Vec3(0.0, 0.0, 0.0),
         ColliderAt(SpawnPosition))
  }

  /** The ground probe: the collider moved vertically by `vy * delta`. */
  function GroundProbe(c: Box, vy: real, delta: real): (r: Box)
    ensures r.min.x == c.min.x && r.max.x == c.max.x && r.min.z == c.min.z && r.max.z == c.max.z
    ensures r.min.y - c.min.y == vy * delta && r.max.y - c.max.y == vy * delta
  {
    Box(c.min.(y := c.min.y + vy * delta), c.max.(y := c.max.y + vy * delta))
  }

  /** The probe of a frame: taken after gravity has been applied. */
  function ProbeOf(b: Body, delta: real): Box {
    GroundProbe(b.collider, b.velocity.y - Gravity * delta, delta)
  }

  /** The probe of this frame meets some obstacle. */
  predicate Grounded(b: Body, obstacles: seq<Box>, delta: real) {
    FirstHit(obstacles, ProbeOf(b, delta)).Some?
  }

  function KeyAxis(negative: bool, positive: bool): real {
    (if negative then -1.0 else 0.0) + (if positive then 1.0 else 0.0)
  }

  /** Some movement key is not cancelled by its opposite. */
  predicate NetInput(k: Keys) {
    k.forward != k.back || k.left != k.right
  }

  /** The key direction before normalising: 'w' is -z, 's' +z, 'a' -x, 'd' +x. */
  function RawDirection(k: Keys): (d: Vec3)
    ensures d.y == 0.0 && d.x in {-1.0, 0.0, 1.0} && d.z in {-1.0, 0.0, 1.0}
    ensures d.z == -1.0 <==> k.forward && !k.back
    ensures d.z == 1.0 <==> k.back && !k.forward
    ensures d.x == -1.0 <==> k.left && !k.right
    ensures d.x == 1.0 <==> k.right && !k.left
  {
    Vec3(KeyAxis(k.left, k.right), 0.0, KeyAxis(k.forward, k.back))
  }

  /** The key direction is zero exactly when opposite keys cancel on both axes. */
  lemma RawDirectionZero(k: Keys)
    ensures LengthSq(RawDirection(k)) == 0.0 <==> !NetInput(k)
    ensures NetInput(k) ==> LengthSq(RawDirection(k)) >= 1.0
  {
    AxisSquare(k.left, k.right);
    AxisSquare(k.forward, k.back);
  }

  lemma AxisSquare(negative: bool, positive: bool)
    ensures KeyAxis(negative, positive) * KeyAxis(negative, positive) == if negative == positive then 0.0 else 1.0
  {
    if negative == positive {
      assert KeyAxis(negative, positive) == 0.0;
    } else if negative {
      assert KeyAxis(negative, positive) == -1.0;
    } else {
      assert KeyAxis(negative, positive) == 1.0;
    }
  }

  /**
   * `moveDirection` after the keys, normalised only when its length is
   * positive, which for the key direction is exactly when some key is not
   * cancelled (`RawDirectionZero`).
   */
  function MoveDirection(k: Keys, dirScale: real): (d: Vec3)
    ensures d.y == 0.0
    ensures !NetInput(k) ==> d == Zero
  {
    var raw := RawDirection(k);
    if LengthSq(raw) > 0.0 then Scale(raw, dirScale) else raw
  }

  /**
   * With the reciprocal length as scale the direction is a unit vector; with
   * no net key it is zero.
   */
  lemma MoveDirectionLength(k: Keys, dirScale: real)
    requires NetInput(k) ==> dirScale > 0.0 && dirScale * dirScale * LengthSq(RawDirection(k)) == 1.0
    ensures NetInput(k) ==> LengthSq(MoveDirection(k, dirScale)) == 1.0
    ensures !NetInput(k) ==> MoveDirection(k, dirScale) == Vec3(0.0, 0.0, 0.0)
  {
    RawDirectionZero(k);
    if NetInput(k) {
      LengthSqScale(RawDirection(k), dirScale);
    }
  }

  /** `forward * -moveDirection.z + right * moveDirection.x`. */
  function MoveVector(md: Vec3, forward: Vec3, right: Vec3): Vec3 {
    Add(Scale(forward, -md.z), Scale(right, md.x))
  }

  /** The move vector of a frame before its `normalize()`. */
  function UnscaledMove(f: Frame): Vec3 {
    MoveVector(MoveDirection(f.keys, f.dirScale), f.forwardDir, f.rightDir)
  }

  /** No coordinate of a unit vector exceeds 1 in size. */
  lemma UnitBound(x: real, y: real, z: real)
    requires x * x + y * y + z * z == 1.0
    ensures -1.0 <= x <= 1.0 && -1.0 <= z <= 1.0
  {
    SquareAboveOne(x);
    SquareAboveOne(-x);
    SquareAboveOne(z);
    SquareAboveOne(-z);
    MulNonneg2(y);
    MulNonneg2(z);
    MulNonneg2(x);
  }

  lemma SquareAboveOne(x: real)
    ensures x > 1.0 ==> x * x > 1.0
  {
    if x > 1.0 {
      MulNonneg(x - 1.0, x - 1.0);
      assert x * x == (x - 1.0) * (x - 1.0) + 2.0 * x - 1.0;
    }
  }

  lemma MulNonneg2(x: real)
    ensures x * x >= 0.0
  {
    if x < 0.0 { MulNonneg(-x, -x); } else { MulNonneg(x, x); }
  }

  /**
   * The velocity the player steers toward: zero unless the direction has
   * positive length, otherwise `moveSpeed` along the normalised move vector.
   */
  function TargetVelocity(md: Vec3, forward: Vec3, right: Vec3, moveScale: real): (t: Vec2)
    ensures md == Zero ==> t == Vec2(0.0, 0.0)
  {
    if LengthSq(md) > 0.0 then
      var u := Scale(MoveVector(md, forward, right), moveScale);
      Vec2(u.x * MoveSpeed, u.z * MoveSpeed)
    else Vec2(0.0, 0.0)
  }

  /** The target velocity of a frame: exactly zero with no net key. */
  function Target(f: Frame): (t: Vec2)
    ensures !NetInput(f.keys) ==> t == Vec2(0.0, 0.0)
  {
    TargetVelocity(MoveDirection(f.keys, f.dirScale), f.forwardDir, f.rightDir, f.moveScale)
  }

  /** Each component of the frame's target is within `moveSpeed`. */
  predicate TargetWithinSpeed(f: Frame) {
    -MoveSpeed <= Target(f).x <= MoveSpeed && -MoveSpeed <= Target(f).y <= MoveSpeed
  }

  predicate Between(a: real, b: real, v: real) {
    (a <= v <= b) || (b <= v <= a)
  }

  lemma MulNonneg(x: real, y: real)
    requires x >= 0.0 && y >= 0.0
    ensures x * y >= 0.0
  {
  }

  /** `Vector2.lerp`: each component moves the fraction `t` toward `b`. */
  function Lerp(a: Vec2, b: Vec2, t: real): Vec2 {
    Vec2(a.x + (b.x - a.x) * t, a.y + (b.y - a.y) * t)
  }

  lemma ScalarLerpBetween(a: real, b: real, t: real)
    requires 0.0 <= t <= 1.0
    ensures Between(a, b, a + (b - a) * t)
  {
    if a <= b {
      MulNonneg(b - a, t);
      MulNonneg(b - a, 1.0 - t);
    } else {
      MulNonneg(a - b, t);
      MulNonneg(a - b, 1.0 - t);
    }
  }

  /** A lerp factor in [0, 1] keeps each component between start and target. */
  lemma LerpBetween(a: Vec2, b: Vec2, t: real)
    requires 0.0 <= t <= 1.0
    ensures Between(a.x, b.x, Lerp(a, b, t).x) && Between(a.y, b.y, Lerp(a, b, t).y)
    ensures t == 0.0 ==> Lerp(a, b, t) == a
    ensures t == 1.0 ==> Lerp(a, b, t) == b
  {
    ScalarLerpBetween(a.x, b.x, t);
    ScalarLerpBetween(a.y, b.y, t);
  }

  /**
   * How the horizontal test box takes its vertical extent: as written, the
   * whole collider's y-range (which reaches 0.1 below the feet); or from a
   * point 0.1 above the feet, so that a supporting top face is not a wall.
   */
  datatype HeightRule = ColliderRange | AboveFeet

  /** The extra height above the feet that the `AboveFeet` rule leaves out. */
  const StepClearance: real := 0.1

  /** The box the horizontal move is checked with, centred on the new x and z. */
  function HorizontalCandidate(c: Box, nx: real, nz: real, rule: HeightRule): (h: Box)
    ensures h.min.x == nx - PlayerWidth / 2.0 && h.max.x == nx + PlayerWidth / 2.0
    ensures h.min.z == nz - PlayerWidth / 2.0 && h.max.z == nz + PlayerWidth / 2.0
    ensures h.max.y == c.max.y
    ensures rule == ColliderRange ==> h.min.y == c.min.y
    ensures rule == AboveFeet ==> h.min.y == c.min.y + 0.1 + StepClearance
  {
    var lowY := if rule == ColliderRange then c.min.y else c.min.y + 0.1 + StepClearance;
    Box(Vec3(nx - PlayerWidth / 2.0, lowY, nz - PlayerWidth / 2.0),
        Vec3(nx + PlayerWidth / 2.0, c.max.y, nz + PlayerWidth / 2.0))
  }

  /** What the vertical part of a frame decides. */
  datatype Vertical = Vertical(onGround: bool, y: real, vy: real, canJump: bool)

  /**
   * Gravity first; then the ground probe, where the first obstacle hit puts
   * the feet on its top face and stops the fall; then the jump; then the
   * vertical move, which only happens without ground contact.
   */
  function VerticalStep(b: Body, obstacles: seq<Box>, f: Frame): Vertical {
    var fallVy := b.velocity.y - Gravity * f.delta;
    var hit := FirstHit(obstacles, ProbeOf(b, f.delta));
    if hit.Some? then
      Vertical(true, obstacles[hit.value].max.y + PlayerHeight,
               if f.keys.jump then JumpForce else 0.0, !f.keys.jump)
    else
      Vertical(false, b.position.y + fallVy * f.delta, fallVy, false)
  }

  /** What the horizontal part of a frame decides. */
  datatype Horizontal = Horizontal(x: real, z: real, hv: Vec2)

  /** The horizontal velocity lerped toward the key target. */
  function SmoothedVelocity(b: Body, f: Frame, onGround: bool): Vec2 {
    Lerp(b.horizontalVelocity, Target(f), if onGround then f.groundLerp else f.airLerp)
  }

  /** The all-or-nothing horizontal move with the smoothed velocity `hv`. */
  function HorizontalStep(x: real, z: real, collider: Box, obstacles: seq<Box>, hv: Vec2, delta: real,
                          rule: HeightRule): Horizontal {
    var nx := x + hv.x * delta;
    var nz := z + hv.y * delta;
    if AnyHit(obstacles, HorizontalCandidate(collider, nx, nz, rule)) then
      Horizontal(x, z, Vec2(0.0, 0.0))
    else
      Horizontal(nx, nz, hv)
  }

  /** One frame of `update`, with the horizontal test box built by `rule`. */
  function StepWith(b: Body, obstacles: seq<Box>, f: Frame, rule: HeightRule): Body {
    var v := VerticalStep(b, obstacles, f);
    var h := HorizontalStep(b.position.x, b.position.z, b.collider, obstacles,
                            SmoothedVelocity(b, f, v.onGround), f.delta, rule);
    var p := Vec3(h.x, v.y, h.z);
    Body(p, b.velocity.(y := v.vy), h.hv, v.canJump, MoveDirection(f.keys, f.dirScale), ColliderAt(p))
  }

  /** `Player.update` as written. */
  function Tick(b: Body, obstacles: seq<Box>, f: Frame): Body {
    StepWith(b, obstacles, f, ColliderRange)
  }

  /** `update` with the horizontal test box starting above the feet. */
  function CorrectedTick(b: Body, obstacles: seq<Box>, f: Frame): Body {
    StepWith(b, obstacles, f, AboveFeet)
  }

  /** Frames in sequence. */
  function Run(b: Body, obstacles: seq<Box>, frames: seq<Frame>): Body
    decreases |frames|
  {
    if frames == [] then b else Run(Tick(b, obstacles, frames[0]), obstacles, frames[1..])
  }

  // ---------------------------------------------------------------------
  // Properties of one frame

  /**
   * Ground contact: the first obstacle in list order that the probe meets
   * (the probe being the collider shifted by the post-gravity velocity)
   * puts the feet on its top face and stops the fall; a jump then starts.
   */
  lemma TickSnapsToFirstHit(b: Body, obstacles: seq<Box>, f: Frame, k: nat)
    requires k < |obstacles| && Intersects(ProbeOf(b, f.delta), obstacles[k])
    requires forall j :: 0 <= j < k ==> !Intersects(ProbeOf(b, f.delta), obstacles[j])
    ensures Tick(b, obstacles, f).position.y == obstacles[k].max.y + PlayerHeight
    ensures Tick(b, obstacles, f).velocity.y == if f.keys.jump then JumpForce else 0.0
    ensures Tick(b, obstacles, f).canJump == !f.keys.jump
  {
    var hit := FirstHit(obstacles, ProbeOf(b, f.delta));
    assert hit.Some?;
    assert hit.value == k;
  }

  /**
   * Without ground contact the player keeps falling: the velocity after
   * gravity is kept, y moves by it, and no jump is possible.
   */
  lemma TickFallsWhenAirborne(b: Body, obstacles: seq<Box>, f: Frame)
    requires forall j :: 0 <= j < |obstacles| ==> !Intersects(ProbeOf(b, f.delta), obstacles[j])
    ensures Tick(b, obstacles, f).velocity.y == b.velocity.y - Gravity * f.delta
    ensures Tick(b, obstacles, f).position.y == b.position.y + (b.velocity.y - Gravity * f.delta) * f.delta
    ensures !Tick(b, obstacles, f).canJump
  {
    assert !VerticalStep(b, obstacles, f).onGround;
  }

  /**
   * `canJump` after a frame: ground contact this frame and no jump started;
   * a jump needs ground contact and sets the jump velocity.
   */
  lemma TickCanJump(b: Body, obstacles: seq<Box>, f: Frame)
    ensures Tick(b, obstacles, f).canJump
        <==> AnyHit(obstacles, ProbeOf(b, f.delta)) && !f.keys.jump
    ensures AnyHit(obstacles, ProbeOf(b, f.delta)) && f.keys.jump ==>
              Tick(b, obstacles, f).velocity.y == JumpForce
  {
    AnyHitIffFirstHit(obstacles, ProbeOf(b, f.delta));
  }

  lemma HorizontalStepAllOrNothing(b: Body, obstacles: seq<Box>, hv: Vec2, delta: real, rule: HeightRule)
    ensures
      var nx := b.position.x + hv.x * delta;
      var nz := b.position.z + hv.y * delta;
      var h := HorizontalStep(b.position.x, b.position.z, b.collider, obstacles, hv, delta, rule);
      if AnyHit(obstacles, HorizontalCandidate(b.collider, nx, nz, rule)) then
        h.x == b.position.x && h.z == b.position.z && h.hv == Vec2(0.0, 0.0)
      else
        h.x == nx && h.z == nz && h.hv == hv
  {
  }

  /**
   * The horizontal move is all or nothing: if any obstacle meets the box at
   * the new x/z (with the old collider's y-range) nothing moves and the
   * horizontal velocity is zeroed, otherwise x and z are exactly the new
   * position.
   */
  lemma TickHorizontalAllOrNothing(b: Body, obstacles: seq<Box>, f: Frame)
    ensures
      var hv := SmoothedVelocity(b, f, Grounded(b, obstacles, f.delta));
      var nx := b.position.x + hv.x * f.delta;
      var nz := b.position.z + hv.y * f.delta;
      var after := Tick(b, obstacles, f);
      if AnyHit(obstacles, HorizontalCandidate(b.collider, nx, nz, ColliderRange)) then
        after.position.x == b.position.x && after.position.z == b.position.z
        && after.horizontalVelocity == Vec2(0.0, 0.0)
      else
        after.position.x == nx && after.position.z == nz && after.horizontalVelocity == hv
  {
    HorizontalStepAllOrNothing(b, obstacles, SmoothedVelocity(b, f, Grounded(b, obstacles, f.delta)),
                               f.delta, ColliderRange);
  }

  /** After every frame the collider is derived from the new position. */
  lemma TickColliderFollowsPosition(b: Body, obstacles: seq<Box>, f: Frame)
    ensures Tick(b, obstacles, f).collider == ColliderAt(Tick(b, obstacles, f).position)
    ensures Tick(b, obstacles, f).velocity.x == b.velocity.x
    ensures Tick(b, obstacles, f).velocity.z == b.velocity.z
  {
  }

  // ---------------------------------------------------------------------
  // Standing on a box

  /** The largest frame time the resting lemmas admit. */
  const MaxDelta: real := 0.25

  /** How far inside a supporting box's footprint the resting lemmas keep the player. */
  const Margin: real := PlayerWidth / 2.0 + MoveSpeed * MaxDelta

  /** At rest on the top face of `o`, well inside its footprint. */
  predicate RestingOn(b: Body, o: Box) {
    && WellFormed(o)
    && b.collider == ColliderAt(b.position)
    && b.velocity.y == 0.0
    && b.horizontalVelocity == Vec2(0.0, 0.0)
    && b.position.y == o.max.y + PlayerHeight
    && o.min.x + Margin <= b.position.x <= o.max.x - Margin
    && o.min.z + Margin <= b.position.z <= o.max.z - Margin
  }

  /**
   * No jump, a bounded frame time, lerp factors in [0, 1] and a target within
   * `moveSpeed` on each axis (which every `FrameOk` frame has, by
   * `TargetComponentsBounded`).
   */
  predicate QuietFrame(f: Frame) {
    && TargetWithinSpeed(f)
    && 0.0 <= f.groundLerp <= 1.0 && 0.0 <= f.airLerp <= 1.0
    && !f.keys.jump && 0.0 <= f.delta <= MaxDelta
  }

  lemma BoundedProduct(a: real, bound: real, d: real)
    requires -bound <= a <= bound && 0.0 <= d <= MaxDelta
    ensures -bound * MaxDelta <= a * d <= bound * MaxDelta
  {
    if a >= 0.0 {
      MulNonneg(a, d);
      MulNonneg(a, MaxDelta - d);
      MulNonneg(bound - a, MaxDelta);
    } else {
      MulNonneg(-a, d);
      MulNonneg(-a, MaxDelta - d);
      MulNonneg(bound + a, MaxDelta);
    }
  }

  /**
   * The supporting box meets the as-written horizontal test box at any new
   * x/z over its footprint: the collider reaches 0.1 below the feet, and
   * touching counts.
   */
  lemma SupportBlocksAsWritten(b: Body, o: Box, nx: real, nz: real)
    requires WellFormed(o) && b.collider == ColliderAt(b.position)
    requires b.position.y == o.max.y + PlayerHeight
    requires o.min.x <= nx <= o.max.x && o.min.z <= nz <= o.max.z
    ensures Intersects(HorizontalCandidate(b.collider, nx, nz, ColliderRange), o)
  {
  }

  /** With the `AboveFeet` rule the supporting box never meets the test box. */
  lemma SupportClearAboveFeet(b: Body, o: Box, nx: real, nz: real)
    requires b.collider == ColliderAt(b.position)
    requires b.position.y == o.max.y + PlayerHeight
    ensures !Intersects(HorizontalCandidate(b.collider, nx, nz, AboveFeet), o)
  {
  }

  /** From rest on `o`, the probe of a quiet frame reaches `o`'s top face. */
  lemma QuietProbeMeetsSupport(b: Body, o: Box, delta: real)
    requires RestingOn(b, o) && 0.0 <= delta <= MaxDelta
    ensures Intersects(ProbeOf(b, delta), o)
  {
    var probe := ProbeOf(b, delta);
    BoundedProduct(delta, MaxDelta, delta);
    MulNonneg(delta, delta);
    assert probe.min.y - b.collider.min.y == -Gravity * (delta * delta);
    assert probe.max.y - b.collider.max.y == -Gravity * (delta * delta);
  }

  /** A quiet frame from rest on the first obstacle: contact, no jump, no fall. */
  lemma QuietVertical(b: Body, obstacles: seq<Box>, f: Frame)
    requires |obstacles| > 0 && RestingOn(b, obstacles[0])
    requires !f.keys.jump && 0.0 <= f.delta <= MaxDelta
    ensures Grounded(b, obstacles, f.delta)
    ensures VerticalStep(b, obstacles, f) == Vertical(true, b.position.y, 0.0, true)
  {
    QuietProbeMeetsSupport(b, obstacles[0], f.delta);
    assert FirstHit(obstacles, ProbeOf(b, f.delta)) == Some(0);
  }

  /** The target of any frame has each component within `moveSpeed`. */
  lemma TargetComponentsBounded(f: Frame)
    requires FrameOk(f)
    ensures TargetWithinSpeed(f)
  {
    var mv := UnscaledMove(f);
    if LengthSq(MoveDirection(f.keys, f.dirScale)) > 0.0 && mv != Zero {
      var u := Scale(mv, f.moveScale);
      LengthSqScale(mv, f.moveScale);
      UnitBound(u.x, u.y, u.z);
    }
  }

  /**
   * With a net key and a non-zero move vector the target speed is exactly
   * `moveSpeed`; with a net key and a zero move vector the target is zero.
   */
  lemma TargetSpeed(f: Frame)
    requires FrameOk(f)
    ensures NetInput(f.keys) && UnscaledMove(f) != Zero ==> LengthSq2(Target(f)) == MoveSpeed * MoveSpeed
    ensures NetInput(f.keys) && UnscaledMove(f) == Zero ==> Target(f) == Vec2(0.0, 0.0)
  {
    if NetInput(f.keys) {
      var md := MoveDirection(f.keys, f.dirScale);
      FrameDirectionUnit(f);
      UnitDirectionTarget(md, f.forwardDir, f.rightDir, f.moveScale, UnscaledMove(f), Target(f));
    }
  }

  /** The direction of a frame with a net key is a unit vector. */
  lemma FrameDirectionUnit(f: Frame)
    requires FrameOk(f) && NetInput(f.keys)
    ensures LengthSq(MoveDirection(f.keys, f.dirScale)) == 1.0
  {
    MoveDirectionLength(f.keys, f.dirScale);
  }

  /** `TargetSpeed` for one unit direction `md`, with move vector `mv` and target `t`. */
  lemma UnitDirectionTarget(md: Vec3, forward: Vec3, right: Vec3, moveScale: real, mv: Vec3, t: Vec2)
    requires LengthSq(md) == 1.0 && forward.y == 0.0 && right.y == 0.0
    requires mv == MoveVector(md, forward, right) && t == TargetVelocity(md, forward, right, moveScale)
    requires mv != Zero ==> moveScale * moveScale * LengthSq(mv) == 1.0
    ensures mv != Zero ==> LengthSq2(t) == MoveSpeed * MoveSpeed
    ensures mv == Zero ==> t == Vec2(0.0, 0.0)
  {
    assert mv.y == 0.0;
    var u := Scale(mv, moveScale);
    assert t == Vec2(u.x * MoveSpeed, u.z * MoveSpeed);
    if mv != Zero {
      LengthSqScale(mv, moveScale);
      assert u.y == 0.0;
      SpeedSquare(u.x, u.z);
    }
  }

  lemma SpeedSquare(x: real, z: real)
    requires x * x + z * z == 1.0
    ensures (x * MoveSpeed) * (x * MoveSpeed) + (z * MoveSpeed) * (z * MoveSpeed) == MoveSpeed * MoveSpeed
  {
    assert (x * MoveSpeed) * (x * MoveSpeed) == MoveSpeed * MoveSpeed * (x * x);
    assert (z * MoveSpeed) * (z * MoveSpeed) == MoveSpeed * MoveSpeed * (z * z);
  }

  /** A lerp from rest toward a bounded target, over a bounded frame time. */
  lemma LerpFromRestBounded(t: Vec2, factor: real, delta: real)
    requires -MoveSpeed <= t.x <= MoveSpeed && -MoveSpeed <= t.y <= MoveSpeed
    requires 0.0 <= factor <= 1.0 && 0.0 <= delta <= MaxDelta
    ensures
      var hv := Lerp(Vec2(0.0, 0.0), t, factor);
      && -MoveSpeed * MaxDelta <= hv.x * delta <= MoveSpeed * MaxDelta
      && -MoveSpeed * MaxDelta <= hv.y * delta <= MoveSpeed * MaxDelta
  {
    var hv := Lerp(Vec2(0.0, 0.0), t, factor);
    LerpBetween(Vec2(0.0, 0.0), t, factor);
    BoundedProduct(hv.x, MoveSpeed, delta);
    BoundedProduct(hv.y, MoveSpeed, delta);
  }

  /**
   * Starting from zero horizontal velocity, the smoothed velocity of a quiet
   * frame moves x and z by at most `moveSpeed * MaxDelta`.
   */
  lemma QuietDisplacementBounded(b: Body, f: Frame, onGround: bool, hv: Vec2)
    requires b.horizontalVelocity == Vec2(0.0, 0.0) && QuietFrame(f)
    requires hv == SmoothedVelocity(b, f, onGround)
    ensures -MoveSpeed * MaxDelta <= hv.x * f.delta <= MoveSpeed * MaxDelta
    ensures -MoveSpeed * MaxDelta <= hv.y * f.delta <= MoveSpeed * MaxDelta
  {
    LerpFromRestBounded(Target(f), if onGround then f.groundLerp else f.airLerp, f.delta);
  }

  /** A frame assembled from its vertical and horizontal stages. */
  lemma StepWithStages(b: Body, obstacles: seq<Box>, f: Frame, rule: HeightRule, v: Vertical, h: Horizontal)
    requires v == VerticalStep(b, obstacles, f)
    requires h == HorizontalStep(b.position.x, b.position.z, b.collider, obstacles,
                                 SmoothedVelocity(b, f, v.onGround), f.delta, rule)
    ensures StepWith(b, obstacles, f, rule)
         == Body(Vec3(h.x, v.y, h.z), b.velocity.(y := v.vy), h.hv, v.canJump,
                 MoveDirection(f.keys, f.dirScale), ColliderAt(Vec3(h.x, v.y, h.z)))
  {
  }

  /**
   * As written, the horizontal stage from rest is blocked by the support
   * whenever the move is at most `moveSpeed * MaxDelta` on each axis.
   */
  lemma RestHorizontalBlocked(b: Body, obstacles: seq<Box>, hv: Vec2, delta: real)
    requires |obstacles| > 0 && RestingOn(b, obstacles[0])
    requires -MoveSpeed * MaxDelta <= hv.x * delta <= MoveSpeed * MaxDelta
    requires -MoveSpeed * MaxDelta <= hv.y * delta <= MoveSpeed * MaxDelta
    ensures HorizontalStep(b.position.x, b.position.z, b.collider, obstacles, hv, delta, ColliderRange)
         == Horizontal(b.position.x, b.position.z, Vec2(0.0, 0.0))
  {
    SupportMeetsDisplaced(b, obstacles[0], hv.x * delta, hv.y * delta);
    HorizontalStepAllOrNothing(b, obstacles, hv, delta, ColliderRange);
  }

  /** A move of at most `moveSpeed * MaxDelta` from rest keeps meeting the support. */
  lemma SupportMeetsDisplaced(b: Body, o: Box, dx: real, dz: real)
    requires RestingOn(b, o)
    requires -MoveSpeed * MaxDelta <= dx <= MoveSpeed * MaxDelta
    requires -MoveSpeed * MaxDelta <= dz <= MoveSpeed * MaxDelta
    ensures Intersects(HorizontalCandidate(b.collider, b.position.x + dx, b.position.z + dz, ColliderRange), o)
  {
    SupportBlocksAsWritten(b, o, b.position.x + dx, b.position.z + dz);
  }

  /**
   * As written, a player resting on the first obstacle stays exactly where
   * it is for a frame without a jump, whatever the movement keys: the ground
   * snap puts the feet back on the top face and the horizontal test box meets
   * that same face.
   */
  lemma QuietFrameKeepsRest(b: Body, obstacles: seq<Box>, f: Frame)
    requires |obstacles| > 0 && RestingOn(b, obstacles[0]) && QuietFrame(f)
    ensures RestingOn(Tick(b, obstacles, f), obstacles[0])
    ensures Tick(b, obstacles, f).position == b.position
    ensures Tick(b, obstacles, f).canJump
  {
    QuietVertical(b, obstacles, f);
    var hv := SmoothedVelocity(b, f, true);
    QuietDisplacementBounded(b, f, true, hv);
    RestHorizontalBlocked(b, obstacles, hv, f.delta);
    StepWithStages(b, obstacles, f, ColliderRange, Vertical(true, b.position.y, 0.0, true),
                   Horizontal(b.position.x, b.position.z, Vec2(0.0, 0.0)));
  }

  /** The same over any number of quiet frames. */
  lemma {:induction false} QuietFramesKeepRest(b: Body, obstacles: seq<Box>, frames: seq<Frame>)
    requires |obstacles| > 0 && RestingOn(b, obstacles[0])
    requires forall i :: 0 <= i < |frames| ==> QuietFrame(frames[i])
    ensures RestingOn(Run(b, obstacles, frames), obstacles[0])
    ensures Run(b, obstacles, frames).position == b.position
    decreases |frames|
  {
    if frames != [] {
      QuietFrameKeepsRest(b, obstacles, frames[0]);
      QuietFramesKeepRest(Tick(b, obstacles, frames[0]), obstacles, frames[1..]);
    }
  }

  /** The `AboveFeet` test box for a move by `hv` over `delta`. */
  function RaisedCandidate(b: Body, hv: Vec2, delta: real): Box {
    HorizontalCandidate(b.collider, b.position.x + hv.x * delta, b.position.z + hv.y * delta, AboveFeet)
  }

  /** No obstacle after the first meets `c`. */
  predicate ClearOfOthers(obstacles: seq<Box>, c: Box) {
    forall j :: 1 <= j < |obstacles| ==> !Intersects(c, obstacles[j])
  }

  /**
   * With the test box starting above the feet, the support never blocks:
   * the horizontal stage moves by `hv` unless another obstacle meets the
   * raised test box.
   */
  lemma RaisedHorizontalMoves(b: Body, obstacles: seq<Box>, hv: Vec2, delta: real)
    requires |obstacles| > 0 && b.collider == ColliderAt(b.position)
    requires b.position.y == obstacles[0].max.y + PlayerHeight
    requires ClearOfOthers(obstacles, RaisedCandidate(b, hv, delta))
    ensures HorizontalStep(b.position.x, b.position.z, b.collider, obstacles, hv, delta, AboveFeet)
         == Horizontal(b.position.x + hv.x * delta, b.position.z + hv.y * delta, hv)
  {
    SupportClearAboveFeet(b, obstacles[0], b.position.x + hv.x * delta, b.position.z + hv.y * delta);
    HorizontalStepAllOrNothing(b, obstacles, hv, delta, AboveFeet);
  }

  /**
   * With the test box starting above the feet, a frame without a jump from
   * rest on the first obstacle moves x and z by exactly the smoothed
   * velocity when no other obstacle meets the raised test box.
   */
  lemma CorrectedQuietFrameMoves(b: Body, obstacles: seq<Box>, f: Frame, hv: Vec2)
    requires |obstacles| > 0 && RestingOn(b, obstacles[0])
    requires !f.keys.jump && 0.0 <= f.delta <= MaxDelta
    requires hv == SmoothedVelocity(b, f, true)
    requires ClearOfOthers(obstacles, RaisedCandidate(b, hv, f.delta))
    ensures
      var p := Vec3(b.position.x + hv.x * f.delta, b.position.y, b.position.z + hv.y * f.delta);
      CorrectedTick(b, obstacles, f)
        == Body(p, b.velocity.(y := 0.0), hv, true, MoveDirection(f.keys, f.dirScale), ColliderAt(p))
  {
    RaisedHorizontalMoves(b, obstacles, hv, f.delta);
    CorrectedRestStep(b, obstacles, f, hv);
  }

  /** The whole corrected frame from rest, given its horizontal stage. */
  lemma CorrectedRestStep(b: Body, obstacles: seq<Box>, f: Frame, hv: Vec2)
    requires |obstacles| > 0 && RestingOn(b, obstacles[0])
    requires !f.keys.jump && 0.0 <= f.delta <= MaxDelta
    requires hv == SmoothedVelocity(b, f, true)
    requires HorizontalStep(b.position.x, b.position.z, b.collider, obstacles, hv, f.delta, AboveFeet)
          == Horizontal(b.position.x + hv.x * f.delta, b.position.z + hv.y * f.delta, hv)
    ensures
      var p := Vec3(b.position.x + hv.x * f.delta, b.position.y, b.position.z + hv.y * f.delta);
      CorrectedTick(b, obstacles, f)
        == Body(p, b.velocity.(y := 0.0), hv, true, MoveDirection(f.keys, f.dirScale), ColliderAt(p))
  {
    QuietVertical(b, obstacles, f);
    StepWithStages(b, obstacles, f, AboveFeet, Vertical(true, b.position.y, 0.0, true),
                   Horizontal(b.position.x + hv.x * f.delta, b.position.z + hv.y * f.delta, hv));
  }

  // ---------------------------------------------------------------------
  // The loops of `update`

  /** The ground-probe loop: stops at the first obstacle the probe meets. */
  method FindFirstHit(obstacles: seq<Box>, probe: Box) returns (hit: Option<nat>)
    ensures hit == FirstHit(obstacles, probe)
  {
    hit := None;
    var i := 0;
    while i < |obstacles|
      invariant 0 <= i <= |obstacles|
      invariant hit == None
      invariant forall j :: 0 <= j < i ==> !Intersects(probe, obstacles[j])
    {
      if Intersects(probe, obstacles[i]) {
        hit := Some(i);
        break;
      }
      i := i + 1;
    }
  }

  /** The horizontal-collision loop: true at the first obstacle the box meets. */
  method AnyOverlap(obstacles: seq<Box>, b: Box) returns (found: bool)
    ensures found == AnyHit(obstacles, b)
  {
    found := false;
    var i := 0;
    while i < |obstacles|
      invariant 0 <= i <= |obstacles|
      invariant !found
      invariant forall j :: 0 <= j < i ==> !Intersects(b, obstacles[j])
    {
      if Intersects(b, obstacles[i]) {
        found := true;
        break;
      }
      i := i + 1;
    }
  }

  /** The four key tests that build the direction before normalising. */
  method KeyDirection(k: Keys) returns (d: Vec3)
    ensures d == RawDirection(k)
  {
    d := Zero;
    if k.forward { d := d.(z := d.z - 1.0); }
    if k.back { d := d.(z := d.z + 1.0); }
    if k.left { d := d.(x := d.x - 1.0); }
    if k.right { d := d.(x := d.x + 1.0); }
  }

  class Player {
    /** `camera.position`, the eye point. */
    var position: Vec3
    var velocity: Vec3
    /** x is world x, y is world z. */
    var horizontalVelocity: Vec2
    var canJump: bool
    var moveDirection: Vec3
    var collider: Box
    var yaw: real
    var pitch: real

    function State(): Body
      reads this
    {
      Body(position, velocity, horizontalVelocity, canJump, moveDirection, collider)
    }

    ghost predicate Valid()
      reads this
    {
      collider == ColliderAt(position) && -HalfPi <= pitch <= HalfPi
    }

    constructor ()
      ensures State() == Spawn() && yaw == 0.0 && pitch == 0.0
      ensures Valid()
    {
      position := SpawnPosition;
      velocity := Vec3(0.0, 0.0, 0.0);
      horizontalVelocity := Vec2(0.0, 0.0);
      canJump := true;
      moveDirection := Vec3(0.0, 0.0, 0.0);
      yaw, pitch := 0.0, 0.0;
      collider := Box(Vec3(-PlayerWidth / 2.0, -0.1, -PlayerWidth / 2.0),
                      Vec3(PlayerWidth / 2.0, PlayerHeight, PlayerWidth / 2.0));
      new;
      UpdateCollider();
    }

    method UpdateCollider()
      modifies this`collider
      ensures collider == ColliderAt(position)
    {
      collider := FromCenterAndSize(
        Vec3(position.x, position.y - PlayerHeight / 2.0, position.z),
        Vec3(PlayerWidth, PlayerHeight + 0.2, PlayerWidth));
    }

    /** One frame against the obstacle list, in list order. */
    method Update(obstacles: seq<Box>, f: Frame)
      modifies this
      ensures State() == Tick(old(State()), obstacles, f)
      ensures yaw == old(yaw) && pitch == old(pitch)
      ensures old(Valid()) ==> Valid()
    {
      ghost var before := State();
      ghost var v := VerticalStep(before, obstacles, f);
      var isOnGround := ApplyGravityAndGround(obstacles, f);
      UpdateMoveDirection(f);
      var targetVelocity := TargetFromDirection(f);
      horizontalVelocity := Lerp(horizontalVelocity, targetVelocity,
                                 if isOnGround then f.groundLerp else f.airLerp);
      ghost var h := HorizontalStep(position.x, position.z, collider, obstacles,
                                    horizontalVelocity, f.delta, ColliderRange);
      MoveHorizontally(obstacles, f.delta);
      if !isOnGround {
        position := position.(y := position.y + velocity.y * f.delta);
      }
      UpdateCollider();
      StepWithStages(before, obstacles, f, ColliderRange, v, h);
    }

    /**
     * Gravity, the ground probe loop with its snap, and the jump; the
     * vertical move itself waits until the end of the frame.
     */
    method ApplyGravityAndGround(obstacles: seq<Box>, f: Frame) returns (isOnGround: bool)
      modifies this`velocity, this`position, this`canJump
      ensures
        var v := VerticalStep(old(State()), obstacles, f);
        && isOnGround == v.onGround
        && canJump == v.canJump
        && velocity == old(velocity).(y := v.vy)
        && position == old(position).(y := if isOnGround then v.y else old(position.y))
        && (!isOnGround ==> v.y == position.y + velocity.y * f.delta)
    {
      ghost var before := State();
      velocity := velocity.(y := velocity.y - Gravity * f.delta);
      var groundCheck := GroundProbe(collider, velocity.y, f.delta);
      assert groundCheck == ProbeOf(before, f.delta);
      var hit := FindFirstHit(obstacles, groundCheck);
      isOnGround := hit.Some?;
      if isOnGround {
        velocity := velocity.(y := 0.0);
        position := position.(y := obstacles[hit.value].max.y + PlayerHeight);
      }
      canJump := isOnGround;
      if f.keys.jump && canJump {
        velocity := velocity.(y := JumpForce);
        canJump := false;
      }
    }

    /** The key direction, normalised when its length is positive. */
    method UpdateMoveDirection(f: Frame)
      modifies this`moveDirection
      ensures moveDirection == MoveDirection(f.keys, f.dirScale)
    {
      moveDirection := KeyDirection(f.keys);
      if LengthSq(moveDirection) > 0.0 {
        moveDirection := Scale(moveDirection, f.dirScale);
      }
    }

    /** `moveSpeed` along the normalised camera-relative move vector, or zero without a direction. */
    method TargetFromDirection(f: Frame) returns (targetVelocity: Vec2)
      requires moveDirection == MoveDirection(f.keys, f.dirScale)
      ensures targetVelocity == Target(f)
    {
      targetVelocity := Vec2(0.0, 0.0);
      if LengthSq(moveDirection) > 0.0 {
        var moveVector := MoveVector(moveDirection, f.forwardDir, f.rightDir);
        moveVector := Scale(moveVector, f.moveScale);
        targetVelocity := Vec2(moveVector.x * MoveSpeed, moveVector.z * MoveSpeed);
      }
    }

    /** The horizontal-collision loop and the all-or-nothing move. */
    method MoveHorizontally(obstacles: seq<Box>, delta: real)
      modifies this`position, this`horizontalVelocity
      ensures
        var h := HorizontalStep(old(position.x), old(position.z), collider, obstacles,
                                old(horizontalVelocity), delta, ColliderRange);
        && position == old(position).(x := h.x, z := h.z)
        && horizontalVelocity == h.hv
    {
      var newX := position.x + horizontalVelocity.x * delta;
      var newZ := position.z + horizontalVelocity.y * delta;
      var horizontalCollider := HorizontalCandidate(collider, newX, newZ, ColliderRange);
      var blocked := AnyOverlap(obstacles, horizontalCollider);
      if !blocked {
        position := position.(x := newX, z := newZ);
      } else {
        horizontalVelocity := Vec2(0.0, 0.0);
      }
    }

    /**
     * The mousemove handler: with the pointer locked, yaw turns by
     * `-movementX * sensitivity` and pitch by `-movementY * sensitivity`,
     * clamped to [-pi/2, pi/2].
     */
    method MouseMove(pointerLocked: bool, movementX: real, movementY: real)
      modifies this`yaw, this`pitch
      ensures pointerLocked ==> yaw == old(yaw) - movementX * MouseSensitivity
      ensures pointerLocked ==> pitch == Clamp(-HalfPi, HalfPi, old(pitch) - movementY * MouseSensitivity)
      ensures pointerLocked ==> -HalfPi <= pitch <= HalfPi
      ensures !pointerLocked ==> yaw == old(yaw) && pitch == old(pitch)
      ensures old(Valid()) ==> Valid()
    {
      if pointerLocked {
        yaw := yaw - movementX * MouseSensitivity;
        pitch := pitch - movementY * MouseSensitivity;
        pitch := Clamp(-HalfPi, HalfPi, pitch);
      }
    }
  }
}
