/**
 * The player on the level, as `src/game/Game.ts` wires them: every frame the
 * player is moved against the world's collider list.  A freshly spawned
 * player stands on the floor; as written it can then never walk, and with
 * the horizontal test box raised above the feet it moves forward at once.
 */
module Scenarios {
  import opened Geometry
  import opened PlayerControl
  import opened WorldLayout

  /** The collider list the game passes to every player update. */
  function Colliders(): seq<Box> {
    BoxesOf(Layout())
  }

  /** The spawn point is at rest on the floor, well inside its footprint. */
  lemma SpawnRestsOnFloor()
    ensures |Colliders()| == 22 && Colliders()[0] == BoxOf(Floor)
    ensures RestingOn(Spawn(), Colliders()[0])
  {
    LayoutOrder();
    FloorTopAtZero();
  }

  /**
   * As written, however long any movement keys are held, a player who has
   * just spawned and does not jump stays on the spawn point.
   */
  lemma SpawnedPlayerNeverWalks(frames: seq<Frame>)
    requires forall i :: 0 <= i < |frames| ==> QuietFrame(frames[i])
    ensures Run(Spawn(), Colliders(), frames).position == SpawnPosition
  {
    SpawnRestsOnFloor();
    QuietFramesKeepRest(Spawn(), Colliders(), frames);
  }

  /**
   * One frame at 60 frames per second with 'w' held, looking down -z: the
   * lerp factors are exactly `1 - 0.2` and `1 - 0.98`.
   */
  const WalkForward: Frame :=
    Frame(1.0 / 60.0, Keys(true, false, false, false, false), Vec3(0.0, 0.0, -1.0), Vec3(1.0, 0.0, 0.0),
          1.0, 1.0, 0.8, 0.02)

  /** The demonstration frame meets the bounds every frame of the game meets. */
  lemma WalkForwardFrameOk()
    ensures FrameOk(WalkForward)
  {
    var down := Vec3(0.0, 0.0, -1.0);
    WalkForwardDirection();
    WalkForwardMove();
    UnitScaleOk(down, 1.0);
    FrameOkFromParts(WalkForward, down, down);
  }

  /** Scale 1 keeps the unit vector down -z at length 1. */
  lemma UnitScaleOk(v: Vec3, k: real)
    requires v == Vec3(0.0, 0.0, -1.0) && k == 1.0
    ensures k > 0.0 && k * k * LengthSq(v) == 1.0
  {
  }

  /** `FrameOk` from its parts, with the key direction and the move vector named. */
  lemma FrameOkFromParts(f: Frame, raw: Vec3, mv: Vec3)
    requires f.forwardDir.y == 0.0 && f.rightDir.y == 0.0
    requires RawDirection(f.keys) == raw && UnscaledMove(f) == mv
    requires f.dirScale > 0.0 && f.dirScale * f.dirScale * LengthSq(raw) == 1.0
    requires f.moveScale > 0.0 && f.moveScale * f.moveScale * LengthSq(mv) == 1.0
    requires 0.0 <= f.groundLerp <= 1.0 && 0.0 <= f.airLerp <= 1.0
    ensures FrameOk(f)
  {
  }

  /** The 'w' key alone points down -z, already of unit length. */
  lemma WalkForwardDirection()
    ensures RawDirection(WalkForward.keys) == Vec3(0.0, 0.0, -1.0)
    ensures MoveDirection(WalkForward.keys, WalkForward.dirScale) == Vec3(0.0, 0.0, -1.0)
  {
    assert Scale(Vec3(0.0, 0.0, -1.0), 1.0) == Vec3(0.0, 0.0, -1.0);
  }

  /** Looking down -z, the move vector is the key direction. */
  lemma WalkForwardMove()
    ensures UnscaledMove(WalkForward) == Vec3(0.0, 0.0, -1.0)
  {
    WalkForwardDirection();
    var md := Vec3(0.0, 0.0, -1.0);
    assert Scale(WalkForward.forwardDir, 1.0) == md;
    assert Scale(WalkForward.rightDir, 0.0) == Zero;
  }

  lemma WalkForwardTarget()
    ensures Target(WalkForward) == Vec2(0.0, -10.0)
  {
    WalkForwardDirection();
    WalkForwardMove();
    ForwardTarget(MoveDirection(WalkForward.keys, WalkForward.dirScale), WalkForward.forwardDir, WalkForward.rightDir);
  }

  /** A move vector of `-z` at scale 1 asks for full speed down -z. */
  lemma ForwardTarget(md: Vec3, forward: Vec3, right: Vec3)
    requires LengthSq(md) > 0.0 && MoveVector(md, forward, right) == Vec3(0.0, 0.0, -1.0)
    ensures TargetVelocity(md, forward, right, 1.0) == Vec2(0.0, -MoveSpeed)
  {
    assert Scale(Vec3(0.0, 0.0, -1.0), 1.0) == Vec3(0.0, 0.0, -1.0);
  }

  /** On the ground the first frame reaches 80% of the target. */
  lemma WalkForwardSmoothed()
    ensures SmoothedVelocity(Spawn(), WalkForward, true) == Vec2(0.0, -8.0)
  {
    WalkForwardTarget();
  }

  /** As written, the first 'w' frame after spawning leaves the player where it is and stops it. */
  lemma WalkForwardBlockedAsWritten()
    ensures Tick(Spawn(), Colliders(), WalkForward).position == SpawnPosition
    ensures Tick(Spawn(), Colliders(), WalkForward).horizontalVelocity == Vec2(0.0, 0.0)
  {
    SpawnRestsOnFloor();
    WalkForwardTarget();
    QuietFrameKeepsRest(Spawn(), Colliders(), WalkForward);
  }

  /** The raised test box of the first 'w' frame meets no wall and not the platform. */
  lemma WalkForwardClear()
    ensures ClearOfOthers(Colliders(), RaisedCandidate(Spawn(), Vec2(0.0, -8.0), WalkForward.delta))
  {
    var c := RaisedCandidate(Spawn(), Vec2(0.0, -8.0), WalkForward.delta);
    assert -0.25 <= c.min.x && c.max.x <= 0.25;
    assert c.min.y == 0.1 && c.max.y == 2.1;
    LayoutOrder();
    forall j | 1 <= j < |Colliders()| ensures !Intersects(c, Colliders()[j]) {
      if j <= NumSections {
        WallGeometry(j - 1);
      }
    }
  }

  /**
   * With the test box raised above the feet, the first 'w' frame moves the
   * player 8/60 forward at 8 units per second, still on the floor.
   */
  lemma WalkForwardCorrected()
    ensures CorrectedTick(Spawn(), Colliders(), WalkForward).position == Vec3(0.0, 2.0, 5.0 - 2.0 / 15.0)
    ensures CorrectedTick(Spawn(), Colliders(), WalkForward).horizontalVelocity == Vec2(0.0, -8.0)
    ensures CorrectedTick(Spawn(), Colliders(), WalkForward).canJump
  {
    SpawnRestsOnFloor();
    WalkForwardClear();
    WalkForwardFromRest(Colliders());
  }

  /** The same on any obstacle list whose first box holds the spawned player and whose others stay clear. */
  lemma WalkForwardFromRest(obstacles: seq<Box>)
    requires |obstacles| > 0 && RestingOn(Spawn(), obstacles[0])
    requires ClearOfOthers(obstacles, RaisedCandidate(Spawn(), Vec2(0.0, -8.0), WalkForward.delta))
    ensures CorrectedTick(Spawn(), obstacles, WalkForward).position == Vec3(0.0, 2.0, 5.0 - 2.0 / 15.0)
    ensures CorrectedTick(Spawn(), obstacles, WalkForward).horizontalVelocity == Vec2(0.0, -8.0)
    ensures CorrectedTick(Spawn(), obstacles, WalkForward).canJump
  {
    var b, f, hv := Spawn(), WalkForward, Vec2(0.0, -8.0);
    WalkForwardSmoothed();
    CorrectedQuietFrameMoves(b, obstacles, f, hv);
    var p := Vec3(b.position.x + hv.x * f.delta, b.position.y, b.position.z + hv.y * f.delta);
    assert CorrectedTick(b, obstacles, f).position == p;
    assert hv.x == 0.0 && hv.y == -8.0 && f.delta == 1.0 / 60.0;
    FrameDisplacement();
  }

  /** What 8 units per second down -z covers in one frame at 60 frames per second. */
  lemma FrameDisplacement()
    ensures 0.0 * (1.0 / 60.0) == 0.0 && -8.0 * (1.0 / 60.0) == -2.0 / 15.0
  {
  }

  /**
   * A frame of half a second: the spawned player's probe, moved down by the
   * post-gravity velocity, passes below the floor's bottom face without
   * meeting any box, so the player falls through the floor.
   */
  lemma LongFrameFallsThrough(f: Frame)
    requires f.delta == 0.5
    ensures !AnyHit(Colliders(), ProbeOf(Spawn(), f.delta))
    ensures Tick(Spawn(), Colliders(), f).position.y == -5.5
    ensures Tick(Spawn(), Colliders(), f).velocity.y == -15.0
    ensures !Tick(Spawn(), Colliders(), f).canJump
  {
    var probe := ProbeOf(Spawn(), f.delta);
    assert probe.max.y == -5.4;
    LayoutOrder();
    FloorTopAtZero();
    forall j | 0 <= j < |Colliders()| ensures !Intersects(probe, Colliders()[j]) {
      if 1 <= j <= NumSections {
        WallGeometry(j - 1);
      }
    }
    TickFallsWhenAirborne(Spawn(), Colliders(), f);
  }
}
