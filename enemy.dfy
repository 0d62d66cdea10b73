/**
 * The enemy of `src/game/Enemy.ts`: it walks straight at the player while the
 * player is within detection range, attacks when the player is within attack
 * range and the cooldown has run out, and is taken out of the scene when its
 * health reaches 0.
 *
 * The distance to the player, the reciprocal length that `normalize` scales
 * by, and the two readings of `Date.now()` that one update takes are inputs
 * of the update, gathered in a `Sense`.
 */
module EnemyAI {
  import opened Geometry

  const InitialHealth: real := 100.0
  const Speed: real := 5.0
  const DetectionRange: real := 15.0
  const AttackRange: real := 2.0
  /** In seconds; compared against milliseconds times 1000. */
  const AttackCooldown: int := 1

  /**
   * What one update reads from outside: the frame time, the player's
   * position, `distanceTo` the player, the scale `normalize` applies to the
   * offset toward the player, and the time of the cooldown test and of the
   * attack stamp, in milliseconds.
   */
  datatype Sense = Sense(delta: real, player: Vec3, distance: real, dirScale: real, nowCheck: int, nowStamp: int)

  /**
   * The inputs agree with the positions: `distance` is the length of the
   * offset, and `dirScale` divides by it (by 1 for a zero offset, as
   * `normalize` does).
   */
  predicate SenseOk(position: Vec3, s: Sense) {
    && s.distance >= 0.0
    && s.distance * s.distance == DistSq(s.player, position)
    && s.dirScale * (if s.distance == 0.0 then 1.0 else s.distance) == 1.0
  }

  /** The state `update`, `takeDamage` and `die` read and write. */
  datatype EnemyState = EnemyState(position: Vec3, health: real, lastAttackTime: int, inScene: bool)

  function Spawned(position: Vec3): EnemyState {
    EnemyState(position, InitialHealth, 0, true)
  }

  /** The chase move: `speed * delta` along the normalised offset, inside detection range only. */
  function Chase(position: Vec3, s: Sense): Vec3 {
    if s.distance < DetectionRange then
      Add(position, Scale(Scale(Sub(s.player, position), s.dirScale), Speed * s.delta))
    else position
  }

  /** The attack test, on the distance measured before the chase move. */
  predicate AttackDue(lastAttackTime: int, s: Sense) {
    s.distance < AttackRange && s.nowCheck - lastAttackTime > AttackCooldown * 1000
  }

  /** One `update`. */
  function Step(e: EnemyState, s: Sense): EnemyState {
    e.(position := Chase(e.position, s),
       lastAttackTime := if AttackDue(e.lastAttackTime, s) then s.nowStamp else e.lastAttackTime)
  }

  /** One `takeDamage`: `die` runs whenever the new health is 0 or less. */
  function Damage(e: EnemyState, amount: real): EnemyState {
    var h := e.health - amount;
    e.(health := h, inScene := e.inScene && h > 0.0)
  }

  // ---------------------------------------------------------------------
  // The chase

  /**
   * Inside detection range and away from the player, one update moves the
   * enemy exactly `speed * delta` and brings it that much closer to the
   * player along the line between them (past the player if the step is
   * longer than the distance).
   */
  lemma ChaseStep(position: Vec3, s: Sense)
    requires SenseOk(position, s) && s.distance > 0.0 && s.distance < DetectionRange
    ensures DistSq(Chase(position, s), position) == (Speed * s.delta) * (Speed * s.delta)
    ensures DistSq(s.player, Chase(position, s)) == (s.distance - Speed * s.delta) * (s.distance - Speed * s.delta)
  {
    assert s.dirScale * s.distance == 1.0;
    MoveToward(position, s.player, s.dirScale, s.distance, Speed * s.delta);
  }

  /** The chase move in vector terms: `m` along `c` times the offset, where `c` divides by its length. */
  lemma MoveToward(position: Vec3, target: Vec3, c: real, dist: real, m: real)
    requires c * dist == 1.0 && dist * dist == DistSq(target, position)
    ensures var next := Add(position, Scale(Scale(Sub(target, position), c), m));
      && DistSq(next, position) == m * m
      && DistSq(target, next) == (dist - m) * (dist - m)
  {
    var d := Sub(target, position);
    var v := Scale(Scale(d, c), m);
    AddThenSub(position, v);
    SubOfAdd(target, position, v);
    StepLength(d, c, dist, m);
    RemainingDistance(d, c, dist, m);
  }

  lemma AddThenSub(a: Vec3, v: Vec3)
    ensures Sub(Add(a, v), a) == v
  {
  }

  lemma SubOfAdd(t: Vec3, a: Vec3, v: Vec3)
    ensures Sub(t, Add(a, v)) == Sub(Sub(t, a), v)
  {
  }

  /** A unit vector scaled by `m` has length `m`. */
  lemma StepLength(d: Vec3, c: real, dist: real, m: real)
    requires c * dist == 1.0 && dist * dist == LengthSq(d)
    ensures LengthSq(Scale(Scale(d, c), m)) == m * m
  {
    LengthSqScale(d, c);
    LengthSqScale(Scale(d, c), m);
    ScaledSquare(c, dist, LengthSq(d));
  }

  /** Taking a step of length `m` along `d` leaves `|d| - m` to go. */
  lemma RemainingDistance(d: Vec3, c: real, dist: real, m: real)
    requires c * dist == 1.0 && dist * dist == LengthSq(d)
    ensures LengthSq(Sub(d, Scale(Scale(d, c), m))) == (dist - m) * (dist - m)
  {
    var k := 1.0 - c * m;
    ScaleTwice(d, c, m);
    SubScaled(d, c * m);
    LengthSqScale(d, k);
    assert k * dist == dist - m by {
      assert (c * m) * dist == (c * dist) * m;
    }
    ScaledSquare(k, dist, LengthSq(d));
  }

  lemma ScaleTwice(d: Vec3, c: real, m: real)
    ensures Scale(Scale(d, c), m) == Scale(d, c * m)
  {
    assert d.x * c * m == d.x * (c * m);
    assert d.y * c * m == d.y * (c * m);
    assert d.z * c * m == d.z * (c * m);
  }

  lemma SubScaled(d: Vec3, a: real)
    ensures Sub(d, Scale(d, a)) == Scale(d, 1.0 - a)
  {
  }

  /** `k^2 * a^2 == (k * a)^2`, with `a^2` given as `sq`. */
  lemma ScaledSquare(k: real, a: real, sq: real)
    requires a * a == sq
    ensures k * k * sq == (k * a) * (k * a)
  {
  }

  // ---------------------------------------------------------------------
  // Attacks over time

  /** What one update attacks with: the stamp of an attack, or nothing. */
  function AttackTimes(lastAttackTime: int, senses: seq<Sense>): seq<int>
    decreases |senses|
  {
    if senses == [] then []
    else
      var s := senses[0];
      if AttackDue(lastAttackTime, s) then [s.nowStamp] + AttackTimes(s.nowStamp, senses[1..])
      else AttackTimes(lastAttackTime, senses[1..])
  }

  /** The attack stamps read off the updates of a run, one `Step` at a time. */
  function RunAttacks(e: EnemyState, senses: seq<Sense>): seq<int>
    decreases |senses|
  {
    if senses == [] then []
    else (if AttackDue(e.lastAttackTime, senses[0]) then [senses[0].nowStamp] else [])
         + RunAttacks(Step(e, senses[0]), senses[1..])
  }

  /** `AttackTimes` lists exactly the stamps of the updates of a run that attack. */
  lemma {:induction false} RunAttacksAreAttackTimes(e: EnemyState, senses: seq<Sense>)
    ensures RunAttacks(e, senses) == AttackTimes(e.lastAttackTime, senses)
    decreases |senses|
  {
    if senses != [] {
      RunAttacksAreAttackTimes(Step(e, senses[0]), senses[1..]);
    }
  }

  /** Within each update the stamp is read no earlier than the cooldown test. */
  predicate ClockForward(senses: seq<Sense>) {
    forall i :: 0 <= i < |senses| ==> senses[i].nowCheck <= senses[i].nowStamp
  }

  /**
   * Every attack comes more than a cooldown after the one before it, and the
   * first more than a cooldown after `lastAttackTime`.
   */
  lemma {:induction false} AttacksSpaced(lastAttackTime: int, senses: seq<Sense>)
    requires ClockForward(senses)
    ensures var t := AttackTimes(lastAttackTime, senses);
      && (|t| > 0 ==> t[0] - lastAttackTime > AttackCooldown * 1000)
      && forall j :: 0 <= j < |t| - 1 ==> t[j + 1] - t[j] > AttackCooldown * 1000
    decreases |senses|
  {
    if senses != [] {
      var s := senses[0];
      assert ClockForward(senses[1..]) by {
        forall i | 0 <= i < |senses[1..]| ensures senses[1..][i].nowCheck <= senses[1..][i].nowStamp {
          assert senses[1..][i] == senses[i + 1];
        }
      }
      if AttackDue(lastAttackTime, s) {
        AttacksSpaced(s.nowStamp, senses[1..]);
        var rest := AttackTimes(s.nowStamp, senses[1..]);
        assert s.nowCheck <= s.nowStamp;
        assert forall j :: 0 <= j < |rest| ==> ([s.nowStamp] + rest)[j + 1] == rest[j];
      } else {
        AttacksSpaced(lastAttackTime, senses[1..]);
      }
    }
  }

  /** Updates in sequence. */
  function Run(e: EnemyState, senses: seq<Sense>): EnemyState
    decreases |senses|
  {
    if senses == [] then e else Run(Step(e, senses[0]), senses[1..])
  }

  /** After a run, `lastAttackTime` is the stamp of its last attack, if it had one. */
  lemma {:induction false} RunLastAttack(e: EnemyState, senses: seq<Sense>)
    ensures var t := AttackTimes(e.lastAttackTime, senses);
      Run(e, senses).lastAttackTime == if t == [] then e.lastAttackTime else t[|t| - 1]
    decreases |senses|
  {
    if senses != [] {
      RunLastAttack(Step(e, senses[0]), senses[1..]);
    }
  }

  // ---------------------------------------------------------------------
  // Damage

  /** Whether the `takeDamage` call that yields `Damage(e, amount)` calls `die`. */
  predicate DieCalled(e: EnemyState, amount: real) {
    Damage(e, amount).health <= 0.0
  }

  /** Hits in sequence. */
  function Hits(e: EnemyState, amounts: seq<real>): EnemyState
    decreases |amounts|
  {
    if amounts == [] then e else Hits(Damage(e, amounts[0]), amounts[1..])
  }

  /** How many of a series of hits call `die`. */
  function DieCalls(e: EnemyState, amounts: seq<real>): nat
    decreases |amounts|
  {
    if amounts == [] then 0
    else (if DieCalled(e, amounts[0]) then 1 else 0) + DieCalls(Damage(e, amounts[0]), amounts[1..])
  }

  /**
   * There is no dead flag: once health is at or below 0, every further hit
   * that is not a heal calls `die` again, and the enemy stays out of the scene.
   */
  lemma {:induction false} NoDeadFlag(e: EnemyState, amounts: seq<real>)
    requires e.health <= 0.0
    requires forall i :: 0 <= i < |amounts| ==> amounts[i] >= 0.0
    ensures DieCalls(e, amounts) == |amounts|
    ensures amounts != [] ==> !Hits(e, amounts).inScene
    ensures Hits(e, amounts).health <= 0.0
    decreases |amounts|
  {
    if amounts != [] {
      NoDeadFlag(Damage(e, amounts[0]), amounts[1..]);
    }
  }

  class Enemy {
    /** `mesh.position`. */
    var position: Vec3
    var health: real
    var lastAttackTime: int
    /** Whether the mesh still has a parent in the scene. */
    var inScene: bool

    function State(): EnemyState
      reads this
    {
      EnemyState(position, health, lastAttackTime, inScene)
    }

    constructor (start: Vec3)
      ensures State() == Spawned(start)
    {
      position := start;
      health := InitialHealth;
      lastAttackTime := 0;
      inScene := true;
    }

    /**
     * Chase inside detection range, then attack if the player was within
     * attack range at the start of the update and the cooldown is over.
     */
    method Update(s: Sense) returns (attacked: bool)
      modifies this`position, this`lastAttackTime
      ensures State() == Step(old(State()), s)
      ensures attacked == AttackDue(old(lastAttackTime), s)
    {
      var distanceToPlayer := s.distance;
      if distanceToPlayer < DetectionRange {
        var direction := Scale(Sub(s.player, position), s.dirScale);
        position := Add(position, Scale(direction, Speed * s.delta));
      }
      attacked := distanceToPlayer < AttackRange && s.nowCheck - lastAttackTime > AttackCooldown * 1000;
      if attacked {
        lastAttackTime := s.nowStamp;
      }
    }

    /** Returns whether `die` was called. */
    method TakeDamage(amount: real) returns (died: bool)
      modifies this`health, this`inScene
      ensures State() == Damage(old(State()), amount)
      ensures health == old(health) - amount
      ensures died <==> health <= 0.0
      ensures died == DieCalled(old(State()), amount)
    {
      health := health - amount;
      died := health <= 0.0;
      if died {
        Die();
      }
    }

    /** Removes the mesh from its parent, if it still has one. */
    method Die()
      modifies this`inScene
      ensures !inScene
    {
      inScene := false;
    }
  }
}
