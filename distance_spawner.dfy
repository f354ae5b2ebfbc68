/**
 * The distance spawner: a spawner that places a new entity each time the
 * spawner has moved `nextSpawnDistance` beyond the last entity it placed.
 * Its state is the pair (`lastSpawned`, `nextSpawnDistance`), together with
 * the pool it spawns from.
 *
 * One fixed-update step is modelled twice: as the function `Tick` on values,
 * and as the method `DistanceSpawner.FixedUpdate` that performs it in place
 * and is proved to agree with `Tick`.
 */
module DistanceSpawning {
  import opened Geometry
  import opened Pooling
  import opened Spawning
  import Game

  /**
   * What `_lastSpawnedTransform` refers to: nothing (null), the spawner's
   * own transform, or the transform of pool entity `index`.
   */
  datatype LastSpawned = NoneSpawned | SpawnerItself | Spawned(index: nat)

  /** The spawner's inspector settings and its own position (`transform.position`). */
  datatype DistanceConfig = DistanceConfig(
    range: SpawnRange,
    minimumGap: Vec3,
    maximumGap: Vec3,
    origin: Vec3)

  /**
   * The random draws of one `DistanceSpawn`: the y jitter of the target,
   * the entity's scale and rotation, and the x gap to the next spawn.
   */
  datatype Draw = Draw(jitterY: real, scale: Vec3, rotation: Vec3, gapX: real)

  predicate DrawOk(cfg: DistanceConfig, d: Draw) {
    && Between(d.jitterY, cfg.minimumGap.y, cfg.maximumGap.y)
    && Between(d.gapX, cfg.minimumGap.x, cfg.maximumGap.x)
    && DrawFits(cfg.range, d.scale, d.rotation)
  }

  /** Both x gaps are non-negative, so every x gap drawn is. */
  predicate GapsNonNegative(cfg: DistanceConfig) {
    0.0 <= cfg.minimumGap.x && 0.0 <= cfg.maximumGap.x
  }

  datatype Schedule = Schedule(last: LastSpawned, next: real)

  /** The scheduler's state together with the contents of its pool. */
  datatype World = World(schedule: Schedule, pool: seq<Entity>)

  /**
   * The scheduler invariant: the reference, when it names an entity, names
   * one of the pool, and with non-negative gaps the spawn distance is
   * non-negative.
   */
  predicate Consistent(cfg: DistanceConfig, w: World) {
    && (w.schedule.last.Spawned? ==> w.schedule.last.index < |w.pool|)
    && (GapsNonNegative(cfg) ==> 0.0 <= w.schedule.next)
  }

  /**
   * `activeInHierarchy` of the referenced object: the spawner itself is
   * active whenever it runs, an entity is active when its flag is set.
   */
  predicate Live(cfg: DistanceConfig, w: World)
    requires Consistent(cfg, w)
  {
    match w.schedule.last
    case NoneSpawned => false
    case SpawnerItself => true
    case Spawned(i) => w.pool[i].active
  }

  /** `_lastSpawnedTransform.position.x`; only defined for a non-null reference. */
  function LastX(cfg: DistanceConfig, w: World): real
    requires Consistent(cfg, w) && w.schedule.last != NoneSpawned
  {
    match w.schedule.last
    case SpawnerItself => cfg.origin.x
    case Spawned(i) => w.pool[i].position.x
  }

  /**
   * Where `FirstSpawn` aims: `next` ahead of the spawner, jittered in y.
   * The position is built as a `Vector2`, so its z is 0.
   */
  function FirstSpawnTarget(cfg: DistanceConfig, next: real, jitterY: real): Vec3 {
    Vec3(cfg.origin.x + next, cfg.origin.y + jitterY, 0.0)
  }

  /** Where a distance spawn aims: `next` beyond the last entity, at the spawner's y (jittered) and z. */
  function DistanceSpawnTarget(cfg: DistanceConfig, lastX: real, next: real, jitterY: real): Vec3 {
    Vec3(lastX + next, cfg.origin.y + jitterY, cfg.origin.z)
  }

  /**
   * The schedule after a `DistanceSpawn` that returned `c`, `pool` being the
   * pool after the spawn. A placed entity becomes the reference and the next
   * distance is the drawn gap plus half its width; after a failure only a
   * null reference changes (to the spawner itself) and the next distance is
   * the bare gap.
   */
  function Rescheduled(cfg: DistanceConfig, s: Schedule, pool: seq<Entity>, c: Option<nat>, d: Draw): (r: Schedule)
    requires c.Some? ==> c.value < |pool|
    requires DrawOk(cfg, d)
    ensures r.last != NoneSpawned
    ensures c.None? && s.last != NoneSpawned ==> r.last == s.last
    ensures c.None? && s.last == NoneSpawned ==> r.last == SpawnerItself
    ensures c.None? ==> Between(r.next, cfg.minimumGap.x, cfg.maximumGap.x)
    ensures c.Some? ==> r.last == Spawned(c.value)
    ensures c.Some? ==> var half := pool[c.value].width / 2.0;
              Between(r.next, cfg.minimumGap.x + half, cfg.maximumGap.x + half)
    ensures GapsNonNegative(cfg) ==> 0.0 <= r.next
  {
    match c
    case None => Schedule(if s.last == NoneSpawned then SpawnerItself else s.last, d.gapX)
    case Some(i) => Schedule(Spawned(i), d.gapX + pool[i].width / 2.0)
  }

  /** `DistanceSpawn(target)` when `Spawn` returned `c`. */
  function AfterDistanceSpawn(cfg: DistanceConfig, w: World, target: Vec3, d: Draw, c: Option<nat>): (r: World)
    requires Consistent(cfg, w) && DrawOk(cfg, d)
    requires c.Some? ==> PoolAnswer(w.pool, c)
    ensures Consistent(cfg, r) && |r.pool| == |w.pool|
    ensures r.schedule.last != NoneSpawned
  {
    var pool := AfterSpawn(cfg.range, w.pool, target, d.scale, d.rotation, c);
    World(Rescheduled(cfg, w.schedule, pool, c, d), pool)
  }

  /** The first half of a step: a first spawn when the reference is null or inactive. */
  function FirstPhase(cfg: DistanceConfig, w: World, d: Draw, c: Option<nat>): (r: World)
    requires Consistent(cfg, w) && DrawOk(cfg, d)
    requires !Live(cfg, w) ==> PoolAnswer(w.pool, c)
    ensures Consistent(cfg, r) && |r.pool| == |w.pool|
    ensures r.schedule.last != NoneSpawned
  {
    if Live(cfg, w) then w
    else AfterDistanceSpawn(cfg, w, FirstSpawnTarget(cfg, w.schedule.next, d.jitterY), d, c)
  }

  /** The spawner has travelled at least `next` beyond the last reference. */
  predicate Due(cfg: DistanceConfig, w: World)
    requires Consistent(cfg, w) && w.schedule.last != NoneSpawned
  {
    cfg.origin.x - LastX(cfg, w) >= w.schedule.next
  }

  /** The second half of a step: a distance spawn when it is due. */
  function SecondPhase(cfg: DistanceConfig, w: World, d: Draw, c: Option<nat>): (r: World)
    requires Consistent(cfg, w) && w.schedule.last != NoneSpawned && DrawOk(cfg, d)
    requires Due(cfg, w) ==> PoolAnswer(w.pool, c)
    ensures Consistent(cfg, r) && |r.pool| == |w.pool|
  {
    if Due(cfg, w)
    then AfterDistanceSpawn(cfg, w, DistanceSpawnTarget(cfg, LastX(cfg, w), w.schedule.next, d.jitterY), d, c)
    else w
  }

  /**
   * `c1` and `c2` are answers the pool may give to the spawns one step
   * attempts, the first one from `w`, the second from the world the first
   * phase left (an answer that is not asked for is unconstrained).
   */
  predicate AnswersOk(cfg: DistanceConfig, status: Game.GameStatus, w: World, d1: Draw, c1: Option<nat>,
                      d2: Draw, c2: Option<nat>)
    requires Consistent(cfg, w) && DrawOk(cfg, d1) && DrawOk(cfg, d2)
  {
    !GatedOff(cfg.range, status) ==>
      && (!Live(cfg, w) ==> PoolAnswer(w.pool, c1))
      && (Due(cfg, FirstPhase(cfg, w, d1, c1)) ==> PoolAnswer(FirstPhase(cfg, w, d1, c1).pool, c2))
  }

  /**
   * One `FixedUpdate`: when gated off the reference is forgotten and nothing
   * else changes; otherwise a first spawn if needed, then a distance spawn
   * if due.
   */
  function Tick(cfg: DistanceConfig, status: Game.GameStatus, w: World, d1: Draw, c1: Option<nat>,
                d2: Draw, c2: Option<nat>): (r: World)
    requires Consistent(cfg, w) && DrawOk(cfg, d1) && DrawOk(cfg, d2)
    requires AnswersOk(cfg, status, w, d1, c1, d2, c2)
    ensures Consistent(cfg, r) && |r.pool| == |w.pool|
  {
    if GatedOff(cfg.range, status) then w.(schedule := w.schedule.(last := NoneSpawned))
    else SecondPhase(cfg, FirstPhase(cfg, w, d1, c1), d2, c2)
  }

  // ---------------------------------------------------------------------
  // What one step promises

  /** With the gate closed, a step forgets the reference and changes nothing else. */
  lemma GatedTickForgetsReference(cfg: DistanceConfig, status: Game.GameStatus, w: World, d1: Draw,
                                  c1: Option<nat>, d2: Draw, c2: Option<nat>)
    requires Consistent(cfg, w) && DrawOk(cfg, d1) && DrawOk(cfg, d2)
    requires AnswersOk(cfg, status, w, d1, c1, d2, c2)
    requires GatedOff(cfg.range, status)
    ensures Tick(cfg, status, w, d1, c1, d2, c2) == World(Schedule(NoneSpawned, w.schedule.next), w.pool)
  {
  }

  /**
   * A first spawn that succeeds places its entity `next` ahead of the
   * spawner plus half the entity's width, with z 0, and a distance spawn in
   * the same step cannot move it again.
   */
  lemma FirstSpawnPlacesAhead(cfg: DistanceConfig, status: Game.GameStatus, w: World, d1: Draw,
                              c1: Option<nat>, d2: Draw, c2: Option<nat>)
    requires Consistent(cfg, w) && DrawOk(cfg, d1) && DrawOk(cfg, d2)
    requires AnswersOk(cfg, status, w, d1, c1, d2, c2)
    requires !GatedOff(cfg.range, status) && !Live(cfg, w) && c1.Some?
    ensures var r := Tick(cfg, status, w, d1, c1, d2, c2); var e := w.pool[c1.value];
      && r.pool[c1.value].active
      && r.pool[c1.value].position.x == cfg.origin.x + w.schedule.next + e.width / 2.0
      && r.pool[c1.value].position.y
         == Clamp(cfg.origin.y + d1.jitterY + e.height / 2.0, cfg.range.minimumYClamp, cfg.range.maximumYClamp)
      && r.pool[c1.value].position.z == 0.0
  {
  }

  /**
   * With a live reference there is no first spawn, and a distance spawn is
   * attempted exactly when it is due; it aims `next` beyond the last entity.
   * A placed entity becomes the reference; a failed attempt keeps it.
   */
  lemma DistanceSpawnOnlyWhenDue(cfg: DistanceConfig, status: Game.GameStatus, w: World, d1: Draw,
                                 c1: Option<nat>, d2: Draw, c2: Option<nat>)
    requires Consistent(cfg, w) && DrawOk(cfg, d1) && DrawOk(cfg, d2)
    requires AnswersOk(cfg, status, w, d1, c1, d2, c2)
    requires !GatedOff(cfg.range, status) && Live(cfg, w)
    ensures !Due(cfg, w) ==> Tick(cfg, status, w, d1, c1, d2, c2) == w
    ensures Due(cfg, w) && c2.None? ==> Tick(cfg, status, w, d1, c1, d2, c2)
                                        == World(Schedule(w.schedule.last, d2.gapX), w.pool)
    ensures Due(cfg, w) && c2.Some? ==>
      var r := Tick(cfg, status, w, d1, c1, d2, c2); var e := w.pool[c2.value];
      && r.schedule.last == Spawned(c2.value)
      && r.pool[c2.value].active
      && r.pool[c2.value].position.x == LastX(cfg, w) + w.schedule.next + e.width / 2.0
      && r.pool[c2.value].position.z == cfg.origin.z
  {
  }

  /**
   * Once the reference is the spawner itself and the next distance is
   * positive, an open-gate step changes nothing, whatever the pool holds:
   * the spawner is "live" and zero distance from itself.
   */
  lemma SelfReferenceStalls(cfg: DistanceConfig, status: Game.GameStatus, w: World, d1: Draw,
                            c1: Option<nat>, d2: Draw, c2: Option<nat>)
    requires Consistent(cfg, w) && DrawOk(cfg, d1) && DrawOk(cfg, d2)
    requires AnswersOk(cfg, status, w, d1, c1, d2, c2)
    requires !GatedOff(cfg.range, status)
    requires w.schedule.last == SpawnerItself && 0.0 < w.schedule.next
    ensures Tick(cfg, status, w, d1, c1, d2, c2) == w
  {
  }

  /**
   * A first spawn that finds the pool full while the reference is null
   * leaves the reference on the spawner itself with a positive distance
   * (for positive gaps), the state in which `SelfReferenceStalls` applies:
   * no further spawn is attempted until the gate closes.
   */
  lemma ExhaustedFirstSpawnRefersToSelf(cfg: DistanceConfig, status: Game.GameStatus, w: World, d1: Draw,
                                        c1: Option<nat>, d2: Draw, c2: Option<nat>)
    requires Consistent(cfg, w) && DrawOk(cfg, d1) && DrawOk(cfg, d2)
    requires AnswersOk(cfg, status, w, d1, c1, d2, c2)
    requires !GatedOff(cfg.range, status)
    requires 0.0 < cfg.minimumGap.x && 0.0 < cfg.maximumGap.x
    requires w.schedule.last == NoneSpawned
    requires forall i :: 0 <= i < |w.pool| ==> w.pool[i].active
    ensures Tick(cfg, status, w, d1, c1, d2, c2) == World(Schedule(SpawnerItself, d1.gapX), w.pool)
    ensures 0.0 < d1.gapX
  {
  }

  /**
   * A pool of one entity of width 4 and a fixed x gap of 2: the first step
   * places the entity 2 ahead of the spawner and schedules the next spawn
   * 4 beyond it; once it is due, the full pool makes the attempt fail and
   * keeps the reference; once the entity is switched off, the next step
   * places it again.
   */
  lemma OneEntityScenario(cfg: DistanceConfig, e: Entity, d1: Draw, c1: Option<nat>, d2: Draw, c2: Option<nat>)
    requires cfg.minimumGap.x == 2.0 && cfg.maximumGap.x == 2.0
    requires !e.active && e.width == 4.0
    requires DrawOk(cfg, d1) && DrawOk(cfg, d2)
    requires AnswersOk(cfg, Game.GameInProgress, World(Schedule(NoneSpawned, 0.0), [e]), d1, c1, d2, c2)
    ensures var r := Tick(cfg, Game.GameInProgress, World(Schedule(NoneSpawned, 0.0), [e]), d1, c1, d2, c2);
      && r.schedule == Schedule(Spawned(0), 4.0)
      && r.pool[0].active && r.pool[0].position.x == cfg.origin.x + 2.0
  {
    assert c1 == Some(0);
  }

  /** The second step of `OneEntityScenario`: the entity has scrolled 5 behind the spawner. */
  lemma OneEntityScenarioExhausted(cfg: DistanceConfig, e: Entity, d1: Draw, c1: Option<nat>, d2: Draw,
                                   c2: Option<nat>)
    requires cfg.minimumGap.x == 2.0 && cfg.maximumGap.x == 2.0
    requires e.active && e.width == 4.0 && e.position.x == cfg.origin.x - 5.0
    requires DrawOk(cfg, d1) && DrawOk(cfg, d2)
    requires AnswersOk(cfg, Game.GameInProgress, World(Schedule(Spawned(0), 4.0), [e]), d1, c1, d2, c2)
    ensures Tick(cfg, Game.GameInProgress, World(Schedule(Spawned(0), 4.0), [e]), d1, c1, d2, c2)
         == World(Schedule(Spawned(0), 2.0), [e])
  {
  }

  /** The third step: the entity was switched off, so it is placed again, 2 ahead of the spawner. */
  lemma OneEntityScenarioRecycled(cfg: DistanceConfig, e: Entity, d1: Draw, c1: Option<nat>, d2: Draw,
                                  c2: Option<nat>)
    requires cfg.minimumGap.x == 2.0 && cfg.maximumGap.x == 2.0
    requires !e.active && e.width == 4.0
    requires DrawOk(cfg, d1) && DrawOk(cfg, d2)
    requires AnswersOk(cfg, Game.GameInProgress, World(Schedule(Spawned(0), 2.0), [e]), d1, c1, d2, c2)
    ensures var r := Tick(cfg, Game.GameInProgress, World(Schedule(Spawned(0), 2.0), [e]), d1, c1, d2, c2);
      && r.schedule == Schedule(Spawned(0), 4.0)
      && r.pool[0].active && r.pool[0].position.x == cfg.origin.x + 4.0
  {
    assert c1 == Some(0);
  }

  class DistanceSpawner {
    const spawner: Spawner
    const minimumGap: Vec3
    const maximumGap: Vec3
    /** The spawner's own `transform.position`. */
    const origin: Vec3
    var lastSpawned: LastSpawned
    var nextSpawnDistance: real

    function Config(): DistanceConfig {
      DistanceConfig(spawner.range, minimumGap, maximumGap, origin)
    }

    function Current(): World
      reads this, spawner.pool.items
    {
      World(Schedule(lastSpawned, nextSpawnDistance), spawner.pool.items[..])
    }

    ghost predicate Valid()
      reads this, spawner.pool.items
    {
      Consistent(Config(), Current())
    }

    /** A new spawner: null reference, next distance 0 (the field defaults). */
    constructor (spawner: Spawner, minimumGap: Vec3, maximumGap: Vec3, origin: Vec3)
      ensures Valid()
      ensures Config() == DistanceConfig(spawner.range, minimumGap, maximumGap, origin)
      ensures this.spawner == spawner
      ensures lastSpawned == NoneSpawned && nextSpawnDistance == 0.0
    {
      this.spawner := spawner;
      this.minimumGap := minimumGap;
      this.maximumGap := maximumGap;
      this.origin := origin;
      lastSpawned := NoneSpawned;
      nextSpawnDistance := 0.0;
    }

    /** Spawns at `spawnPosition` and reschedules from the outcome. */
    method DistanceSpawn(spawnPosition: Vec3, d: Draw) returns (c: Option<nat>)
      requires Valid() && DrawOk(Config(), d)
      modifies this, spawner.pool.items
      ensures Valid()
      ensures SpawnAnswer(spawner.range, spawner.game.status, old(spawner.pool.items[..]), c)
      ensures Current() == AfterDistanceSpawn(Config(), old(Current()), spawnPosition, d, c)
    {
      c := spawner.Spawn(spawnPosition, d.scale, d.rotation);
      if c.None? {
        if lastSpawned == NoneSpawned {
          lastSpawned := SpawnerItself;
        }
        nextSpawnDistance := d.gapX;
      } else {
        lastSpawned := Spawned(c.value);
        nextSpawnDistance := d.gapX + spawner.pool.items[c.value].width / 2.0;
      }
    }

    /** Spawns `nextSpawnDistance` ahead of the spawner. */
    method FirstSpawn(d: Draw) returns (c: Option<nat>)
      requires Valid() && DrawOk(Config(), d)
      modifies this, spawner.pool.items
      ensures Valid()
      ensures SpawnAnswer(spawner.range, spawner.game.status, old(spawner.pool.items[..]), c)
      ensures Current()
           == AfterDistanceSpawn(Config(), old(Current()), FirstSpawnTarget(Config(), old(nextSpawnDistance), d.jitterY), d, c)
    {
      var spawnPosition := Vec3(origin.x, origin.y, 0.0);
      spawnPosition := spawnPosition.(x := origin.x + nextSpawnDistance);
      spawnPosition := spawnPosition.(y := spawnPosition.y + d.jitterY);
      c := DistanceSpawn(spawnPosition, d);
    }

    /**
     * One fixed-update step, `d1` and `d2` being the draws of the first and
     * of the distance spawn, and `c1`, `c2` what those spawns returned
     * (`None` when not attempted).
     */
    method FixedUpdate(d1: Draw, d2: Draw) returns (c1: Option<nat>, c2: Option<nat>)
      requires Valid() && DrawOk(Config(), d1) && DrawOk(Config(), d2)
      modifies this, spawner.pool.items
      ensures Valid()
      ensures AnswersOk(Config(), spawner.game.status, old(Current()), d1, c1, d2, c2)
      ensures Current() == Tick(Config(), spawner.game.status, old(Current()), d1, c1, d2, c2)
    {
      c1, c2 := None, None;
      if spawner.range.onlySpawnWhileGameInProgress {
        if spawner.game.status != Game.GameInProgress {
          lastSpawned := NoneSpawned;
          return;
        }
      }
      if !Live(Config(), Current()) {
        c1 := FirstSpawn(d1);
      }
      // The reference is not null here, so reading its position is safe.
      var lastX := LastX(Config(), Current());
      if origin.x - lastX >= nextSpawnDistance {
        var spawnPosition := origin;
        spawnPosition := spawnPosition.(x := lastX + nextSpawnDistance);
        spawnPosition := spawnPosition.(y := spawnPosition.y + d2.jitterY);
        c2 := DistanceSpawn(spawnPosition, d2);
      }
    }
  }
}
