/**
 * The base spawner: takes an inactive entity from its pool, gives it a random
 * scale, moves it so that its near edge lands on the requested position,
 * clamps its height, gives it a random rotation and activates it.
 */
module Spawning {
  import opened Geometry
  import opened Pooling
  import Game

  /** The spawner's inspector settings. */
  datatype SpawnRange = SpawnRange(
    minimumSize: Vec3,
    maximumSize: Vec3,
    minimumRotation: Vec3,
    maximumRotation: Vec3,
    minimumYClamp: real,
    maximumYClamp: real,
    onlySpawnWhileGameInProgress: bool)

  /** `scale` and `rotation` are values the per-axis `Random.Range` draws of one spawn can take. */
  predicate DrawFits(range: SpawnRange, scale: Vec3, rotation: Vec3) {
    && BetweenVec(scale, range.minimumSize, range.maximumSize)
    && BetweenVec(rotation, range.minimumRotation, range.maximumRotation)
  }

  /** The spawner is switched off by the game's status. */
  predicate GatedOff(range: SpawnRange, status: Game.GameStatus) {
    range.onlySpawnWhileGameInProgress && status != Game.GameInProgress
  }

  /**
   * Entity `e` once placed at `target` with the drawn `scale` and `rotation`:
   * active, shifted by half its footprint on x and y, y clamped, z kept.
   */
  function Placed(range: SpawnRange, e: Entity, target: Vec3, scale: Vec3, rotation: Vec3): (r: Entity)
    requires DrawFits(range, scale, rotation)
    ensures r.active
    ensures r.scale == scale && BetweenVec(r.scale, range.minimumSize, range.maximumSize)
    ensures r.rotation == rotation && BetweenVec(r.rotation, range.minimumRotation, range.maximumRotation)
    ensures r.position.x == target.x + e.width / 2.0
    ensures r.position.y == Clamp(target.y + e.height / 2.0, range.minimumYClamp, range.maximumYClamp)
    ensures range.minimumYClamp <= range.maximumYClamp
            ==> Within(r.position.y, range.minimumYClamp, range.maximumYClamp)
    ensures r.position.z == target.z
    ensures r.width == e.width && r.height == e.height
  {
    var p := Vec3(target.x + e.width / 2.0, target.y + e.height / 2.0, target.z);
    e.(active := true,
       scale := scale,
       position := p.(y := Clamp(p.y, range.minimumYClamp, range.maximumYClamp)),
       rotation := rotation)
  }

  /**
   * `c` is what `Spawn` may return when the game is in `status` and the pool
   * holds `pool`: nothing when gated off (the pool is not asked), otherwise
   * the pool's answer.
   */
  predicate SpawnAnswer(range: SpawnRange, status: Game.GameStatus, pool: seq<Entity>, c: Option<nat>) {
    if GatedOff(range, status) then c == None else PoolAnswer(pool, c)
  }

  /**
   * The pool after a spawn that returned `c`: unchanged when nothing was
   * handed out, otherwise only the handed-out entity is placed.
   */
  function AfterSpawn(range: SpawnRange, pool: seq<Entity>, target: Vec3, scale: Vec3, rotation: Vec3,
                      c: Option<nat>): (r: seq<Entity>)
    requires c.Some? ==> PoolAnswer(pool, c)
    requires DrawFits(range, scale, rotation)
    ensures |r| == |pool|
    ensures c.None? ==> r == pool
    ensures c.Some? ==> r[c.value] == Placed(range, pool[c.value], target, scale, rotation)
    ensures forall j :: 0 <= j < |pool| && c != Some(j) ==> r[j] == pool[j]
  {
    if c.Some? then pool[c.value := Placed(range, pool[c.value], target, scale, rotation)] else pool
  }

  class Spawner {
    const range: SpawnRange
    const pool: ObjectPooler
    /** The game manager whose status gates spawning. */
    const game: Game.GameManager

    constructor (range: SpawnRange, pool: ObjectPooler, game: Game.GameManager)
      ensures this.range == range && this.pool == pool && this.game == game
    {
      this.range := range;
      this.pool := pool;
      this.game := game;
    }

    /**
     * Spawns an entity at `spawnPosition`, `scale` and `rotation` being the
     * random draws. Returns the entity's index, or `None` without touching
     * the pool when gated off or when every entity is active.
     */
    method Spawn(spawnPosition: Vec3, scale: Vec3, rotation: Vec3) returns (r: Option<nat>)
      requires DrawFits(range, scale, rotation)
      modifies pool.items
      ensures SpawnAnswer(range, game.status, old(pool.items[..]), r)
      ensures pool.items[..] == AfterSpawn(range, old(pool.items[..]), spawnPosition, scale, rotation, r)
    {
      if range.onlySpawnWhileGameInProgress {
        if game.status != Game.GameInProgress {
          return None;
        }
      }
      r := pool.GetPooledGameObject();
      if r.None? {
        return;
      }
      var i := r.value;
      var e := pool.items[i];
      pool.items[i] := e.(scale := scale);
      var p := Vec3(spawnPosition.x + e.width / 2.0, spawnPosition.y + e.height / 2.0, spawnPosition.z);
      p := p.(y := Clamp(p.y, range.minimumYClamp, range.maximumYClamp));
      pool.items[i] := pool.items[i].(position := p);
      pool.items[i] := pool.items[i].(rotation := rotation);
      pool.items[i] := pool.items[i].(active := true);
    }
  }
}
