/**
 * The entity pool: a fixed number of pre-created entities, never destroyed,
 * only switched between active and inactive. Its implementation is not part
 * of this model; what is modelled is its contract: a request yields some
 * inactive entity, or nothing when every entity is active.
 */
module Pooling {
  import opened Geometry

  /** A footprint extent read from an entity's renderer bounds; never negative. */
  type Extent = r: real | 0.0 <= r

  /**
   * A pooled game object: its active flag, its transform (local scale,
   * position, Euler rotation) and its footprint (`bounds.size.x` and `.y`),
   * which the spawners only read.
   */
  datatype Entity = Entity(
    active: bool,
    scale: Vec3,
    position: Vec3,
    rotation: Vec3,
    width: Extent,
    height: Extent)

  datatype Option<T> = None | Some(value: T)

  /**
   * `c` is an answer the pool may give when it holds `pool`: the index of an
   * inactive entity, or `None` exactly when every entity is active. No order
   * of search is implied.
   */
  predicate PoolAnswer(pool: seq<Entity>, c: Option<nat>) {
    match c
    case Some(i) => i < |pool| && !pool[i].active
    case None => forall i :: 0 <= i < |pool| ==> pool[i].active
  }

  class ObjectPooler {
    /** The entities; the array is never replaced, so the capacity is fixed. */
    const items: array<Entity>

    constructor (entities: seq<Entity>)
      ensures items[..] == entities && fresh(items)
    {
      items := new Entity[|entities|](i requires 0 <= i < |entities| => entities[i]);
    }

    /** Hands out an inactive entity without activating it, or nothing when all are in use. */
    method GetPooledGameObject() returns (r: Option<nat>)
      ensures PoolAnswer(items[..], r)
    {
      var i := 0;
      while i < items.Length
        invariant 0 <= i <= items.Length
        invariant forall j :: 0 <= j < i ==> items[j].active
      {
        if !items[i].active {
          return Some(i);
        }
        i := i + 1;
      }
      return None;
    }

    /**
     * Stands for code outside the pool that switches an entity off (a pickup
     * being collected, an entity leaving the screen): only entity `i` changes,
     * and only its active flag.
     */
    method Deactivate(i: nat)
      requires i < items.Length
      modifies items
      ensures items[..] == old(items[..])[i := old(items[i]).(active := false)]
    {
      items[i] := items[i].(active := false);
    }
  }
}
