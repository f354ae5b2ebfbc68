# Infinite runner engine: world generation and game state, in Dafny

This project models the core of a Unity endless-runner engine (InfiniteRunnerEngine) and proves properties about it:

- **Spawner.** It takes an inactive entity from an object pool, gives it a random scale, and places it so that its near edge sits on the requested position. It then clamps the entity's height into a band, gives it a random rotation and activates it.
- **Distance spawner.** This is a scheduler over two fields: the last spawned transform and the next spawn distance. Each physics step it makes a *first spawn* when the reference is null or inactive, then a *distance spawn* once the spawner is far enough beyond the last entity.
- **Game manager.** It holds the status, lives, points, the public time scale, and the engine's global time scale, which pausing saves and restores. It also holds the body of the score coroutine.
- **Event manager.** It has four broadcast events. Each event is an ordered invocation list, and each trigger invokes only its own event's list.
- **Playable character.** Ground collisions set and clear its grounded flag. When grounded, its x velocity steers it back to its starting x.
- **Jumper.** A character with a jump counter, a cooldown and an optional grounded-only rule. A landing refills its jumps.

The source is imperative throughout, so each component is a Dafny `class` whose methods update its fields in place.

Each method is proved against a specification function on values. For example, `State() == AfterPause(old(State()))` or `Current() == Tick(...)`. What the source promises is then proved as lemmas about those functions.

## Modelling conventions

- **Random draws** are parameters. A float `Random.Range(a, b)` result is any value between `a` and `b` (`Geometry.Between`).
- **`Time.time`** is a parameter.
- **The pool** is modelled by its contract only, through `Pooling.PoolAnswer`. It returns the index of some inactive entity, or `None` exactly when every entity is active. No search order is assumed.
- **`Deactivate`** stands for the code outside the pool that switches entities off, such as pickups.
- **Footprints** (`Renderer.bounds.size`) are abstracted to one non-negative width and height per entity, which the spawners read but never change. See `Spawning.Placed` and `DistanceSpawning.Rescheduled` under "Left out".
- **Scalars** are reals.

Three behaviours of the code are proved and worth knowing:

- The null dereference at `DistanceSpawner.FixedUpdate`'s distance check cannot happen while the gate is open. A failed first spawn makes the spawner itself the reference. This is proved by `FirstPhase` and `Rescheduled`.
- Once the reference is the spawner itself and the next distance is positive, every open-gate step changes nothing. The spawner counts as live and is at distance 0 from itself. Spawning resumes only after the gate closes, which resets the reference to null. This is proved by `SelfReferenceStalls` and `ExhaustedFirstSpawnRefersToSelf`.
- The jump counter is only compared with 0. With a negative `NumberOfJumpsAllowed`, jumps are therefore not limited by the counter, short of 32-bit wrap-around (`NegativeAllowanceNeverRunsOut`).

## Model

| member | source | states |
|---|---|---|
| Geometry.Clamp | Assets/InfiniteRunnerEngine/Scripts/Spawner/Spawner.cs:63 | `Mathf.Clamp`: the result lies in `[lo, hi]` when `lo <= hi`; a value already inside is unchanged; the result is the value or one of the bounds; a value below `lo` gives `lo`; otherwise a value above `hi` gives `hi` |
| Pooling.ObjectPooler.GetPooledGameObject | Assets/InfiniteRunnerEngine/Scripts/Spawner/Spawner.cs:53-54 | the pool hands out the index of an inactive entity, or nothing exactly when every entity is active |
| Pooling.ObjectPooler.Deactivate | Assets/InfiniteRunnerEngine/Scripts/PickableObjects/PickableObject.cs:32 | switching an entity off changes only that entity's active flag |
| Spawning.Placed | Assets/InfiniteRunnerEngine/Scripts/Spawner/Spawner.cs:56-74 | a placed entity is active; its scale and rotation are the draws and lie within the per-axis ranges; x is the target x plus half the width; y is the clamp of the target y plus half the height, and lies in the clamp band when the band is well-formed; z is the target's; the footprint is kept |
| Spawning.AfterSpawn | Assets/InfiniteRunnerEngine/Scripts/Spawner/Spawner.cs:53-76 | the pool keeps its length; without an entity it is unchanged; with one, only that entry changes, to its placed form |
| Spawning.Spawner.Spawn | Assets/InfiniteRunnerEngine/Scripts/Spawner/Spawner.cs:43-78 | returns nothing, without touching the pool, when gated off by the game status; otherwise the pool's answer; the pool afterwards is `AfterSpawn` of the old pool |
| DistanceSpawning.Rescheduled | Assets/InfiniteRunnerEngine/Scripts/Spawner/DistanceSpawner.cs:87-105 | after a spawn the reference is never null; on failure a null reference becomes the spawner itself and any other is kept, and the next distance is a gap draw; on success the reference is the new entity and the next distance lies in `[MinimumGap.x + w/2, MaximumGap.x + w/2]`; with non-negative gaps the next distance is non-negative |
| DistanceSpawning.AfterDistanceSpawn | Assets/InfiniteRunnerEngine/Scripts/Spawner/DistanceSpawner.cs:87-105 | a distance spawn keeps the scheduler invariant and the pool's size, and leaves a non-null reference |
| DistanceSpawning.FirstPhase | Assets/InfiniteRunnerEngine/Scripts/Spawner/DistanceSpawner.cs:66-69 | after the first-spawn check the reference is not null, so the position read at the distance check is safe; the invariant and pool size are kept |
| DistanceSpawning.SecondPhase | Assets/InfiniteRunnerEngine/Scripts/Spawner/DistanceSpawner.cs:72-80 | the distance check and spawn keep the scheduler invariant and the pool size |
| DistanceSpawning.Tick | Assets/InfiniteRunnerEngine/Scripts/Spawner/DistanceSpawner.cs:54-81 | a whole fixed-update step keeps the scheduler invariant (reference inside the pool, non-negative distance for non-negative gaps) and the pool size |
| DistanceSpawning.GatedTickForgetsReference | Assets/InfiniteRunnerEngine/Scripts/Spawner/DistanceSpawner.cs:56-63 | with the gate closed a step sets the reference to null and changes nothing else |
| DistanceSpawning.FirstSpawnPlacesAhead | Assets/InfiniteRunnerEngine/Scripts/Spawner/DistanceSpawner.cs:41-49 | a successful first spawn puts its entity at spawner x + next distance + half its width, y clamped from spawner y + jitter + half its height, z 0, and the distance spawn of the same step does not move it |
| DistanceSpawning.DistanceSpawnOnlyWhenDue | Assets/InfiniteRunnerEngine/Scripts/Spawner/DistanceSpawner.cs:72-80 | with a live reference, a step changes nothing unless spawner x − last x ≥ next distance; then it targets last x + next distance; success makes the new entity the reference, failure keeps the reference and redraws the gap |
| DistanceSpawning.SelfReferenceStalls | Assets/InfiniteRunnerEngine/Scripts/Spawner/DistanceSpawner.cs:93-96 | with the spawner itself as reference and a positive next distance, an open-gate step changes nothing |
| DistanceSpawning.ExhaustedFirstSpawnRefersToSelf | Assets/InfiniteRunnerEngine/Scripts/Spawner/DistanceSpawner.cs:91-98 | a first spawn from a null reference into a full pool leaves the spawner itself as reference with a positive distance, for positive gaps |
| DistanceSpawning.OneEntityScenario | Assets/InfiniteRunnerEngine/Scripts/Spawner/DistanceSpawner.cs:54-105 | one entity of width 4, gap 2: the first step places it 2 ahead of the spawner and schedules the next spawn 4 beyond it |
| DistanceSpawning.OneEntityScenarioExhausted | Assets/InfiniteRunnerEngine/Scripts/Spawner/DistanceSpawner.cs:91-98 | once that spawn is due while the only entity is still active, the attempt fails, keeps the reference and redraws the gap |
| DistanceSpawning.OneEntityScenarioRecycled | Assets/InfiniteRunnerEngine/Scripts/Spawner/DistanceSpawner.cs:66-69 | once the referenced entity is switched off, the next step places it again, next distance ahead of the spawner |
| DistanceSpawning.DistanceSpawner.constructor | Assets/InfiniteRunnerEngine/Scripts/Spawner/DistanceSpawner.cs:25-26 | a new scheduler has a null reference and next distance 0, and satisfies the invariant |
| DistanceSpawning.DistanceSpawner.DistanceSpawn | Assets/InfiniteRunnerEngine/Scripts/Spawner/DistanceSpawner.cs:87-105 | the new state is `AfterDistanceSpawn` of the old one, the spawn's answer obeys the gate and the pool contract, and the invariant is kept |
| DistanceSpawning.DistanceSpawner.FirstSpawn | Assets/InfiniteRunnerEngine/Scripts/Spawner/DistanceSpawner.cs:41-49 | spawns at `FirstSpawnTarget` (next distance ahead of the spawner, jittered y, z 0) and keeps the invariant |
| DistanceSpawning.DistanceSpawner.FixedUpdate | Assets/InfiniteRunnerEngine/Scripts/Spawner/DistanceSpawner.cs:54-81 | the new state is `Tick` of the old one for the answers the pool gave, and the invariant is kept |
| Game.StartFillsLivesAndScales | Assets/InfiniteRunnerEngine/Scripts/Managers/GameManager.cs:48-54 | `Start` sets current lives to total lives, and both the saved and the engine time scale to `TimeScale` |
| Game.PauseStopsTime | Assets/InfiniteRunnerEngine/Scripts/Managers/GameManager.cs:177-185 | from a positive engine scale, `Pause` saves it, sets the engine scale to 0 and the status to `Paused`, leaving points, lives and `TimeScale` alone |
| Game.PauseWhenStoppedUnpauses | Assets/InfiniteRunnerEngine/Scripts/Managers/GameManager.cs:186-189 | with time stopped, `Pause` is exactly `UnPause`, which restores the saved scale |
| Game.PauseToggleRestores | Assets/InfiniteRunnerEngine/Scripts/Managers/GameManager.cs:160-200 | from a positive scale, `Pause; Pause` and `Pause; UnPause` agree, restore that scale and put the game in progress |
| Game.PointsAddAndSet | Assets/InfiniteRunnerEngine/Scripts/Managers/GameManager.cs:120-134 | adding accumulates exactly and setting overwrites (add 5, add 3 gives +8; then set 2 gives 2) |
| Game.LivesOnlyTouchLives | Assets/InfiniteRunnerEngine/Scripts/Managers/GameManager.cs:140-154 | `LoseLives(n)` subtracts exactly n and `SetLives(n)` assigns n; nothing else changes |
| Game.ResetKeepsLivesAndEngineScale | Assets/InfiniteRunnerEngine/Scripts/Managers/GameManager.cs:74-81 | `Reset` sets points 0, `TimeScale` 1 and status `GameInProgress`; lives and the engine and saved scales are kept |
| Game.AfterScoreTicks | Assets/InfiniteRunnerEngine/Scripts/Managers/GameManager.cs:103-113 | a run of score ticks changes only the points and the status; the status ends as the last one set; no ticks change nothing |
| Game.InProgressCountZero | Assets/InfiniteRunnerEngine/Scripts/Managers/GameManager.cs:107 | no tick finds the game in progress exactly when no status of the run is `GameInProgress` |
| Game.NoScoreExactlyWhenNeverInProgress | Assets/InfiniteRunnerEngine/Scripts/Managers/GameManager.cs:107-110 | with a positive rate, a run of ticks leaves the points unchanged exactly when the game was never in progress at a tick |
| Game.ScoreTicksCountOnlyInProgress | Assets/InfiniteRunnerEngine/Scripts/Managers/GameManager.cs:103-113 | over any run of score ticks, points grow by `pointsPerSecond/100` for exactly the ticks that find the game in progress; missed ticks are not made up |
| Game.GameManager.constructor | Assets/InfiniteRunnerEngine/Scripts/Managers/GameManager.cs:14-35 | a new manager is before game start with no points, no current lives and the engine at scale 1 |
| Game.GameManager.Start | Assets/InfiniteRunnerEngine/Scripts/Managers/GameManager.cs:48-54 | the new state is `AfterStart` of the old one |
| Game.GameManager.SetPointsPerSecond | Assets/InfiniteRunnerEngine/Scripts/Managers/GameManager.cs:56-59 | only the points-per-second rate changes |
| Game.GameManager.SetStatus | Assets/InfiniteRunnerEngine/Scripts/Managers/GameManager.cs:65-69 | only the status changes |
| Game.GameManager.Reset | Assets/InfiniteRunnerEngine/Scripts/Managers/GameManager.cs:74-81 | the new state is `AfterReset` of the old one, and `GameStart`'s handlers are invoked once, in order |
| Game.GameManager.IncrementScoreTick | Assets/InfiniteRunnerEngine/Scripts/Managers/GameManager.cs:107-110 | the new state is `AfterScoreTick` of the old one |
| Game.GameManager.AddPoints | Assets/InfiniteRunnerEngine/Scripts/Managers/GameManager.cs:120-124 | the new state is `AfterAddPoints` of the old one |
| Game.GameManager.SetPoints | Assets/InfiniteRunnerEngine/Scripts/Managers/GameManager.cs:130-134 | the new state is `AfterSetPoints` of the old one |
| Game.GameManager.SetLives | Assets/InfiniteRunnerEngine/Scripts/Managers/GameManager.cs:140-144 | the new state is `AfterSetLives` of the old one |
| Game.GameManager.LoseLives | Assets/InfiniteRunnerEngine/Scripts/Managers/GameManager.cs:150-154 | the new state is `AfterLoseLives` of the old one |
| Game.GameManager.SetTimeScale | Assets/InfiniteRunnerEngine/Scripts/Managers/GameManager.cs:160-164 | the engine scale is saved, then replaced by the new one |
| Game.GameManager.ResetTimeScale | Assets/InfiniteRunnerEngine/Scripts/Managers/GameManager.cs:169-172 | the engine scale is restored from the saved one |
| Game.GameManager.Pause | Assets/InfiniteRunnerEngine/Scripts/Managers/GameManager.cs:177-190 | the new state is `AfterPause` of the old one |
| Game.GameManager.UnPause | Assets/InfiniteRunnerEngine/Scripts/Managers/GameManager.cs:195-200 | the new state is `AfterUnPause` of the old one |
| Events.LastIndexOf | Assets/InfiniteRunnerEngine/Scripts/Managers/EventManager.cs:13 | the position of the last occurrence of a handler in an invocation list, or −1 exactly when it does not occur |
| Events.RemoveLast | Assets/InfiniteRunnerEngine/Scripts/Managers/EventManager.cs:13 | unsubscribing a handler that is not subscribed leaves the list unchanged; otherwise the list loses exactly one entry |
| Events.RemoveLastDropsLastOccurrence | Assets/InfiniteRunnerEngine/Scripts/Managers/EventManager.cs:13 | the entry removed is the last occurrence of the handler (as `LastIndexOf` finds it), and the entries before and after it keep their order |
| Events.EventManager.constructor | Assets/InfiniteRunnerEngine/Scripts/Managers/EventManager.cs:13 | at start-up no event has a subscriber |
| Events.EventManager.SetSubscribers | Assets/InfiniteRunnerEngine/Scripts/Managers/EventManager.cs:13 | replacing one event's list leaves the other three unchanged |
| Events.EventManager.Subscribe | Assets/InfiniteRunnerEngine/Scripts/Managers/EventManager.cs:13 | subscribing appends to that event's list only |
| Events.EventManager.Unsubscribe | Assets/InfiniteRunnerEngine/Scripts/Managers/EventManager.cs:13 | unsubscribing applies `RemoveLast` to that event's list only |
| Events.EventManager.Trigger | Assets/InfiniteRunnerEngine/Scripts/Managers/EventManager.cs:16-41 | a trigger invokes exactly its own event's subscribers, in order, nothing when there are none, and changes no list |
| Events.EventManager.TriggerBeforeGameStart | Assets/InfiniteRunnerEngine/Scripts/Managers/EventManager.cs:16-20 | invokes exactly the `BeforeGameStart` subscribers |
| Events.EventManager.TriggerWorldReset | Assets/InfiniteRunnerEngine/Scripts/Managers/EventManager.cs:23-27 | invokes exactly the `WorldReset` subscribers |
| Events.EventManager.TriggerGameStart | Assets/InfiniteRunnerEngine/Scripts/Managers/EventManager.cs:30-34 | invokes exactly the `GameStart` subscribers |
| Events.EventManager.TriggerGameOver | Assets/InfiniteRunnerEngine/Scripts/Managers/EventManager.cs:37-41 | invokes exactly the `GameOver` subscribers |
| Characters.SteeringVelocity | Assets/InfiniteRunnerEngine/Scripts/PlayableCharacters/PlayableCharacter.cs:94 | with a positive speed the steering x velocity points towards the starting x and is zero exactly there; with zero speed it is zero |
| Characters.PlayableCharacter.constructor | Assets/InfiniteRunnerEngine/Scripts/PlayableCharacters/PlayableCharacter.cs:13-22 | the inspector defaults: reset on, reset speed 0.5, not grounded |
| Characters.PlayableCharacter.IsGrounded | Assets/InfiniteRunnerEngine/Scripts/PlayableCharacters/PlayableCharacter.cs:15 | reports the grounded flag, which only ground collisions set and clear |
| Characters.PlayableCharacter.SetInitialPosition | Assets/InfiniteRunnerEngine/Scripts/PlayableCharacters/PlayableCharacter.cs:46-49 | stores exactly the given position |
| Characters.PlayableCharacter.ResetPosition | Assets/InfiniteRunnerEngine/Scripts/PlayableCharacters/PlayableCharacter.cs:88-97 | only when reset is on and the character is grounded, the x velocity becomes the steering velocity, keeping y and z; otherwise the velocity is unchanged |
| Characters.PlayableCharacter.FixedUpdate | Assets/InfiniteRunnerEngine/Scripts/PlayableCharacters/PlayableCharacter.cs:52-59 | the physics step is the position reset |
| Characters.PlayableCharacter.CollisionEnter | Assets/InfiniteRunnerEngine/Scripts/PlayableCharacters/PlayableCharacter.cs:221-231 | touching a Ground-layer object not above the character grounds it; any other contact leaves the flag unchanged |
| Characters.PlayableCharacter.CollisionExit | Assets/InfiniteRunnerEngine/Scripts/PlayableCharacters/PlayableCharacter.cs:237-244 | leaving a Ground-layer object ungrounds the character; other exits change nothing |
| Jumping.AfterJumpRequest | Assets/InfiniteRunnerEngine/Scripts/PlayableCharacters/Jumper.cs:49-84 | a request either changes nothing or uses exactly one jump (the counter is unchanged exactly when the state is); it keeps the counter in range, never changes the ground flag, and at most appends one impulse |
| Jumping.AfterCollisionEnter | Assets/InfiniteRunnerEngine/Scripts/PlayableCharacters/Jumper.cs:112-125 | a contact either changes nothing or grounds the jumper with the counter in range whatever it was before; it never ungrounds, moves, pushes or resets the cooldown |
| Jumping.BlockedRequestChangesNothing | Assets/InfiniteRunnerEngine/Scripts/PlayableCharacters/Jumper.cs:53-68 | each guard alone (grounded-only while airborne, no jumps left, cooldown running) makes a jump request change nothing |
| Jumping.GrantedRequestJumps | Assets/InfiniteRunnerEngine/Scripts/PlayableCharacters/Jumper.cs:71-83 | a granted jump uses exactly one jump, records the time, sets jumping, zeroes a falling velocity and keeps any other, and adds one upward impulse of `JumpForce` |
| Jumping.JumpsStayInRange | Assets/InfiniteRunnerEngine/Scripts/PlayableCharacters/Jumper.cs:59-122 | jump requests and landings keep jumps left within `[0, NumberOfJumpsAllowed]` when the allowance is not negative |
| Jumping.JumpsBoundedBetweenLandings | Assets/InfiniteRunnerEngine/Scripts/PlayableCharacters/Jumper.cs:59-71 | between landings, any run of requests is granted at most the jumps that were left, and each granted one uses exactly one |
| Jumping.NegativeAllowanceNeverRunsOut | Assets/InfiniteRunnerEngine/Scripts/PlayableCharacters/Jumper.cs:59-62 | with a negative allowance, a landing leaves the counter negative and a jump keeps it negative, so the counter does not stop a request (unbounded integers) |
| Jumping.Jumper.constructor | Assets/InfiniteRunnerEngine/Scripts/PlayableCharacters/Jumper.cs:19-21 | jumps left 0, not jumping, last jump time 0 |
| Jumping.Jumper.MainActionStart | Assets/InfiniteRunnerEngine/Scripts/PlayableCharacters/Jumper.cs:49-84 | the new state is `AfterJumpRequest` of the old one at the given time, and the jump counter stays in range |
| Jumping.Jumper.FixedUpdate | Assets/InfiniteRunnerEngine/Scripts/PlayableCharacters/Jumper.cs:26-34 | jumping is always cleared, then the position reset applies; nothing else changes |
| Jumping.Jumper.CollisionEnter | Assets/InfiniteRunnerEngine/Scripts/PlayableCharacters/Jumper.cs:112-125 | landing on Ground from above grounds the jumper, clears jumping and refills jumps to `NumberOfJumpsAllowed`; other contacts change nothing |
| Jumping.Jumper.CollisionExit | Assets/InfiniteRunnerEngine/Scripts/PlayableCharacters/PlayableCharacter.cs:237-244 | the inherited exit: leaving Ground ungrounds the jumper, nothing else changes |

## Left out

- The `ObjectPooler` implementation is not part of this model. The pool is described by its contract (`PoolAnswer`) and by a linear search that meets it. No search order is promised.
- `GUIManager` calls (initialise, refresh points, initialise lives, set pause) are left out. They only refresh the interface and do not feed back into the modelled state.
- The inspector-redraw event raised by `SetStatus` is left out. It is an editor notification.
- `AutoIncrementScore` is left out, along with the coroutine's 0.01 s `WaitForSeconds` cadence. The loop body is modelled as one tick (`IncrementScoreTick`), and a run of ticks as `AfterScoreTicks`.
- `Jumper.JumpSlow` and `MainActionEnd` are left out. They are a per-frame deceleration coroutine driven by frame time.
- Animator updates, debug logging and gizmo drawing are left out.
- Physics is not simulated. `AddForce` is recorded as an impulse appended to a list, and positions are inputs that physics moves outside the model. The 2D/3D rigidbody dispatch is not modelled.
- Floating point is modelled as mathematical reals. Rounding, overflow to infinity and NaN are not modelled.
- Spawning.Placed: the footprint is one fixed width and height per entity. In the source it is the renderer's world bounds. That is read after the drawn scale is applied, so it depends on the scale draw. The model does not capture that dependence.
- DistanceSpawning.Rescheduled: the width added to the next distance is the same footprint used for the placement offset. In the source it is read again after the drawn rotation and activation, so it may differ from the width read for the offset.
- Jumping.NegativeAllowanceNeverRunsOut: integers are unbounded. The source's 32-bit `_numberOfJumpsLeft--` wraps from its minimum to its maximum, so after about 2^32 jumps without a landing the counter would reach 0.
- Jumping.Jumper.MainActionStart: the decrement of the jump counter does not model 32-bit wrap-around. Only a negative allowance can ever reach the wrap.
- Game.GameManager.LoseLives: the subtraction does not model 32-bit wrap-around of `CurrentLives`.
- `activeInHierarchy` is taken to be the entity's own active flag, because pooled entities have no inactive parent in this model.
- What an event handler does when invoked is left out. A trigger reports the handlers it invokes, in order.
- The static `GameManager.Instance` is taken to be the manager whose method is running.
- The spawners read the status of the manager they hold.
- MovingObject, Parallax, ParallaxOffset, Dragon, PickableObject (except its deactivation, which `Deactivate` stands for), and the GUI and scene-loading scripts are not part of this model.
- The randomness of `Random.Range` is left out. Each draw is a parameter that may take any value between the two bounds.
