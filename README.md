# Adventure demo core, modelled in Dafny

This project models the game-logic core of a small Three.js adventure
portfolio:

- the collision system: axis-aligned boxes for the walls, and colliders that follow their owner's mesh;
- pushable logs and rocks: friction, the rest threshold, capped pushes and blocked steps;
- destructible grass patches and crates: a sword-hit radius per type, destruction and disposal;
- the player's health, invincibility window, death, respawn and world clamp;
- the keyboard input manager: held, pressed-this-frame and released-this-frame keys;
- the glowing interactive elements and the area notification banner;
- the two worlds.
  - The crossroads world has four signposts, walls at 80 and circular transition zones.
  - The unified world has five circular area zones and a clearance test around the signposts. It places grass, crates, logs, rocks, decorations and elements, and steps its pushables each frame.

How the model is put together:

- Positions are real-valued `Vec3`s.
- A mesh whose position other objects read is an `Owner` object. A collider keeps a reference to its owner and rebuilds its box from the owner's current position on every query, as the source does.
- Distance tests are on squared distances. The source's `Math.sqrt` is a parameter `sqrt` with the property `IsSqrt`, and lemmas tie each squared test to the source's `distance < r` comparison.
- Timers (`setTimeout`) become explicit "timer fires" methods plus counters of pending callbacks.
- `Math.random` values become inputs.

## Model

| member | source | states |
|---|---|---|
| Geometry.Clamp | src/entities/Player.js:112-121 | the result lies in [lo, hi], is the input when the input is already in range, and is a bound otherwise |
| Geometry.Normalize | src/entities/PushableObject.js:66 | a non-zero vector becomes one of length 1 pointing the same way (a positive multiple of it); the zero vector stays zero, since `Vector3.normalize` divides by `length || 1` |
| Geometry.IntersectsSymmetric | src/systems/CollisionSystem.js:107-116 | the strict overlap test gives the same answer whichever box comes first |
| Geometry.TouchingBoxesDoNotIntersect | src/systems/CollisionSystem.js:107-116 | boxes that only share a face do not intersect, because the comparisons are strict |
| Geometry.SameSizeBoxesIntersect | src/systems/CollisionSystem.js:49-67 | two boxes of one size intersect exactly when their centres are closer than that size on every axis |
| Geometry.PointBoxHitsEnclosingBox | src/systems/CollisionSystem.js:107-116 | a zero-size query box at a point strictly inside a box intersects that box |
| Collision.ColliderBlocksNearOwner | src/systems/CollisionSystem.js:76-99 | a collider blocks a query box exactly when, on every axis, the query centre is closer to the owner's current position than half the sum of the two sizes; the box is rebuilt from the live position, never cached |
| Collision.IndexOf | src/systems/CollisionSystem.js:39 | returns -1 exactly when the collider is absent, and otherwise the index of its first occurrence |
| Collision.RemoveAt | src/systems/CollisionSystem.js:40-43 | removing an index gives one element fewer: the elements before it keep their places, the ones after it move down by one, and the multiset loses exactly that element |
| Collision.CollisionSystem.constructor | src/systems/CollisionSystem.js:4-9 | both registries start empty |
| Collision.CollisionSystem.AddBoundary | src/systems/CollisionSystem.js:11-25 | the boundary with the given corners and name is appended and returned; colliders are unchanged |
| Collision.CollisionSystem.AddCollider | src/systems/CollisionSystem.js:27-36 | a fresh collider for the owner, size and name is appended and returned; boundaries are unchanged |
| Collision.CollisionSystem.RemoveCollider | src/systems/CollisionSystem.js:38-46 | a registered collider's first occurrence is removed; an unregistered one leaves the list unchanged and reports false |
| Collision.CollisionSystem.CheckCollision | src/systems/CollisionSystem.js:48-104 | no collision exactly when no boundary and no collider intersects the query box. Otherwise it reports the first blocking boundary, or, when no boundary blocks, the first blocking collider |
| Collision.MovedOwnerIsSeenWithoutReregistering | src/systems/CollisionSystem.js:77-98 | a collider blocks a query while its owner is at the origin, and stops blocking once the owner moves away, with no re-registration |
| Pushable.Mass | src/entities/PushableObject.js:97-128 | every mass lies in [1, 2], so a push never divides by zero |
| Pushable.Decayed | src/entities/PushableObject.js:42 | friction scales the squared speed by 0.81, so a body never speeds up by itself |
| Pushable.MovingIffFasterThanRest | src/entities/PushableObject.js:45 | the squared-speed test is the source's `length() > 0.01` |
| Pushable.OneFrameKeepsSpeedCap | src/entities/PushableObject.js:40-62 | a frame that starts at or below the speed cap ends at or below it |
| Pushable.PushedVelocity | src/entities/PushableObject.js:64-74 | after a push the speed is at most the cap of 10; a push that stays under the cap adds the normalized direction scaled by 15 × force / mass, and one that exceeds it is scaled back to length exactly 10 along the same direction (a positive multiple of the uncapped velocity) |
| Pushable.PushImpulseMagnitude | src/entities/PushableObject.js:66-68 | a push with a non-zero direction that stays under the cap changes the velocity by a vector of length exactly 15 × force / mass |
| Pushable.ZeroDirectionPushIsNoOp | src/entities/PushableObject.js:66 | a push with a zero direction leaves a velocity that is already under the cap unchanged |
| Pushable.BlockedByOthersIgnoringNothing | src/systems/CollisionSystem.js:48-104 | the collision query that skips one object's colliders agrees with `CheckCollision` when that object has no colliders |
| Pushable.PushableObject.constructor | src/entities/PushableObject.js:4-33 | the object starts at rest. The base kind has no mesh; a log's mesh sits at height 0.6 and a rock's at 1. Given a mesh and a system, exactly one collider of the kind's size, following the mesh and named `pushable-<type>-<suffix>`, is appended, and otherwise the registries are unchanged |
| Pushable.PushableObject.Update | src/entities/PushableObject.js:40-62 | as written: friction, then the rest test, then a step that is taken unless `checkCollision` reports any collision, the object's own collider included. A blocked step stops the body |
| Pushable.PushableObject.UpdateIgnoringOwnCollider | src/entities/PushableObject.js:40-62 | the corrected frame: as `Update`, but the step is blocked only by boundaries and other objects' colliders; it refines `OneFrame` |
| Pushable.PushableObject.Push | src/entities/PushableObject.js:64-77 | the new velocity is `PushedVelocity` of the old one; the position is unchanged |
| Pushable.CheckPlayerCollisionIsDistanceTest | src/entities/PushableObject.js:79-86 | the player touches the object exactly when it has a mesh and the distance between centres is below the mean of the two widths |
| Pushable.OwnColliderBlocksShortSteps | src/entities/PushableObject.js:24-33 | when each component of a step is shorter than the object's size on that axis, its own registered collider blocks the query box at the step's target |
| Pushable.RegisteredPushableBlocksItself | src/entities/PushableObject.js:46-56 | for a registered object moving at or below the speed cap with a frame of at most 0.1 s, `checkCollision` at the step target always reports a collision |
| Destructible.HitRange | src/entities/DestructibleObject.js:38-44 | the hit range lies between the sword radius and the radius + 2, and reaches radius + 2 exactly for grass |
| Destructible.DefaultHitRanges | src/entities/DestructibleObject.js:31-44 | with the default sword radius 3, grass is hit within 5, crates within 4 and every other type within 3 |
| Destructible.DestructibleObject.Plain | src/entities/DestructibleObject.js:4-25 | a base object of the given type, undestroyed, without a mesh and therefore without a bounding box |
| Destructible.DestructibleObject.GrassPatch | src/entities/DestructibleObject.js:131-159 | a grass object, undestroyed, in the scene, with a mesh at the given position |
| Destructible.DestructibleObject.WoodenCrate | src/entities/DestructibleObject.js:182-201 | a crate object, undestroyed, in the scene, with a mesh at the given ground position raised to height 1.5 |
| Destructible.DestructibleObject.Destroy | src/entities/DestructibleObject.js:48-60 | the object is destroyed; the first call takes it out of the scene and adds the 8 burst particles, a second call changes nothing, and no later sword stroke hits it |
| Destructible.DestructibleObject.Dispose | src/entities/DestructibleObject.js:122-128 | an object with a mesh leaves the scene; one without keeps its state |
| Destructible.CheckSwordHitIsDistanceTest | src/entities/DestructibleObject.js:31-46 | a sword hit is an undestroyed object with a bounding box whose mesh is closer to the sword than the type's hit range, as `distanceTo` measures it |
| Destructible.WiderRangeHitsMore | src/entities/DestructibleObject.js:38-44 | a longer hit range hits everything a shorter one does |
| Destructible.GrassIsEasiestToHit | src/entities/DestructibleObject.js:38-44 | any stroke that hits any type at some distance would also hit grass there |
| PlayerState.DamagedHealth | src/entities/Player.js:127 | the result is never below 0; it is 0 exactly when the damage reaches the health, and otherwise health less damage |
| PlayerState.HealedHealth | src/entities/Player.js:144 | the result is never above 100; it is 100 exactly when the heal reaches it, and otherwise health plus the heal |
| PlayerState.HealthStaysInRange | src/entities/Player.js:124-149 | from a health in [0, 100], damage and healing by non-negative amounts stay in [0, 100] |
| PlayerState.ClampToWorld | src/entities/Player.js:110-121 | x and z end in [-90, 90], are unchanged when already inside, and y is untouched |
| PlayerState.ClampToWorldIdempotent | src/entities/Player.js:110-121 | clamping twice is clamping once |
| PlayerState.Player.constructor | src/entities/Player.js:4-17 | full health, not invincible, at rest, with the mesh at the origin |
| PlayerState.Player.TakeDamage | src/entities/Player.js:124-141 | refused exactly while invincible. Otherwise health becomes `DamagedHealth` and 1500 ms of invincibility start, and a hit that empties health schedules one respawn |
| PlayerState.Player.Heal | src/entities/Player.js:143-149 | health becomes `HealedHealth` and nothing else changes |
| PlayerState.Player.UpdateInvincibility | src/entities/Player.js:151-176 | while invincible, the timer drops by dt × 1000 ms and invincibility ends once it reaches 0; otherwise nothing changes |
| PlayerState.Player.HandleDeath | src/entities/Player.js:186-192 | one respawn is scheduled and nothing else changes |
| PlayerState.Player.Respawn | src/entities/Player.js:194-201 | full health, mesh at the origin, at rest, not invincible; the invincibility timer is untouched |
| PlayerState.Player.RespawnTimerFires | src/entities/Player.js:189-191 | the pending 2 s callback runs `respawn` |
| PlayerState.Player.ClampPosition | src/entities/Player.js:110-121 | the mesh moves to `ClampToWorld` of its position |
| PlayerState.InvincibilityWindow | src/entities/Player.js:124-176 | a second hit inside the 1.5 s window is refused; a hit after it lands, leaving 60 of 100 after two hits of 20 |
| PlayerState.DeathAndRespawn | src/entities/Player.js:124-201 | a lethal hit leaves 0 health and one pending respawn, and the timer restores 100 |
| Input.GameKeysAreTenDistinctCodes | src/core/InputManager.js:47-58 | the game-key list holds ten distinct codes |
| Input.InputManager.constructor | src/core/InputManager.js:2-6 | the three key maps start empty |
| Input.InputManager.HandleKeyDown | src/core/InputManager.js:19-33 | the key is held; it counts as pressed this frame only if it was not already held; releases are untouched; default handling is suppressed for game keys |
| Input.InputManager.HandleKeyUp | src/core/InputManager.js:35-44 | the key is no longer held and counts as released this frame; default handling is suppressed for game keys |
| Input.InputManager.ClearFrameStates | src/core/InputManager.js:111-114 | the per-frame maps are emptied and the held keys kept |
| Input.InputManager.MovementVector | src/core/InputManager.js:78-98 | each axis is -1, 0 or +1 from WASD or the arrows; opposite keys cancel |
| Input.AttackPressIsEdgeTriggered | src/core/InputManager.js:19-28 | from any input state, after a keydown the attack reads true exactly when it already did or the key is Space and Space was not held: a fresh press fires, an auto-repeat adds nothing, other keys change nothing |
| Input.MenuPressIsEdgeTriggered | src/core/InputManager.js:19-28 | the same edge trigger for the menu read and Escape |
| Input.KeyUpFiresNothing | src/core/InputManager.js:35-44 | from any state, a keyup leaves the attack and menu reads as they were, and the key ends up released and not held |
| Input.ClearedFrameFiresNothing | src/core/InputManager.js:111-114 | from any state, after the end-of-frame clear neither the attack nor the menu reads true, and every held key stays held |
| Input.UnseenKeyReadsFalse | src/core/InputManager.js:63-75 | a code never seen reads as not held, not pressed and not released |
| Input.HoldAndRelease | src/core/InputManager.js:19-44 | an auto-repeated keydown is not a second press but keeps the key held; a keyup releases it |
| Interactive.GlowOpacity | src/entities/InteractiveElement.js:48-50 | inside the range of 6, the glow lies in (0, 0.3] and is full only at distance 0 |
| Interactive.GlowAt | src/entities/InteractiveElement.js:43-56 | the glow `update` leaves lies in [0, 0.3] and is positive exactly inside the range of 6 |
| Interactive.GlowGrowsAsPlayerApproaches | src/entities/InteractiveElement.js:48-50 | a closer player never sees a dimmer glow |
| Interactive.InteractiveElement.constructor | src/entities/InteractiveElement.js:4-15 | kind and position as given; inactive with no glow |
| Interactive.InteractiveElement.BaseUpdate | src/entities/InteractiveElement.js:40-57 | active afterwards exactly when the player is within 6. In range, the glow is `GlowOpacity` of the distance and the ring turns by 2 × dt; out of range, the glow is 0 and the ring stops |
| Interactive.InteractiveElement.Update | src/entities/InteractiveElement.js:191-199 | as `BaseUpdate`: active exactly within 6, the glow `GlowOpacity` of the distance and the ring turning by 2 × dt in range, no glow and no turn out of range; it reports activation and deactivation edges, and a crystal also spins by 0.5 × dt |
| Interactive.InteractiveElement.Activate | src/entities/InteractiveElement.js:59-63 | the element becomes active and nothing else changes |
| Interactive.InteractiveElement.Deactivate | src/entities/InteractiveElement.js:65-68 | the element becomes inactive and nothing else changes |
| AreaNotify.AreaDescription | src/utils/AreaNotification.js:72-82 | a known area gets its own sentence; exactly the unknown names get the default; never empty |
| AreaNotify.DescriptionsAreDistinct | src/utils/AreaNotification.js:73-79 | two different known areas have different sentences |
| AreaNotify.AreaNotification.constructor | src/utils/AreaNotification.js:2-11 | hidden, with no area remembered and no timer pending |
| AreaNotify.AreaNotification.Show | src/utils/AreaNotification.js:13-42 | shown exactly when the area differs from the last one shown. A shown banner carries the name and description, remembers the area and arms the 3 s fade |
| AreaNotify.AreaNotification.FadeOut | src/utils/AreaNotification.js:44-57 | the banner hides; if it was showing, one 0.5 s clear of the remembered area is scheduled |
| AreaNotify.AreaNotification.Hide | src/utils/AreaNotification.js:60-69 | hidden, area forgotten, fade cancelled |
| AreaNotify.AreaNotification.FadeTimerFires | src/utils/AreaNotification.js:39-41 | the armed fade runs `fadeOut` |
| AreaNotify.AreaNotification.ClearTimerFires | src/utils/AreaNotification.js:52-54 | a pending clear forgets the remembered area, whatever it now is |
| AreaNotify.ReentryIsSuppressedUntilCleared | src/utils/AreaNotification.js:13-57 | re-entering the same area is silent until the fade and the clear have both run, after which it is announced again |
| AreaNotify.StaleClearForgetsNewArea | src/utils/AreaNotification.js:13-57 | a clear left over from the previous banner can forget an area shown since, so a banner can be on screen with no area remembered, and that area is announced twice |
| Scenery.Walls | src/scenes/CrossroadsWorld.js:118-149 | four 20-high walls, 2 thick, on the west, east, south and north edges of the square of half-side `worldSize` |
| Scenery.AddWalls | src/scenes/CrossroadsWorld.js:118-149 | the walls are appended in order and the colliders are unchanged |
| Scenery.WallsBlockExactlyTheRim | src/scenes/CrossroadsWorld.js:118-149 | inside the world and at wall height, the walls block a box exactly when it reaches into the 2-wide rim |
| Scenery.PoleColliderStandsOnBase | src/scenes/CrossroadsWorld.js:95-109 | the 2 × 8 × 2 pole collider rests on the signpost's base point |
| Scenery.AddSignpost | src/scenes/CrossroadsWorld.js:93-116 | a new pole 4 above the base and one collider named after the area for it are appended |
| Crossroads.Reach | src/scenes/CrossroadsWorld.js:217 | the reach is half the longer side of the footprint |
| Crossroads.InTransitionIsDistanceTest | src/scenes/CrossroadsWorld.js:209-218 | the squared test is the source's `distance < maxDistance` on the ground plane |
| Crossroads.EveryReachIsSix | src/scenes/CrossroadsWorld.js:151-207 | every crossroads zone has reach 6 |
| Crossroads.CircleNotFootprint | src/scenes/CrossroadsWorld.js:209-218 | the entry test is a circle: a point outside the footprint can be inside, a footprint corner is outside, and distance exactly 6 is outside |
| Crossroads.TransitionsAreDisjoint | src/scenes/CrossroadsWorld.js:151-207 | no point is in two different transition zones, so the first match is the only one |
| Crossroads.CrossroadsWorld.constructor | src/scenes/CrossroadsWorld.js:4-16 | the four signpost colliders are appended in order, then the four walls at 80, and the zone list is stored |
| Crossroads.CrossroadsWorld.CreateSignposts | src/scenes/CrossroadsWorld.js:60-91 | one pole collider per signpost, in list order, and nothing else |
| Crossroads.CrossroadsWorld.CheckAreaTransition | src/scenes/CrossroadsWorld.js:209-227 | none exactly when no zone contains the player. Otherwise, the first zone in order that does, with the distance `Math.sqrt` gives |
| Unified.InZoneIsDistanceTest | src/scenes/UnifiedWorld.js:433-445 | the squared test is the source's `distance < radius` on the ground plane |
| Unified.ZonesAreDisjoint | src/scenes/UnifiedWorld.js:310-338 | no point is in two different area circles, so the first match is the only one |
| Unified.EveryZoneHasADescription | src/scenes/UnifiedWorld.js:310-338 | every zone's display name, the key the banner looks up, has its own sentence rather than the default |
| Unified.ClearIsDistanceTest | src/scenes/UnifiedWorld.js:410-431 | the squared test that `Clear` applies to each signpost point is the source's `distance >= minDistance`, for the distance `Math.sqrt` gives |
| Unified.ClearPositionsAreClear | src/scenes/UnifiedWorld.js:401-407 | every kept candidate is one of the inputs and is clear |
| Unified.ClearPositionsKeepsEveryClearCandidate | src/scenes/UnifiedWorld.js:401-407 | every clear candidate is kept |
| Unified.AllClearKeepsAll | src/scenes/UnifiedWorld.js:401-407 | when every candidate is clear, the filter keeps the list as it is |
| Unified.CratePositionsAreAllClear | src/scenes/UnifiedWorld.js:379-408 | all eleven crate positions pass the 3-unit clearance |
| Unified.LogPositionsAreAllClear | src/scenes/UnifiedWorld.js:449-464 | all six log positions pass the 6-unit clearance |
| Unified.RockPositionsAreAllClear | src/scenes/UnifiedWorld.js:467-481 | all five rock positions pass the 5-unit clearance |
| Unified.BushPositionsAreAllClear | src/scenes/UnifiedWorld.js:526-545 | all ten bush positions pass the 4-unit clearance |
| Unified.FlowerPatchPositionsAreAllClear | src/scenes/UnifiedWorld.js:548-567 | all ten flower-patch positions pass the 3-unit clearance |
| Unified.PlacedMeshesAreClear | src/scenes/UnifiedWorld.js:401-406 | raising kept positions to a mesh height keeps them clear |
| Unified.ClearIgnoresHeight | src/scenes/UnifiedWorld.js:410-431 | clearance depends only on x and z |
| Unified.Live | src/scenes/UnifiedWorld.js:662-664 | the live destructibles are exactly the undestroyed ones, in order |
| Unified.LiveOfConcat | src/scenes/UnifiedWorld.js:662-664 | filtering a concatenation is concatenating the filtered parts |
| Unified.LiveOfIntact | src/scenes/UnifiedWorld.js:662-664 | a list with nothing destroyed is its own live list |
| Unified.UnifiedWorld.constructor | src/scenes/UnifiedWorld.js:8-16 | every collection starts empty |
| Unified.UnifiedWorld.CreateWorldBoundaries | src/scenes/UnifiedWorld.js:277-308 | the four walls at 180 are appended and the colliders are unchanged |
| Unified.UnifiedWorld.SetupAreaZones | src/scenes/UnifiedWorld.js:310-338 | the zone list is the five circles in order |
| Unified.UnifiedWorld.GetCurrentArea | src/scenes/UnifiedWorld.js:433-445 | none exactly when no zone contains the player. Otherwise, the first zone in order that does |
| Unified.UnifiedWorld.IsPositionClear | src/scenes/UnifiedWorld.js:410-431 | true exactly when the position is at least the clearance from all five signposts |
| Unified.UnifiedWorld.CreateDestructibles | src/scenes/UnifiedWorld.js:340-348 | grass patches at the clear candidates, then crates at the clear crate positions raised to 1.5, are appended; earlier entries are kept |
| Unified.UnifiedWorld.PlaceGrassAndCrates | src/scenes/UnifiedWorld.js:340-348 | the same two segments, over any crate positions |
| Unified.UnifiedWorld.ScatterGrassPatches | src/scenes/UnifiedWorld.js:350-377 | one undestroyed grass patch in the scene per clear candidate, at that candidate, in order |
| Unified.UnifiedWorld.PlaceCrates | src/scenes/UnifiedWorld.js:379-408 | one undestroyed crate per clear crate position, at height 1.5, in order |
| Unified.UnifiedWorld.PlaceCratesAt | src/scenes/UnifiedWorld.js:401-407 | the crate loop over any positions |
| Unified.UnifiedWorld.CreatePushableObjects | src/scenes/UnifiedWorld.js:447-484 | logs at the clear log positions, then rocks at the clear rock positions. Each is at rest, registered in the world's system, with its mesh at its kind's height. The system's earlier colliders are kept, and exactly the new pushables' colliders are appended, in order; the walls are unchanged |
| Unified.UnifiedWorld.PlaceLogsAndRocks | src/scenes/UnifiedWorld.js:449-481 | the same two segments, over any positions, with the same collider bookkeeping: earlier colliders kept, the new pushables' colliders appended in order |
| Unified.UnifiedWorld.PlacePushablesAt | src/scenes/UnifiedWorld.js:458-464 | one pushable of the kind per clear position, in order, each registered. The collider list becomes the old list followed by the new pushables' colliders, in order |
| Unified.UnifiedWorld.PlacePushable | src/scenes/UnifiedWorld.js:459-463 | a clear position gets one new registered pushable at that position, and its collider is appended to an otherwise unchanged collider list; any other position adds nothing and registers nothing |
| Unified.UnifiedWorld.CreateDecorativeObjects | src/scenes/UnifiedWorld.js:486-570 | trees and boulders at every listed position, then bushes and flower patches at the clear ones, in that order |
| Unified.UnifiedWorld.PlaceDecorations | src/scenes/UnifiedWorld.js:503-507 | one decoration per position, in order |
| Unified.UnifiedWorld.PlaceDecorationsWhereClear | src/scenes/UnifiedWorld.js:539-545 | one decoration per clear position, in order |
| Unified.UnifiedWorld.UpdatePushableObjects | src/scenes/UnifiedWorld.js:572-576 | every pushable takes one frame that `OneFrame` allows from its own old velocity and position (rest, stop or full step), and all stay registered |
| Unified.UnifiedWorld.CreateInteractiveElements | src/scenes/UnifiedWorld.js:578-654 | the five About Me Meadow elements are appended in order with their kinds and ground positions, all inactive |
| Unified.UnifiedWorld.PlaceInteractiveElements | src/scenes/UnifiedWorld.js:632-651 | one new inactive element per entry, in order |
| Unified.UnifiedWorld.UpdateInteractiveElements | src/scenes/UnifiedWorld.js:656-660 | afterwards each element is active exactly when the player is within 6 of it, and its glow is `GlowAt` of the player's distance |
| Unified.UnifiedWorld.Dispose | src/scenes/UnifiedWorld.js:670-704 | every destructible with a mesh leaves the scene, one without keeps its scene state, and every destructible keeps its destroyed flag and particle count; every object list is emptied and the zone list is kept |

## Left out

- Rendering is not modelled: materials, lights, shadows, camera, GSAP tweens, particle motion, console logging and the health bar DOM update.
- The alpha oscillation in `Player.updateInvincibility` reads `Date.now()`, and the bob in `InfoCrystal.update` and the float in the other elements' animations do too. They affect only the picture, so they are left out.
- `Player.handleMovement` is left out apart from the boundary clamp: its acceleration and friction are float physics driven by the camera, and the clamp is the part other code relies on.
- `Game.js`, `main.js`, `DecorativeObject` and `CharacterModel` are not part of this model. Decorations are kept as values of kind and position, without their own meshes or colliders.
- The unified world's scenery builders (terrain, paths, signposts, buildings and the colliders they register, `src/scenes/UnifiedWorld.js:34-275`) are not modelled. `worldObjects` is only kept and emptied.
- The unified constructor's builder sequence (`src/scenes/UnifiedWorld.js:18-29`) is not composed into one method. Each builder is a method of its own.
- `Math.random` is replaced by inputs.
  - The grass candidates are an arbitrary input list, so the per-area radius and the counts 12, 20, 8 and 8 are not modelled.
  - Pushable name suffixes are inputs as well.
  - Random rotations are dropped.
- The interactive elements' text content and their info panels are not modelled.
- UpdateInteractiveElements: the world loop's contract states each element's activation and glow, not the turn of its ring or a crystal's spin. An element listed twice would turn twice, so those are stated per element by `Interactive.InteractiveElement.Update`.
- UpdatePushableObjects: steps each pushable with the corrected frame `UpdateIgnoringOwnCollider` (see Findings), not the frame as written.
- UpdatePushableObjects: the contract does not state which `OneFrame` outcome each pushable takes. It does not say that a pushable stops exactly when its step target is blocked in the state left by the pushables before it. So the list order of the loop is not captured either. That per-object outcome is stated by `Pushable.PushableObject.UpdateIgnoringOwnCollider`.
- Pushable.PushableObject.Update requires a mesh when the body moves. A moving pushable without a mesh would throw in the source, and no caller builds one.
- Destructible.DestructibleObject.Destroy requires a mesh or an already destroyed object. The source would throw on a null mesh, and every subclass builds one.
- `PushableObject.dispose`, `CrossroadsWorld.dispose` and `getWorldObjects` are not modelled separately. They only remove meshes from the scene or return a list.
- AreaNotify.AreaDescription: the source looks names up in a plain object, so a prototype name such as `toString` would return a function rather than the default. Only string keys are modelled.
- Default arguments are not modelled as defaults; callers pass every argument. This covers the names `'boundary'` and `'collider'` of `addBoundary` and `addCollider`, the force 1 of `push`, the type `'grass'` of the destructible base constructor, the description of `AreaNotification.show`, and the sword radius 3 of `checkSwordHit`. The sword radius is stated by `Destructible.DefaultHitRanges`.
- Player health stays within range only when callers pass a non-negative amount. The source does not check the sign, and the lemmas state this precondition.

## Findings

| source | as written | input that shows it | evidently intended | confidence | as-written member | corrected member |
|---|---|---|---|---|---|---|
| src/entities/PushableObject.js:46-56 | `update` tests the step target with `collisionSystem.checkCollision`. That query includes the object's own collider, registered at lines 27-31, and it follows the mesh | a registered rock whose velocity is (9, 0, 0) after friction, in a 20 ms frame: the step is 0.18, shorter than the rock's 2-wide box, so its own collider blocks it, the step is refused and the velocity is zeroed. So a pushed object never moves in a frame of at most 0.1 s. Only a frame long enough for one step to clear the object's own box lets it move, for a rock at speed 9 a frame of over 2/9 s, such as the first frame after a pause | the step is blocked only by boundaries and other objects' colliders | not executed | Pushable.PushableObject.Update, Pushable.RegisteredPushableBlocksItself | Pushable.PushableObject.UpdateIgnoringOwnCollider |

The defect is latent in the program as shipped. `src/core/Game.js` and `src/main.js` construct neither world, and no file of the model's sources calls `push` or `updatePushableObjects`. So no pushable object is ever stepped, and the defect cannot be seen in play.

A related observation about the area banner is modelled rather than corrected. A fade's 0.5 s clear does not check which area it clears. So once it has been scheduled it can forget an area shown in the meantime, and `AreaNotify.StaleClearForgetsNewArea` exhibits this. The model keeps the source's behaviour here.
