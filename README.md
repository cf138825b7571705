# Sculk Horde entities: a Dafny model

This project models the decision rules and bookkeeping in two entities of the Sculk Horde
Minecraft mod:

- The **sculk zombie** (`SculkZombieEntity`) has a natural-spawn rule. It refuses peaceful
  worlds, every spawn reason other than natural spawning or chunk generation, and every
  position above Y level 15. It also has constants for spawn weight and group size. Its
  `registerGoals` gives each goal of its two goal arrays ("payloads") a priority equal to
  its index.
- The **sculk bee infector** (`SculkBeeInfectorEntity`) has a flower rule over block states.
  Pollinating creates one infection cursor one block below the bee, with a fixed
  configuration. When the bee is removed from the world, its health, cast to int, is added
  to the gravemind's accumulated mass.

The host engine's pieces are modelled only as far as the entities use them:

- The goal selector (`Goals`) is an ordered list of goals with priorities.
- The infection cursor and the level (`Infection`) hold the cursor's configuration setters
  and the level's entity list.
- The gravemind memory (`Gravemind`) holds the accumulated-mass counter.
- Java's float-to-int cast is in `JavaNumerics`.
- Block coordinates are in `World`.

The entity code ignores the world, the spawn configuration and the random source, or reads
only one value from them. They become plain parameters: the difficulty and the position.
The gravemind is a global singleton in the mod. Here it is a parameter of
`OnRemovedFromWorld`.

`onRemovedFromWorld` has no guard against duplicate removal notifications, and it passes the
cast health on to the gravemind without any check. The model follows the code: `RemoveTwice`
proves that two notifications credit twice.

## Model

| member | source | states |
|---|---|---|
| `SculkZombie.PassSpawnCondition` | src/main/java/com/github/sculkhoard/common/entity/SculkZombieEntity.java:92-100 | a spawn passes exactly when the difficulty is not peaceful, the reason is chunk generation or natural, and y ≤ SPAWN_Y_MAX |
| `SculkZombie.PeacefulNeverSpawns` | src/main/java/com/github/sculkhoard/common/entity/SculkZombieEntity.java:95 | in a peaceful world every reason and every position is refused |
| `SculkZombie.OnlyNaturalReasonsSpawn` | src/main/java/com/github/sculkhoard/common/entity/SculkZombieEntity.java:97 | any reason other than chunk generation or natural is refused at any difficulty and position |
| `SculkZombie.SpawnHeightBoundIsInclusive` | src/main/java/com/github/sculkhoard/common/entity/SculkZombieEntity.java:57-98 | every y above 15 is refused; at y = 15 the outcome depends only on difficulty and reason |
| `SculkZombie.SpawnGroupSizeBounds` | src/main/java/com/github/sculkhoard/common/entity/SculkZombieEntity.java:51-54 | the group-size constants satisfy 1 ≤ SPAWN_MIN ≤ SPAWN_MAX |
| `SculkZombie.SculkZombieEntity.RegisterGoals` | src/main/java/com/github/sculkhoard/common/entity/SculkZombieEntity.java:108-122 | the goal selector gains the movement payload with priorities 0..5, then the target payload with priorities 0..2; the target selector does not change |
| `SculkZombie.GoalSelectorPayload` | src/main/java/com/github/sculkhoard/common/entity/SculkZombieEntity.java:132-150 | the movement and combat payload: six goals (swim, melee attack, move towards target, water-avoiding random walk, look at pig, look randomly) in source order, no goal twice |
| `SculkZombie.TargetSelectorPayload` | src/main/java/com/github/sculkhoard/common/entity/SculkZombieEntity.java:161-174 | the targeting payload: three goals (hurt by target, nearest attackable player, nearest attackable iron golem) in source order, no goal twice |
| `SculkZombie.RegisteredGoalsLayout` | src/main/java/com/github/sculkhoard/common/entity/SculkZombieEntity.java:110-172 | registration appends 6 + 3 = 9 entries; the goals keep payload order; entry i < 6 has priority i and entry 6 + j has priority j |
| `SculkZombie.RegisteredGoalsDistinct` | src/main/java/com/github/sculkhoard/common/entity/SculkZombieEntity.java:134-171 | the nine goals registered are pairwise distinct, so each insertion adds a new entry to the engine's identity-keyed goal set |
| `SculkZombie.RegisteredPriorityCounts` | src/main/java/com/github/sculkhoard/common/entity/SculkZombieEntity.java:111-120 | after registration, priorities 0..2 occur twice each, 3..5 once each, and no other priority occurs |
| `SculkZombie.RegisterGoalsOnFreshZombie` | src/main/java/com/github/sculkhoard/common/entity/SculkZombieEntity.java:108-122 | a new zombie that registers its goals has 9 goals in its goal selector, two at each of priorities 0, 1 and 2, and an empty target selector |
| `SculkZombie.SculkZombieEntity.RegisterGoalsIntended` | src/main/java/com/github/sculkhoard/common/entity/SculkZombieEntity.java:152-172 | corrected registration: the movement payload goes to the goal selector and the target payload to the target selector, each with priorities equal to indices |
| `SculkZombie.IntendedPrioritiesUnique` | src/main/java/com/github/sculkhoard/common/entity/SculkZombieEntity.java:124-172 | with one payload per selector, no priority occurs twice in a selector; the target selector uses exactly priorities 0..2 |
| `Goals.PrioritizedPreservesOrder` | src/main/java/com/github/sculkhoard/common/entity/SculkZombieEntity.java:124-131 | registering a payload keeps its goals in array order; priorities start at 0 and strictly increase |
| `Goals.CountPrioritized` | src/main/java/com/github/sculkhoard/common/entity/SculkZombieEntity.java:111-114 | a registered payload of length n uses each priority 0..n-1 exactly once and no other |
| `Goals.GoalSelector.AddGoal` | src/main/java/com/github/sculkhoard/common/entity/SculkZombieEntity.java:113 | adding a goal appends it, with its priority, after every goal already present |
| `SculkBeeInfector.IsValidFlower` | src/main/java/com/github/sculkhorde/common/entity/SculkBeeInfectorEntity.java:78-95 | a state is a valid flower exactly when it is not waterlogged and either is flower-tagged and is not a lower-half sunflower, or is grass, tall grass or fern |
| `SculkBeeInfector.WaterloggedNeverValid` | src/main/java/com/github/sculkhorde/common/entity/SculkBeeInfectorEntity.java:79-80 | a waterlogged state is never valid, whatever its tag or block |
| `SculkBeeInfector.TaggedSunflowerValidIffUpper` | src/main/java/com/github/sculkhorde/common/entity/SculkBeeInfectorEntity.java:81-83 | a dry, flower-tagged sunflower is valid exactly when its half is the upper one |
| `SculkBeeInfector.OtherTaggedFlowerValid` | src/main/java/com/github/sculkhorde/common/entity/SculkBeeInfectorEntity.java:84-85 | every other dry, flower-tagged state is valid |
| `SculkBeeInfector.UntaggedValidIffGrassLike` | src/main/java/com/github/sculkhorde/common/entity/SculkBeeInfectorEntity.java:88-94 | a dry state outside the flowers tag is valid exactly when it is grass, tall grass or fern |
| `SculkBeeInfector.SculkBeeInfectorEntity.GetIsFlowerValidPredicate` | src/main/java/com/github/sculkhorde/common/entity/SculkBeeInfectorEntity.java:97-100 | the predicate returned agrees with the flower rule on every block state |
| `SculkBeeInfector.SculkBeeInfectorEntity.ExecuteCodeOnPollination` | src/main/java/com/github/sculkhorde/common/entity/SculkBeeInfectorEntity.java:103-112 | the level gains exactly one fresh cursor after its existing entities, one block below the bee, with max infections 100, max range 100, tick interval 500 ms and 10 search iterations per tick |
| `SculkBeeInfector.PollinateTwice` | src/main/java/com/github/sculkhorde/common/entity/SculkBeeInfectorEntity.java:103-112 | two pollinations add two distinct cursors at the same spot below the bee |
| `SculkBeeInfector.SculkBeeInfectorEntity.OnRemovedFromWorld` | src/main/java/com/github/sculkhorde/common/entity/SculkBeeInfectorEntity.java:141-144 | accumulated mass grows by exactly the health cast to int; no other field of the memory changes |
| `SculkBeeInfector.RemoveTwice` | src/main/java/com/github/sculkhorde/common/entity/SculkBeeInfectorEntity.java:141-144 | with no guard, two removal notifications credit the refund twice |
| `SculkBeeInfector.RemoveBeeWithTwelveHealth` | src/main/java/com/github/sculkhorde/common/entity/SculkBeeInfectorEntity.java:141-142 | a bee with health 12 credits exactly 12 per removal notification |
| `JavaNumerics.FloatToInt` | src/main/java/com/github/sculkhorde/common/entity/SculkBeeInfectorEntity.java:142 | the `(int)` cast rounds toward zero: for 0 ≤ h below the int maximum, the result r satisfies r ≤ h < r + 1; results stay in the 32-bit range and saturate at its bounds |
| `JavaNumerics.FloatToIntExact` | src/main/java/com/github/sculkhorde/common/entity/SculkBeeInfectorEntity.java:142 | the cast returns integral values in the int range unchanged |
| `Infection.CursorSurfaceInfectorEntity.SetPos` | src/main/java/com/github/sculkhorde/common/entity/SculkBeeInfectorEntity.java:106 | sets the cursor position and nothing else |
| `Infection.CursorSurfaceInfectorEntity.SetMaxInfections` | src/main/java/com/github/sculkhorde/common/entity/SculkBeeInfectorEntity.java:107 | sets the infection budget and nothing else |
| `Infection.CursorSurfaceInfectorEntity.SetMaxRange` | src/main/java/com/github/sculkhorde/common/entity/SculkBeeInfectorEntity.java:108 | sets the range and nothing else |
| `Infection.CursorSurfaceInfectorEntity.SetTickIntervalMilliseconds` | src/main/java/com/github/sculkhorde/common/entity/SculkBeeInfectorEntity.java:109 | sets the tick interval and nothing else |
| `Infection.CursorSurfaceInfectorEntity.SetSearchIterationsPerTick` | src/main/java/com/github/sculkhorde/common/entity/SculkBeeInfectorEntity.java:110 | sets the per-tick search budget and nothing else |
| `Infection.Level.AddFreshEntity` | src/main/java/com/github/sculkhorde/common/entity/SculkBeeInfectorEntity.java:111 | the entity joins the level after every entity already in it |
| `Gravemind.GravemindMemory.AddSculkAccumulatedMass` | src/main/java/com/github/sculkhorde/common/entity/SculkBeeInfectorEntity.java:142 | the accumulated mass grows by the amount given, of either sign, and nothing else changes |

## Findings

| source | as written | input that shows it | evidently intended | confidence | as-written member | corrected member |
|---|---|---|---|---|---|---|
| src/main/java/com/github/sculkhoard/common/entity/SculkZombieEntity.java:119 | the second loop of `registerGoals` adds the target payload to `goalSelector` | any zombie whose goals are registered: its target selector stays empty, and its goal selector holds two goals at each of priorities 0, 1 and 2 | the documentation of `targetSelectorPayload` (lines 152-159) says the target payload is for the target selector | not executed; high | `SculkZombie.SculkZombieEntity.RegisterGoals`, with `SculkZombie.RegisteredPriorityCounts` showing the collisions | `SculkZombie.SculkZombieEntity.RegisterGoalsIntended`, with `SculkZombie.IntendedPrioritiesUnique` |

The entity's `RegisterGoals` stays as written, because that is what the mod does.
`RegisterGoalsIntended` sits beside it as the reference for the intended behaviour. No other
part of this model registers goals.

## Left out

- src/main/java/com/github/sculkhorde/client/renderer/entity/CursorShortRangeRenderer.java is left out. It is a rendering stub with no logic: its texture lookup returns null.
- Animation controllers and caches of both entities are left out. They only wrap the animation library.
- The attribute tables of both entities are left out. They are floating-point configuration handed to the engine's builders.
- The behaviour of the AI goals is left out. Goals are opaque ids.
- The engine's goal selector keeps its goals in a set keyed by goal identity. Every payload goal is a freshly constructed object, so the model uses an ordered list; `SculkZombie.RegisteredGoalsDistinct` proves that no goal is registered twice, so no insertion would be absorbed by the set.
- `isFlying` and `dampensVibrations` are left out. They always return true.
- `passSpawnCondition` takes an entity type, a world and a random source. It reads only the world's difficulty, so the model takes the difficulty alone.
- The `SPAWN_*` fields are non-final statics in Java. The model treats them as the constants they are initialised to. Nothing in `SculkZombieEntity` assigns them; other classes of the mod are not modelled and could.
- The block state is abstracted to a record. It holds the block, the WATERLOGGED value if the block has that property, membership in the flowers tag, and the HALF value if present. Engine tags and registries are not modelled.
- `SculkBeeInfector.SculkBeeInfectorEntity.OnRemovedFromWorld` leaves out the call to the superclass's `onRemovedFromWorld`. The superclass is not part of this model.
- The infection cursor's spreading, ticking and self-removal are left out. So are the gravemind's other state, any mass debit and any spawn gate. None of them is in the modelled files.
- `Infection.CursorSurfaceInfectorEntity.constructor` leaves the cursor's default configuration unspecified. The cursor class is not part of this model, and pollination overwrites all four settings anyway.
- `Infection.Level.AddFreshEntity` always adds the entity. The engine can refuse an entity, but the mod ignores the result. The level tracks only the cursors added to it.
- `Infection.CursorSurfaceInfectorEntity.SetPos` takes integer block coordinates. The engine's entity position is a triple of doubles, but the mod passes integer block coordinates.
- `Gravemind.GravemindMemory.AddSculkAccumulatedMass` is assumed to be a plain add to an unbounded integer, with no clamping, no check and no other effect. Its body is not part of this model, so any such check, and any 32-bit wrap-around of the counter, is not captured.
- `Infection.CursorSurfaceInfectorEntity.SetPos`, `SetMaxInfections`, `SetMaxRange`, `SetTickIntervalMilliseconds` and `SetSearchIterationsPerTick` are assumed to be plain field writes, with no validation, clamping or other effect. The cursor class is not part of this model.
- `JavaNumerics.FloatToInt` works on a real number, not an IEEE float. Rounding of float health arithmetic and NaN (which Java casts to 0) are not modelled.
- Concurrency and tick scheduling are left out.
