# RetroGunner game core in Dafny

This project models the simulation core of RetroGunner, a side-scrolling
pixel-art shooter. The player runs and jumps across platforms, shoots
soldiers, flying enemies, turrets and runners, picks up power-ups, and
builds kill combos. It also models the boss the third level summons.

The core has four parts, one module each:

- **`Collision`** (`collision.dfy`): the axis-aligned box tests everything else is built from.
  - A strict box-against-box test.
  - An inclusive point-in-box test.
  - The per-axis overlap of two boxes.
- **`Store`** (`store.dfy`): the game store, as class `GameStore`.
  - It has one field per field of the store's state, plus the module-level id counter `nextId`.
  - It has one method per store action: start and restart, player physics, input, the enemy AI loop, bullets, effects, the combo timer, the collision pass, the two spawners, power-up pickup, weapon change and the level advance.
  - The actions change the fields in place, as the store's `set` calls do.
  - The store invariant `Valid` is kept by every action:
    - the combo multiplier follows the combo count;
    - a streak runs exactly while the combo timer does;
    - a stored player is alive and within its maximum health;
    - at most six enemies, never the boss among them;
    - at most three power-ups with distinct issued ids;
    - every bullet does damage;
    - the boss flag agrees with the boss record.
- **`Rules`** (`rules.dfy`): the value-level rules the store applies.
  - The level layouts.
  - The landing-only platform scan.
  - Player physics and the input step.
  - Bullet records, movement and culling.
  - The per-archetype enemy AI and enemy physics.
  - Effect lifetimes.
  - Power-up effects.
  - The combo rule.
  - The records the spawners and the boss trigger create.
- **`Game`** (`game.dfy`): the game component's frame callback, `Tick`. It updates every system in a fixed order, then runs the collision pass and the spawners.
- **`Sprite`** (`sprite.dfy`): the texture helper. It unpacks a grid of 0xRRGGBB values into an RGBA byte array in which pure black is transparent, and builds one texture per sprite of a sprite sheet.

`entities.dfy` (module `Entities`) holds the records and the tunable constants:
- the player, enemies, bullets, power-ups, platforms, explosions and particles;
- the session state;
- the input record;
- gravity 25, acceleration 20, top speed 5, jump force 8, enemy speed 2.

## Numbers, randomness and the environment

- **Numbers.** Positions, velocities and timers are exact reals. Health, damage, score and counters are integers.
- **Ids.** An id `entity_N` is the number N. Ids come from a counter that only grows, so no id is issued twice.
- **Trigonometry and square roots.** The calls to `Math.sin`, `Math.cos`, `Math.PI` and the normalisation of an aim vector are taken from a parameter `MathLib`. Nothing is assumed about their values.
- **Randomness.** Each `Math.random()` call of the spawners is a parameter of type `Draws`, a number in [0, 1).

## Behaviour reproduced as the code has it

These are reproduced as the code has them, not corrected.

- **Restart keeps the old layout.** A new game loads the layout of the level the previous game reached, because the layout is loaded before the level counter is reset (`StartGame`).
- **Level completion lags by one kill.** The test reads the kill counter from before the kill that triggers it (`RegisterKill`, `CheckLevelEnd`).
- **Pickups are lost on a normal collision pass.** The pass writes back a copy of the player taken before the pickups. The power-ups stay marked collected. Only a pass that ends in a fatal hit keeps the pickups' effects, because it does not write the player back at all (`CheckCollisions`).
- **A fatal hit writes almost nothing.** It writes only the session.
  - Not written: the score, the bullet list, the enemy list and the player copy.
  - Already in the store: the health the enemies lost, the kills, the combo, and the explosions and particles.
- **Cooldowns are not clamped at zero.** A running shot cooldown loses the frame time and may end below zero (`PlayerPhysicsFacts`, `EnemyPhysicsFacts`).
- **The boss is inert.** It lives in its own field and is never updated, hit or grounded, so its AI, which the model includes, never runs.
- **Boss bullets are weak.** The boss fires the tag `spread`, not `spread_gun`, so its bullets do 1 damage at speed 10.
- **Turrets and runners.**
  - Turrets never move horizontally, and gravity does not act on them.
  - A runner that starts charging never stops.
- **The frame uses the last render's values.** `Tick` reads the session and the boss flag as the component last rendered them, which are the values at the start of the frame.

## Model

| member | source | states |
|---|---|---|
| Collision.GetAABBOverlap | client/src/lib/collision.ts:26-31 | each overlap component is at most the extent of either box along that axis |
| Collision.CollisionSymmetric | client/src/lib/collision.ts:8-15 | the box test gives the same answer with its arguments swapped |
| Collision.EdgeContactIsNoCollision | client/src/lib/collision.ts:10-11 | boxes that only share a vertical edge do not collide, either way round |
| Collision.TopContactIsNoCollision | client/src/lib/collision.ts:12-13 | boxes that only share a horizontal edge do not collide, either way round |
| Collision.CornersAreInside | client/src/lib/collision.ts:17-24 | the point test includes the border: all four corners of a box of non-negative extent lie in it |
| Collision.OverlapSymmetric | client/src/lib/collision.ts:26-31 | the overlap does not depend on the order of the boxes |
| Collision.CollisionIffPositiveOverlap | client/src/lib/collision.ts:8-31 | for boxes of positive size, they collide exactly when both overlap components are positive |
| Sprite.ImageBytes | client/src/lib/spriteUtils.ts:4-16 | the bytes of an image are four per pixel: width × height × 4 in all |
| Sprite.TextureOf | client/src/lib/spriteUtils.ts:29-32 | a sprite's texture has the grid's row count as height, its first row's length as width, and a buffer of width × height × 4 bytes |
| Sprite.WritePixel | client/src/lib/spriteUtils.ts:9-14 | the four writes of a pixel put its red, green, blue and alpha bytes at index .. index + 3 and leave every later byte alone |
| Sprite.FillRow | client/src/lib/spriteUtils.ts:7-15 | the inner loop leaves the rows before i as they were and appends row i's bytes, pixel by pixel |
| Sprite.CreatePixelTexture | client/src/lib/spriteUtils.ts:3-16 | the buffer has width × height × 4 bytes and holds exactly the image's bytes, row after row |
| Sprite.CreateSpriteSheet | client/src/lib/spriteUtils.ts:26-36 | with every sprite non-empty, exactly one texture per sprite name, each the sprite's texture; otherwise the name of a sprite without rows (where reading the first row's length fails) |
| Sprite.RowBytesAt | client/src/lib/spriteUtils.ts:7-14 | byte 4j + c of a row is channel c of pixel j |
| Sprite.ImageBytesAt | client/src/lib/spriteUtils.ts:6-14 | pixel (i, j) lands in bounds at bytes (i × width + j) × 4 + c, as its red, green, blue and alpha |
| Sprite.PixelRangesDisjoint | client/src/lib/spriteUtils.ts:9 | distinct pixels of a row-major grid write disjoint byte ranges |
| Sprite.ChannelsRoundTrip | client/src/lib/spriteUtils.ts:11-13 | for a 24-bit value, red × 65536 + green × 256 + blue gives the value back |
| Sprite.PackThenUnpack | client/src/lib/spriteUtils.ts:11-13 | unpacking a value packed from three bytes gives the three bytes back |
| Sprite.BlackIsTransparent | client/src/lib/spriteUtils.ts:14 | alpha is 0 exactly for the value 0, and 255 otherwise |
| Sprite.MissingEntryIsOpaqueBlack | client/src/lib/spriteUtils.ts:8-14 | an entry past the end of a short row becomes opaque black |
| Rules.LayoutShape | client/src/lib/stores/useGameStore.tsx:144-191 | every layout has at least four platforms of positive size, and its first platform is the ground: centred on x = 0, top face at -2.5, lowest and widest |
| Rules.LaterLevelsShareArena | client/src/lib/stores/useGameStore.tsx:180-190 | every level after the third uses the boss arena |
| Rules.LandedRestsOnPlatform | client/src/lib/stores/useGameStore.tsx:262-275 | the scan never changes horizontal motion; a landed actor has stopped falling and rests on the upper face of one of the platforms; an actor it does not land is untouched |
| Rules.RisingNeverLands | client/src/lib/stores/useGameStore.tsx:268 | an actor moving up passes through every platform |
| Rules.LandAllSplit | client/src/lib/stores/useGameStore.tsx:263-275 | the scan over a list is the scan over its tail continued from where the scan over its head left the actor |
| Rules.LandingIsKept | client/src/lib/stores/useGameStore.tsx:263-275 | a landed, resting actor stays landed and resting for the rest of the scan; the scan's final height is the starting one or the upper face of one of the platforms |
| Rules.DescentOntoPlatformLands | client/src/lib/stores/useGameStore.tsx:263-275 | overlapping platform k when the scan reaches it, while not moving up, ends the scan landed and at rest on the upper face of platform k or of a later one |
| Rules.ShieldTick | client/src/lib/stores/useGameStore.tsx:286-292 | a shield never switches on, and a duration it changes never goes below 0 |
| Rules.PlayerPhysicsFacts | client/src/lib/stores/useGameStore.tsx:252-292 | identity, health and weapon are kept; horizontal speed × 0.85; standing means resting on a platform's upper face + 0.6, not jumping, vertical speed 0; a shield that runs out is switched off with duration 0; a running shot cooldown loses the frame time with no clamp at zero, a spent one is left alone |
| Rules.PlayerLandsOnOverlap | client/src/lib/stores/useGameStore.tsx:264-273 | a player overlapping a platform while not moving up ends the frame standing, not jumping, with vertical speed 0 |
| Rules.PhysicsKeepsSpeedBound | client/src/lib/stores/useGameStore.tsx:278 | friction keeps the horizontal speed within the top speed |
| Rules.WeaponCooldown | client/src/lib/stores/useGameStore.tsx:661-663 | the time between shots is between 0.1 and 0.5 s |
| Rules.PlayerShots | client/src/lib/stores/useGameStore.tsx:665-691 | a shot is three bullets for the spread gun and one otherwise, all owned by the player and tagged with its weapon |
| Rules.InputFacts | client/src/lib/stores/useGameStore.tsx:642-702 | right beats left and sets +5, left alone sets -5; speed stays within 5; jump only from standing, not jumping; a shot only with a spent cooldown, which it re-arms by weapon, firing 3 or 1 player bullets; last weapon key wins; position, health and shield untouched |
| Rules.IndexOf | client/src/lib/stores/useGameStore.tsx:1036 | the first power-up with the id, or -1 when no power-up has it |
| Rules.BulletSpeed | client/src/lib/stores/useGameStore.tsx:708-709 | bullet speed is between 10 and 15 |
| Rules.BulletDamage | client/src/lib/stores/useGameStore.tsx:720-721 | bullet damage is between 1 and 3 |
| Rules.FireAppend | client/src/lib/stores/useGameStore.tsx:711-724 | firing two batches in a row is firing them as one, the second numbered after the first |
| Rules.FireDamage | client/src/lib/stores/useGameStore.tsx:720-721 | every bullet created does at least 1 damage |
| Rules.FireNumbering | client/src/lib/stores/useGameStore.tsx:711-722 | bullet i of a batch has id first + i and the owner of shot i |
| Rules.BossBulletsAreWeak | client/src/lib/stores/useGameStore.tsx:708-721 | a bullet tagged `spread` does 1 damage and flies at speed 10 |
| Rules.StepBullets | client/src/lib/stores/useGameStore.tsx:543-560 | the bullets left lie strictly inside (-50, 100) × (-10, 10), each is a moved old bullet, and every moved bullet inside is kept |
| Rules.StepBulletsAppend | client/src/lib/stores/useGameStore.tsx:543-560 | the cull keeps order and multiplicity: stepping a list is stepping its parts one after the other |
| Rules.StepBulletsOne | client/src/lib/stores/useGameStore.tsx:546-558 | a single bullet is kept, moved, exactly when it ends inside the world box |
| Rules.StepExplosions | client/src/lib/stores/useGameStore.tsx:562-574 | surviving explosions have positive lifetime and each carries the id of an old one |
| Rules.StepParticles | client/src/lib/stores/useGameStore.tsx:576-595 | surviving particles have positive lifetime and each carries the id of an old one |
| Rules.Burst | client/src/lib/stores/useGameStore.tsx:796-810 | a kill leaves eight particles with consecutive ids and lifetime 1 |
| Rules.Uncollected | client/src/lib/stores/useGameStore.tsx:988-995 | a power-up is kept exactly when it is in the list and not collected |
| Rules.ApplyPowerUp | client/src/lib/stores/useGameStore.tsx:1040-1059 | each weapon power-up switches to its weapon and changes nothing else; extra life changes only the health, which rises by one below the maximum and never above it; a shield power-up changes only the shield, on for 10 s |
| Rules.GatherPlayer | client/src/lib/stores/useGameStore.tsx:737-744 | picking up power-ups in turn keeps identity, position, speed and maximum, never lowers health, and keeps within the maximum a health that started within it |
| Rules.MarkTouched | client/src/lib/stores/useGameStore.tsx:737-744 | pickups keep the list's order, ids, kinds and positions, and mark collected exactly the already-collected and the touched ones |
| Rules.UncollectedKeepsUniqueIds | client/src/lib/stores/useGameStore.tsx:991 | dropping collected power-ups keeps ids distinct |
| Rules.MultiplierFor | client/src/lib/stores/useGameStore.tsx:774-776 | the multiplier is 1, 2 or 4 |
| Rules.NextCombo | client/src/lib/stores/useGameStore.tsx:772-780 | a kill in the window adds one to the count, any other starts at (1, 1); multiplier 4 iff count ≥ 5, 2 iff 3 ≤ count < 5 |
| Rules.StreakRewards | client/src/lib/stores/useGameStore.tsx:772-785 | along a streak the count is the number of kills, and n ≥ 4 kills earn 100 × (4n - 10) points |
| Rules.NewPlayer | client/src/lib/stores/useGameStore.tsx:197-211 | a new player has 3 of 3 health, no speed, the basic gun and no shield |
| Rules.NewBoss | client/src/lib/stores/useGameStore.tsx:829-843 | the boss has health and maximum 20 + 5 × level and is not grounded |
| Rules.SpawnOffset | client/src/lib/stores/useGameStore.tsx:897 | an enemy appears 12 units to one side of the player |
| Rules.EnemyKindOf | client/src/lib/stores/useGameStore.tsx:900-901 | a spawned enemy is never the boss |
| Rules.EnemyKindQuarters | client/src/lib/stores/useGameStore.tsx:900-901 | each of soldier, flying, turret and runner takes one quarter of [0, 1) |
| Rules.NewEnemy | client/src/lib/stores/useGameStore.tsx:903-970 | a new enemy is at full health, 2 for a soldier, 3 for a turret, 1 otherwise, at the spawn x and at rest |
| Rules.AboveHalfHealth | client/src/lib/stores/useGameStore.tsx:444-446 | for a non-zero maximum, the test agrees with health / maxHealth > 0.5 |
| Rules.Think | client/src/lib/stores/useGameStore.tsx:300-506 | the AI keeps an enemy's identity, archetype, health and grounded flag, and fires 0, 1, 3 or 8 shots, all its own |
| Rules.EnemyPhysicsFacts | client/src/lib/stores/useGameStore.tsx:508-535 | only position, velocity and cooldown change; flying enemies and turrets move at their velocity; a ground archetype keeps its horizontal motion and either falls freely under gravity 25 or ends at rest on the upper face of a platform + 0.4; a running cooldown loses the frame time with no clamp at zero |
| Rules.EnemyLandsOnOverlap | client/src/lib/stores/useGameStore.tsx:517-530 | a ground archetype overlapping platform k when the scan reaches it, while not moving up, ends the frame at rest on platform k or a later one |
| Rules.EnemyStep | client/src/lib/stores/useGameStore.tsx:300-537 | an enemy's frame keeps its identity, archetype and health, and its shots are its own |
| Rules.StepEnemiesKeeps | client/src/lib/stores/useGameStore.tsx:300-540 | the enemy loop keeps each enemy's id, archetype and health in place |
| Rules.StepKeepsKinds | client/src/lib/stores/useGameStore.tsx:300-540 | a list without the boss stays without it |
| Rules.ShotsHaveEnemyOwners | client/src/lib/stores/useGameStore.tsx:333-338 | every shot of the loop is owned by one of the enemies |
| Rules.TurretStaysPut | client/src/lib/stores/useGameStore.tsx:390-411 | a turret's horizontal speed is 0, its vertical speed unchanged, its x fixed, and a turret at rest does not move |
| Rules.RunnerChargeIsFinal | client/src/lib/stores/useGameStore.tsx:413-434 | runners never fire, and a charging runner keeps charging |
| Rules.SoldierHysteresis | client/src/lib/stores/useGameStore.tsx:305-347 | a soldier starts attacking only within 6 units, stops only beyond 8, and never fires while patrolling |
| Rules.BossNeverLeapsUngrounded | client/src/lib/stores/useGameStore.tsx:475-500 | an ungrounded boss never changes its vertical speed, and fires only `spread` bullets |
| Store.Settle | client/src/lib/stores/useGameStore.tsx:263-275 | the platform loop computes the landing scan |
| Store.FindTarget | client/src/lib/stores/useGameStore.tsx:752-758 | the inner loop finds the last enemy the bullet overlaps, or -1 when it overlaps none |
| Store.EnemyBulletStep | client/src/lib/stores/useGameStore.tsx:857-878 | an enemy bullet hits exactly when it overlaps the player; the hit takes its damage off an unshielded player and nothing off a shielded one |
| Store.ValidMeansInvariants | client/src/lib/stores/useGameStore.tsx:74-92 | under the store invariant, the multiplier is 1, 2 or 4 and above 1 only while the combo timer runs; a stored player has health in [1, max] |
| Store.GameStore.constructor | client/src/lib/stores/useGameStore.tsx:120-137 | the initial store: menu, no player, empty lists, level 1 |
| Store.GameStore.GenerateId | client/src/lib/stores/useGameStore.tsx:115-116 | each id is the counter, which then grows by one |
| Store.GameStore.InitializeGame | client/src/lib/stores/useGameStore.tsx:139-194 | loads the layout of the current level and keeps the store invariant |
| Store.GameStore.ClearWorld | client/src/lib/stores/useGameStore.tsx:620-633 | empties the lists, the kill counter, the spawn timers and the boss |
| Store.GameStore.ResetSession | client/src/lib/stores/useGameStore.tsx:223-241 | a fresh player, playing, score 0, level 1, no combo |
| Store.GameStore.StartGame | client/src/lib/stores/useGameStore.tsx:196-242 | a new, valid game whose layout is that of the previous game's level |
| Store.GameStore.RestartGame | client/src/lib/stores/useGameStore.tsx:244-246 | the same as starting a game |
| Store.GameStore.MovePlayer | client/src/lib/stores/useGameStore.tsx:252-292 | the step-by-step update computes the player physics |
| Store.GameStore.UpdatePlayer | client/src/lib/stores/useGameStore.tsx:248-295 | keeps the invariant; with a player, applies its physics on the current layout |
| Store.GameStore.ShootBullet | client/src/lib/stores/useGameStore.tsx:707-725 | appends one bullet with the next id and keeps the store invariant |
| Store.GameStore.ShootAll | client/src/lib/stores/useGameStore.tsx:457-469 | appends a batch of bullets in order with consecutive ids |
| Store.GameStore.UpdateEnemy | client/src/lib/stores/useGameStore.tsx:300-537 | one enemy's frame, its shots appended as it fires them |
| Store.GameStore.MoveEnemy | client/src/lib/stores/useGameStore.tsx:508-535 | the step-by-step update computes the enemy physics |
| Store.GameStore.StepAllEnemies | client/src/lib/stores/useGameStore.tsx:300-538 | the loop computes every enemy's frame in order, with all their shots appended in firing order |
| Store.GameStore.EnemyTurn | client/src/lib/stores/useGameStore.tsx:300-537 | the loop's k-th turn extends the frames of the first k enemies by the next one, its shots appended after those fired so far |
| Store.GameStore.UpdateEnemies | client/src/lib/stores/useGameStore.tsx:297-541 | keeps the invariant and stores the enemies after the loop |
| Store.GameStore.UpdateBullets | client/src/lib/stores/useGameStore.tsx:543-560 | keeps the invariant and moves and culls the bullets |
| Store.GameStore.UpdatePowerUps | client/src/lib/stores/useGameStore.tsx:988-995 | keeps the invariant and drops the collected power-ups |
| Store.GameStore.UpdateExplosions | client/src/lib/stores/useGameStore.tsx:562-574 | keeps the invariant and ages the explosions |
| Store.GameStore.UpdateParticles | client/src/lib/stores/useGameStore.tsx:576-595 | keeps the invariant and ages the particles |
| Store.GameStore.UpdateComboTimer | client/src/lib/stores/useGameStore.tsx:597-607 | a stopped timer changes nothing; the call that runs it out resets count and multiplier to 0 and 1; otherwise only the timer drops |
| Store.GameStore.NextLevel | client/src/lib/stores/useGameStore.tsx:609-636 | the player is back at the start, healed by one up to the maximum; the next level's layout is loaded; lists, kills, timers and boss are cleared |
| Store.GameStore.SteerPlayer | client/src/lib/stores/useGameStore.tsx:642-657 | the movement and jump keys in order |
| Store.GameStore.ActOnInput | client/src/lib/stores/useGameStore.tsx:642-702 | the player after the input, with the shot's bullets appended |
| Store.GameStore.UpdatePlayerInput | client/src/lib/stores/useGameStore.tsx:638-705 | nothing happens without a player or outside play; otherwise the input is applied and the invariant kept |
| Store.GameStore.CollectPowerUp | client/src/lib/stores/useGameStore.tsx:1032-1066 | no player, an unknown id or a collected power-up change nothing; otherwise the effect is applied and the power-up marked collected; the store invariant is kept |
| Store.GameStore.CollectTouched | client/src/lib/stores/useGameStore.tsx:736-744 | every touched power-up is picked up, in list order |
| Store.GameStore.EmitBurst | client/src/lib/stores/useGameStore.tsx:796-810 | the kill's eight particles, with eight fresh ids |
| Store.GameStore.ComboOnKill | client/src/lib/stores/useGameStore.tsx:767-780 | the if-chain computes the combo rule |
| Store.GameStore.CheckLevelEnd | client/src/lib/stores/useGameStore.tsx:823-849 | with enough kills before this one and no boss out: the boss on every third level, otherwise level complete; nothing otherwise |
| Store.GameStore.CountKill | client/src/lib/stores/useGameStore.tsx:812-819 | the combo, a full window, one more kill, the explosion and particles |
| Store.GameStore.RegisterKill | client/src/lib/stores/useGameStore.tsx:763-849 | a kill pays 100 × the new multiplier, restarts the window, counts once, leaves its effects, and tests completion on the count before it |
| Store.GameStore.Strike | client/src/lib/stores/useGameStore.tsx:759-764 | only the struck enemy loses the damage, in both lists, and leaves the working list exactly when its health reaches 0 |
| Store.GameStore.HitEnemy | client/src/lib/stores/useGameStore.tsx:750-764 | the target is the last enemy of the working list the bullet overlaps; with none, nothing changes and the bullet is clear; otherwise exactly that enemy loses the bullet's damage, in the store's list too, and it leaves the working list, with its position reported, exactly when its health drops to 0 or below |
| Store.GameStore.ScoreKill | client/src/lib/stores/useGameStore.tsx:763-849 | a kill counts once, restarts the combo window, advances the combo count, adds 100 × the new multiplier to the pass's score and leaves an explosion where the enemy stood; no kill changes none of these and leaves the boss alone; either way a boss already out stays out, the same record, and a boss that appears is the new boss of the current level, a multiple of three |
| Store.GameStore.PlayerBulletStep | client/src/lib/stores/useGameStore.tsx:750-855 | a miss changes no enemy; a hit takes the bullet's damage off the last overlapping enemy only; a hit that leaves it above 0 keeps it in the working list and changes no kill bookkeeping; one that takes it to 0 or below removes it, counts the kill once, restarts the combo window, adds 100 × the new multiplier and leaves an explosion where it stood; a boss already out stays the same record, and one that appears is the current level's new boss |
| Store.GameStore.ScanStep | client/src/lib/stores/useGameStore.tsx:747-880 | one bullet of the scan keeps the scan invariant; a bullet that hits is removed and one that misses stays; a player bullet hits exactly when it overlaps an enemy, which loses its damage as `PlayerBulletStep` states; any other bullet hits exactly when it overlaps the player, taking its damage off an unshielded player copy and nothing off a shielded one, and is fatal exactly when the copy's health drops to 0 or below; the boss follows the pass's start as `ScoreKill` states |
| Store.GameStore.ScanBullets | client/src/lib/stores/useGameStore.tsx:746-880 | kills are paid 100 to 400 each, restart the window and keep enemies' shapes; without a fatal hit, the player only lost health, none behind a shield, and the bullets left are old ones, clear of what they can hit; a boss out at the start stays out, the same record, and a boss that appears is the new boss of the current level, a multiple of three |
| Store.GameStore.ResolveBullets | client/src/lib/stores/useGameStore.tsx:746-887 | a fatal hit leaves player, bullets and score as they were and ends the session; otherwise the copied player has only lost health, none behind a shield, the bullets left are old ones clear of what they can hit, the enemies left are old ones, and each kill paid 100 to 400; either way the combo follows the kills, a boss out at the start stays out, the same record, and a boss that appears is the current level's new boss, on a level that is a multiple of three |
| Store.GameStore.WriteBack | client/src/lib/stores/useGameStore.tsx:882-887 | the final batch write of the pass |
| Store.GameStore.CheckCollisions | client/src/lib/stores/useGameStore.tsx:727-888 | keeps the invariant; power-ups touched are marked; a fatal hit keeps the pickups' player and nothing else; otherwise the pickups are lost and the outcome of the scan is written; kills and score only grow, no enemy is added, the bullets left are old ones and a surviving player is clear of enemy bullets; a boss out at the start stays out, the same record, and a boss that appears is the current level's new boss, on a level that is a multiple of three; without a player nothing changes, the boss included |
| Store.GameStore.SpawnEnemies | client/src/lib/stores/useGameStore.tsx:890-979 | past 2.5 s with fewer than six enemies, one new enemy and a reset timer; otherwise the timer advances by 1/60 |
| Store.GameStore.SpawnPowerUp | client/src/lib/stores/useGameStore.tsx:997-1030 | past 8 s with fewer than three power-ups, one new power-up and a reset timer; otherwise the timer advances by 1/60 |
| Store.GameStore.ChangeWeapon | client/src/lib/stores/useGameStore.tsx:981-986 | only the weapon changes |
| Game.MoveActors | client/src/components/Game.tsx:49-50 | the player moves by its physics; then the enemies are those of the enemy loop run against the moved player, their shots appended to the bullets with the next ids |
| Game.MoveItems | client/src/components/Game.tsx:51-52 | the bullets are moved and culled, so all left, including those just fired, are in the world box; exactly the uncollected power-ups remain |
| Game.Move | client/src/components/Game.tsx:49-52 | the player, enemies, bullets and power-ups after the four movers, each given by its rule from the state before them, the enemies' shots moved with the other bullets; the enemy count is kept |
| Game.AgeEffects | client/src/components/Game.tsx:53-55 | the explosions and particles are aged by their rules; a stopped combo timer changes nothing, the frame that runs it out resets count and multiplier to 0 and 1, otherwise only the timer drops |
| Game.Advance | client/src/components/Game.tsx:49-55 | the whole state after the systems' updates: the movers' result as `Move` states it and the effects' as `AgeEffects` states it, with the invariant kept |
| Game.Spawn | client/src/components/Game.tsx:58-62 | the enemy spawner is skipped while a boss fight was on; each spawner appends at most one entity at the end of its list and restarts or advances its timer; with a player, a restarted timer means exactly one new record: the enemy of the drawn archetype 12 units to the drawn side of the player, the uncollected power-up of the drawn kind within 8 units of the player at height -0.5, under the ids issued in that order |
| Game.Resolve | client/src/components/Game.tsx:56-62 | collisions, then spawns: the level's platforms and number stay, a boss out at the start stays out, the same record, and a boss that appears is the current level's new boss, kills and score only grow, "over" exactly on a fatal hit, a kill leaves the combo window full and no kill leaves the timer alone, the power-ups present are marked against the player and at most one is added, no enemy is added during a boss fight and at most one otherwise, and a surviving player is clear of enemy bullets; the records the spawners add come after the pass, untouched by it: the last enemy is the new enemy exactly as created next to the player after the pass, and the new power-up follows the marked ones, uncollected, under the last id issued |
| Game.PlayFrame | client/src/components/Game.tsx:47-62 | a running session's frame: kills and score only grow, the level's platforms and number stay, a boss out at the start stays out, the same record, and a boss that appears is the current level's new boss, "over" exactly on a fatal hit, bullets in the world box, the power-ups uncollected at the start marked against the moved player plus at most one, at most one new enemy and none when the frame starts in a boss fight, spawn timers restart or advance, a spawned enemy and power-up exactly as created after the collision pass, a surviving player clear of enemy bullets |
| Game.Tick | client/src/components/Game.tsx:46-63 | outside play nothing changes; in play the invariant holds, kills and score only grow, the level's platforms and number stay, a boss out at the start stays out, the same record, and a boss that appears is the current level's new boss, on a level that is a multiple of three, the session is playing, over or complete with "over" exactly on a fatal hit, a kill leaves the combo window at 2.0 s, every bullet left lies in the world box, the power-ups are those uncollected at the frame's start, marked against the player as moved, plus at most one new one, the enemy spawner is skipped when the frame starts in a boss fight and otherwise adds at most one enemy, each spawn timer restarts or advances by 1/60 s, an enemy or power-up spawned in the frame is exactly the record its spawner created after the collision pass (the power-up uncollected), and after a frame the player survives, no enemy bullet overlaps the player |

## Left out

- Audio: the sound effects and the background-music start inside the store actions do not change the game state and are not modelled.
- Rendering: the components that draw the game, the camera that follows the player (`Game.tsx` lines 65-72), colours and texture filtering are not modelled.
- `THREE.DataTexture`: the construction of the texture object around the byte buffer is a library call. The model keeps only the buffer and its size.
- Input adapters: the keyboard and touch handlers only build the input record. Here the input is a parameter. The code does not fix whether the input step runs before or after a frame, so `UpdatePlayerInput` is a separate action.
- Floating point: reals are exact. Rounding, `NaN` and infinities are not modelled, including an aimed shot at distance 0 (whose direction comes from `MathLib`). The one exception is the boss's health ratio, where division by a zero maximum is modelled.
- Trigonometry and square roots: their values come from `MathLib`, and nothing is claimed about them.
- Ids: ids are numbers, not the strings `entity_N`. The two are equal exactly when their numbers are.
- The `victory` session value exists, but no action enters it.
- The weapon table and the `MAX_ENEMIES` and `ENEMY_SPAWN_INTERVAL` constants of the constants file are not used by the store, which uses its own numbers; they are not modelled.
- Sprite sheet order: the key order of `Object.entries` is not modelled. When several sprites have no rows, which name the model reports is not fixed.
- Sprite sheet errors: a sprite without rows makes the source throw. The model returns that sprite's name instead.
- Short grids: with a positive width, `createPixelTexture` throws on a grid with fewer rows than its height; with width 0 it reads no row and does not throw. The model requires enough rows in both cases.
- Store.GameStore.ResolveBullets: the source writes the game-over session inside the scan and returns at once; the model's scan returns and the write follows. No other write happens in between, so the resulting state is the same. Like `ScanBullets`, it states the pass's outcome as invariants (`Survived`, `SameShape`), not the exact enemy and bullet lists left, nor which enemies lost health before a fatal hit.
- Rules.StepExplosions: states only that survivors have positive lifetime and are old explosions, not their new size and lifetime, because explosions are visual.
- Rules.StepParticles: states only that survivors have positive lifetime and are old particles, not their motion, because particles are visual.
- Rules.Think: states only what every archetype shares. Each archetype's behaviour is stated by the lemmas about soldiers, runners, turrets and the boss. Flying enemies, whose motion depends on `MathLib`, have no such lemma.
- Store.GameStore.ScanBullets: states the scan's outcome as invariants, not the exact lists left. Those invariants are: each kill pays 100 to 400, the bullets left are clear and are old ones, and the enemies left are old ones. The exact effect of one bullet is stated by `ScanStep`, `PlayerBulletStep`, `HitEnemy` and `EnemyBulletStep`.
- Store.GameStore.CheckCollisions: states the outcome of a pass as `ResolveBullets` does, not the exact lists left.
- Game.Tick: states consequences of a frame, not the whole new state. The state after the systems' updates is given exactly by `Advance`; the collision pass and the spawners are stated as their own contracts state them.
