/**
 * The game component's frame callback: while the session is playing, every
 * system of the store is advanced once, in a fixed order, followed by the
 * collision pass and the spawners.
 */
module Game {
  import opened Entities
  import opened Collision
  import opened Rules
  import opened Store

  /** The player's, then the enemies' update. The enemies see the player
      as it is after its own update, and their shots are appended to the
      bullets in the order they are fired. */
  method MoveActors(s: GameStore, delta: real, m: MathLib)
    requires s.Valid()
    modifies s`player, s`enemies, s`bullets, s`nextId
    ensures s.Valid()
    ensures old(s.player).None? ==> s.player.None?
    ensures old(s.player).Some? ==> s.player == Some(PlayerPhysics(old(s.player).value, s.level, delta))
    ensures s.enemies == StepEnemies(old(s.enemies), s.player, s.level, delta, m).0
    ensures s.bullets == old(s.bullets) + Fire(StepEnemies(old(s.enemies), s.player, s.level, delta, m).1, old(s.nextId))
    ensures s.nextId == old(s.nextId) + |StepEnemies(old(s.enemies), s.player, s.level, delta, m).1|
    ensures |s.enemies| == |old(s.enemies)|
  {
    s.UpdatePlayer(delta);
    s.UpdateEnemies(delta, m);
  }

  /** The bullets' update, then the power-ups' (which ignores the frame
      time): every bullet left, including those just fired, is inside the
      world box, and the collected power-ups are gone. */
  method MoveItems(s: GameStore, delta: real)
    requires s.Valid()
    modifies s`bullets, s`powerUps
    ensures s.Valid()
    ensures s.bullets == StepBullets(old(s.bullets), delta)
    ensures s.powerUps == Uncollected(old(s.powerUps))
    ensures forall b :: b in s.bullets ==> InWorld(b.position)
  {
    s.UpdateBullets(delta);
    s.UpdatePowerUps();
  }

  /** The explosions', particles' and combo timer's updates: effects age,
      and a running streak ends when its timer runs out. */
  method AgeEffects(s: GameStore, delta: real)
    requires s.Valid()
    modifies s`explosions, s`particles, s`comboTimer, s`comboCount, s`comboMultiplier
    ensures s.Valid()
    ensures Aged(s, old(s.explosions), old(s.particles), old(s.comboTimer), old(s.comboCount), old(s.comboMultiplier), delta)
  {
    s.UpdateExplosions(delta);
    s.UpdateParticles(delta);
    s.UpdateComboTimer(delta);
  }

  /** The movers' part of a frame, against the player `p0`, enemies `es0`,
      bullets `bs0`, power-ups `us0` and id counter `n0` before it: the
      player moved by its physics; the enemies moved by their AI and physics,
      seeing the moved player; the bullets, the enemies' new shots included,
      moved and culled; the collected power-ups gone. */
  ghost predicate Moved(s: GameStore, p0: Option<Player>, es0: seq<Enemy>, bs0: seq<Bullet>, us0: seq<PowerUp>,
                        n0: nat, delta: real, m: MathLib)
    reads s`player, s`enemies, s`bullets, s`nextId, s`powerUps, s`level
  {
    var shots := StepEnemies(es0, s.player, s.level, delta, m).1;
    && (p0.None? ==> s.player.None?)
    && (p0.Some? ==> s.player == Some(PlayerPhysics(p0.value, s.level, delta)))
    && s.enemies == StepEnemies(es0, s.player, s.level, delta, m).0
    && s.nextId == n0 + |shots|
    && s.bullets == StepBullets(bs0 + Fire(shots, n0), delta)
    && s.powerUps == Uncollected(us0)
  }

  /** The effects' part of a frame, against the explosions `xs0`, particles
      `ps0` and combo (`timer0`, `count0`, `mult0`) before it: the effects
      aged, and the streak ended when its timer ran out. */
  ghost predicate Aged(s: GameStore, xs0: seq<Explosion>, ps0: seq<Particle>, timer0: real, count0: int, mult0: int,
                       delta: real)
    reads s`explosions, s`particles, s`comboTimer, s`comboCount, s`comboMultiplier
  {
    && s.explosions == StepExplosions(xs0, delta)
    && s.particles == StepParticles(ps0, delta)
    && (timer0 <= 0.0 ==> s.comboTimer == timer0 && s.comboCount == count0 && s.comboMultiplier == mult0)
    && (timer0 > 0.0 && timer0 - delta <= 0.0 ==> s.comboTimer == 0.0 && s.comboCount == 0 && s.comboMultiplier == 1)
    && (timer0 > 0.0 && timer0 - delta > 0.0 ==>
          s.comboTimer == timer0 - delta && s.comboCount == count0 && s.comboMultiplier == mult0)
  }

  /** The enemy spawner's record, as the state after the spawners shows it.
      With a player, an enemy timer at 0 means the spawner fired (the timers
      are never negative), and the last enemy is the one it created: an
      enemy of the drawn archetype, 12 units to the drawn side of the
      player, under the id issued just before the power-up's, if any. */
  ghost predicate SpawnedEnemy(s: GameStore, d: Draws, m: MathLib)
    requires DrawsValid(d)
    reads s`enemies, s`enemySpawnTimer, s`powerUpSpawnTimer, s`player, s`nextId
  {
    s.player.Some? && s.enemySpawnTimer == 0.0 ==>
      var id := s.nextId - (if s.powerUpSpawnTimer == 0.0 then 2 else 1);
      && id >= 0 && |s.enemies| >= 1
      && s.enemies[|s.enemies| - 1]
         == NewEnemy(id, EnemyKindOf(d.enemyKind), s.player.value.position.x + SpawnOffset(d.enemySide),
                     d.hoverPhase, d.hoverSpeed, m.pi)
  }

  /** The power-up spawner's record, against the `count` power-ups present
      before it. With a player, a power-up timer at 0 means the spawner
      fired, and exactly one power-up follows those: uncollected, of the
      drawn kind, within 8 units of the player at height -0.5, under the
      last id issued. Otherwise none was added. */
  ghost predicate SpawnedPowerUp(s: GameStore, d: Draws, count: nat)
    requires DrawsValid(d)
    reads s`powerUps, s`powerUpSpawnTimer, s`player, s`nextId
  {
    s.player.Some? ==>
      && (s.powerUpSpawnTimer == 0.0 ==>
            && s.nextId >= 1 && |s.powerUps| == count + 1
            && s.powerUps[count]
               == PowerUp(s.nextId - 1, Position(s.player.value.position.x + (d.powerUpOffset * 16.0 - 8.0), -0.5),
                          PowerUpKindOf(d.powerUpKind), false))
      && (s.powerUpSpawnTimer != 0.0 ==> |s.powerUps| == count)
  }

  /** The movers' updates of a frame: player, enemies, bullets, power-ups. */
  method Move(s: GameStore, delta: real, m: MathLib)
    requires s.Valid()
    modifies s`player, s`enemies, s`bullets, s`nextId, s`powerUps
    ensures s.Valid()
    ensures Moved(s, old(s.player), old(s.enemies), old(s.bullets), old(s.powerUps), old(s.nextId), delta, m)
    ensures |s.enemies| == |old(s.enemies)|
    ensures forall b :: b in s.bullets ==> InWorld(b.position)
  {
    MoveActors(s, delta, m);
    MoveItems(s, delta);
  }

  /** The systems' updates of a frame, in the component's order: player,
      enemies, bullets, power-ups, explosions, particles, combo timer. */
  method Advance(s: GameStore, delta: real, m: MathLib)
    requires s.Valid()
    modifies s`player, s`enemies, s`bullets, s`nextId, s`powerUps, s`explosions, s`particles,
             s`comboTimer, s`comboCount, s`comboMultiplier
    ensures s.Valid()
    ensures Moved(s, old(s.player), old(s.enemies), old(s.bullets), old(s.powerUps), old(s.nextId), delta, m)
    ensures Aged(s, old(s.explosions), old(s.particles), old(s.comboTimer), old(s.comboCount), old(s.comboMultiplier), delta)
    ensures |s.enemies| == |old(s.enemies)|
    ensures forall b :: b in s.bullets ==> InWorld(b.position)
  {
    Move(s, delta, m);
    AgeEffects(s, delta);
  }

  /** The spawners of a frame: enemies unless a boss fight was on when the
      frame began, then power-ups. Each adds at most one entity at the end
      of its list; with a player, each timer either restarts or advances by
      one sixtieth of a second, and a skipped spawner changes nothing. */
  method Spawn(s: GameStore, d: Draws, m: MathLib, bossActive: bool)
    requires s.Valid() && DrawsValid(d)
    modifies s`enemies, s`enemySpawnTimer, s`powerUps, s`powerUpSpawnTimer, s`nextId
    ensures s.Valid()
    ensures bossActive ==> s.enemies == old(s.enemies) && s.enemySpawnTimer == old(s.enemySpawnTimer)
    ensures !bossActive ==>
      |old(s.enemies)| <= |s.enemies| <= |old(s.enemies)| + 1 && s.enemies[..|old(s.enemies)|] == old(s.enemies)
    ensures s.player.Some? && !bossActive ==>
      s.enemySpawnTimer == 0.0 || s.enemySpawnTimer == old(s.enemySpawnTimer) + SpawnQuantum
    ensures s.player.Some? ==>
      s.powerUpSpawnTimer == 0.0 || s.powerUpSpawnTimer == old(s.powerUpSpawnTimer) + SpawnQuantum
    ensures |old(s.powerUps)| <= |s.powerUps| <= |old(s.powerUps)| + 1
    ensures s.powerUps[..|old(s.powerUps)|] == old(s.powerUps)
    ensures !bossActive ==> SpawnedEnemy(s, d, m)
    ensures !bossActive && s.player.Some? && s.enemySpawnTimer != 0.0 ==> s.enemies == old(s.enemies)
    ensures SpawnedPowerUp(s, d, |old(s.powerUps)|)
  {
    if !bossActive {
      s.SpawnEnemies(d, m);
    }
    s.SpawnPowerUp(d);
  }

  /** The second half of a playing frame: the collision pass, then the
      spawners. `bossActive` is the boss flag at the start of the frame. */
  method Resolve(s: GameStore, d: Draws, m: MathLib, bossActive: bool) returns (died: bool)
    requires s.Valid() && DrawsValid(d) && s.gameState == Playing
    requires bossActive ==> s.bossActive
    modifies s
    ensures s.Valid()
    ensures s.level == old(s.level)
    ensures s.BossFollows(old(s.boss))
    ensures s.enemiesKilled >= old(s.enemiesKilled) && s.score >= old(s.score) && s.currentLevel == old(s.currentLevel)
    ensures died <==> s.gameState == GameOver
    ensures s.gameState == Playing || s.gameState == GameOver || s.gameState == LevelComplete
    ensures s.enemiesKilled > old(s.enemiesKilled) ==> s.comboTimer == ComboWindow
    ensures s.enemiesKilled == old(s.enemiesKilled) ==> s.comboTimer == old(s.comboTimer)
    ensures (forall b :: b in old(s.bullets) ==> InWorld(b.position)) ==> forall b :: b in s.bullets ==> InWorld(b.position)
    ensures old(s.player).Some? ==>
      && s.player.Some?
      && |old(s.powerUps)| <= |s.powerUps| <= |old(s.powerUps)| + 1
      && s.powerUps[..|old(s.powerUps)|] == MarkTouched(old(s.player).value, old(s.powerUps))
      && (bossActive ==> |s.enemies| <= |old(s.enemies)| && s.enemySpawnTimer == old(s.enemySpawnTimer))
      && (!bossActive ==> |s.enemies| <= |old(s.enemies)| + 1)
      && (!bossActive ==> s.enemySpawnTimer == 0.0 || s.enemySpawnTimer == old(s.enemySpawnTimer) + SpawnQuantum)
      && (s.powerUpSpawnTimer == 0.0 || s.powerUpSpawnTimer == old(s.powerUpSpawnTimer) + SpawnQuantum)
      && (!bossActive && s.enemySpawnTimer != 0.0 ==> |s.enemies| <= |old(s.enemies)|)
    ensures !bossActive ==> SpawnedEnemy(s, d, m)
    ensures SpawnedPowerUp(s, d, |old(s.powerUps)|)
    ensures old(s.player).Some? && !died ==>
      forall b :: b in s.bullets && b.owner != s.player.value.id ==>
        !CheckAABBCollision(BulletBox(b), PlayerBox(s.player.value))
  {
    died := s.CheckCollisions(m);
    assert s.level == old(s.level) && s.currentLevel == old(s.currentLevel) && s.BossFollows(old(s.boss));
    Spawn(s, d, m, bossActive);
  }

  /** A frame of a running session: the systems, then the collision pass
      and the spawners, the boss flag being the one the frame began with. */
  method PlayFrame(s: GameStore, delta: real, m: MathLib, d: Draws) returns (died: bool)
    requires s.Valid() && DrawsValid(d) && s.gameState == Playing
    modifies s
    ensures s.Valid()
    ensures s.level == old(s.level)
    ensures s.BossFollows(old(s.boss))
    ensures s.enemiesKilled >= old(s.enemiesKilled) && s.score >= old(s.score) && s.currentLevel == old(s.currentLevel)
    ensures died <==> s.gameState == GameOver
    ensures s.gameState == Playing || s.gameState == GameOver || s.gameState == LevelComplete
    ensures forall b :: b in s.bullets ==> InWorld(b.position)
    ensures s.enemiesKilled > old(s.enemiesKilled) ==> s.comboTimer == ComboWindow
    ensures old(s.player).Some? ==>
      && s.player.Some?
      && |Uncollected(old(s.powerUps))| <= |s.powerUps| <= |Uncollected(old(s.powerUps))| + 1
      && s.powerUps[..|Uncollected(old(s.powerUps))|]
         == MarkTouched(PlayerPhysics(old(s.player).value, old(s.level), delta), Uncollected(old(s.powerUps)))
      && (old(s.bossActive) ==> |s.enemies| <= |old(s.enemies)| && s.enemySpawnTimer == old(s.enemySpawnTimer))
      && (!old(s.bossActive) ==> |s.enemies| <= |old(s.enemies)| + 1)
      && (!old(s.bossActive) ==>
            s.enemySpawnTimer == 0.0 || s.enemySpawnTimer == old(s.enemySpawnTimer) + SpawnQuantum)
      && (s.powerUpSpawnTimer == 0.0 || s.powerUpSpawnTimer == old(s.powerUpSpawnTimer) + SpawnQuantum)
      && (!old(s.bossActive) && s.enemySpawnTimer != 0.0 ==> |s.enemies| <= |old(s.enemies)|)
    ensures !old(s.bossActive) ==> SpawnedEnemy(s, d, m)
    ensures SpawnedPowerUp(s, d, |Uncollected(old(s.powerUps))|)
    ensures old(s.player).Some? && !died ==>
      forall b :: b in s.bullets && b.owner != s.player.value.id ==>
        !CheckAABBCollision(BulletBox(b), PlayerBox(s.player.value))
  {
    var bossActive := s.bossActive;
    Advance(s, delta, m);
    ghost var player1, powerUps1 := s.player, s.powerUps;
    assert powerUps1 == Uncollected(old(s.powerUps));
    assert old(s.player).Some? ==> player1 == Some(PlayerPhysics(old(s.player).value, old(s.level), delta));
    assert s.enemySpawnTimer == old(s.enemySpawnTimer) && s.powerUpSpawnTimer == old(s.powerUpSpawnTimer);
    assert s.enemiesKilled == old(s.enemiesKilled) && s.score == old(s.score) && s.currentLevel == old(s.currentLevel);
    died := Resolve(s, d, m, bossActive);
  }

  /** One frame of `delta` seconds. The session and the boss flag are the
      values the component last rendered with, that is, those at the start
      of the frame: the spawners still run in a frame whose collision pass
      ended the session, and a boss that appears during the frame does not
      stop this frame's enemy spawn. `died` reports a fatal hit. */
  method Tick(s: GameStore, delta: real, m: MathLib, d: Draws) returns (died: bool)
    requires s.Valid() && DrawsValid(d)
    modifies s
    ensures s.Valid()
    ensures s.level == old(s.level) && s.currentLevel == old(s.currentLevel)
    ensures s.BossFollows(old(s.boss))
    ensures old(s.gameState) != Playing ==> !died && unchanged(s)
    ensures old(s.gameState) == Playing ==>
      && s.enemiesKilled >= old(s.enemiesKilled)
      && s.score >= old(s.score)
      && s.currentLevel == old(s.currentLevel)
      && (died <==> s.gameState == GameOver)
      && (s.gameState == Playing || s.gameState == GameOver || s.gameState == LevelComplete)
      && (forall b :: b in s.bullets ==> InWorld(b.position))
    ensures s.enemiesKilled > old(s.enemiesKilled) ==> s.comboTimer == ComboWindow
    ensures old(s.gameState) == Playing && old(s.player).Some? ==>
      && s.player.Some?
      && |Uncollected(old(s.powerUps))| <= |s.powerUps| <= |Uncollected(old(s.powerUps))| + 1
      && s.powerUps[..|Uncollected(old(s.powerUps))|]
         == MarkTouched(PlayerPhysics(old(s.player).value, old(s.level), delta), Uncollected(old(s.powerUps)))
      && (old(s.bossActive) ==> |s.enemies| <= |old(s.enemies)| && s.enemySpawnTimer == old(s.enemySpawnTimer))
      && (!old(s.bossActive) ==> |s.enemies| <= |old(s.enemies)| + 1)
      && (!old(s.bossActive) ==>
            s.enemySpawnTimer == 0.0 || s.enemySpawnTimer == old(s.enemySpawnTimer) + SpawnQuantum)
      && (s.powerUpSpawnTimer == 0.0 || s.powerUpSpawnTimer == old(s.powerUpSpawnTimer) + SpawnQuantum)
      && (!old(s.bossActive) && s.enemySpawnTimer != 0.0 ==> |s.enemies| <= |old(s.enemies)|)
    ensures old(s.gameState) == Playing && !old(s.bossActive) ==> SpawnedEnemy(s, d, m)
    ensures old(s.gameState) == Playing ==> SpawnedPowerUp(s, d, |Uncollected(old(s.powerUps))|)
    ensures old(s.gameState) == Playing && old(s.player).Some? && !died ==>
      forall b :: b in s.bullets && b.owner != s.player.value.id ==>
        !CheckAABBCollision(BulletBox(b), PlayerBox(s.player.value))
  {
    died := false;
    if s.gameState == Playing {
      died := PlayFrame(s, delta, m, d);
    }
  }
}
