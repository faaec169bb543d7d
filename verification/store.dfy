/**
 * The game store: one object holding the whole game state, and the actions
 * that update it. Entity records are values; where the store's actions
 * share an object between two lists (the damaged enemy during the
 * collision pass), the model writes both.
 */
module Store {
  import opened Entities
  import opened Collision
  import opened Rules

  // ---------------------------------------------------------------------
  // Helpers of the actions
  // ---------------------------------------------------------------------

  /** The platform scan, one platform at a time. */
  method Settle(b: Body, platforms: seq<Platform>, half: Half) returns (r: Body)
    ensures r == LandAll(b, platforms, half)
  {
    r := b;
    for k := 0 to |platforms|
      invariant r == LandAll(b, platforms[..k], half)
    {
      var p := platforms[k];
      if CheckAABBCollision(BodyBox(r.position, half), PlatformBox(p)) {
        if r.velocity.y <= 0.0 {
          r := Body(r.position.(y := p.y + p.height / 2.0 + half.h), r.velocity.(y := 0.0), true);
        }
      }
      assert platforms[..k + 1][..k] == platforms[..k];
    }
    assert platforms[..|platforms|] == platforms;
  }

  /** The inner scan of the collision pass: the last enemy of the list that
      a bullet overlaps, or -1 when it overlaps none. */
  method FindTarget(b: Bullet, es: seq<Enemy>) returns (j: int)
    ensures -1 <= j < |es|
    ensures j >= 0 ==> CheckAABBCollision(BulletBox(b), EnemyBox(es[j]))
    ensures j >= 0 ==> forall k :: j < k < |es| ==> !CheckAABBCollision(BulletBox(b), EnemyBox(es[k]))
    ensures j < 0 ==> forall k :: 0 <= k < |es| ==> !CheckAABBCollision(BulletBox(b), EnemyBox(es[k]))
  {
    j := |es| - 1;
    while j >= 0
      invariant -1 <= j < |es|
      invariant forall k :: j < k < |es| ==> !CheckAABBCollision(BulletBox(b), EnemyBox(es[k]))
    {
      if CheckAABBCollision(BulletBox(b), EnemyBox(es[j])) {
        return;
      }
      j := j - 1;
    }
  }

  /** `j` is the last enemy of `es` that bullet `b` overlaps, or -1 when it
      overlaps none. */
  ghost predicate Targets(b: Bullet, es: seq<Enemy>, j: int)
  {
    && -1 <= j < |es|
    && (j >= 0 ==> CheckAABBCollision(BulletBox(b), EnemyBox(es[j])))
    && (forall k :: j < k < |es| ==> !CheckAABBCollision(BulletBox(b), EnemyBox(es[k])))
  }

  /** The player copy `up` of the bullet scan differs from the player `p`
      it started from in health only, is alive, has lost no health it did
      not have, and has lost none at all behind a shield. */
  ghost predicate CopyOk(up: Player, p: Player)
  {
    && up == p.(health := up.health) && 1 <= up.health <= p.health
    && (p.hasShield ==> up.health == p.health)
  }

  /** The bullets left after the collision pass: every player bullet is
      clear of every enemy, every other bullet is clear of the player. */
  ghost predicate Cleared(bs: seq<Bullet>, es: seq<Enemy>, p: Player)
  {
    forall b :: b in bs ==>
      && (b.owner == p.id ==> forall e :: e in es ==> !CheckAABBCollision(BulletBox(b), EnemyBox(e)))
      && (b.owner != p.id ==> !CheckAABBCollision(BulletBox(b), PlayerBox(p)))
  }

  /** The working list `ue` of the collision pass holds, in order, the
      enemies at positions `refs` of the store's list. */
  ghost predicate Tracks(store: seq<Enemy>, ue: seq<Enemy>, refs: seq<nat>)
  {
    && |ue| == |refs|
    && (forall k :: 0 <= k < |refs| ==> refs[k] < |store| && store[refs[k]] == ue[k])
    && (forall k1, k2 :: 0 <= k1 < k2 < |refs| ==> refs[k1] < refs[k2])
  }

  /** The store's list differs from `es0` in health values only. */
  ghost predicate SameShape(es: seq<Enemy>, es0: seq<Enemy>)
  {
    |es| == |es0| && forall r :: 0 <= r < |es| ==> es[r] == es0[r].(health := es[r].health)
  }

  /** Writing the damaged enemy into both lists keeps them in step; so does
      removing it from the working list. */
  lemma TracksStrike(store: seq<Enemy>, ue: seq<Enemy>, refs: seq<nat>, j: nat, hit: Enemy)
    requires Tracks(store, ue, refs) && j < |ue|
    ensures Tracks(store[refs[j] := hit], ue[j := hit], refs)
    ensures Tracks(store[refs[j] := hit], ue[..j] + ue[j + 1..], refs[..j] + refs[j + 1..])
  {
    var st := store[refs[j] := hit];
    var ue', refs' := ue[..j] + ue[j + 1..], refs[..j] + refs[j + 1..];
    forall k | 0 <= k < |refs'|
      ensures refs'[k] < |st| && st[refs'[k]] == ue'[k]
    {
      if k < j {
        assert refs'[k] == refs[k] && ue'[k] == ue[k] && refs[k] < refs[j];
      } else {
        assert refs'[k] == refs[k + 1] && ue'[k] == ue[k + 1] && refs[j] < refs[k + 1];
      }
    }
    forall k1, k2 | 0 <= k1 < k2 < |refs'|
      ensures refs'[k1] < refs'[k2]
    {
      var a := if k1 < j then k1 else k1 + 1;
      var b := if k2 < j then k2 else k2 + 1;
      assert refs'[k1] == refs[a] && refs'[k2] == refs[b] && a < b;
    }
  }

  /** An enemy bullet against the player copy `up` (which differs from the
      player `p` in health only): a bullet touching the player is used up and
      takes its damage off an unshielded player; one that misses is clear. */
  method EnemyBulletStep(b: Bullet, up: Player, p: Player) returns (hit: bool, up': Player)
    requires up == p.(health := up.health) && b.owner != p.id && b.damage >= 1
    ensures hit <==> CheckAABBCollision(BulletBox(b), PlayerBox(p))
    ensures up' == p.(health := up'.health)
    ensures up'.health == if hit && !up.hasShield then up.health - b.damage else up.health
  {
    assert PlayerBox(up) == PlayerBox(p);
    hit, up' := false, up;
    if CheckAABBCollision(BulletBox(b), PlayerBox(up)) {
      hit := true;
      if !up.hasShield {
        up' := up.(health := up.health - b.damage);
      }
    }
  }

  /** The bullet scan at position i of the working list `ub` of the
      original list `bs`: the bullets before i are the original ones, every
      bullet left is an original one, and those from i on are clear. */
  ghost predicate Scanned(ub: seq<Bullet>, bs: seq<Bullet>, i: int, ue: seq<Enemy>, p: Player)
  {
    && 0 <= i <= |ub| && i <= |bs| && ub[..i] == bs[..i]
    && (forall b :: b in ub ==> b in bs)
    && Cleared(ub[i..], ue, p)
  }

  /** Bullet i is clear and stays: the scan moves on to i. */
  lemma ScanKeep(ub: seq<Bullet>, bs: seq<Bullet>, i: nat, ue: seq<Enemy>, ue': seq<Enemy>, p: Player)
    requires Scanned(ub, bs, i + 1, ue, p) && Cleared([ub[i]] + ub[i + 1..], ue', p)
    ensures Scanned(ub, bs, i, ue', p)
  {
    assert ub[i..] == [ub[i]] + ub[i + 1..];
  }

  /** Bullet i hit something and is spliced out: the scan moves on to i. */
  lemma ScanDrop(ub: seq<Bullet>, bs: seq<Bullet>, i: nat, ue: seq<Enemy>, ue': seq<Enemy>, p: Player)
    requires Scanned(ub, bs, i + 1, ue, p) && Cleared(ub[i + 1..], ue', p)
    ensures Scanned(ub[..i] + ub[i + 1..], bs, i, ue', p)
  {
    var ub' := ub[..i] + ub[i + 1..];
    assert ub[..i] == ub[..i + 1][..i] == bs[..i + 1][..i] == bs[..i];
    assert ub'[..i] == ub[..i];
    assert ub'[i..] == ub[i + 1..];
    forall b | b in ub'
      ensures b in bs
    {
      assert b in ub[..i] || b in ub[i + 1..];
    }
  }

  // ---------------------------------------------------------------------
  // The store
  // ---------------------------------------------------------------------

  class GameStore {
    var player: Option<Player>
    var enemies: seq<Enemy>
    var bullets: seq<Bullet>
    var powerUps: seq<PowerUp>
    /** The platforms of the current level. */
    var level: seq<Platform>
    var gameState: Session
    var score: int
    var currentLevel: int
    var enemiesKilled: int
    var comboCount: int
    var comboTimer: real
    var comboMultiplier: int
    var bossActive: bool
    var boss: Option<Enemy>
    var explosions: seq<Explosion>
    var particles: seq<Particle>
    var enemySpawnTimer: real
    var powerUpSpawnTimer: real
    /** The module-level id counter: the next id to issue. */
    var nextId: nat

    /** The multiplier follows the count, and a streak is running exactly
        while the combo timer is. */
    ghost predicate ComboOk()
      reads this`comboCount, this`comboTimer, this`comboMultiplier
    {
      && comboCount >= 0 && comboTimer >= 0.0
      && comboMultiplier == MultiplierFor(comboCount)
      && (comboTimer > 0.0 <==> comboCount > 0)
    }

    /** A stored player is alive, not above its maximum health, and no faster
        than the top speed horizontally. */
    ghost predicate PlayerOk()
      reads this`player
    {
      player.Some? ==>
        && 1 <= player.value.health <= player.value.maxHealth
        && Abs(player.value.velocity.x) <= PlayerMaxSpeed
    }

    /** The counters never go below their start, and the boss flag and the
        boss record agree. */
    ghost predicate ProgressOk()
      reads this`currentLevel, this`enemiesKilled, this`score, this`bossActive, this`boss
    {
      && currentLevel >= 1 && enemiesKilled >= 0 && score >= 0
      && (bossActive <==> boss.Some?)
      && (boss.Some? ==> boss.value.kind == Boss)
    }

    /** At most six enemies, never the boss. */
    ghost predicate EnemiesOk()
      reads this`enemies
    {
      && |enemies| <= MaxEnemies
      && (forall e :: e in enemies ==> e.kind != Boss)
    }

    /** Bullets do damage; at most three power-ups, with distinct ids that
        have been issued. */
    ghost predicate ItemsOk()
      reads this`bullets, this`powerUps, this`nextId, this`enemySpawnTimer, this`powerUpSpawnTimer
    {
      && (forall b :: b in bullets ==> b.damage >= 1)
      && |powerUps| <= MaxPowerUps
      && (forall u :: u in powerUps ==> u.id < nextId)
      && UniqueIds(powerUps)
      && enemySpawnTimer >= 0.0 && powerUpSpawnTimer >= 0.0
    }

    ghost predicate Valid()
      reads this
    {
      ComboOk() && PlayerOk() && ProgressOk() && EnemiesOk() && ItemsOk()
    }

    /** What the kills of a bullet scan have done so far, against the
        state at its start (kill counter `k0`, combo `timer0`, `count0`,
        `mult0`, session `gs0`, id counter `n0`, boss record `boss0`): every
        kill is paid 100 to 400 points into `gained`, a kill restarts the
        combo window, no kill leaves the combo alone, the session can only
        have become level-complete, and the boss follows `BossFollows`. */
    ghost predicate Tally(k0: int, timer0: real, count0: int, mult0: int, gs0: Session, n0: nat, boss0: Option<Enemy>,
                          gained: int)
      reads this
    {
      && ComboOk() && ProgressOk() && nextId >= n0
      && ComboFollowsKills(k0, timer0, count0, mult0)
      && KillScore * (enemiesKilled - k0) <= gained <= 4 * KillScore * (enemiesKilled - k0)
      && (gameState == gs0 || gameState == LevelComplete)
      && BossFollows(boss0)
    }

    /** Against the boss record `boss0` at the start of a collision pass: a
        boss that was out is still out, the same record (the pass never hits
        or moves it); a boss that appeared is the new boss of the current
        level, which is a multiple of three. */
    ghost predicate BossFollows(boss0: Option<Enemy>)
      reads this`boss, this`bossActive, this`currentLevel
    {
      && (boss0.Some? ==> bossActive && boss == boss0)
      && (boss0.None? && bossActive ==>
            boss.Some? && currentLevel % 3 == 0 && boss.value == NewBoss(boss.value.id, currentLevel))
    }

    /** Against the kill counter `k0` and the combo (`timer0`, `count0`,
        `mult0`) of an earlier state: kills are only ever added, a kill
        restarts the combo window, and no kill leaves the combo alone. */
    ghost predicate ComboFollowsKills(k0: int, timer0: real, count0: int, mult0: int)
      reads this
    {
      && enemiesKilled >= k0
      && (enemiesKilled > k0 ==> comboTimer == ComboWindow)
      && (enemiesKilled == k0 ==> comboTimer == timer0 && comboCount == count0 && comboMultiplier == mult0)
    }

    /** The state after a collision pass that the player survived, against
        the player copy `p0` it started from and the bullets `bs0`, enemies
        `es0`, score `s0`, kill counter `k0` and session `gs0` before it:
        the player differs from `p0` in health only and has lost some, none
        behind a shield; no
        bullet left touches what it can hit; the bullets left are old ones;
        the enemies left are no more than before, old ones with their health
        changed; each kill scored 100 to 400 points; and the level can only
        have become complete. */
    ghost predicate Survived(p0: Player, bs0: seq<Bullet>, es0: seq<Enemy>, s0: int, k0: int, gs0: Session)
      reads this
    {
      && player.Some? && player.value == p0.(health := player.value.health) && player.value.health <= p0.health
      && (p0.hasShield ==> player.value.health == p0.health)
      && Cleared(bullets, enemies, p0)
      && (forall b :: b in bullets ==> b in bs0)
      && |enemies| <= |es0|
      && (forall e :: e in enemies ==> exists r :: 0 <= r < |es0| && e == es0[r].(health := e.health))
      && KillScore * (enemiesKilled - k0) <= score - s0 <= 4 * KillScore * (enemiesKilled - k0)
      && (gameState == gs0 || gameState == LevelComplete)
    }

    /** The store as the page loads it: the menu, no player, no platforms. */
    constructor ()
      ensures Valid()
      ensures gameState == Menu && player.None? && level == []
      ensures enemies == [] && bullets == [] && powerUps == [] && explosions == [] && particles == []
      ensures score == 0 && currentLevel == 1 && enemiesKilled == 0
      ensures comboCount == 0 && comboTimer == 0.0 && comboMultiplier == 1
      ensures !bossActive && boss.None? && enemySpawnTimer == 0.0 && powerUpSpawnTimer == 0.0
      ensures nextId == 1
    {
      player := None;
      enemies := [];
      bullets := [];
      powerUps := [];
      level := [];
      gameState := Menu;
      score := 0;
      currentLevel := 1;
      enemiesKilled := 0;
      comboCount := 0;
      comboTimer := 0.0;
      comboMultiplier := 1;
      bossActive := false;
      boss := None;
      explosions := [];
      particles := [];
      enemySpawnTimer := 0.0;
      powerUpSpawnTimer := 0.0;
      nextId := 1;
    }

    /** Issue the next id; ids are never reissued. */
    method GenerateId() returns (id: Id)
      modifies this`nextId
      ensures id == old(nextId) && nextId == old(nextId) + 1
    {
      id := nextId;
      nextId := nextId + 1;
    }

    /** Load the layout of the current level. */
    method InitializeGame()
      modifies this`level
      ensures level == LevelLayout(currentLevel)
      ensures old(Valid()) ==> Valid()
    {
      level := LevelLayout(currentLevel);
    }

    /** The part of the reset that a new game and a new level share: the
        entity lists, the kill counter, both spawn timers and the boss. */
    method ClearWorld()
      modifies this`enemies, this`bullets, this`powerUps, this`explosions, this`particles, this`enemiesKilled,
               this`enemySpawnTimer, this`powerUpSpawnTimer, this`bossActive, this`boss
      ensures enemies == [] && bullets == [] && powerUps == [] && explosions == [] && particles == []
      ensures enemiesKilled == 0 && enemySpawnTimer == 0.0 && powerUpSpawnTimer == 0.0
      ensures !bossActive && boss.None?
    {
      enemies := [];
      bullets := [];
      powerUps := [];
      explosions := [];
      particles := [];
      enemiesKilled := 0;
      enemySpawnTimer := 0.0;
      powerUpSpawnTimer := 0.0;
      bossActive := false;
      boss := None;
    }

    /** A new game: a fresh player, empty lists, level counter 1. The layout
        is loaded before the level counter is reset, so it is the layout of
        the level the previous game reached. */
    method StartGame()
      modifies this
      ensures Valid()
      ensures player == Some(NewPlayer(old(nextId))) && nextId == old(nextId) + 1
      ensures level == LevelLayout(old(currentLevel))
      ensures gameState == Playing && score == 0 && currentLevel == 1 && enemiesKilled == 0
      ensures enemies == [] && bullets == [] && powerUps == [] && explosions == [] && particles == []
      ensures comboCount == 0 && comboTimer == 0.0 && comboMultiplier == 1
      ensures !bossActive && boss.None? && enemySpawnTimer == 0.0 && powerUpSpawnTimer == 0.0
    {
      var id := GenerateId();
      InitializeGame();
      ClearWorld();
      ResetSession(id);
    }

    /** The part of the reset only a new game does: a fresh player, the
        session, the score, the level counter and the combo. */
    method ResetSession(id: Id)
      modifies this`player, this`gameState, this`score, this`currentLevel, this`comboCount, this`comboTimer,
               this`comboMultiplier
      ensures player == Some(NewPlayer(id))
      ensures gameState == Playing && score == 0 && currentLevel == 1
      ensures comboCount == 0 && comboTimer == 0.0 && comboMultiplier == 1
    {
      player := Some(NewPlayer(id));
      gameState, score, currentLevel := Playing, 0, 1;
      comboCount, comboTimer, comboMultiplier := 0, 0.0, 1;
    }

    method RestartGame()
      modifies this
      ensures Valid()
      ensures player == Some(NewPlayer(old(nextId))) && nextId == old(nextId) + 1
      ensures level == LevelLayout(old(currentLevel))
      ensures gameState == Playing && score == 0 && currentLevel == 1 && enemiesKilled == 0
      ensures enemies == [] && bullets == [] && powerUps == [] && explosions == [] && particles == []
      ensures comboCount == 0 && comboTimer == 0.0 && comboMultiplier == 1
      ensures !bossActive && boss.None? && enemySpawnTimer == 0.0 && powerUpSpawnTimer == 0.0
    {
      StartGame();
    }

    /** The player's physics step on a copy of the player. */
    method MovePlayer(p0: Player, delta: real) returns (p: Player)
      ensures p == PlayerPhysics(p0, level, delta)
    {
      var velocity := p0.velocity;
      if !p0.onGround {
        velocity := Fall(velocity, delta);
      }
      var b := Settle(Body(Integrate(p0.position, velocity, delta), velocity, false), level, PlayerHalf);
      var cooldown := p0.shootCooldown;
      if cooldown > 0.0 {
        cooldown := cooldown - delta;
      }
      var shield, duration := p0.hasShield, p0.shieldDuration;
      if shield && duration > 0.0 {
        duration := duration - delta;
        if duration <= 0.0 {
          shield, duration := false, 0.0;
        }
      }
      p := p0.(position := b.position, velocity := Position(b.velocity.x * 0.85, b.velocity.y),
               onGround := b.landed, isJumping := if b.landed then false else p0.isJumping,
               shootCooldown := cooldown, hasShield := shield, shieldDuration := duration);
    }

    /** The player's physics step. */
    method UpdatePlayer(delta: real)
      requires Valid()
      modifies this`player
      ensures Valid()
      ensures old(player).None? ==> player.None?
      ensures old(player).Some? ==> player == Some(PlayerPhysics(old(player).value, level, delta))
    {
      if player.None? {
        return;
      }
      var p := MovePlayer(player.value, delta);
      PhysicsKeepsSpeedBound(player.value, level, delta);
      PlayerPhysicsFacts(player.value, level, delta);
      player := Some(p);
    }

    /** Create one bullet. */
    method ShootBullet(s: Shot)
      modifies this`bullets, this`nextId
      ensures bullets == old(bullets) + [MakeBullet(s, old(nextId))]
      ensures nextId == old(nextId) + 1
      ensures old(Valid()) ==> Valid()
    {
      var id := GenerateId();
      bullets := bullets + [MakeBullet(s, id)];
    }

    /** Create the bullets of several shots, in order. */
    method ShootAll(shots: seq<Shot>)
      modifies this`bullets, this`nextId
      ensures bullets == old(bullets) + Fire(shots, old(nextId))
      ensures nextId == old(nextId) + |shots|
    {
      for k := 0 to |shots|
        invariant bullets == old(bullets) + Fire(shots[..k], old(nextId))
        invariant nextId == old(nextId) + k
      {
        ShootBullet(shots[k]);
        FireAppend(shots[..k], [shots[k]], old(nextId));
        assert shots[..k + 1] == shots[..k] + [shots[k]];
      }
      assert shots[..|shots|] == shots;
    }

    /** One enemy's frame: its AI (whose shots become bullets at once), then
        gravity for the archetypes that feel it, the move, the platform scan
        for those archetypes, and the cooldown. */
    method UpdateEnemy(e: Enemy, delta: real, m: MathLib) returns (e': Enemy)
      modifies this`bullets, this`nextId
      ensures e' == EnemyStep(e, player, level, delta, m).0
      ensures bullets == old(bullets) + Fire(EnemyStep(e, player, level, delta, m).1, old(nextId))
      ensures nextId == old(nextId) + |EnemyStep(e, player, level, delta, m).1|
    {
      var t := Think(e, player, delta, m);
      ShootAll(t.1);
      e' := MoveEnemy(t.0, delta);
    }

    /** An enemy's physics step: gravity for the archetypes that feel it,
        the move, the platform scan for those archetypes, the cooldown. */
    method MoveEnemy(e0: Enemy, delta: real) returns (e: Enemy)
      ensures e == EnemyPhysics(e0, level, delta)
    {
      var velocity := e0.velocity;
      if FeelsGravity(e0.kind) {
        velocity := Fall(velocity, delta);
      }
      var b := Body(Integrate(e0.position, velocity, delta), velocity, false);
      if FeelsGravity(e0.kind) {
        b := Settle(b, level, EnemyHalf);
      }
      var cooldown := e0.shootCooldown;
      if cooldown > 0.0 {
        cooldown := cooldown - delta;
      }
      e := e0.(position := b.position, velocity := b.velocity, shootCooldown := cooldown);
    }

    /** The enemy loop: every enemy's frame, in list order, the shots
        becoming bullets as they are fired. */
    method StepAllEnemies(delta: real, m: MathLib) returns (done: seq<Enemy>)
      modifies this`bullets, this`nextId
      ensures done == StepEnemies(enemies, player, level, delta, m).0
      ensures bullets == old(bullets) + Fire(StepEnemies(enemies, player, level, delta, m).1, old(nextId))
      ensures nextId == old(nextId) + |StepEnemies(enemies, player, level, delta, m).1|
    {
      done := [];
      ghost var shots: seq<Shot> := [];
      for k := 0 to |enemies|
        invariant (done, shots) == StepEnemies(enemies[..k], player, level, delta, m)
        invariant bullets == old(bullets) + Fire(shots, old(nextId))
        invariant nextId == old(nextId) + |shots|
      {
        var e;
        e, shots := EnemyTurn(k, delta, m, done, shots, old(bullets), old(nextId));
        done := done + [e];
      }
      assert enemies[..|enemies|] == enemies;
    }

    /** The enemy loop's k-th turn: the enemy's frame, its shots appended
        to the bullets fired so far. */
    method EnemyTurn(k: nat, delta: real, m: MathLib, ghost done: seq<Enemy>, ghost shots: seq<Shot>,
                     ghost bs0: seq<Bullet>, ghost n0: Id)
      returns (e: Enemy, ghost shots': seq<Shot>)
      requires k < |enemies| && (done, shots) == StepEnemies(enemies[..k], player, level, delta, m)
      requires bullets == bs0 + Fire(shots, n0) && nextId == n0 + |shots|
      modifies this`bullets, this`nextId
      ensures (done + [e], shots') == StepEnemies(enemies[..k + 1], player, level, delta, m)
      ensures bullets == bs0 + Fire(shots', n0) && nextId == n0 + |shots'|
    {
      ghost var before := bullets;
      e := UpdateEnemy(enemies[k], delta, m);
      shots' := shots + EnemyStep(enemies[k], player, level, delta, m).1;
      EnemyLoopStep(enemies, k, player, level, delta, m, done, shots, e, bs0, before, bullets, n0);
    }

    /** Every enemy's AI and physics, in list order; the shots they fire are
        appended to the bullets as they are fired. */
    method UpdateEnemies(delta: real, m: MathLib)
      requires Valid()
      modifies this`enemies, this`bullets, this`nextId
      ensures Valid()
      ensures enemies == StepEnemies(old(enemies), player, level, delta, m).0
      ensures bullets == old(bullets) + Fire(StepEnemies(old(enemies), player, level, delta, m).1, old(nextId))
      ensures nextId == old(nextId) + |StepEnemies(old(enemies), player, level, delta, m).1|
    {
      var done := StepAllEnemies(delta, m);
      StepKeepsKinds(enemies, player, level, delta, m);
      FireDamage(StepEnemies(enemies, player, level, delta, m).1, old(nextId));
      enemies := done;
    }

    /** Move the bullets and cull those outside the world. */
    method UpdateBullets(delta: real)
      requires Valid()
      modifies this`bullets
      ensures Valid()
      ensures bullets == StepBullets(old(bullets), delta)
    {
      bullets := StepBullets(bullets, delta);
    }

    /** Drop the collected power-ups. */
    method UpdatePowerUps()
      requires Valid()
      modifies this`powerUps
      ensures Valid()
      ensures powerUps == Uncollected(old(powerUps))
    {
      var filtered := Uncollected(powerUps);
      UncollectedKeepsUniqueIds(powerUps);
      if |filtered| != |powerUps| {
        powerUps := filtered;
      } else {
        UncollectedSameLength(powerUps);
      }
    }

    method UpdateExplosions(delta: real)
      requires Valid()
      modifies this`explosions
      ensures Valid()
      ensures explosions == StepExplosions(old(explosions), delta)
    {
      explosions := StepExplosions(explosions, delta);
    }

    method UpdateParticles(delta: real)
      requires Valid()
      modifies this`particles
      ensures Valid()
      ensures particles == StepParticles(old(particles), delta)
    {
      particles := StepParticles(particles, delta);
    }

    /** Run the combo timer down; the streak ends on the call where it
        reaches 0, and a stopped timer stays as it is. */
    method UpdateComboTimer(delta: real)
      requires Valid()
      modifies this`comboTimer, this`comboCount, this`comboMultiplier
      ensures Valid()
      ensures old(comboTimer) <= 0.0 ==>
        comboTimer == old(comboTimer) && comboCount == old(comboCount) && comboMultiplier == old(comboMultiplier)
      ensures old(comboTimer) > 0.0 && old(comboTimer) - delta <= 0.0 ==>
        comboTimer == 0.0 && comboCount == 0 && comboMultiplier == 1
      ensures old(comboTimer) > 0.0 && old(comboTimer) - delta > 0.0 ==>
        comboTimer == old(comboTimer) - delta && comboCount == old(comboCount) && comboMultiplier == old(comboMultiplier)
    {
      if comboTimer > 0.0 {
        var newTimer := Max(0.0, comboTimer - delta);
        if newTimer == 0.0 {
          comboTimer := 0.0;
          comboCount := 0;
          comboMultiplier := 1;
        } else {
          comboTimer := newTimer;
        }
      }
    }

    /** Advance to the next level: the player goes back to the start, healed
        by one point up to the maximum; the lists and the kill counter are
        cleared, score and combo carry over. */
    method NextLevel()
      requires Valid()
      modifies this`player, this`currentLevel, this`gameState, this`enemies, this`bullets, this`powerUps,
               this`explosions, this`particles, this`enemiesKilled, this`enemySpawnTimer,
               this`powerUpSpawnTimer, this`bossActive, this`boss, this`level
      ensures Valid()
      ensures old(player).None? ==> player.None?
      ensures old(player).Some? ==>
        var p := old(player).value;
        player == Some(p.(position := Position(0.0, -1.5), velocity := Position(0.0, 0.0),
                          health := if p.health < p.maxHealth then p.health + 1 else p.maxHealth))
      ensures currentLevel == old(currentLevel) + 1 && gameState == Playing && level == LevelLayout(currentLevel)
      ensures enemies == [] && bullets == [] && powerUps == [] && explosions == [] && particles == []
      ensures enemiesKilled == 0 && enemySpawnTimer == 0.0 && powerUpSpawnTimer == 0.0
      ensures !bossActive && boss.None?
    {
      var next := currentLevel + 1;
      if player.Some? {
        var p := player.value;
        var healed := if p.maxHealth < p.health + 1 then p.maxHealth else p.health + 1;
        player := Some(p.(position := Position(0.0, -1.5), velocity := Position(0.0, 0.0), health := healed));
      }
      currentLevel := next;
      gameState := Playing;
      ClearWorld();
      InitializeGame();
    }

    /** The movement and jump keys, on a copy of the player. */
    method SteerPlayer(p0: Player, input: Input) returns (p: Player)
      ensures p == Steer(p0, input)
    {
      p := p0;
      if input.left {
        p := p.(velocity := p.velocity.(x := Max(p.velocity.x - PlayerAcceleration, -PlayerMaxSpeed)), facingRight := false);
      }
      if input.right {
        p := p.(velocity := p.velocity.(x := Min(p.velocity.x + PlayerAcceleration, PlayerMaxSpeed)), facingRight := true);
      }
      if input.jump && p.onGround && !p.isJumping {
        p := p.(velocity := p.velocity.(y := JumpForce), isJumping := true, onGround := false);
      }
    }

    /** Steering, a shot when the cooldown allows, then the weapon keys, on
        a copy of the player; the shot's bullets go to the store. */
    method ActOnInput(p0: Player, input: Input, m: MathLib) returns (p: Player)
      modifies this`bullets, this`nextId
      ensures p == ApplyInput(p0, input)
      ensures bullets == old(bullets) + Fire(InputShots(p0, input, m), old(nextId))
      ensures nextId == old(nextId) + |InputShots(p0, input, m)|
    {
      p := SteerPlayer(p0, input);
      if input.shoot && p.shootCooldown <= 0.0 {
        var cooldown := WeaponCooldown(p.currentWeapon);
        ShootAll(PlayerShots(p, m));
        p := p.(shootCooldown := cooldown);
      }
      if input.weapon1 {
        p := p.(currentWeapon := Basic);
      }
      if input.weapon2 {
        p := p.(currentWeapon := MachineGun);
      }
      if input.weapon3 {
        p := p.(currentWeapon := SpreadGun);
      }
    }

    /** One frame of input, applied only while playing. */
    method UpdatePlayerInput(input: Input, m: MathLib)
      requires Valid()
      modifies this`player, this`bullets, this`nextId
      ensures Valid()
      ensures old(player).None? || old(gameState) != Playing ==>
        player == old(player) && bullets == old(bullets) && nextId == old(nextId)
      ensures old(player).Some? && old(gameState) == Playing ==>
        && player == Some(ApplyInput(old(player).value, input))
        && bullets == old(bullets) + Fire(InputShots(old(player).value, input, m), old(nextId))
        && nextId == old(nextId) + |InputShots(old(player).value, input, m)|
    {
      if player.None? || gameState != Playing {
        return;
      }
      var p0 := player.value;
      InputFacts(p0, input, m);
      FireDamage(InputShots(p0, input, m), nextId);
      var p := ActOnInput(p0, input, m);
      player := Some(p);
    }

    /** Pick up the power-up with the given id: nothing happens without a
        player, for an unknown id, or for a power-up already collected;
        otherwise its effect is applied and it is marked collected. */
    method CollectPowerUp(id: Id)
      modifies this`player, this`powerUps
      ensures var k := IndexOf(old(powerUps), id);
        old(player).None? || k < 0 || old(powerUps)[k].collected ==>
          player == old(player) && powerUps == old(powerUps)
      ensures var k := IndexOf(old(powerUps), id);
        old(player).Some? && k >= 0 && !old(powerUps)[k].collected ==>
          player == Some(ApplyPowerUp(old(player).value, old(powerUps)[k].kind))
          && powerUps == old(powerUps)[k := old(powerUps)[k].(collected := true)]
      ensures old(Valid()) ==> Valid()
    {
      if player.None? {
        return;
      }
      var k := IndexOf(powerUps, id);
      if k < 0 || powerUps[k].collected {
        return;
      }
      var u := powerUps[k];
      player := Some(ApplyPowerUp(player.value, u.kind));
      powerUps := powerUps[k := u.(collected := true)];
    }

    /** The power-up part of the collision pass: every uncollected power-up
        the player (standing at `at`) overlaps is picked up by its id, in
        list order. */
    method CollectTouched(at: Player)
      requires player.Some? && UniqueIds(powerUps)
      modifies this`player, this`powerUps
      ensures powerUps == MarkTouched(at, old(powerUps))
      ensures player == Some(GatherPlayer(old(player).value, at, old(powerUps)))
    {
      ghost var us0 := powerUps;
      ghost var p0 := player.value;
      for k := 0 to |powerUps|
        invariant powerUps == MarkTouched(at, us0[..k]) + us0[k..]
        invariant player == Some(GatherPlayer(p0, at, us0[..k]))
      {
        CollectStep(at, us0, p0, k, powerUps);
        var u := powerUps[k];
        if !u.collected && CheckAABBCollision(PlayerBox(at), PowerUpBox(u)) {
          CollectPowerUp(u.id);
        }
      }
      assert us0[..|us0|] == us0;
    }

    /** The eight particles of a kill at `at`, spread evenly around the
        circle at speed 3, each with a fresh id. */
    method EmitBurst(at: Position, m: MathLib) returns (ps: seq<Particle>)
      modifies this`nextId
      ensures ps == Burst(old(nextId), at, m) && nextId == old(nextId) + 8
    {
      ps := [];
      ghost var burst := Burst(nextId, at, m);
      for p := 0 to 8
        invariant ps == burst[..p]
        invariant nextId == old(nextId) + p
      {
        var id := GenerateId();
        ps := ps + [Particle(id, at, RingVelocity(p, m, 3.0), 1.0)];
        assert burst[p] == Particle(id, at, RingVelocity(p, m, 3.0), 1.0);
        assert burst[..p + 1] == burst[..p] + [burst[p]];
      }
      assert burst[..8] == burst;
    }

    /** The combo after a kill, from the stored timer and count. */
    method ComboOnKill() returns (c: Combo)
      ensures c == NextCombo(comboTimer, comboCount)
    {
      var count := comboCount;
      var multiplier := comboMultiplier;
      if comboTimer > 0.0 {
        count := count + 1;
        if count >= 5 {
          multiplier := 4;
        } else if count >= 3 {
          multiplier := 2;
        } else {
          multiplier := 1;
        }
      } else {
        count := 1;
        multiplier := 1;
      }
      c := Combo(count, multiplier);
    }

    /** The level check of a kill, given the kill counter before it: with
        enough kills and no boss out, every third level brings its boss,
        any other level is complete. */
    method CheckLevelEnd(killedBefore: int)
      requires bossActive <==> boss.Some?
      requires boss.Some? ==> boss.value.kind == Boss
      modifies this`boss, this`bossActive, this`gameState, this`nextId
      ensures bossActive <==> boss.Some?
      ensures boss.Some? ==> boss.value.kind == Boss
      ensures killedBefore >= KillsNeeded(currentLevel) && !old(bossActive) && currentLevel % 3 == 0 ==>
        boss == Some(NewBoss(old(nextId), currentLevel)) && bossActive
        && gameState == old(gameState) && nextId == old(nextId) + 1
      ensures killedBefore >= KillsNeeded(currentLevel) && !old(bossActive) && currentLevel % 3 != 0 ==>
        gameState == LevelComplete && boss == old(boss) && bossActive == old(bossActive) && nextId == old(nextId)
      ensures !(killedBefore >= KillsNeeded(currentLevel) && !old(bossActive)) ==>
        gameState == old(gameState) && boss == old(boss) && bossActive == old(bossActive) && nextId == old(nextId)
    {
      if killedBefore >= KillsNeeded(currentLevel) && !bossActive {
        if currentLevel % 3 == 0 {
          var bossId := GenerateId();
          boss := Some(NewBoss(bossId, currentLevel));
          bossActive := true;
        } else {
          gameState := LevelComplete;
        }
      }
    }

    /** The batch update of a kill: the new combo with its window
        restarted, one more kill, and the explosion and particles it
        leaves. */
    method CountKill(c: Combo, boom: Explosion, burst: seq<Particle>)
      modifies this`comboCount, this`comboMultiplier, this`comboTimer, this`enemiesKilled, this`explosions,
               this`particles
      ensures comboCount == c.count && comboMultiplier == c.multiplier && comboTimer == ComboWindow
      ensures enemiesKilled == old(enemiesKilled) + 1
      ensures explosions == old(explosions) + [boom] && particles == old(particles) + burst
    {
      comboCount, comboMultiplier, comboTimer := c.count, c.multiplier, ComboWindow;
      enemiesKilled := enemiesKilled + 1;
      explosions, particles := explosions + [boom], particles + burst;
    }

    /** The score, combo, kill counter, explosion, particles and level or
        boss trigger of one kill at `at`; `gained` is what the kill adds to
        the score. The completion test reads the kill counter before this
        kill is counted. */
    method RegisterKill(at: Position, m: MathLib) returns (gained: int)
      requires ComboOk() && ProgressOk()
      modifies this`comboCount, this`comboMultiplier, this`comboTimer, this`enemiesKilled, this`explosions,
               this`particles, this`nextId, this`boss, this`bossActive, this`gameState
      ensures ComboOk() && ProgressOk()
      ensures comboCount == NextCombo(old(comboTimer), old(comboCount)).count
      ensures comboMultiplier == NextCombo(old(comboTimer), old(comboCount)).multiplier
      ensures gained == KillScore * comboMultiplier
      ensures comboTimer == ComboWindow && enemiesKilled == old(enemiesKilled) + 1
      ensures explosions == old(explosions) + [ExplosionAt(old(nextId), at)]
      ensures particles == old(particles) + Burst(old(nextId) + 1, at, m)
      ensures old(enemiesKilled) >= KillsNeeded(currentLevel) && !old(bossActive) && currentLevel % 3 == 0 ==>
        boss == Some(NewBoss(old(nextId) + 9, currentLevel)) && bossActive
        && gameState == old(gameState) && nextId == old(nextId) + 10
      ensures old(enemiesKilled) >= KillsNeeded(currentLevel) && !old(bossActive) && currentLevel % 3 != 0 ==>
        gameState == LevelComplete && boss == old(boss) && bossActive == old(bossActive) && nextId == old(nextId) + 9
      ensures !(old(enemiesKilled) >= KillsNeeded(currentLevel) && !old(bossActive)) ==>
        gameState == old(gameState) && boss == old(boss) && bossActive == old(bossActive) && nextId == old(nextId) + 9
    {
      var c := ComboOnKill();
      gained := KillScore * c.multiplier;
      var explosionId := GenerateId();
      var burst := EmitBurst(at, m);
      var killedBefore := enemiesKilled;
      CountKill(c, ExplosionAt(explosionId, at), burst);
      CheckLevelEnd(killedBefore);
    }

    /** The player-bullet branch of the bullet scan: `j` is the last enemy
        of the working list that the bullet overlaps, if any; it loses the
        bullet's damage (in the store's list too, which shares the enemy),
        and `killed` is its position when that ends it. */
    method HitEnemy(b: Bullet, ue: seq<Enemy>, refs: seq<nat>, ghost es0: seq<Enemy>, ghost rest: seq<Bullet>, p0: Player)
      returns (ue': seq<Enemy>, refs': seq<nat>, j: int, hit: bool, killed: Option<Position>)
      requires b.owner == p0.id
      requires Tracks(enemies, ue, refs) && SameShape(enemies, es0) && Cleared(rest, ue, p0)
      modifies this`enemies
      ensures Tracks(enemies, ue', refs') && SameShape(enemies, es0) && Cleared(rest, ue', p0)
      ensures Targets(b, ue, j) && (hit <==> j >= 0)
      ensures !hit ==> enemies == old(enemies) && ue' == ue && refs' == refs && killed.None? && Cleared([b] + rest, ue, p0)
      ensures hit ==> enemies == old(enemies)[refs[j] := ue[j].(health := ue[j].health - b.damage)]
      ensures hit ==> (killed.Some? <==> ue[j].health - b.damage <= 0)
      ensures hit && killed.Some? ==>
        killed.value == ue[j].position && ue' == ue[..j] + ue[j + 1..] && refs' == refs[..j] + refs[j + 1..]
      ensures hit && killed.None? ==> ue' == ue[j := ue[j].(health := ue[j].health - b.damage)] && refs' == refs
    {
      j := FindTarget(b, ue);
      if j < 0 {
        ue', refs', hit, killed := ue, refs, false, None;
        return;
      }
      hit := true;
      var ueBefore := ue;
      var dead;
      ue', refs', dead := Strike(ue, refs, j, b.damage);
      StrikeKeepsShape(enemies, old(enemies), es0, refs, ueBefore, j, b.damage);
      ClearedAfterStrike(rest, ueBefore, ue', j, b.damage, p0);
      killed := if dead then Some(ueBefore[j].position) else None;
    }

    /** A player bullet in the bullet scan: the hit of `HitEnemy` on enemy
        `j`, and the kill it may bring, whose score is added to `gained`. A
        kill is counted once, with its explosion where the enemy stood; a
        bullet that kills nothing leaves the kill bookkeeping alone. */
    method PlayerBulletStep(b: Bullet, ue: seq<Enemy>, refs: seq<nat>, ghost es0: seq<Enemy>, ghost rest: seq<Bullet>,
                            p0: Player, gained: int, m: MathLib,
                            ghost k0: int, ghost timer0: real, ghost count0: int, ghost mult0: int, ghost gs0: Session, ghost n0: nat,
                            ghost boss0: Option<Enemy>)
      returns (ue': seq<Enemy>, refs': seq<nat>, j: int, hit: bool, gained': int)
      requires b.owner == p0.id
      requires Tracks(enemies, ue, refs) && SameShape(enemies, es0) && Cleared(rest, ue, p0)
      requires Tally(k0, timer0, count0, mult0, gs0, n0, boss0, gained)
      modifies this`enemies, this`comboCount, this`comboTimer, this`comboMultiplier, this`enemiesKilled,
               this`explosions, this`particles, this`nextId, this`boss, this`bossActive, this`gameState
      ensures Tracks(enemies, ue', refs') && SameShape(enemies, es0) && Cleared(rest, ue', p0)
      ensures !hit ==> Cleared([b] + rest, ue', p0)
      ensures Tally(k0, timer0, count0, mult0, gs0, n0, boss0, gained')
      ensures Targets(b, ue, j) && (hit <==> j >= 0)
      ensures !hit ==> enemies == old(enemies) && ue' == ue && refs' == refs
      ensures hit ==> enemies == old(enemies)[refs[j] := ue[j].(health := ue[j].health - b.damage)]
      ensures hit && ue[j].health - b.damage > 0 ==> ue' == ue[j := ue[j].(health := ue[j].health - b.damage)] && refs' == refs
      ensures hit && ue[j].health - b.damage <= 0 ==>
        && ue' == ue[..j] + ue[j + 1..] && refs' == refs[..j] + refs[j + 1..]
        && enemiesKilled == old(enemiesKilled) + 1 && comboTimer == ComboWindow
        && comboCount == NextCombo(old(comboTimer), old(comboCount)).count
        && gained' == gained + KillScore * comboMultiplier
        && explosions == old(explosions) + [ExplosionAt(old(nextId), ue[j].position)]
      ensures !(hit && ue[j].health - b.damage <= 0) ==>
        && enemiesKilled == old(enemiesKilled) && gained' == gained
        && comboTimer == old(comboTimer) && comboCount == old(comboCount) && comboMultiplier == old(comboMultiplier)
        && explosions == old(explosions) && nextId == old(nextId) && gameState == old(gameState)
    {
      var killed;
      ue', refs', j, hit, killed := HitEnemy(b, ue, refs, es0, rest, p0);
      gained' := ScoreKill(killed, gained, m, k0, timer0, count0, mult0, gs0, n0, boss0);
    }

    /** The kill, if any, of a player bullet in the bullet scan: the enemy
        that died at `at` is registered and its score added to `gained`;
        without a kill nothing changes. */
    method ScoreKill(at: Option<Position>, gained: int, m: MathLib,
                     ghost k0: int, ghost timer0: real, ghost count0: int, ghost mult0: int, ghost gs0: Session, ghost n0: nat,
                     ghost boss0: Option<Enemy>)
      returns (gained': int)
      requires Tally(k0, timer0, count0, mult0, gs0, n0, boss0, gained)
      modifies this`comboCount, this`comboTimer, this`comboMultiplier, this`enemiesKilled,
               this`explosions, this`particles, this`nextId, this`boss, this`bossActive, this`gameState
      ensures Tally(k0, timer0, count0, mult0, gs0, n0, boss0, gained')
      ensures at.Some? ==>
        && enemiesKilled == old(enemiesKilled) + 1 && comboTimer == ComboWindow
        && comboCount == NextCombo(old(comboTimer), old(comboCount)).count
        && gained' == gained + KillScore * comboMultiplier
        && explosions == old(explosions) + [ExplosionAt(old(nextId), at.value)]
      ensures at.None? ==>
        && enemiesKilled == old(enemiesKilled) && gained' == gained
        && comboTimer == old(comboTimer) && comboCount == old(comboCount) && comboMultiplier == old(comboMultiplier)
        && explosions == old(explosions) && nextId == old(nextId) && gameState == old(gameState)
        && boss == old(boss) && bossActive == old(bossActive)
    {
      gained' := gained;
      if at.Some? {
        var g := RegisterKill(at.value, m);
        gained' := gained + g;
      }
    }

    /** A player bullet hits enemy j of the working list: only that enemy
        loses health, by the bullet's damage, in the working list and in the
        store's list alike (the two share the enemy objects); it leaves the
        working list exactly when its health drops to 0 or below. */
    method Strike(ue: seq<Enemy>, refs: seq<nat>, j: nat, damage: int) returns (ue': seq<Enemy>, refs': seq<nat>, killed: bool)
      requires j < |ue| && Tracks(enemies, ue, refs)
      modifies this`enemies
      ensures enemies == old(enemies)[refs[j] := ue[j].(health := ue[j].health - damage)]
      ensures killed <==> ue[j].health - damage <= 0
      ensures killed ==> ue' == ue[..j] + ue[j + 1..] && refs' == refs[..j] + refs[j + 1..]
      ensures !killed ==> ue' == ue[j := ue[j].(health := ue[j].health - damage)] && refs' == refs
      ensures Tracks(enemies, ue', refs')
    {
      var hit := ue[j].(health := ue[j].health - damage);
      TracksStrike(enemies, ue, refs, j, hit);
      enemies := enemies[refs[j] := hit];
      ue' := ue[j := hit];
      refs' := refs;
      killed := hit.health <= 0;
      if killed {
        ue' := ue[..j] + ue[j + 1..];
        refs' := refs[..j] + refs[j + 1..];
      }
    }

    /** One bullet of the scan, bullet i of the working list: a player
        bullet is tried against the enemies (`j` is the one it hits, as
        `PlayerBulletStep` says), any other bullet against the player copy
        `up`; a bullet that hits is removed from the list, and one that
        misses stays. `died` says the hit took the player copy's health to 0
        or below. */
    method ScanStep(i: nat, ub: seq<Bullet>, ue: seq<Enemy>, refs: seq<nat>, up: Player, gained: int,
                    ghost es0: seq<Enemy>, p0: Player, m: MathLib,
                    ghost k0: int, ghost timer0: real, ghost count0: int, ghost mult0: int, ghost gs0: Session, ghost n0: nat,
                    ghost boss0: Option<Enemy>)
      returns (ub': seq<Bullet>, ue': seq<Enemy>, refs': seq<nat>, up': Player, gained': int, j: int, hit: bool, died: bool)
      requires Scanned(ub, bullets, i + 1, ue, p0)
      requires Tracks(enemies, ue, refs) && SameShape(enemies, es0)
      requires CopyOk(up, p0)
      requires forall b :: b in bullets ==> b.damage >= 1
      requires Tally(k0, timer0, count0, mult0, gs0, n0, boss0, gained)
      modifies this`enemies, this`comboCount, this`comboTimer, this`comboMultiplier, this`enemiesKilled,
               this`explosions, this`particles, this`nextId, this`boss, this`bossActive, this`gameState
      ensures Tracks(enemies, ue', refs') && SameShape(enemies, es0)
      ensures Tally(k0, timer0, count0, mult0, gs0, n0, boss0, gained')
      ensures !died ==> Scanned(ub', bullets, i, ue', p0) && CopyOk(up', p0)
      ensures !died ==> ub' == if hit then ub[..i] + ub[i + 1..] else ub
      ensures ub[i].owner == p0.id ==>
        && !died && up' == up && Targets(ub[i], ue, j) && (hit <==> j >= 0)
        && (!hit ==> enemies == old(enemies))
        && (hit ==> enemies == old(enemies)[refs[j] := ue[j].(health := ue[j].health - ub[i].damage)])
      ensures ub[i].owner != p0.id ==>
        && (hit <==> CheckAABBCollision(BulletBox(ub[i]), PlayerBox(p0)))
        && enemies == old(enemies) && ue' == ue && refs' == refs && gained' == gained
        && up'.health == (if hit && !up.hasShield then up.health - ub[i].damage else up.health)
        && (died <==> up'.health <= 0)
    {
      var b := ub[i];
      assert b in bullets;
      ub', ue', refs', up', gained', j, died := ub, ue, refs, up, gained, -1, false;
      if b.owner == p0.id {
        ue', refs', j, hit, gained' := PlayerBulletStep(b, ue, refs, es0, ub[i + 1..], p0, gained, m,
                                                        k0, timer0, count0, mult0, gs0, n0, boss0);
      } else {
        hit, up' := EnemyBulletStep(b, up, p0);
        died := up'.health <= 0;
      }
      if hit {
        ScanDrop(ub, bullets, i, ue, ue', p0);
        ub' := ub[..i] + ub[i + 1..];
      } else {
        ScanKeep(ub, bullets, i, ue, ue', p0);
      }
    }

    /** The bullet scan of the collision pass, from the last bullet to the
        first, on working copies of the bullet list, the enemy list and the
        player `p0`; kills are registered as they happen. `died` says the
        scan stopped at a fatal hit on the player. */
    method ScanBullets(p0: Player, m: MathLib) returns (ub: seq<Bullet>, ue: seq<Enemy>, up: Player, gained: int, died: bool)
      requires ComboOk() && ProgressOk() && 1 <= p0.health
      requires forall b :: b in bullets ==> b.damage >= 1
      modifies this`enemies, this`comboCount, this`comboTimer, this`comboMultiplier, this`enemiesKilled,
               this`explosions, this`particles, this`nextId, this`boss, this`bossActive, this`gameState
      ensures Tally(old(enemiesKilled), old(comboTimer), old(comboCount), old(comboMultiplier), old(gameState), old(nextId), old(boss), gained)
      ensures SameShape(enemies, old(enemies))
      ensures !died ==>
        && CopyOk(up, p0)
        && Cleared(ub, ue, p0)
        && (forall b :: b in ub ==> b in bullets)
        && |ue| <= |old(enemies)|
        && (forall e :: e in ue ==> exists r :: 0 <= r < |old(enemies)| && e == old(enemies)[r].(health := e.health))
    {
      ghost var es0 := enemies;
      ub, ue, up, gained, died := bullets, enemies, p0, 0, false;
      var refs: seq<nat> := seq(|enemies|, k => k);
      var i := |ub|;
      while i > 0
        invariant Scanned(ub, bullets, i, ue, p0)
        invariant Tracks(enemies, ue, refs) && SameShape(enemies, es0)
        invariant CopyOk(up, p0)
        invariant Tally(old(enemiesKilled), old(comboTimer), old(comboCount), old(comboMultiplier), old(gameState), old(nextId), old(boss), gained)
      {
        i := i - 1;
        var target, hit;
        ub, ue, refs, up, gained, target, hit, died := ScanStep(i, ub, ue, refs, up, gained, es0, p0, m, old(enemiesKilled),
                                                                   old(comboTimer), old(comboCount), old(comboMultiplier), old(gameState), old(nextId),
                                                                   old(boss));
        if died {
          return;
        }
      }
      TracksLength(enemies, ue, refs);
      ShapeOfTracked(enemies, es0, ue, refs);
    }

    /** The bullet part of the collision pass, with `p0` the copy of the
        player taken before the power-ups were picked up. A scan that ends
        normally writes back the player copy, the enemies and bullets left,
        and the score; a fatal hit ends the game and writes none of them. */
    method ResolveBullets(p0: Player, m: MathLib) returns (died: bool)
      requires Valid() && player.Some?
      requires 1 <= p0.health <= p0.maxHealth && Abs(p0.velocity.x) <= PlayerMaxSpeed
      modifies this`enemies, this`bullets, this`player, this`score, this`comboCount, this`comboTimer,
               this`comboMultiplier, this`enemiesKilled, this`explosions, this`particles, this`nextId,
               this`boss, this`bossActive, this`gameState
      ensures Valid()
      ensures ComboFollowsKills(old(enemiesKilled), old(comboTimer), old(comboCount), old(comboMultiplier))
      ensures died ==> gameState == GameOver && player == old(player) && bullets == old(bullets) && score == old(score)
      ensures died ==> SameShape(enemies, old(enemies))
      ensures !died ==> Survived(p0, old(bullets), old(enemies), old(score), old(enemiesKilled), old(gameState))
      ensures BossFollows(old(boss))
    {
      var ub, ue, up, gained;
      ub, ue, up, gained, died := ScanBullets(p0, m);
      if died {
        gameState := GameOver;
        return;
      }
      WriteBack(up, ue, ub, score + gained);
    }

    /** The batch update that ends a collision pass: the player copy, the
        enemies and bullets left, and the new score. */
    method WriteBack(p: Player, es: seq<Enemy>, bs: seq<Bullet>, newScore: int)
      modifies this`player, this`enemies, this`bullets, this`score
      ensures player == Some(p) && enemies == es && bullets == bs && score == newScore
    {
      player, enemies, bullets, score := Some(p), es, bs, newScore;
    }

    /** The collision pass: power-up pickups, then the bullet scan. The
        pickups are applied to the stored player, but a pass that ends
        normally writes back the copy taken before them, so their effects
        are lost; only a fatal hit keeps them, by not writing the player
        back at all. */
    method CheckCollisions(m: MathLib) returns (died: bool)
      requires Valid()
      modifies this`powerUps, this`enemies, this`bullets, this`player, this`score, this`comboCount,
               this`comboTimer, this`comboMultiplier, this`enemiesKilled, this`explosions, this`particles,
               this`nextId, this`boss, this`bossActive, this`gameState
      ensures Valid()
      ensures old(player).None? ==>
        !died && powerUps == old(powerUps) && enemies == old(enemies) && bullets == old(bullets)
        && player == old(player) && score == old(score) && enemiesKilled == old(enemiesKilled)
        && gameState == old(gameState) && boss == old(boss) && bossActive == old(bossActive)
      ensures old(player).Some? ==> powerUps == MarkTouched(old(player).value, old(powerUps))
      ensures BossFollows(old(boss))
      ensures enemiesKilled >= old(enemiesKilled) && score >= old(score) && |enemies| <= |old(enemies)|
      ensures forall b :: b in bullets ==> b in old(bullets)
      ensures old(player).Some? ==> player.Some?
      ensures old(player).Some? && !died ==>
        forall b :: b in bullets && b.owner != player.value.id ==> !CheckAABBCollision(BulletBox(b), PlayerBox(player.value))
      ensures ComboFollowsKills(old(enemiesKilled), old(comboTimer), old(comboCount), old(comboMultiplier))
      ensures died ==>
        && old(player).Some? && gameState == GameOver
        && player == Some(GatherPlayer(old(player).value, old(player).value, old(powerUps)))
        && bullets == old(bullets) && score == old(score)
        && SameShape(enemies, old(enemies))
      ensures !died && old(player).Some? ==>
        Survived(old(player).value, old(bullets), old(enemies), old(score), old(enemiesKilled), old(gameState))
    {
      if player.None? {
        died := false;
        return;
      }
      var p0 := player.value;
      CollectTouched(p0);
      MarkTouchedKeepsIds(p0, old(powerUps), nextId);
      died := ResolveBullets(p0, m);
    }

    /** The enemy spawner: the timer advances by 1/60; past 2.5 s, with fewer
        than six enemies, one enemy of a random archetype appears 12 units to
        a random side of the player and the timer restarts. */
    method SpawnEnemies(d: Draws, m: MathLib)
      requires Valid() && DrawsValid(d)
      modifies this`enemies, this`enemySpawnTimer, this`nextId
      ensures Valid()
      ensures old(player).None? ==> enemies == old(enemies) && enemySpawnTimer == old(enemySpawnTimer) && nextId == old(nextId)
      ensures old(player).Some? && old(enemySpawnTimer) + SpawnQuantum > EnemySpawnInterval && |old(enemies)| < MaxEnemies ==>
        enemies == old(enemies) + [NewEnemy(old(nextId), EnemyKindOf(d.enemyKind),
                                            player.value.position.x + SpawnOffset(d.enemySide),
                                            d.hoverPhase, d.hoverSpeed, m.pi)]
        && enemySpawnTimer == 0.0 && nextId == old(nextId) + 1
      ensures old(player).Some? && !(old(enemySpawnTimer) + SpawnQuantum > EnemySpawnInterval && |old(enemies)| < MaxEnemies) ==>
        enemies == old(enemies) && enemySpawnTimer == old(enemySpawnTimer) + SpawnQuantum && nextId == old(nextId)
    {
      if player.None? {
        return;
      }
      var newTimer := enemySpawnTimer + SpawnQuantum;
      if newTimer > EnemySpawnInterval && |enemies| < MaxEnemies {
        var spawnX := player.value.position.x + SpawnOffset(d.enemySide);
        var kind := EnemyKindOf(d.enemyKind);
        var id := GenerateId();
        enemies := enemies + [NewEnemy(id, kind, spawnX, d.hoverPhase, d.hoverSpeed, m.pi)];
        enemySpawnTimer := 0.0;
      } else {
        enemySpawnTimer := newTimer;
      }
    }

    /** The power-up spawner: the timer advances by 1/60; past 8 s, with
        fewer than three power-ups, one of a random kind appears within 8
        units of the player at height -0.5 and the timer restarts. */
    method SpawnPowerUp(d: Draws)
      requires Valid() && DrawsValid(d)
      modifies this`powerUps, this`powerUpSpawnTimer, this`nextId
      ensures Valid()
      ensures old(player).None? ==> powerUps == old(powerUps) && powerUpSpawnTimer == old(powerUpSpawnTimer) && nextId == old(nextId)
      ensures old(player).Some? && old(powerUpSpawnTimer) + SpawnQuantum > PowerUpSpawnInterval && |old(powerUps)| < MaxPowerUps ==>
        powerUps == old(powerUps) + [PowerUp(old(nextId),
                                             Position(player.value.position.x + (d.powerUpOffset * 16.0 - 8.0), -0.5),
                                             PowerUpKindOf(d.powerUpKind), false)]
        && powerUpSpawnTimer == 0.0 && nextId == old(nextId) + 1
      ensures old(player).Some? && !(old(powerUpSpawnTimer) + SpawnQuantum > PowerUpSpawnInterval && |old(powerUps)| < MaxPowerUps) ==>
        powerUps == old(powerUps) && powerUpSpawnTimer == old(powerUpSpawnTimer) + SpawnQuantum && nextId == old(nextId)
    {
      if player.None? {
        return;
      }
      var newTimer := powerUpSpawnTimer + SpawnQuantum;
      if newTimer > PowerUpSpawnInterval && |powerUps| < MaxPowerUps {
        var x := player.value.position.x + (d.powerUpOffset * 16.0 - 8.0);
        var kind := PowerUpKindOf(d.powerUpKind);
        var id := GenerateId();
        powerUps := powerUps + [PowerUp(id, Position(x, -0.5), kind, false)];
        powerUpSpawnTimer := 0.0;
      } else {
        powerUpSpawnTimer := newTimer;
      }
    }

    /** Switch the player's weapon. */
    method ChangeWeapon(w: Weapon)
      requires Valid()
      modifies this`player
      ensures Valid()
      ensures old(player).None? ==> player.None?
      ensures old(player).Some? ==> player == Some(old(player).value.(currentWeapon := w))
    {
      if player.Some? {
        player := Some(player.value.(currentWeapon := w));
      }
    }
  }

  /** What the store's invariant, kept by every action, guarantees: the
      multiplier is 1, 2 or 4 and above 1 only while the combo window is
      open; a stored player is alive and not above its maximum health;
      at most six enemies and three power-ups; and a boss flag that agrees
      with the boss record. */
  lemma ValidMeansInvariants(s: GameStore)
    requires s.Valid()
    ensures s.comboMultiplier in {1, 2, 4}
    ensures s.comboMultiplier > 1 ==> s.comboTimer > 0.0
    ensures s.player.Some? ==> 1 <= s.player.value.health <= s.player.value.maxHealth
    ensures |s.enemies| <= MaxEnemies && |s.powerUps| <= MaxPowerUps
    ensures s.bossActive <==> s.boss.Some?
  {
  }

  /** One enemy of the enemy loop, after the first k: its frame extends the
      frames of the first k, and its shots are numbered after theirs. */
  lemma EnemyLoopStep(es: seq<Enemy>, k: nat, player: Option<Player>, platforms: seq<Platform>, delta: real, m: MathLib,
                      done: seq<Enemy>, shots: seq<Shot>, e: Enemy, bs0: seq<Bullet>, bs1: seq<Bullet>, bs2: seq<Bullet>, first: Id)
    requires k < |es| && (done, shots) == StepEnemies(es[..k], player, platforms, delta, m)
    requires e == EnemyStep(es[k], player, platforms, delta, m).0
    requires bs1 == bs0 + Fire(shots, first)
    requires bs2 == bs1 + Fire(EnemyStep(es[k], player, platforms, delta, m).1, first + |shots|)
    ensures (done + [e], shots + EnemyStep(es[k], player, platforms, delta, m).1)
         == StepEnemies(es[..k + 1], player, platforms, delta, m)
    ensures bs2 == bs0 + Fire(shots + EnemyStep(es[k], player, platforms, delta, m).1, first)
  {
    StepEnemiesSnoc(es, k, player, platforms, delta, m);
    FireAppendTo(bs0, bs1, bs2, shots, EnemyStep(es[k], player, platforms, delta, m).1, first);
  }

  /** In a list with the ids of a list of distinct ids, the power-up at
      position k is the one found by its id. */
  lemma IndexOfSameIds(us: seq<PowerUp>, us0: seq<PowerUp>, k: nat)
    requires |us| == |us0| && k < |us| && UniqueIds(us0)
    requires forall i :: 0 <= i < |us0| ==> us[i].id == us0[i].id
    ensures IndexOf(us, us[k].id) == k
  {
    var r := IndexOf(us, us[k].id);
    assert 0 <= r <= k && us0[r].id == us0[k].id;
  }

  /** Marking one more power-up of the scan: the prefix grows by the marked
      (or untouched) power-up k. */
  lemma MarkStep(at: Player, us0: seq<PowerUp>, k: nat)
    requires k < |us0|
    ensures MarkTouched(at, us0[..k + 1]) + us0[k + 1..]
         == (MarkTouched(at, us0[..k]) + us0[k..])[k := if Touches(at, us0[k]) then us0[k].(collected := true) else us0[k]]
  {
  }

  /** Picking up one more power-up of the scan. */
  lemma GatherStep(live: Player, at: Player, us0: seq<PowerUp>, k: nat)
    requires k < |us0|
    ensures GatherPlayer(live, at, us0[..k + 1])
         == if Touches(at, us0[k]) then ApplyPowerUp(GatherPlayer(live, at, us0[..k]), us0[k].kind)
            else GatherPlayer(live, at, us0[..k])
  {
    assert us0[..k + 1][..k] == us0[..k];
  }

  /** One power-up of the pickup scan, with `us` the list after the first
      k: power-up k is still the original one, a touched one is found by its
      id at position k, and picking it up (or passing it by) gives the list
      and the player after the first k + 1. */
  lemma CollectStep(at: Player, us0: seq<PowerUp>, p0: Player, k: nat, us: seq<PowerUp>)
    requires k < |us0| && UniqueIds(us0)
    requires us == MarkTouched(at, us0[..k]) + us0[k..]
    ensures |us| == |us0| && us[k] == us0[k]
    ensures Touches(at, us[k]) ==> IndexOf(us, us[k].id) == k
    ensures MarkTouched(at, us0[..k + 1]) + us0[k + 1..]
         == if Touches(at, us[k]) then us[k := us[k].(collected := true)] else us
    ensures GatherPlayer(p0, at, us0[..k + 1])
         == if Touches(at, us[k]) then ApplyPowerUp(GatherPlayer(p0, at, us0[..k]), us[k].kind)
            else GatherPlayer(p0, at, us0[..k])
  {
    assert us[k] == us0[k];
    forall i | 0 <= i < |us0|
      ensures us[i].id == us0[i].id
    {
      if i < k {
        assert us[i] == MarkTouched(at, us0[..k])[i];
      }
    }
    IndexOfSameIds(us, us0, k);
    MarkStep(at, us0, k);
    GatherStep(p0, at, us0, k);
  }

  /** Marking power-ups collected keeps their ids. */
  lemma MarkTouchedKeepsIds(at: Player, us: seq<PowerUp>, n: nat)
    requires UniqueIds(us) && forall u :: u in us ==> u.id < n
    ensures UniqueIds(MarkTouched(at, us)) && |MarkTouched(at, us)| == |us|
    ensures forall u :: u in MarkTouched(at, us) ==> u.id < n
  {
    var r := MarkTouched(at, us);
    forall u | u in r
      ensures u.id < n
    {
      var k :| 0 <= k < |r| && r[k] == u;
      assert us[k] in us;
    }
  }

  /** The working list of the collision pass is never longer than the
      store's list. */
  lemma TracksLength(store: seq<Enemy>, ue: seq<Enemy>, refs: seq<nat>)
    requires Tracks(store, ue, refs)
    ensures |ue| <= |store|
  {
    if |refs| > 0 {
      RefsGrow(refs, |refs| - 1);
    }
  }

  lemma {:induction false} RefsGrow(refs: seq<nat>, i: nat)
    requires i < |refs| && forall k1, k2 :: 0 <= k1 < k2 < |refs| ==> refs[k1] < refs[k2]
    ensures refs[i] >= i
  {
    if i > 0 {
      RefsGrow(refs, i - 1);
    }
  }

  /** A filter that removes nothing returns its input. */
  lemma {:induction false} UncollectedSameLength(us: seq<PowerUp>)
    requires |Uncollected(us)| == |us|
    ensures Uncollected(us) == us
  {
    if us != [] {
      assert |Uncollected(us[1..])| <= |us[1..]|;
      UncollectedSameLength(us[1..]);
    }
  }

  /** After a strike, the store's list still differs from the original in
      health values only. */
  lemma StrikeKeepsShape(store: seq<Enemy>, before: seq<Enemy>, es0: seq<Enemy>, refs: seq<nat>,
                         ue: seq<Enemy>, j: nat, damage: int)
    requires j < |ue| && Tracks(before, ue, refs) && SameShape(before, es0)
    requires store == before[refs[j] := ue[j].(health := ue[j].health - damage)]
    ensures SameShape(store, es0)
  {
  }

  /** Bullets clear of every enemy stay clear when one enemy loses health
      or leaves the list. */
  lemma ClearedAfterStrike(bs: seq<Bullet>, ue: seq<Enemy>, ue': seq<Enemy>, j: nat, damage: int, p: Player)
    requires j < |ue| && Cleared(bs, ue, p)
    requires ue' == ue[..j] + ue[j + 1..] || ue' == ue[j := ue[j].(health := ue[j].health - damage)]
    ensures Cleared(bs, ue', p)
  {
    forall e | e in ue'
      ensures e in ue || e == ue[j].(health := ue[j].health - damage)
    {
      if ue' == ue[..j] + ue[j + 1..] {
        assert e in ue[..j] || e in ue[j + 1..];
      } else {
        var k :| 0 <= k < |ue'| && ue'[k] == e;
        if k != j {
          assert ue[k] == e;
        }
      }
    }
    assert EnemyBox(ue[j].(health := ue[j].health - damage)) == EnemyBox(ue[j]);
  }

  /** Every enemy of the working list is an original enemy, health aside. */
  lemma ShapeOfTracked(store: seq<Enemy>, es0: seq<Enemy>, ue: seq<Enemy>, refs: seq<nat>)
    requires Tracks(store, ue, refs) && SameShape(store, es0)
    ensures forall e :: e in ue ==> exists r :: 0 <= r < |es0| && e == es0[r].(health := e.health)
    ensures forall e :: e in ue ==> e in store
  {
    forall e | e in ue
      ensures exists r :: 0 <= r < |es0| && e == es0[r].(health := e.health)
      ensures e in store
    {
      var k :| 0 <= k < |ue| && ue[k] == e;
      assert store[refs[k]] == e;
    }
  }
}
