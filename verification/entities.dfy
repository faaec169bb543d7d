/**
 * The records of the game world: the player, enemies, bullets, power-ups,
 * platforms and visual effects, the session state, the input record, and
 * the tunable constants. Positions and velocities are exact reals. An id
 * `entity_N` is represented by its counter value N.
 */
module Entities {

  datatype Option<T> = None | Some(value: T)

  /** A point or a velocity. */
  datatype Position = Position(x: real, y: real)

  type Id = nat

  /** Weapon tags carried by the player and by bullets. `Spread` is the tag
      the boss fires with: it is not one of the player's weapons. */
  datatype Weapon = Basic | MachineGun | SpreadGun | Laser | Spread

  datatype Player = Player(
    id: Id,
    position: Position,
    velocity: Position,
    health: int,
    maxHealth: int,
    currentWeapon: Weapon,
    facingRight: bool,
    isJumping: bool,
    onGround: bool,
    shootCooldown: real,
    hasShield: bool,
    shieldDuration: real)

  datatype EnemyKind = Soldier | Flying | Turret | Runner | Boss

  /** The AI state labels the enemies use. */
  datatype AiState = Patrol | Attack | Hover | Shoot | Charge

  /** An enemy. The four optional fields exist only for some archetypes
      (hover phase and speed for flying enemies, grounded flag and jump
      cooldown for the boss); `None` is an absent field. */
  datatype Enemy = Enemy(
    id: Id,
    position: Position,
    velocity: Position,
    health: int,
    maxHealth: int,
    kind: EnemyKind,
    facingRight: bool,
    aiState: AiState,
    shootCooldown: real,
    patrolStart: real,
    patrolEnd: real,
    hoverOffset: Option<real>,
    hoverSpeed: Option<real>,
    grounded: Option<bool>,
    jumpCooldown: Option<real>)

  datatype Bullet = Bullet(id: Id, position: Position, velocity: Position, weapon: Weapon, owner: Id, damage: int)

  datatype PowerUpKind = WeaponMachineGun | WeaponSpreadGun | WeaponLaser | ExtraLife | Shield

  datatype PowerUp = PowerUp(id: Id, position: Position, kind: PowerUpKind, collected: bool)

  /** The surface only selects a texture. */
  datatype Surface = Grass | Asphalt

  /** A platform, centred on (x, y). */
  datatype Platform = Platform(x: real, y: real, width: real, height: real, surface: Surface)

  datatype Explosion = Explosion(id: Id, position: Position, size: real, lifetime: real)

  datatype Particle = Particle(id: Id, position: Position, velocity: Position, lifetime: real)

  datatype Session = Menu | Playing | GameOver | LevelComplete | Victory

  /** One frame's input intents. */
  datatype Input = Input(
    left: bool, right: bool, up: bool, down: bool, jump: bool,
    shoot: bool, weapon1: bool, weapon2: bool, weapon3: bool)

  /** The transcendental functions the game calls, taken as given: sine,
      cosine, pi, and the unit vector of an aim (dx, dy) (dx and dy divided by
      the square root of dx * dx + dy * dy). Nothing is assumed about them. */
  datatype MathLib = MathLib(sin: real -> real, cos: real -> real, pi: real, unit: (real, real) -> Position)

  /** Draws of a uniform random number generator, one per call site; each in
      [0, 1). */
  datatype Draws = Draws(
    enemySide: real, enemyKind: real, hoverPhase: real, hoverSpeed: real,
    powerUpOffset: real, powerUpKind: real)

  ghost predicate DrawsValid(d: Draws)
  {
    && 0.0 <= d.enemySide < 1.0 && 0.0 <= d.enemyKind < 1.0
    && 0.0 <= d.hoverPhase < 1.0 && 0.0 <= d.hoverSpeed < 1.0
    && 0.0 <= d.powerUpOffset < 1.0 && 0.0 <= d.powerUpKind < 1.0
  }

  const Gravity: real := 25.0
  const PlayerAcceleration: real := 20.0
  const PlayerMaxSpeed: real := 5.0
  const JumpForce: real := 8.0
  const EnemySpeed: real := 2.0

  /** The spawn timers advance by one sixtieth of a second per call. */
  const SpawnQuantum: real := 1.0 / 60.0
  const EnemySpawnInterval: real := 2.5
  const MaxEnemies: nat := 6
  const PowerUpSpawnInterval: real := 8.0
  const MaxPowerUps: nat := 3

  const ComboWindow: real := 2.0
  const KillScore: int := 100

  function Abs(r: real): real
  {
    if r < 0.0 then -r else r
  }
}
