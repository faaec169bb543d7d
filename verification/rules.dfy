/**
 * The value-level rules of the game store: level layouts, the landing-only
 * platform scan, bullet records and their movement, the per-archetype enemy
 * AI, effect lifetimes, power-up effects, the combo rule, and the records the
 * spawners and the boss trigger create. The store (module Store) applies
 * these to its state.
 */
module Rules {
  import opened Entities
  import opened Collision

  // ---------------------------------------------------------------------
  // Level layouts
  // ---------------------------------------------------------------------

  /** The platforms of a level: three hand-made layouts, and the boss arena
      for every other level number. Each starts with the ground slab, the
      lowest and widest platform. */
  function LevelLayout(level: int): seq<Platform>
  {
    match level
    case 1 => [
      Platform(0.0, -3.0, 20.0, 1.0, Grass),
      Platform(-8.0, -1.0, 6.0, 0.5, Asphalt),
      Platform(8.0, 0.0, 6.0, 0.5, Asphalt),
      Platform(0.0, 2.0, 10.0, 0.5, Grass)]
    case 2 => [
      Platform(0.0, -3.0, 25.0, 1.0, Asphalt),
      Platform(-10.0, -1.0, 5.0, 0.5, Asphalt),
      Platform(10.0, -1.0, 5.0, 0.5, Asphalt),
      Platform(-5.0, 1.0, 8.0, 0.5, Asphalt),
      Platform(5.0, 1.0, 8.0, 0.5, Asphalt),
      Platform(0.0, 3.0, 12.0, 0.5, Grass)]
    case 3 => [
      Platform(0.0, -3.0, 30.0, 1.0, Grass),
      Platform(-12.0, -1.5, 4.0, 0.5, Asphalt),
      Platform(-6.0, -0.5, 4.0, 0.5, Asphalt),
      Platform(0.0, 0.5, 6.0, 0.5, Asphalt),
      Platform(6.0, -0.5, 4.0, 0.5, Asphalt),
      Platform(12.0, -1.5, 4.0, 0.5, Asphalt),
      Platform(0.0, 2.5, 15.0, 0.5, Grass)]
    case _ => [
      Platform(0.0, -3.0, 35.0, 1.0, Asphalt),
      Platform(-10.0, 0.0, 8.0, 0.5, Asphalt),
      Platform(10.0, 0.0, 8.0, 0.5, Asphalt),
      Platform(0.0, 2.0, 20.0, 0.5, Asphalt)]
  }

  /** Every layout has at least four platforms of positive size, and starts
      with the ground slab: centred on x = 0, top face at y = -2.5, and the
      lowest and widest platform of the level. */
  lemma LayoutShape(level: int)
    ensures |LevelLayout(level)| >= 4
    ensures forall p :: p in LevelLayout(level) ==> p.width > 0.0 && p.height > 0.0
    ensures LevelLayout(level)[0].x == 0.0 && Top(LevelLayout(level)[0]) == -2.5
    ensures forall p :: p in LevelLayout(level) ==> LevelLayout(level)[0].y <= p.y && p.width <= LevelLayout(level)[0].width
  {
  }

  /** Every level after the third uses the boss arena. */
  lemma LaterLevelsShareArena(level: int)
    requires level > 3
    ensures LevelLayout(level) == LevelLayout(4)
  {
  }

  // ---------------------------------------------------------------------
  // Landing-only platform collision
  // ---------------------------------------------------------------------

  /** Half extents of a hit box. */
  datatype Half = Half(w: real, h: real)

  const PlayerHalf: Half := Half(0.3, 0.6)
  const EnemyHalf: Half := Half(0.25, 0.4)

  /** What the platform scan reads and writes of an actor. */
  datatype Body = Body(position: Position, velocity: Position, landed: bool)

  function BodyBox(pos: Position, half: Half): AABB
  {
    AABB(pos.x - half.w, pos.y - half.h, 2.0 * half.w, 2.0 * half.h)
  }

  function PlatformBox(p: Platform): AABB
  {
    AABB(p.x - p.width / 2.0, p.y - p.height / 2.0, p.width, p.height)
  }

  /** The height of a platform's upper face. */
  function Top(p: Platform): real
  {
    p.y + p.height / 2.0
  }

  /** One platform of the scan: an actor overlapping it while not moving up
      is put to rest on its upper face. */
  function LandOn(b: Body, p: Platform, half: Half): Body
  {
    if CheckAABBCollision(BodyBox(b.position, half), PlatformBox(p)) && b.velocity.y <= 0.0
    then Body(Position(b.position.x, Top(p) + half.h), Position(b.velocity.x, 0.0), true)
    else b
  }

  /** The scan over all platforms, in order. */
  function LandAll(b: Body, ps: seq<Platform>, half: Half): Body
    decreases |ps|
  {
    if ps == [] then b else LandOn(LandAll(b, ps[..|ps| - 1], half), ps[|ps| - 1], half)
  }

  /** The scan never touches horizontal motion; when it lands the actor, the
      actor has stopped falling and rests on the upper face of one of the
      platforms; when it does not, nothing changed. */
  lemma {:induction false} LandedRestsOnPlatform(b: Body, ps: seq<Platform>, half: Half)
    requires !b.landed
    ensures LandAll(b, ps, half).position.x == b.position.x
    ensures LandAll(b, ps, half).velocity.x == b.velocity.x
    ensures LandAll(b, ps, half).landed ==>
      LandAll(b, ps, half).velocity.y == 0.0 &&
      exists k :: 0 <= k < |ps| && LandAll(b, ps, half).position.y == Top(ps[k]) + half.h
    ensures !LandAll(b, ps, half).landed ==> LandAll(b, ps, half) == b
  {
    if ps != [] {
      var init := ps[..|ps| - 1];
      LandedRestsOnPlatform(b, init, half);
      var before := LandAll(b, init, half);
      if before.landed {
        var k :| 0 <= k < |init| && before.position.y == Top(init[k]) + half.h;
        assert init[k] == ps[k];
      }
      if CheckAABBCollision(BodyBox(before.position, half), PlatformBox(ps[|ps| - 1])) && before.velocity.y <= 0.0 {
        assert LandAll(b, ps, half).position.y == Top(ps[|ps| - 1]) + half.h;
      }
    }
  }

  /** Collision is landing-only: an actor moving up passes through. */
  lemma {:induction false} RisingNeverLands(b: Body, ps: seq<Platform>, half: Half)
    requires b.velocity.y > 0.0
    ensures LandAll(b, ps, half) == b
  {
    if ps != [] {
      RisingNeverLands(b, ps[..|ps| - 1], half);
    }
  }

  /** The scan splits at any platform: the rest of the scan continues from
      where the first part left the actor. */
  lemma {:induction false} LandAllSplit(b: Body, ps: seq<Platform>, k: nat, half: Half)
    requires k <= |ps|
    ensures LandAll(b, ps, half) == LandAll(LandAll(b, ps[..k], half), ps[k..], half)
    decreases |ps|
  {
    if k == |ps| {
      assert ps[..k] == ps;
      assert ps[k..] == [];
    } else {
      var init := ps[..|ps| - 1];
      LandAllSplit(b, init, k, half);
      assert init[..k] == ps[..k];
      assert ps[k..][..|ps[k..]| - 1] == init[k..];
      assert ps[k..][|ps[k..]| - 1] == ps[|ps| - 1];
    }
  }

  /** A landed, resting actor stays landed and resting for the rest of the
      scan, either where it was or on the upper face of one of the
      platforms scanned. */
  lemma {:induction false} LandingIsKept(b: Body, ps: seq<Platform>, half: Half)
    requires b.landed && b.velocity.y == 0.0
    ensures LandAll(b, ps, half).landed && LandAll(b, ps, half).velocity.y == 0.0
    ensures LandAll(b, ps, half).position.y == b.position.y
         || exists k :: 0 <= k < |ps| && LandAll(b, ps, half).position.y == Top(ps[k]) + half.h
  {
    if ps != [] {
      var init := ps[..|ps| - 1];
      LandingIsKept(b, init, half);
      var before := LandAll(b, init, half);
      if before.position.y != b.position.y {
        var k :| 0 <= k < |init| && before.position.y == Top(init[k]) + half.h;
        assert init[k] == ps[k];
      }
    }
  }

  /** If, when the scan reaches platform k, the actor's box overlaps it and the
      actor is not moving up, the scan ends with the actor landed and at
      rest, and with its feet on the upper face of platform k or of a later
      platform. */
  lemma DescentOntoPlatformLands(b: Body, ps: seq<Platform>, k: nat, half: Half)
    requires !b.landed && k < |ps|
    requires CheckAABBCollision(BodyBox(LandAll(b, ps[..k], half).position, half), PlatformBox(ps[k]))
    requires LandAll(b, ps[..k], half).velocity.y <= 0.0
    ensures LandAll(b, ps, half).landed && LandAll(b, ps, half).velocity.y == 0.0
    ensures exists k' :: k <= k' < |ps| && LandAll(b, ps, half).position.y == Top(ps[k']) + half.h
  {
    var upTo := LandAll(b, ps[..k + 1], half);
    assert ps[..k + 1][..k] == ps[..k];
    assert upTo.landed && upTo.velocity.y == 0.0 && upTo.position.y == Top(ps[k]) + half.h;
    LandAllSplit(b, ps, k + 1, half);
    var rest := ps[k + 1..];
    LandingIsKept(upTo, rest, half);
    if LandAll(upTo, rest, half).position.y != upTo.position.y {
      var k'' :| 0 <= k'' < |rest| && LandAll(upTo, rest, half).position.y == Top(rest[k'']) + half.h;
      assert rest[k''] == ps[k + 1 + k''];
    }
  }

  // ---------------------------------------------------------------------
  // Player physics and input
  // ---------------------------------------------------------------------

  /** A positive cooldown counts down by the frame time; zero or negative
      cooldowns are left alone (there is no clamp at zero). */
  function CoolDown(cooldown: real, delta: real): real
  {
    if cooldown > 0.0 then cooldown - delta else cooldown
  }

  /** A running shield loses the frame time; once its duration is used up
      it is switched off with duration 0. */
  function ShieldTick(hasShield: bool, duration: real, delta: real): (r: (bool, real))
    ensures r.1 >= 0.0 || r == (hasShield, duration)
    ensures r.0 ==> hasShield
  {
    if hasShield && duration > 0.0 then
      if duration - delta <= 0.0 then (false, 0.0) else (true, duration - delta)
    else (hasShield, duration)
  }

  /** One frame of gravity on a velocity. */
  function Fall(v: Position, delta: real): Position
  {
    v.(y := v.y - Gravity * delta)
  }

  /** One frame of motion at constant velocity. */
  function Integrate(position: Position, v: Position, delta: real): Position
  {
    Position(position.x + v.x * delta, position.y + v.y * delta)
  }

  /** The player before the landing scan: gravity unless standing, then one
      step of motion; the scan starts with the standing flag cleared. */
  function PlayerFall(p: Player, delta: real): Body
  {
    var v := if !p.onGround then Fall(p.velocity, delta) else p.velocity;
    Body(Integrate(p.position, v, delta), v, false)
  }

  /** Gravity (unless standing), integration, the landing scan, friction,
      the cooldown and the shield for one frame. */
  function PlayerPhysics(p: Player, platforms: seq<Platform>, delta: real): Player
  {
    var b := LandAll(PlayerFall(p, delta), platforms, PlayerHalf);
    var shield := ShieldTick(p.hasShield, p.shieldDuration, delta);
    p.(position := b.position,
       velocity := Position(b.velocity.x * 0.85, b.velocity.y),
       onGround := b.landed,
       isJumping := if b.landed then false else p.isJumping,
       shootCooldown := CoolDown(p.shootCooldown, delta),
       hasShield := shield.0,
       shieldDuration := shield.1)
  }

  /** The player's frame: standing means having landed on a platform this
      frame, at rest on its upper face, no longer jumping; the horizontal
      speed loses 15%; health and identity are untouched; a shield that runs
      out is switched off with duration 0; a running cooldown loses the frame
      time, with no clamp at zero, and a spent one is left alone. */
  lemma PlayerPhysicsFacts(p: Player, platforms: seq<Platform>, delta: real)
    ensures var q := PlayerPhysics(p, platforms, delta);
      && q.id == p.id && q.health == p.health && q.maxHealth == p.maxHealth
      && q.currentWeapon == p.currentWeapon && q.facingRight == p.facingRight
      && q.velocity.x == p.velocity.x * 0.85
      && (q.onGround ==>
            (!q.isJumping && q.velocity.y == 0.0 &&
             exists k :: 0 <= k < |platforms| && q.position.y == Top(platforms[k]) + 0.6))
      && (p.hasShield && p.shieldDuration > 0.0 && p.shieldDuration - delta <= 0.0 ==>
            (!q.hasShield && q.shieldDuration == 0.0))
      && (p.shootCooldown > 0.0 ==> q.shootCooldown == p.shootCooldown - delta)
      && (p.shootCooldown <= 0.0 ==> q.shootCooldown == p.shootCooldown)
  {
    LandedRestsOnPlatform(PlayerFall(p, delta), platforms, PlayerHalf);
  }

  /** Overlapping platform k, when the scan reaches it, while not moving up makes
      the player stand at the end of the frame. */
  lemma PlayerLandsOnOverlap(p: Player, platforms: seq<Platform>, delta: real, k: nat)
    requires k < |platforms|
    requires CheckAABBCollision(BodyBox(LandAll(PlayerFall(p, delta), platforms[..k], PlayerHalf).position, PlayerHalf),
                                PlatformBox(platforms[k]))
    requires LandAll(PlayerFall(p, delta), platforms[..k], PlayerHalf).velocity.y <= 0.0
    ensures PlayerPhysics(p, platforms, delta).onGround
    ensures !PlayerPhysics(p, platforms, delta).isJumping
    ensures PlayerPhysics(p, platforms, delta).velocity.y == 0.0
  {
    DescentOntoPlatformLands(PlayerFall(p, delta), platforms, k, PlayerHalf);
  }

  /** Friction keeps the horizontal speed within the top speed. */
  lemma PhysicsKeepsSpeedBound(p: Player, platforms: seq<Platform>, delta: real)
    requires Abs(p.velocity.x) <= PlayerMaxSpeed
    ensures Abs(PlayerPhysics(p, platforms, delta).velocity.x) <= PlayerMaxSpeed
  {
    PlayerPhysicsFacts(p, platforms, delta);
  }

  /** The time between two shots of a weapon. */
  function WeaponCooldown(w: Weapon): (c: real)
    ensures 0.1 <= c <= 0.5
  {
    if w == MachineGun then 0.1 else if w == SpreadGun then 0.3 else if w == Laser then 0.5 else 0.2
  }

  /** What one press of the trigger fires: a three-bullet fan for the spread
      gun, otherwise one straight bullet, from just in front of the player. */
  function PlayerShots(p: Player, m: MathLib): (s: seq<Shot>)
    ensures |s| == (if p.currentWeapon == SpreadGun then 3 else 1)
    ensures forall k :: 0 <= k < |s| ==> s[k].owner == p.id && s[k].weapon == p.currentWeapon
  {
    var muzzle := Position(p.position.x + (if p.facingRight then 0.4 else -0.4), p.position.y + 0.1);
    if p.currentWeapon == SpreadGun then
      [Shot(muzzle, Position(Sign(p.facingRight) * m.cos(-0.3), m.sin(-0.3)), SpreadGun, p.id),
       Shot(muzzle, Position(Sign(p.facingRight) * m.cos(0.0), m.sin(0.0)), SpreadGun, p.id),
       Shot(muzzle, Position(Sign(p.facingRight) * m.cos(0.3), m.sin(0.3)), SpreadGun, p.id)]
    else
      [Shot(muzzle, Position(Sign(p.facingRight), 0.0), p.currentWeapon, p.id)]
  }

  /** The movement and jump keys of one frame: left, then right (so right
      wins), each pushing the speed by the acceleration up to the top speed
      and turning the player; then the jump, which needs standing and not
      already jumping. */
  function Steer(p: Player, input: Input): Player
  {
    var p1 := if input.left then
        p.(velocity := p.velocity.(x := Max(p.velocity.x - PlayerAcceleration, -PlayerMaxSpeed)), facingRight := false)
      else p;
    var p2 := if input.right then
        p1.(velocity := p1.velocity.(x := Min(p1.velocity.x + PlayerAcceleration, PlayerMaxSpeed)), facingRight := true)
      else p1;
    if input.jump && p2.onGround && !p2.isJumping then
      p2.(velocity := p2.velocity.(y := JumpForce), isJumping := true, onGround := false)
    else p2
  }

  /** A shot needs the trigger and a spent cooldown. */
  predicate Triggers(p: Player, input: Input)
  {
    input.shoot && p.shootCooldown <= 0.0
  }

  /** The weapon keys, applied in order, so the last pressed key wins. */
  function SelectWeapon(w: Weapon, input: Input): Weapon
  {
    if input.weapon3 then SpreadGun else if input.weapon2 then MachineGun else if input.weapon1 then Basic else w
  }

  /** The player after one frame of input: steering, the re-armed cooldown
      of a shot, and the weapon keys. */
  function ApplyInput(p: Player, input: Input): Player
  {
    var q := Steer(p, input);
    var r := if Triggers(p, input) then q.(shootCooldown := WeaponCooldown(q.currentWeapon)) else q;
    r.(currentWeapon := SelectWeapon(r.currentWeapon, input))
  }

  /** The shots of one frame of input, fired after steering, so in the
      direction the player now faces. */
  function InputShots(p: Player, input: Input, m: MathLib): seq<Shot>
  {
    if Triggers(p, input) then PlayerShots(Steer(p, input), m) else []
  }

  /** One frame of input, for a player within the top speed: a movement key
      sets the top speed in its direction at once (the acceleration exceeds
      the top speed) and right wins over left; a jump from standing sets the
      jump speed and leaves the ground; a shot re-arms the cooldown of the
      weapon held when firing and fires one or three bullets owned by the
      player; position, health and shield are untouched; and the speed
      stays within the top speed. */
  lemma InputFacts(p: Player, input: Input, m: MathLib)
    requires Abs(p.velocity.x) <= PlayerMaxSpeed
    ensures var q := ApplyInput(p, input);
      && q.id == p.id && q.position == p.position && q.health == p.health && q.maxHealth == p.maxHealth
      && q.hasShield == p.hasShield && q.shieldDuration == p.shieldDuration
      && Abs(q.velocity.x) <= PlayerMaxSpeed
      && (input.right ==> q.velocity.x == PlayerMaxSpeed && q.facingRight)
      && (input.left && !input.right ==> q.velocity.x == -PlayerMaxSpeed && !q.facingRight)
      && (!input.left && !input.right ==> q.velocity.x == p.velocity.x && q.facingRight == p.facingRight)
      && (input.jump && p.onGround && !p.isJumping ==> q.velocity.y == JumpForce && q.isJumping && !q.onGround)
      && (!(input.jump && p.onGround && !p.isJumping) ==>
            q.velocity.y == p.velocity.y && q.isJumping == p.isJumping && q.onGround == p.onGround)
      && (Triggers(p, input) ==> q.shootCooldown == WeaponCooldown(p.currentWeapon))
      && (!Triggers(p, input) ==> q.shootCooldown == p.shootCooldown)
      && q.currentWeapon == SelectWeapon(p.currentWeapon, input)
    ensures |InputShots(p, input, m)| == (if !Triggers(p, input) then 0 else if p.currentWeapon == SpreadGun then 3 else 1)
    ensures forall s :: s in InputShots(p, input, m) ==> s.owner == p.id && s.weapon == p.currentWeapon
  {
  }

  /** The first power-up with the given id, or -1. */
  function IndexOf(us: seq<PowerUp>, id: Id): (k: int)
    ensures -1 <= k < |us|
    ensures k >= 0 ==> us[k].id == id && forall k' :: 0 <= k' < k ==> us[k'].id != id
    ensures k < 0 ==> forall k' :: 0 <= k' < |us| ==> us[k'].id != id
  {
    if us == [] then -1
    else if us[0].id == id then 0
    else
      var k := IndexOf(us[1..], id);
      if k < 0 then -1 else k + 1
  }

  // ---------------------------------------------------------------------
  // Bullets
  // ---------------------------------------------------------------------

  /** A request to create a bullet: where, which way, with which weapon tag,
      fired by whom. */
  datatype Shot = Shot(position: Position, direction: Position, weapon: Weapon, owner: Id)

  function BulletSpeed(w: Weapon): (s: real)
    ensures 10.0 <= s <= 15.0
  {
    if w == Laser then 15.0 else if w == MachineGun then 12.0 else 10.0
  }

  function BulletDamage(w: Weapon): (d: int)
    ensures 1 <= d <= 3
  {
    if w == Laser then 3 else if w == SpreadGun then 2 else 1
  }

  /** The bullet record a shot becomes. */
  function MakeBullet(s: Shot, id: Id): Bullet
  {
    Bullet(id, s.position,
           Position(s.direction.x * BulletSpeed(s.weapon), s.direction.y * BulletSpeed(s.weapon)),
           s.weapon, s.owner, BulletDamage(s.weapon))
  }

  /** The bullets of a sequence of shots, numbered from `first`. */
  function Fire(shots: seq<Shot>, first: Id): (bs: seq<Bullet>)
    ensures |bs| == |shots|
  {
    seq(|shots|, i requires 0 <= i < |shots| => MakeBullet(shots[i], first + i))
  }

  /** Firing two batches in a row numbers the second batch after the
      first. */
  lemma FireAppend(a: seq<Shot>, b: seq<Shot>, first: Id)
    ensures Fire(a + b, first) == Fire(a, first) + Fire(b, first + |a|)
  {
    var l, r := Fire(a + b, first), Fire(a, first) + Fire(b, first + |a|);
    assert |l| == |r|;
    forall i | 0 <= i < |l|
      ensures l[i] == r[i]
    {
      if i < |a| {
        assert (a + b)[i] == a[i];
      } else {
        assert (a + b)[i] == b[i - |a|];
      }
    }
  }

  /** The same, for two batches appended to a bullet list one after the
      other. */
  lemma FireAppendTo(bs0: seq<Bullet>, bs1: seq<Bullet>, bs2: seq<Bullet>, a: seq<Shot>, b: seq<Shot>, first: Id)
    requires bs1 == bs0 + Fire(a, first) && bs2 == bs1 + Fire(b, first + |a|)
    ensures bs2 == bs0 + Fire(a + b, first)
  {
    FireAppend(a, b, first);
  }

  /** Every bullet of a batch does damage. */
  lemma FireDamage(shots: seq<Shot>, first: Id)
    ensures forall b :: b in Fire(shots, first) ==> b.damage >= 1
  {
    forall b | b in Fire(shots, first)
      ensures b.damage >= 1
    {
      var i :| 0 <= i < |shots| && Fire(shots, first)[i] == b;
      assert b == MakeBullet(shots[i], first + i);
    }
  }

  /** Bullet i of a batch carries id `first + i` and the owner of shot i. */
  lemma FireNumbering(shots: seq<Shot>, first: Id)
    ensures forall i :: 0 <= i < |shots| ==> Fire(shots, first)[i].id == first + i
    ensures forall i :: 0 <= i < |shots| ==> Fire(shots, first)[i].owner == shots[i].owner
  {
  }

  /** The boss fires the tag `Spread`, which is not the spread gun: its
      bullets deal 1 damage at speed 10, like the basic gun's. */
  lemma BossBulletsAreWeak(s: Shot, id: Id)
    requires s.weapon == Spread
    ensures MakeBullet(s, id).damage == 1
    ensures MakeBullet(s, id).velocity == Position(s.direction.x * 10.0, s.direction.y * 10.0)
  {
  }

  function MoveBullet(b: Bullet, delta: real): Bullet
  {
    b.(position := Position(b.position.x + b.velocity.x * delta, b.position.y + b.velocity.y * delta))
  }

  /** The open box bullets live in. */
  predicate InWorld(p: Position)
  {
    -50.0 < p.x < 100.0 && -10.0 < p.y < 10.0
  }

  /** Move every bullet, then drop those outside the world box: what is left
      is inside it, every moved bullet inside it is kept, and nothing else. */
  function StepBullets(bs: seq<Bullet>, delta: real): (r: seq<Bullet>)
    ensures |r| <= |bs|
    ensures forall b :: b in r ==> InWorld(b.position)
    ensures forall b :: b in r ==> exists b0 :: b0 in bs && b == MoveBullet(b0, delta)
    ensures forall b0 :: b0 in bs && InWorld(MoveBullet(b0, delta).position) ==> MoveBullet(b0, delta) in r
  {
    if bs == [] then []
    else
      var m := MoveBullet(bs[0], delta);
      var rest := StepBullets(bs[1..], delta);
      assert forall b0 :: b0 in bs[1..] ==> b0 in bs;
      assert forall b0 :: b0 in bs ==> b0 == bs[0] || b0 in bs[1..];
      (if InWorld(m.position) then [m] else []) + rest
  }

  /** The cull keeps order and multiplicity: stepping a list is stepping
      its two parts one after the other. With `StepBulletsOne`, this fixes
      the result as the moved bullets inside the box, in their old order. */
  lemma {:induction false} StepBulletsAppend(a: seq<Bullet>, b: seq<Bullet>, delta: real)
    ensures StepBullets(a + b, delta) == StepBullets(a, delta) + StepBullets(b, delta)
  {
    if a == [] {
      assert a + b == b;
    } else {
      var m := MoveBullet(a[0], delta);
      var kept := if InWorld(m.position) then [m] else [];
      calc {
        StepBullets(a + b, delta);
      == { assert (a + b)[0] == a[0] && (a + b)[1..] == a[1..] + b; }
        kept + StepBullets(a[1..] + b, delta);
      == { StepBulletsAppend(a[1..], b, delta); }
        kept + (StepBullets(a[1..], delta) + StepBullets(b, delta));
      ==
        (kept + StepBullets(a[1..], delta)) + StepBullets(b, delta);
      }
    }
  }

  /** A single bullet is kept, moved, exactly when it ends inside the
      world box. */
  lemma StepBulletsOne(b: Bullet, delta: real)
    ensures StepBullets([b], delta) == (if InWorld(MoveBullet(b, delta).position) then [MoveBullet(b, delta)] else [])
  {
    assert [b][1..] == [];
  }

  // ---------------------------------------------------------------------
  // Visual effects: lifetime filters
  // ---------------------------------------------------------------------

  /** Age every explosion (it also grows) and drop the expired ones. */
  function StepExplosions(es: seq<Explosion>, delta: real): (r: seq<Explosion>)
    ensures |r| <= |es|
    ensures forall e :: e in r ==> e.lifetime > 0.0
    ensures forall e :: e in r ==> exists e0 :: e0 in es && e0.id == e.id
  {
    if es == [] then []
    else
      var e := es[0].(lifetime := es[0].lifetime - delta, size := es[0].size + delta * 2.0);
      (if e.lifetime > 0.0 then [e] else []) + StepExplosions(es[1..], delta)
  }

  /** Move, slow, pull down and age every particle; drop the expired ones. */
  function StepParticles(ps: seq<Particle>, delta: real): (r: seq<Particle>)
    ensures |r| <= |ps|
    ensures forall p :: p in r ==> p.lifetime > 0.0
    ensures forall p :: p in r ==> exists p0 :: p0 in ps && p0.id == p.id
  {
    if ps == [] then []
    else
      var p := ps[0];
      var q := Particle(p.id,
                        Position(p.position.x + p.velocity.x * delta, p.position.y + p.velocity.y * delta),
                        Position(p.velocity.x * 0.95, p.velocity.y - 8.0 * delta),
                        p.lifetime - delta);
      (if q.lifetime > 0.0 then [q] else []) + StepParticles(ps[1..], delta)
  }

  /** The explosion and the ring of eight particles a kill leaves, numbered
      from `first`. */
  function ExplosionAt(id: Id, at: Position): Explosion
  {
    Explosion(id, at, 1.5, 0.5)
  }

  function Burst(first: Id, at: Position, m: MathLib): (ps: seq<Particle>)
    ensures |ps| == 8
    ensures forall i :: 0 <= i < 8 ==> ps[i].id == first + i && ps[i].lifetime == 1.0
  {
    seq(8, i requires 0 <= i < 8 => Particle(first + i, at, RingVelocity(i, m, 3.0), 1.0))
  }

  /** The i-th of eight evenly spaced directions (i eighths of a full turn),
      at the given speed. */
  function RingVelocity(i: nat, m: MathLib, speed: real): Position
  {
    var angle := (i as real / 8.0) * m.pi * 2.0;
    Position(m.cos(angle) * speed, m.sin(angle) * speed)
  }

  // ---------------------------------------------------------------------
  // Power-ups
  // ---------------------------------------------------------------------

  /** The power-ups that are not collected, in order. */
  function Uncollected(ps: seq<PowerUp>): (r: seq<PowerUp>)
    ensures |r| <= |ps|
    ensures forall p :: p in r <==> p in ps && !p.collected
  {
    if ps == [] then []
    else (if ps[0].collected then [] else [ps[0]]) + Uncollected(ps[1..])
  }

  /** The effect of picking up a power-up: a weapon, one point of health
      (never above the maximum), or a ten-second shield. */
  function ApplyPowerUp(p: Player, kind: PowerUpKind): (q: Player)
    ensures q.id == p.id && q.position == p.position && q.velocity == p.velocity
    ensures q.maxHealth == p.maxHealth
    ensures p.health <= q.health
    ensures q.health != p.health ==> kind == ExtraLife && q.health == p.health + 1 <= p.maxHealth
    ensures kind == ExtraLife && p.health < p.maxHealth ==> q.health == p.health + 1
    ensures kind == Shield ==> q.hasShield && q.shieldDuration == 10.0
    ensures kind == WeaponMachineGun ==> q == p.(currentWeapon := MachineGun)
    ensures kind == WeaponSpreadGun ==> q == p.(currentWeapon := SpreadGun)
    ensures kind == WeaponLaser ==> q == p.(currentWeapon := Laser)
    ensures kind == ExtraLife ==> q == p.(health := q.health)
    ensures kind == Shield ==> q == p.(hasShield := true, shieldDuration := 10.0)
  {
    match kind
    case WeaponMachineGun => p.(currentWeapon := MachineGun)
    case WeaponSpreadGun => p.(currentWeapon := SpreadGun)
    case WeaponLaser => p.(currentWeapon := Laser)
    case ExtraLife =>
      if p.health < p.maxHealth
      then p.(health := if p.health + 1 <= p.maxHealth then p.health + 1 else p.maxHealth)
      else p
    case Shield => p.(hasShield := true, shieldDuration := 10.0)
  }

  function PlayerBox(p: Player): AABB
  {
    BodyBox(p.position, PlayerHalf)
  }

  function PowerUpBox(u: PowerUp): AABB
  {
    AABB(u.position.x - 0.25, u.position.y - 0.25, 0.5, 0.5)
  }

  function BulletBox(b: Bullet): AABB
  {
    AABB(b.position.x - 0.1, b.position.y - 0.1, 0.2, 0.2)
  }

  function EnemyBox(e: Enemy): AABB
  {
    BodyBox(e.position, EnemyHalf)
  }

  /** A power-up the player standing at `at` picks up. */
  predicate Touches(at: Player, u: PowerUp)
  {
    !u.collected && CheckAABBCollision(PlayerBox(at), PowerUpBox(u))
  }

  /** The player after picking up, in order, every touched power-up. */
  function GatherPlayer(live: Player, at: Player, us: seq<PowerUp>): (q: Player)
    ensures q.id == live.id && q.position == live.position && q.velocity == live.velocity
    ensures q.maxHealth == live.maxHealth && live.health <= q.health
    ensures live.health <= live.maxHealth ==> q.health <= q.maxHealth
  {
    if us == [] then live
    else
      var q := GatherPlayer(live, at, us[..|us| - 1]);
      if Touches(at, us[|us| - 1]) then ApplyPowerUp(q, us[|us| - 1].kind) else q
  }

  /** The power-ups with every touched one marked collected. */
  function MarkTouched(at: Player, us: seq<PowerUp>): (r: seq<PowerUp>)
    ensures |r| == |us|
    ensures forall k :: 0 <= k < |us| ==> r[k].id == us[k].id && r[k].kind == us[k].kind && r[k].position == us[k].position
    ensures forall k :: 0 <= k < |us| ==> r[k].collected == (us[k].collected || Touches(at, us[k]))
  {
    seq(|us|, k requires 0 <= k < |us| => if Touches(at, us[k]) then us[k].(collected := true) else us[k])
  }

  predicate UniqueIds(us: seq<PowerUp>)
  {
    forall i, j :: 0 <= i < j < |us| ==> us[i].id != us[j].id
  }

  /** Dropping collected power-ups keeps ids unique. */
  lemma {:induction false} UncollectedKeepsUniqueIds(us: seq<PowerUp>)
    requires UniqueIds(us)
    ensures UniqueIds(Uncollected(us))
  {
    if us != [] {
      UncollectedKeepsUniqueIds(us[1..]);
      var rest := Uncollected(us[1..]);
      forall u | u in rest
        ensures u.id != us[0].id
      {
        var j :| 0 <= j < |us[1..]| && us[1..][j] == u;
        assert us[j + 1] == u;
      }
    }
  }

  // ---------------------------------------------------------------------
  // Combo and progression
  // ---------------------------------------------------------------------

  datatype Combo = Combo(count: int, multiplier: int)

  function MultiplierFor(count: int): (m: int)
    ensures m in {1, 2, 4}
  {
    if count >= 5 then 4 else if count >= 3 then 2 else 1
  }

  /** The combo after a kill: a kill inside the combo window extends the
      streak, any other kill starts a new one. */
  function NextCombo(timer: real, count: int): (c: Combo)
    ensures c.multiplier in {1, 2, 4}
    ensures timer > 0.0 ==> c.count == count + 1
    ensures timer <= 0.0 ==> c == Combo(1, 1)
    ensures c.multiplier == 4 <==> c.count >= 5
    ensures c.multiplier == 2 <==> 3 <= c.count < 5
    ensures c.multiplier == MultiplierFor(c.count)
  {
    if timer > 0.0 then Combo(count + 1, MultiplierFor(count + 1)) else Combo(1, 1)
  }

  /** The combo after a streak of n kills, the first one outside the window
      and every later one inside it. */
  function Streak(n: nat): Combo
    requires n >= 1
  {
    if n == 1 then NextCombo(0.0, 0) else NextCombo(ComboWindow, Streak(n - 1).count)
  }

  /** The score a streak of n kills earns. */
  function StreakScore(n: nat): int
    requires n >= 1
  {
    if n == 1 then KillScore * Streak(1).multiplier
    else StreakScore(n - 1) + KillScore * Streak(n).multiplier
  }

  /** Along a streak the count is the number of kills, and from the fourth
      kill on a streak of n kills has earned 100 * (4n - 10) points: two
      kills at x1, two at x2, then x4. */
  lemma {:induction false} StreakRewards(n: nat)
    requires n >= 1
    ensures Streak(n).count == n
    ensures Streak(n).multiplier == MultiplierFor(n)
    ensures n >= 4 ==> StreakScore(n) == KillScore * (4 * n - 10)
  {
    if n > 1 {
      StreakRewards(n - 1);
      if n == 4 {
        StreakRewards(3);
        StreakRewards(2);
        StreakRewards(1);
      }
    }
  }

  /** The kills a level requires. */
  function KillsNeeded(level: int): int
  {
    10 + (level - 1) * 5
  }

  /** The player a new game starts with. */
  function NewPlayer(id: Id): (p: Player)
    ensures p.id == id && p.health == p.maxHealth == 3
    ensures p.velocity == Position(0.0, 0.0) && p.currentWeapon == Basic && !p.hasShield
  {
    Player(id, Position(0.0, -1.5), Position(0.0, 0.0), 3, 3, Basic, true, false, false, 0.0, false, 0.0)
  }

  /** The boss of a level: health and maximum health 20 + 5 * level. */
  function NewBoss(id: Id, level: int): (e: Enemy)
    ensures e.kind == Boss && e.id == id
    ensures e.health == e.maxHealth == 20 + 5 * level
    ensures e.grounded == Some(false)
  {
    Enemy(id, Position(10.0, 0.0), Position(0.0, 0.0), 20 + level * 5, 20 + level * 5, Boss,
          false, Patrol, 0.0, -10.0, 10.0, None, None, Some(false), Some(0.0))
  }

  // ---------------------------------------------------------------------
  // Spawning
  // ---------------------------------------------------------------------

  /** An enemy appears 12 units right or left of the player. */
  function SpawnOffset(draw: real): (dx: real)
    ensures dx == 12.0 || dx == -12.0
  {
    if draw > 0.5 then 12.0 else -12.0
  }

  /** The archetype drawn uniformly from soldier, flying, turret, runner. */
  function EnemyKindOf(draw: real): (k: EnemyKind)
    requires 0.0 <= draw < 1.0
    ensures k != Boss
  {
    var i := (draw * 4.0).Floor;
    if i == 1 then Flying else if i == 2 then Turret else if i == 3 then Runner else Soldier
  }

  /** Each archetype takes a quarter of the draws. */
  lemma EnemyKindQuarters(draw: real)
    requires 0.0 <= draw < 1.0
    ensures EnemyKindOf(draw) == Soldier <==> draw < 0.25
    ensures EnemyKindOf(draw) == Flying <==> 0.25 <= draw < 0.5
    ensures EnemyKindOf(draw) == Turret <==> 0.5 <= draw < 0.75
    ensures EnemyKindOf(draw) == Runner <==> 0.75 <= draw
  {
    var i := (draw * 4.0).Floor;
    assert i as real <= draw * 4.0 < i as real + 1.0;
  }

  /** A freshly spawned enemy of a given archetype at horizontal position x:
      soldiers have 2 health, flying enemies 1, turrets 3, runners 1. */
  function NewEnemy(id: Id, kind: EnemyKind, x: real, phaseDraw: real, speedDraw: real, pi: real): (e: Enemy)
    requires kind != Boss
    ensures e.id == id && e.kind == kind && e.health == e.maxHealth
    ensures e.health == (if kind == Soldier then 2 else if kind == Turret then 3 else 1)
    ensures e.position.x == x && e.velocity == Position(0.0, 0.0)
  {
    match kind
    case Flying =>
      Enemy(id, Position(x, 2.0), Position(0.0, 0.0), 1, 1, Flying, true, Hover, 0.0, x - 4.0, x + 4.0,
            Some(phaseDraw * pi * 2.0), Some(2.0 + speedDraw), None, None)
    case Turret =>
      Enemy(id, Position(x, -1.3), Position(0.0, 0.0), 3, 3, Turret, true, Shoot, 0.0, x, x,
            None, None, None, None)
    case Runner =>
      Enemy(id, Position(x, -1.5), Position(0.0, 0.0), 1, 1, Runner, true, Patrol, 999.0, x - 5.0, x + 5.0,
            None, None, None, None)
    case Soldier =>
      Enemy(id, Position(x, -1.5), Position(0.0, 0.0), 2, 2, Soldier, true, Patrol, 0.0, x - 3.0, x + 3.0,
            None, None, None, None)
  }

  /** The power-up kind drawn uniformly from the five kinds. */
  function PowerUpKindOf(draw: real): PowerUpKind
    requires 0.0 <= draw < 1.0
  {
    var i := (draw * 5.0).Floor;
    if i == 0 then WeaponMachineGun
    else if i == 1 then WeaponSpreadGun
    else if i == 2 then WeaponLaser
    else if i == 3 then ExtraLife
    else Shield
  }

  // ---------------------------------------------------------------------
  // Enemy AI
  // ---------------------------------------------------------------------

  function Sign(right: bool): real
  {
    if right then 1.0 else -1.0
  }

  /** `value || 0` */
  function OrZero(o: Option<real>): real
  {
    if o.Some? then o.value else 0.0
  }

  /** `value || fallback`: an absent or zero value falls back. */
  function OrElse(o: Option<real>, fallback: real): real
  {
    if o.Some? && o.value != 0.0 then o.value else fallback
  }

  /** Walk back and forth between the patrol bounds at the given speed. */
  function PatrolTurn(e: Enemy, speed: real): Enemy
  {
    if e.position.x <= e.patrolStart then e.(facingRight := true, velocity := e.velocity.(x := speed))
    else if e.position.x >= e.patrolEnd then e.(facingRight := false, velocity := e.velocity.(x := -speed))
    else e
  }

  /** Soldier: patrol until the player is within 6 units horizontally, then
      stand, face the player and fire a straight shot whenever the cooldown
      has run out (re-arming it to 1 s); back to patrol beyond 8 units. */
  function SoldierThink(e: Enemy, player: Option<Player>): (Enemy, seq<Shot>)
  {
    if e.aiState == Patrol then
      var e1 := PatrolTurn(e, EnemySpeed);
      if player.Some? && Abs(player.value.position.x - e.position.x) < 6.0
      then (e1.(aiState := Attack, facingRight := player.value.position.x > e.position.x), [])
      else (e1, [])
    else if e.aiState == Attack then
      var e1 := e.(velocity := e.velocity.(x := 0.0));
      if player.None? then (e1, [])
      else
        var px := player.value.position.x;
        var e2 := e1.(facingRight := px > e.position.x);
        var fire := e2.shootCooldown <= 0.0;
        var shots := if fire
          then [Shot(Position(e.position.x + (if e2.facingRight then 0.3 else -0.3), e.position.y + 0.1),
                     Position(Sign(e2.facingRight), 0.0), Basic, e.id)]
          else [];
        var e3 := if fire then e2.(shootCooldown := 1.0) else e2;
        (if Abs(px - e.position.x) > 8.0 then e3.(aiState := Patrol) else e3, shots)
    else (e, [])
  }

  /** Flying: advance the hover phase; steer toward the player when more
      than 1 unit away; dive when within 3 units horizontally and more than 1
      unit apart vertically, otherwise ease toward the hover height; fire an
      aimed shot (re-arming 1.5 s) within 7 units. */
  function FlyingThink(e: Enemy, player: Option<Player>, delta: real, m: MathLib): (Enemy, seq<Shot>)
  {
    var offset := OrZero(e.hoverOffset) + delta * OrElse(e.hoverSpeed, 3.0);
    var e1 := e.(hoverOffset := Some(offset));
    var targetY := 2.0 + m.sin(offset) * 1.5;
    if player.None? then (e1, [])
    else
      var p := player.value.position;
      var dx := p.x - e.position.x;
      var vx := if Abs(dx) > 1.0 then (if dx > 0.0 then 2.0 else -2.0) else 0.0;
      var facing := if Abs(dx) > 1.0 then dx > 0.0 else e.facingRight;
      var vy := if Abs(dx) < 3.0 && Abs(p.y - e.position.y) > 1.0 then -5.0 else (targetY - e.position.y) * 3.0;
      var e2 := e1.(velocity := Position(vx, vy), facingRight := facing);
      if e2.shootCooldown <= 0.0 && Abs(dx) < 7.0
      then (e2.(shootCooldown := 1.5), [Shot(e.position, m.unit(dx, p.y - e.position.y), Basic, e.id)])
      else (e2, [])
  }

  /** Turret: never moves horizontally; faces the player and fires an aimed
      shot (re-arming 0.5 s) within 10 units. */
  function TurretThink(e: Enemy, player: Option<Player>, m: MathLib): (Enemy, seq<Shot>)
  {
    var e1 := e.(velocity := e.velocity.(x := 0.0));
    if player.None? then (e1, [])
    else
      var p := player.value.position;
      var dx := p.x - e.position.x;
      var e2 := e1.(facingRight := dx > 0.0);
      if e2.shootCooldown <= 0.0 && Abs(dx) < 10.0
      then (e2.(shootCooldown := 0.5),
            [Shot(Position(e.position.x, e.position.y + 0.2), m.unit(dx, p.y - e.position.y), Basic, e.id)])
      else (e2, [])
  }

  /** Runner: within 8 units it charges at speed 4 and keeps the charge
      state for good; otherwise, unless charging, it patrols at speed 3. It
      never fires. */
  function RunnerThink(e: Enemy, player: Option<Player>): Enemy
  {
    if player.None? then e
    else
      var dx := player.value.position.x - e.position.x;
      if Abs(dx) < 8.0
      then e.(velocity := e.velocity.(x := if dx > 0.0 then 4.0 else -4.0), facingRight := dx > 0.0, aiState := Charge)
      else if e.aiState != Charge then PatrolTurn(e, 3.0)
      else e
  }

  /** Whether health / maxHealth > 0.5, including the division's behaviour
      for a zero or negative maximum. */
  function AboveHalfHealth(health: int, maxHealth: int): (r: bool)
    ensures maxHealth != 0 ==> (r <==> (health as real) / (maxHealth as real) > 0.5)
  {
    if maxHealth > 0 then
      HalfRatio(health as real, maxHealth as real);
      2 * health > maxHealth
    else if maxHealth == 0 then health > 0
    else
      HalfRatio(-health as real, -maxHealth as real);
      assert (-health as real) / (-maxHealth as real) == (health as real) / (maxHealth as real);
      2 * health < maxHealth
  }

  lemma HalfRatio(h: real, m: real)
    requires m > 0.0
    ensures h / m > 0.5 <==> 2.0 * h > m
  {
    var q := h / m;
    assert q * m == h;
    if q > 0.5 {
      assert (q - 0.5) * m > 0.0;
    } else {
      assert (0.5 - q) * m >= 0.0;
    }
  }

  /** The three-bullet vertical fan of the boss's first phase. */
  function TripleShot(e: Enemy): (s: seq<Shot>)
    ensures |s| == 3
  {
    var dx := Sign(e.facingRight) * 0.8;
    [Shot(Position(e.position.x, e.position.y - 0.2), Position(dx, -0.3), Spread, e.id),
     Shot(Position(e.position.x, e.position.y), Position(dx, 0.0), Spread, e.id),
     Shot(Position(e.position.x, e.position.y + 0.2), Position(dx, 0.3), Spread, e.id)]
  }

  /** The eight-bullet ring of the boss's second phase. */
  function RadialBurst(e: Enemy, m: MathLib): (s: seq<Shot>)
    ensures |s| == 8
  {
    seq(8, i requires 0 <= i < 8 => Shot(e.position, RingVelocity(i, m, 0.7), Spread, e.id))
  }

  /** Boss: always faces the player. Above half health it closes in to 4
      units at speed 3 and fires the fan every 0.8 s; otherwise it counts down
      its jump cooldown, leaps (if grounded) every 2 s, and fires the ring
      every 1.5 s. */
  function BossThink(e: Enemy, player: Option<Player>, delta: real, m: MathLib): (Enemy, seq<Shot>)
  {
    if player.None? then (e, [])
    else
      var px := player.value.position.x;
      var facing := px > e.position.x;
      var e1 := e.(facingRight := facing);
      if AboveHalfHealth(e.health, e.maxHealth) then
        var vx := if Abs(px - e.position.x) > 4.0 then (if facing then 3.0 else -3.0) else 0.0;
        var e2 := e1.(velocity := e1.velocity.(x := vx));
        if e2.shootCooldown <= 0.0 then (e2.(shootCooldown := 0.8), TripleShot(e2)) else (e2, [])
      else
        var jc := (if e.jumpCooldown.Some? then e.jumpCooldown.value else 0.0) - delta;
        var e2 := if jc <= 0.0 && e.grounded == Some(true)
          then e1.(velocity := Position(if facing then 4.0 else -4.0, 6.0), jumpCooldown := Some(2.0))
          else e1.(jumpCooldown := Some(jc));
        if e2.shootCooldown <= 0.0 then (e2.(shootCooldown := 1.5), RadialBurst(e2, m)) else (e2, [])
  }

  /** One enemy's AI decision: its new record and the shots it fires. An
      enemy keeps its identity, archetype, health and grounded flag, and
      fires only its own bullets, none, one, three or eight at a time. */
  function Think(e: Enemy, player: Option<Player>, delta: real, m: MathLib): (r: (Enemy, seq<Shot>))
    ensures r.0.id == e.id && r.0.kind == e.kind
    ensures r.0.health == e.health && r.0.maxHealth == e.maxHealth && r.0.grounded == e.grounded
    ensures forall s :: s in r.1 ==> s.owner == e.id
    ensures |r.1| in {0, 1, 3, 8}
  {
    match e.kind
    case Soldier => SoldierThink(e, player)
    case Flying => FlyingThink(e, player, delta, m)
    case Turret => TurretThink(e, player, m)
    case Runner => (RunnerThink(e, player), [])
    case Boss => BossThink(e, player, delta, m)
  }

  /** Ground archetypes fall and land on platforms; flying enemies and
      turrets do neither. */
  predicate FeelsGravity(k: EnemyKind)
  {
    k != Flying && k != Turret
  }

  /** Gravity, integration, landing and cooldown for one enemy. */
  function EnemyPhysics(e: Enemy, platforms: seq<Platform>, delta: real): Enemy
  {
    var v := if FeelsGravity(e.kind) then Fall(e.velocity, delta) else e.velocity;
    var moved := Body(Integrate(e.position, v, delta), v, false);
    var b := if FeelsGravity(e.kind) then LandAll(moved, platforms, EnemyHalf) else moved;
    e.(position := b.position, velocity := b.velocity,
       shootCooldown := if e.shootCooldown > 0.0 then e.shootCooldown - delta else e.shootCooldown)
  }

  /** An enemy's physics changes only its position, velocity and cooldown.
      A flying enemy or a turret moves at its velocity. A ground archetype
      keeps its horizontal motion and either falls freely under gravity or
      ends the frame at rest on the upper face of one of the platforms. A
      running cooldown loses the frame time, with no clamp at zero. */
  lemma EnemyPhysicsFacts(e: Enemy, platforms: seq<Platform>, delta: real)
    ensures var q := EnemyPhysics(e, platforms, delta);
      && q == e.(position := q.position, velocity := q.velocity, shootCooldown := q.shootCooldown)
      && (e.shootCooldown > 0.0 ==> q.shootCooldown == e.shootCooldown - delta)
      && (e.shootCooldown <= 0.0 ==> q.shootCooldown == e.shootCooldown)
      && (!FeelsGravity(e.kind) ==> q.velocity == e.velocity && q.position == Integrate(e.position, e.velocity, delta))
      && (FeelsGravity(e.kind) ==>
            && q.velocity.x == e.velocity.x
            && q.position.x == e.position.x + e.velocity.x * delta
            && ((q.velocity.y == e.velocity.y - Gravity * delta
                 && q.position.y == e.position.y + (e.velocity.y - Gravity * delta) * delta)
                || (q.velocity.y == 0.0
                    && exists k :: 0 <= k < |platforms| && q.position.y == Top(platforms[k]) + EnemyHalf.h)))
  {
    if FeelsGravity(e.kind) {
      var v := Fall(e.velocity, delta);
      LandedRestsOnPlatform(Body(Integrate(e.position, v, delta), v, false), platforms, EnemyHalf);
    }
  }

  /** A ground archetype that overlaps platform k, when the scan reaches it,
      while not moving up, ends the frame at rest on platform k or a later
      one. */
  lemma EnemyLandsOnOverlap(e: Enemy, platforms: seq<Platform>, delta: real, k: nat)
    requires FeelsGravity(e.kind) && k < |platforms|
    requires var v := Fall(e.velocity, delta);
      var b := LandAll(Body(Integrate(e.position, v, delta), v, false), platforms[..k], EnemyHalf);
      CheckAABBCollision(BodyBox(b.position, EnemyHalf), PlatformBox(platforms[k])) && b.velocity.y <= 0.0
    ensures EnemyPhysics(e, platforms, delta).velocity.y == 0.0
    ensures exists k' :: k <= k' < |platforms| && EnemyPhysics(e, platforms, delta).position.y == Top(platforms[k']) + EnemyHalf.h
  {
    var v := Fall(e.velocity, delta);
    DescentOntoPlatformLands(Body(Integrate(e.position, v, delta), v, false), platforms, k, EnemyHalf);
  }

  /** One enemy's whole frame: decide, then move. */
  function EnemyStep(e: Enemy, player: Option<Player>, platforms: seq<Platform>, delta: real, m: MathLib): (r: (Enemy, seq<Shot>))
    ensures r.0.id == e.id && r.0.kind == e.kind && r.0.health == e.health && r.0.maxHealth == e.maxHealth
    ensures forall s :: s in r.1 ==> s.owner == e.id
  {
    var t := Think(e, player, delta, m);
    (EnemyPhysics(t.0, platforms, delta), t.1)
  }

  /** Every enemy's frame, in list order, with all the shots in the order
      they are fired. */
  function StepEnemies(es: seq<Enemy>, player: Option<Player>, platforms: seq<Platform>, delta: real, m: MathLib): (r: (seq<Enemy>, seq<Shot>))
    ensures |r.0| == |es|
    decreases |es|
  {
    if es == [] then ([], [])
    else
      var r := StepEnemies(es[..|es| - 1], player, platforms, delta, m);
      var s := EnemyStep(es[|es| - 1], player, platforms, delta, m);
      (r.0 + [s.0], r.1 + s.1)
  }

  /** The frame keeps every enemy's id, archetype and health, in place. */
  lemma {:induction false} StepEnemiesKeeps(es: seq<Enemy>, player: Option<Player>, platforms: seq<Platform>, delta: real, m: MathLib)
    ensures var r := StepEnemies(es, player, platforms, delta, m).0;
      forall k :: 0 <= k < |es| ==> r[k].id == es[k].id && r[k].kind == es[k].kind && r[k].health == es[k].health
    decreases |es|
  {
    if es != [] {
      var init := es[..|es| - 1];
      StepEnemiesKeeps(init, player, platforms, delta, m);
      assert forall k :: 0 <= k < |init| ==> init[k] == es[k];
    }
  }

  /** The frame of a list prefix one enemy longer. */
  lemma StepEnemiesSnoc(es: seq<Enemy>, k: nat, player: Option<Player>, platforms: seq<Platform>, delta: real, m: MathLib)
    requires k < |es|
    ensures StepEnemies(es[..k + 1], player, platforms, delta, m)
         == (StepEnemies(es[..k], player, platforms, delta, m).0 + [EnemyStep(es[k], player, platforms, delta, m).0],
             StepEnemies(es[..k], player, platforms, delta, m).1 + EnemyStep(es[k], player, platforms, delta, m).1)
  {
    assert es[..k + 1][..k] == es[..k];
  }

  /** The frame keeps every enemy's archetype, so a list without the boss
      stays without it. */
  lemma StepKeepsKinds(es: seq<Enemy>, player: Option<Player>, platforms: seq<Platform>, delta: real, m: MathLib)
    requires forall e :: e in es ==> e.kind != Boss
    ensures forall e :: e in StepEnemies(es, player, platforms, delta, m).0 ==> e.kind != Boss
  {
    var r := StepEnemies(es, player, platforms, delta, m).0;
    StepEnemiesKeeps(es, player, platforms, delta, m);
    forall e | e in r
      ensures e.kind != Boss
    {
      var k :| 0 <= k < |r| && r[k] == e;
      assert es[k] in es;
    }
  }

  /** Every shot of the frame is fired by one of the enemies of the list. */
  lemma {:induction false} ShotsHaveEnemyOwners(es: seq<Enemy>, player: Option<Player>, platforms: seq<Platform>, delta: real, m: MathLib)
    ensures forall s :: s in StepEnemies(es, player, platforms, delta, m).1 ==> exists k :: 0 <= k < |es| && s.owner == es[k].id
    decreases |es|
  {
    if es != [] {
      var init := es[..|es| - 1];
      ShotsHaveEnemyOwners(init, player, platforms, delta, m);
      var last := EnemyStep(es[|es| - 1], player, platforms, delta, m).1;
      forall s | s in StepEnemies(es, player, platforms, delta, m).1
        ensures exists k :: 0 <= k < |es| && s.owner == es[k].id
      {
        if s in last {
          assert s.owner == es[|es| - 1].id;
        } else {
          var k :| 0 <= k < |init| && s.owner == init[k].id;
          assert init[k] == es[k];
        }
      }
    }
  }

  /** A turret never moves: its horizontal velocity is zeroed, its vertical
      velocity is left alone and gravity does not act on it, so a turret at
      rest stays where it is. */
  lemma TurretStaysPut(e: Enemy, player: Option<Player>, platforms: seq<Platform>, delta: real, m: MathLib)
    requires e.kind == Turret
    ensures EnemyStep(e, player, platforms, delta, m).0.velocity == Position(0.0, e.velocity.y)
    ensures EnemyStep(e, player, platforms, delta, m).0.position.x == e.position.x
    ensures e.velocity.y == 0.0 ==> EnemyStep(e, player, platforms, delta, m).0.position == e.position
  {
  }

  /** A charging runner keeps charging, and runners never fire. */
  lemma RunnerChargeIsFinal(e: Enemy, player: Option<Player>, delta: real, m: MathLib)
    requires e.kind == Runner
    ensures Think(e, player, delta, m).1 == []
    ensures e.aiState == Charge ==> Think(e, player, delta, m).0.aiState == Charge
  {
  }

  /** A patrolling soldier starts attacking only with the player within 6
      units; an attacking one stops only with the player beyond 8 units. */
  lemma SoldierHysteresis(e: Enemy, player: Option<Player>, delta: real, m: MathLib)
    requires e.kind == Soldier
    ensures e.aiState == Patrol && Think(e, player, delta, m).0.aiState == Attack ==>
      player.Some? && Abs(player.value.position.x - e.position.x) < 6.0
    ensures e.aiState == Attack && Think(e, player, delta, m).0.aiState == Patrol ==>
      player.Some? && Abs(player.value.position.x - e.position.x) > 8.0
    ensures e.aiState == Patrol ==> Think(e, player, delta, m).1 == []
  {
  }

  /** The boss only leaps when grounded, and nothing ever sets it grounded:
      while not grounded, its AI leaves its vertical velocity alone. */
  lemma BossNeverLeapsUngrounded(e: Enemy, player: Option<Player>, delta: real, m: MathLib)
    requires e.kind == Boss && e.grounded != Some(true)
    ensures Think(e, player, delta, m).0.velocity.y == e.velocity.y
    ensures forall s :: s in Think(e, player, delta, m).1 ==> s.weapon == Spread
  {
  }
}
