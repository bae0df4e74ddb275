/**
 * `Game1`: the object that owns the player, the game-state manager, the
 * enemy manager and the particle system, and runs one frame of the game
 * loop over them. Rendering, the screen shake and loading textures for new
 * enemies are not part of this model.
 */
module GameLoop {
  import opened Geometry
  import opened GameConfig
  import Spawning
  import P = PlayerEntity
  import J = JoelEntity
  import G = GameStateManagement
  import E = EnemyManagement
  import PS = ParticleSystems
  import opened ParticleEffect

  /** The ambient-particle period of `Game1.Update`, in seconds. */
  const AmbientInterval: real := 0.1

  /** Where `Initialize` puts the player: the centre of the screen. */
  const StartPosition: Vec := Vec(ScreenWidth as real / 2.0, ScreenHeight as real / 2.0)

  /** What one frame reads from outside: the elapsed seconds, the four
      arrow keys and the random draws of a spawn warning. */
  datatype Input = Input(dt: real, up: bool, down: bool, left: bool, right: bool, roll: Spawning.SpawnRoll)

  /** Everything the game loop updates except the particles. */
  datatype World = World(player: P.PlayerState, clock: G.Clock, enemies: E.Enemies, ambientTimer: real)

  predicate Active(c: G.Clock) { c.state == G.Playing }

  predicate AmbientDue(w: World, dt: real) { w.ambientTimer + dt >= AmbientInterval }

  /** The ambient timer advances and restarts once it reaches the period. */
  function AmbientTimed(w: World, dt: real): World {
    var t := w.ambientTimer + dt;
    w.(ambientTimer := if t >= AmbientInterval then 0.0 else t)
  }

  /** The game clock ticks. */
  function Ticked(w: World, dt: real): World {
    w.(clock := G.TickClock(w.clock, dt))
  }

  /** Both timers of a frame. */
  function Timed(w: World, dt: real): World {
    Ticked(AmbientTimed(w, dt), dt)
  }

  /** The player after its own update, before any collision. */
  function Stepped(w: World, input: Input, trig: Trig): P.PlayerState {
    P.Step(w.player, input.dt, input.up, input.down, input.left, input.right, trig)
  }

  /** The enemies after their update, which sees the moved player. */
  function Advanced(w: World, input: Input, trig: Trig): E.Enemies {
    E.Advance(w.enemies, input.dt, Stepped(w, input, trig).position, input.roll, trig)
  }

  /** The player's and the enemies' updates, in that order, so that the
      enemies chase the moved player. */
  function Moved(w: World, input: Input, trig: Trig): World {
    w.(player := Stepped(w, input, trig), enemies := Advanced(w, input, trig))
  }

  /** Whether some enemy meets the player. */
  predicate Hit(w: World) {
    E.AnyHit(w.enemies, w.player.bounds)
  }

  /** The collision check: a hit destroys the enemy, costs one point of
      health and, once health is gone, ends the game. */
  function Collision(w: World): World {
    if Hit(w) then
      var hurt := P.Damaged(w.player, KeziaDamage);
      w.(player := hurt, enemies := E.Collided(w.enemies, w.player.bounds),
         clock := if hurt.health <= 0 then G.LoseClock(w.clock) else w.clock)
    else w
  }

  /** Whether the player and enemies run this frame: the clock has already
      ticked, so the frame on which the time runs out moves nothing. */
  predicate Plays(w: World, dt: real) { Active(Timed(w, dt).clock) }

  /** The frame after the particles: the clock ticks, and while the game
      is still on the player and the enemies move and collide. */
  function Played(w: World, input: Input, trig: Trig): World {
    var t := Ticked(w, input.dt);
    if Active(t.clock) then Collision(Moved(t, input, trig)) else t
  }

  /** `Game1.Update` on everything but the particles. */
  function Frame(w: World, input: Input, trig: Trig): World {
    Played(AmbientTimed(w, input.dt), input, trig)
  }

  /** Whether a frame ends in a collision. */
  predicate Hurts(w: World, input: Input, trig: Trig) {
    Plays(w, input.dt) && Hit(Moved(Timed(w, input.dt), input, trig))
  }

  /** Once the clock has stopped the player and the enemies are frozen, and
      only the timers move. */
  lemma FrameFrozen(w: World, input: Input, trig: Trig)
    requires !Plays(w, input.dt)
    ensures var r := Frame(w, input, trig);
      r.player == w.player && r.enemies == w.enemies && r.clock == G.TickClock(w.clock, input.dt)
  {
  }

  /** A frame costs at most one point of health, costs it exactly when an
      enemy meets the player, and never takes health below zero. A playing
      player has health left, as `FrameHealthy` shows of every reachable
      world. */
  lemma {:induction false} FrameDamage(w: World, input: Input, trig: Trig)
    requires w.player.health >= 0 && (Plays(w, input.dt) ==> w.player.health > 0)
    ensures var h := Frame(w, input, trig).player.health;
      h == (if Hurts(w, input, trig) then w.player.health - KeziaDamage else w.player.health)
    ensures Frame(w, input, trig).player.health >= 0
  {
    var t := Timed(w, input.dt);
    var p := Stepped(t, input, trig);
    assert p.health == w.player.health by {
      P.StepFacts(t.player, input.dt, input.up, input.down, input.left, input.right, trig);
    }
  }

  /** A Joel at a left-edge spawn point, JoelSpawnDistance off screen, is
      not off screen by the Joel's margin, and its unrotated box reaches
      five pixels onto the screen: it hits a player pressed against the
      left wall at the same height. */
  lemma {:induction false} SpawnPointJoelHitsWallPlayer(roll: Spawning.SpawnRoll, s: J.JoelState, player: P.PlayerState)
    requires Spawning.ValidRoll(roll) && roll.side == 3
    requires s.isAlive && s.position == Spawning.SpawnPositionForSide(3, JoelSpawnDistance, roll.along)
    requires s.bounds == J.Bounds(s.position)
    requires player.position == P.Constrain(Vec(0.0, roll.along as real)) && player.bounds == P.BoxAt(player.position)
    ensures !J.OffScreen(s.position) && J.Hits(s, player.bounds)
  {
    assert player.position.x == P.HalfSize;
    assert player.bounds.x == 0;
    assert s.bounds.x == -25;
  }

  /** The world `Initialize` builds: the player at the centre, a fresh
      clock, no enemies and no ambient time. */
  const Start: World := World(P.Initial(StartPosition), G.Initial(), E.Enemies([], [], [], [], 0.0, 0.0), 0.0)

  /** Health never goes negative, and only a lost game has none left. */
  predicate Healthy(w: World) {
    w.player.health >= 0 && (w.clock.state != G.GameOver ==> w.player.health > 0)
  }

  /** The game starts healthy and every frame keeps it so: while the game
      is not lost the player has health, so the collision that empties it
      is the one that ends the game. */
  lemma {:induction false} FrameHealthy(w: World, input: Input, trig: Trig)
    ensures Healthy(Start)
    ensures Healthy(w) ==> Healthy(Frame(w, input, trig))
  {
    if Healthy(w) {
      var t := Timed(w, input.dt);
      var p := Stepped(t, input, trig);
      assert p.health == w.player.health by {
        P.StepFacts(t.player, input.dt, input.up, input.down, input.left, input.right, trig);
      }
      assert w.clock.state == G.GameOver ==> t.clock == w.clock;
    }
  }

  /** The game is over after a frame exactly when it was over before, or
      the frame's collision left the player without health. */
  lemma {:induction false} FrameGameOver(w: World, input: Input, trig: Trig)
    ensures var r := Frame(w, input, trig);
      r.clock.state == G.GameOver <==>
        w.clock.state == G.GameOver || (Hurts(w, input, trig) && r.player.health <= 0)
  {
    var t := Timed(w, input.dt);
    assert w.clock.state == G.GameOver ==> t.clock == w.clock;
    assert Plays(w, input.dt) ==> w.clock.state == G.Playing;
  }

  /** The ambient timer restarts when it reaches the period and otherwise
      accumulates, and the game clock never moves it. */
  lemma FrameAmbient(w: World, input: Input, trig: Trig)
    ensures var a := Frame(w, input, trig).ambientTimer;
      if AmbientDue(w, input.dt) then a == 0.0 else a == w.ambientTimer + input.dt
    ensures 0.0 <= w.ambientTimer < AmbientInterval && input.dt >= 0.0 ==>
      0.0 <= Frame(w, input, trig).ambientTimer < AmbientInterval
  {
  }

  /** A frame that plays leaves every enemy listed after it alive, except
      the one that met the player. */
  lemma {:induction false} FrameEnemies(w: World, input: Input, trig: Trig)
    requires Plays(w, input.dt)
    ensures var t := Timed(w, input.dt);
      var e := Advanced(t, input, trig);
      var r := Frame(w, input, trig).enemies;
      E.LiveCount(r) == E.LiveCount(e) - (if Hurts(w, input, trig) then 1 else 0)
  {
    var t := Timed(w, input.dt);
    var e := Advanced(t, input, trig);
    E.CollisionFacts(e, Stepped(t, input, trig).bounds);
  }

  class Game {
    const player: P.Player
    const stateManager: G.GameStateManager
    const enemies: E.EnemyManager
    const particles: PS.ParticleSystem
    var ambientParticleTimer: real

    function State(): World
      reads this, player, stateManager, enemies
    {
      World(player.State(), stateManager.State(), enemies.State(), ambientParticleTimer)
    }

    ghost predicate Valid()
      reads this, particles
    {
      particles.Valid()
    }

    /** `Initialize`: fresh managers and the player at the centre. */
    constructor ()
      ensures Valid() && particles.particles == []
      ensures State() == Start
    {
      stateManager := new G.GameStateManager();
      enemies := new E.EnemyManager();
      particles := new PS.ParticleSystem();
      ambientParticleTimer := 0.0;
      player := new P.Player(StartPosition);
    }

    /** `Game1.Update`: the particles first, then the ambient timer, the
        clock, and, while the game is active, the player, the enemies and
        the collision check. */
    method Update(input: Input, trig: Trig, ambientDraws: seq<real>, damageDraws: seq<real>)
      requires Valid()
      requires PS.UnitDraws(ambientDraws) && |ambientDraws| == 8
      requires PS.UnitDraws(damageDraws) && |damageDraws| == 4 * DamageEffectParticleCount
      modifies this, player, stateManager, enemies, particles, particles.particles
      ensures Valid()
      ensures State() == Frame(old(State()), input, trig)
      ensures var kept := PS.Survivors(old(particles.particles));
        var ambient := AmbientDue(old(State()), input.dt) && PS.Count(kept, Ambient) < MaxAmbientParticles;
        |particles.particles| == |kept| + (if ambient then 1 else 0) +
          (if Hurts(old(State()), input, trig) then DamageEffectParticleCount else 0)
      ensures var kept := PS.Survivors(old(particles.particles));
        |kept| <= |particles.particles| && particles.particles[..|kept|] == kept
    {
      ghost var w := State();
      ghost var ps := particles.particles;
      Ambience(input.dt, ambientDraws);
      assert State() == AmbientTimed(w, input.dt);
      ghost var kept := PS.Survivors(ps);
      ghost var lit := particles.particles;
      label aired:
      Play(input, trig, damageDraws);
      PS.SurvivorsUnchanged@aired(ps);
      assert particles.particles[..|kept|] == lit[..|kept|];
    }

    /** The particle part of a frame: the particles update, and an ambient
        particle is added each time the ambient timer reaches the period. */
    method Ambience(dt: real, ambientDraws: seq<real>)
      requires Valid()
      requires PS.UnitDraws(ambientDraws) && |ambientDraws| == 8
      modifies this, particles, particles.particles
      ensures Valid()
      ensures var t := old(ambientParticleTimer) + dt;
        ambientParticleTimer == if t >= AmbientInterval then 0.0 else t
      ensures var kept := PS.Survivors(old(particles.particles));
        var ambient := old(ambientParticleTimer) + dt >= AmbientInterval && PS.Count(kept, Ambient) < MaxAmbientParticles;
        |particles.particles| == |kept| + (if ambient then 1 else 0) && particles.particles[..|kept|] == kept
    {
      ghost var ps := particles.particles;
      particles.Update(dt);
      ghost var kept := particles.particles;
      label pruned:
      ambientParticleTimer := ambientParticleTimer + dt;
      if ambientParticleTimer >= AmbientInterval {
        particles.AddAmbientParticle(Vec(ScreenWidth as real, ScreenHeight as real), ambientDraws);
        ambientParticleTimer := 0.0;
      }
      assert particles.particles[..|kept|] == kept;
      PS.SurvivorsUnchanged@pruned(ps);
    }

    /** The rest of a frame: the clock, then, while the game is active, the
        movement and the collision check. */
    method Play(input: Input, trig: Trig, damageDraws: seq<real>)
      requires Valid()
      requires PS.UnitDraws(damageDraws) && |damageDraws| == 4 * DamageEffectParticleCount
      modifies player, stateManager, enemies, particles
      ensures Valid()
      ensures State() == Played(old(State()), input, trig)
      ensures |particles.particles| == |old(particles.particles)| +
        (if Active(G.TickClock(old(stateManager.State()), input.dt)) && Hit(Moved(Ticked(old(State()), input.dt), input, trig))
         then DamageEffectParticleCount else 0)
      ensures particles.particles[..|old(particles.particles)|] == old(particles.particles)
    {
      stateManager.Update(input.dt);
      if stateManager.IsGameActive() {
        Move(input, trig);
        Collide(trig, damageDraws);
      }
    }

    /** The movement part of an active frame. */
    method Move(input: Input, trig: Trig)
      requires Active(stateManager.State())
      modifies player, enemies
      ensures State() == Moved(old(State()), input, trig)
      ensures unchanged(particles)
    {
      player.Update(input.dt, input.up, input.down, input.left, input.right, trig);
      enemies.Update(input.dt, player.position, stateManager.IsGameActive(), input.roll, trig);
    }

    /** The collision check of an active frame: a hit hurts the player, adds
        the damage effect and, at zero health, ends the game. */
    method Collide(trig: Trig, damageDraws: seq<real>)
      requires Valid()
      requires PS.UnitDraws(damageDraws) && |damageDraws| == 4 * DamageEffectParticleCount
      modifies player, stateManager, enemies, particles
      ensures Valid()
      ensures State() == Collision(old(State()))
      ensures |particles.particles| ==
        |old(particles.particles)| + (if Hit(old(State())) then DamageEffectParticleCount else 0)
      ensures particles.particles[..|old(particles.particles)|] == old(particles.particles)
    {
      var hit := enemies.CheckCollisions(player.bounds);
      if hit {
        player.TakeDamage(KeziaDamage);
        particles.AddDamageEffect(player.position, damageDraws, trig);
        if player.health <= 0 {
          stateManager.SetGameOver();
        }
      }
    }
  }
}
