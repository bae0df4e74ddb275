/**
 * `ParticleSystem`: one list of particles, pruned of dead ones on every
 * update and appended to by six emitters, each adding a fixed number of
 * particles of its own kind. Only `AddAmbientParticle` creates Ambient
 * particles, and it refuses once MaxAmbientParticles of them exist.
 *
 * Each `Random.NextSingle()` draw is an entry of a `draws` sequence of
 * numbers in [0, 1), consumed in the order the source draws them; the
 * entries drawn only for a colour are consumed and ignored.
 */
module ParticleSystems {
  import opened Geometry
  import opened GameConfig
  import opened Lists
  import opened ParticleEffect

  /** `Math.PI`, the exact value of the double. */
  const MathPI: real := 3.141592653589793115997963468544185161590576171875

  predicate UnitDraws(draws: seq<real>) {
    forall i :: 0 <= i < |draws| ==> 0.0 <= draws[i] < 1.0
  }

  /** The number of particles of `kind` in `ps`. */
  function Count(ps: seq<Particle>, kind: ParticleType): nat
    decreases |ps|
  {
    if ps == [] then 0 else (if ps[0].kind == kind then 1 else 0) + Count(ps[1..], kind)
  }

  lemma {:induction false} CountAppend(a: seq<Particle>, b: seq<Particle>, kind: ParticleType)
    ensures Count(a + b, kind) == Count(a, kind) + Count(b, kind)
    decreases |a|
  {
    if a != [] {
      assert (a + b)[0] == a[0];
      assert (a + b)[1..] == a[1..] + b;
      CountAppend(a[1..], b, kind);
    } else {
      assert a + b == b;
    }
  }

  /** The particles of `ps` that are alive, in their order. */
  function Survivors(ps: seq<Particle>): seq<Particle>
    reads set p | p in ps
    decreases |ps|
  {
    if ps == [] then []
    else (if ps[0].life > 0.0 then [ps[0]] else []) + Survivors(ps[1..])
  }

  /** Pruning sees only the particles' lives. */
  twostate lemma SurvivorsUnchanged(ps: seq<Particle>)
    requires forall p :: p in ps ==> unchanged(p)
    ensures Survivors(ps) == old(Survivors(ps))
  {
  }

  lemma SurvivorsAt(ps: seq<Particle>, i: int)
    requires 0 <= i < |ps|
    ensures Survivors(ps[i..]) == (if ps[i].life > 0.0 then [ps[i]] else []) + Survivors(ps[i + 1..])
  {
    assert ps[i..][0] == ps[i];
    assert ps[i..][1..] == ps[i + 1..];
  }

  /** Pruning keeps exactly the live particles. */
  lemma {:induction false} SurvivorsMembers(ps: seq<Particle>)
    ensures forall p :: p in Survivors(ps) <==> p in ps && p.life > 0.0
    decreases |ps|
  {
    if ps != [] {
      SurvivorsMembers(ps[1..]);
    }
  }

  /** Being a filter, pruning keeps the particles distinct and leaves no
      more of any kind than before. */
  lemma {:induction false} SurvivorsBounded(ps: seq<Particle>, kind: ParticleType)
    ensures Count(Survivors(ps), kind) <= Count(ps, kind)
    ensures Distinct(ps) ==> Distinct(Survivors(ps))
    decreases |ps|
  {
    if ps != [] {
      SurvivorsBounded(ps[1..], kind);
      var head := if ps[0].life > 0.0 then [ps[0]] else [];
      CountAppend(head, Survivors(ps[1..]), kind);
      if Distinct(ps) {
        SurvivorsMembers(ps[1..]);
        assert Distinct(ps[1..]);
        assert ps[0] !in ps[1..];
        assert Distinct(head + Survivors(ps[1..]));
      }
    }
  }

  /** `AddSpawnBurst`'s particle count: `count`, with -1 standing for
      SpawnBurstParticleCount; a negative count adds none. */
  function BurstSize(count: int): (n: nat)
    ensures count == -1 ==> n == SpawnBurstParticleCount
    ensures count >= 0 ==> n == count
    ensures count < -1 ==> n == 0
  {
    var particleCount := if count == -1 then SpawnBurstParticleCount else count;
    Max(0, particleCount)
  }

  /** `AddEnhancedSpawnBurst`'s particle count: a burst of count / 2 (C#
      division) and as many inward particles. For -3 and -2 the half is -1,
      which the burst reads as its default. */
  function EnhancedSize(count: int): (n: nat)
    ensures count >= 0 ==> n == 2 * (count / 2)
    ensures count == -3 || count == -2 ==> n == SpawnBurstParticleCount
    ensures count == -1 || count <= -4 ==> n == 0
  {
    var half := HalfTowardZero(count);
    BurstSize(half) + Max(0, half)
  }

  /** A particle as an emitter creates it. */
  ghost predicate Emitted(p: Particle, position: Vec, kind: ParticleType, lifeMin: real, lifeMax: real)
    reads p
  {
    p.kind == kind && p.position == position && p.rotation == 0.0 &&
    lifeMin <= p.life < lifeMax && p.maxLife == p.life
  }

  class ParticleSystem {
    var particles: seq<Particle>

    /** Each particle is held once, and the Ambient cap holds. */
    ghost predicate Valid()
      reads this
    {
      Distinct(particles) && Count(particles, Ambient) <= MaxAmbientParticles
    }

    constructor ()
      ensures particles == [] && Valid()
    {
      particles := [];
    }

    function ParticleCount(): (n: nat)
      reads this
      ensures n == |particles|
    {
      |particles|
    }

    /** `ParticleSystem.Update`: every particle is updated once, from the
        last to the first, and each that is dead afterwards is removed. */
    method Update(dt: real)
      requires Valid()
      modifies this, particles
      ensures Valid()
      ensures particles == Survivors(old(particles))
      ensures forall p :: p in old(particles) ==> p.State() == Step(old(p.State()), dt)
      ensures forall p :: p in particles ==> p.IsAlive()
    {
      ghost var ps := particles;
      Prune(dt, ps);
      SurvivorsBounded(ps, Ambient);
      assert forall p :: p in particles ==> p.IsAlive() by {
        SurvivorsMembers(ps);
      }
    }

    /** `Update`'s loop, run backwards over `ps` so that removals do not
        disturb the indices still to come. */
    method Prune(dt: real, ghost ps: seq<Particle>)
      requires particles == ps && Distinct(ps)
      modifies this, ps
      ensures particles == Survivors(ps)
      ensures forall j :: 0 <= j < |ps| ==> ps[j].State() == Step(old(ps[j].State()), dt)
    {
      var i := |particles|;
      while i > 0
        invariant 0 <= i <= |ps|
        invariant particles == ps[..i] + Survivors(ps[i..])
        invariant forall j :: i <= j < |ps| ==> ps[j].State() == Step(old(ps[j].State()), dt)
        invariant forall j :: 0 <= j < i ==> ps[j].State() == old(ps[j].State())
      {
        i := i - 1;
        UpdateAt(i, dt, ps);
      }
      assert ps[..0] == [] && ps[0..] == ps;
    }

    /** One iteration of `Update`'s loop: particle `i` is updated and, if
        dead, removed; the particles after it have been pruned already. */
    method UpdateAt(i: nat, dt: real, ghost ps: seq<Particle>)
      requires i < |ps| && Distinct(ps)
      requires particles == ps[..i + 1] + Survivors(ps[i + 1..])
      modifies this, ps[i]
      ensures particles == ps[..i] + Survivors(ps[i..])
      ensures ps[i].State() == Step(old(ps[i].State()), dt)
      ensures forall j :: 0 <= j < |ps| && j != i ==> ps[j].State() == old(ps[j].State())
    {
      ghost var rest := Survivors(ps[i + 1..]);
      assert ps[..i + 1] == ps[..i] + [ps[i]];
      assert particles == ps[..i] + [ps[i]] + rest;
      assert ps[i] !in ps[i + 1..];
      assert particles[i] == ps[i];
      particles[i].Update(dt);
      assert Survivors(ps[i + 1..]) == rest;
      if !particles[i].IsAlive() {
        particles := RemoveAt(particles, i);
      }
      SurvivorsAt(ps, i);
    }

    /** Appends one new particle, keeping the list distinct and the cap. */
    method Push(p: Particle)
      requires Valid() && p !in particles
      requires p.kind == Ambient ==> Count(particles, Ambient) < MaxAmbientParticles
      modifies this
      ensures particles == old(particles) + [p] && Valid()
    {
      CountAppend(particles, [p], Ambient);
      DistinctAppend(particles, p);
      particles := particles + [p];
    }

    /** `AddPlayerTrail`: PlayerTrailParticleCount particles at `position`. */
    method AddPlayerTrail(position: Vec, draws: seq<real>)
      requires Valid() && UnitDraws(draws) && |draws| == 5 * PlayerTrailParticleCount
      modifies this
      ensures Valid()
      ensures |particles| == |old(particles)| + PlayerTrailParticleCount
      ensures particles[..|old(particles)|] == old(particles)
      ensures forall j :: |old(particles)| <= j < |particles| ==>
        fresh(particles[j]) &&
        Emitted(particles[j], position, PlayerTrail, PlayerTrailLifeMin, PlayerTrailLifeMax)
    {
      var i := 0;
      while i < PlayerTrailParticleCount
        invariant 0 <= i <= PlayerTrailParticleCount && Valid()
        invariant |particles| == |old(particles)| + i && particles[..|old(particles)|] == old(particles)
        invariant forall j :: |old(particles)| <= j < |particles| ==>
          fresh(particles[j]) &&
          Emitted(particles[j], position, PlayerTrail, PlayerTrailLifeMin, PlayerTrailLifeMax)
      {
        var velocity := Vec((draws[5 * i] - 0.5) * PlayerTrailVelocityRange,
                            (draws[5 * i + 1] - 0.5) * PlayerTrailVelocityRange);
        var scale := PlayerTrailScaleMin + draws[5 * i + 2] * (PlayerTrailScaleMax - PlayerTrailScaleMin);
        var life := PlayerTrailLifeMin + draws[5 * i + 3] * (PlayerTrailLifeMax - PlayerTrailLifeMin);
        var particle := new Particle(position, velocity, scale, life, PlayerTrail);
        particle.rotationSpeed := (draws[5 * i + 4] - 0.5) * PlayerTrailRotationSpeedRange;
        Push(particle);
        i := i + 1;
      }
    }

    /** `AddSpawnBurst`: BurstSize(count) particles spread evenly round `position`. */
    method AddSpawnBurst(position: Vec, count: int, draws: seq<real>, trig: Trig)
      requires Valid() && UnitDraws(draws) && |draws| == 4 * BurstSize(count)
      modifies this
      ensures Valid()
      ensures |particles| == |old(particles)| + BurstSize(count)
      ensures particles[..|old(particles)|] == old(particles)
      ensures forall j :: |old(particles)| <= j < |particles| ==>
        fresh(particles[j]) &&
        Emitted(particles[j], position, SpawnBurst, SpawnBurstLifeMin, SpawnBurstLifeMax)
    {
      var particleCount := if count == -1 then SpawnBurstParticleCount else count;
      var i := 0;
      while i < particleCount
        invariant 0 <= i && (particleCount >= 0 ==> i <= particleCount) && i <= BurstSize(count)
        invariant Valid()
        invariant |particles| == |old(particles)| + i && particles[..|old(particles)|] == old(particles)
        invariant forall j :: |old(particles)| <= j < |particles| ==>
          fresh(particles[j]) &&
          Emitted(particles[j], position, SpawnBurst, SpawnBurstLifeMin, SpawnBurstLifeMax)
      {
        var angle := i as real * 2.0 * MathPI / particleCount as real;
        var speed := SpawnBurstSpeedMin + draws[4 * i] * (SpawnBurstSpeedMax - SpawnBurstSpeedMin);
        var velocity := Vec(trig.cos(angle) * speed, trig.sin(angle) * speed);
        var scale := SpawnBurstScaleMin + draws[4 * i + 1] * (SpawnBurstScaleMax - SpawnBurstScaleMin);
        var life := SpawnBurstLifeMin + draws[4 * i + 2] * (SpawnBurstLifeMax - SpawnBurstLifeMin);
        var particle := new Particle(position, velocity, scale, life, SpawnBurst);
        particle.rotationSpeed := (draws[4 * i + 3] - 0.5) * SpawnBurstRotationSpeedRange;
        Push(particle);
        i := i + 1;
      }
    }

    /** `AddEnhancedSpawnBurst`: a burst of count / 2 particles, then as many
        again flowing along `centerDirection` with up to 0.4 radians of
        spread. */
    method AddEnhancedSpawnBurst(edgePosition: Vec, centerDirection: Vec, count: int,
                                 burstDraws: seq<real>, flowDraws: seq<real>, trig: Trig)
      requires Valid() && UnitDraws(burstDraws) && UnitDraws(flowDraws)
      requires |burstDraws| == 4 * BurstSize(HalfTowardZero(count))
      requires |flowDraws| == 5 * Max(0, HalfTowardZero(count))
      modifies this
      ensures Valid()
      ensures |particles| == |old(particles)| + EnhancedSize(count)
      ensures particles[..|old(particles)|] == old(particles)
      ensures forall j :: |old(particles)| <= j < |particles| ==>
        fresh(particles[j]) && particles[j].kind == SpawnBurst && particles[j].position == edgePosition
    {
      var half := HalfTowardZero(count);
      AddSpawnBurst(edgePosition, half, burstDraws, trig);
      ghost var mid := |particles|;
      var i := 0;
      while i < half
        invariant 0 <= i && (half >= 0 ==> i <= half) && i <= Max(0, half)
        invariant Valid()
        invariant |particles| == mid + i && particles[..|old(particles)|] == old(particles)
        invariant forall j :: |old(particles)| <= j < |particles| ==>
          fresh(particles[j]) && particles[j].kind == SpawnBurst && particles[j].position == edgePosition
      {
        var baseDirection := trig.normalize(centerDirection);
        var spreadAngle := (flowDraws[5 * i] - 0.5) * 0.8;
        var cos := trig.cos(spreadAngle);
        var sin := trig.sin(spreadAngle);
        var velocity := Scale(Vec(baseDirection.x * cos - baseDirection.y * sin,
                                  baseDirection.x * sin + baseDirection.y * cos),
                              80.0 + flowDraws[5 * i + 1] * 60.0);
        var scale := 0.6 + flowDraws[5 * i + 2] * 0.8;
        var life := 1.5 + flowDraws[5 * i + 3] * 1.0;
        var particle := new Particle(edgePosition, velocity, scale, life, SpawnBurst);
        particle.rotationSpeed := (flowDraws[5 * i + 4] - 0.5) * 6.0;
        Push(particle);
        i := i + 1;
      }
    }

    /** `AddDamageEffect`: DamageEffectParticleCount particles at `position`. */
    method AddDamageEffect(position: Vec, draws: seq<real>, trig: Trig)
      requires Valid() && UnitDraws(draws) && |draws| == 4 * DamageEffectParticleCount
      modifies this
      ensures Valid()
      ensures |particles| == |old(particles)| + DamageEffectParticleCount
      ensures particles[..|old(particles)|] == old(particles)
      ensures forall j :: |old(particles)| <= j < |particles| ==>
        fresh(particles[j]) &&
        Emitted(particles[j], position, DamageEffect, DamageEffectLifeMin, DamageEffectLifeMax) &&
        particles[j].rotationSpeed == 0.0
    {
      var i := 0;
      while i < DamageEffectParticleCount
        invariant 0 <= i <= DamageEffectParticleCount && Valid()
        invariant |particles| == |old(particles)| + i && particles[..|old(particles)|] == old(particles)
        invariant forall j :: |old(particles)| <= j < |particles| ==>
          fresh(particles[j]) &&
          Emitted(particles[j], position, DamageEffect, DamageEffectLifeMin, DamageEffectLifeMax) &&
          particles[j].rotationSpeed == 0.0
      {
        var angle := draws[4 * i] * Pi * 2.0;
        var speed := DamageEffectSpeedMin + draws[4 * i + 1] * (DamageEffectSpeedMax - DamageEffectSpeedMin);
        var velocity := Vec(trig.cos(angle) * speed, trig.sin(angle) * speed);
        var scale := DamageEffectScaleMin + draws[4 * i + 2] * (DamageEffectScaleMax - DamageEffectScaleMin);
        var life := DamageEffectLifeMin + draws[4 * i + 3] * (DamageEffectLifeMax - DamageEffectLifeMin);
        var particle := new Particle(position, velocity, scale, life, DamageEffect);
        Push(particle);
        i := i + 1;
      }
    }

    /** `AddAmbientParticle`: one Ambient particle somewhere on a screen of
        `screenSize`, unless MaxAmbientParticles of them already exist. */
    method AddAmbientParticle(screenSize: Vec, draws: seq<real>)
      requires Valid() && UnitDraws(draws) && |draws| == 8
      modifies this
      ensures Valid()
      ensures Count(old(particles), Ambient) >= MaxAmbientParticles ==> particles == old(particles)
      ensures Count(old(particles), Ambient) < MaxAmbientParticles ==>
        |particles| == |old(particles)| + 1 && particles[..|old(particles)|] == old(particles) &&
        fresh(particles[|old(particles)|]) &&
        Emitted(particles[|old(particles)|], Vec(draws[0] * screenSize.x, draws[1] * screenSize.y),
                Ambient, AmbientLifeMin, AmbientLifeMax)
    {
      var ambientCount := AmbientCount();
      if ambientCount >= MaxAmbientParticles {
        return;
      }
      var position := Vec(draws[0] * screenSize.x, draws[1] * screenSize.y);
      var velocity := Vec((draws[2] - 0.5) * AmbientVelocityRange, (draws[3] - 0.5) * AmbientVelocityRange);
      var scale := AmbientScaleMin + draws[5] * (AmbientScaleMax - AmbientScaleMin);
      var life := AmbientLifeMin + draws[6] * (AmbientLifeMax - AmbientLifeMin);
      var particle := new Particle(position, velocity, scale, life, Ambient);
      particle.rotationSpeed := (draws[7] - 0.5) * AmbientRotationSpeedRange;
      Push(particle);
    }

    /** The number of Ambient particles, counted by a scan. */
    method AmbientCount() returns (n: nat)
      ensures n == Count(particles, Ambient)
    {
      n := 0;
      var i := |particles|;
      while i > 0
        invariant 0 <= i <= |particles|
        invariant n == Count(particles[i..], Ambient)
      {
        i := i - 1;
        assert particles[i..] == [particles[i]] + particles[i + 1..];
        CountAppend([particles[i]], particles[i + 1..], Ambient);
        if particles[i].kind == Ambient {
          n := n + 1;
        }
      }
      assert particles[0..] == particles;
    }

    /** `AddCardTrail`: one CardTrail particle at `position`. */
    method AddCardTrail(position: Vec, draws: seq<real>)
      requires Valid() && UnitDraws(draws) && |draws| == 4
      modifies this
      ensures Valid()
      ensures |particles| == |old(particles)| + 1 && particles[..|old(particles)|] == old(particles)
      ensures fresh(particles[|old(particles)|])
      ensures Emitted(particles[|old(particles)|], position, CardTrail, CardTrailLifeMin, CardTrailLifeMax)
      ensures particles[|old(particles)|].rotationSpeed == 0.0
    {
      var velocity := Vec((draws[0] - 0.5) * CardTrailVelocityRange, (draws[1] - 0.5) * CardTrailVelocityRange);
      var scale := CardTrailScaleMin + draws[2] * (CardTrailScaleMax - CardTrailScaleMin);
      var life := CardTrailLifeMin + draws[3] * (CardTrailLifeMax - CardTrailLifeMin);
      var particle := new Particle(position, velocity, scale, life, CardTrail);
      Push(particle);
    }
  }
}
