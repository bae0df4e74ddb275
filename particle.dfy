/**
 * A single particle: it drifts, spins and counts its life down, and is
 * alive while life remains. Its colour fade is not modelled.
 */
module ParticleEffect {
  import opened Geometry

  /** `ParticleType`. */
  datatype ParticleType = PlayerTrail | SpawnBurst | DamageEffect | Ambient | CardTrail

  /** Everything about a particle that `Update` reads or writes. */
  datatype ParticleState = ParticleState(
    position: Vec,
    velocity: Vec,
    scale: real,
    rotation: real,
    rotationSpeed: real,
    life: real,
    maxLife: real,
    kind: ParticleType)

  /** `IsAlive`. */
  predicate Alive(s: ParticleState) { s.life > 0.0 }

  /** The state the constructor builds: full life, no rotation or spin. */
  function Initial(position: Vec, velocity: Vec, scale: real, life: real, kind: ParticleType): (s: ParticleState)
    ensures s.life == s.maxLife == life && s.kind == kind
    ensures s.position == position && s.velocity == velocity && s.scale == scale
    ensures s.rotation == 0.0 && s.rotationSpeed == 0.0
  {
    ParticleState(position, velocity, scale, 0.0, 0.0, life, life, kind)
  }

  /** One `Particle.Update` of `dt` seconds. */
  function Step(s: ParticleState, dt: real): (r: ParticleState)
    ensures !Alive(s) ==> r == s
    ensures Alive(s) ==> r.life == s.life - dt
    ensures Alive(s) ==> r.position == Add(s.position, Scale(s.velocity, dt))
    ensures Alive(s) ==> r.rotation == s.rotation + s.rotationSpeed * dt
    ensures r.kind == s.kind && r.velocity == s.velocity && r.scale == s.scale
    ensures r.maxLife == s.maxLife && r.rotationSpeed == s.rotationSpeed
  {
    if !Alive(s) then s
    else s.(position := Add(s.position, Scale(s.velocity, dt)),
            rotation := s.rotation + s.rotationSpeed * dt,
            life := s.life - dt)
  }

  /** A sequence of updates. */
  function Run(s: ParticleState, dts: seq<real>): ParticleState
    decreases |dts|
  {
    if dts == [] then s else Run(Step(s, dts[0]), dts[1..])
  }

  lemma {:induction false} SumNonNegative(dts: seq<real>)
    requires forall i :: 0 <= i < |dts| ==> dts[i] >= 0.0
    ensures Sum(dts) >= 0.0
    decreases |dts|
  {
    if dts != [] {
      SumNonNegative(dts[1..]);
    }
  }

  /** A particle lives exactly its life: while less time than its life has
      passed it is alive with that much life used up, and once at least its
      life has passed it is dead. Its kind, velocity, scale and maximum life
      never change. */
  lemma {:induction false} Lifetime(s: ParticleState, dts: seq<real>)
    requires forall i :: 0 <= i < |dts| ==> dts[i] >= 0.0
    ensures Sum(dts) < s.life ==> Alive(Run(s, dts)) && Run(s, dts).life == s.life - Sum(dts)
    ensures Sum(dts) >= s.life ==> !Alive(Run(s, dts))
    ensures var r := Run(s, dts);
      r.kind == s.kind && r.velocity == s.velocity && r.scale == s.scale && r.maxLife == s.maxLife
    decreases |dts|
  {
    if dts != [] {
      var s' := Step(s, dts[0]);
      Lifetime(s', dts[1..]);
      if !Alive(s) {
        SumNonNegative(dts);
        DeadStaysDead(s', dts[1..]);
      } else if !Alive(s') {
        DeadStaysDead(s', dts[1..]);
        SumNonNegative(dts[1..]);
      }
    }
  }

  lemma {:induction false} DeadStaysDead(s: ParticleState, dts: seq<real>)
    requires !Alive(s)
    ensures Run(s, dts) == s
    decreases |dts|
  {
    if dts != [] {
      DeadStaysDead(Step(s, dts[0]), dts[1..]);
    }
  }

  /** `Particle`. The kind and maximum life are set only by the constructor. */
  class Particle {
    var position: Vec
    var velocity: Vec
    var scale: real
    var rotation: real
    var rotationSpeed: real
    var life: real
    const maxLife: real
    const kind: ParticleType

    function State(): ParticleState
      reads this
    {
      ParticleState(position, velocity, scale, rotation, rotationSpeed, life, maxLife, kind)
    }

    constructor (position: Vec, velocity: Vec, scale: real, life: real, kind: ParticleType)
      ensures State() == Initial(position, velocity, scale, life, kind)
    {
      this.position := position;
      this.velocity := velocity;
      this.scale := scale;
      this.life := life;
      maxLife := life;
      this.kind := kind;
      rotation := 0.0;
      rotationSpeed := 0.0;
    }

    function IsAlive(): (alive: bool)
      reads this
      ensures alive <==> Alive(State())
    {
      life > 0.0
    }

    method Update(dt: real)
      modifies this
      ensures State() == Step(old(State()), dt)
    {
      if !IsAlive() {
        return;
      }
      position := Add(position, Scale(velocity, dt));
      rotation := rotation + rotationSpeed * dt;
      life := life - dt;
    }
  }
}
