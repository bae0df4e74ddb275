/**
 * The player's square: moved by the arrow keys at PlayerSpeed, slowed on
 * diagonals, kept inside the screen, and worn down by damage that stops at
 * zero health.
 */
module PlayerEntity {
  import opened Geometry
  import opened GameConfig

  const HalfSize: real := PlayerSize as real / 2.0

  /** `GetInputDirection`: Up and Left count -1, Down and Right +1. */
  function InputDirection(up: bool, down: bool, left: bool, right: bool): (d: Vec)
    ensures d.x == -1.0 || d.x == 0.0 || d.x == 1.0
    ensures d.y == -1.0 || d.y == 0.0 || d.y == 1.0
    ensures d.x == 0.0 <==> left == right
    ensures d.x == -1.0 <==> left && !right
    ensures d.y == 0.0 <==> up == down
    ensures d.y == -1.0 <==> up && !down
  {
    var y := (if up then -1.0 else 0.0) + (if down then 1.0 else 0.0);
    var x := (if left then -1.0 else 0.0) + (if right then 1.0 else 0.0);
    Vec(x, y)
  }

  /** Where the centre of the player may be: the square must stay on screen. */
  predicate InArena(p: Vec) {
    HalfSize <= p.x <= ScreenWidth as real - HalfSize &&
    HalfSize <= p.y <= ScreenHeight as real - HalfSize
  }

  /** `ApplyBoundaryConstraints`: each coordinate is pulled back to the
      nearest position that keeps the square on screen. */
  function Constrain(p: Vec): (r: Vec)
    ensures InArena(r)
    ensures InArena(p) ==> r == p
    ensures r.x == p.x || (p.x < HalfSize && r.x == HalfSize) ||
            (p.x > ScreenWidth as real - HalfSize && r.x == ScreenWidth as real - HalfSize)
    ensures r.y == p.y || (p.y < HalfSize && r.y == HalfSize) ||
            (p.y > ScreenHeight as real - HalfSize && r.y == ScreenHeight as real - HalfSize)
  {
    var x := if p.x - HalfSize < 0.0 then HalfSize
             else if p.x + HalfSize > ScreenWidth as real then ScreenWidth as real - HalfSize
             else p.x;
    var y := if p.y - HalfSize < 0.0 then HalfSize
             else if p.y + HalfSize > ScreenHeight as real then ScreenHeight as real - HalfSize
             else p.y;
    Vec(x, y)
  }

  lemma ConstrainIdempotent(p: Vec)
    ensures Constrain(Constrain(p)) == Constrain(p)
  {
  }

  /** Everything `Player.Update` and `TakeDamage` read or write (the trail
      timer is drawing state). */
  datatype PlayerState = PlayerState(
    position: Vec,
    velocity: Vec,
    rotation: real,
    bounds: Rect,
    lastPosition: Vec,
    health: int)

  /** The collision box: the truncated centre less half the size. */
  function BoxAt(p: Vec): Rect {
    Rect(Trunc(p.x) - PlayerSize / 2, Trunc(p.y) - PlayerSize / 2, PlayerSize, PlayerSize)
  }

  function Initial(start: Vec): (s: PlayerState)
    ensures s.health == InitialHealth && s.position == start && s.lastPosition == start
    ensures s.velocity == Zero && s.rotation == 0.0 && s.bounds == BoxAt(start)
  {
    PlayerState(start, Zero, 0.0, BoxAt(start), start, InitialHealth)
  }

  /** The direction of travel: the key direction, scaled by the diagonal
      normaliser when two axes are pressed. */
  function Heading(dir: Vec): Vec {
    if dir.x != 0.0 && dir.y != 0.0 then Scale(dir, DiagonalMovementNormalizer) else dir
  }

  /** The rotation and velocity an update gives for the key direction `dir`. */
  function Steer(s: PlayerState, dir: Vec, trig: Trig): PlayerState {
    if dir != Zero then
      var h := Heading(dir);
      s.(rotation := trig.atan2(h.y, h.x), velocity := Scale(h, PlayerSpeed))
    else s.(velocity := Zero)
  }

  /** The move of an update: advance by the velocity, constrain, and move the box. */
  function Move(s: PlayerState, dt: real): PlayerState {
    var p := Constrain(Add(s.position, Scale(s.velocity, dt)));
    s.(lastPosition := s.position, position := p,
       bounds := s.bounds.(x := Trunc(p.x) - PlayerSize / 2, y := Trunc(p.y) - PlayerSize / 2))
  }

  /** One `Player.Update` of `dt` seconds with the given keys held. */
  function Step(s: PlayerState, dt: real, up: bool, down: bool, left: bool, right: bool,
                trig: Trig): PlayerState
  {
    Move(Steer(s, InputDirection(up, down, left, right), trig), dt)
  }

  /** What an update promises: the player stays on screen with its box
      following its truncated centre, health is untouched, and the previous
      position is remembered. */
  lemma StepFacts(s: PlayerState, dt: real, up: bool, down: bool, left: bool, right: bool, trig: Trig)
    ensures var r := Step(s, dt, up, down, left, right, trig);
      InArena(r.position) && r.health == s.health && r.lastPosition == s.position &&
      r.position == Constrain(Add(s.position, Scale(r.velocity, dt))) &&
      r.bounds.x == r.position.x.Floor - PlayerSize / 2 &&
      r.bounds.y == r.position.y.Floor - PlayerSize / 2 &&
      r.bounds.width == s.bounds.width && r.bounds.height == s.bounds.height
  {
  }

  /** Started on a full-size box, the player's box never leaves the screen. */
  lemma BoxOnScreen(s: PlayerState, dt: real, up: bool, down: bool, left: bool, right: bool, trig: Trig)
    requires s.bounds.width == PlayerSize && s.bounds.height == PlayerSize
    ensures var b := Step(s, dt, up, down, left, right, trig).bounds;
      0 <= b.x && b.x + b.width <= ScreenWidth && 0 <= b.y && b.y + b.height <= ScreenHeight
  {
    StepFacts(s, dt, up, down, left, right, trig);
  }

  /** With no key (or only opposite keys) held the player stops and keeps
      its rotation; otherwise it faces and moves along its heading at
      PlayerSpeed, scaled by DiagonalMovementNormalizer on a diagonal. */
  lemma Steering(s: PlayerState, dt: real, up: bool, down: bool, left: bool, right: bool, trig: Trig)
    ensures var r := Step(s, dt, up, down, left, right, trig);
      var dir := InputDirection(up, down, left, right);
      (dir == Zero ==> r.velocity == Zero && r.rotation == s.rotation) &&
      (dir.x != 0.0 && dir.y != 0.0 ==>
         r.velocity == Vec(dir.x * DiagonalMovementNormalizer * PlayerSpeed,
                           dir.y * DiagonalMovementNormalizer * PlayerSpeed)) &&
      ((dir.x == 0.0) != (dir.y == 0.0) ==> r.velocity == Scale(dir, PlayerSpeed)) &&
      (dir != Zero ==> r.rotation == trig.atan2(Heading(dir).y, Heading(dir).x))
  {
  }

  /** `TakeDamage`: health falls by `damage` but never below zero. */
  function Damaged(s: PlayerState, damage: int): (r: PlayerState)
    ensures r.health >= 0
    ensures s.health >= 0 && damage >= 0 ==> r.health <= s.health
    ensures 0 <= damage <= s.health ==> r.health == s.health - damage
    ensures damage > s.health ==> r.health == 0
    ensures r == s.(health := r.health)
  {
    s.(health := Max(0, s.health - damage))
  }

  class Player {
    var position: Vec
    var velocity: Vec
    var rotation: real
    var bounds: Rect
    var lastPosition: Vec
    var health: int

    function State(): PlayerState
      reads this
    {
      PlayerState(position, velocity, rotation, bounds, lastPosition, health)
    }

    constructor (startPosition: Vec)
      ensures State() == Initial(startPosition)
    {
      position := startPosition;
      lastPosition := startPosition;
      velocity := Zero;
      rotation := 0.0;
      health := InitialHealth;
      bounds := BoxAt(startPosition);
    }

    /** `Player.Update`, the four arrow keys passed in. */
    method Update(dt: real, up: bool, down: bool, left: bool, right: bool, trig: Trig)
      modifies this
      ensures State() == Step(old(State()), dt, up, down, left, right, trig)
    {
      ghost var s0 := State();
      var inputDirection := InputDirection(up, down, left, right);
      ghost var dir := inputDirection;
      if inputDirection != Zero {
        if inputDirection.x != 0.0 && inputDirection.y != 0.0 {
          inputDirection := Scale(inputDirection, DiagonalMovementNormalizer);
        }
        rotation := trig.atan2(inputDirection.y, inputDirection.x);
        velocity := Scale(inputDirection, PlayerSpeed);
      } else {
        velocity := Zero;
      }
      assert State() == Steer(s0, dir, trig);
      var newPosition := Constrain(Add(position, Scale(velocity, dt)));
      lastPosition := position;
      position := newPosition;
      bounds := bounds.(x := Trunc(position.x) - PlayerSize / 2);
      bounds := bounds.(y := Trunc(position.y) - PlayerSize / 2);
    }

    method TakeDamage(damage: int)
      modifies this
      ensures State() == Damaged(old(State()), damage)
    {
      health := Max(0, health - damage);
    }
  }
}
