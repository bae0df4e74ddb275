/**
 * The Card projectile fired by Joel: it flies in a straight line at the
 * velocity fixed when it was fired, spins, and dies once it leaves the
 * screen by more than its own size.
 */
module CardEntity {
  import opened Geometry
  import opened GameConfig

  /** Everything `Card.Update` reads or writes (the trail timer is drawing state). */
  datatype CardState = CardState(
    position: Vec,
    velocity: Vec,
    rotation: real,
    spinSpeed: real,
    bounds: Rect,
    isAlive: bool)

  /** `UpdateBounds`: a CardWidth x CardHeight box centred on the position by truncation. */
  function Bounds(p: Vec): (r: Rect)
    ensures r.width == CardWidth && r.height == CardHeight
    ensures (r.x + CardWidth / 2) as real - 1.0 < p.x < (r.x + CardWidth / 2) as real + 1.0
    ensures (r.y + CardHeight / 2) as real - 1.0 < p.y < (r.y + CardHeight / 2) as real + 1.0
  {
    Rect(Trunc(p.x - (CardWidth / 2) as real), Trunc(p.y - (CardHeight / 2) as real), CardWidth, CardHeight)
  }

  /** `IsOffScreen`: outside the screen by more than max(CardWidth, CardHeight). */
  predicate OffScreen(p: Vec) {
    var margin := Max(CardWidth, CardHeight) as real;
    p.x < -margin || p.x > ScreenWidth as real + margin ||
    p.y < -margin || p.y > ScreenHeight as real + margin
  }

  /** `CheckCollision`: a live card whose box meets the player's. */
  predicate Hits(s: CardState, playerBounds: Rect) {
    s.isAlive && Intersects(s.bounds, playerBounds)
  }

  /** The state the constructor builds for a card fired at `direction`. */
  function Initial(start: Vec, direction: real, trig: Trig): (s: CardState)
    ensures s.isAlive && s.position == start && s.rotation == direction && s.spinSpeed == 8.0
    ensures s.velocity == Vec(trig.cos(direction) * CardSpeed, trig.sin(direction) * CardSpeed)
    ensures s.bounds == Bounds(start)
  {
    CardState(start, Vec(trig.cos(direction) * CardSpeed, trig.sin(direction) * CardSpeed),
              direction, 8.0, Bounds(start), true)
  }

  /** One `Card.Update` of `dt` seconds. */
  function Step(s: CardState, dt: real): (r: CardState)
    ensures !s.isAlive ==> r == s
    ensures r.velocity == s.velocity && r.spinSpeed == s.spinSpeed
    ensures s.isAlive ==> r.position == Add(s.position, Scale(s.velocity, dt))
    ensures s.isAlive ==> r.rotation == s.rotation + s.spinSpeed * dt
    ensures s.isAlive ==> (r.isAlive <==> !OffScreen(r.position))
    ensures s.isAlive ==> r.bounds == Bounds(r.position)
  {
    if !s.isAlive then s
    else
      var p := Add(s.position, Scale(s.velocity, dt));
      s.(position := p, rotation := s.rotation + s.spinSpeed * dt,
         bounds := Bounds(p), isAlive := !OffScreen(p))
  }

  /** A sequence of updates. */
  function Run(s: CardState, dts: seq<real>): CardState
    decreases |dts|
  {
    if dts == [] then s else Run(Step(s, dts[0]), dts[1..])
  }

  /** A card still alive after a run of updates was alive at every step
      before it, so each step moved it. */
  lemma {:induction false} AliveThroughout(s: CardState, dts: seq<real>)
    requires Run(s, dts).isAlive
    ensures s.isAlive
    ensures dts != [] ==> Run(Step(s, dts[0]), dts[1..]).isAlive && Step(s, dts[0]).isAlive
    decreases |dts|
  {
    if !s.isAlive {
      DeadStaysDead(s, dts);
      assert false;
    }
    if dts != [] {
      AliveThroughout(Step(s, dts[0]), dts[1..]);
    }
  }

  /** A card keeps the velocity it was fired with, whatever happens to it. */
  lemma {:induction false} VelocityFixed(s: CardState, dts: seq<real>)
    ensures Run(s, dts).velocity == s.velocity && Run(s, dts).spinSpeed == s.spinSpeed
    decreases |dts|
  {
    if dts != [] {
      VelocityFixed(Step(s, dts[0]), dts[1..]);
    }
  }

  /** A card that is still alive after any number of updates has moved in a
      straight line: its displacement is its velocity times the total
      elapsed time. */
  lemma {:induction false} StraightLine(s: CardState, dts: seq<real>)
    requires Run(s, dts).isAlive
    ensures Run(s, dts).position == Add(s.position, Scale(s.velocity, Sum(dts)))
    decreases |dts|
  {
    if dts != [] {
      var s', rest := Step(s, dts[0]), dts[1..];
      AliveThroughout(s, dts);
      StraightLine(s', rest);
      AddScaleSum(s.position, s.velocity, dts[0], Sum(rest));
    }
  }

  /** Once dead, no update brings a card back. */
  lemma {:induction false} DeadStaysDead(s: CardState, dts: seq<real>)
    requires !s.isAlive
    ensures Run(s, dts) == s
    decreases |dts|
  {
    if dts != [] {
      DeadStaysDead(Step(s, dts[0]), dts[1..]);
    }
  }

  class Card {
    var position: Vec
    var velocity: Vec
    var rotation: real
    var spinSpeed: real
    var bounds: Rect
    var isAlive: bool

    function State(): CardState
      reads this
    {
      CardState(position, velocity, rotation, spinSpeed, bounds, isAlive)
    }

    constructor (startPosition: Vec, direction: real, trig: Trig)
      ensures State() == Initial(startPosition, direction, trig)
    {
      position := startPosition;
      rotation := direction;
      spinSpeed := 8.0;
      velocity := Vec(trig.cos(direction) * CardSpeed, trig.sin(direction) * CardSpeed);
      isAlive := true;
      bounds := Bounds(startPosition);
    }

    method Update(dt: real)
      modifies this
      ensures State() == Step(old(State()), dt)
    {
      if !isAlive {
        return;
      }
      rotation := rotation + spinSpeed * dt;
      position := Add(position, Scale(velocity, dt));
      bounds := Bounds(position);
      if OffScreen(position) {
        isAlive := false;
      }
    }

    /** `CheckCollision`: a live card whose box meets the player's. */
    function CheckCollision(playerBounds: Rect): (hit: bool)
      reads this
      ensures hit <==> Hits(State(), playerBounds)
    {
      isAlive && Intersects(bounds, playerBounds)
    }

    method Destroy()
      modifies this
      ensures State() == old(State()).(isAlive := false)
    {
      isAlive := false;
    }
  }
}
