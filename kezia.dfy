/**
 * Kezia, the homing enemy: for its first KeziaTrackingDuration seconds it
 * turns toward the player at a limited rate, then flies straight on and is
 * destroyed once it has left the screen.
 */
module KeziaEntity {
  import opened Geometry
  import opened GameConfig

  /** Everything `Kezia.Update` reads or writes. */
  datatype KeziaState = KeziaState(
    position: Vec,
    velocity: Vec,
    rotation: real,
    lifeTimer: real,
    tracking: bool,
    bounds: Rect,
    isAlive: bool)

  /** `UpdateBounds`: a KeziaWidth x KeziaHeight box centred on the position by truncation. */
  function Bounds(p: Vec): (r: Rect)
    ensures r.width == KeziaWidth && r.height == KeziaHeight
    ensures (r.x + KeziaWidth / 2) as real - 1.0 < p.x < (r.x + KeziaWidth / 2) as real + 1.0
    ensures (r.y + KeziaHeight / 2) as real - 1.0 < p.y < (r.y + KeziaHeight / 2) as real + 1.0
  {
    Rect(Trunc(p.x - (KeziaWidth / 2) as real), Trunc(p.y - (KeziaHeight / 2) as real),
         KeziaWidth, KeziaHeight)
  }

  /** `IsOffScreen`: outside the screen by more than max(KeziaWidth, KeziaHeight). */
  predicate OffScreen(p: Vec) {
    var margin := Max(KeziaWidth, KeziaHeight) as real;
    p.x < -margin || p.x > ScreenWidth as real + margin ||
    p.y < -margin || p.y > ScreenHeight as real + margin
  }

  /** `CheckCollision`: a live Kezia whose box meets the player's. */
  predicate Hits(s: KeziaState, playerBounds: Rect) {
    s.isAlive && Intersects(s.bounds, playerBounds)
  }

  /** The state the constructor builds. */
  function Initial(start: Vec, initialRotation: real): (s: KeziaState)
    ensures s.isAlive && s.tracking && s.lifeTimer == 0.0
    ensures s.position == start && s.rotation == initialRotation && s.velocity == Zero
    ensures s.bounds == Bounds(start)
  {
    KeziaState(start, Zero, initialRotation, 0.0, true, Bounds(start), true)
  }

  /** The heading toward the player, when the player is not exactly here. */
  function Heading(position: Vec, player: Vec, trig: Trig): real {
    var n := trig.normalize(Sub(player, position));
    trig.atan2(n.y, n.x)
  }

  /** The rotation after one tick's turn, `tracking` being the flag after
      this tick's timer check. */
  function Turned(position: Vec, rotation: real, tracking: bool, dt: real, player: Vec, trig: Trig): real {
    if tracking && Sub(player, position) != Zero then
      var target := Heading(position, player, trig);
      TurnToward(rotation, target, WrapAngle(target - rotation), KeziaTurnRate * dt)
    else rotation
  }

  /** One `Kezia.Update` of `dt` seconds with the player at `player`. */
  function Step(s: KeziaState, dt: real, player: Vec, trig: Trig): (r: KeziaState)
    ensures !s.isAlive ==> r == s
    ensures s.isAlive ==> r.lifeTimer == s.lifeTimer + dt
    ensures s.isAlive ==> (r.tracking <==> s.tracking && s.lifeTimer + dt < KeziaTrackingDuration)
    ensures s.isAlive && !r.tracking ==> r.rotation == s.rotation
    ensures s.isAlive ==>
      r.velocity == Vec(trig.cos(r.rotation) * KeziaSpeed, trig.sin(r.rotation) * KeziaSpeed)
    ensures s.isAlive ==> r.position == Add(s.position, Scale(r.velocity, dt))
    ensures s.isAlive ==> r.bounds == Bounds(r.position)
    ensures s.isAlive ==> (r.isAlive <==> r.tracking || !OffScreen(r.position))
  {
    if !s.isAlive then s
    else
      var lifeTimer := s.lifeTimer + dt;
      var tracking := s.tracking && !(lifeTimer >= KeziaTrackingDuration);
      var rotation := Turned(s.position, s.rotation, tracking, dt, player, trig);
      var velocity := Vec(trig.cos(rotation) * KeziaSpeed, trig.sin(rotation) * KeziaSpeed);
      var position := Add(s.position, Scale(velocity, dt));
      KeziaState(position, velocity, rotation, lifeTimer, tracking, Bounds(position),
                 !(OffScreen(position) && !tracking))
  }

  /** While tracking, a live Kezia's turn lands on the heading to the player
      or moves exactly KeziaTurnRate * dt toward it, the shorter way round. */
  lemma TrackingTurn(s: KeziaState, dt: real, player: Vec, trig: Trig)
    requires s.isAlive && dt >= 0.0
    requires Step(s, dt, player, trig).tracking && Sub(player, s.position) != Zero
    ensures var target := Heading(s.position, player, trig);
      var diff := WrapAngle(target - s.rotation);
      var r := Step(s, dt, player, trig).rotation;
      -Pi < diff <= Pi && SameAngle(diff, target - s.rotation) &&
      (Abs(diff) <= KeziaTurnRate * dt ==> r == target) &&
      (Abs(diff) > KeziaTurnRate * dt ==>
         r == s.rotation + Sign(diff) as real * KeziaTurnRate * dt &&
         Abs(r - s.rotation) == KeziaTurnRate * dt)
  {
    var target := Heading(s.position, player, trig);
    WrapAngleSameAngle(target - s.rotation);
    TurnApproaches(s.rotation, target, WrapAngle(target - s.rotation), KeziaTurnRate * dt);
  }

  /** The tracking flag is exactly "less than KeziaTrackingDuration seconds old". */
  ghost predicate Valid(s: KeziaState) {
    s.tracking <==> s.lifeTimer < KeziaTrackingDuration
  }

  lemma InitialValid(start: Vec, initialRotation: real)
    ensures Valid(Initial(start, initialRotation))
  {
  }

  lemma StepValid(s: KeziaState, dt: real, player: Vec, trig: Trig)
    requires Valid(s) && dt >= 0.0
    ensures Valid(Step(s, dt, player, trig))
  {
  }

  /** A sequence of updates with the elapsed times `dts` and the player positions `players`. */
  function Run(s: KeziaState, dts: seq<real>, players: seq<Vec>, trig: Trig): KeziaState
    requires |dts| == |players|
    decreases |dts|
  {
    if dts == [] then s else Run(Step(s, dts[0], players[0], trig), dts[1..], players[1..], trig)
  }

  /** Once tracking has stopped it never resumes, and a Kezia once dead stays dead. */
  lemma {:induction false} MonotoneRun(s: KeziaState, dts: seq<real>, players: seq<Vec>, trig: Trig)
    requires |dts| == |players|
    ensures !s.tracking ==> !Run(s, dts, players, trig).tracking
    ensures !s.isAlive ==> Run(s, dts, players, trig) == s
    decreases |dts|
  {
    if dts != [] {
      MonotoneRun(Step(s, dts[0], players[0], trig), dts[1..], players[1..], trig);
    }
  }

  /** Whatever the updates, a Kezia is tracking for as long as it is younger
      than KeziaTrackingDuration and never after. */
  lemma {:induction false} ValidRun(s: KeziaState, dts: seq<real>, players: seq<Vec>, trig: Trig)
    requires |dts| == |players| && Valid(s)
    requires forall i :: 0 <= i < |dts| ==> dts[i] >= 0.0
    ensures Valid(Run(s, dts, players, trig))
    decreases |dts|
  {
    if dts != [] {
      StepValid(s, dts[0], players[0], trig);
      ValidRun(Step(s, dts[0], players[0], trig), dts[1..], players[1..], trig);
    }
  }

  class Kezia {
    var position: Vec
    var velocity: Vec
    var rotation: real
    var lifeTimer: real
    var tracking: bool
    var bounds: Rect
    var isAlive: bool

    function State(): KeziaState
      reads this
    {
      KeziaState(position, velocity, rotation, lifeTimer, tracking, bounds, isAlive)
    }

    constructor (startPosition: Vec, initialRotation: real)
      ensures State() == Initial(startPosition, initialRotation)
    {
      position := startPosition;
      velocity := Zero;
      rotation := initialRotation;
      lifeTimer := 0.0;
      tracking := true;
      isAlive := true;
      bounds := Bounds(startPosition);
    }

    method Update(dt: real, playerPosition: Vec, trig: Trig)
      modifies this
      ensures State() == Step(old(State()), dt, playerPosition, trig)
    {
      if !isAlive {
        return;
      }
      lifeTimer := lifeTimer + dt;
      if lifeTimer >= KeziaTrackingDuration {
        tracking := false;
      }
      if tracking {
        TurnTowardPlayer(dt, playerPosition, trig);
      }
      velocity := Vec(trig.cos(rotation) * KeziaSpeed, trig.sin(rotation) * KeziaSpeed);
      position := Add(position, Scale(velocity, dt));
      bounds := Bounds(position);
      if OffScreen(position) && !tracking {
        isAlive := false;
      }
    }

    /** The turn of one tracking tick toward the player. */
    method TurnTowardPlayer(dt: real, playerPosition: Vec, trig: Trig)
      requires tracking
      modifies this
      ensures State() == old(State()).(rotation := Turned(old(position), old(rotation), true, dt, playerPosition, trig))
    {
      var directionToPlayer := Sub(playerPosition, position);
      if directionToPlayer != Zero {
        var n := trig.normalize(directionToPlayer);
        var targetRotation := trig.atan2(n.y, n.x);
        var rotationDifference := WrapAngle(targetRotation - rotation);
        var maxRotationChange := KeziaTurnRate * dt;
        if Abs(rotationDifference) <= maxRotationChange {
          rotation := targetRotation;
        } else {
          rotation := rotation + Sign(rotationDifference) as real * maxRotationChange;
        }
      }
    }

    /** `CheckCollision`: a live Kezia whose box meets the player's. */
    function CheckCollision(playerBounds: Rect): (hit: bool)
      reads this
      ensures hit <==> Hits(State(), playerBounds)
    {
      isAlive && Intersects(bounds, playerBounds)
    }

    method Destroy()
      modifies this
      ensures State() == old(State()).(isAlive := false)
    {
      isAlive := false;
    }
  }
}
