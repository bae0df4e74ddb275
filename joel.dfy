/**
 * Joel, the turret enemy: it approaches a point just inside its spawn edge,
 * tracks the player for JoelTrackingDuration seconds firing a Card every
 * JoelCardFireRate seconds, then retreats toward its spawn point and is
 * destroyed once more than max(JoelWidth, JoelHeight) pixels off screen,
 * which is farther out than the spawn point itself. The phases only ever
 * move forward.
 */
module JoelEntity {
  import opened Geometry
  import opened GameConfig
  import CardEntity

  datatype Phase = Approaching | Tracking | Retreating

  /** Position of a phase in the one-way order Approaching, Tracking, Retreating. */
  function Rank(p: Phase): nat {
    match p
    case Approaching => 0
    case Tracking => 1
    case Retreating => 2
  }

  /** Everything `Joel.Update` reads or writes; the last three fields are set
      by the constructor only. */
  datatype JoelState = JoelState(
    position: Vec,
    velocity: Vec,
    rotation: real,
    phase: Phase,
    stateTimer: real,
    cardFireTimer: real,
    isChargingUp: bool,
    chargeTimer: real,
    bounds: Rect,
    isAlive: bool,
    spawnSide: int,
    spawnPosition: Vec,
    targetPosition: Vec)

  /** `UpdateBounds`: a JoelWidth x JoelHeight box placed by truncation; the
      integer halving of JoelHeight puts the centre half a pixel low. */
  function Bounds(p: Vec): (r: Rect)
    ensures r.width == JoelWidth && r.height == JoelHeight
    ensures (r.x + JoelWidth / 2) as real - 1.0 < p.x < (r.x + JoelWidth / 2) as real + 1.0
    ensures (r.y + JoelHeight / 2) as real - 1.0 < p.y < (r.y + JoelHeight / 2) as real + 1.0
  {
    Rect(Trunc(p.x - (JoelWidth / 2) as real), Trunc(p.y - (JoelHeight / 2) as real),
         JoelWidth, JoelHeight)
  }

  /** `IsOffScreen`: outside the screen by more than max(JoelWidth, JoelHeight). */
  predicate OffScreen(p: Vec) {
    var margin := Max(JoelWidth, JoelHeight) as real;
    p.x < -margin || p.x > ScreenWidth as real + margin ||
    p.y < -margin || p.y > ScreenHeight as real + margin
  }

  /** `CheckCollision`: a live Joel whose box meets the player's. */
  predicate Hits(s: JoelState, playerBounds: Rect) {
    s.isAlive && Intersects(s.bounds, playerBounds)
  }

  /** `CalculateTargetPosition`: JoelApproachDistance inside the spawn edge,
      keeping the other coordinate; an unknown side targets the start itself. */
  function TargetPosition(start: Vec, side: int): (t: Vec)
    ensures 0 <= side < 4 ==> (side % 2 == 0 ==> t.x == start.x) && (side % 2 == 1 ==> t.y == start.y)
    ensures side == 0 ==> t.y == JoelApproachDistance
    ensures side == 1 ==> t.x == ScreenWidth as real - JoelApproachDistance
    ensures side == 2 ==> t.y == ScreenHeight as real - JoelApproachDistance
    ensures side == 3 ==> t.x == JoelApproachDistance
    ensures !(0 <= side < 4) ==> t == start
  {
    match side
    case 0 => Vec(start.x, JoelApproachDistance)
    case 1 => Vec(ScreenWidth as real - JoelApproachDistance, start.y)
    case 2 => Vec(start.x, ScreenHeight as real - JoelApproachDistance)
    case 3 => Vec(JoelApproachDistance, start.y)
    case _ => start
  }

  /** `SetRetreatRotation` (and the fallback of `SetApproachRotation`): the
      long axis horizontal for the top and bottom edges, vertical for the sides. */
  function SideRotation(side: int): real {
    match side
    case 1 => PiOver2
    case 3 => PiOver2
    case _ => 0.0
  }

  /** `SetApproachRotation`: the short axis toward the screen centre. */
  function ApproachRotation(start: Vec, side: int, trig: Trig): real {
    var toCentre := Sub(Vec(ScreenWidth as real / 2.0, ScreenHeight as real / 2.0), start);
    if toCentre != Zero then
      var n := trig.normalize(toCentre);
      trig.atan2(n.y, n.x) + PiOver2
    else SideRotation(side)
  }

  /** The state the constructor builds. */
  function Initial(start: Vec, side: int, trig: Trig): (s: JoelState)
    ensures s.isAlive && s.phase == Approaching
    ensures s.stateTimer == 0.0 && s.cardFireTimer == 0.0 && s.chargeTimer == 0.0 && !s.isChargingUp
    ensures s.position == start && s.spawnPosition == start && s.spawnSide == side
    ensures s.targetPosition == TargetPosition(start, side) && s.velocity == Zero
    ensures s.rotation == ApproachRotation(start, side, trig)
    ensures s.bounds == Bounds(start)
  {
    JoelState(start, Zero, ApproachRotation(start, side, trig), Approaching, 0.0, 0.0, false, 0.0,
              Bounds(start), true, side, start, TargetPosition(start, side))
  }

  /** The first wrapping loop of `UpdateTracking`: subtract full turns while above Pi. */
  function WrapDown(d: real): (r: real)
    ensures r <= Pi
    ensures d <= Pi ==> r == d
    ensures d > Pi ==> -Pi < r
    decreases if d > Pi then (d / TwoPi).Floor + 1 else 0
  {
    if d > Pi then WrapDown(d - TwoPi) else d
  }

  /** The second wrapping loop: add full turns while below -Pi. */
  function WrapUp(d: real): (r: real)
    ensures -Pi <= r
    ensures d >= -Pi ==> r == d
    ensures d < -Pi ==> r < Pi
    decreases if d < -Pi then (-d / TwoPi).Floor + 1 else 0
  {
    if d < -Pi then WrapUp(d + TwoPi) else d
  }

  /** The rotation difference after both loops. */
  function ShortestDifference(d: real): (r: real)
    ensures -Pi <= r <= Pi
    ensures -Pi <= d <= Pi ==> r == d
  {
    WrapUp(WrapDown(d))
  }

  lemma {:induction false} WrapDownSameAngle(d: real)
    ensures SameAngle(WrapDown(d), d)
    decreases if d > Pi then (d / TwoPi).Floor + 1 else 0
  {
    if d > Pi {
      WrapDownSameAngle(d - TwoPi);
      var k: int :| WrapDown(d - TwoPi) - (d - TwoPi) == Turns(k);
      assert WrapDown(d) - d == Turns(k - 1);
    } else {
      assert WrapDown(d) - d == Turns(0);
    }
  }

  lemma {:induction false} WrapUpSameAngle(d: real)
    ensures SameAngle(WrapUp(d), d)
    decreases if d < -Pi then (-d / TwoPi).Floor + 1 else 0
  {
    if d < -Pi {
      WrapUpSameAngle(d + TwoPi);
      var k: int :| WrapUp(d + TwoPi) - (d + TwoPi) == Turns(k);
      assert WrapUp(d) - d == Turns(k + 1);
    } else {
      assert WrapUp(d) - d == Turns(0);
    }
  }

  /** The loops only remove whole turns: the result names the same angle. */
  lemma ShortestDifferenceSameAngle(d: real)
    ensures SameAngle(ShortestDifference(d), d)
  {
    WrapDownSameAngle(d);
    WrapUpSameAngle(WrapDown(d));
    var j: int :| WrapDown(d) - d == Turns(j);
    var k: int :| WrapUp(WrapDown(d)) - WrapDown(d) == Turns(k);
    assert ShortestDifference(d) - d == Turns(j + k);
  }

  /** The heading that points Joel's short axis at the player. */
  function TrackingTarget(position: Vec, player: Vec, trig: Trig): real {
    var n := trig.normalize(Sub(player, position));
    trig.atan2(n.y, n.x) + PiOver2
  }

  /** The rotation after the turn of `UpdateTracking`. */
  function TrackingRotation(position: Vec, rotation: real, dt: real, player: Vec, trig: Trig): real {
    if Sub(player, position) != Zero then
      var target := TrackingTarget(position, player, trig);
      TurnToward(rotation, target, ShortestDifference(target - rotation), JoelTurnRate * dt)
    else rotation
  }

  /** Whether this tick of a live Joel fires a card. */
  predicate Fires(s: JoelState, dt: real) {
    s.isAlive && s.phase == Tracking && s.cardFireTimer + dt >= JoelCardFireRate
  }

  /** The direction of the card fired: the short axis after this tick's turn. */
  function CardDirection(s: JoelState, dt: real, player: Vec, trig: Trig): real {
    TrackingRotation(s.position, s.rotation, dt, player, trig) - PiOver2
  }

  /** `UpdateApproaching`, on a state whose stateTimer has already advanced. */
  function ApproachStep(s: JoelState, trig: Trig): (r: JoelState)
    requires s.phase == Approaching
    ensures r.position == s.position && r.isAlive == s.isAlive && r.rotation == s.rotation
    ensures r.phase == Tracking <==> trig.length(Sub(s.targetPosition, s.position)) <= 5.0
    ensures r.phase == Tracking ==> r.velocity == Zero && r.stateTimer == 0.0
    ensures r.phase != Tracking ==> r == s.(velocity := r.velocity) && r.phase == Approaching
  {
    var toTarget := Sub(s.targetPosition, s.position);
    if trig.length(toTarget) <= 5.0 then
      s.(phase := Tracking, stateTimer := 0.0, velocity := Zero)
    else
      s.(velocity := Scale(trig.normalize(toTarget), JoelSpeed))
  }

  /** `UpdateTracking`, on a state whose stateTimer has already advanced. */
  function TrackingStep(s: JoelState, dt: real, player: Vec, trig: Trig): JoelState {
    var t := Cadence(s.(velocity := Zero, rotation := TrackingRotation(s.position, s.rotation, dt, player, trig)), dt);
    if t.stateTimer >= JoelTrackingDuration then
      t.(phase := Retreating, stateTimer := 0.0, rotation := SideRotation(s.spawnSide))
    else t
  }

  /** The fire cadence of `UpdateTracking`: the charge-up starts once the fire
      timer reaches JoelCardFireRate - 0.5, and a shot resets all three timers. */
  function Cadence(s: JoelState, dt: real): JoelState {
    var fireTimer := s.cardFireTimer + dt;
    var startCharge := fireTimer >= JoelCardFireRate - 0.5 && !s.isChargingUp;
    var charging := s.isChargingUp || startCharge;
    var chargeTimer := (if startCharge then 0.0 else s.chargeTimer) + (if charging then dt else 0.0);
    if fireTimer >= JoelCardFireRate then
      s.(cardFireTimer := 0.0, isChargingUp := false, chargeTimer := 0.0)
    else
      s.(cardFireTimer := fireTimer, isChargingUp := charging, chargeTimer := chargeTimer)
  }

  /** `UpdateRetreating`: head for the spawn point at JoelSpeed, keeping the
      old velocity once there; die if already off screen. */
  function RetreatStep(s: JoelState, trig: Trig): (r: JoelState)
    ensures r.position == s.position && r.phase == s.phase
    ensures r.isAlive <==> s.isAlive && !OffScreen(s.position)
    ensures Sub(s.spawnPosition, s.position) != Zero ==>
      r.velocity == Scale(trig.normalize(Sub(s.spawnPosition, s.position)), JoelSpeed)
    ensures Sub(s.spawnPosition, s.position) == Zero ==> r.velocity == s.velocity
  {
    var toSpawn := Sub(s.spawnPosition, s.position);
    var moved := if toSpawn != Zero then s.(velocity := Scale(trig.normalize(toSpawn), JoelSpeed)) else s;
    if OffScreen(s.position) then moved.(isAlive := false) else moved
  }

  /** One `Joel.Update` of `dt` seconds with the player at `player`. */
  function Step(s: JoelState, dt: real, player: Vec, trig: Trig): JoelState {
    if !s.isAlive then s
    else
      Move(PhaseStep(s.(stateTimer := s.stateTimer + dt), dt, player, trig), dt)
  }

  /** The move at the end of `Joel.Update`, with its new bounds. */
  function Move(u: JoelState, dt: real): JoelState {
    var p := Add(u.position, Scale(u.velocity, dt));
    u.(position := p, bounds := Bounds(p))
  }

  /** The phase dispatch of `Joel.Update`. */
  function PhaseStep(t: JoelState, dt: real, player: Vec, trig: Trig): JoelState {
    match t.phase
      case Approaching => ApproachStep(t, trig)
      case Tracking => TrackingStep(t, dt, player, trig)
      case Retreating => RetreatStep(t, trig)
  }

  /** What one update does, phase by phase. */
  lemma StepFacts(s: JoelState, dt: real, player: Vec, trig: Trig)
    ensures var r := Step(s, dt, player, trig);
      (!s.isAlive ==> r == s) &&
      r.spawnSide == s.spawnSide && r.spawnPosition == s.spawnPosition &&
      r.targetPosition == s.targetPosition &&
      (s.isAlive ==> r.position == Add(s.position, Scale(r.velocity, dt)) && r.bounds == Bounds(r.position)) &&
      (s.isAlive ==> Rank(s.phase) <= Rank(r.phase) <= Rank(s.phase) + 1) &&
      (s.isAlive && s.phase != Retreating ==> r.isAlive) &&
      (s.isAlive && s.phase == Retreating ==> (r.isAlive <==> !OffScreen(s.position)))
  {
  }

  /** Approaching ends exactly when Joel is within 5 of its target; it then
      stops and restarts the state timer. */
  lemma ApproachFacts(s: JoelState, dt: real, player: Vec, trig: Trig)
    requires s.isAlive && s.phase == Approaching
    ensures var r := Step(s, dt, player, trig);
      (r.phase == Tracking <==> trig.length(Sub(s.targetPosition, s.position)) <= 5.0) &&
      (r.phase == Tracking ==> r.velocity == Zero && r.stateTimer == 0.0 && r.position == s.position) &&
      (r.phase == Approaching ==>
         r.stateTimer == s.stateTimer + dt &&
         r.velocity == Scale(trig.normalize(Sub(s.targetPosition, s.position)), JoelSpeed))
  {
  }

  /** Retreating: Joel heads for its spawn point at JoelSpeed (keeping its
      velocity once exactly there), moves by that velocity, stays
      Retreating, and survives exactly while not off screen. */
  lemma RetreatFacts(s: JoelState, dt: real, player: Vec, trig: Trig)
    requires s.isAlive && s.phase == Retreating
    ensures var r := Step(s, dt, player, trig);
      r.phase == Retreating && r.stateTimer == s.stateTimer + dt &&
      (r.isAlive <==> !OffScreen(s.position)) &&
      r.position == Add(s.position, Scale(r.velocity, dt)) &&
      (Sub(s.spawnPosition, s.position) != Zero ==>
         r.velocity == Scale(trig.normalize(Sub(s.spawnPosition, s.position)), JoelSpeed)) &&
      (Sub(s.spawnPosition, s.position) == Zero ==> r.velocity == s.velocity)
  {
  }

  /** Tracking: Joel stands still, turns the short way toward the player by
      at most JoelTurnRate * dt, fires when the fire timer reaches
      JoelCardFireRate (resetting the fire cadence), and retreats, facing
      outward, once the state timer reaches JoelTrackingDuration. */
  lemma TrackingFacts(s: JoelState, dt: real, player: Vec, trig: Trig)
    requires s.isAlive && s.phase == Tracking
    ensures var r := Step(s, dt, player, trig);
      r.velocity == Zero && r.position == s.position &&
      (r.phase == Retreating <==> s.stateTimer + dt >= JoelTrackingDuration) &&
      (r.phase == Retreating ==> r.stateTimer == 0.0 && r.rotation == SideRotation(s.spawnSide)) &&
      (r.phase == Tracking ==>
         r.stateTimer == s.stateTimer + dt && r.rotation == TrackingRotation(s.position, s.rotation, dt, player, trig)) &&
      (Fires(s, dt) ==> r.cardFireTimer == 0.0 && !r.isChargingUp && r.chargeTimer == 0.0) &&
      (!Fires(s, dt) ==>
         r.cardFireTimer == s.cardFireTimer + dt &&
         (r.isChargingUp <==> s.isChargingUp || s.cardFireTimer + dt >= JoelCardFireRate - 0.5))
  {
  }

  /** The turn while tracking lands on the target heading or moves by exactly
      JoelTurnRate * dt toward it, by a difference in [-Pi, Pi] that names the
      same angle as the raw difference. */
  lemma TrackingTurn(s: JoelState, dt: real, player: Vec, trig: Trig)
    requires dt >= 0.0 && Sub(player, s.position) != Zero
    ensures var target := TrackingTarget(s.position, player, trig);
      var diff := ShortestDifference(target - s.rotation);
      var r := TrackingRotation(s.position, s.rotation, dt, player, trig);
      -Pi <= diff <= Pi && SameAngle(diff, target - s.rotation) &&
      (Abs(diff) <= JoelTurnRate * dt ==> r == target) &&
      (Abs(diff) > JoelTurnRate * dt ==>
         r == s.rotation + Sign(diff) as real * JoelTurnRate * dt &&
         Abs(r - s.rotation) == JoelTurnRate * dt)
  {
    var target := TrackingTarget(s.position, player, trig);
    ShortestDifferenceSameAngle(target - s.rotation);
    TurnApproaches(s.rotation, target, ShortestDifference(target - s.rotation), JoelTurnRate * dt);
  }

  /** The timer invariants of a live Joel: the charge-up is on exactly from
      JoelCardFireRate - 0.5 seconds of the fire cadence until the shot, the
      charge timer counts the charge-up, and a tracking Joel stands still
      for less than JoelTrackingDuration seconds. */
  ghost predicate Valid(s: JoelState) {
    0.0 <= s.stateTimer &&
    0.0 <= s.cardFireTimer < JoelCardFireRate &&
    (s.isChargingUp <==> s.cardFireTimer >= JoelCardFireRate - 0.5) &&
    (s.isChargingUp ==> s.cardFireTimer - (JoelCardFireRate - 0.5) <= s.chargeTimer <= s.cardFireTimer) &&
    (!s.isChargingUp ==> s.chargeTimer == 0.0) &&
    (s.phase == Approaching ==> s.cardFireTimer == 0.0) &&
    (s.phase == Tracking ==> s.velocity == Zero && s.stateTimer < JoelTrackingDuration)
  }

  lemma InitialValid(start: Vec, side: int, trig: Trig)
    ensures Valid(Initial(start, side, trig))
  {
  }

  lemma StepValid(s: JoelState, dt: real, player: Vec, trig: Trig)
    requires Valid(s) && dt >= 0.0
    ensures Valid(Step(s, dt, player, trig))
  {
    if s.isAlive && s.phase == Tracking {
      TrackingFacts(s, dt, player, trig);
    }
  }

  /** A sequence of updates. */
  function Run(s: JoelState, dts: seq<real>, players: seq<Vec>, trig: Trig): JoelState
    requires |dts| == |players|
    decreases |dts|
  {
    if dts == [] then s else Run(Step(s, dts[0], players[0], trig), dts[1..], players[1..], trig)
  }

  /** There is no way back: across any run the phase never moves backward, a
      dead Joel stays dead, and only a retreating Joel dies. */
  lemma {:induction false} ForwardRun(s: JoelState, dts: seq<real>, players: seq<Vec>, trig: Trig)
    requires |dts| == |players|
    ensures Rank(s.phase) <= Rank(Run(s, dts, players, trig).phase)
    ensures !s.isAlive ==> Run(s, dts, players, trig) == s
    ensures !Run(s, dts, players, trig).isAlive ==> !s.isAlive || Run(s, dts, players, trig).phase == Retreating
    decreases |dts|
  {
    if dts != [] {
      StepFacts(s, dts[0], players[0], trig);
      ForwardRun(Step(s, dts[0], players[0], trig), dts[1..], players[1..], trig);
    }
  }

  class Joel {
    var position: Vec
    var velocity: Vec
    var rotation: real
    var phase: Phase
    var stateTimer: real
    var cardFireTimer: real
    var isChargingUp: bool
    var chargeTimer: real
    var bounds: Rect
    var isAlive: bool
    const spawnSide: int
    const spawnPosition: Vec
    const targetPosition: Vec

    function State(): JoelState
      reads this
    {
      JoelState(position, velocity, rotation, phase, stateTimer, cardFireTimer, isChargingUp,
                chargeTimer, bounds, isAlive, spawnSide, spawnPosition, targetPosition)
    }

    constructor (startPosition: Vec, side: int, trig: Trig)
      ensures State() == Initial(startPosition, side, trig)
    {
      position := startPosition;
      spawnPosition := startPosition;
      spawnSide := side;
      velocity := Zero;
      phase := Approaching;
      stateTimer := 0.0;
      cardFireTimer := 0.0;
      isChargingUp := false;
      chargeTimer := 0.0;
      isAlive := true;
      targetPosition := TargetPosition(startPosition, side);
      rotation := ApproachRotation(startPosition, side, trig);
      bounds := Bounds(startPosition);
    }

    /** `Joel.Update`; `cards` is the caller's card list, returned with the
        card this tick fires, if any, appended. */
    method Update(dt: real, playerPosition: Vec, trig: Trig, cards: seq<CardEntity.Card>)
      returns (newCards: seq<CardEntity.Card>)
      modifies this
      ensures State() == Step(old(State()), dt, playerPosition, trig)
      ensures !Fires(old(State()), dt) ==> newCards == cards
      ensures Fires(old(State()), dt) ==>
        |newCards| == |cards| + 1 && newCards[..|cards|] == cards && fresh(newCards[|cards|]) &&
        newCards[|cards|].State() ==
          CardEntity.Initial(old(position), CardDirection(old(State()), dt, playerPosition, trig), trig)
    {
      newCards := cards;
      if !isAlive {
        return;
      }
      stateTimer := stateTimer + dt;
      newCards := UpdatePhase(dt, playerPosition, trig, cards);
      MoveBy(dt);
    }

    /** The move at the end of `Update`. */
    method MoveBy(dt: real)
      modifies this
      ensures State() == Move(old(State()), dt)
    {
      position := Add(position, Scale(velocity, dt));
      bounds := Bounds(position);
    }

    /** The phase dispatch of `Update`. */
    method UpdatePhase(dt: real, playerPosition: Vec, trig: Trig, cards: seq<CardEntity.Card>)
      returns (newCards: seq<CardEntity.Card>)
      modifies this
      ensures State() == PhaseStep(old(State()), dt, playerPosition, trig)
      ensures !(old(phase) == Tracking && old(cardFireTimer) + dt >= JoelCardFireRate) ==> newCards == cards
      ensures old(phase) == Tracking && old(cardFireTimer) + dt >= JoelCardFireRate ==>
        |newCards| == |cards| + 1 && newCards[..|cards|] == cards && fresh(newCards[|cards|]) &&
        newCards[|cards|].State() ==
          CardEntity.Initial(old(position), TrackingRotation(old(position), old(rotation), dt, playerPosition, trig) - PiOver2, trig)
    {
      newCards := cards;
      match phase {
        case Approaching =>
          UpdateApproaching(trig);
        case Tracking =>
          newCards := UpdateTracking(dt, playerPosition, trig, cards);
        case Retreating =>
          UpdateRetreating(trig);
      }
    }

    method UpdateApproaching(trig: Trig)
      requires phase == Approaching
      modifies this
      ensures State() == ApproachStep(old(State()), trig)
    {
      var directionToTarget := Sub(targetPosition, position);
      if trig.length(directionToTarget) <= 5.0 {
        phase := Tracking;
        stateTimer := 0.0;
        velocity := Zero;
      } else {
        velocity := Scale(trig.normalize(directionToTarget), JoelSpeed);
      }
    }

    method UpdateTracking(dt: real, playerPosition: Vec, trig: Trig, cards: seq<CardEntity.Card>)
      returns (newCards: seq<CardEntity.Card>)
      modifies this
      ensures State() == TrackingStep(old(State()), dt, playerPosition, trig)
      ensures old(cardFireTimer) + dt < JoelCardFireRate ==> newCards == cards
      ensures old(cardFireTimer) + dt >= JoelCardFireRate ==>
        |newCards| == |cards| + 1 && newCards[..|cards|] == cards && fresh(newCards[|cards|]) &&
        newCards[|cards|].State() ==
          CardEntity.Initial(old(position), TrackingRotation(old(position), old(rotation), dt, playerPosition, trig) - PiOver2, trig)
    {
      velocity := Zero;
      TurnTowardPlayer(dt, playerPosition, trig);
      newCards := UpdateCadence(dt, trig, cards);
      if stateTimer >= JoelTrackingDuration {
        phase := Retreating;
        stateTimer := 0.0;
        rotation := SideRotation(spawnSide);
      }
    }

    /** The card fire timer and charge-up of `UpdateTracking`. */
    method UpdateCadence(dt: real, trig: Trig, cards: seq<CardEntity.Card>)
      returns (newCards: seq<CardEntity.Card>)
      modifies this
      ensures State() == Cadence(old(State()), dt)
      ensures old(cardFireTimer) + dt < JoelCardFireRate ==> newCards == cards
      ensures old(cardFireTimer) + dt >= JoelCardFireRate ==>
        |newCards| == |cards| + 1 && newCards[..|cards|] == cards && fresh(newCards[|cards|]) &&
        newCards[|cards|].State() == CardEntity.Initial(old(position), old(rotation) - PiOver2, trig)
    {
      newCards := cards;
      cardFireTimer := cardFireTimer + dt;
      if cardFireTimer >= JoelCardFireRate - 0.5 && !isChargingUp {
        isChargingUp := true;
        chargeTimer := 0.0;
      }
      if isChargingUp {
        chargeTimer := chargeTimer + dt;
      }
      if cardFireTimer >= JoelCardFireRate {
        newCards := FireCard(trig, cards);
        cardFireTimer := 0.0;
        isChargingUp := false;
        chargeTimer := 0.0;
      }
    }

    /** The rate-limited turn of `UpdateTracking`, the difference wrapped
        into [-Pi, Pi] by the two loops of the source. */
    method TurnTowardPlayer(dt: real, playerPosition: Vec, trig: Trig)
      modifies this
      ensures State() == old(State()).(rotation := TrackingRotation(old(position), old(rotation), dt, playerPosition, trig))
    {
      var directionToPlayer := Sub(playerPosition, position);
      if directionToPlayer != Zero {
        var targetRotation := TrackingTarget(position, playerPosition, trig);
        var rotationDifference := targetRotation - rotation;
        ghost var d0 := rotationDifference;
        while rotationDifference > Pi
          invariant WrapDown(rotationDifference) == WrapDown(d0)
          decreases (rotationDifference / TwoPi).Floor + 1
        {
          rotationDifference := rotationDifference - TwoPi;
        }
        while rotationDifference < -Pi
          invariant WrapUp(rotationDifference) == WrapUp(WrapDown(d0))
          decreases (-rotationDifference / TwoPi).Floor + 1
        {
          rotationDifference := rotationDifference + TwoPi;
        }
        var maxRotationChange := JoelTurnRate * dt;
        if Abs(rotationDifference) <= maxRotationChange {
          rotation := targetRotation;
        } else {
          rotation := rotation + Sign(rotationDifference) as real * maxRotationChange;
        }
      }
    }

    method UpdateRetreating(trig: Trig)
      modifies this
      ensures State() == RetreatStep(old(State()), trig)
    {
      var directionToSpawn := Sub(spawnPosition, position);
      if directionToSpawn != Zero {
        velocity := Scale(trig.normalize(directionToSpawn), JoelSpeed);
      }
      if OffScreen(position) {
        isAlive := false;
      }
    }

    /** `FireCard`: a new card at Joel's position along its short axis. */
    method FireCard(trig: Trig, cards: seq<CardEntity.Card>) returns (newCards: seq<CardEntity.Card>)
      ensures |newCards| == |cards| + 1 && newCards[..|cards|] == cards && fresh(newCards[|cards|])
      ensures newCards[|cards|].State() == CardEntity.Initial(position, rotation - PiOver2, trig)
    {
      var card := new CardEntity.Card(position, rotation - PiOver2, trig);
      newCards := cards + [card];
    }

    /** `CheckCollision`: a live Joel whose box meets the player's. */
    function CheckCollision(playerBounds: Rect): (hit: bool)
      reads this
      ensures hit <==> Hits(State(), playerBounds)
    {
      isAlive && Intersects(bounds, playerBounds)
    }

    method Destroy()
      modifies this
      ensures State() == old(State()).(isAlive := false)
    {
      isAlive := false;
    }
  }
}
