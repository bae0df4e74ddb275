/**
 * The spawning rules of `EnemyManager`: the difficulty ramp that shortens
 * the spawn interval, where a new enemy appears and where its warning is
 * shown, and `SpawnWarning`, the one-second telegraph that turns into
 * exactly one enemy when it completes.
 *
 * `Random.Next` draws are the fields of a `SpawnRoll`, in the order the
 * source draws them.
 */
module Spawning {
  import opened Geometry
  import opened GameConfig
  import K = KeziaEntity
  import J = JoelEntity

  /** `SpawnWarning.EnemySpawnType`. */
  datatype EnemySpawnType = KeziaSpawn | JoelSpawn

  /** How long every warning is shown, in seconds. */
  const WarningDuration: real := 1.0

  /** How far inside the screen edge a warning is drawn. */
  const EdgeInset: real := 5.0

  const ScreenCenter: Vec := Vec(ScreenWidth as real / 2.0, ScreenHeight as real / 2.0)

  /** `CalculateCurrentSpawnInterval`: an ease-in ramp from
      InitialSpawnInterval down to MinSpawnInterval over
      DifficultyRampDuration seconds of game time. */
  function SpawnInterval(gameTime: real): (r: real)
    ensures r <= InitialSpawnInterval
    ensures gameTime >= 0.0 ==> MinSpawnInterval <= r
    ensures gameTime >= DifficultyRampDuration ==> r == MinSpawnInterval
    ensures gameTime == 0.0 ==> r == InitialSpawnInterval
  {
    var progress := if gameTime / DifficultyRampDuration < 1.0 then gameTime / DifficultyRampDuration else 1.0;
    var eased := progress * progress;
    assert gameTime >= 0.0 ==> 0.0 <= eased <= 1.0 by {
      if gameTime >= 0.0 {
        SquareInUnit(progress);
      }
    }
    InitialSpawnInterval + (MinSpawnInterval - InitialSpawnInterval) * eased
  }

  /** Enemies never come slower as the game goes on. */
  lemma SpawnIntervalMonotone(t1: real, t2: real)
    requires 0.0 <= t1 <= t2
    ensures SpawnInterval(t2) <= SpawnInterval(t1)
  {
    var p1 := if t1 / DifficultyRampDuration < 1.0 then t1 / DifficultyRampDuration else 1.0;
    var p2 := if t2 / DifficultyRampDuration < 1.0 then t2 / DifficultyRampDuration else 1.0;
    assert 0.0 <= p1 <= p2;
    assert p1 * p1 <= p1 * p2 <= p2 * p2;
    var e1, e2 := p1 * p1, p2 * p2;
    assert e1 <= e2;
    assert SpawnInterval(t1) == InitialSpawnInterval + (MinSpawnInterval - InitialSpawnInterval) * e1;
    assert SpawnInterval(t2) == InitialSpawnInterval + (MinSpawnInterval - InitialSpawnInterval) * e2;
    assert (MinSpawnInterval - InitialSpawnInterval) * e2 <= (MinSpawnInterval - InitialSpawnInterval) * e1;
  }

  /** `GetScreenEdgePosition`: a coordinate off the screen is pulled to
      EdgeInset inside the edge it crossed; one on the screen is kept. */
  function ScreenEdgePosition(p: Vec): (e: Vec)
    ensures 0.0 <= e.x <= ScreenWidth as real && 0.0 <= e.y <= ScreenHeight as real
    ensures 0.0 <= p.x <= ScreenWidth as real ==> e.x == p.x
    ensures 0.0 <= p.y <= ScreenHeight as real ==> e.y == p.y
    ensures p.x < 0.0 ==> e.x == EdgeInset
    ensures p.x > ScreenWidth as real ==> e.x == ScreenWidth as real - EdgeInset
    ensures p.y < 0.0 ==> e.y == EdgeInset
    ensures p.y > ScreenHeight as real ==> e.y == ScreenHeight as real - EdgeInset
  {
    var x := if p.x < 0.0 then EdgeInset
             else if p.x > ScreenWidth as real then ScreenWidth as real - EdgeInset
             else p.x;
    var y := if p.y < 0.0 then EdgeInset
             else if p.y > ScreenHeight as real then ScreenHeight as real - EdgeInset
             else p.y;
    Vec(x, y)
  }

  lemma ScreenEdgeIdempotent(p: Vec)
    ensures ScreenEdgePosition(ScreenEdgePosition(p)) == ScreenEdgePosition(p)
  {
  }

  /** The largest coordinate `Random.Next(0, n)` may give along `side`. */
  function EdgeLength(side: int): int {
    if side % 2 == 0 then ScreenWidth else ScreenHeight
  }

  /** `GetRandomSpawnPositionForSide`: `distance` beyond edge `side`
      (0 top, 1 right, 2 bottom, 3 left) at `along` pixels along it; any
      other side gives the origin. */
  function SpawnPositionForSide(side: int, distance: real, along: int): (p: Vec)
    ensures side == 0 ==> p == Vec(along as real, -distance)
    ensures side == 1 ==> p == Vec(ScreenWidth as real + distance, along as real)
    ensures side == 2 ==> p == Vec(along as real, ScreenHeight as real + distance)
    ensures side == 3 ==> p == Vec(-distance, along as real)
    ensures !(0 <= side < 4) ==> p == Zero
  {
    if side == 0 then Vec(along as real, -distance)
    else if side == 1 then Vec(ScreenWidth as real + distance, along as real)
    else if side == 2 then Vec(along as real, ScreenHeight as real + distance)
    else if side == 3 then Vec(-distance, along as real)
    else Zero
  }

  /** A spawn position is strictly off the screen, beyond its own edge, and
      its warning is shown EdgeInset inside that same edge at the same place
      along it. */
  lemma SpawnBeyondEdge(side: int, distance: real, along: int)
    requires 0 <= side < 4 && distance > 0.0 && 0 <= along < EdgeLength(side)
    ensures var p := SpawnPositionForSide(side, distance, along);
      !(0.0 <= p.x <= ScreenWidth as real && 0.0 <= p.y <= ScreenHeight as real)
    ensures var e := ScreenEdgePosition(SpawnPositionForSide(side, distance, along));
      (side == 0 ==> e == Vec(along as real, EdgeInset)) &&
      (side == 1 ==> e == Vec(ScreenWidth as real - EdgeInset, along as real)) &&
      (side == 2 ==> e == Vec(along as real, ScreenHeight as real - EdgeInset)) &&
      (side == 3 ==> e == Vec(EdgeInset, along as real))
  {
  }

  /** A Joel's spawn point lies only JoelSpawnDistance beyond its edge,
      inside the off-screen margin of max(JoelWidth, JoelHeight). A
      retreating Joel that is back at its spawn point is therefore not off
      screen: it survives its update and goes on retreating. */
  lemma {:induction false} RetreatAtSpawnSurvives(roll: SpawnRoll, s: J.JoelState, dt: real, player: Vec, trig: Trig)
    requires ValidRoll(roll) && s.isAlive && s.phase == J.Retreating
    requires s.position == SpawnPositionForSide(roll.side, JoelSpawnDistance, roll.along)
    ensures !J.OffScreen(s.position)
    ensures J.Step(s, dt, player, trig).isAlive && J.Step(s, dt, player, trig).phase == J.Retreating
  {
    J.StepFacts(s, dt, player, trig);
  }

  /** The three draws behind one spawn: the enemy type (`Next(2)`), the side
      (`Next(4)`) and the place along it (`Next(0, length)`). */
  datatype SpawnRoll = SpawnRoll(coin: int, side: int, along: int)

  predicate ValidRoll(r: SpawnRoll) {
    0 <= r.coin < 2 && 0 <= r.side < 4 && 0 <= r.along < EdgeLength(r.side)
  }

  /** A warning's fields. */
  datatype Warning = Warning(
    spawnPosition: Vec,
    warningPosition: Vec,
    kind: EnemySpawnType,
    spawnSide: int,
    timer: real,
    duration: real)

  /** `IsComplete`. */
  predicate Complete(w: Warning) { w.timer >= w.duration }

  /** `InitiateSpawnWarning`: a Kezia on a coin of 0 (its side stays the
      default -1), a Joel otherwise, each announced at the screen edge. */
  function NewWarning(roll: SpawnRoll): (w: Warning)
    ensures w.timer == 0.0 && w.duration == WarningDuration && !Complete(w)
    ensures w.kind == (if roll.coin == 0 then KeziaSpawn else JoelSpawn)
    ensures w.spawnSide == (if roll.coin == 0 then -1 else roll.side)
    ensures w.warningPosition == ScreenEdgePosition(w.spawnPosition)
    ensures ValidRoll(roll) ==>
      !(0.0 <= w.spawnPosition.x <= ScreenWidth as real && 0.0 <= w.spawnPosition.y <= ScreenHeight as real)
  {
    if roll.coin == 0 then
      var p := SpawnPositionForSide(roll.side, KeziaSpawnDistance, roll.along);
      SpawnBeyondEdgeFor(roll, KeziaSpawnDistance);
      Warning(p, ScreenEdgePosition(p), KeziaSpawn, -1, 0.0, WarningDuration)
    else
      var p := SpawnPositionForSide(roll.side, JoelSpawnDistance, roll.along);
      SpawnBeyondEdgeFor(roll, JoelSpawnDistance);
      Warning(p, ScreenEdgePosition(p), JoelSpawn, roll.side, 0.0, WarningDuration)
  }

  lemma SpawnBeyondEdgeFor(roll: SpawnRoll, distance: real)
    requires distance > 0.0
    ensures ValidRoll(roll) ==>
      var p := SpawnPositionForSide(roll.side, distance, roll.along);
      !(0.0 <= p.x <= ScreenWidth as real && 0.0 <= p.y <= ScreenHeight as real)
  {
    if ValidRoll(roll) {
      SpawnBeyondEdge(roll.side, distance, roll.along);
    }
  }

  /** `SpawnKeziaAtPosition`'s initial rotation: facing the screen centre. */
  function SpawnRotation(p: Vec, trig: Trig): real {
    var toCenter := Sub(ScreenCenter, p);
    trig.atan2(toCenter.y, toCenter.x)
  }

  /** Every warning's timer advanced by `dt`. */
  function Tick(ws: seq<Warning>, dt: real): (r: seq<Warning>)
    ensures |r| == |ws|
    ensures forall j :: 0 <= j < |ws| ==> r[j] == ws[j].(timer := ws[j].timer + dt)
  {
    seq(|ws|, j requires 0 <= j < |ws| => ws[j].(timer := ws[j].timer + dt))
  }

  /** The warnings still counting down after a pass, in their order. */
  function Pending(ws: seq<Warning>): seq<Warning>
    decreases |ws|
  {
    if ws == [] then []
    else (if Complete(ws[0]) then [] else [ws[0]]) + Pending(ws[1..])
  }

  /** The Kezias a pass over `ws` spawns. The pass runs from the last
      warning to the first, so the last complete warning comes first. */
  function KeziaSpawns(ws: seq<Warning>, trig: Trig): seq<K.KeziaState>
    decreases |ws|
  {
    if ws == [] then [] else
      KeziaSpawns(ws[1..], trig) +
      (if Complete(ws[0]) && ws[0].kind == KeziaSpawn
       then [K.Initial(ws[0].spawnPosition, SpawnRotation(ws[0].spawnPosition, trig))] else [])
  }

  /** The Joels a pass over `ws` spawns, each on its warning's side. */
  function JoelSpawns(ws: seq<Warning>, trig: Trig): seq<J.JoelState>
    decreases |ws|
  {
    if ws == [] then [] else
      JoelSpawns(ws[1..], trig) +
      (if Complete(ws[0]) && ws[0].kind == JoelSpawn
       then [J.Initial(ws[0].spawnPosition, ws[0].spawnSide, trig)] else [])
  }

  /** A pass from index `i` on: warning `i`, if still pending, before the
      later pending ones; the spawns of the later warnings, then the one of
      warning `i`, if it is complete. */
  lemma SpawnsFrom(ws: seq<Warning>, i: int, trig: Trig)
    requires 0 <= i < |ws|
    ensures Pending(ws[i..]) == (if Complete(ws[i]) then [] else [ws[i]]) + Pending(ws[i + 1..])
    ensures KeziaSpawns(ws[i..], trig) == KeziaSpawns(ws[i + 1..], trig) +
      (if Complete(ws[i]) && ws[i].kind == KeziaSpawn
       then [K.Initial(ws[i].spawnPosition, SpawnRotation(ws[i].spawnPosition, trig))] else [])
    ensures JoelSpawns(ws[i..], trig) == JoelSpawns(ws[i + 1..], trig) +
      (if Complete(ws[i]) && ws[i].kind == JoelSpawn
       then [J.Initial(ws[i].spawnPosition, ws[i].spawnSide, trig)] else [])
  {
    assert ws[i..][0] == ws[i] && ws[i..][1..] == ws[i + 1..];
  }

  /** The number of complete warnings of `kind` in `ws`. */
  function CompleteCount(ws: seq<Warning>, kind: EnemySpawnType): nat
    decreases |ws|
  {
    if ws == [] then 0
    else (if Complete(ws[0]) && ws[0].kind == kind then 1 else 0) + CompleteCount(ws[1..], kind)
  }

  /** Each warning either stays pending or becomes exactly one enemy of its
      own kind: as many Kezias as complete Kezia warnings, as many Joels as
      complete Joel warnings, and the pending ones are exactly the
      incomplete ones. */
  lemma {:induction false} WarningsResolve(ws: seq<Warning>, trig: Trig)
    ensures |KeziaSpawns(ws, trig)| == CompleteCount(ws, KeziaSpawn)
    ensures |JoelSpawns(ws, trig)| == CompleteCount(ws, JoelSpawn)
    ensures |Pending(ws)| + |KeziaSpawns(ws, trig)| + |JoelSpawns(ws, trig)| == |ws|
    ensures forall w :: w in Pending(ws) <==> w in ws && !Complete(w)
    decreases |ws|
  {
    if ws != [] {
      WarningsResolve(ws[1..], trig);
      assert forall w :: w in ws <==> w == ws[0] || w in ws[1..];
    }
  }

  /** Every Joel spawned starts from a complete Joel warning's position and
      side. */
  lemma {:induction false} JoelsFromWarnings(ws: seq<Warning>, trig: Trig)
    ensures forall k :: 0 <= k < |JoelSpawns(ws, trig)| ==>
      exists w :: (w in ws && Complete(w) && w.kind == JoelSpawn &&
                   JoelSpawns(ws, trig)[k] == J.Initial(w.spawnPosition, w.spawnSide, trig))
    decreases |ws|
  {
    if ws != [] {
      JoelsFromWarnings(ws[1..], trig);
      var js := JoelSpawns(ws[1..], trig);
      forall k | 0 <= k < |JoelSpawns(ws, trig)|
        ensures exists w :: (w in ws && Complete(w) && w.kind == JoelSpawn &&
                             JoelSpawns(ws, trig)[k] == J.Initial(w.spawnPosition, w.spawnSide, trig))
      {
        if k < |js| {
          assert JoelSpawns(ws, trig)[k] == js[k];
          var w :| w in ws[1..] && Complete(w) && w.kind == JoelSpawn &&
                   js[k] == J.Initial(w.spawnPosition, w.spawnSide, trig);
          assert w in ws;
        } else {
          assert ws[0] in ws && JoelSpawns(ws, trig)[k] == J.Initial(ws[0].spawnPosition, ws[0].spawnSide, trig);
        }
      }
    } else {
      assert |JoelSpawns(ws, trig)| == 0;
    }
  }

  /** Every Kezia spawned starts from a complete Kezia warning's position,
      facing the screen centre. */
  lemma {:induction false} KeziasFromWarnings(ws: seq<Warning>, trig: Trig)
    ensures forall k :: 0 <= k < |KeziaSpawns(ws, trig)| ==>
      exists w :: (w in ws && Complete(w) && w.kind == KeziaSpawn &&
                   KeziaSpawns(ws, trig)[k] == K.Initial(w.spawnPosition, SpawnRotation(w.spawnPosition, trig)))
    decreases |ws|
  {
    if ws != [] {
      KeziasFromWarnings(ws[1..], trig);
      var ks := KeziaSpawns(ws[1..], trig);
      forall k | 0 <= k < |KeziaSpawns(ws, trig)|
        ensures exists w :: (w in ws && Complete(w) && w.kind == KeziaSpawn &&
                             KeziaSpawns(ws, trig)[k] == K.Initial(w.spawnPosition, SpawnRotation(w.spawnPosition, trig)))
      {
        if k < |ks| {
          assert KeziaSpawns(ws, trig)[k] == ks[k];
          var w :| w in ws[1..] && Complete(w) && w.kind == KeziaSpawn &&
                   ks[k] == K.Initial(w.spawnPosition, SpawnRotation(w.spawnPosition, trig));
          assert w in ws;
        } else {
          assert ws[0] in ws &&
            KeziaSpawns(ws, trig)[k] == K.Initial(ws[0].spawnPosition, SpawnRotation(ws[0].spawnPosition, trig));
        }
      }
    } else {
      assert |KeziaSpawns(ws, trig)| == 0;
    }
  }

  /** Conversely, every complete Joel warning spawns a Joel at its position
      on its side. */
  lemma {:induction false} JoelWarningsSpawn(ws: seq<Warning>, trig: Trig)
    ensures forall w :: w in ws && Complete(w) && w.kind == JoelSpawn ==>
      J.Initial(w.spawnPosition, w.spawnSide, trig) in JoelSpawns(ws, trig)
    decreases |ws|
  {
    if ws != [] {
      JoelWarningsSpawn(ws[1..], trig);
      forall w | w in ws && Complete(w) && w.kind == JoelSpawn
        ensures J.Initial(w.spawnPosition, w.spawnSide, trig) in JoelSpawns(ws, trig)
      {
        if w != ws[0] { assert w in ws[1..]; }
      }
    }
  }

  /** Conversely, every complete Kezia warning spawns a Kezia at its
      position, facing the screen centre. */
  lemma {:induction false} KeziaWarningsSpawn(ws: seq<Warning>, trig: Trig)
    ensures forall w :: w in ws && Complete(w) && w.kind == KeziaSpawn ==>
      K.Initial(w.spawnPosition, SpawnRotation(w.spawnPosition, trig)) in KeziaSpawns(ws, trig)
    decreases |ws|
  {
    if ws != [] {
      KeziaWarningsSpawn(ws[1..], trig);
      forall w | w in ws && Complete(w) && w.kind == KeziaSpawn
        ensures K.Initial(w.spawnPosition, SpawnRotation(w.spawnPosition, trig)) in KeziaSpawns(ws, trig)
      {
        if w != ws[0] { assert w in ws[1..]; }
      }
    }
  }

  /** The square of a ramp progress stays in [0, 1]. */
  lemma SquareInUnit(p: real)
    requires 0.0 <= p <= 1.0
    ensures 0.0 <= p * p <= 1.0
  {
    assert p * p <= p * 1.0;
  }

  /** `SpawnWarning`: only the timer changes after construction. */
  class SpawnWarning {
    const spawnPosition: Vec
    const warningPosition: Vec
    const kind: EnemySpawnType
    const spawnSide: int
    const duration: real
    var timer: real

    function Data(): Warning
      reads this
    {
      Warning(spawnPosition, warningPosition, kind, spawnSide, timer, duration)
    }

    constructor (spawnPosition: Vec, warningPosition: Vec, kind: EnemySpawnType, duration: real, spawnSide: int)
      ensures Data() == Warning(spawnPosition, warningPosition, kind, spawnSide, 0.0, duration)
    {
      this.spawnPosition := spawnPosition;
      this.warningPosition := warningPosition;
      this.kind := kind;
      this.spawnSide := spawnSide;
      this.duration := duration;
      timer := 0.0;
    }

    function IsComplete(): (done: bool)
      reads this
      ensures done <==> Complete(Data())
    {
      timer >= duration
    }

    method Update(dt: real)
      modifies this
      ensures Data() == old(Data()).(timer := old(timer) + dt)
    {
      timer := timer + dt;
    }
  }
}
