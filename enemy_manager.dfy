/**
 * `EnemyManager`: the Kezia, Joel and Card lists and the pending spawn
 * warnings. Each update, while the game is active, ticks the warnings and
 * turns the complete ones into enemies, starts a new warning when the spawn
 * timer reaches the current interval, and then updates every Kezia, every
 * Joel (which may fire Cards) and every Card, each list pruned of its dead
 * entities by a reverse-index `RemoveAt` loop.
 *
 * The lists hold the entities' states (`KeziaState`, `JoelState`,
 * `CardState`, `Warning`); one entity update is the `Step` function its
 * class's `Update` method is proved to perform.
 */
module EnemyManagement {
  import opened Geometry
  import opened GameConfig
  import opened Lists
  import opened Spawning
  import K = KeziaEntity
  import J = JoelEntity
  import C = CardEntity

  // ---------------------------------------------------------------------
  // What the update loops leave of each list

  /** The Kezia loop: each Kezia updated, in order, and every one dead
      before or after its update dropped. */
  function KeziaPass(ks: seq<K.KeziaState>, dt: real, player: Vec, trig: Trig): seq<K.KeziaState>
    decreases |ks|
  {
    if ks == [] then [] else
      var s := K.Step(ks[0], dt, player, trig);
      (if s.isAlive then [s] else []) + KeziaPass(ks[1..], dt, player, trig)
  }

  /** The Joel loop's Joels. */
  function JoelPass(js: seq<J.JoelState>, dt: real, player: Vec, trig: Trig): seq<J.JoelState>
    decreases |js|
  {
    if js == [] then [] else
      var s := J.Step(js[0], dt, player, trig);
      (if s.isAlive then [s] else []) + JoelPass(js[1..], dt, player, trig)
  }

  /** The Card loop's Cards. */
  function CardPass(cs: seq<C.CardState>, dt: real): seq<C.CardState>
    decreases |cs|
  {
    if cs == [] then [] else
      var s := C.Step(cs[0], dt);
      (if s.isAlive then [s] else []) + CardPass(cs[1..], dt)
  }

  /** The card one `Joel.Update` fires, if any. */
  function Shot(s: J.JoelState, dt: real, player: Vec, trig: Trig): seq<C.CardState> {
    if J.Fires(s, dt) then [C.Initial(s.position, J.CardDirection(s, dt, player, trig), trig)] else []
  }

  /** The cards the Joel loop fires. It runs from the last Joel to the
      first, so the last firing Joel's card comes first. */
  function Volley(js: seq<J.JoelState>, dt: real, player: Vec, trig: Trig): seq<C.CardState>
    decreases |js|
  {
    if js == [] then [] else Volley(js[1..], dt, player, trig) + Shot(js[0], dt, player, trig)
  }

  /** The Kezia pass from index `i` on, one element unfolded. */
  lemma KeziaPassFrom(ks: seq<K.KeziaState>, i: int, dt: real, player: Vec, trig: Trig)
    requires 0 <= i < |ks|
    ensures KeziaPass(ks[i..], dt, player, trig) ==
      (if K.Step(ks[i], dt, player, trig).isAlive then [K.Step(ks[i], dt, player, trig)] else []) +
      KeziaPass(ks[i + 1..], dt, player, trig)
  {
    assert ks[i..][0] == ks[i] && ks[i..][1..] == ks[i + 1..];
  }

  /** The Joel pass and its cards from index `i` on, one element unfolded. */
  lemma JoelPassFrom(js: seq<J.JoelState>, i: int, dt: real, player: Vec, trig: Trig)
    requires 0 <= i < |js|
    ensures JoelPass(js[i..], dt, player, trig) ==
      (if J.Step(js[i], dt, player, trig).isAlive then [J.Step(js[i], dt, player, trig)] else []) +
      JoelPass(js[i + 1..], dt, player, trig)
    ensures Volley(js[i..], dt, player, trig) == Volley(js[i + 1..], dt, player, trig) + Shot(js[i], dt, player, trig)
  {
    assert js[i..][0] == js[i] && js[i..][1..] == js[i + 1..];
  }

  /** The Card pass from index `i` on, one element unfolded. */
  lemma CardPassFrom(cs: seq<C.CardState>, i: int, dt: real)
    requires 0 <= i < |cs|
    ensures CardPass(cs[i..], dt) ==
      (if C.Step(cs[i], dt).isAlive then [C.Step(cs[i], dt)] else []) + CardPass(cs[i + 1..], dt)
  {
    assert cs[i..][0] == cs[i] && cs[i..][1..] == cs[i + 1..];
  }

  /** A pass keeps exactly the updated entities that are still alive:
      everything kept is alive and was updated, nothing is added, and
      every entity alive after its update is kept. */
  lemma {:induction false} KeziaPassAlive(ks: seq<K.KeziaState>, dt: real, player: Vec, trig: Trig)
    ensures |KeziaPass(ks, dt, player, trig)| <= |ks|
    ensures forall s :: s in KeziaPass(ks, dt, player, trig) ==>
      s.isAlive && exists k :: 0 <= k < |ks| && s == K.Step(ks[k], dt, player, trig)
    ensures forall k :: 0 <= k < |ks| && K.Step(ks[k], dt, player, trig).isAlive ==>
      K.Step(ks[k], dt, player, trig) in KeziaPass(ks, dt, player, trig)
    decreases |ks|
  {
    if ks != [] {
      KeziaPassAlive(ks[1..], dt, player, trig);
      forall s | s in KeziaPass(ks, dt, player, trig)
        ensures s.isAlive && exists k :: 0 <= k < |ks| && s == K.Step(ks[k], dt, player, trig)
      {
        if s !in KeziaPass(ks[1..], dt, player, trig) {
          assert s == K.Step(ks[0], dt, player, trig);
        } else {
          var k :| 0 <= k < |ks[1..]| && s == K.Step(ks[1..][k], dt, player, trig);
          assert s == K.Step(ks[k + 1], dt, player, trig);
        }
      }
      forall k | 0 <= k < |ks| && K.Step(ks[k], dt, player, trig).isAlive
        ensures K.Step(ks[k], dt, player, trig) in KeziaPass(ks, dt, player, trig)
      {
        if k > 0 {
          assert ks[1..][k - 1] == ks[k];
        }
      }
    }
  }

  lemma {:induction false} JoelPassAlive(js: seq<J.JoelState>, dt: real, player: Vec, trig: Trig)
    ensures |JoelPass(js, dt, player, trig)| <= |js|
    ensures forall s :: s in JoelPass(js, dt, player, trig) ==>
      s.isAlive && exists k :: 0 <= k < |js| && s == J.Step(js[k], dt, player, trig)
    ensures forall k :: 0 <= k < |js| && J.Step(js[k], dt, player, trig).isAlive ==>
      J.Step(js[k], dt, player, trig) in JoelPass(js, dt, player, trig)
    decreases |js|
  {
    if js != [] {
      JoelPassAlive(js[1..], dt, player, trig);
      forall s | s in JoelPass(js, dt, player, trig)
        ensures s.isAlive && exists k :: 0 <= k < |js| && s == J.Step(js[k], dt, player, trig)
      {
        if s !in JoelPass(js[1..], dt, player, trig) {
          assert s == J.Step(js[0], dt, player, trig);
        } else {
          var k :| 0 <= k < |js[1..]| && s == J.Step(js[1..][k], dt, player, trig);
          assert s == J.Step(js[k + 1], dt, player, trig);
        }
      }
      forall k | 0 <= k < |js| && J.Step(js[k], dt, player, trig).isAlive
        ensures J.Step(js[k], dt, player, trig) in JoelPass(js, dt, player, trig)
      {
        if k > 0 {
          assert js[1..][k - 1] == js[k];
        }
      }
    }
  }

  lemma {:induction false} CardPassAlive(cs: seq<C.CardState>, dt: real)
    ensures |CardPass(cs, dt)| <= |cs|
    ensures forall s :: s in CardPass(cs, dt) ==>
      s.isAlive && exists k :: 0 <= k < |cs| && s == C.Step(cs[k], dt)
    ensures forall k :: 0 <= k < |cs| && C.Step(cs[k], dt).isAlive ==>
      C.Step(cs[k], dt) in CardPass(cs, dt)
    decreases |cs|
  {
    if cs != [] {
      CardPassAlive(cs[1..], dt);
      forall s | s in CardPass(cs, dt)
        ensures s.isAlive && exists k :: 0 <= k < |cs| && s == C.Step(cs[k], dt)
      {
        if s !in CardPass(cs[1..], dt) {
          assert s == C.Step(cs[0], dt);
        } else {
          var k :| 0 <= k < |cs[1..]| && s == C.Step(cs[1..][k], dt);
          assert s == C.Step(cs[k + 1], dt);
        }
      }
      forall k | 0 <= k < |cs| && C.Step(cs[k], dt).isAlive
        ensures C.Step(cs[k], dt) in CardPass(cs, dt)
      {
        if k > 0 {
          assert cs[1..][k - 1] == cs[k];
        }
      }
    }
  }

  /** Only live Joels in the Tracking phase fire, one card each at most. */
  lemma {:induction false} VolleySize(js: seq<J.JoelState>, dt: real, player: Vec, trig: Trig)
    ensures |Volley(js, dt, player, trig)| <= |js|
    ensures (forall k :: 0 <= k < |js| ==> js[k].phase != J.Tracking) ==> Volley(js, dt, player, trig) == []
    decreases |js|
  {
    if js != [] {
      VolleySize(js[1..], dt, player, trig);
      if forall k :: 0 <= k < |js| ==> js[k].phase != J.Tracking {
        assert forall k :: 0 <= k < |js[1..]| ==> js[1..][k].phase != J.Tracking by {
          forall k | 0 <= k < |js[1..]| ensures js[1..][k].phase != J.Tracking { assert js[1..][k] == js[k + 1]; }
        }
      }
    }
  }

  // ---------------------------------------------------------------------
  // The loops of `EnemyManager.Update`

  /** `SpawnKeziaAtPosition`: one live, tracking Kezia at `spawnPosition`,
      facing the screen centre, is appended. */
  function SpawnKeziaAtPosition(ks: seq<K.KeziaState>, spawnPosition: Vec, trig: Trig): (r: seq<K.KeziaState>)
    ensures |r| == |ks| + 1 && r[..|ks|] == ks
    ensures r[|ks|].isAlive && r[|ks|].tracking && r[|ks|].position == spawnPosition
    ensures r[|ks|].rotation == SpawnRotation(spawnPosition, trig)
  {
    var toCenter := Sub(ScreenCenter, spawnPosition);
    var initialRotation := trig.atan2(toCenter.y, toCenter.x);
    ks + [K.Initial(spawnPosition, initialRotation)]
  }

  /** `SpawnJoelAtPosition`: one live, approaching Joel at `spawnPosition`
      on `spawnSide` is appended. */
  function SpawnJoelAtPosition(js: seq<J.JoelState>, spawnPosition: Vec, spawnSide: int, trig: Trig): (r: seq<J.JoelState>)
    ensures |r| == |js| + 1 && r[..|js|] == js
    ensures r[|js|].isAlive && r[|js|].phase == J.Approaching
    ensures r[|js|].position == spawnPosition && r[|js|].spawnSide == spawnSide
  {
    js + [J.Initial(spawnPosition, spawnSide, trig)]
  }

  /** The warnings loop: every warning is ticked, the complete ones are
      removed, and each of them appends one enemy of its type. */
  method ResolveWarnings(ws: seq<Warning>, ks: seq<K.KeziaState>, js: seq<J.JoelState>, dt: real, trig: Trig)
    returns (open: seq<Warning>, ks': seq<K.KeziaState>, js': seq<J.JoelState>)
    ensures open == Pending(Tick(ws, dt))
    ensures ks' == ks + KeziaSpawns(Tick(ws, dt), trig)
    ensures js' == js + JoelSpawns(Tick(ws, dt), trig)
  {
    ghost var W := Tick(ws, dt);
    open, ks', js' := ws, ks, js;
    var i := |ws|;
    assert ws[..i] == ws && W[i..] == [];
    while i > 0
      invariant 0 <= i <= |ws|
      invariant open == ws[..i] + Pending(W[i..])
      invariant ks' == ks + KeziaSpawns(W[i..], trig)
      invariant js' == js + JoelSpawns(W[i..], trig)
    {
      i := i - 1;
      SpawnsFrom(W, i, trig);
      ghost var rest := Pending(W[i + 1..]);
      Slot(ws, i, rest, W[i]);
      var warning := open[i].(timer := open[i].timer + dt);
      assert warning == W[i];
      if Complete(warning) {
        if warning.kind == KeziaSpawn {
          ks' := SpawnKeziaAtPosition(ks', warning.spawnPosition, trig);
        } else {
          js' := SpawnJoelAtPosition(js', warning.spawnPosition, warning.spawnSide, trig);
        }
        open := RemoveAt(open, i);
      } else {
        open := open[i := warning];
      }
    }
    assert W[0..] == W;
  }

  /** The Kezia loop. */
  method UpdateKezias(ks: seq<K.KeziaState>, dt: real, player: Vec, trig: Trig) returns (live: seq<K.KeziaState>)
    ensures live == KeziaPass(ks, dt, player, trig)
  {
    live := ks;
    var i := |ks|;
    assert ks[..i] == ks && ks[i..] == [];
    while i > 0
      invariant 0 <= i <= |ks|
      invariant live == ks[..i] + KeziaPass(ks[i..], dt, player, trig)
    {
      i := i - 1;
      KeziaPassFrom(ks, i, dt, player, trig);
      Slot(ks, i, KeziaPass(ks[i + 1..], dt, player, trig), K.Step(ks[i], dt, player, trig));
      var enemy := live[i];
      if enemy.isAlive {
        enemy := K.Step(enemy, dt, player, trig);
        if !enemy.isAlive {
          live := RemoveAt(live, i);
        } else {
          live := live[i := enemy];
        }
      } else {
        live := RemoveAt(live, i);
      }
    }
    assert ks[0..] == ks;
  }

  /** The Joel loop: every Joel is updated and the cards fired are
      appended to `cards`. */
  method UpdateJoels(js: seq<J.JoelState>, cards: seq<C.CardState>, dt: real, player: Vec, trig: Trig)
    returns (live: seq<J.JoelState>, cards': seq<C.CardState>)
    ensures live == JoelPass(js, dt, player, trig)
    ensures cards' == cards + Volley(js, dt, player, trig)
  {
    live, cards' := js, cards;
    var i := |js|;
    assert js[..i] == js && js[i..] == [];
    while i > 0
      invariant 0 <= i <= |js|
      invariant live == js[..i] + JoelPass(js[i..], dt, player, trig)
      invariant cards' == cards + Volley(js[i..], dt, player, trig)
    {
      i := i - 1;
      JoelPassFrom(js, i, dt, player, trig);
      Slot(js, i, JoelPass(js[i + 1..], dt, player, trig), J.Step(js[i], dt, player, trig));
      var enemy := live[i];
      if enemy.isAlive {
        cards' := cards' + Shot(enemy, dt, player, trig);
        enemy := J.Step(enemy, dt, player, trig);
        if !enemy.isAlive {
          live := RemoveAt(live, i);
        } else {
          live := live[i := enemy];
        }
      } else {
        live := RemoveAt(live, i);
      }
    }
    assert js[0..] == js;
  }

  /** The Card loop. */
  method UpdateCards(cs: seq<C.CardState>, dt: real) returns (live: seq<C.CardState>)
    ensures live == CardPass(cs, dt)
  {
    live := cs;
    var i := |cs|;
    assert cs[..i] == cs && cs[i..] == [];
    while i > 0
      invariant 0 <= i <= |cs|
      invariant live == cs[..i] + CardPass(cs[i..], dt)
    {
      i := i - 1;
      CardPassFrom(cs, i, dt);
      Slot(cs, i, CardPass(cs[i + 1..], dt), C.Step(cs[i], dt));
      var card := live[i];
      if card.isAlive {
        card := C.Step(card, dt);
        if !card.isAlive {
          live := RemoveAt(live, i);
        } else {
          live := live[i := card];
        }
      } else {
        live := RemoveAt(live, i);
      }
    }
    assert cs[0..] == cs;
  }

  // ---------------------------------------------------------------------
  // One update of the whole manager

  /** The manager's fields. */
  datatype Enemies = Enemies(
    kezias: seq<K.KeziaState>,
    joels: seq<J.JoelState>,
    cards: seq<C.CardState>,
    warnings: seq<Warning>,
    spawnTimer: real,
    gameTime: real)

  /** Whether this tick's spawn timer reaches the interval at the new game time. */
  predicate SpawnDue(e: Enemies, dt: real) {
    e.spawnTimer + dt >= SpawnInterval(e.gameTime + dt)
  }

  /** The first part of `EnemyManager.Update`: both timers advance, and
      the warnings pass turns the complete warnings into enemies. */
  function Resolved(e: Enemies, dt: real, trig: Trig): Enemies {
    var W := Tick(e.warnings, dt);
    e.(kezias := e.kezias + KeziaSpawns(W, trig), joels := e.joels + JoelSpawns(W, trig),
       warnings := Pending(W), spawnTimer := e.spawnTimer + dt, gameTime := e.gameTime + dt)
  }

  /** The spawn check: once the spawn timer reaches the interval for the
      game time, a new warning starts and the timer restarts. */
  function Scheduled(e: Enemies, roll: SpawnRoll): Enemies {
    if e.spawnTimer >= SpawnInterval(e.gameTime)
    then e.(warnings := e.warnings + [NewWarning(roll)], spawnTimer := 0.0)
    else e
  }

  /** The entity passes: Kezias, then Joels, whose cards join the Card list
      before the Cards are updated. */
  function Moved(e: Enemies, dt: real, player: Vec, trig: Trig): Enemies {
    e.(kezias := KeziaPass(e.kezias, dt, player, trig),
       joels := JoelPass(e.joels, dt, player, trig),
       cards := CardPass(e.cards + Volley(e.joels, dt, player, trig), dt))
  }

  /** `EnemyManager.Update` of an active game. */
  function Advance(e: Enemies, dt: real, player: Vec, roll: SpawnRoll, trig: Trig): Enemies {
    Moved(Scheduled(Resolved(e, dt, trig), roll), dt, player, trig)
  }

  /** The liveness test of each entity kind, as flags a count runs over. */
  const KeziaAlive := (s: K.KeziaState) => s.isAlive
  const JoelAlive := (s: J.JoelState) => s.isAlive
  const CardAlive := (s: C.CardState) => s.isAlive

  /** `TotalEnemyCount`: the live Kezias and Joels; cards are not enemies. */
  function EnemyCount(e: Enemies): (n: nat)
    ensures n <= |e.kezias| + |e.joels|
  {
    CountTrue(Flags(e.kezias, KeziaAlive)) + CountTrue(Flags(e.joels, JoelAlive))
  }

  /** The count is the list lengths exactly when every enemy is alive. */
  lemma EnemyCountAll(e: Enemies)
    ensures EnemyCount(e) == |e.kezias| + |e.joels| <==>
      (forall k :: 0 <= k < |e.kezias| ==> e.kezias[k].isAlive) &&
      (forall j :: 0 <= j < |e.joels| ==> e.joels[j].isAlive)
  {
    CountTrueAll(Flags(e.kezias, KeziaAlive));
    CountTrueAll(Flags(e.joels, JoelAlive));
  }

  /** The spawn rule of one update: the timer resets to zero exactly when a
      new warning starts, at most one warning starts, and it is the last. */
  lemma AdvanceSpawns(e: Enemies, dt: real, player: Vec, roll: SpawnRoll, trig: Trig)
    ensures var r := Advance(e, dt, player, roll, trig);
      var pending := |Pending(Tick(e.warnings, dt))|;
      r.gameTime == e.gameTime + dt &&
      (SpawnDue(e, dt) ==>
         r.spawnTimer == 0.0 && |r.warnings| == pending + 1 && r.warnings[pending] == NewWarning(roll)) &&
      (!SpawnDue(e, dt) ==> r.spawnTimer == e.spawnTimer + dt && |r.warnings| == pending)
    ensures |Advance(e, dt, player, roll, trig).warnings| <= |e.warnings| + 1
  {
    var W := Tick(e.warnings, dt);
    var s := Scheduled(Resolved(e, dt, trig), roll);
    var r := Advance(e, dt, player, roll, trig);
    assert r.warnings == s.warnings && r.spawnTimer == s.spawnTimer && r.gameTime == s.gameTime;
    WarningsResolve(W, trig);
  }

  /** Each warning that completes this tick becomes exactly one enemy of
      its own kind, appended to that kind's list; the others stay pending. */
  lemma AdvanceResolves(e: Enemies, dt: real, trig: Trig)
    ensures var W := Tick(e.warnings, dt); var r := Resolved(e, dt, trig);
      |r.kezias| == |e.kezias| + CompleteCount(W, KeziaSpawn) &&
      |r.joels| == |e.joels| + CompleteCount(W, JoelSpawn) &&
      |r.warnings| + CompleteCount(W, KeziaSpawn) + CompleteCount(W, JoelSpawn) == |e.warnings|
    ensures var W := Tick(e.warnings, dt); var r := Resolved(e, dt, trig);
      r.kezias[..|e.kezias|] == e.kezias && r.joels[..|e.joels|] == e.joels
    ensures var W := Tick(e.warnings, dt); var r := Resolved(e, dt, trig);
      forall w :: w in W && Complete(w) && w.kind == KeziaSpawn ==>
        K.Initial(w.spawnPosition, SpawnRotation(w.spawnPosition, trig)) in r.kezias
    ensures var W := Tick(e.warnings, dt); var r := Resolved(e, dt, trig);
      forall w :: w in W && Complete(w) && w.kind == JoelSpawn ==>
        J.Initial(w.spawnPosition, w.spawnSide, trig) in r.joels
    ensures var W := Tick(e.warnings, dt); var r := Resolved(e, dt, trig);
      forall w :: w in r.warnings <==> w in W && !Complete(w)
  {
    var W := Tick(e.warnings, dt);
    WarningsResolve(W, trig);
    KeziaWarningsSpawn(W, trig);
    JoelWarningsSpawn(W, trig);
  }

  /** After an update every listed entity is alive, so the enemy count is
      the list lengths. */
  lemma AdvanceAllAlive(e: Enemies, dt: real, player: Vec, roll: SpawnRoll, trig: Trig)
    ensures var r := Advance(e, dt, player, roll, trig);
      (forall k :: 0 <= k < |r.kezias| ==> r.kezias[k].isAlive) &&
      (forall j :: 0 <= j < |r.joels| ==> r.joels[j].isAlive) &&
      (forall c :: 0 <= c < |r.cards| ==> r.cards[c].isAlive)
    ensures var r := Advance(e, dt, player, roll, trig);
      EnemyCount(r) == |r.kezias| + |r.joels|
  {
    var r := Advance(e, dt, player, roll, trig);
    var W := Tick(e.warnings, dt);
    var js := e.joels + JoelSpawns(W, trig);
    KeziaPassAlive(e.kezias + KeziaSpawns(W, trig), dt, player, trig);
    JoelPassAlive(js, dt, player, trig);
    CardPassAlive(e.cards + Volley(js, dt, player, trig), dt);
    assert forall k :: 0 <= k < |r.kezias| ==> r.kezias[k] in r.kezias;
    assert forall j :: 0 <= j < |r.joels| ==> r.joels[j] in r.joels;
    assert forall c :: 0 <= c < |r.cards| ==> r.cards[c] in r.cards;
    EnemyCountAll(r);
  }

  // ---------------------------------------------------------------------
  // Collisions

  /** The index of the first Kezia that hits the player, or the length. */
  function FirstKeziaHit(ks: seq<K.KeziaState>, playerBounds: Rect): (i: nat)
    ensures i <= |ks|
    ensures forall j :: 0 <= j < i ==> !K.Hits(ks[j], playerBounds)
    ensures i < |ks| ==> K.Hits(ks[i], playerBounds)
    decreases |ks|
  {
    if ks == [] then 0
    else if K.Hits(ks[0], playerBounds) then 0
    else 1 + FirstKeziaHit(ks[1..], playerBounds)
  }

  function FirstJoelHit(js: seq<J.JoelState>, playerBounds: Rect): (i: nat)
    ensures i <= |js|
    ensures forall j :: 0 <= j < i ==> !J.Hits(js[j], playerBounds)
    ensures i < |js| ==> J.Hits(js[i], playerBounds)
    decreases |js|
  {
    if js == [] then 0
    else if J.Hits(js[0], playerBounds) then 0
    else 1 + FirstJoelHit(js[1..], playerBounds)
  }

  function FirstCardHit(cs: seq<C.CardState>, playerBounds: Rect): (i: nat)
    ensures i <= |cs|
    ensures forall j :: 0 <= j < i ==> !C.Hits(cs[j], playerBounds)
    ensures i < |cs| ==> C.Hits(cs[i], playerBounds)
    decreases |cs|
  {
    if cs == [] then 0
    else if C.Hits(cs[0], playerBounds) then 0
    else 1 + FirstCardHit(cs[1..], playerBounds)
  }

  /** Whether the scan of `CheckCollisions` finds a hit. */
  predicate AnyHit(e: Enemies, playerBounds: Rect) {
    FirstKeziaHit(e.kezias, playerBounds) < |e.kezias| ||
    FirstJoelHit(e.joels, playerBounds) < |e.joels| ||
    FirstCardHit(e.cards, playerBounds) < |e.cards|
  }

  /** `CheckCollisions`' effect: the first hit, scanning the Kezias, then the
      Joels, then the Cards, is destroyed. */
  function Collided(e: Enemies, playerBounds: Rect): Enemies {
    var k := FirstKeziaHit(e.kezias, playerBounds);
    var j := FirstJoelHit(e.joels, playerBounds);
    var c := FirstCardHit(e.cards, playerBounds);
    if k < |e.kezias| then e.(kezias := e.kezias[k := e.kezias[k].(isAlive := false)])
    else if j < |e.joels| then e.(joels := e.joels[j := e.joels[j].(isAlive := false)])
    else if c < |e.cards| then e.(cards := e.cards[c := e.cards[c].(isAlive := false)])
    else e
  }

  /** The number of live entities, Cards included. */
  function LiveCount(e: Enemies): nat {
    CountTrue(Flags(e.kezias, KeziaAlive)) + CountTrue(Flags(e.joels, JoelAlive)) + CountTrue(Flags(e.cards, CardAlive))
  }

  /** A collision is reported exactly when some live entity's box meets the
      player's, and then exactly one entity dies; otherwise nothing changes. */
  lemma CollisionFacts(e: Enemies, playerBounds: Rect)
    ensures AnyHit(e, playerBounds) <==>
      (exists k :: 0 <= k < |e.kezias| && K.Hits(e.kezias[k], playerBounds)) ||
      (exists j :: 0 <= j < |e.joels| && J.Hits(e.joels[j], playerBounds)) ||
      (exists c :: 0 <= c < |e.cards| && C.Hits(e.cards[c], playerBounds))
    ensures !AnyHit(e, playerBounds) ==> Collided(e, playerBounds) == e
    ensures AnyHit(e, playerBounds) ==> LiveCount(Collided(e, playerBounds)) == LiveCount(e) - 1
    ensures var r := Collided(e, playerBounds);
      |r.kezias| == |e.kezias| && |r.joels| == |e.joels| && |r.cards| == |e.cards| &&
      r.warnings == e.warnings && r.spawnTimer == e.spawnTimer && r.gameTime == e.gameTime
  {
    var k := FirstKeziaHit(e.kezias, playerBounds);
    var j := FirstJoelHit(e.joels, playerBounds);
    var c := FirstCardHit(e.cards, playerBounds);
    if k < |e.kezias| {
      var ks := e.kezias[k := e.kezias[k].(isAlive := false)];
      assert Flags(ks, KeziaAlive) == Flags(e.kezias, KeziaAlive)[k := false];
      CountTrueClear(Flags(e.kezias, KeziaAlive), k);
    } else if j < |e.joels| {
      var js := e.joels[j := e.joels[j].(isAlive := false)];
      assert Flags(js, JoelAlive) == Flags(e.joels, JoelAlive)[j := false];
      CountTrueClear(Flags(e.joels, JoelAlive), j);
    } else if c < |e.cards| {
      var cs := e.cards[c := e.cards[c].(isAlive := false)];
      assert Flags(cs, CardAlive) == Flags(e.cards, CardAlive)[c := false];
      CountTrueClear(Flags(e.cards, CardAlive), c);
    }
  }

  // ---------------------------------------------------------------------
  // The manager

  class EnemyManager {
    var kezias: seq<K.KeziaState>
    var joels: seq<J.JoelState>
    var cards: seq<C.CardState>
    var warnings: seq<Warning>
    var spawnTimer: real
    var gameTime: real

    function State(): Enemies
      reads this
    {
      Enemies(kezias, joels, cards, warnings, spawnTimer, gameTime)
    }

    constructor ()
      ensures State() == Enemies([], [], [], [], 0.0, 0.0)
    {
      kezias, joels, cards, warnings := [], [], [], [];
      spawnTimer, gameTime := 0.0, 0.0;
    }

    /** `TotalEnemyCount`. */
    function TotalEnemyCount(): (n: nat)
      reads this
      ensures n == EnemyCount(State())
    {
      CountTrue(Flags(kezias, KeziaAlive)) + CountTrue(Flags(joels, JoelAlive))
    }

    /** `EnemyManager.Update`; `roll` holds the draws a new warning would
        use. An inactive game leaves everything as it was. */
    method Update(dt: real, playerPosition: Vec, isGameActive: bool, roll: SpawnRoll, trig: Trig)
      modifies this
      ensures State() == if isGameActive then Advance(old(State()), dt, playerPosition, roll, trig) else old(State())
    {
      if !isGameActive {
        return;
      }
      UpdateWarnings(dt, trig);
      var currentSpawnInterval := SpawnInterval(gameTime);
      if spawnTimer >= currentSpawnInterval {
        InitiateSpawnWarning(roll);
        spawnTimer := 0.0;
      }
      UpdateEntities(dt, playerPosition, trig);
    }

    /** The timers and the warnings loop of `Update`. */
    method UpdateWarnings(dt: real, trig: Trig)
      modifies this
      ensures State() == Resolved(old(State()), dt, trig)
    {
      gameTime := gameTime + dt;
      spawnTimer := spawnTimer + dt;
      warnings, kezias, joels := ResolveWarnings(warnings, kezias, joels, dt, trig);
    }

    /** The Kezia, Joel and Card loops of `Update`. */
    method UpdateEntities(dt: real, playerPosition: Vec, trig: Trig)
      modifies this
      ensures State() == Moved(old(State()), dt, playerPosition, trig)
    {
      kezias := UpdateKezias(kezias, dt, playerPosition, trig);
      var cs;
      joels, cs := UpdateJoels(joels, cards, dt, playerPosition, trig);
      cards := UpdateCards(cs, dt);
    }

    /** `InitiateSpawnWarning`: one new warning is appended; nothing else changes. */
    method InitiateSpawnWarning(roll: SpawnRoll)
      modifies this
      ensures State() == old(State()).(warnings := old(warnings) + [NewWarning(roll)])
    {
      var w := NewWarning(roll);
      warnings := warnings + [w];
    }

    /** `CheckCollisions`: the scan in Kezia, Joel, Card order stops at the
        first entity that hits the player and destroys it. */
    method CheckCollisions(playerBounds: Rect) returns (hit: bool)
      modifies this
      ensures hit == AnyHit(old(State()), playerBounds)
      ensures State() == Collided(old(State()), playerBounds)
    {
      var x := 0;
      while x < |kezias|
        invariant 0 <= x <= FirstKeziaHit(kezias, playerBounds)
      {
        if K.Hits(kezias[x], playerBounds) {
          kezias := kezias[x := kezias[x].(isAlive := false)];
          return true;
        }
        x := x + 1;
      }
      x := 0;
      while x < |joels|
        invariant 0 <= x <= FirstJoelHit(joels, playerBounds)
      {
        if J.Hits(joels[x], playerBounds) {
          joels := joels[x := joels[x].(isAlive := false)];
          return true;
        }
        x := x + 1;
      }
      x := 0;
      while x < |cards|
        invariant 0 <= x <= FirstCardHit(cards, playerBounds)
      {
        if C.Hits(cards[x], playerBounds) {
          cards := cards[x := cards[x].(isAlive := false)];
          return true;
        }
        x := x + 1;
      }
      return false;
    }

    /** `Reset`: no entities, no warnings, both timers back to zero. */
    method Reset()
      modifies this
      ensures State() == Enemies([], [], [], [], 0.0, 0.0)
    {
      kezias, joels, cards, warnings := [], [], [], [];
      spawnTimer, gameTime := 0.0, 0.0;
    }

    /** `Clear`: the lists are emptied but the timers, and so the difficulty
        ramp, are kept. */
    method Clear()
      modifies this
      ensures State() == Enemies([], [], [], [], old(spawnTimer), old(gameTime))
    {
      kezias, joels, cards, warnings := [], [], [], [];
    }
  }
}
