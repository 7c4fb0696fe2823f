/** The game's mutable state and the operations that change it: starting a
    game, the three spawn timers' ticks, firing an interceptor, one frame of
    update(), the delayed victory check and endGame. The source keeps this
    state in module-level variables; here it is one object. */
module Defense {
  import opened Geometry
  import opened Entities
  import opened Scoring
  import GroundHits
  import Interception
  import Lifecycle

  /** Every value of the stream is one Math.random can return. */
  ghost predicate UnitStream(random: nat -> real) {
    forall k :: Unit(random(k))
  }

  /** A threat has its kind's size and, on a canvas wide enough for every
      kind, lies within the horizontal band. */
  predicate Placed(t: Threat, width: real) {
    t.size == SizeOf(t.kind) && (2.0 * SizeOf(Ballistic) <= width ==> InBand(t.x, t.size, width))
  }

  /** The part of the game state one frame of update() changes. */
  datatype Frame = Frame(threats: seq<Threat>, missiles: seq<Missile>, explosions: seq<Explosion>,
                         hits: int, intercepted: int, drawn: nat)

  /** The stages of one frame, in the order update() runs them. First every threat moves. */
  function MoveStage(s: Frame, width: real, sin: real -> real): Frame {
    s.(threats := MoveAll(s.threats, width, sin))
  }

  /** The missiles advance; each arrival leaves a white explosion. */
  function MissileStage(s: Frame, root: real -> real, random: nat -> real): Frame
    requires Lifecycle.Steady(s.missiles)
  {
    var f := Lifecycle.Advance(root, s.missiles);
    s.(missiles := f.flying,
       explosions := s.explosions + Sparks(Lifecycle.Blasts(f.arrived), random, s.drawn),
       drawn := s.drawn + 2 * |f.arrived|)
  }

  /** The explosions step and the spent ones are dropped. */
  function FadeStage(s: Frame): Frame {
    s.(explosions := Lifecycle.Fade(s.explosions))
  }

  /** Whether the ground-hit loop ends the game. */
  predicate GroundLost(s: Frame, height: real) {
    GroundHits.Pass(s.threats, s.hits, height).lost
  }

  /** Landed threats are removed, each costing a hit and leaving an orange explosion. */
  function GroundStage(s: Frame, height: real, random: nat -> real): Frame {
    var g := GroundHits.Pass(s.threats, s.hits, height);
    s.(threats := g.threats, hits := g.hits,
       explosions := s.explosions + Sparks(GroundHits.Blasts(g.landed, height), random, s.drawn),
       drawn := s.drawn + 2 * |g.landed|)
  }

  /** Intercepted threats are removed with their interceptors, each pair leaving an explosion. */
  function InterceptStage(s: Frame, root: real -> real, random: nat -> real): Frame {
    var c := Interception.Pass(root, s.threats, s.missiles);
    s.(threats := c.threats, missiles := c.missiles, intercepted := s.intercepted + |c.pairs|,
       explosions := s.explosions + Sparks(Interception.Blasts(c.pairs), random, s.drawn),
       drawn := s.drawn + 2 * |c.pairs|)
  }

  /** The state after moving, advancing and fading, which the ground-hit loop sees. */
  function Landing(s: Frame, width: real, sin: real -> real, root: real -> real, random: nat -> real): Frame
    requires Lifecycle.Steady(s.missiles)
  {
    FadeStage(MissileStage(MoveStage(s, width, sin), root, random))
  }

  /** One frame of update() on an active game: when the ground hits end the
      game, update() returns before the interception loop. */
  function NextFrame(s: Frame, width: real, height: real, sin: real -> real, root: real -> real,
                     random: nat -> real): Frame
    requires Lifecycle.Steady(s.missiles)
  {
    var l := Landing(s, width, sin, root, random);
    if GroundLost(l, height) then GroundStage(l, height, random)
    else InterceptStage(GroundStage(l, height, random), root, random)
  }

  /** Over one frame every threat that leaves the list is a ground hit or an
      interception: the sum of threats on screen, hits and interceptions is
      kept; hits never pass MaxHits, and the game is lost exactly when they
      reach it; every interception also uses up one interceptor. */
  lemma {:induction false} NextFrameCounts(s: Frame, width: real, height: real, sin: real -> real,
                                           root: real -> real, random: nat -> real)
    requires Lifecycle.Steady(s.missiles) && s.hits < MaxHits
    ensures var r := NextFrame(s, width, height, sin, root, random);
      |r.threats| + r.hits + r.intercepted == |s.threats| + s.hits + s.intercepted &&
      s.hits <= r.hits <= MaxHits && s.intercepted <= r.intercepted &&
      (GroundLost(Landing(s, width, sin, root, random), height) <==> r.hits == MaxHits) &&
      |r.missiles| + (r.intercepted - s.intercepted) <= |s.missiles|
  {
    var l := Landing(s, width, sin, root, random);
    Lifecycle.AdvanceSplits(root, s.missiles);
    GroundHits.PassAccounting(l.threats, l.hits, height);
    GroundHits.PassBound(l.threats, l.hits, height);
    var g := GroundStage(l, height, random);
    Interception.PassAccounting(root, g.threats, g.missiles);
    var o := GroundHits.Pass(l.threats, l.hits, height);
    assert |l.threats| == |o.threats| + |o.landed| by {
      assert |multiset(l.threats)| == |multiset(o.threats)| + |multiset(o.landed)|;
    }
  }

  /** A frame that does not lose the game leaves no threat within reach of an interceptor. */
  lemma {:induction false} NextFrameClears(s: Frame, width: real, height: real, sin: real -> real,
                                           root: real -> real, random: nat -> real)
    requires Lifecycle.Steady(s.missiles) && !GroundLost(Landing(s, width, sin, root, random), height)
    ensures var r := NextFrame(s, width, height, sin, root, random);
      forall t, m :: t in r.threats && m in r.missiles ==> !Interception.Collides(root, t, m)
  {
    var g := GroundStage(Landing(s, width, sin, root, random), height, random);
    Interception.PassClears(root, g.threats, g.missiles);
  }

  class Game {
    /** The canvas size; window resizing is not modelled. */
    const width: real
    const height: real
    /** The values Math.random returns to createExplosion, in call order, and how many were used. */
    const random: nat -> real
    var drawn: nat

    var threats: seq<Threat>
    var missiles: seq<Missile>
    var explosions: seq<Explosion>
    var hits: int
    var intercepted: int
    /** counts.drones, counts.cruise, counts.ballistic: threats still to spawn. */
    var drones: int
    var cruise: int
    var ballistic: int
    var gameActive: bool
    /** The verdict on the end screen, once a game has ended. */
    var verdict: Option<Rating>

    /** The state invariant. Every one of the 320 threats is still to spawn,
        on screen, a ground hit or intercepted; the counters never go
        negative; an active game has fewer than MaxHits hits. Each part reads
        only the fields it is about. */
    ghost predicate Valid()
      reads this
    {
      Tally() && Placement() && Armed() && UnitStream(random)
    }

    ghost predicate Tally()
      reads this`hits, this`intercepted, this`drones, this`cruise, this`ballistic, this`gameActive, this`threats
    {
      0 <= hits <= MaxHits && 0 <= intercepted &&
      0 <= drones && 0 <= cruise && 0 <= ballistic &&
      (gameActive ==> hits < MaxHits) &&
      drones + cruise + ballistic + |threats| + hits + intercepted == TotalThreats
    }

    ghost predicate Placement()
      reads this`threats
    {
      forall t :: t in threats ==> Placed(t, width)
    }

    ghost predicate Armed()
      reads this`missiles
    {
      forall m :: m in missiles ==> m.speed == InterceptorSpeed && m.width == InterceptorWidth
    }

    /** The state the script starts with, before the first game. */
    constructor (width: real, height: real, random: nat -> real)
      requires UnitStream(random)
      ensures Valid()
      ensures this.width == width && this.height == height && this.random == random && drawn == 0
      ensures threats == [] && missiles == [] && explosions == []
      ensures hits == 0 && intercepted == 0 && !gameActive && verdict == None
      ensures drones == InitialDrones && cruise == InitialCruise && ballistic == InitialBallistic
    {
      this.width, this.height, this.random := width, height, random;
      drawn := 0;
      threats, missiles, explosions := [], [], [];
      hits, intercepted := 0, 0;
      drones, cruise, ballistic := InitialDrones, InitialCruise, InitialBallistic;
      gameActive := false;
      verdict := None;
    }

    /** The fields a frame of update() changes, as one value. */
    function Now(): Frame
      reads this`threats, this`missiles, this`explosions, this`hits, this`intercepted, this`drawn
    {
      Frame(threats, missiles, explosions, hits, intercepted, drawn)
    }

    /** The number of threats of kind k still to spawn. */
    function CountOf(k: Kind): int
      reads this
    {
      match k
      case Drone => drones
      case Cruise => cruise
      case Ballistic => ballistic
    }

    /** The progress bar width updateUI shows. */
    function ProgressShown(): real
      reads this
    {
      Progress(drones + cruise + ballistic, |threats|)
    }

    /** The condition update() tests before scheduling the victory check. */
    predicate WinReady()
      reads this
    {
      drones <= 0 && cruise <= 0 && ballistic <= 0 && |threats| == 0 && gameActive
    }

    /** In a consistent state the progress bar is the share of threats hit
        or intercepted, and once the victory check is scheduled every threat
        but the ground hits was intercepted. */
    lemma {:induction false} ProgressIsDealtWith()
      requires Valid()
      ensures ProgressShown() == (hits + intercepted) as real * 100.0 / TotalThreats as real
      ensures WinReady() ==> intercepted == TotalThreats - hits > TotalThreats - MaxHits
    {
      ProgressCounts(drones + cruise + ballistic, |threats|, hits, intercepted);
    }

    /** startGame: once the assets have loaded, resets the lists, the
        counters and the spawn counts and starts the game. Before that it
        does nothing (the source retries after 500 ms). */
    method StartGame(assetsLoaded: bool) returns (started: bool)
      requires Valid()
      modifies this
      ensures Valid()
      ensures started == assetsLoaded
      ensures !started ==> unchanged(this)
      ensures started ==> (threats == [] && missiles == [] && explosions == [] &&
        hits == 0 && intercepted == 0 && gameActive && verdict == None &&
        drones == InitialDrones && cruise == InitialCruise && ballistic == InitialBallistic)
      ensures drawn == old(drawn)
    {
      if !assetsLoaded {
        return false;
      }
      threats, missiles, explosions := [], [], [];
      hits, intercepted := 0, 0;
      drones, cruise, ballistic := InitialDrones, InitialCruise, InitialBallistic;
      verdict := None;
      gameActive := true;
      return true;
    }

    /** One tick of the spawn timer for kind k: while the game is active and
        threats of that kind remain, one threat is pushed and the count goes
        down by one. The three random values are the tick's Math.random calls. */
    method SpawnTick(kind: Kind, speedRoll: real, xRoll: real, angleRoll: real) returns (spawned: bool)
      requires Valid() && Unit(speedRoll) && Unit(xRoll) && Unit(angleRoll)
      modifies this
      ensures Valid()
      ensures spawned <==> old(CountOf(kind)) > 0 && old(gameActive)
      ensures spawned ==> threats == old(threats) + [NewThreat(kind, speedRoll, xRoll, angleRoll, width)]
      ensures spawned ==> CountOf(kind) == old(CountOf(kind)) - 1
      ensures !spawned ==> unchanged(this)
      ensures forall k :: k != kind ==> CountOf(k) == old(CountOf(k))
      ensures missiles == old(missiles) && explosions == old(explosions) && drawn == old(drawn)
      ensures hits == old(hits) && intercepted == old(intercepted)
      ensures gameActive == old(gameActive) && verdict == old(verdict)
    {
      if CountOf(kind) > 0 && gameActive {
        var t := NewThreat(kind, speedRoll, xRoll, angleRoll, width);
        threats := threats + [t];
        match kind {
          case Drone => drones := drones - 1;
          case Cruise => cruise := cruise - 1;
          case Ballistic => ballistic := ballistic - 1;
        }
        return true;
      }
      return false;
    }

    /** fireMissile for a point (x, y) in canvas coordinates: nothing happens
        unless the game is active and the interceptor image has loaded. */
    method FireMissile(x: real, y: real, interceptorLoaded: bool, domeLoaded: bool, domeImageHeight: real)
      requires Valid()
      modifies this
      ensures Valid()
      ensures gameActive && interceptorLoaded ==>
        missiles == old(missiles) + [NewMissile(x, y, width, height, domeLoaded, domeImageHeight)]
      ensures !(gameActive && interceptorLoaded) ==> missiles == old(missiles)
      ensures threats == old(threats) && explosions == old(explosions) && drawn == old(drawn)
      ensures hits == old(hits) && intercepted == old(intercepted) && gameActive == old(gameActive)
      ensures drones == old(drones) && cruise == old(cruise) && ballistic == old(ballistic)
      ensures verdict == old(verdict)
    {
      if !gameActive || !interceptorLoaded {
        return;
      }
      missiles := missiles + [NewMissile(x, y, width, height, domeLoaded, domeImageHeight)];
    }

    /** createExplosion: pushes one explosion, drawing two random values. */
    method CreateExplosion(b: Blast)
      modifies this`explosions, this`drawn
      ensures explosions == old(explosions) + [Spark(b, random, old(drawn))]
      ensures drawn == old(drawn) + 2
    {
      explosions := explosions + [Spark(b, random, drawn)];
      drawn := drawn + 2;
    }

    /** endGame: once per game, stops it and records the verdict. A second
        call changes nothing. */
    method EndGame(victory: bool)
      modifies this`gameActive, this`verdict
      ensures old(gameActive) ==> !gameActive && verdict == Some(Rate(victory, hits, intercepted))
      ensures !old(gameActive) ==> gameActive == old(gameActive) && verdict == old(verdict)
    {
      if !gameActive {
        return;
      }
      gameActive := false;
      verdict := Some(Rate(victory, hits, intercepted));
    }

    /** The delayed callback the victory check schedules: it ends the game as
        a victory unless the game has already ended. */
    method WinTimeout()
      requires Valid()
      modifies this`gameActive, this`verdict
      ensures Valid()
      ensures old(gameActive) ==> !gameActive && verdict == Some(Rate(true, hits, intercepted))
      ensures !old(gameActive) ==> gameActive == old(gameActive) && verdict == old(verdict)
    {
      if gameActive {
        EndGame(true);
      }
    }

    /** The threat loop of update(): every threat moves one frame and bounces
        off the side edges. */
    method MoveThreats(sin: real -> real)
      requires Placement()
      modifies this`threats
      ensures Placement()
      ensures threats == MoveAll(old(threats), width, sin)
    {
      var i := 0;
      while i < |threats|
        invariant 0 <= i <= |threats| == |old(threats)|
        invariant forall k :: 0 <= k < i ==> threats[k] == MoveThreat(old(threats)[k], width, sin)
        invariant forall k :: i <= k < |threats| ==> threats[k] == old(threats)[k]
      {
        threats := threats[i := MoveThreat(threats[i], width, sin)];
        i := i + 1;
      }
      assert threats == MoveAll(old(threats), width, sin);
      forall t | t in threats
        ensures Placed(t, width)
      {
        var k :| 0 <= k < |threats| && threats[k] == t;
        assert Placed(old(threats)[k], width) by { assert old(threats)[k] in old(threats); }
      }
    }

    /** The missile loop of update() and the filter after it: a missile more
        than `speed` away from its target moves towards it; the others are
        removed, each leaving an explosion at its target point. */
    method AdvanceMissiles(root: real -> real)
      requires Armed()
      modifies this`missiles, this`explosions, this`drawn
      ensures Armed()
      ensures var f := Lifecycle.Advance(root, old(missiles));
        missiles == f.flying &&
        explosions == old(explosions) + Sparks(Lifecycle.Blasts(f.arrived), random, old(drawn)) &&
        drawn == old(drawn) + 2 * |f.arrived|
    {
      var ms := missiles;
      var kept: seq<Missile> := [];
      ghost var arrived: seq<Missile> := [];
      var i := 0;
      while i < |ms|
        invariant 0 <= i <= |ms| && ms == old(missiles) && missiles == ms && Lifecycle.Steady(ms)
        invariant Lifecycle.Steady(ms[..i]) && Lifecycle.Advance(root, ms[..i]) == Lifecycle.Flight(kept, arrived)
        invariant Lifecycle.Flashes(explosions, old(explosions), arrived, random, old(drawn))
        invariant drawn == old(drawn) + 2 * |arrived|
      {
        var m := ms[i];
        Lifecycle.AdvanceStep(root, ms, i, kept, arrived);
        if ToGo(root, m) > m.speed {
          kept := kept + [Fly(root, m)];
        } else {
          ghost var es, gone, at := explosions, arrived, drawn;
          CreateExplosion(Blast(m.tx, m.ty, White));
          assert explosions == es + [Spark(Blast(m.tx, m.ty, White), random, at)];
          arrived := arrived + [m];
          Lifecycle.FlashesStep(es, explosions, old(explosions), gone, m, random, old(drawn));
        }
        i := i + 1;
      }
      assert ms[..i] == ms;
      Lifecycle.FlashesAre(explosions, old(explosions), arrived, random, old(drawn));
      missiles := kept;
      KeptMissiles(root, ms);
    }

    /** The flying missiles are the old ones, moved: still interceptors. */
    lemma {:induction false} KeptMissiles(root: real -> real, ms: seq<Missile>)
      requires forall m :: m in ms ==> m.speed == InterceptorSpeed && m.width == InterceptorWidth
      requires missiles == Lifecycle.Advance(root, ms).flying
      ensures Armed()
    {
      Lifecycle.AdvanceKeepsTargets(root, ms);
    }

    /** The explosion filter of update(). */
    method FadeExplosions()
      modifies this`explosions
      ensures explosions == Lifecycle.Fade(old(explosions))
    {
      var kept: seq<Explosion> := [];
      var i := 0;
      while i < |explosions|
        invariant 0 <= i <= |explosions| && explosions == old(explosions)
        invariant kept == Lifecycle.Fade(explosions[..i])
      {
        assert explosions[..i + 1][..i] == explosions[..i];
        var e := StepExplosion(explosions[i]);
        if Alive(e) {
          kept := kept + [e];
        }
        i := i + 1;
      }
      assert explosions[..i] == old(explosions);
      explosions := kept;
    }

    /** The ground-hit loop of update(), run on an active game. It returns
        true when the hits reached MaxHits and the game was ended as lost,
        in which case update() stops there. */
    method GroundPass() returns (lost: bool)
      requires hits < MaxHits && gameActive
      modifies this`threats, this`hits, this`explosions, this`drawn, this`gameActive, this`verdict
      ensures var o := GroundHits.Pass(old(threats), old(hits), height);
        threats == o.threats && hits == o.hits && lost == o.lost &&
        explosions == old(explosions) + Sparks(GroundHits.Blasts(o.landed, height), random, old(drawn)) &&
        drawn == old(drawn) + 2 * |o.landed|
      ensures gameActive == !lost
      ensures lost ==> verdict == Some(Rate(false, hits, intercepted))
      ensures !lost ==> verdict == old(verdict)
    {
      var ts, h := threats, hits;
      ghost var o := GroundHits.Pass(ts, h, height);
      ghost var prefix, kept, done: seq<Threat> := ts, [], [];
      GroundHits.MidwayStart(ts, h, height);
      var i := |ts| - 1;
      while i >= 0
        invariant GroundHits.Midway(o, ts, i, h, height, prefix, kept, done)
        invariant GroundHits.Flashes(explosions, old(explosions), done, height, random, old(drawn))
        invariant drawn == old(drawn) + 2 * |done|
        invariant threats == old(threats) && hits == old(hits) && gameActive && verdict == old(verdict)
      {
        var t := ts[i];
        if t.y + t.size / 2.0 > height {
          ghost var es, landed, at := explosions, done, drawn;
          GroundHits.MidwayHit(o, ts, i, h, height, prefix, kept, done);
          CreateExplosion(Blast(t.x, height, Orange));
          assert explosions == es + [Spark(Blast(t.x, height, Orange), random, at)];
          ts := ts[..i] + ts[i + 1..];
          h := h + 1;
          prefix, done := prefix[..i], done + [t];
          GroundHits.FlashesStep(es, explosions, old(explosions), landed, t, height, random, old(drawn));
          if h >= MaxHits {
            threats, hits := ts, h;
            EndGame(false);
            GroundHits.FlashesAre(explosions, old(explosions), done, height, random, old(drawn));
            return true;
          }
        } else {
          GroundHits.MidwayMiss(o, ts, i, h, height, prefix, kept, done);
          prefix, kept := prefix[..i], [t] + kept;
        }
        i := i - 1;
      }
      GroundHits.MidwayEnd(o, ts, h, height, prefix, kept, done);
      threats, hits := ts, h;
      GroundHits.FlashesAre(explosions, old(explosions), done, height, random, old(drawn));
      return false;
    }

    /** The state invariant after the ground-hit loop, from the accounting
        lemmas about GroundHits.Pass. */
    lemma {:induction false} SettleGround(ts: seq<Threat>, hits0: int, o: GroundHits.Outcome)
      requires o == GroundHits.Pass(ts, hits0, height)
      requires 0 <= hits0 < MaxHits && 0 <= intercepted && 0 <= drones && 0 <= cruise && 0 <= ballistic
      requires drones + cruise + ballistic + |ts| + hits0 + intercepted == TotalThreats
      requires forall t :: t in ts ==> Placed(t, width)
      requires threats == o.threats && hits == o.hits && gameActive == !o.lost
      ensures Tally() && Placement()
    {
      GroundHits.PassAccounting(ts, hits0, height);
      GroundHits.PassBound(ts, hits0, height);
      assert |ts| == |o.threats| + |o.landed| by {
        assert |multiset(ts)| == |multiset(o.threats)| + |multiset(o.landed)|;
      }
      forall t | t in threats
        ensures Placed(t, width)
      {
        assert t in multiset(ts);
      }
    }

    /** The interception loop of update(): for each threat, from the last to
        the first, the inner scan picks the interceptor; a threat that is hit
        is removed together with that interceptor and leaves an explosion. */
    method InterceptPass(root: real -> real)
      modifies this`threats, this`missiles, this`intercepted, this`explosions, this`drawn
      ensures var o := Interception.Pass(root, old(threats), old(missiles));
        threats == o.threats && missiles == o.missiles && intercepted == old(intercepted) + |o.pairs| &&
        explosions == old(explosions) + Sparks(Interception.Blasts(o.pairs), random, old(drawn)) &&
        drawn == old(drawn) + 2 * |o.pairs|
    {
      var ts, ms, n := threats, missiles, intercepted;
      ghost var o := Interception.Pass(root, ts, ms);
      ghost var prefix: seq<Threat>, kept: seq<Threat>, done: seq<(Threat, Missile)> := ts, [], [];
      Interception.MidwayStart(root, ts, ms);
      var i := |ts| - 1;
      while i >= 0
        invariant Interception.Midway(root, o, ts, ms, i, prefix, kept, done)
        invariant Interception.Flashes(explosions, old(explosions), done, random, old(drawn))
        invariant drawn == old(drawn) + 2 * |done| && n == old(intercepted) + |done|
      {
        var t := ts[i];
        var hit := Interception.FindInterceptor(root, t, ms);
        match hit {
          case None =>
            Interception.MidwayMiss(root, o, ts, ms, i, prefix, kept, done);
            prefix, kept := prefix[..i], [t] + kept;
          case Some(j) =>
            var m := ms[j];
            ghost var es, pairs, at := explosions, done, drawn;
            ghost var ts0, ms0, prefix0 := ts, ms, prefix;
            CreateExplosion(Blast(t.x, t.y, ColorOf(t.kind)));
            assert explosions == es + [Spark(Blast(t.x, t.y, ColorOf(t.kind)), random, at)];
            prefix, done := prefix[..i], done + [(t, m)];
            ts := ts[..i] + ts[i + 1..];
            ms := ms[..j] + ms[j + 1..];
            n := n + 1;
            Interception.MidwayHit(root, o, ts0, ms0, i, prefix0, kept, pairs, j);
            Interception.FlashesStep(es, explosions, old(explosions), pairs, t, m, random, old(drawn));
        }
        i := i - 1;
      }
      Interception.MidwayEnd(root, o, ts, ms, prefix, kept, done);
      Interception.FlashesAre(explosions, old(explosions), done, random, old(drawn));
      threats, missiles, intercepted := ts, ms, n;
    }

    /** The state invariant after the interception loop, from the accounting
        lemmas about Interception.Pass. */
    lemma {:induction false} SettleIntercept(root: real -> real, ts: seq<Threat>, ms: seq<Missile>, in0: int, o: Interception.Outcome)
      requires o == Interception.Pass(root, ts, ms)
      requires 0 <= hits <= MaxHits && 0 <= in0 && 0 <= drones && 0 <= cruise && 0 <= ballistic
      requires gameActive ==> hits < MaxHits
      requires drones + cruise + ballistic + |ts| + hits + in0 == TotalThreats
      requires forall t :: t in ts ==> Placed(t, width)
      requires forall m :: m in ms ==> m.speed == InterceptorSpeed && m.width == InterceptorWidth
      requires threats == o.threats && missiles == o.missiles && intercepted == in0 + |o.pairs|
      ensures Tally() && Placement() && Armed()
    {
      Interception.PassAccounting(root, ts, ms);
      forall t | t in threats
        ensures Placed(t, width)
      {
        assert t in multiset(ts);
      }
      forall m | m in missiles
        ensures m.speed == InterceptorSpeed && m.width == InterceptorWidth
      {
        assert m in multiset(ms);
      }
    }

    /** The first half of a frame: the threats move, the missiles advance and
        the explosions fade. */
    method Animate(sin: real -> real, root: real -> real)
      requires Placement() && Armed()
      modifies this`threats, this`missiles, this`explosions, this`drawn
      ensures Placement() && Armed() && |threats| == |old(threats)|
      ensures Now() == Landing(old(Now()), width, sin, root, random)
    {
      ghost var s0 := Now();
      MoveThreats(sin);
      assert Now() == MoveStage(s0, width, sin);
      ghost var s1 := Now();
      AdvanceMissiles(root);
      assert Now() == MissileStage(s1, root, random);
      ghost var s2 := Now();
      FadeExplosions();
      assert Now() == FadeStage(s2);
    }

    /** The second half of a frame: ground hits, then, unless they lost the
        game, interceptions. */
    method Strike(root: real -> real) returns (lost: bool)
      requires Valid() && gameActive
      modifies this`threats, this`missiles, this`explosions, this`drawn, this`hits, this`intercepted,
               this`gameActive, this`verdict
      ensures Valid()
      ensures lost == GroundLost(old(Now()), height)
      ensures !lost ==> Now() == InterceptStage(GroundStage(old(Now()), height, random), root, random)
      ensures lost ==> Now() == GroundStage(old(Now()), height, random)
      ensures gameActive == !lost
      ensures verdict == if lost then Some(Rate(false, MaxHits, intercepted)) else old(verdict)
    {
      ghost var s0 := Now();
      lost := GroundPass();
      SettleGround(s0.threats, s0.hits, GroundHits.Pass(s0.threats, s0.hits, height));
      assert Now() == GroundStage(s0, height, random);
      if lost {
        return;
      }
      ghost var s1 := Now();
      InterceptPass(root);
      SettleIntercept(root, s1.threats, s1.missiles, s1.intercepted,
                      Interception.Pass(root, s1.threats, s1.missiles));
      assert Now() == InterceptStage(s1, root, random);
    }

    /** One frame of update(). Nothing happens once the game has ended.
        Otherwise the frame is NextFrame of the state before it; the game is
        lost when the ground hits reach MaxHits, and the result is true when
        the frame schedules the delayed victory check. */
    method Update(sin: real -> real, root: real -> real) returns (winCheck: bool)
      requires Valid()
      modifies this
      ensures Valid()
      ensures !old(gameActive) ==> unchanged(this) && !winCheck
      ensures drones == old(drones) && cruise == old(cruise) && ballistic == old(ballistic)
      ensures old(gameActive) ==>
        var lost := GroundLost(Landing(old(Now()), width, sin, root, random), height);
        Now() == NextFrame(old(Now()), width, height, sin, root, random) &&
        gameActive == !lost &&
        verdict == (if lost then Some(Rate(false, MaxHits, intercepted)) else old(verdict)) &&
        winCheck == (!lost && WinReady())
    {
      if !gameActive {
        return false;
      }
      Animate(sin, root);
      var lost := Strike(root);
      winCheck := !lost && WinReady();
    }
  }
}
