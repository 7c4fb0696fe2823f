/** The game's records (threats, interceptor missiles, explosions), its fixed
    constants, and what happens to one record in one frame. Coordinates are
    canvas pixels, y growing downwards; floating point is modelled as real. */
module Entities {
  import opened Geometry

  datatype Option<T> = None | Some(value: T)

  /** The three kinds of threat, spawned by three separate timers. */
  datatype Kind = Drone | Cruise | Ballistic

  /** The colour strings handed to createExplosion: "#fff", "orange", "lime", "yellow", "red". */
  datatype Color = White | Orange | Lime | Yellow | Red

  /** A descending threat. Its trail and sprite rotation feed only the drawing and are not modelled. */
  datatype Threat = Threat(x: real, y: real, kind: Kind, speed: real, size: real, angle: real)

  /** An interceptor flying from the launcher towards the clicked point (tx, ty). */
  datatype Missile = Missile(x: real, y: real, tx: real, ty: real, speed: real, width: real, height: real)

  datatype Explosion = Explosion(x: real, y: real, radius: real, maxRadius: real,
                                 growSpeed: real, shrinkSpeed: real, color: Color, alpha: real)

  /** The arguments of one createExplosion(x, y, color) call. */
  datatype Blast = Blast(x: real, y: real, color: Color)

  const MaxHits: int := 10
  const InitialDrones: int := 170
  const InitialCruise: int := 30
  const InitialBallistic: int := 120
  const TotalThreats: int := InitialDrones + InitialCruise + InitialBallistic

  /** Math.PI: 3.141592653589793 is the shortest decimal that reads back as
      its double value. */
  const Pi: real := 3.141592653589793

  const InterceptorSpeed: real := 10.0
  const InterceptorWidth: real := 24.0
  const InterceptorHeight: real := 48.0

  /** Sprite size of each kind, from setupSpawning. */
  function SizeOf(k: Kind): real {
    match k
    case Drone => 30.0
    case Cruise => 40.0
    case Ballistic => 50.0
  }

  /** Colour of the explosion when a threat of kind `k` is intercepted. */
  function ColorOf(k: Kind): Color {
    match k
    case Drone => Lime
    case Cruise => Yellow
    case Ballistic => Red
  }

  /** True when r is a value Math.random can return. */
  predicate Unit(r: real) {
    0.0 <= r < 1.0
  }

  /** The speed argument each spawn timer passes, drawn from one random value. */
  function SpawnSpeed(k: Kind, roll: real): (s: real)
    ensures Unit(roll) ==> match k
      case Drone => 1.0 <= s < 1.5
      case Cruise => 2.0 <= s < 2.7
      case Ballistic => 3.0 <= s < 4.0
  {
    match k
    case Drone => 1.0 + roll * 0.5
    case Cruise => 2.0 + roll * 0.7
    case Ballistic => 3.0 + roll * 1.0
  }

  lemma {:induction false} ScaledUnit(r: real, w: real)
    ensures Unit(r) && 0.0 <= w ==> 0.0 <= r * w <= w
  {
    assert w - r * w == (1.0 - r) * w;
  }

  /** The record spawnThreat pushes: it starts one size above the top edge,
      with a horizontal position at least one size away from either side. */
  function NewThreat(kind: Kind, speedRoll: real, xRoll: real, angleRoll: real, width: real): (t: Threat)
    ensures t.kind == kind && t.size == SizeOf(kind) && t.y == -t.size
    ensures t.speed == SpawnSpeed(kind, speedRoll)
    ensures Unit(xRoll) && 2.0 * t.size <= width ==> t.size <= t.x <= width - t.size
    ensures Unit(angleRoll) ==> -Pi * 0.1 <= t.angle < Pi * 0.1
    ensures Unit(speedRoll) ==> 1.0 <= t.speed < 4.0
  {
    var size := SizeOf(kind);
    var room := width - size * 2.0;
    var offset := xRoll * room;
    var swing := angleRoll * (Pi * 0.2);
    ScaledUnit(xRoll, room);
    ScaledUnit(angleRoll, Pi * 0.2);
    Threat(offset + size, -size, kind, SpawnSpeed(kind, speedRoll), size, swing - Pi * 0.1)
  }

  /** Where a threat's horizontal drift would take it: ballistic threats drop
      straight down, the others drift by sin(angle) * speed * 0.5. */
  function Drift(t: Threat, sin: real -> real): real {
    if t.kind == Ballistic then t.x else t.x + sin(t.angle) * t.speed * 0.5
  }

  /** The horizontal band a threat's centre must stay in. */
  predicate InBand(x: real, size: real, width: real) {
    size / 2.0 <= x <= width - size / 2.0
  }

  /** One frame of a threat's motion, followed by the bounce at the side edges:
      a threat that would leave the band has its angle negated and is clamped
      back to the nearer edge. */
  function MoveThreat(t: Threat, width: real, sin: real -> real): (r: Threat)
    ensures r.kind == t.kind && r.speed == t.speed && r.size == t.size
    ensures r.y == t.y + (if t.kind == Ballistic then t.speed * 1.2 else t.speed)
    ensures t.size <= width ==> InBand(r.x, r.size, width)
    ensures InBand(Drift(t, sin), t.size, width) ==> r.x == Drift(t, sin) && r.angle == t.angle
    ensures !InBand(Drift(t, sin), t.size, width) ==> r.angle == -t.angle
    ensures t.size <= width && Drift(t, sin) < t.size / 2.0 ==> r.x == t.size / 2.0
    ensures t.size <= width && Drift(t, sin) > width - t.size / 2.0 ==> r.x == width - t.size / 2.0
  {
    var y := if t.kind == Ballistic then t.y + t.speed * 1.2 else t.y + t.speed;
    var x := Drift(t, sin);
    if x < t.size / 2.0 || x > width - t.size / 2.0 then
      var upper := if width - t.size / 2.0 < x then width - t.size / 2.0 else x;
      t.(x := if t.size / 2.0 > upper then t.size / 2.0 else upper, y := y, angle := -t.angle)
    else
      t.(x := x, y := y)
  }

  /** The threat loop of update(): every threat moves one frame, keeping its
      kind, size and speed, and one that fits the canvas stays in the band. */
  function MoveAll(ts: seq<Threat>, width: real, sin: real -> real): (r: seq<Threat>)
    ensures |r| == |ts|
    ensures forall k :: 0 <= k < |ts| ==> r[k].kind == ts[k].kind && r[k].size == ts[k].size && r[k].speed == ts[k].speed
    ensures forall k :: 0 <= k < |ts| && ts[k].size <= width ==> InBand(r[k].x, r[k].size, width)
  {
    seq(|ts|, k requires 0 <= k < |ts| => MoveThreat(ts[k], width, sin))
  }

  /** The record fireMissile pushes for a click at (x, y): it starts at the
      launcher, centred at the bottom of the canvas, and flies at speed 10.
      The launch height depends on whether the dome image loaded. */
  function NewMissile(x: real, y: real, width: real, height: real, domeLoaded: bool, domeImageHeight: real): (m: Missile)
    ensures m.tx == x && m.ty == y && m.x == width / 2.0
    ensures m.speed == InterceptorSpeed && m.width == InterceptorWidth && m.height == InterceptorHeight
    ensures m.y == height - (if domeLoaded then domeImageHeight / 3.0 else 30.0)
  {
    var startY := height - (if domeLoaded then domeImageHeight / 3.0 else 30.0);
    Missile(width / 2.0, startY, x, y, InterceptorSpeed, InterceptorWidth, InterceptorHeight)
  }

  /** Distance from a missile to its target point. */
  function ToGo(root: real -> real, m: Missile): real {
    Hypot(root, m.tx - m.x, m.ty - m.y)
  }

  /** A missile has arrived when its distance to the target is not above its speed. */
  predicate Arrived(root: real -> real, m: Missile) {
    !(ToGo(root, m) > m.speed)
  }

  /** One frame of a missile's flight: it moves `speed` along the unit vector towards its target. */
  function Fly(root: real -> real, m: Missile): (r: Missile)
    requires 0.0 <= m.speed < ToGo(root, m)
    ensures r.tx == m.tx && r.ty == m.ty && r.speed == m.speed
    ensures r.width == m.width && r.height == m.height
  {
    var dx := m.tx - m.x;
    var dy := m.ty - m.y;
    var dist := ToGo(root, m);
    m.(x := m.x + (dx / dist) * m.speed, y := m.y + (dy / dist) * m.speed)
  }

  /** Arrival is a comparison of squared distances. */
  lemma {:induction false} ArrivedIff(root: real -> real, m: Missile)
    requires IsSqrt(root) && 0.0 <= m.speed
    ensures Arrived(root, m) <==> SqNorm(m.tx - m.x, m.ty - m.y) <= m.speed * m.speed
  {
    HypotAbove(root, m.tx - m.x, m.ty - m.y, m.speed);
  }

  /** Scaling a vector of length d by 1 - s/d leaves it of length d - s. */
  lemma {:induction false} ShrinkBy(dx: real, dy: real, d: real, s: real)
    requires 0.0 < d && SqNorm(dx, dy) == d * d
    ensures SqNorm(dx * (1.0 - s / d), dy * (1.0 - s / d)) == (d - s) * (d - s)
  {
    var f := 1.0 - s / d;
    assert d * f == d - s;
    calc {
      SqNorm(dx * f, dy * f);
      (dx * dx + dy * dy) * (f * f);
      (d * f) * (d * f);
    }
  }

  /** What is left of a coordinate difference after a step of s along it, out of d. */
  lemma {:induction false} StepLeft(x: real, tx: real, d: real, s: real)
    requires 0.0 < d
    ensures tx - (x + ((tx - x) / d) * s) == (tx - x) * (1.0 - s / d)
  {
  }

  /** A flying missile ends the frame exactly `speed` closer to its target. */
  lemma {:induction false} FlyCloser(root: real -> real, m: Missile)
    requires IsSqrt(root) && 0.0 <= m.speed < ToGo(root, m)
    ensures SqNorm(m.tx - Fly(root, m).x, m.ty - Fly(root, m).y)
         == (ToGo(root, m) - m.speed) * (ToGo(root, m) - m.speed)
  {
    var dx := m.tx - m.x;
    var dy := m.ty - m.y;
    var d := ToGo(root, m);
    var s := m.speed;
    HypotIsRoot(root, dx, dy);
    var r := Fly(root, m);
    StepLeft(m.x, m.tx, d, s);
    StepLeft(m.y, m.ty, d, s);
    ShrinkBy(dx, dy, d, s);
  }

  /** Whether an explosion is kept by the explosion filter. */
  predicate Alive(e: Explosion) {
    e.alpha > 0.0 && e.radius > 0.0
  }

  /** One frame of an explosion: below its maximum radius it grows by
      growSpeed; otherwise it shrinks by shrinkSpeed and fades by 0.05. */
  function StepExplosion(e: Explosion): (r: Explosion)
    ensures r.x == e.x && r.y == e.y && r.maxRadius == e.maxRadius && r.color == e.color
    ensures r.growSpeed == e.growSpeed && r.shrinkSpeed == e.shrinkSpeed
    ensures e.radius < e.maxRadius ==> r.alpha == e.alpha && r.radius == e.radius + e.growSpeed
    ensures e.maxRadius <= e.radius ==> r.alpha == e.alpha - 0.05 && r.radius == e.radius - e.shrinkSpeed
  {
    if e.radius < e.maxRadius then
      e.(radius := e.radius + e.growSpeed)
    else
      e.(radius := e.radius - e.shrinkSpeed, alpha := e.alpha - 0.05)
  }

  /** The record createExplosion pushes, given the two random values it draws:
      radius 5 and alpha 1, a maximum radius in [40, 60) and a growth speed in [3, 4). */
  function NewExplosion(b: Blast, sizeRoll: real, growRoll: real): (e: Explosion)
    ensures e.x == b.x && e.y == b.y && e.color == b.color
    ensures e.radius == 5.0 && e.alpha == 1.0 && e.shrinkSpeed == 1.5 && Alive(e)
    ensures Unit(sizeRoll) ==> 40.0 <= e.maxRadius < 60.0
    ensures Unit(growRoll) ==> 3.0 <= e.growSpeed < 4.0
  {
    Explosion(b.x, b.y, 5.0, 40.0 + sizeRoll * 20.0, 3.0 + growRoll, 1.5, b.color, 1.0)
  }

  /** The explosion createExplosion makes for `b` when the random stream has
      already handed out `at` values. */
  function Spark(b: Blast, random: nat -> real, at: nat): Explosion {
    NewExplosion(b, random(at), random(at + 1))
  }

  /** The explosions createExplosion makes for the blasts `bs`, one call
      after the other, when the random stream has already handed out `from`
      values: each call draws two. */
  function Sparks(bs: seq<Blast>, random: nat -> real, from: nat): seq<Explosion>
  {
    seq(|bs|, k requires 0 <= k < |bs| => NewExplosion(bs[k], random(from + 2 * k), random(from + 2 * k + 1)))
  }
}
