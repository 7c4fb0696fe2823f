# Iron Dome arcade game: a verified model of its per-frame bookkeeping

The game (`docs/index.js`) is a canvas shooter. Threats of three kinds (drones,
cruise missiles, ballistic missiles) fall from the top of the screen. The
player clicks to launch interceptors towards the clicked point. Every frame,
`update()` does the following in order:

1. It moves the threats, bouncing them off the side edges.
2. It advances the interceptors. One that has reached its target point
   explodes and is removed.
3. It steps the explosions and drops the spent ones.
4. It removes threats that have hit the ground, counting hits. At `MAX_HITS`
   the game ends as lost and the frame stops.
5. It removes each threat that an interceptor reaches, together with that
   interceptor, counting interceptions.
6. It tests for victory.

Three spawn timers push threats while their kind's count lasts. `endGame`
stops the game once and rates the performance. `startGame` resets the state.

The model is organised as follows:

- **Records and one-record steps.** The records (`Threat`, `Missile`,
  `Explosion`) and what happens to one record in one frame are in module
  `Entities`. The distance tests reduce to comparisons of squared distances
  (`Geometry`).
- **The two list passes of `update()`.**
  - `GroundHits.Pass` and `Interception.Pass` are recursive specification
    functions over the list, run last-to-first as the source does.
  - Lemmas give their accounting: each removal happens exactly once, each
    removal is justified, the hit bound holds, and the survivors keep their
    order.
- **The missile and explosion filters.** `Lifecycle.Advance` and
  `Lifecycle.Fade` specify them.
- **The performance rating and progress bar.** These are in `Scoring`.
- **The game state.** The module-level variables of the script become the
  fields of class `Defense.Game`.
  - Every operation is a method. Each loop of the source is a `while` loop
    over the same indices, including the reverse loops with `splice`.
  - Each method is proved against the specification functions.
  - `Game.Valid()` is established by the constructor, and every entry point
    the page calls preserves it: `StartGame`, `SpawnTick`, `FireMissile`,
    `WinTimeout` and `Update`. `EndGame` also runs part-way through the
    ground-hit loop, so its contract states only the two fields it changes.
    `Valid()` states the conservation law: threats still to spawn + threats
    on screen + hits + interceptions = 320. It also states that the counts are never negative
    and that an active game has fewer than `MAX_HITS` hits.
- **A whole frame.** `Defense.NextFrame` composes the stages in source order.
  `Game.Update` is proved to produce exactly `NextFrame` of the state before
  it.

External functions and randomness become parameters and fields:

- **Square root and sine.** `Math.sqrt`/`Math.hypot` becomes a parameter
  `root: real -> real`, and `Math.sin` becomes a parameter `sin`. The
  predicate `Geometry.IsSqrt` states what is assumed of `root` where a lemma
  needs it.
- **Spawn timer rolls.** The `Math.random()` values a spawn tick draws are
  parameters of `SpawnTick`, each in [0, 1).
- **createExplosion's rolls.** The two values each `createExplosion` draws
  come from a stream `random: nat -> real`, a field of the game. The counter
  `drawn` records how many values have been used. The k-th explosion of a
  pass uses the values at `drawn + 2k` and `drawn + 2k + 1`.

## Model

| member | source | states |
|---|---|---|
| Geometry.HypotIsRoot | docs/index.js:311 | the distance is non-negative and its square is dx² + dy² |
| Geometry.HypotBelow | docs/index.js:364-366 | hypot(dx, dy) < r exactly when r > 0 and dx² + dy² < r² |
| Geometry.HypotAbove | docs/index.js:311-313 | hypot(dx, dy) > s exactly when s < 0 or dx² + dy² > s² |
| Entities.SpawnSpeed | docs/index.js:181-206 | for a roll in [0, 1), drones get speed in [1, 1.5), cruise missiles [2, 2.7), ballistic missiles [3, 4) |
| Entities.NewThreat | docs/index.js:152-165 | the spawned threat has its kind's size and starts at y = -size; for rolls in [0, 1) its x is in [size, width - size] (when width ≥ 2·size), its angle in [-0.1π, 0.1π); its speed is the kind's SpawnSpeed of the roll, in [1, 4) |
| Entities.MoveThreat | docs/index.js:282-293 | y grows by speed (1.2·speed for ballistic); inside the band x is the drift and the angle is kept; outside the band the angle is negated and x is clamped to the nearer edge; with width ≥ size the threat always ends inside [size/2, width - size/2] |
| Entities.SizeOf | docs/index.js:174-176 | sprite sizes 30 / 40 / 50 per kind; no contract of its own, it is used by NewThreat's |
| Entities.ColorOf | docs/index.js:368-372 | explosion colours lime / yellow / red per kind; no contract of its own, it is used by InterceptPass's |
| Entities.Drift | docs/index.js:281-287 | the horizontal move before the bounce test; no contract of its own, specified by MoveThreat's |
| Entities.MoveAll | docs/index.js:271-297 | the list keeps its length; every threat keeps its kind, size and speed; every threat no wider than the canvas ends inside the band [size/2, width - size/2] |
| Entities.NewMissile | docs/index.js:216-239 | the interceptor starts at the launcher's x = width/2, aims at the clicked point, starts at y = height − (the dome image's height / 3 when it has loaded, else 30), has speed 10, width 24 and height 48 |
| Entities.Fly | docs/index.js:313-315 | a moving interceptor keeps its target, speed and size |
| Entities.ArrivedIff | docs/index.js:309-313 | an interceptor is removed exactly when its squared distance to the target is at most speed² |
| Entities.FlyCloser | docs/index.js:313-315 | a moving interceptor ends the frame exactly `speed` closer to its target |
| Entities.StepExplosion | docs/index.js:330-336 | below maxRadius the radius grows by growSpeed and alpha is kept; otherwise the radius shrinks by shrinkSpeed and alpha drops by 0.05; position, colour and speeds are kept |
| Entities.NewExplosion | docs/index.js:243-254 | a new explosion is at the given point and colour with radius 5, alpha 1 and shrinkSpeed 1.5; for rolls in [0, 1), maxRadius is in [40, 60) and growSpeed in [3, 4) |
| GroundHits.Pass | docs/index.js:341-355 | the reverse splice loop, with its early return at MAX_HITS, as a recursive function; no contract of its own, specified by PassAccounting, PassBound, PassNoLoss and PassLoss |
| GroundHits.PassAccounting | docs/index.js:341-355 | every threat ends up either kept or removed, never both and never twice; every removed threat has its bottom edge below the canvas; hits rise by exactly the number removed |
| GroundHits.PassBound | docs/index.js:348-353 | starting below MAX_HITS, the pass never takes hits past MAX_HITS, and it reports the loss exactly when hits reach MAX_HITS |
| GroundHits.PassNoLoss | docs/index.js:341-355 | when the landed threats do not reach MAX_HITS, exactly the landed threats are removed, the others keep their order, and hits rise by their number |
| GroundHits.PassLoss | docs/index.js:348-353 | when they do, the game is lost with exactly MAX_HITS hits |
| Interception.CollidesIff | docs/index.js:364-366 | the collision test is dx² + dy² < reach² with a positive reach, reach = (size/2 + width/2) · 0.8 |
| Interception.LastHit | docs/index.js:361-380 | the inner loop stops at the last interceptor that collides with the threat, and no interceptor after it collides; it finds none exactly when none collides |
| Interception.FindInterceptor | docs/index.js:361-381 | the reverse inner loop with `break` returns the index LastHit describes |
| Interception.Remove | docs/index.js:374-375 | splice(j, 1) removes exactly one element, and only that one |
| Interception.Pass | docs/index.js:358-382 | the nested reverse loop as a recursive function, each threat seeing the interceptors left by the later-indexed ones; no contract of its own, specified by PassAccounting, PassClears and PassKeepsOrder |
| Interception.PassAccounting | docs/index.js:358-382 | every threat and every interceptor is either still present or in exactly one destroyed pair; each interception removes one threat and one interceptor; each destroyed pair collided |
| Interception.PassClears | docs/index.js:358-382 | after the pass no remaining threat collides with a remaining interceptor |
| Interception.PassKeepsOrder | docs/index.js:358-382 | the threats and interceptors that are not removed keep their relative order |
| Lifecycle.Advance | docs/index.js:300-327 | the missile loop and its filter as a recursive function; no contract of its own, specified by AdvanceSplits, AdvanceCounts and AdvanceKeepsTargets |
| Lifecycle.AdvanceSplits | docs/index.js:300-327 | by membership (AdvanceCounts gives multiplicities): exactly the arrived interceptors are removed; every other one moves and stays; nothing else enters either list |
| Lifecycle.AdvanceCounts | docs/index.js:309-327 | arrivals are counted with multiplicity: each arrived interceptor appears in the arrived list as often as in the old list, and one that has not arrived never appears there, so identical interceptors each leave an explosion |
| Lifecycle.AdvanceKeepsTargets | docs/index.js:313-327 | interceptors still flying keep their targets, speeds and sizes |
| Lifecycle.Fade | docs/index.js:330-338 | the explosion list never grows and every survivor has alpha > 0 and radius > 0 |
| Lifecycle.Stepped | docs/index.js:331-336 | every explosion stepped once, in order; no contract of its own, used by FadeCounts |
| Lifecycle.FadeCounts | docs/index.js:330-338 | the filter keeps every copy of a stepped explosion that is still alive and no copy of a spent one |
| Lifecycle.FadeKeeps | docs/index.js:330-338 | by membership (FadeCounts gives multiplicities): the survivors are exactly the stepped explosions that are still alive |
| Scoring.Label | docs/index.js:612-618 | the text shown for each verdict; no contract of its own |
| Scoring.Rate | docs/index.js:612-618 | Flawless exactly for a victory without hits, Excellent for any other victory, Valiant Effort exactly for a loss with more than half of the 320 threats intercepted, Needs Improvement otherwise |
| Scoring.Progress | docs/index.js:133-149 | the progress bar is clamped to [0, 100] and is the dealt-with share of the 320 threats, in percent, whenever that share is in range |
| Scoring.ProgressCounts | docs/index.js:133-149 | when every threat is still to spawn, on screen, a hit or an interception, the bar is (hits + intercepted) / 320 · 100 without clamping |
| Scoring.ProgressMonotone | docs/index.js:133-149 | the bar never moves back as threats are dealt with |
| Defense.MoveStage | docs/index.js:271-297 | the threat stage of a frame; no contract of its own, Game.MoveThreats is proved against it |
| Defense.MissileStage | docs/index.js:300-327 | the missile stage: Lifecycle.Advance plus one white explosion per arrival; no contract of its own, Game.AdvanceMissiles is proved against it |
| Defense.FadeStage | docs/index.js:330-338 | the explosion stage; no contract of its own, Game.FadeExplosions is proved against it |
| Defense.GroundLost | docs/index.js:348-353 | whether the ground-hit loop ends the game; no contract of its own, characterised by GroundHits.PassBound and NextFrameCounts |
| Defense.GroundStage | docs/index.js:341-355 | the ground stage: GroundHits.Pass plus one orange explosion per removal; no contract of its own, Game.GroundPass is proved against it |
| Defense.InterceptStage | docs/index.js:358-382 | the interception stage: Interception.Pass plus one explosion per pair; no contract of its own, Game.InterceptPass is proved against it |
| Defense.Landing | docs/index.js:271-338 | the first three stages composed; no contract of its own, Game.Animate is proved against it |
| Defense.NextFrame | docs/index.js:267-397 | one frame, stopping after the ground stage on a loss; no contract of its own, specified by NextFrameCounts and NextFrameClears, and Game.Update is proved against it |
| Defense.NextFrameCounts | docs/index.js:267-397 | over one frame, threats on screen + hits + interceptions is kept; hits stay at most MAX_HITS; the frame loses the game exactly when hits reach MAX_HITS; every interception uses up one interceptor |
| Defense.NextFrameClears | docs/index.js:358-382 | a frame that does not lose the game leaves no threat within reach of an interceptor |
| Defense.Game.constructor | docs/index.js:119-128 | the initial state: empty lists, no hits or interceptions, the game inactive, and counts 170 / 30 / 120 |
| Defense.Game.ProgressIsDealtWith | docs/index.js:133-149 | in a consistent state the bar shows the share of threats hit or intercepted; once the victory test passes, every threat but the ground hits was intercepted |
| Defense.Game.StartGame | docs/index.js:632-659 | before the assets load nothing changes; afterwards the lists and counters are reset, the counts are 170 / 30 / 120, and the game is active |
| Defense.Game.SpawnTick | docs/index.js:179-211 | a spawn happens exactly when the kind's count is positive and the game is active; it appends NewThreat and lowers that count by one; nothing else changes |
| Defense.Game.FireMissile | docs/index.js:216-239 | an active game with the interceptor image loaded appends exactly NewMissile; otherwise nothing changes |
| Defense.Game.CreateExplosion | docs/index.js:243-254 | pushes exactly one NewExplosion made from the next two random values |
| Defense.Game.EndGame | docs/index.js:584-618 | the first call stops the game and records Rate of the final hits and interceptions; a call on an ended game changes nothing |
| Defense.Game.WinTimeout | docs/index.js:393-395 | the delayed victory check ends an active game as a victory and leaves an ended one alone |
| Defense.Game.MoveThreats | docs/index.js:271-297 | every threat is replaced by its MoveThreat, in place, and all stay within the band |
| Defense.Game.AdvanceMissiles | docs/index.js:300-327 | the interceptors become Advance's flying list; one white explosion per arrival is appended at its target, in list order |
| Defense.Game.FadeExplosions | docs/index.js:330-338 | the explosion list becomes Fade of the old one |
| Defense.Game.GroundPass | docs/index.js:341-355 | the threats and hits become GroundHits.Pass of the old ones, with one orange ground explosion per removal in the order met; on the loss the game is ended with the loss verdict |
| Defense.Game.InterceptPass | docs/index.js:358-382 | threats, interceptors and the interception count become Interception.Pass of the old ones, with one explosion per pair in the threat kind's colour |
| Defense.Game.Animate | docs/index.js:271-338 | the first three stages of a frame produce Landing of the state before them |
| Defense.Game.Strike | docs/index.js:341-382 | the ground and interception loops produce the ground stage, then the interception stage unless the game was lost; the game stays active exactly when it was not lost |
| Defense.Game.Update | docs/index.js:267-397 | an ended game is left unchanged; otherwise the new state is NextFrame of the old one, the state invariant holds, the verdict is recorded on a loss, and the victory check is scheduled exactly when nothing is left to spawn or on screen in a game still active |

## Left out

- Drawing (`draw`) is not modelled. Nor are canvas resizing, asset loading,
  audio (`playSound`), the DOM writes of `updateUI` and `endGame`, and the
  click handler's coordinate scaling. They are output or browser plumbing.
  `startGame`'s asset test is the `assetsLoaded` parameter. `fireMissile`'s
  image tests are parameters too.
- Timers (`setInterval`, `setTimeout`, `requestAnimationFrame`) are not
  modelled.
  - A spawn tick is a call to `SpawnTick`.
  - The delayed victory check is `WinTimeout`, and `Update` returns whether
    a frame schedules it.
  - `startGame`'s 500 ms retry is `StartGame` returning false.
  - The spawn timers' self-clearing branch is scheduling only.
- `Date.now()` and the game duration are not modelled.
- The trail particle lists are not modelled. Nor are the `Math.random()`
  draws that decide when a trail point is added. The `random` stream holds
  only the values handed to `createExplosion`.
- The following are not modelled: the interceptor's sprite angle
  (`Math.atan2`), the threat `rotation` field, and the unused
  `interceptedByMissile` flag. They feed only the drawing.
- Numbers are `real`. IEEE rounding is not modelled. `Math.PI` is
  3.141592653589793, the shortest decimal that reads back as the double value
  of π. It is not that double's exact decimal expansion, which is longer.
- `Math.sin` and `Math.sqrt`/`Math.hypot` are the parameters `sin` and
  `root`. Only `IsSqrt(root)` is assumed of the root, and only by the lemmas
  that relate distances to squared distances.
- The canvas size is fixed for a game (constants `width` and `height`).
- Defense.Game.AdvanceMissiles: the source marks arrivals in `forEach` and
  removes them with `filter` right after. The model fuses the two into one
  loop. Nothing reads `reachedTarget` between them.
- Defense.Game.GroundPass and Defense.Game.InterceptPass: the reverse loops
  splice local copies of the lists and counters, and store them into the
  fields at the end of the loop.
  - The ground loop also stores them just before `endGame(false)`.
  - Nothing else reads them while the loop runs.
  - `endGame` reads only `hits` and `intercepted`.

  So aliasing of the global arrays during the loop is not modelled.
- Defense.Game.Update: the two halves of the frame are the methods `Animate`
  and `Strike`. The ground-hit loop's early `return` is a verdict of `Strike`
  that `Update` passes on.
