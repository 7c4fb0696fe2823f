/** The ground-hit loop of update(): threats whose bottom edge is below the
    canvas are removed, each costs one hit and leaves an orange explosion on
    the ground line, and the loop stops at once when the hits reach MaxHits. */
module GroundHits {
  import opened Entities

  /** The bottom edge of the sprite is below the canvas. */
  predicate Landed(t: Threat, height: real) {
    t.y + t.size / 2.0 > height
  }

  /** What one ground-hit loop leaves behind: the remaining threats, the new
      hit count, whether the game was lost, and the removed threats in the
      order the loop met them. */
  datatype Outcome = Outcome(threats: seq<Threat>, hits: int, lost: bool, landed: seq<Threat>)

  /** The loop, run from the last threat to the first. When the hit that
      reaches MaxHits is taken the loop returns, leaving the threats it has
      not yet looked at in place. */
  function Pass(ts: seq<Threat>, hits: int, height: real): Outcome
  {
    if ts == [] then Outcome([], hits, false, [])
    else
      var n := |ts| - 1;
      var t := ts[n];
      if Landed(t, height) then
        if hits + 1 >= MaxHits then Outcome(ts[..n], hits + 1, true, [t])
        else
          var o := Pass(ts[..n], hits + 1, height);
          o.(landed := [t] + o.landed)
      else
        var o := Pass(ts[..n], hits, height);
        o.(threats := o.threats + [t])
  }

  /** How many of `ts` have landed. */
  function CountLanded(ts: seq<Threat>, height: real): nat {
    if ts == [] then 0
    else CountLanded(ts[..|ts| - 1], height) + (if Landed(ts[|ts| - 1], height) then 1 else 0)
  }

  /** The threats of `ts` that have not landed, in their order. */
  function Aloft(ts: seq<Threat>, height: real): (r: seq<Threat>)
    ensures |r| + CountLanded(ts, height) == |ts|
    ensures forall t :: t in r ==> t in ts && !Landed(t, height)
    ensures forall t :: t in ts && !Landed(t, height) ==> t in r
  {
    if ts == [] then []
    else
      var n := |ts| - 1;
      var r := Aloft(ts[..n], height);
      assert ts == ts[..n] + [ts[n]];
      if Landed(ts[n], height) then r else r + [ts[n]]
  }

  /** The loop's state after it has looked at the threats from index i + 1 on:
      the outcome of the rest of the loop, on the unvisited prefix, combined with
      the threats already kept and the threats already removed. */
  function Resume(prefix: seq<Threat>, hits: int, height: real, kept: seq<Threat>, done: seq<Threat>): Outcome {
    var o := Pass(prefix, hits, height);
    Outcome(o.threats + kept, o.hits, o.lost, done + o.landed)
  }

  /** Looking at the last threat of the unvisited prefix: the hit that
      reaches MaxHits ends the loop, ... */
  lemma {:induction false} ResumeLoss(prefix: seq<Threat>, hits: int, height: real, kept: seq<Threat>, done: seq<Threat>)
    requires prefix != [] && Landed(prefix[|prefix| - 1], height) && hits + 1 >= MaxHits
    ensures var n := |prefix| - 1;
      Resume(prefix, hits, height, kept, done) == Outcome(prefix[..n] + kept, hits + 1, true, done + [prefix[n]])
  {
  }

  /** ... any other landed threat is removed and the loop goes on, ... */
  lemma {:induction false} ResumeHit(prefix: seq<Threat>, hits: int, height: real, kept: seq<Threat>, done: seq<Threat>)
    requires prefix != [] && Landed(prefix[|prefix| - 1], height) && hits + 1 < MaxHits
    ensures var n := |prefix| - 1;
      Resume(prefix, hits, height, kept, done) == Resume(prefix[..n], hits + 1, height, kept, done + [prefix[n]])
  {
  }

  /** ... and a threat still in the air is kept. */
  lemma {:induction false} ResumeMiss(prefix: seq<Threat>, hits: int, height: real, kept: seq<Threat>, done: seq<Threat>)
    requires prefix != [] && !Landed(prefix[|prefix| - 1], height)
    ensures var n := |prefix| - 1;
      Resume(prefix, hits, height, kept, done) == Resume(prefix[..n], hits, height, [prefix[n]] + kept, done)
  {
  }

  /** The explosions a pass leaves: `es` is `start` followed by one explosion
      per removed threat, in order, at its x on the ground line, in orange;
      the k-th uses the random values from + 2k and from + 2k + 1. */
  ghost predicate Flashes(es: seq<Explosion>, start: seq<Explosion>, landed: seq<Threat>, height: real,
                          random: nat -> real, from: nat) {
    |es| == |start| + |landed| && es[..|start|] == start &&
    forall k :: 0 <= k < |landed| ==>
      es[|start| + k] == NewExplosion(Blast(landed[k].x, height, Orange), random(from + 2 * k), random(from + 2 * k + 1))
  }

  /** The createExplosion arguments of a pass, one per removed threat. */
  function Blasts(landed: seq<Threat>, height: real): seq<Blast>
  {
    seq(|landed|, k requires 0 <= k < |landed| => Blast(landed[k].x, height, Orange))
  }

  lemma {:induction false} FlashesAre(es: seq<Explosion>, start: seq<Explosion>, landed: seq<Threat>, height: real,
                   random: nat -> real, from: nat)
    requires Flashes(es, start, landed, height, random, from)
    ensures es == start + Sparks(Blasts(landed, height), random, from)
  {
  }

  /** One more removed threat, one more explosion after the others. */
  lemma {:induction false} FlashesStep(es: seq<Explosion>, es': seq<Explosion>, start: seq<Explosion>,
                                       landed: seq<Threat>, t: Threat, height: real,
                                       random: nat -> real, from: nat)
    requires Flashes(es, start, landed, height, random, from)
    requires var at := from + 2 * |landed|;
      es' == es + [Spark(Blast(t.x, height, Orange), random, at)]
    ensures Flashes(es', start, landed + [t], height, random, from)
  {
    assert es'[..|start|] == es[..|start|];
  }

  /** The loop on the list `ts` it is working on, after it has looked at the
      threats from index i + 1 on: `ts` is the unvisited prefix followed by the
      threats kept, and `o`, what the whole loop produces, is what the rest of
      the loop will make of the current state. */
  ghost predicate Midway(o: Outcome, ts: seq<Threat>, i: int, hits: int, height: real,
                         prefix: seq<Threat>, kept: seq<Threat>, done: seq<Threat>) {
    -1 <= i && |prefix| == i + 1 && ts == prefix + kept && hits < MaxHits &&
    o == Resume(prefix, hits, height, kept, done)
  }

  lemma {:induction false} MidwayStart(ts: seq<Threat>, hits: int, height: real)
    requires hits < MaxHits
    ensures Midway(Pass(ts, hits, height), ts, |ts| - 1, hits, height, ts, [], [])
  {
    var o := Pass(ts, hits, height);
    assert o.threats + [] == o.threats && [] + o.landed == o.landed;
  }

  /** At a landed threat the loop splices it out and takes a hit; at MaxHits
      it stops with the threats it has not looked at still in place. */
  lemma {:induction false} MidwayHit(o: Outcome, ts: seq<Threat>, i: int, hits: int, height: real,
                  prefix: seq<Threat>, kept: seq<Threat>, done: seq<Threat>)
    requires Midway(o, ts, i, hits, height, prefix, kept, done) && 0 <= i && Landed(ts[i], height)
    ensures hits + 1 < MaxHits ==>
      Midway(o, ts[..i] + ts[i + 1..], i - 1, hits + 1, height, prefix[..i], kept, done + [ts[i]])
    ensures hits + 1 >= MaxHits ==> o == Outcome(ts[..i] + ts[i + 1..], hits + 1, true, done + [ts[i]])
  {
    assert ts[i] == prefix[i];
    assert ts[..i] == prefix[..i] && ts[i + 1..] == kept;
    if hits + 1 < MaxHits {
      ResumeHit(prefix, hits, height, kept, done);
    } else {
      ResumeLoss(prefix, hits, height, kept, done);
    }
  }

  /** A threat in the air stays. */
  lemma {:induction false} MidwayMiss(o: Outcome, ts: seq<Threat>, i: int, hits: int, height: real,
                   prefix: seq<Threat>, kept: seq<Threat>, done: seq<Threat>)
    requires Midway(o, ts, i, hits, height, prefix, kept, done) && 0 <= i && !Landed(ts[i], height)
    ensures Midway(o, ts, i - 1, hits, height, prefix[..i], [ts[i]] + kept, done)
  {
    assert ts[i] == prefix[i];
    assert prefix + kept == prefix[..i] + ([prefix[i]] + kept);
    ResumeMiss(prefix, hits, height, kept, done);
  }

  /** Once every threat has been looked at, the loop has produced `o`. */
  lemma {:induction false} MidwayEnd(o: Outcome, ts: seq<Threat>, hits: int, height: real,
                  prefix: seq<Threat>, kept: seq<Threat>, done: seq<Threat>)
    requires Midway(o, ts, -1, hits, height, prefix, kept, done)
    ensures o == Outcome(ts, hits, false, done)
  {
    assert prefix == [];
    assert ts == kept && done + [] == done;
  }

  /** Every threat ends up either still in the list or removed, never both and
      never twice; each removal is a landed threat and costs exactly one hit. */
  lemma {:induction false} PassAccounting(ts: seq<Threat>, hits: int, height: real)
    ensures multiset(ts) == multiset(Pass(ts, hits, height).threats) + multiset(Pass(ts, hits, height).landed)
    ensures Pass(ts, hits, height).hits == hits + |Pass(ts, hits, height).landed|
    ensures forall t :: t in Pass(ts, hits, height).landed ==> Landed(t, height)
  {
    if ts != [] {
      var n := |ts| - 1;
      assert ts == ts[..n] + [ts[n]];
      if Landed(ts[n], height) {
        if hits + 1 < MaxHits {
          PassAccounting(ts[..n], hits + 1, height);
        }
      } else {
        PassAccounting(ts[..n], hits, height);
      }
    }
  }

  /** Starting below MaxHits, the loop never takes the count past it, and it
      reports a loss exactly when the count reaches it. */
  lemma {:induction false} PassBound(ts: seq<Threat>, hits: int, height: real)
    requires hits < MaxHits
    ensures hits <= Pass(ts, hits, height).hits <= MaxHits
    ensures Pass(ts, hits, height).lost <==> Pass(ts, hits, height).hits == MaxHits
  {
    if ts != [] {
      var n := |ts| - 1;
      if Landed(ts[n], height) {
        if hits + 1 < MaxHits {
          PassBound(ts[..n], hits + 1, height);
        }
      } else {
        PassBound(ts[..n], hits, height);
      }
    }
  }

  /** When the landed threats do not bring the count to MaxHits, the loop
      removes exactly the landed threats, keeps the others in order, and adds
      their number to the hits. */
  lemma {:induction false} PassNoLoss(ts: seq<Threat>, hits: int, height: real)
    requires hits + CountLanded(ts, height) < MaxHits
    ensures Pass(ts, hits, height).threats == Aloft(ts, height)
    ensures Pass(ts, hits, height).hits == hits + CountLanded(ts, height)
    ensures !Pass(ts, hits, height).lost
  {
    if ts != [] {
      var n := |ts| - 1;
      if Landed(ts[n], height) {
        PassNoLoss(ts[..n], hits + 1, height);
      } else {
        PassNoLoss(ts[..n], hits, height);
      }
    }
  }

  /** When they do, the game is lost with exactly MaxHits hits. */
  lemma {:induction false} PassLoss(ts: seq<Threat>, hits: int, height: real)
    requires hits < MaxHits <= hits + CountLanded(ts, height)
    ensures Pass(ts, hits, height).lost && Pass(ts, hits, height).hits == MaxHits
  {
    var n := |ts| - 1;
    if Landed(ts[n], height) {
      if hits + 1 < MaxHits {
        PassLoss(ts[..n], hits + 1, height);
      }
    } else {
      PassLoss(ts[..n], hits, height);
    }
  }
}
