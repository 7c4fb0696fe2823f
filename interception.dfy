/** The interception loop of update(): for each threat, from the last to the
    first, the missiles are scanned from the last to the first; the first
    missile close enough destroys the threat, both are removed together and
    the scan moves on to the next threat. */
module Interception {
  import opened Geometry
  import opened Entities

  /** The distance between the centres is below 80% of the sum of the half sizes. */
  predicate Collides(root: real -> real, t: Threat, m: Missile) {
    Hypot(root, t.x - m.x, t.y - m.y) < (t.size / 2.0 + m.width / 2.0) * 0.8
  }

  /** The collision test, without a square root. */
  lemma {:induction false} CollidesIff(root: real -> real, t: Threat, m: Missile)
    requires IsSqrt(root)
    ensures var reach := (t.size / 2.0 + m.width / 2.0) * 0.8;
      Collides(root, t, m) <==> 0.0 < reach && SqNorm(t.x - m.x, t.y - m.y) < reach * reach
  {
    HypotBelow(root, t.x - m.x, t.y - m.y, (t.size / 2.0 + m.width / 2.0) * 0.8);
  }

  /** The index the inner loop stops at: the last missile that collides with `t`. */
  function LastHit(root: real -> real, t: Threat, ms: seq<Missile>): (r: Option<nat>)
    ensures r.Some? ==> r.value < |ms| && Collides(root, t, ms[r.value])
    ensures r.Some? ==> forall k :: r.value < k < |ms| ==> !Collides(root, t, ms[k])
    ensures r.None? ==> forall k :: 0 <= k < |ms| ==> !Collides(root, t, ms[k])
  {
    if ms == [] then None
    else if Collides(root, t, ms[|ms| - 1]) then Some(|ms| - 1)
    else LastHit(root, t, ms[..|ms| - 1])
  }

  /** The inner loop: scans the missiles from the last to the first and stops
      at the first one that collides with `t`. */
  method FindInterceptor(root: real -> real, t: Threat, ms: seq<Missile>) returns (hit: Option<nat>)
    ensures hit == LastHit(root, t, ms)
  {
    var j := |ms| - 1;
    while j >= 0
      invariant -1 <= j < |ms|
      invariant LastHit(root, t, ms) == LastHit(root, t, ms[..j + 1])
    {
      assert ms[..j + 1][..j] == ms[..j];
      if Collides(root, t, ms[j]) {
        return Some(j);
      }
      j := j - 1;
    }
    return None;
  }

  /** `s` without its element at index j (Array.prototype.splice(j, 1)). */
  function Remove<T>(s: seq<T>, j: nat): (r: seq<T>)
    requires j < |s|
    ensures |r| == |s| - 1
    ensures multiset(s) == multiset(r) + multiset{s[j]}
  {
    assert s == s[..j] + [s[j]] + s[j + 1..];
    s[..j] + s[j + 1..]
  }

  /** What one interception loop leaves behind: the remaining threats and
      missiles, and the destroyed (threat, missile) pairs in the order the loop
      met them. */
  datatype Outcome = Outcome(threats: seq<Threat>, missiles: seq<Missile>, pairs: seq<(Threat, Missile)>)

  /** The loop, run from the last threat to the first: the missiles a threat
      sees are those that earlier (later-indexed) threats did not use up. */
  function Pass(root: real -> real, ts: seq<Threat>, ms: seq<Missile>): Outcome
  {
    if ts == [] then Outcome([], ms, [])
    else
      var n := |ts| - 1;
      var t := ts[n];
      match LastHit(root, t, ms)
      case None =>
        var o := Pass(root, ts[..n], ms);
        o.(threats := o.threats + [t])
      case Some(j) =>
        var o := Pass(root, ts[..n], Remove(ms, j));
        o.(pairs := [(t, ms[j])] + o.pairs)
  }

  function Threats(ps: seq<(Threat, Missile)>): seq<Threat> {
    if ps == [] then [] else [ps[0].0] + Threats(ps[1..])
  }

  function Missiles(ps: seq<(Threat, Missile)>): seq<Missile> {
    if ps == [] then [] else [ps[0].1] + Missiles(ps[1..])
  }

  /** The explosions an interception loop leaves: `es` is `start` followed by
      one explosion per destroyed pair, in order, at the threat and in its
      kind's colour; the k-th uses the random values from + 2k and from + 2k + 1. */
  ghost predicate Flashes(es: seq<Explosion>, start: seq<Explosion>, pairs: seq<(Threat, Missile)>,
                          random: nat -> real, from: nat) {
    |es| == |start| + |pairs| && es[..|start|] == start &&
    forall k :: 0 <= k < |pairs| ==>
      es[|start| + k] == NewExplosion(Blast(pairs[k].0.x, pairs[k].0.y, ColorOf(pairs[k].0.kind)),
                                      random(from + 2 * k), random(from + 2 * k + 1))
  }

  /** The createExplosion arguments of the loop, one per destroyed pair. */
  function Blasts(pairs: seq<(Threat, Missile)>): seq<Blast>
  {
    seq(|pairs|, k requires 0 <= k < |pairs| => Blast(pairs[k].0.x, pairs[k].0.y, ColorOf(pairs[k].0.kind)))
  }

  lemma {:induction false} FlashesAre(es: seq<Explosion>, start: seq<Explosion>, pairs: seq<(Threat, Missile)>, random: nat -> real, from: nat)
    requires Flashes(es, start, pairs, random, from)
    ensures es == start + Sparks(Blasts(pairs), random, from)
  {
  }

  /** The loop's state after it has looked at the threats from index i + 1 on:
      the outcome of the rest of the loop, on the unvisited prefix and the
      missiles still there, combined with the threats already kept and the
      pairs already destroyed. */
  function Resume(root: real -> real, prefix: seq<Threat>, ms: seq<Missile>, kept: seq<Threat>,
                  done: seq<(Threat, Missile)>): Outcome {
    var o := Pass(root, prefix, ms);
    Outcome(o.threats + kept, o.missiles, done + o.pairs)
  }

  /** Looking at the last threat of the unvisited prefix: a threat no missile
      reaches is kept, ... */
  lemma {:induction false} ResumeMiss(root: real -> real, prefix: seq<Threat>, ms: seq<Missile>, kept: seq<Threat>,
                   done: seq<(Threat, Missile)>)
    requires prefix != [] && LastHit(root, prefix[|prefix| - 1], ms).None?
    ensures var n := |prefix| - 1;
      Resume(root, prefix, ms, kept, done) == Resume(root, prefix[..n], ms, [prefix[n]] + kept, done)
  {
  }

  /** ... and one that a missile reaches is removed together with it. */
  lemma {:induction false} ResumeHit(root: real -> real, prefix: seq<Threat>, ms: seq<Missile>, kept: seq<Threat>,
                  done: seq<(Threat, Missile)>, j: nat)
    requires prefix != [] && j < |ms|
    requires LastHit(root, prefix[|prefix| - 1], ms) == Some(j)
    ensures var n := |prefix| - 1;
      Resume(root, prefix, ms, kept, done)
      == Resume(root, prefix[..n], Remove(ms, j), kept, done + [(prefix[n], ms[j])])
  {
  }

  /** One more destroyed pair, one more explosion after the others. */
  lemma {:induction false} FlashesStep(es: seq<Explosion>, es': seq<Explosion>, start: seq<Explosion>,
                                       pairs: seq<(Threat, Missile)>, t: Threat, m: Missile,
                                       random: nat -> real, from: nat)
    requires Flashes(es, start, pairs, random, from)
    requires var at := from + 2 * |pairs|;
      es' == es + [Spark(Blast(t.x, t.y, ColorOf(t.kind)), random, at)]
    ensures Flashes(es', start, pairs + [(t, m)], random, from)
  {
    assert es'[..|start|] == es[..|start|];
  }

  /** The loop on the lists `ts` and `ms` it is working on, after it has
      looked at the threats from index i + 1 on: `ts` is the unvisited prefix
      followed by the threats kept, and `o`, what the whole loop produces, is
      what the rest of the loop will make of the current state. */
  ghost predicate Midway(root: real -> real, o: Outcome, ts: seq<Threat>, ms: seq<Missile>, i: int,
                         prefix: seq<Threat>, kept: seq<Threat>, done: seq<(Threat, Missile)>) {
    -1 <= i && |prefix| == i + 1 && ts == prefix + kept && o == Resume(root, prefix, ms, kept, done)
  }

  lemma {:induction false} MidwayStart(root: real -> real, ts: seq<Threat>, ms: seq<Missile>)
    ensures Midway(root, Pass(root, ts, ms), ts, ms, |ts| - 1, ts, [], [])
  {
    var o := Pass(root, ts, ms);
    assert o.threats + [] == o.threats && [] + o.pairs == o.pairs;
  }

  /** A threat no missile reaches stays, ... */
  lemma {:induction false} MidwayMiss(root: real -> real, o: Outcome, ts: seq<Threat>, ms: seq<Missile>, i: int,
                   prefix: seq<Threat>, kept: seq<Threat>, done: seq<(Threat, Missile)>)
    requires Midway(root, o, ts, ms, i, prefix, kept, done) && 0 <= i && LastHit(root, ts[i], ms).None?
    ensures Midway(root, o, ts, ms, i - 1, prefix[..i], [ts[i]] + kept, done)
  {
    assert ts[i] == prefix[i];
    assert prefix + kept == prefix[..i] + ([prefix[i]] + kept);
    ResumeMiss(root, prefix, ms, kept, done);
  }

  /** ... and one that missile j reaches is spliced out together with it. */
  lemma {:induction false} MidwayHit(root: real -> real, o: Outcome, ts: seq<Threat>, ms: seq<Missile>, i: int,
                  prefix: seq<Threat>, kept: seq<Threat>, done: seq<(Threat, Missile)>, j: nat)
    requires Midway(root, o, ts, ms, i, prefix, kept, done) && 0 <= i && j < |ms|
    requires LastHit(root, ts[i], ms) == Some(j)
    ensures Midway(root, o, ts[..i] + ts[i + 1..], ms[..j] + ms[j + 1..], i - 1, prefix[..i], kept,
                   done + [(ts[i], ms[j])])
  {
    assert ts[i] == prefix[i];
    assert ts[..i] == prefix[..i] && ts[i + 1..] == kept;
    ResumeHit(root, prefix, ms, kept, done, j);
  }

  /** Once every threat has been looked at, the loop has produced `o`. */
  lemma {:induction false} MidwayEnd(root: real -> real, o: Outcome, ts: seq<Threat>, ms: seq<Missile>,
                  prefix: seq<Threat>, kept: seq<Threat>, done: seq<(Threat, Missile)>)
    requires Midway(root, o, ts, ms, -1, prefix, kept, done)
    ensures o == Outcome(ts, ms, done)
  {
    assert prefix == [];
    assert ts == kept && done + [] == done;
  }

  /** Each interception removes exactly one threat and exactly one missile:
      every threat and every missile is either still present or in exactly
      one destroyed pair, and each destroyed pair collided when it was met. */
  lemma {:induction false} PassAccounting(root: real -> real, ts: seq<Threat>, ms: seq<Missile>)
    ensures multiset(ts) == multiset(Pass(root, ts, ms).threats) + multiset(Threats(Pass(root, ts, ms).pairs))
    ensures multiset(ms) == multiset(Pass(root, ts, ms).missiles) + multiset(Missiles(Pass(root, ts, ms).pairs))
    ensures |Pass(root, ts, ms).threats| + |Pass(root, ts, ms).pairs| == |ts|
    ensures |Pass(root, ts, ms).missiles| + |Pass(root, ts, ms).pairs| == |ms|
    ensures forall p :: p in Pass(root, ts, ms).pairs ==> Collides(root, p.0, p.1)
  {
    if ts != [] {
      var n := |ts| - 1;
      var t := ts[n];
      assert ts == ts[..n] + [t];
      match LastHit(root, t, ms)
      case None =>
        PassAccounting(root, ts[..n], ms);
      case Some(j) =>
        var o := Pass(root, ts[..n], Remove(ms, j));
        PassAccounting(root, ts[..n], Remove(ms, j));
        assert Threats([(t, ms[j])] + o.pairs) == [t] + Threats(o.pairs);
        assert Missiles([(t, ms[j])] + o.pairs) == [ms[j]] + Missiles(o.pairs);
        assert |Threats(o.pairs)| == |o.pairs| by { SizeOfThreats(o.pairs); }
    }
  }

  lemma {:induction false} SizeOfThreats(ps: seq<(Threat, Missile)>)
    ensures |Threats(ps)| == |ps|
  {
    if ps != [] {
      SizeOfThreats(ps[1..]);
    }
  }

  /** The missiles a loop leaves were all there before it. */
  lemma {:induction false} PassMissilesFrom(root: real -> real, ts: seq<Threat>, ms: seq<Missile>)
    ensures forall m :: m in Pass(root, ts, ms).missiles ==> m in ms
  {
    if ts != [] {
      var n := |ts| - 1;
      match LastHit(root, ts[n], ms)
      case None =>
        PassMissilesFrom(root, ts[..n], ms);
      case Some(j) =>
        PassMissilesFrom(root, ts[..n], Remove(ms, j));
        forall m | m in Remove(ms, j)
          ensures m in ms
        {
          assert m in multiset(Remove(ms, j));
        }
    }
  }

  /** After the loop no remaining threat collides with a remaining missile. */
  lemma {:induction false} PassClears(root: real -> real, ts: seq<Threat>, ms: seq<Missile>)
    ensures forall t, m :: t in Pass(root, ts, ms).threats && m in Pass(root, ts, ms).missiles ==> !Collides(root, t, m)
  {
    if ts != [] {
      var n := |ts| - 1;
      var t := ts[n];
      match LastHit(root, t, ms)
      case None =>
        var o := Pass(root, ts[..n], ms);
        assert Pass(root, ts, ms) == o.(threats := o.threats + [t]);
        PassClears(root, ts[..n], ms);
        PassMissilesFrom(root, ts[..n], ms);
        forall u, m | u in o.threats + [t] && m in o.missiles
          ensures !Collides(root, u, m)
        {
          if u !in o.threats {
            var k :| 0 <= k < |ms| && ms[k] == m;
          }
        }
      case Some(j) =>
        PassClears(root, ts[..n], Remove(ms, j));
    }
  }

  /** `a` is `b` with some elements taken out, the rest in their order. */
  ghost predicate Subsequence<T>(a: seq<T>, b: seq<T>)
    decreases |b|
  {
    a == [] ||
    (b != [] &&
     ((a[|a| - 1] == b[|b| - 1] && Subsequence(a[..|a| - 1], b[..|b| - 1])) ||
      Subsequence(a, b[..|b| - 1])))
  }

  lemma {:induction false} SubsequenceRefl<T>(a: seq<T>)
    ensures Subsequence(a, a)
  {
    if a != [] {
      SubsequenceRefl(a[..|a| - 1]);
    }
  }

  lemma {:induction false} SubsequenceTrans<T>(a: seq<T>, b: seq<T>, c: seq<T>)
    requires Subsequence(a, b) && Subsequence(b, c)
    ensures Subsequence(a, c)
    decreases |c|
  {
    if a != [] {
      var nc := |c| - 1;
      if Subsequence(b, c[..nc]) {
        SubsequenceTrans(a, b, c[..nc]);
      } else {
        var nb := |b| - 1;
        assert b[nb] == c[nc] && Subsequence(b[..nb], c[..nc]);
        if a[|a| - 1] == b[nb] && Subsequence(a[..|a| - 1], b[..nb]) {
          SubsequenceTrans(a[..|a| - 1], b[..nb], c[..nc]);
        } else {
          SubsequenceTrans(a, b[..nb], c[..nc]);
        }
      }
    }
  }

  lemma {:induction false} SubsequenceRemove<T>(s: seq<T>, j: nat)
    requires j < |s|
    ensures Subsequence(Remove(s, j), s)
    decreases |s|
  {
    var n := |s| - 1;
    if j == n {
      assert Remove(s, j) == s[..n];
      SubsequenceRefl(s[..n]);
    } else {
      assert Remove(s, j)[..|Remove(s, j)| - 1] == Remove(s[..n], j);
      SubsequenceRemove(s[..n], j);
    }
  }

  /** The threats and the missiles that are not removed keep their relative order. */
  lemma {:induction false} PassKeepsOrder(root: real -> real, ts: seq<Threat>, ms: seq<Missile>)
    ensures Subsequence(Pass(root, ts, ms).threats, ts)
    ensures Subsequence(Pass(root, ts, ms).missiles, ms)
  {
    if ts == [] {
      SubsequenceRefl(ms);
    } else {
      var n := |ts| - 1;
      var t := ts[n];
      match LastHit(root, t, ms)
      case None =>
        var o := Pass(root, ts[..n], ms);
        PassKeepsOrder(root, ts[..n], ms);
        assert (o.threats + [t])[..|o.threats|] == o.threats;
      case Some(j) =>
        var o := Pass(root, ts[..n], Remove(ms, j));
        PassKeepsOrder(root, ts[..n], Remove(ms, j));
        SubsequenceRemove(ms, j);
        SubsequenceTrans(o.missiles, Remove(ms, j), ms);
        assert o.threats == [] || Subsequence(o.threats, ts[..n]);
    }
  }
}
