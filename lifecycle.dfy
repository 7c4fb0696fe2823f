/** The two filters of update(): interceptors that reach their target point
    are removed, each leaving a white explosion there, the others move on; and
    explosions step once, the spent ones being dropped. */
module Lifecycle {
  import opened Geometry
  import opened Entities

  /** Every missile moves at a non-negative speed, so a missile still flying is
      a positive distance from its target. */
  predicate Steady(ms: seq<Missile>) {
    forall m :: m in ms ==> 0.0 <= m.speed
  }

  /** What the missile loop and its filter leave: the missiles still flying
      (moved one frame) and the ones that arrived, both in list order. */
  datatype Flight = Flight(flying: seq<Missile>, arrived: seq<Missile>)

  function Advance(root: real -> real, ms: seq<Missile>): (f: Flight)
    requires Steady(ms)
  {
    if ms == [] then Flight([], [])
    else
      var n := |ms| - 1;
      var m := ms[n];
      assert ms == ms[..n] + [m];
      var f := Advance(root, ms[..n]);
      if Arrived(root, m) then f.(arrived := f.arrived + [m])
      else f.(flying := f.flying + [Fly(root, m)])
  }

  /** One more missile of the loop: it either joins the arrived list or moves and joins the flying list. */
  lemma {:induction false} AdvanceStep(root: real -> real, ms: seq<Missile>, i: nat, flying: seq<Missile>, arrived: seq<Missile>)
    requires Steady(ms) && i < |ms|
    requires Steady(ms[..i]) && Advance(root, ms[..i]) == Flight(flying, arrived)
    ensures 0.0 <= ms[i].speed && Steady(ms[..i + 1])
    ensures Arrived(root, ms[i]) ==> Advance(root, ms[..i + 1]) == Flight(flying, arrived + [ms[i]])
    ensures !Arrived(root, ms[i]) ==> Advance(root, ms[..i + 1]) == Flight(flying + [Fly(root, ms[i])], arrived)
  {
    assert ms[i] in ms;
    assert ms[..i + 1][..i] == ms[..i];
  }

  /** Exactly the arrived missiles are removed; every other missile moves one
      frame and stays, and nothing else enters either list. */
  lemma {:induction false} AdvanceSplits(root: real -> real, ms: seq<Missile>)
    requires Steady(ms)
    ensures |Advance(root, ms).flying| + |Advance(root, ms).arrived| == |ms|
    ensures forall m :: m in Advance(root, ms).arrived <==> m in ms && Arrived(root, m)
    ensures forall m :: m in ms && !Arrived(root, m) ==> Fly(root, m) in Advance(root, ms).flying
    ensures forall f :: f in Advance(root, ms).flying ==>
      exists m :: m in ms && !Arrived(root, m) && f == Fly(root, m)
  {
    if ms != [] {
      var n := |ms| - 1;
      assert ms == ms[..n] + [ms[n]];
      AdvanceSplits(root, ms[..n]);
    }
  }

  /** The arrivals are counted with their multiplicity: each copy of an
      arrived missile leaves the list once, so two identical interceptors
      that arrive together make two explosions. */
  lemma {:induction false} AdvanceCounts(root: real -> real, ms: seq<Missile>)
    requires Steady(ms)
    ensures forall m :: multiset(Advance(root, ms).arrived)[m] == if Arrived(root, m) then multiset(ms)[m] else 0
  {
    if ms != [] {
      var n := |ms| - 1;
      assert ms == ms[..n] + [ms[n]];
      assert multiset(ms) == multiset(ms[..n]) + multiset{ms[n]};
      AdvanceCounts(root, ms[..n]);
    }
  }

  /** Flying missiles keep their targets, speeds and sizes. */
  lemma {:induction false} AdvanceKeepsTargets(root: real -> real, ms: seq<Missile>)
    requires Steady(ms)
    ensures forall f :: f in Advance(root, ms).flying ==>
      exists m :: m in ms && (f.tx, f.ty, f.speed, f.width) == (m.tx, m.ty, m.speed, m.width)
  {
    AdvanceSplits(root, ms);
    forall f | f in Advance(root, ms).flying
      ensures exists m :: m in ms && (f.tx, f.ty, f.speed, f.width) == (m.tx, m.ty, m.speed, m.width)
    {
      var m :| m in ms && !Arrived(root, m) && f == Fly(root, m);
    }
  }

  /** The explosions the missile loop leaves: `es` is `start` followed by one
      white explosion per arrived missile, in order, at its target point; the
      k-th uses the random values from + 2k and from + 2k + 1. */
  ghost predicate Flashes(es: seq<Explosion>, start: seq<Explosion>, arrived: seq<Missile>,
                          random: nat -> real, from: nat) {
    |es| == |start| + |arrived| && es[..|start|] == start &&
    forall k :: 0 <= k < |arrived| ==>
      es[|start| + k] == NewExplosion(Blast(arrived[k].tx, arrived[k].ty, White), random(from + 2 * k), random(from + 2 * k + 1))
  }

  /** The createExplosion arguments of the missile loop, one per arrived missile. */
  function Blasts(arrived: seq<Missile>): seq<Blast>
  {
    seq(|arrived|, k requires 0 <= k < |arrived| => Blast(arrived[k].tx, arrived[k].ty, White))
  }

  lemma {:induction false} FlashesAre(es: seq<Explosion>, start: seq<Explosion>, arrived: seq<Missile>, random: nat -> real, from: nat)
    requires Flashes(es, start, arrived, random, from)
    ensures es == start + Sparks(Blasts(arrived), random, from)
  {
  }

  /** One more arrived missile, one more explosion after the others. */
  lemma {:induction false} FlashesStep(es: seq<Explosion>, es': seq<Explosion>, start: seq<Explosion>,
                                       arrived: seq<Missile>, m: Missile, random: nat -> real, from: nat)
    requires Flashes(es, start, arrived, random, from)
    requires var at := from + 2 * |arrived|;
      es' == es + [Spark(Blast(m.tx, m.ty, White), random, at)]
    ensures Flashes(es', start, arrived + [m], random, from)
  {
    assert es'[..|start|] == es[..|start|];
  }

  /** The explosion filter: every explosion steps once; those still visible
      (alpha and radius positive) are kept, in order. */
  function Fade(es: seq<Explosion>): (r: seq<Explosion>)
    ensures |r| <= |es|
    ensures forall e :: e in r ==> Alive(e)
  {
    if es == [] then []
    else
      var n := |es| - 1;
      var e := StepExplosion(es[n]);
      Fade(es[..n]) + (if Alive(e) then [e] else [])
  }

  /** Every explosion of `es`, stepped once, in order. */
  function Stepped(es: seq<Explosion>): seq<Explosion> {
    seq(|es|, k requires 0 <= k < |es| => StepExplosion(es[k]))
  }

  /** The filter keeps every copy of a stepped explosion that is still alive
      and no copy of one that is spent. */
  lemma {:induction false} FadeCounts(es: seq<Explosion>)
    ensures forall e :: multiset(Fade(es))[e] == if Alive(e) then multiset(Stepped(es))[e] else 0
  {
    if es != [] {
      var n := |es| - 1;
      assert Stepped(es) == Stepped(es[..n]) + [StepExplosion(es[n])];
      FadeCounts(es[..n]);
    }
  }

  /** The survivors of the filter are exactly the stepped explosions that are still alive. */
  lemma {:induction false} FadeKeeps(es: seq<Explosion>)
    ensures forall e :: e in es && Alive(StepExplosion(e)) ==> StepExplosion(e) in Fade(es)
    ensures forall e' :: e' in Fade(es) ==> exists e :: e in es && e' == StepExplosion(e)
  {
    if es != [] {
      var n := |es| - 1;
      assert es == es[..n] + [es[n]];
      FadeKeeps(es[..n]);
    }
  }
}
