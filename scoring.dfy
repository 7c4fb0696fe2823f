/** The two values the game derives for display: the performance verdict on
    the end screen and the width of the progress bar. */
module Scoring {
  import opened Entities

  datatype Rating = Flawless | Excellent | ValiantEffort | NeedsImprovement

  /** The text shown for each verdict. */
  function Label(r: Rating): string {
    match r
    case Flawless => "Flawless"
    case Excellent => "Excellent"
    case ValiantEffort => "Valiant Effort"
    case NeedsImprovement => "Needs Improvement"
  }

  /** The verdict endGame computes: a victory is Flawless without hits and
      Excellent otherwise; a loss is a Valiant Effort when more than half of
      all threats were intercepted. */
  function Rate(victory: bool, hits: int, intercepted: int): (r: Rating)
    ensures r == Flawless <==> victory && hits == 0
    ensures r == Excellent <==> victory && hits != 0
    ensures r == ValiantEffort <==> !victory && 2 * intercepted > TotalThreats
    ensures r == NeedsImprovement <==> !victory && 2 * intercepted <= TotalThreats
  {
    if victory then
      if hits == 0 then Flawless else Excellent
    else if intercepted as real > TotalThreats as real / 2.0 then ValiantEffort
    else NeedsImprovement
  }

  /** The progress bar width, in percent: the share of all threats that have
      been dealt with, clamped to [0, 100]. */
  function Progress(remainingSpawns: int, activeThreats: int): (p: real)
    ensures 0.0 <= p <= 100.0
    ensures var dealtWith := (TotalThreats - (remainingSpawns + activeThreats)) as real;
      0 <= TotalThreats - (remainingSpawns + activeThreats) <= TotalThreats ==>
        p == dealtWith / TotalThreats as real * 100.0
  {
    var dealtWith := TotalThreats - (remainingSpawns + activeThreats);
    var progress := (dealtWith as real / TotalThreats as real) * 100.0;
    if progress < 0.0 then 0.0 else if progress > 100.0 then 100.0 else progress
  }

  /** When every threat is still to spawn, in flight, hit or intercepted, the
      bar shows the hit and intercepted share without clamping, and it never
      moves backwards as more threats are dealt with. */
  lemma {:induction false} ProgressCounts(remaining: int, active: int, hits: int, intercepted: int)
    requires 0 <= remaining && 0 <= active && 0 <= hits && 0 <= intercepted
    requires remaining + active + hits + intercepted == TotalThreats
    ensures Progress(remaining, active) == (hits + intercepted) as real * 100.0 / TotalThreats as real
  {
  }

  lemma {:induction false} ProgressMonotone(remaining: int, active: int, remaining': int, active': int)
    requires remaining' + active' <= remaining + active
    ensures Progress(remaining, active) <= Progress(remaining', active')
  {
  }
}
