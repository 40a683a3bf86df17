/**
 * The score panel: score fields with `??` defaults (only a missing value is
 * replaced, so 0 stays 0), the elapsed-seconds counter kept up to date by a
 * one-second `setInterval` while a run is in progress, and the minute/second
 * split of that counter.
 */
module ScorePanel {
  import opened Options
  import opened Schema
  import RunStatus

  function DisplayScore(sb: Option<Scores>): int {
    if sb.Some? then sb.value.finalTotalScore.GetOr(100) else 100
  }

  function BaseScore(sb: Option<Scores>): int {
    if sb.Some? then sb.value.baseScore.GetOr(100) else 100
  }

  function SpeedBonus(sb: Option<Scores>): int {
    if sb.Some? then sb.value.speedBonus.GetOr(0) else 0
  }

  function Penalty(sb: Option<Scores>): int {
    if sb.Some? then sb.value.efficiencyPenalty.GetOr(0) else 0
  }

  /** A present value is shown whatever it is, 0 included; only a missing one takes the default. */
  lemma ScoreDefaults(sb: Option<Scores>)
    ensures sb.None? ==> DisplayScore(sb) == 100 && BaseScore(sb) == 100 && SpeedBonus(sb) == 0 && Penalty(sb) == 0
    ensures sb.Some? && sb.value.finalTotalScore.Some? ==> DisplayScore(sb) == sb.value.finalTotalScore.value
    ensures sb.Some? && sb.value.finalTotalScore.None? ==> DisplayScore(sb) == 100
    ensures sb.Some? && sb.value.baseScore.Some? ==> BaseScore(sb) == sb.value.baseScore.value
    ensures sb.Some? && sb.value.speedBonus.Some? ==> SpeedBonus(sb) == sb.value.speedBonus.value
    ensures sb.Some? && sb.value.efficiencyPenalty.Some? ==> Penalty(sb) == sb.value.efficiencyPenalty.value
    ensures sb == Some(Scores(Some(0), Some(0), Some(0), Some(0))) ==> DisplayScore(sb) == 0 && BaseScore(sb) == 0
  {
  }

  /** JavaScript's `%`: the remainder takes the sign of the dividend. */
  function JsRemainder(a: int, b: int): (r: int)
    requires b > 0
    ensures a >= 0 ==> 0 <= r < b
    ensures a < 0 ==> -b < r <= 0
  {
    if a >= 0 then a % b else -((-a) % b)
  }

  /**
   * The JavaScript remainder agrees with Dafny's `%` on a non-negative
   * dividend, and, unlike Dafny's, the remainder of a negated dividend is
   * the negated remainder.
   */
  lemma JsRemainderNegates(a: int, b: int)
    requires b > 0
    ensures a >= 0 ==> JsRemainder(a, b) == a % b
    ensures JsRemainder(-a, b) == -JsRemainder(a, b)
  {
    if a > 0 {
      assert JsRemainder(-a, b) == -(a % b);
    } else if a < 0 {
      assert JsRemainder(a, b) == -((-a) % b);
    } else {
      assert JsRemainder(0, b) == 0;
    }
  }

  /** `Math.floor(elapsed / 60)` minutes and `elapsed % 60` seconds. */
  function Duration(elapsed: int): (ms: (int, int)) {
    (elapsed / 60, JsRemainder(elapsed, 60))
  }

  lemma DurationSplits(elapsed: int)
    requires elapsed >= 0
    ensures var (m, s) := Duration(elapsed); 60 * m + s == elapsed && 0 <= s < 60 && m >= 0
  {
  }

  /**
   * The component's `elapsedTime` state and the interval the effect keeps:
   * `ticker` holds the `startTime` the active interval captured, or is `None`
   * when no interval runs.
   */
  class ElapsedTicker {
    var elapsed: int
    var ticker: Option<int>

    constructor ()
      ensures elapsed == 0 && ticker == None
    {
      elapsed := 0;
      ticker := None;
    }

    /** The effect re-run on a change of `isRunning` or `startTime`: clear the old interval, start one only while running with a start time. */
    method Sync(isRunning: bool, startTime: Option<int>)
      modifies this
      ensures elapsed == old(elapsed)
      ensures ticker == (if isRunning && RunStatus.StartTimeSet(startTime) then startTime else None)
    {
      ticker := None;
      if isRunning && startTime.Some? && startTime.value != 0 {
        ticker := startTime;
      }
    }

    /** One firing of the one-second interval, with `Date.now()` as `now`. */
    method Tick(now: int)
      requires ticker.Some?
      modifies this
      ensures ticker == old(ticker)
      ensures elapsed == RunStatus.ElapsedSeconds(now, ticker.value)
      ensures now >= ticker.value ==> elapsed >= 0
    {
      elapsed := (now - ticker.value) / 1000;
    }
  }
}
