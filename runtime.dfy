/** The runtime breakdown of the concourse callback plugin
    (`CallbackModule._human_runtime`): a `timedelta` split into days, hours,
    minutes and seconds. */
module Runtime {

  /** The tuple `(days, hours, minutes, seconds)`. */
  datatype Breakdown = Breakdown(days: int, hours: int, minutes: int, seconds: int)

  /** `_human_runtime` as written, for a `timedelta` with `days` and `seconds`
      (a `timedelta` keeps `seconds` in 0..86399). The seconds are the total seconds
      less the minutes part only, so whole hours stay in them. */
  function HumanRuntime(days: int, seconds: nat): Breakdown {
    var minutes := (seconds / 60) % 60;
    var rSeconds := seconds - minutes * 60;
    Breakdown(days, seconds / 3600, minutes, rSeconds)
  }

  /** The days pass through; hours are the whole hours; minutes lie in 0..59 and are
      the whole minutes past the hour; the seconds are never negative. */
  lemma HumanRuntimeBounds(days: int, seconds: nat)
    ensures var r := HumanRuntime(days, seconds);
      && r.days == days
      && 3600 * r.hours <= seconds < 3600 * (r.hours + 1)
      && 0 <= r.minutes < 60
      && 60 * r.minutes <= seconds % 3600 < 60 * (r.minutes + 1)
      && r.seconds >= 0
  {
    var m := seconds / 60;
    assert seconds % 3600 == 60 * (m % 60) + seconds % 60 by {
      DivModSplit(seconds);
    }
  }

  /** `seconds % 3600` split into minutes and seconds. */
  lemma DivModSplit(n: nat)
    ensures n % 3600 == 60 * ((n / 60) % 60) + n % 60
  {
    var m := n / 60;
    assert n == 60 * m + n % 60;
    assert m == 60 * (m / 60) + m % 60;
    assert n == 3600 * (m / 60) + 60 * (m % 60) + n % 60;
    assert m / 60 == n / 3600;
  }

  /** Under an hour the breakdown is exact: no hours, and minutes and seconds add up. */
  lemma ShortRuntime(days: int, seconds: nat)
    requires seconds < 3600
    ensures var r := HumanRuntime(days, seconds);
      && r.hours == 0
      && 60 * r.minutes + r.seconds == seconds
      && 0 <= r.seconds < 60
  {
    assert seconds / 60 < 60;
  }

  /** From an hour on, the seconds still hold the whole hours: they are
      `3600 * hours + seconds % 60`, at least 3600. */
  lemma LongRuntimeKeepsHours(days: int, seconds: nat)
    requires seconds >= 3600
    ensures var r := HumanRuntime(days, seconds);
      && r.hours >= 1
      && r.seconds == 3600 * r.hours + seconds % 60
      && r.seconds >= 3600
  {
    DivModSplit(seconds);
    assert seconds == 3600 * (seconds / 3600) + seconds % 3600;
  }

  /** One hour, one minute and forty seconds come out as 1 hour, 1 minute and 3640 seconds. */
  lemma RuntimeExample(days: int)
    ensures HumanRuntime(days, 3700) == Breakdown(days, 1, 1, 3640)
    ensures 3600 * 1 + 60 * 1 + 3640 != 3700
  {
  }

  /** The breakdown with the seconds reduced modulo 60. */
  function HumanRuntimeFixed(days: int, seconds: nat): Breakdown {
    Breakdown(days, seconds / 3600, (seconds / 60) % 60, seconds % 60)
  }

  /** The corrected breakdown is exact for every runtime: each component is in range
      and together they add up to the seconds of the runtime. */
  lemma FixedRecombines(days: int, seconds: nat)
    ensures var r := HumanRuntimeFixed(days, seconds);
      && r.days == days
      && 0 <= r.minutes < 60 && 0 <= r.seconds < 60 && r.hours >= 0
      && 3600 * r.hours + 60 * r.minutes + r.seconds == seconds
  {
    DivModSplit(seconds);
    assert seconds == 3600 * (seconds / 3600) + seconds % 3600;
  }

  /** Under an hour both breakdowns agree. */
  lemma FixedAgreesUnderAnHour(days: int, seconds: nat)
    requires seconds < 3600
    ensures HumanRuntimeFixed(days, seconds) == HumanRuntime(days, seconds)
  {
    ShortRuntime(days, seconds);
  }
}
