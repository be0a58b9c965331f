/** The round-by-round profit/loss ledger of src/utils/pnl-tracker.ts: an
    append-only list of round records with two running totals. Clock readings
    (`Date.now()`) are parameters; log output and alerts are not modelled. */
module PnL {
  import opened Types

  /** RoundPnL: one settled round. */
  datatype RoundPnL = RoundPnL(
    roundNumber: int,
    paradexPnL: real,
    lighterPnL: real,
    totalPnL: real,
    timestamp: int)

  /** The figures getStats reports. */
  datatype Stats = Stats(
    totalRounds: nat,
    totalParadexPnL: real,
    totalLighterPnL: real,
    totalPnL: real,
    runningTimeMs: int)

  function SumParadex(rounds: seq<RoundPnL>): real
  {
    if rounds == [] then 0.0 else SumParadex(rounds[..|rounds| - 1]) + rounds[|rounds| - 1].paradexPnL
  }

  function SumLighter(rounds: seq<RoundPnL>): real
  {
    if rounds == [] then 0.0 else SumLighter(rounds[..|rounds| - 1]) + rounds[|rounds| - 1].lighterPnL
  }

  function SumTotal(rounds: seq<RoundPnL>): real
  {
    if rounds == [] then 0.0 else SumTotal(rounds[..|rounds| - 1]) + rounds[|rounds| - 1].totalPnL
  }

  /** Every record's total is the sum of its two venue figures. */
  ghost predicate RecordsConsistent(rounds: seq<RoundPnL>)
  {
    forall i :: 0 <= i < |rounds| ==> rounds[i].totalPnL == rounds[i].paradexPnL + rounds[i].lighterPnL
  }

  /** Summing the per-round totals gives the same as summing each venue's
      figures and adding the two sums. */
  lemma {:induction false} SumTotalSplits(rounds: seq<RoundPnL>)
    requires RecordsConsistent(rounds)
    ensures SumTotal(rounds) == SumParadex(rounds) + SumLighter(rounds)
  {
    if rounds != [] {
      SumTotalSplits(rounds[..|rounds| - 1]);
    }
  }

  class PnLTracker {
    var rounds: seq<RoundPnL>
    var totalParadexPnL: real
    var totalLighterPnL: real
    const startTime: int

    /** The running totals always equal the sums over the recorded rounds. */
    ghost predicate Valid()
      reads this
    {
      && totalParadexPnL == SumParadex(rounds)
      && totalLighterPnL == SumLighter(rounds)
      && RecordsConsistent(rounds)
    }

    constructor(now: int)
      ensures Valid()
      ensures rounds == [] && startTime == now
    {
      rounds := [];
      totalParadexPnL := 0.0;
      totalLighterPnL := 0.0;
      startTime := now;
    }

    /** recordRound: appends exactly one record whose total is the sum of the
        two venue figures, leaves earlier records untouched and keeps the
        running totals equal to the sums over the list. */
    method RecordRound(roundNumber: int, paradexPnL: real, lighterPnL: real, now: int)
      requires Valid()
      modifies this
      ensures Valid()
      ensures rounds == old(rounds) + [RoundPnL(roundNumber, paradexPnL, lighterPnL, paradexPnL + lighterPnL, now)]
      ensures totalParadexPnL == old(totalParadexPnL) + paradexPnL
      ensures totalLighterPnL == old(totalLighterPnL) + lighterPnL
    {
      var totalPnL := paradexPnL + lighterPnL;
      rounds := rounds + [RoundPnL(roundNumber, paradexPnL, lighterPnL, totalPnL, now)];
      assert rounds[..|rounds| - 1] == old(rounds);
      totalParadexPnL := totalParadexPnL + paradexPnL;
      totalLighterPnL := totalLighterPnL + lighterPnL;
    }

    /** printRoundPnL: records exactly one round per call (its log lines and
        alert are not modelled). */
    method PrintRoundPnL(roundNumber: int, paradexPnL: real, lighterPnL: real, now: int)
      requires Valid()
      modifies this
      ensures Valid()
      ensures rounds == old(rounds) + [RoundPnL(roundNumber, paradexPnL, lighterPnL, paradexPnL + lighterPnL, now)]
    {
      RecordRound(roundNumber, paradexPnL, lighterPnL, now);
    }

    /** The average PnL per round of printCumulativePnL and printFinalSummary:
        reported only when at least one round was recorded, so it never
        divides by zero; times the number of rounds it gives the overall PnL. */
    function AveragePerRound(): (avg: Option<real>)
      reads this
      requires Valid()
      ensures avg.None? <==> |rounds| == 0
      ensures avg.Some? ==> avg.value * |rounds| as real == SumTotal(rounds)
    {
      SumTotalSplits(rounds);
      if |rounds| > 0 then Some((totalParadexPnL + totalLighterPnL) / |rounds| as real) else None
    }

    /** getStats: the number of rounds recorded and the overall PnL, which
        equals the sum of the per-round totals. */
    method GetStats(now: int) returns (s: Stats)
      requires Valid()
      ensures s.totalRounds == |rounds|
      ensures s.totalParadexPnL == SumParadex(rounds) && s.totalLighterPnL == SumLighter(rounds)
      ensures s.totalPnL == SumTotal(rounds)
      ensures s.runningTimeMs == now - startTime
    {
      SumTotalSplits(rounds);
      s := Stats(|rounds|, totalParadexPnL, totalLighterPnL,
                 totalParadexPnL + totalLighterPnL, now - startTime);
    }
  }

  /** formatPnL: "+" in front exactly when the figure is not negative, then "$"
      and `fixed`, the four-decimal rendering of the figure (toFixed(4), whose
      digits are not modelled). */
  function FormatPnL(pnl: real, fixed: string): (r: string)
    ensures |r| > 0
    ensures (r[0] == '+') <==> pnl >= 0.0
    ensures |r| == |fixed| + (if pnl >= 0.0 then 2 else 1)
    ensures r[|r| - |fixed| - 1] == '$' && r[|r| - |fixed|..] == fixed
  {
    (if pnl >= 0.0 then "+" else "") + "$" + fixed
  }

  /** The three shapes of formatRunningTime's output. */
  datatype RunningTime =
    | HoursMinutesSeconds(hours: nat, minutes: nat, seconds: nat)
    | MinutesSeconds(minutes: nat, seconds: nat)
    | SecondsOnly(seconds: nat)

  /** The whole milliseconds a rendered running time stands for. */
  function Millis(t: RunningTime): nat
  {
    match t
    case HoursMinutesSeconds(h, m, s) => h * 3600000 + m * 60000 + s * 1000
    case MinutesSeconds(m, s) => m * 60000 + s * 1000
    case SecondsOnly(s) => s * 1000
  }

  /** formatRunningTime: hours appear exactly when at least an hour elapsed,
      minutes exactly when at least a minute did; minutes and seconds stay
      below 60, and the rendering truncates the duration to whole seconds. */
  function FormatRunningTime(ms: nat): (r: RunningTime)
    ensures r.HoursMinutesSeconds? <==> ms >= 3600000
    ensures r.MinutesSeconds? <==> 60000 <= ms < 3600000
    ensures r.SecondsOnly? <==> ms < 60000
    ensures r.HoursMinutesSeconds? ==> r.minutes < 60 && r.seconds < 60
    ensures r.MinutesSeconds? ==> 0 < r.minutes < 60 && r.seconds < 60
    ensures Millis(r) <= ms < Millis(r) + 1000
  {
    var hours := ms / 3600000;
    var minutes := (ms % 3600000) / 60000;
    var seconds := (ms % 60000) / 1000;
    assert ms == hours * 3600000 + minutes * 60000 + seconds * 1000 + ms % 1000 by {
      DurationParts(ms);
    }
    if hours > 0 then HoursMinutesSeconds(hours, minutes, seconds)
    else if minutes > 0 then MinutesSeconds(minutes, seconds)
    else SecondsOnly(seconds)
  }

  /** Hours, minutes within the hour, seconds within the minute and the
      leftover milliseconds add back up to the duration. */
  lemma DurationParts(ms: nat)
    ensures ms == (ms / 3600000) * 3600000 + ((ms % 3600000) / 60000) * 60000
                  + ((ms % 60000) / 1000) * 1000 + ms % 1000
  {
    var rh := ms % 3600000;
    assert ms == (ms / 3600000) * 3600000 + rh;
    assert rh == (rh / 60000) * 60000 + rh % 60000;
    MinuteRemainder(ms);
    var rm := ms % 60000;
    assert rm == (rm / 1000) * 1000 + rm % 1000;
    SecondRemainder(ms);
  }

  /** The remainder within the minute is the same taken from the remainder
      within the hour. */
  lemma MinuteRemainder(ms: nat)
    ensures (ms % 3600000) % 60000 == ms % 60000
  {
    var h, r := ms / 3600000, ms % 3600000;
    var m, s := r / 60000, r % 60000;
    assert ms == (60 * h + m) * 60000 + s;
    ModOf60000(ms, 60 * h + m, s);
  }

  /** The leftover milliseconds are the same taken from the remainder within
      the minute. */
  lemma SecondRemainder(ms: nat)
    ensures (ms % 60000) % 1000 == ms % 1000
  {
    var h, r := ms / 60000, ms % 60000;
    var m, s := r / 1000, r % 1000;
    assert ms == (60 * h + m) * 1000 + s;
    ModOf1000(ms, 60 * h + m, s);
  }

  lemma ModOf60000(x: int, a: int, b: int)
    requires x == a * 60000 + b && 0 <= b < 60000
    ensures x % 60000 == b
  {
  }

  lemma ModOf1000(x: int, a: int, b: int)
    requires x == a * 1000 + b && 0 <= b < 1000
    ensures x % 1000 == b
  {
  }
}
